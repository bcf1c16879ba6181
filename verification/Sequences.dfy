// Sequences without duplicates, and what the models do to them.
module Sequences {

  datatype Option<T> = None | Some(value: T)

  predicate Distinct<T(==)>(q: seq<T>)
  {
    forall i, j :: 0 <= i < j < |q| ==> q[i] != q[j]
  }

  lemma DistinctConcat<T>(q: seq<T>, r: seq<T>)
    requires Distinct(q) && Distinct(r) && forall x :: x in q ==> x !in r
    ensures Distinct(q + r)
  {
    forall i, j | 0 <= i < j < |q + r|
      ensures (q + r)[i] != (q + r)[j]
    {
      if i < |q| <= j {
        assert q[i] in q && r[j - |q|] in r;
      }
    }
  }

  // The first x is taken out.
  function Remove<T(==)>(q: seq<T>, x: T): seq<T>
  {
    if q == [] then [] else if q[0] == x then q[1..] else [q[0]] + Remove(q[1..], x)
  }

  lemma {:induction false} RemoveKeeps<T>(q: seq<T>, x: T)
    requires Distinct(q)
    ensures Distinct(Remove(q, x))
    ensures forall y :: y in Remove(q, x) ==> y in q && y != x
    ensures forall y :: y in q && y != x ==> y in Remove(q, x)
  {
    if q != [] {
      RemoveKeeps(q[1..], x);
      assert q == [q[0]] + q[1..] && q[0] !in q[1..];
    }
  }

  lemma {:induction false} RemoveAbsent<T>(q: seq<T>, x: T)
    requires x !in q
    ensures Remove(q, x) == q
  {
    if q != [] {
      assert q == [q[0]] + q[1..];
      RemoveAbsent(q[1..], x);
    }
  }

  // Where x was, and what is left.
  lemma {:induction false} RemoveIndex<T>(q: seq<T>, x: T) returns (i: nat)
    ensures i <= |q| && (i < |q| ==> q[i] == x && Remove(q, x) == q[..i] + q[i + 1..])
    ensures x !in q[..i] && (i == |q| ==> Remove(q, x) == q)
  {
    if q == [] || q[0] == x {
      i := 0;
    } else {
      var j := RemoveIndex(q[1..], x);
      i := j + 1;
      if i < |q| {
        assert q[..i] + q[i + 1..] == [q[0]] + (q[1..][..j] + q[1..][j + 1..]);
      }
    }
  }

  function Reverse<T>(q: seq<T>): (r: seq<T>)
    ensures |r| == |q| && forall i :: 0 <= i < |q| ==> r[i] == q[|q| - 1 - i]
  {
    if q == [] then [] else Reverse(q[1..]) + [q[0]]
  }

  lemma ReverseFacts<T>(q: seq<T>)
    ensures forall x :: x in Reverse(q) ==> x in q
    ensures forall x :: x in q ==> x in Reverse(q)
    ensures Distinct(q) ==> Distinct(Reverse(q))
  {
    var r := Reverse(q);
    forall x | x in q
      ensures x in r
    {
      var i :| 0 <= i < |q| && q[i] == x;
      assert r[|q| - 1 - i] == x;
    }
    forall i, j | Distinct(q) && 0 <= i < j < |r|
      ensures r[i] != r[j]
    {
      assert q[|q| - 1 - j] != q[|q| - 1 - i];
    }
  }

  lemma {:induction false} ReverseKeepsAll<T>(q: seq<T>)
    ensures multiset(Reverse(q)) == multiset(q)
  {
    if q != [] {
      ReverseKeepsAll(q[1..]);
      assert q == [q[0]] + q[1..];
    }
  }

  // Reversing moves something unless there is nothing to move.
  lemma ReverseIsSameIff<T>(q: seq<T>)
    requires Distinct(q)
    ensures Reverse(q) == q <==> |q| <= 1
  {
    if |q| > 1 {
      assert Reverse(q)[0] == q[|q| - 1] != q[0];
    }
  }

  lemma {:induction false} ReverseAppend<T>(q: seq<T>, x: T)
    ensures Reverse(q + [x]) == [x] + Reverse(q)
  {
    if q != [] {
      ReverseAppend(q[1..], x);
      assert (q + [x])[1..] == q[1..] + [x];
    }
  }
}
