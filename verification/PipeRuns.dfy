// What every run of a pipe keeps.
module PipeRuns {
  import opened PipeModel

  lemma WriteKeeps(s: State, t: Tid, buf: seq<byte>, i: nat)
    requires Inv(s) && s.pipe.writer && i <= |buf| && (t in s.ops ==> s.ops[t] == Write(buf, i))
    requires t !in s.hasData && t !in s.hasSpace
    ensures Inv(WriteOf(s, t, buf, i))
  {
    var s' := WriteOf(s, t, buf, i);
    forall u | u in s'.ops
      ensures OpOk(s', u)
    {
      assert u != t ==> OpOk(s, u);
    }
  }

  lemma ReadKeeps(s: State, t: Tid, n: nat, got: seq<byte>)
    requires Inv(s) && s.pipe.reader && |got| <= n && (t in s.ops ==> s.ops[t] == Read(n, got))
    requires t !in s.hasData && t !in s.hasSpace
    ensures Inv(ReadOf(s, t, n, got))
  {
    var s' := ReadOf(s, t, n, got);
    forall u | u in s'.ops
      ensures OpOk(s', u)
    {
      assert u != t ==> OpOk(s, u);
    }
  }

  lemma CloseKeeps(s: State, a: Action)
    requires Inv(s) && Enabled(s, a) && (a.CloseWriter? || a.CloseReader?)
    ensures Inv(Next(s, a))
  {
    forall t | t in s.ops
      ensures OpOk(s, t) && OpOk(Next(s, a), t)
    {
      assert OpOk(s, t);
    }
  }

  lemma NextKeepsInv(s: State, a: Action)
    requires Inv(s) && Enabled(s, a)
    ensures Inv(Next(s, a))
  {
    match a
    case BeginWrite(t, buf) =>
      if s.pipe.reader { WriteKeeps(s, t, buf, 0); }
    case BeginRead(t, n) =>
      ReadKeeps(s, t, n, []);
    case Resume(t) =>
      assert OpOk(s, t);
      match s.ops[t] {
        case Write(buf, i) => WriteKeeps(s, t, buf, i);
        case Read(n, got) => ReadKeeps(s, t, n, got);
      }
    case CloseWriter => CloseKeeps(s, a);
    case CloseReader => CloseKeeps(s, a);
  }

  lemma {:induction false} RunsKeepInv(states: seq<State>, actions: seq<Action>, i: nat)
    requires Run(states, actions) && i < |states|
    ensures Inv(states[i])
  {
    if i > 0 {
      RunsKeepInv(states, actions, i - 1);
      NextKeepsInv(states[i - 1], actions[i - 1]);
    }
  }

  // --- the bytes

  // Whatever readers and writers do, the bytes come out as they went in: those
  // accepted are those delivered, and then those in the ring.
  lemma BytesAreConserved(states: seq<State>, actions: seq<Action>, i: nat)
    requires Run(states, actions) && i < |states|
    ensures states[i].accepted == states[i].delivered + states[i].pipe.contents
    ensures |states[i].delivered| <= |states[i].accepted| <= |states[i].delivered| + CAPACITY
  {
    RunsKeepInv(states, actions, i);
  }

  // Nothing accepted is taken back, and nothing delivered is delivered again.
  lemma {:induction false} HistoryGrows(states: seq<State>, actions: seq<Action>, i: nat, j: nat)
    requires Run(states, actions) && i <= j < |states|
    ensures states[i].accepted <= states[j].accepted
    ensures states[i].delivered <= states[j].delivered
  {
    if i < j {
      HistoryGrows(states, actions, i, j - 1);
    }
  }

  // --- the answers

  // pipe_read answers n, having got n bytes; or it answers fewer, and then no
  // writer is left and the ring is drained.  It never answers -1.
  lemma ReadAnswers(s: State, a: Action)
    requires Inv(s) && Enabled(s, a) && ReadsOn(s, a)
    ensures var n := if a.BeginRead? then a.n else s.ops[a.t].n;
            var got := if a.BeginRead? then [] else s.ops[a.t].got;
            var s' := Next(s, a);
            match Answer(s, a)
            case Sleeps => a.t in s'.ops && a.t in s'.hasData && s'.pipe.contents == [] && s'.pipe.writer
            case Returns(ret) =>
              && a.t !in s'.ops
              && 0 <= ret <= n && ret == |got| + |s'.delivered| - |s.delivered|
              && (ret < n ==> !s'.pipe.writer && s'.pipe.contents == [])
  {
    if a.Resume? {
      assert OpOk(s, a.t);
    }
  }

  // pipe_write answers that every byte was accepted, or -1; and -1 just when no
  // reader is left.
  lemma WriteAnswers(s: State, a: Action)
    requires Inv(s) && Enabled(s, a) && (a.BeginWrite? || (a.Resume? && s.ops[a.t].Write?))
    ensures var buf := if a.BeginWrite? then a.buf else s.ops[a.t].buf;
            var i := if a.BeginWrite? then 0 else s.ops[a.t].i;
            var s' := Next(s, a);
            match Answer(s, a)
            case Sleeps => a.t in s'.ops && a.t in s'.hasSpace && |s'.pipe.contents| == CAPACITY && s'.pipe.reader
            case Returns(ret) =>
              && a.t !in s'.ops
              && (ret == -1 <==> !s.pipe.reader)
              && (ret != -1 ==> ret == |buf| && s'.accepted == s.accepted + buf[i..])
  {
    if a.Resume? {
      assert OpOk(s, a.t);
    }
  }

  // --- the sleepers

  // A reader sleeps only on an empty pipe that can still be written, a writer
  // only on a full one that can still be read; so never both.
  lemma SleepersAreBlocked(states: seq<State>, actions: seq<Action>, i: nat)
    requires Run(states, actions) && i < |states|
    ensures states[i].hasData != {} ==> states[i].pipe.contents == [] && states[i].pipe.writer && states[i].pipe.reader
    ensures states[i].hasSpace != {} ==>
              |states[i].pipe.contents| == CAPACITY && states[i].pipe.reader && states[i].pipe.writer
    ensures states[i].hasData == {} || states[i].hasSpace == {}
  {
    RunsKeepInv(states, actions, i);
    var s := states[i];
    if t :| t in s.hasData {
      assert OpOk(s, t);
    }
    if t :| t in s.hasSpace {
      assert OpOk(s, t);
    }
  }

  // No call is stuck for ever on a wakeup that was missed: a read that has bytes
  // to take, or an end of stream to report, is not asleep; nor is a write that
  // has space, or nobody to write to.
  lemma ReadyCallsAreAwake(states: seq<State>, actions: seq<Action>, i: nat, t: Tid)
    requires Run(states, actions) && i < |states| && t in states[i].ops
    ensures states[i].ops[t].Read? && (states[i].pipe.contents != [] || !states[i].pipe.writer) ==>
              Enabled(states[i], Resume(t))
    ensures states[i].ops[t].Write? && (|states[i].pipe.contents| < CAPACITY || !states[i].pipe.reader) ==>
              Enabled(states[i], Resume(t))
  {
    RunsKeepInv(states, actions, i);
  }

  // When both ends are closed, which frees the pipe, no call is inside it.
  lemma FreedPipeIsUnused(states: seq<State>, actions: seq<Action>, i: nat)
    requires Run(states, actions) && i < |states| && !states[i].pipe.reader && !states[i].pipe.writer
    ensures states[i].ops == map[] && states[i].hasData == {} && states[i].hasSpace == {}
  {
    RunsKeepInv(states, actions, i);
    SleepersAreBlocked(states, actions, i);
    assert forall t :: t in states[i].ops ==> OpOk(states[i], t);
  }

  // A call goes on by its own thread's steps only.
  lemma CallsAreOwn(s: State, a: Action, u: Tid)
    requires Enabled(s, a) && (a.CloseWriter? || a.CloseReader? || a.t != u)
    ensures u in Next(s, a).ops <==> u in s.ops
    ensures u in s.ops ==> Next(s, a).ops[u] == s.ops[u]
  {
  }

  // --- calls that do not overlap with others of their kind

  predicate ReadsOn(s: State, a: Action)
  {
    a.BeginRead? || (a.Resume? && a.t in s.ops && s.ops[a.t].Read?)
  }

  predicate OtherRead(s: State, a: Action, t: Tid)
  {
    ReadsOn(s, a) && a.t != t
  }

  predicate OtherWrite(s: State, a: Action, t: Tid)
  {
    (a.BeginWrite? || (a.Resume? && a.t in s.ops && s.ops[a.t].Write?)) && a.t != t
  }

  // t has taken the next bytes out of the pipe since `delivered` was `before`.
  predicate Got(s: State, t: Tid, before: seq<byte>)
  {
    t in s.ops && s.ops[t].Read? && s.delivered == before + s.ops[t].got
  }

  // One step during a read with no other read beside it.
  lemma ReadMovesOn(s: State, a: Action, t: Tid, before: seq<byte>)
    requires Enabled(s, a) && t in Next(s, a).ops && !OtherRead(s, a, t) && Got(s, t, before)
    ensures Got(Next(s, a), t, before)
  {
    var s', op := Next(s, a), s.ops[t];
    if a.Resume? && a.t != t {
      assert s' == WriteOf(s, a.t, s.ops[a.t].buf, s.ops[a.t].i);
    } else if a.Resume? {
      assert s' == ReadOf(s, t, op.n, op.got);
      assert s'.ops[t].got == op.got + s'.ops[t].got[|op.got|..];
    }
  }

  lemma LoneReadBegins(s: State, a: Action)
    requires Enabled(s, a) && a.BeginRead? && a.t in Next(s, a).ops
    ensures Got(Next(s, a), a.t, s.delivered)
  {
    assert Next(s, a).ops[a.t].got[0..] == Next(s, a).ops[a.t].got;
  }

  // A read that waits, with no other read beside it, gets the very next bytes of
  // the stream, however many writes and waits come in between.
  lemma {:induction false} LoneReadGetsTheNextBytes(states: seq<State>, actions: seq<Action>, i: nat, j: nat, t: Tid)
    requires Run(states, actions) && i < j < |states| && actions[i].BeginRead? && actions[i].t == t
    requires forall k :: i < k < j ==> !OtherRead(states[k], actions[k], t)
    requires forall k :: i < k <= j ==> t in states[k].ops
    ensures Got(states[j], t, states[i].delivered)
  {
    var k := j - 1;
    assert t in states[j].ops;
    if i < k {
      LoneReadGetsTheNextBytes(states, actions, i, k, t);
      ReadMovesOn(states[k], actions[k], t, states[i].delivered);
    } else {
      LoneReadBegins(states[k], actions[k]);
    }
  }

  // What the caller's buffer holds when a step of its pipe_read is over.
  function Buffer(s: State, a: Action): seq<byte>
    requires ReadsOn(s, a)
  {
    if a.BeginRead? then ReadStep(s.pipe, a.n, []).got else ReadStep(s.pipe, s.ops[a.t].n, s.ops[a.t].got).got
  }

  lemma StepFillsBuffer(s: State, a: Action, before: seq<byte>)
    requires Inv(s) && Enabled(s, a) && ReadsOn(s, a)
    requires if a.BeginRead? then s.delivered == before else Got(s, a.t, before)
    ensures Next(s, a).delivered == before + Buffer(s, a)
    ensures Answer(s, a).Returns? ==> Answer(s, a).ret == |Buffer(s, a)|
  {
    var got := if a.BeginRead? then [] else s.ops[a.t].got;
    var all := Buffer(s, a);
    assert got + all[|got|..] == all;
    if a.Resume? {
      assert OpOk(s, a.t);
    }
  }

  // A read with no other read beside it hands back the very next bytes of the
  // stream, as many as it answers, whether or not it had to wait for them.
  lemma LoneReadAnswersTheNextBytes(states: seq<State>, actions: seq<Action>, i: nat, j: nat, t: Tid)
    requires Run(states, actions) && i <= j < |actions| && actions[i].BeginRead? && actions[i].t == t
    requires forall k :: i < k < j ==> !OtherRead(states[k], actions[k], t)
    requires forall k :: i < k <= j ==> t in states[k].ops
    requires j == i || actions[j] == Resume(t)
    requires Answer(states[j], actions[j]).Returns?
    ensures ReadsOn(states[j], actions[j])
    ensures var buf := Buffer(states[j], actions[j]);
            && Answer(states[j], actions[j]) == Returns(|buf|)
            && states[j + 1].delivered == states[i].delivered + buf
            && states[i].delivered + buf <= states[j + 1].accepted
  {
    RunsKeepInv(states, actions, j);
    if i < j {
      LoneReadGetsTheNextBytes(states, actions, i, j, t);
    }
    StepFillsBuffer(states[j], actions[j], states[i].delivered);
    BytesAreConserved(states, actions, j + 1);
  }

  // t has put the first bytes of buf into the pipe since `accepted` was `before`.
  predicate Wrote(s: State, t: Tid, before: seq<byte>, buf: seq<byte>)
  {
    && t in s.ops && s.ops[t].Write? && s.ops[t].buf == buf && s.ops[t].i <= |buf|
    && s.accepted == before + buf[..s.ops[t].i]
  }

  // One step during a write with no other write beside it.
  lemma WriteMovesOn(s: State, a: Action, t: Tid, before: seq<byte>, buf: seq<byte>)
    requires Enabled(s, a) && t in Next(s, a).ops && !OtherWrite(s, a, t) && Wrote(s, t, before, buf)
    ensures Wrote(Next(s, a), t, before, buf)
  {
    var s', m := Next(s, a), s.ops[t].i;
    if a.Resume? && a.t != t {
      var op := s.ops[a.t];
      assert op.Read? && s' == ReadOf(s, a.t, op.n, op.got);
    } else if a.Resume? {
      assert s' == WriteOf(s, t, buf, m);
      assert buf[..m] + buf[m..s'.ops[t].i] == buf[..s'.ops[t].i];
    }
  }

  lemma {:induction false} LoneWriteIsContiguous(states: seq<State>, actions: seq<Action>, i: nat, j: nat, t: Tid)
    requires Run(states, actions) && i < j < |states| && actions[i].BeginWrite? && actions[i].t == t
    requires forall k :: i < k < j ==> !OtherWrite(states[k], actions[k], t)
    requires forall k :: i < k <= j ==> t in states[k].ops
    ensures Wrote(states[j], t, states[i].accepted, actions[i].buf)
  {
    var k := j - 1;
    assert t in states[j].ops;
    if i < k {
      LoneWriteIsContiguous(states, actions, i, k, t);
      WriteMovesOn(states[k], actions[k], t, states[i].accepted, actions[i].buf);
    } else {
      LoneWriteBegins(states[k], actions[k]);
    }
  }

  lemma LoneWriteBegins(s: State, a: Action)
    requires Enabled(s, a) && a.BeginWrite? && a.t in Next(s, a).ops
    ensures Wrote(Next(s, a), a.t, s.accepted, a.buf)
  {
  }

  // --- what closing an end decides

  // Closing an end closes that end and nothing else; it can be done as long as
  // nobody is inside a call that uses it, and such a call as long as it is open.
  lemma ClosingOneEnd(s: State, t: Tid, buf: seq<byte>, n: nat)
    requires Inv(s)
    ensures s.pipe.writer && (forall u :: u in s.ops ==> !s.ops[u].Write?) ==>
              && Enabled(s, CloseWriter)
              && var s' := Next(s, CloseWriter);
                 && s'.pipe == s.pipe.(writer := false) && s'.ops == s.ops && s'.hasSpace == s.hasSpace
                 && s'.accepted == s.accepted && s'.delivered == s.delivered
    ensures s.pipe.reader && (forall u :: u in s.ops ==> !s.ops[u].Read?) ==>
              && Enabled(s, CloseReader)
              && var s' := Next(s, CloseReader);
                 && s'.pipe == s.pipe.(reader := false) && s'.ops == s.ops && s'.hasData == s.hasData
                 && s'.accepted == s.accepted && s'.delivered == s.delivered
    ensures t !in s.ops ==>
              (Enabled(s, BeginWrite(t, buf)) <==> s.pipe.writer) && (Enabled(s, BeginRead(t, n)) <==> s.pipe.reader)
  {
  }

  // Once the writer is closed nothing more is accepted; a reader never sleeps
  // again, and gets the bytes that were left.
  lemma {:induction false} AfterWriterCloses(states: seq<State>, actions: seq<Action>, i: nat, j: nat)
    requires Run(states, actions) && i <= j < |states| && !states[i].pipe.writer
    ensures !states[j].pipe.writer && states[j].hasData == {}
    ensures states[j].accepted == states[i].accepted
    ensures states[i].delivered <= states[j].delivered
    ensures states[i].pipe.contents == states[j].delivered[|states[i].delivered|..] + states[j].pipe.contents
    decreases j - i
  {
    RunsKeepInv(states, actions, i);
    RunsKeepInv(states, actions, j);
    HistoryGrows(states, actions, i, j);
    if i < j {
      AfterWriterCloses(states, actions, i, j - 1);
      RunsKeepInv(states, actions, j - 1);
      var s, a := states[j - 1], actions[j - 1];
      if a.Resume? {
        assert OpOk(s, a.t);
      }
    }
    assert states[i].accepted == states[i].delivered + states[i].pipe.contents;
    assert states[i].accepted == states[j].delivered + states[j].pipe.contents;
    DropCommon(states[i].delivered, states[i].pipe.contents, states[j].delivered, states[j].pipe.contents);
  }

  lemma DropCommon(a: seq<byte>, b: seq<byte>, c: seq<byte>, d: seq<byte>)
    requires a + b == c + d && a <= c
    ensures b == c[|a|..] + d
  {
    assert (a + b)[|a|..] == b;
    assert (c + d)[|a|..] == c[|a|..] + d;
  }
}
