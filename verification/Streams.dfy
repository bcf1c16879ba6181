// The calls of kernel_streams.c, on the table of FCBs and the file tables.
module Streams {
  import opened Sequences
  import opened StreamModel
  import opened StreamRuns

  const MAX_PROC: nat := 65536

  datatype Pointer = Null | To(fcb: Fcb)

  class FileTables {
    const refcount: array<int>           // FT[f].refcount
    var free: seq<Fcb>                   // FCB_freelist
    const fidt: array2<Pointer>          // PT[p].FIDT[fd]
    var using: map<Tid, Fcb>             // the FCBs that reads and writes have taken
    ghost var reserved: seq<nat>
    ghost var closed: seq<nat>
    ghost var unreserved: seq<nat>

    ghost predicate Arrays()
      reads this
    {
      refcount.Length == MAX_FILES && fidt.Length0 == MAX_PROC && fidt.Length1 == MAX_FILEID
    }

    ghost predicate Named(r: Ref)
      requires Arrays()
      reads this, fidt
    {
      match r
      case Slot(p, fd) => p < MAX_PROC && LegalFd(fd) && fidt[p, fd].To?
      case Using(t) => t in using
    }

    ghost function NameOf(r: Ref): Fcb
      requires Arrays() && Named(r)
      reads this, fidt
    {
      match r
      case Slot(p, fd) => fidt[p, fd].fcb
      case Using(t) => using[t]
    }

    ghost function Refs(): map<Ref, Fcb>
      requires Arrays()
      reads this, fidt
    {
      var slots := set p: nat, fd | 0 <= p < MAX_PROC && 0 <= fd < MAX_FILEID :: Slot(p, fd);
      var uses := set t | t in using :: Using(t);
      map r | r in slots + uses && Named(r) :: NameOf(r)
    }

    ghost function Now(): State
      requires Arrays()
      reads this, refcount, fidt
    {
      State(refcount[..], free, Refs(), reserved, closed, unreserved)
    }

    ghost predicate Valid()
      reads this, refcount, fidt
    {
      Arrays() && Inv(Now())
    }

    lemma RefsAre()
      requires Arrays()
      ensures forall r :: r in Refs() <==> Named(r)
      ensures forall r :: r in Refs() ==> Refs()[r] == NameOf(r)
    {
    }

    lemma RefIs(r: Ref)
      requires Arrays()
      ensures r in Refs() <==> Named(r)
      ensures r in Refs() ==> Refs()[r] == NameOf(r)
    {
    }

    // --- one FCB

    method SetSlot(p: Pid, fd: Fid, to: Pointer)
      requires Arrays() && p < MAX_PROC && LegalFd(fd)
      modifies fidt
      ensures Refs() == if to.To? then old(Refs())[Slot(p, fd) := to.fcb] else old(Refs()) - {Slot(p, fd)}
      ensures fidt[p, fd] == to
      ensures forall q, e :: 0 <= q < MAX_PROC && 0 <= e < MAX_FILEID && (q != p || e != fd) ==>
                fidt[q, e] == old(fidt[q, e])
    {
      RefsAre();
      fidt[p, fd] := to;
      RefsAre();
    }

    method SetUse(t: Tid, to: Pointer)
      requires Arrays()
      modifies `using
      ensures Refs() == if to.To? then old(Refs())[Using(t) := to.fcb] else old(Refs()) - {Using(t)}
    {
      RefsAre();
      if to.To? {
        using := using[t := to.fcb];
      } else {
        using := using - {t};
      }
      RefsAre();
    }

    method Incref(f: Fcb)
      requires Arrays() && f < MAX_FILES
      modifies refcount
      ensures refcount[..] == old(refcount[..])[f := old(refcount[f]) + 1]
    {
      refcount[f] := refcount[f] + 1;
    }

    // FCB_decref; the stream's Close is `closed` counting.
    method Decref(f: Fcb)
      requires Arrays() && f < MAX_FILES && |closed| == MAX_FILES
      modifies refcount, `free, `closed
      ensures refcount[..] == old(refcount[..])[f := old(refcount[f]) - 1]
      ensures if old(refcount[f]) == 1 then free == old(free) + [f] && closed == old(closed)[f := old(closed[f]) + 1]
              else free == old(free) && closed == old(closed)
    {
      refcount[f] := refcount[f] - 1;
      if refcount[f] == 0 {
        closed := closed[f := closed[f] + 1];
        free := free + [f];
      }
    }

    // acquire_FCB
    method Acquire() returns (f: Pointer)
      requires Arrays() && forall g :: g in free ==> g < MAX_FILES
      modifies refcount, `free
      ensures old(free) == [] ==> f == Null && free == [] && refcount[..] == old(refcount[..])
      ensures old(free) != [] ==> f == To(old(free)[0]) && f.fcb < MAX_FILES
      ensures old(free) != [] ==> free == old(free)[1..] && refcount[..] == old(refcount[..])[f.fcb := 0]
    {
      if free == [] {
        return Null;
      }
      assert free[0] in free;
      f := To(free[0]);
      free := free[1..];
      refcount[f.fcb] := 0;
    }

    // --- the system calls

    method CloseSlot(p: Pid, fd: Fid)
      requires Arrays() && Shape(Now()) && p < MAX_PROC && LegalFd(fd)
      modifies this, refcount, fidt
      ensures Now() == DropRef(old(Now()), Slot(p, fd))
    {
      RefIs(Slot(p, fd));
      if fidt[p, fd].To? {
        var f := fidt[p, fd].fcb;
        SetSlot(p, fd, Null);
        Decref(f);
      }
    }

    // sys_Close
    method Close(p: Pid, fd: Fid) returns (ok: bool)
      requires Valid() && p < MAX_PROC
      modifies this, refcount, fidt
      ensures Valid() && Now() == Next(old(Now()), StreamModel.Close(p, fd)) && ok == LegalFd(fd)
    {
      ghost var s := Now();
      NextKeepsInv(s, StreamModel.Close(p, fd));
      ok := LegalFd(fd);
      if LegalFd(fd) {
        CloseSlot(p, fd);
      }
    }

    // FCB_decref of the FCB that a slot names, which still names it.
    method LoseName(p: Pid, fd: Fid)
      requires Arrays() && Shape(Now()) && p < MAX_PROC && LegalFd(fd) && fidt[p, fd].To?
      modifies this, refcount
      ensures Now() == DropRef(old(Now()), Slot(p, fd)).(refs := old(Refs()))
    {
      RefIs(Slot(p, fd));
      Decref(fidt[p, fd].fcb);
    }

    method Rename(p: Pid, fd: Fid, f: Fcb)
      requires Arrays() && Shape(Now()) && p < MAX_PROC && LegalFd(fd) && f < MAX_FILES
      modifies refcount, fidt
      ensures Now() == AddRef(old(Now()), Slot(p, fd), f)
    {
      Incref(f);
      SetSlot(p, fd, To(f));
    }

    // The part of Dup2 that makes newfd, which names n, name the FCB o.
    method Redirect(p: Pid, newfd: Fid, o: Fcb, n: Pointer)
      requires Arrays() && Shape(Now()) && p < MAX_PROC && LegalFd(newfd) && o < MAX_FILES && n == fidt[p, newfd]
      modifies this, refcount, fidt
      ensures Now() == AddRef(DropRef(old(Now()), Slot(p, newfd)), Slot(p, newfd), o)
    {
      ghost var s, r := Now(), Slot(p, newfd);
      RefIs(r);
      if n.To? {
        LoseName(p, newfd);
      }
      ghost var s1 := DropRef(s, r);
      assert Now() == s1.(refs := s.refs);
      Rename(p, newfd, o);
      assert s1.refs[r := o] == s.refs[r := o];
    }

    // sys_Dup2
    method Dup2(p: Pid, oldfd: Fid, newfd: Fid) returns (ok: bool)
      requires Valid() && p < MAX_PROC
      modifies this, refcount, fidt
      ensures Valid() && Now() == Next(old(Now()), StreamModel.Dup2(p, oldfd, newfd))
      ensures ok <==> LegalFd(oldfd) && LegalFd(newfd) && Slot(p, oldfd) in old(Refs())
    {
      ghost var s := Now();
      NextKeepsInv(s, StreamModel.Dup2(p, oldfd, newfd));
      RefIs(Slot(p, oldfd));
      RefIs(Slot(p, newfd));
      if !LegalFd(oldfd) || !LegalFd(newfd) {
        return false;
      }
      var o, n := fidt[p, oldfd], fidt[p, newfd];
      if o == Null {
        return false;
      }
      ok := true;
      if o != n {
        Redirect(p, newfd, o.fcb, n);
      }
    }

    // sys_Read and sys_Write, up to the stream's own code
    method BeginUse(t: Tid, p: Pid, fd: Fid) returns (f: Pointer)
      requires Valid() && p < MAX_PROC && Enabled(Now(), StreamModel.BeginUse(t, p, fd))
      modifies this, refcount
      ensures Valid() && Now() == Next(old(Now()), StreamModel.BeginUse(t, p, fd))
      ensures f == if t in using then To(using[t]) else Null
    {
      ghost var s := Now();
      NextKeepsInv(s, StreamModel.BeginUse(t, p, fd));
      RefIs(Slot(p, fd));
      RefIs(Using(t));
      f := if !LegalFd(fd) then Null else fidt[p, fd];
      if f.To? {
        Incref(f.fcb);
        SetUse(t, f);
        RefIs(Using(t));
        assert Now() == AddRef(s, Using(t), f.fcb);
      }
    }

    // sys_Read and sys_Write, after the stream's own code
    method EndUse(t: Tid)
      requires Valid() && Enabled(Now(), StreamModel.EndUse(t))
      modifies this, refcount
      ensures Valid() && Now() == Next(old(Now()), StreamModel.EndUse(t))
    {
      ghost var s := Now();
      NextKeepsInv(s, StreamModel.EndUse(t));
      RefIs(Using(t));
      var f := using[t];
      SetUse(t, Null);
      Decref(f);
      assert Now() == DropRef(s, Using(t));
    }

    // The FIDT clean-up of a process's last ThreadExit
    method CloseAllSlots(p: Pid)
      requires Valid() && p < MAX_PROC
      modifies this, refcount, fidt
      ensures Valid() && Now() == Next(old(Now()), Exit(p))
    {
      NextKeepsInv(Now(), Exit(p));
      CloseSlotsFrom(p, 0);
    }

    method CloseSlotsFrom(p: Pid, from: nat)
      requires Arrays() && Shape(Now()) && p < MAX_PROC && from <= MAX_FILEID
      modifies this, refcount, fidt
      ensures Now() == CloseAll(old(Now()), p, from)
    {
      for fd: int := from to MAX_FILEID
        invariant Arrays() && Shape(Now()) && CloseAll(Now(), p, fd) == CloseAll(old(Now()), p, from)
      {
        CloseSlot(p, fd);
      }
    }

    // Exec's loop over the parent's streams
    method InheritAll(p: Pid, child: Pid)
      requires Valid() && p < MAX_PROC && child < MAX_PROC && Enabled(Now(), Exec(p, child))
      modifies this, refcount, fidt
      ensures Valid() && Now() == Next(old(Now()), Exec(p, child))
    {
      ghost var s := Now();
      NextKeepsInv(s, Exec(p, child));
      forall e | 0 <= e < MAX_FILEID
        ensures fidt[child, e] == Null
      {
        RefIs(Slot(child, e));
      }
      InheritFrom(p, child, 0);
    }

    method InheritFrom(p: Pid, child: Pid, from: nat)
      requires Arrays() && Shape(Now()) && p < MAX_PROC && child < MAX_PROC && p != child && from <= MAX_FILEID
      requires forall e :: from <= e < MAX_FILEID ==> fidt[child, e] == Null
      modifies this, refcount, fidt
      ensures Now() == Inherit(old(Now()), p, child, from)
    {
      for fd: int := from to MAX_FILEID
        invariant Arrays() && Shape(Now()) && Inherit(Now(), p, child, fd) == Inherit(old(Now()), p, child, from)
        invariant forall e :: fd <= e < MAX_FILEID ==> fidt[child, e] == Null
      {
        InheritSlot(p, child, fd);
      }
    }

    method InheritSlot(p: Pid, child: Pid, fd: Fid)
      requires Arrays() && Shape(Now()) && p < MAX_PROC && child < MAX_PROC && p != child && LegalFd(fd)
      requires fidt[child, fd] == Null
      modifies this, refcount, fidt
      ensures Now() == var s := old(Now());
                       if Slot(p, fd) in s.refs then AddRef(s, Slot(child, fd), s.refs[Slot(p, fd)]) else s
      ensures forall e :: 0 <= e < MAX_FILEID && e != fd ==> fidt[child, e] == old(fidt[child, e])
    {
      RefIs(Slot(p, fd));
      RefIs(Slot(child, fd));
      var f := fidt[p, fd];
      SetSlot(child, fd, f);
      if f.To? {
        Incref(f.fcb);
      }
    }

    // --- FCB_reserve

    lemma FidStep(p: Pid, f: nat)
      requires Arrays() && p < MAX_PROC && f < MAX_FILEID
      ensures var rest := FreeFids(Refs(), p, f + 1);
              FreeFids(Refs(), p, f) == if fidt[p, f] == Null then [f] + rest else rest
    {
      RefIs(Slot(p, f));
    }

    // The first loop: num distinct fids of p, from fid `from` up, if there are
    // that many.
    method FindFids(p: Pid, num: nat, from: nat) returns (fid: seq<nat>)
      requires Arrays() && p < MAX_PROC && from <= MAX_FILEID
      ensures fid == UpTo(FreeFids(Refs(), p, from), num)
    {
      fid := [];
      var f: nat := from;
      ghost var fids := FreeFids(Refs(), p, from);
      while |fid| < num
        invariant f <= MAX_FILEID && |fid| <= num && fids == fid + FreeFids(Refs(), p, f)
      {
        f := SkipOpen(p, f);
        if f == MAX_FILEID {
          return;
        }
        FidStep(p, f);
        ghost var rest := FreeFids(Refs(), p, f + 1);
        assert fid + ([f] + rest) == (fid + [f]) + rest;
        fid := fid + [f];
        f := f + 1;
      }
    }

    // The inner loop: the next NULL slot from f up.
    method SkipOpen(p: Pid, f: nat) returns (g: nat)
      requires Arrays() && p < MAX_PROC && f <= MAX_FILEID
      ensures f <= g <= MAX_FILEID && FreeFids(Refs(), p, g) == FreeFids(Refs(), p, f)
      ensures g < MAX_FILEID ==> fidt[p, g] == Null
    {
      g := f;
      while g < MAX_FILEID && fidt[p, g] != Null
        invariant f <= g <= MAX_FILEID && FreeFids(Refs(), p, g) == FreeFids(Refs(), p, f)
      {
        FidStep(p, g);
        g := g + 1;
      }
    }

    // The second loop: num FCBs off the free list, or all there are.
    method AcquireAll(num: nat) returns (fcb: seq<Fcb>)
      requires Arrays() && Shape(Now())
      modifies refcount, `free
      ensures fcb == if num <= |old(free)| then old(free)[..num] else old(free)
      ensures free == old(free)[|fcb|..]
      ensures refcount[..] == Zeroed(old(refcount[..]), fcb)
    {
      fcb := [];
      while |fcb| < num
        invariant |fcb| <= num && |fcb| <= |old(free)| && fcb == old(free)[..|fcb|] && free == old(free)[|fcb|..]
        invariant refcount[..] == Zeroed(old(refcount[..]), fcb)
      {
        assert forall g :: g in free ==> g in old(free);
        var f := Acquire();
        if f == Null {
          break;
        }
        fcb := fcb + [f.fcb];
      }
    }

    // The roll-back: the FCBs go back, the last one first.
    method Rollback(fcb: seq<Fcb>)
      modifies `free
      ensures free == old(free) + Reverse(fcb)
    {
      var i := |fcb|;
      while i > 0
        invariant 0 <= i <= |fcb| && free == old(free) + Reverse(fcb[i..])
      {
        free := free + [fcb[i - 1]];
        i := i - 1;
        assert fcb[i..][1..] == fcb[i + 1..];
      }
      assert fcb[0..] == fcb;
    }

    method InstallOne(p: Pid, fd: Fid, f: Fcb)
      requires Arrays() && p < MAX_PROC && LegalFd(fd) && f < MAX_FILES && |reserved| == MAX_FILES
      modifies this, refcount, fidt
      ensures Now() == var s := old(Now());
                       s.(refs := s.refs[Slot(p, fd) := f], refcount := s.refcount[f := s.refcount[f] + 1],
                          reserved := s.reserved[f := s.reserved[f] + 1])
    {
      SetSlot(p, fd, To(f));
      Incref(f);
      reserved := reserved[f := reserved[f] + 1];
    }

    // The last loop: the i-th FCB gets the i-th fid as its one name.
    method Install(p: Pid, fid: seq<nat>, fcb: seq<Fcb>, ghost s: State)
      requires Arrays() && Shape(s) && p < MAX_PROC && |fid| == |fcb| <= |s.free| && fcb == s.free[..|fcb|]
      requires Distinct(s.free) && forall i :: 0 <= i < |fid| ==> LegalFd(fid[i])
      requires Now() == Taken(s, s, fcb, |fcb|)
      modifies this, refcount, fidt
      ensures Now() == TakeAll(s, p, fid)
    {
      assert fid[..0] == [] && fcb[0..] == fcb;
      for i: int := 0 to |fid|
        invariant Arrays() && Now() == Installed(s, p, fid, fcb, i)
      {
        InstalledNext(s, p, fid, fcb, i);
        InstallOne(p, fid[i], fcb[i]);
      }
      assert fid[..|fid|] == fid && fcb[|fcb|..] == [];
      TakeAllSnoc(s, p, fid, |fid|);
    }

    // FCB_reserve, once it has its fids
    method ReserveFcbs(p: Pid, num: nat, fid: seq<nat>) returns (ok: bool, fcb: seq<Fcb>)
      requires Valid() && p < MAX_PROC && |fid| == num && forall i :: 0 <= i < |fid| ==> LegalFd(fid[i])
      modifies this, refcount, fidt
      ensures ok <==> num <= |old(free)|
      ensures ok ==> Now() == TakeAll(old(Now()), p, fid) && fcb == old(free)[..num]
      ensures !ok ==> Now() == old(Now()).(free := Reverse(old(free)), refcount := Zeroed(old(refcount[..]), old(free)))
    {
      ghost var s := Now();
      fcb := AcquireAll(num);
      ok := |fcb| == num;
      if |fcb| < num {
        Rollback(fcb);
      } else {
        Install(p, fid, fcb, s);
      }
    }

    // FCB_reserve
    method Reserve(p: Pid, num: nat) returns (ok: bool, fid: seq<nat>, fcb: seq<Fcb>)
      requires Valid() && p < MAX_PROC
      modifies this, refcount, fidt
      ensures Valid() && Now() == Next(old(Now()), StreamModel.Reserve(p, num))
      ensures ok <==> CanReserve(old(Now()), p, num)
      ensures ok ==> fid == FreeFids(old(Refs()), p, 0)[..num] && fcb == old(free)[..num]
    {
      ghost var s := Now();
      NextKeepsInv(s, StreamModel.Reserve(p, num));
      fcb := [];
      fid := FindFids(p, num, 0);
      if |fid| < num {
        return false, fid, fcb;
      }
      FidsAreLegal(s, p, 0);
      ok, fcb := ReserveFcbs(p, num, fid);
    }
  }

  lemma FidsAreLegal(s: State, p: Pid, from: nat)
    requires from <= MAX_FILEID
    ensures forall i :: 0 <= i < |FreeFids(s.refs, p, from)| ==> LegalFd(FreeFids(s.refs, p, from)[i])
  {
    FreeFidsAre(s, p, from);
  }

  // s1, when the FCBs of q have been acquired too: n of s's free list are gone.
  function Taken(s: State, s1: State, q: seq<Fcb>, n: nat): State
    requires n <= |s.free|
  {
    s1.(free := s.free[n..], refcount := Zeroed(s1.refcount, q))
  }

  lemma {:induction false} TakeAllSnoc(s: State, p: Pid, fids: seq<nat>, i: nat)
    requires Shape(s) && i <= |fids| <= |s.free|
    ensures TakeAll(s, p, fids[..i]).free == s.free[i..]
    ensures i < |fids| ==> TakeAll(s, p, fids[..i + 1]) == TakeFree(TakeAll(s, p, fids[..i]), Slot(p, fids[i]))
    decreases i
  {
    if i == 0 {
      assert fids[..0] == [];
      if fids != [] {
        assert fids[..1] == [fids[0]] && fids[..1][1..] == [];
      }
    } else {
      var s1 := TakeFree(s, Slot(p, fids[0]));
      TakeAllSnoc(s1, p, fids[1..], i - 1);
      assert fids[..i][1..] == fids[1..][..i - 1];
      if i < |fids| {
        assert fids[..i + 1][1..] == fids[1..][..i];
      }
    }
  }

  // s, when all of fcb are acquired and i of them installed.
  function Installed(s: State, p: Pid, fid: seq<nat>, fcb: seq<Fcb>, i: nat): State
    requires Shape(s) && i <= |fid| == |fcb| <= |s.free|
  {
    Taken(s, TakeAll(s, p, fid[..i]), fcb[i..], |fcb|)
  }

  lemma InstalledNext(s: State, p: Pid, fid: seq<nat>, fcb: seq<Fcb>, i: nat)
    requires Shape(s) && i < |fid| == |fcb| <= |s.free| && fcb == s.free[..|fcb|] && Distinct(s.free)
    ensures var t, r := Installed(s, p, fid, fcb, i), Slot(p, fid[i]);
            && fcb[i] < MAX_FILES
            && Installed(s, p, fid, fcb, i + 1) ==
                 t.(refs := t.refs[r := fcb[i]], refcount := t.refcount[fcb[i] := t.refcount[fcb[i]] + 1],
                    reserved := t.reserved[fcb[i] := t.reserved[fcb[i]] + 1])
  {
    TakeAllSnoc(s, p, fid, i);
    TakenNext(s, TakeAll(s, p, fid[..i]), Slot(p, fid[i]), fcb, i);
  }

  lemma TakenNext(s: State, s1: State, r: Ref, fcb: seq<Fcb>, i: nat)
    requires Shape(s) && Shape(s1) && i < |fcb| <= |s.free| && fcb == s.free[..|fcb|] && Distinct(s.free)
    requires s1.free == s.free[i..]
    ensures var t, t' := Taken(s, s1, fcb[i..], |fcb|), Taken(s, TakeFree(s1, r), fcb[i + 1..], |fcb|);
            && fcb[i] < MAX_FILES && s1.free[0] == fcb[i]
            && t' == t.(refs := t.refs[r := fcb[i]], refcount := t.refcount[fcb[i] := t.refcount[fcb[i]] + 1],
                        reserved := t.reserved[fcb[i] := t.reserved[fcb[i]] + 1])
  {
    var f := fcb[i];
    assert f == s.free[i] && f in s.free;
    assert fcb[i..] == [f] + fcb[i + 1..];
    assert f !in fcb[i + 1..] by {
      assert forall j :: i < j < |fcb| ==> fcb[j] == s.free[j];
    }
  }

  function UpTo(q: seq<nat>, n: nat): seq<nat> { if n <= |q| then q[..n] else q }

  function Zeroed(rc: seq<int>, q: seq<Fcb>): (r: seq<int>)
    ensures |r| == |rc|
  {
    seq(|rc|, f requires 0 <= f < |rc| => if f in q then 0 else rc[f])
  }
}
