/**
 A pipe and the streams through which processes reach its ends.

 PipeModel assumes that an end is used only while it is open and is closed only
 when nobody is inside it.  Here the FCBs decide both, as they do in sys_Read,
 sys_Write and FCB_decref, and the assumptions become theorems.
 */
module PipeStreams {
  import S = StreamModel
  import P = PipeModel
  import SR = StreamRuns
  import PR = PipeRuns

  type Tid = nat

  // The reservation of an FCB that sys_Pipe made an end with.
  datatype End = End(fcb: S.Fcb, reservation: nat)

  datatype System = System(streams: S.State, pipe: P.State, r: End, w: End)

  datatype Call =
    | Read(t: Tid, p: S.Pid, fd: S.Fid, n: nat)
    | Write(t: Tid, p: S.Pid, fd: S.Fid, buf: seq<P.byte>)
    | Resume(t: Tid)
    | Other(a: S.Action)      // anything else that anybody does to streams

  predicate Live(s: S.State, e: End)
    requires S.Shape(s) && e.fcb < S.MAX_FILES
  {
    e.fcb !in s.free && s.reserved[e.fcb] == e.reservation
  }

  // t is inside a read or write of the end.
  predicate Inside(s: S.State, e: End, t: Tid)
    requires S.Shape(s) && e.fcb < S.MAX_FILES
  {
    Live(s, e) && S.Using(t) in s.refs && s.refs[S.Using(t)] == e.fcb
  }

  predicate Names(s: S.State, p: S.Pid, fd: S.Fid, e: End)
    requires S.Shape(s) && e.fcb < S.MAX_FILES
  {
    Live(s, e) && S.LegalFd(fd) && S.Slot(p, fd) in s.refs && s.refs[S.Slot(p, fd)] == e.fcb
  }

  // --- the invariant

  predicate EndOk(s: S.State, e: End)
    requires S.Shape(s)
  {
    e.fcb < S.MAX_FILES && s.reserved[e.fcb] >= e.reservation
  }

  predicate UserOk(c: System, t: Tid)
    requires S.Shape(c.streams) && EndOk(c.streams, c.r) && EndOk(c.streams, c.w)
  {
    && (Inside(c.streams, c.r, t) <==> t in c.pipe.ops && c.pipe.ops[t].Read?)
    && (Inside(c.streams, c.w, t) <==> t in c.pipe.ops && c.pipe.ops[t].Write?)
  }

  ghost predicate Coupled(c: System)
  {
    && S.Inv(c.streams) && P.Inv(c.pipe)
    && EndOk(c.streams, c.r) && EndOk(c.streams, c.w) && c.r.fcb != c.w.fcb
    && c.pipe.pipe.reader == Live(c.streams, c.r)
    && c.pipe.pipe.writer == Live(c.streams, c.w)
    && forall t: Tid {:trigger UserOk(c, t)} :: UserOk(c, t)
  }

  // --- the steps

  ghost predicate Enabled(c: System, call: Call)
    requires Coupled(c)
  {
    match call
    case Read(t, p, fd, _) => S.Using(t) !in c.streams.refs && Names(c.streams, p, fd, c.r)
    case Write(t, p, fd, _) => S.Using(t) !in c.streams.refs && Names(c.streams, p, fd, c.w)
    case Resume(t) => t in c.pipe.ops && t !in c.pipe.hasData && t !in c.pipe.hasSpace
    case Other(a) =>
      && S.Enabled(c.streams, a)
      && (a.BeginUse? ==> !Names(c.streams, a.p, a.fd, c.r) && !Names(c.streams, a.p, a.fd, c.w))
      && (a.EndUse? ==> !Inside(c.streams, c.r, a.t) && !Inside(c.streams, c.w, a.t))
  }

  function PipeAction(call: Call): P.Action
    requires !call.Other?
  {
    match call
    case Read(t, _, _, n) => P.BeginRead(t, n)
    case Write(t, _, _, buf) => P.BeginWrite(t, buf)
    case Resume(t) => P.Resume(t)
  }

  // FCB_incref, when the call starts.
  function Entered(s: S.State, call: Call): (s': S.State)
    requires S.Shape(s) && (call.Read? || call.Write? ==> S.Using(call.t) !in s.refs)
    ensures S.Shape(s')
  {
    match call
    case Read(t, p, fd, _) => S.Next(s, S.BeginUse(t, p, fd))
    case Write(t, p, fd, _) => S.Next(s, S.BeginUse(t, p, fd))
    case _ => s
  }

  // The pipe when the call answers or sleeps.
  function Moved(c: System, call: Call): P.State
    requires (!call.Other? ==> P.Enabled(c.pipe, PipeAction(call)))
  {
    if call.Other? then c.pipe else P.Next(c.pipe, PipeAction(call))
  }

  predicate Answers(c: System, call: Call)
    requires (!call.Other? ==> P.Enabled(c.pipe, PipeAction(call)))
  {
    !call.Other? && P.Answer(c.pipe, PipeAction(call)).Returns?
  }

  // FCB_decref, when the call answers.
  function Left(c: System, s: S.State, call: Call): (s': S.State)
    requires (!call.Other? ==> P.Enabled(c.pipe, PipeAction(call)))
    requires S.Shape(s) && (call.Other? ==> S.Enabled(s, call.a))
    requires Answers(c, call) ==> S.Enabled(s, S.EndUse(call.t))
    ensures S.Shape(s')
  {
    if call.Other? then S.Next(s, call.a)
    else if Answers(c, call) then S.Next(s, S.EndUse(call.t))
    else s
  }

  // FCB_decref's Close of an end whose last name the step has taken.
  function CloseEnds(p: P.State, s: S.State, s': S.State, r: End, w: End): P.State
    requires S.Shape(s) && S.Shape(s') && r.fcb < S.MAX_FILES && w.fcb < S.MAX_FILES
    requires Live(s, r) && !Live(s', r) ==> P.Enabled(p, P.CloseReader)
    requires Live(s, w) && !Live(s', w) ==> P.Enabled(p, P.CloseWriter)
  {
    var p1 := if Live(s, r) && !Live(s', r) then P.Next(p, P.CloseReader) else p;
    if Live(s, w) && !Live(s', w) then P.Next(p1, P.CloseWriter) else p1
  }

  // --- what a step of the streams does to an end

  lemma {:induction false} CloseAllCounts(s: S.State, p: S.Pid, fd: nat, f: S.Fcb)
    requires S.Shape(s) && fd <= S.MAX_FILEID && f < S.MAX_FILES
    ensures var s' := S.CloseAll(s, p, fd);
            s'.reserved == s.reserved && s'.closed[f] >= s.closed[f] && s'.unreserved == s.unreserved
    decreases S.MAX_FILEID - fd
  {
    if fd < S.MAX_FILEID { CloseAllCounts(S.DropRef(s, S.Slot(p, fd)), p, fd + 1, f); }
  }

  lemma {:induction false} TakeAllCounts(s: S.State, p: S.Pid, fids: seq<nat>, f: S.Fcb)
    requires S.Shape(s) && |fids| <= |s.free| && f < S.MAX_FILES
    ensures var s' := S.TakeAll(s, p, fids);
            s'.reserved[f] >= s.reserved[f] && s'.closed == s.closed && s'.unreserved == s.unreserved
    decreases |fids|
  {
    if fids != [] { TakeAllCounts(S.TakeFree(s, S.Slot(p, fids[0])), p, fids[1..], f); }
  }

  lemma CountsGrow(s: S.State, a: S.Action, f: S.Fcb)
    requires S.Inv(s) && S.Enabled(s, a) && f < S.MAX_FILES
    ensures var s' := S.Next(s, a);
            s'.reserved[f] >= s.reserved[f] && s'.closed[f] >= s.closed[f] && s'.unreserved[f] >= s.unreserved[f]
  {
    match a
    case Reserve(p, num) =>
      if S.CanReserve(s, p, num) { TakeAllCounts(s, p, S.FreeFids(s.refs, p, 0)[..num], f); }
    case OpenFails(p) =>
      if S.CanReserve(s, p, 1) { assert s.free[0] in s.free; }
    case Exec(p, child) => SR.InheritStays(s, p, child, 0, f);
    case Exit(p) => CloseAllCounts(s, p, 0, f);
    case _ =>
  }

  // An end that is closed never opens again.
  lemma ClosedEndStaysClosed(s: S.State, a: S.Action, e: End)
    requires S.Inv(s) && S.Enabled(s, a) && EndOk(s, e)
    ensures EndOk(S.Next(s, a), e) && (Live(S.Next(s, a), e) ==> Live(s, e))
  {
    SR.NextKeepsInv(s, a);
    CountsGrow(s, a, e.fcb);
    assert S.FcbOk(s, e.fcb) && S.FcbOk(S.Next(s, a), e.fcb);
  }

  // An end with somebody inside is not closed by anybody else.
  lemma UsedEndStaysLive(s: S.State, a: S.Action, e: End, t: Tid)
    requires S.Inv(s) && S.Enabled(s, a) && EndOk(s, e) && Inside(s, e, t) && a != S.EndUse(t)
    ensures Inside(S.Next(s, a), e, t)
  {
    SR.NextKeepsInv(s, a);
    SR.CloseFindsNoOperation(s, a, t);
    assert S.FcbOk(s, e.fcb) && S.FcbOk(S.Next(s, a), e.fcb);
  }

  predicate SameUse(s: S.State, s': S.State, t: Tid)
  {
    && (S.Using(t) in s'.refs <==> S.Using(t) in s.refs)
    && (S.Using(t) in s.refs ==> s'.refs[S.Using(t)] == s.refs[S.Using(t)])
  }

  lemma {:induction false} CloseAllUses(s: S.State, p: S.Pid, fd: nat, t: Tid)
    requires S.Shape(s) && fd <= S.MAX_FILEID
    ensures SameUse(s, S.CloseAll(s, p, fd), t)
    decreases S.MAX_FILEID - fd
  {
    if fd < S.MAX_FILEID { CloseAllUses(S.DropRef(s, S.Slot(p, fd)), p, fd + 1, t); }
  }

  lemma {:induction false} TakeAllUses(s: S.State, p: S.Pid, fids: seq<nat>, t: Tid)
    requires S.Shape(s) && |fids| <= |s.free|
    ensures SameUse(s, S.TakeAll(s, p, fids), t)
    decreases |fids|
  {
    if fids != [] { TakeAllUses(S.TakeFree(s, S.Slot(p, fids[0])), p, fids[1..], t); }
  }

  lemma {:induction false} InheritUses(s: S.State, p: S.Pid, child: S.Pid, fd: nat, t: Tid)
    requires S.Shape(s) && fd <= S.MAX_FILEID
    ensures SameUse(s, S.Inherit(s, p, child, fd), t)
    decreases S.MAX_FILEID - fd
  {
    if fd < S.MAX_FILEID {
      if S.Slot(p, fd) in s.refs {
        InheritUses(S.AddRef(s, S.Slot(child, fd), s.refs[S.Slot(p, fd)]), p, child, fd + 1, t);
      } else {
        InheritUses(s, p, child, fd + 1, t);
      }
    }
  }

  // A thread's use begins and ends by its own calls only.
  lemma UsesAreOwn(s: S.State, a: S.Action, t: Tid)
    requires S.Shape(s) && S.Enabled(s, a) && a != S.EndUse(t) && (a.BeginUse? ==> a.t != t)
    ensures SameUse(s, S.Next(s, a), t)
  {
    match a
    case Reserve(p, num) =>
      if S.CanReserve(s, p, num) { TakeAllUses(s, p, S.FreeFids(s.refs, p, 0)[..num], t); }
    case Exec(p, child) => InheritUses(s, p, child, 0, t);
    case Exit(p) => CloseAllUses(s, p, 0, t);
    case _ =>
  }

  // What a step of the streams leaves of an end: if it is still live, the same
  // threads are inside but the one that leaves; if not, nobody was left.
  lemma EndAfter(s: S.State, a: S.Action, e: End, t: Tid)
    requires S.Inv(s) && S.Enabled(s, a) && EndOk(s, e)
    requires a.BeginUse? ==> !Names(s, a.p, a.fd, e)
    ensures EndOk(S.Next(s, a), e) && (Live(S.Next(s, a), e) ==> Live(s, e))
    ensures Inside(S.Next(s, a), e, t) <==> Inside(s, e, t) && a != S.EndUse(t)
  {
    ClosedEndStaysClosed(s, a, e);
    if Inside(s, e, t) && a != S.EndUse(t) {
      UsedEndStaysLive(s, a, e, t);
    } else if Live(S.Next(s, a), e) && a != S.EndUse(t) && !(a.BeginUse? && a.t == t) {
      UsesAreOwn(s, a, t);
    }
  }

  // --- a step of the whole

  // The call of the pipe's own code is one that the pipe allows.
  lemma CallIsSafe(c: System, call: Call)
    requires Coupled(c) && Enabled(c, call)
    ensures !call.Other? ==> P.Enabled(c.pipe, PipeAction(call))
  {
    if call.Read? || call.Write? {
      assert UserOk(c, call.t);
    }
  }

  lemma MovedIsOk(c: System, call: Call)
    requires Coupled(c) && (!call.Other? ==> P.Enabled(c.pipe, PipeAction(call)))
    ensures var p := Moved(c, call);
            && P.Inv(p)
            && p.pipe.reader == c.pipe.pipe.reader && p.pipe.writer == c.pipe.pipe.writer
  {
    if !call.Other? {
      PR.NextKeepsInv(c.pipe, PipeAction(call));
    }
  }

  // Who is inside the pipe's code after the step: t alone can have come or gone.
  lemma MovedOps(c: System, call: Call, u: Tid)
    requires Coupled(c) && Enabled(c, call) && (!call.Other? ==> P.Enabled(c.pipe, PipeAction(call)))
    ensures var p := Moved(c, call);
            if !call.Other? && u == call.t then
              if Answers(c, call) then u !in p.ops
              else u in p.ops && (p.ops[u].Read? <==> call.Read? || (call.Resume? && c.pipe.ops[u].Read?))
            else (u in p.ops <==> u in c.pipe.ops) && (u in p.ops ==> p.ops[u] == c.pipe.ops[u])
  {
    if !call.Other? {
      assert UserOk(c, call.t);
    }
  }

  lemma EnteredIsOk(c: System, call: Call)
    requires Coupled(c) && Enabled(c, call)
    ensures var s := Entered(c.streams, call);
            && S.Inv(s) && EndOk(s, c.r) && EndOk(s, c.w)
            && Live(s, c.r) == Live(c.streams, c.r) && Live(s, c.w) == Live(c.streams, c.w)
  {
    if call.Read? || call.Write? {
      SR.NextKeepsInv(c.streams, S.BeginUse(call.t, call.p, call.fd));
    }
  }

  predicate Reads(p: P.State, u: Tid) { u in p.ops && p.ops[u].Read? }

  predicate Writes(p: P.State, u: Tid) { u in p.ops && p.ops[u].Write? }

  // After FCB_incref and the pipe's code, those inside an end and not leaving
  // are those inside the pipe's code.
  lemma EnteredUsers(c: System, call: Call, u: Tid)
    requires Coupled(c) && Enabled(c, call) && (!call.Other? ==> P.Enabled(c.pipe, PipeAction(call)))
    ensures var s := Entered(c.streams, call);
            var leaves := Answers(c, call) && call.t == u;
            EndOk(s, c.r) && EndOk(s, c.w)
            && (Inside(s, c.r, u) && !leaves <==> Reads(Moved(c, call), u))
            && (Inside(s, c.w, u) && !leaves <==> Writes(Moved(c, call), u))
            && (leaves ==> S.Using(u) in s.refs)
  {
    EnteredIsOk(c, call);
    MovedOps(c, call, u);
    assert UserOk(c, u);
  }

  // The last part of the step, for one end.
  lemma LeftUsers(c: System, call: Call, e: End, u: Tid)
    requires Coupled(c) && Enabled(c, call) && (!call.Other? ==> P.Enabled(c.pipe, PipeAction(call)))
    requires e == c.r || e == c.w
    ensures var s := Entered(c.streams, call);
            && S.Shape(s) && (call.Other? ==> S.Enabled(s, call.a))
            && (Answers(c, call) ==> S.Enabled(s, S.EndUse(call.t)))
    ensures var s := Entered(c.streams, call);
            var s' := Left(c, s, call);
            && S.Inv(s') && EndOk(s, e) && EndOk(s', e) && (Live(s', e) ==> Live(s, e))
            && (Inside(s', e, u) <==> Inside(s, e, u) && !(Answers(c, call) && call.t == u))
  {
    EnteredIsOk(c, call);
    var s := Entered(c.streams, call);
    if call.Other? {
      SR.NextKeepsInv(s, call.a);
      EndAfter(s, call.a, e, u);
      if call.a == S.EndUse(u) {
        assert UserOk(c, u);
      }
    } else if Answers(c, call) {
      EnteredUsers(c, call, call.t);
      SR.NextKeepsInv(s, S.EndUse(call.t));
      EndAfter(s, S.EndUse(call.t), e, u);
    }
  }

  // An end is closed when no call is inside the pipe's code for it.
  lemma ClosingIsSafe(c: System, call: Call)
    requires Coupled(c) && Enabled(c, call) && (!call.Other? ==> P.Enabled(c.pipe, PipeAction(call)))
    ensures var s := Entered(c.streams, call);
            && S.Shape(s) && (call.Other? ==> S.Enabled(s, call.a))
            && (Answers(c, call) ==> S.Enabled(s, S.EndUse(call.t)))
            && EndOk(s, c.r) && EndOk(s, c.w)
    ensures var s, p := Entered(c.streams, call), Moved(c, call);
            var s' := Left(c, s, call);
            && (Live(s, c.r) && !Live(s', c.r) ==> P.Enabled(p, P.CloseReader))
            && (Live(s, c.w) && !Live(s', c.w) ==> P.Enabled(p, P.CloseWriter))
  {
    LeftUsers(c, call, c.r, 0);
    LeftUsers(c, call, c.w, 0);
    EnteredIsOk(c, call);
    MovedIsOk(c, call);
    var s, p := Entered(c.streams, call), Moved(c, call);
    var s' := Left(c, s, call);
    forall u | u in p.ops
      ensures !Live(s', c.r) ==> !p.ops[u].Read?
      ensures !Live(s', c.w) ==> !p.ops[u].Write?
    {
      EnteredUsers(c, call, u);
      LeftUsers(c, call, c.r, u);
      LeftUsers(c, call, c.w, u);
    }
  }

  // The whole step.
  ghost function After(c: System, call: Call): System
    requires Coupled(c) && Enabled(c, call)
  {
    CallIsSafe(c, call);
    ClosingIsSafe(c, call);
    var s := Entered(c.streams, call);
    var s' := Left(c, s, call);
    c.(streams := s', pipe := CloseEnds(Moved(c, call), s, s', c.r, c.w))
  }

  lemma CloseEndsIsOk(p: P.State, s: S.State, s': S.State, r: End, w: End)
    requires S.Shape(s) && S.Shape(s') && r.fcb < S.MAX_FILES && w.fcb < S.MAX_FILES && P.Inv(p)
    requires Live(s, r) && !Live(s', r) ==> P.Enabled(p, P.CloseReader)
    requires Live(s, w) && !Live(s', w) ==> P.Enabled(p, P.CloseWriter)
    requires p.pipe.reader == Live(s, r) && p.pipe.writer == Live(s, w)
    requires (Live(s', r) ==> Live(s, r)) && (Live(s', w) ==> Live(s, w))
    ensures var p' := CloseEnds(p, s, s', r, w);
            && P.Inv(p') && p'.ops == p.ops
            && p'.pipe.reader == Live(s', r) && p'.pipe.writer == Live(s', w)
  {
    var p1 := if Live(s, r) && !Live(s', r) then P.Next(p, P.CloseReader) else p;
    if Live(s, r) && !Live(s', r) {
      PR.NextKeepsInv(p, P.CloseReader);
    }
    if Live(s, w) && !Live(s', w) {
      PR.NextKeepsInv(p1, P.CloseWriter);
    }
  }

  lemma StepKeepsCoupled(c: System, call: Call)
    requires Coupled(c) && Enabled(c, call)
    ensures Coupled(After(c, call))
  {
    CallIsSafe(c, call);
    ClosingIsSafe(c, call);
    var c', s, p := After(c, call), Entered(c.streams, call), Moved(c, call);
    LeftUsers(c, call, c.r, 0);
    LeftUsers(c, call, c.w, 0);
    EnteredIsOk(c, call);
    MovedIsOk(c, call);
    CloseEndsIsOk(p, s, c'.streams, c.r, c.w);
    forall u: Tid
      ensures UserOk(c', u)
    {
      EnteredUsers(c, call, u);
      LeftUsers(c, call, c.r, u);
      LeftUsers(c, call, c.w, u);
    }
  }

  // --- who can act

  // A call through an open fid of an end can be made by any thread that is in no
  // other, and goes on as soon as it is awake.
  lemma CallersCanAct(c: System, t: Tid, p: S.Pid, fd: S.Fid, n: nat, buf: seq<P.byte>)
    requires Coupled(c)
    ensures S.Using(t) !in c.streams.refs && Names(c.streams, p, fd, c.r) ==> Enabled(c, Read(t, p, fd, n))
    ensures S.Using(t) !in c.streams.refs && Names(c.streams, p, fd, c.w) ==> Enabled(c, Write(t, p, fd, buf))
    ensures t in c.pipe.ops && t !in c.pipe.hasData && t !in c.pipe.hasSpace ==> Enabled(c, Resume(t))
    ensures Enabled(c, Other(S.Close(p, fd)))
  {
  }

  // --- what the calls do to the bytes

  // A write through a stream puts in the first bytes of the caller's buffer, all
  // of them if it answers their number; a read hands over as many of the oldest
  // unread bytes as it answers, and no more than the caller asked for.
  lemma CallsMoveTheirBytes(c: System, call: Call)
    requires Coupled(c) && Enabled(c, call) && (call.Read? || call.Write?)
    ensures P.Enabled(c.pipe, PipeAction(call))
    ensures var p, p' := c.pipe, After(c, call).pipe;
            match P.Answer(p, PipeAction(call))
            case Sleeps =>
              && (call.Write? ==> exists i :: 0 <= i < |call.buf| && p'.accepted == p.accepted + call.buf[..i])
              && (call.Read? ==> p'.accepted == p.accepted && |p'.delivered| - |p.delivered| < call.n)
            case Returns(ret) =>
              && (call.Write? && ret != -1 ==> ret == |call.buf| && p'.accepted == p.accepted + call.buf)
              && (call.Read? ==> p'.accepted == p.accepted && ret == |p'.delivered| - |p.delivered| <= call.n)
              && (call.Read? && ret < call.n ==> p'.pipe.contents == [] && !p'.pipe.writer)
  {
    CallIsSafe(c, call);
    MovedBytes(c, call);
    var a := PipeAction(call);
    if call.Read? {
      PR.ReadAnswers(c.pipe, a);
    } else {
      PR.WriteAnswers(c.pipe, a);
      assert call.buf[0..] == call.buf;
      if P.Answer(c.pipe, a).Sleeps? {
        var r := P.WriteStep(c.pipe.pipe, call.buf, 0);
        assert P.Next(c.pipe, a).accepted == c.pipe.accepted + call.buf[..r.i];
      }
    }
  }

  // FCB_incref and FCB_decref move no byte.
  lemma MovedBytes(c: System, call: Call)
    requires Coupled(c) && Enabled(c, call) && (!call.Other? ==> P.Enabled(c.pipe, PipeAction(call)))
    ensures var p := Moved(c, call);
            After(c, call).pipe.accepted == p.accepted && After(c, call).pipe.delivered == p.delivered
  {
  }

  // --- the runs, from sys_Pipe on

  ghost predicate MadePipe(s: S.State, p: S.Pid, c: System)
  {
    && S.Inv(s) && S.CanReserve(s, p, 2) && s.free[0] < S.MAX_FILES && s.free[1] < S.MAX_FILES
    && c.streams == S.Next(s, S.Reserve(p, 2)) && P.Init(c.pipe)
    && c.r == End(s.free[0], s.reserved[s.free[0]] + 1)
    && c.w == End(s.free[1], s.reserved[s.free[1]] + 1)
  }

  ghost predicate Steps(c: System, call: Call, c': System)
  {
    Coupled(c) ==> Enabled(c, call) && c' == After(c, call)
  }

  ghost predicate Run(s: S.State, p: S.Pid, systems: seq<System>, calls: seq<Call>)
  {
    && |systems| == |calls| + 1 && MadePipe(s, p, systems[0])
    && forall i :: 0 <= i < |calls| ==> Steps(systems[i], calls[i], systems[i + 1])
  }

  lemma TakeTwo(s: S.State, p: S.Pid, fids: seq<nat>)
    requires S.Inv(s) && |fids| == 2 <= |s.free| && s.free[0] < S.MAX_FILES && s.free[1] < S.MAX_FILES
    ensures var s' := S.TakeAll(s, p, fids);
            && s'.reserved == s.reserved[s.free[0] := s.reserved[s.free[0]] + 1][s.free[1] := s.reserved[s.free[1]] + 1]
            && s'.closed == s.closed && s'.unreserved == s.unreserved
  {
    var s1 := S.TakeFree(s, S.Slot(p, fids[0]));
    var s2 := S.TakeFree(s1, S.Slot(p, fids[1]));
    var rest := fids[1..];
    assert rest == [fids[1]] && rest[1..] == [];
    assert S.TakeAll(s1, p, rest) == S.TakeAll(s2, p, []) == s2;
  }

  lemma PipeStartsCoupled(s: S.State, p: S.Pid, c: System)
    requires MadePipe(s, p, c)
    ensures Coupled(c)
  {
    var fids := S.FreeFids(s.refs, p, 0)[..2];
    SR.NextKeepsInv(s, S.Reserve(p, 2));
    TakeTwo(s, p, fids);
    assert s.free[0] in s.free && s.free[1] in s.free;
    NewEnd(s, c.streams, c.r);
    NewEnd(s, c.streams, c.w);
    forall u: Tid
      ensures UserOk(c, u)
    {
      TakeAllUses(s, p, fids, u);
      NobodyInsideFree(s, c.r.fcb, u);
      NobodyInsideFree(s, c.w.fcb, u);
    }
  }

  lemma NobodyInsideFree(s: S.State, f: S.Fcb, t: Tid)
    requires S.Inv(s) && f in s.free
    ensures S.Using(t) in s.refs ==> s.refs[S.Using(t)] != f
  {
    assert S.FcbOk(s, f);
    assert S.Using(t) in S.Holders(s, f) <==> S.Using(t) in s.refs && s.refs[S.Using(t)] == f;
  }

  // An FCB that was free and has been reserved once since is not free.
  lemma NewEnd(s: S.State, s': S.State, e: End)
    requires S.Inv(s) && S.Inv(s') && e.fcb in s.free && e.fcb < S.MAX_FILES
    requires s'.reserved[e.fcb] == s.reserved[e.fcb] + 1 == e.reservation
    requires s'.closed == s.closed && s'.unreserved == s.unreserved
    ensures EndOk(s', e) && Live(s', e)
  {
    assert S.FcbOk(s, e.fcb) && S.FcbOk(s', e.fcb);
  }

  lemma {:induction false} RunsKeepCoupled(s: S.State, p: S.Pid, systems: seq<System>, calls: seq<Call>, i: nat)
    requires Run(s, p, systems, calls) && i < |systems|
    ensures Coupled(systems[i])
  {
    if i == 0 {
      PipeStartsCoupled(s, p, systems[0]);
    } else {
      RunsKeepCoupled(s, p, systems, calls, i - 1);
      assert Steps(systems[i - 1], calls[i - 1], systems[i - 1 + 1]);
      StepKeepsCoupled(systems[i - 1], calls[i - 1]);
    }
  }

  // Whatever processes do with their streams, an end stays open while a read or
  // write of it is in flight, sleepers are truly blocked, and no reader and
  // writer ever sleep on the pipe together.
  lemma PipesAreSafeUnderStreams(s: S.State, p: S.Pid, systems: seq<System>, calls: seq<Call>, i: nat)
    requires Run(s, p, systems, calls) && i < |systems|
    ensures var pipe := systems[i].pipe;
            && (forall t :: Reads(pipe, t) ==> pipe.pipe.reader && S.Using(t) in systems[i].streams.refs)
            && (forall t :: Writes(pipe, t) ==> pipe.pipe.writer && S.Using(t) in systems[i].streams.refs)
            && (pipe.hasData != {} ==> pipe.pipe.contents == [] && pipe.pipe.writer)
            && (pipe.hasSpace != {} ==> |pipe.pipe.contents| == P.CAPACITY && pipe.pipe.reader)
            && (pipe.hasData == {} || pipe.hasSpace == {})
            && pipe.accepted == pipe.delivered + pipe.pipe.contents
  {
    RunsKeepCoupled(s, p, systems, calls, i);
    var c := systems[i];
    forall t | t in c.pipe.ops
      ensures P.OpOk(c.pipe, t) && S.Using(t) in c.streams.refs
    {
      assert P.OpOk(c.pipe, t) && UserOk(c, t);
    }
  }
}
