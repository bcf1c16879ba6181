/**
 Pipes made by sys_Pipe, as a state machine.

 A step is what one thread does with the kernel lock between two waits: many
 bytes can move in it.  Any number of readers and writers interleave.
 */
module PipeModel {

  type Tid = nat
  type byte = bv8

  const PIPE_BUFFER_SIZE: nat := 16384

  // One slot of the ring stays free, to tell full from empty.
  const CAPACITY: nat := PIPE_BUFFER_SIZE - 1

  type Unread = c: seq<byte> | |c| <= CAPACITY witness []

  // The pipe as its callers see it: the unread bytes, and the ends still open.
  datatype Pipe = Pipe(contents: Unread, reader: bool, writer: bool)

  datatype Progress = Sleeps | Returns(ret: int)

  // What a step of pipe_write or pipe_read does: `i` bytes of the call's total
  // have gone through, and `wakes` says whether it broadcast to the other side.
  datatype WriteResult = WriteResult(pipe: Pipe, i: nat, next: Progress, wakes: bool)
  datatype ReadResult = ReadResult(pipe: Pipe, got: seq<byte>, next: Progress, wakes: bool)

  function Min(a: nat, b: nat): nat { if a <= b then a else b }

  // A step of pipe_write that has i bytes of buf behind it.
  function WriteStep(p: Pipe, buf: seq<byte>, i: nat): WriteResult
    requires i <= |buf|
  {
    if i == |buf| then
      WriteResult(p, i, Returns(i), true)
    else if !p.reader then
      WriteResult(p, i, Returns(-1), false)
    else if |p.contents| == CAPACITY then
      WriteResult(p, i, Sleeps, true)
    else if !p.writer then
      WriteResult(p, i, Returns(i), true)
    else
      var k := Min(|buf| - i, CAPACITY - |p.contents|);
      WriteResult(p.(contents := p.contents + buf[i..i + k]), i + k,
                  if i + k == |buf| then Returns(|buf|) else Sleeps, true)
  }

  // A step of pipe_read, for n bytes, that has got some of them.
  function ReadStep(p: Pipe, n: nat, got: seq<byte>): ReadResult
    requires |got| <= n
  {
    if |got| == n then
      ReadResult(p, got, Returns(n), true)
    else if p.contents == [] && p.writer then
      ReadResult(p, got, Sleeps, true)
    else if !p.reader then
      ReadResult(p, got, Returns(-1), false)
    else
      var k := Min(n - |got|, |p.contents|);
      ReadResult(p.(contents := p.contents[k..]), got + p.contents[..k],
                 if |got| + k == n then Returns(n) else if p.writer then Sleeps else Returns(|got| + k), true)
  }

  // --- the runs

  // A call inside pipe_write or pipe_read.
  datatype InCall = Write(buf: seq<byte>, i: nat) | Read(n: nat, got: seq<byte>)

  predicate WithinCount(op: InCall)
  {
    match op
    case Write(buf, i) => i <= |buf|
    case Read(n, got) => |got| <= n
  }

  type Op = op: InCall | WithinCount(op) witness Read(0, [])

  // `accepted` and `delivered` are history: the bytes put into the pipe so far,
  // and those taken out of it.
  datatype State = State(
    pipe: Pipe,
    ops: map<Tid, Op>,
    hasData: set<Tid>,      // asleep on has_data
    hasSpace: set<Tid>,     // asleep on has_space
    accepted: seq<byte>,
    delivered: seq<byte>)

  datatype Action =
    | BeginWrite(t: Tid, buf: seq<byte>)
    | BeginRead(t: Tid, n: nat)
    | Resume(t: Tid)         // back from kernel_wait
    | CloseWriter
    | CloseReader

  // An end is used through its open stream, and closed when nobody is inside a
  // read or write of it: StreamRuns.CloseFindsNoOperation.
  predicate Enabled(s: State, a: Action)
  {
    match a
    case BeginWrite(t, _) => t !in s.ops && s.pipe.writer
    case BeginRead(t, _) => t !in s.ops && s.pipe.reader
    case Resume(t) => t in s.ops && t !in s.hasData && t !in s.hasSpace
    case CloseWriter => s.pipe.writer && forall t :: t in s.ops ==> !s.ops[t].Write?
    case CloseReader => s.pipe.reader && forall t :: t in s.ops ==> !s.ops[t].Read?
  }

  function WriteOf(s: State, t: Tid, buf: seq<byte>, i: nat): State
    requires i <= |buf|
  {
    var r := WriteStep(s.pipe, buf, i);
    State(r.pipe,
          if r.next.Sleeps? then s.ops[t := Write(buf, r.i)] else s.ops - {t},
          if r.wakes then {} else s.hasData,
          if r.next.Sleeps? then s.hasSpace + {t} else s.hasSpace,
          s.accepted + buf[i..Min(r.i, |buf|)],
          s.delivered)
  }

  function ReadOf(s: State, t: Tid, n: nat, got: seq<byte>): State
    requires |got| <= n
  {
    var r := ReadStep(s.pipe, n, got);
    State(r.pipe,
          if r.next.Sleeps? then s.ops[t := Read(n, r.got)] else s.ops - {t},
          if r.next.Sleeps? then s.hasData + {t} else s.hasData,
          if r.wakes then {} else s.hasSpace,
          s.accepted,
          s.delivered + r.got[|got|..])
  }

  // pipe_write and pipe_read first look at the ends.
  function Next(s: State, a: Action): State
    requires Enabled(s, a)
  {
    match a
    case BeginWrite(t, buf) => if !s.pipe.writer || !s.pipe.reader then s else WriteOf(s, t, buf, 0)
    case BeginRead(t, n) => if !s.pipe.reader then s else ReadOf(s, t, n, [])
    case Resume(t) =>
      (match s.ops[t]
       case Write(buf, i) => WriteOf(s, t, buf, i)
       case Read(n, got) => ReadOf(s, t, n, got))
    case CloseWriter =>
      s.(pipe := s.pipe.(writer := false), hasData := if s.pipe.reader then {} else s.hasData)
    case CloseReader =>
      s.(pipe := s.pipe.(reader := false), hasSpace := if s.pipe.writer then {} else s.hasSpace)
  }

  // What the call made by action a answers, or that it sleeps.
  function Answer(s: State, a: Action): Progress
    requires Enabled(s, a) && !a.CloseWriter? && !a.CloseReader?
  {
    match a
    case BeginWrite(t, buf) =>
      if !s.pipe.writer || !s.pipe.reader then Returns(-1) else WriteStep(s.pipe, buf, 0).next
    case BeginRead(t, n) => if !s.pipe.reader then Returns(-1) else ReadStep(s.pipe, n, []).next
    case Resume(t) =>
      match s.ops[t]
      case Write(buf, i) => WriteStep(s.pipe, buf, i).next
      case Read(n, got) => ReadStep(s.pipe, n, got).next
  }

  predicate Init(s: State)
  {
    s == State(Pipe([], true, true), map[], {}, {}, [], [])
  }

  // --- the invariant

  predicate OpOk(s: State, t: Tid)
    requires t in s.ops
  {
    match s.ops[t]
    case Write(buf, i) => i < |buf| && s.pipe.writer
    case Read(n, got) => |got| < n && s.pipe.reader
  }

  ghost predicate Inv(s: State)
  {
    && s.accepted == s.delivered + s.pipe.contents
    && (forall t {:trigger OpOk(s, t)} :: t in s.ops ==> OpOk(s, t))
    && (forall t :: t in s.hasData ==>
          t in s.ops && s.ops[t].Read? && s.pipe.contents == [] && s.pipe.writer)
    && (forall t :: t in s.hasSpace ==>
          t in s.ops && s.ops[t].Write? && |s.pipe.contents| == CAPACITY && s.pipe.reader)
  }

  ghost predicate Run(states: seq<State>, actions: seq<Action>)
  {
    && |states| == |actions| + 1 && Init(states[0])
    && forall i :: 0 <= i < |actions| ==>
         Enabled(states[i], actions[i]) && states[i + 1] == Next(states[i], actions[i])
  }
}
