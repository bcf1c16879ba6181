/**
 Reference-counted streams: file control blocks, the file tables of the
 processes, and the reads and writes in flight, as a state machine.

 A step is what a thread does with the kernel lock held.  Sockets, which keep
 references of their own, are not part of this model.
 */
module StreamModel {
  import opened Sequences

  type Tid = nat
  type Pid = nat
  type Fid = int
  type Fcb = nat

  const MAX_FILEID: nat := 16
  const MAX_FILES: nat := 65536

  // What can name an FCB: a slot of a process's FIDT, or a read or write.
  datatype Ref = Slot(p: Pid, fd: Fid) | Using(t: Tid)

  // `reserved`, `closed` and `unreserved` are history: how often each FCB was
  // acquired, had its Close run, and was given back without a Close.
  datatype State = State(
    refcount: seq<int>,
    free: seq<Fcb>,               // FCB_freelist
    refs: map<Ref, Fcb>,          // the non-NULL FIDT slots, and the uses
    reserved: seq<nat>,
    closed: seq<nat>,
    unreserved: seq<nat>)

  datatype Action =
    | Reserve(p: Pid, num: nat)        // FCB_reserve
    | OpenFails(p: Pid)                // open_stream on a device that does not open
    | BeginUse(t: Tid, p: Pid, fd: Fid)    // sys_Read and sys_Write, as far as the stream's own code
    | EndUse(t: Tid)
    | Close(p: Pid, fd: Fid)
    | Dup2(p: Pid, oldfd: Fid, newfd: Fid)
    | Exec(p: Pid, child: Pid)
    | Exit(p: Pid)

  predicate Shape(s: State)
  {
    && |s.refcount| == MAX_FILES && |s.reserved| == MAX_FILES && |s.closed| == MAX_FILES && |s.unreserved| == MAX_FILES
    && (forall f :: f in s.free ==> f < MAX_FILES)
    && (forall r :: r in s.refs ==> s.refs[r] < MAX_FILES)
  }

  // --- one reference

  // FCB_incref, of an FCB that now has one more name.
  function AddRef(s: State, r: Ref, f: Fcb): (s': State)
    requires Shape(s) && f < MAX_FILES
    ensures Shape(s')
  {
    s.(refcount := s.refcount[f := s.refcount[f] + 1], refs := s.refs[r := f])
  }

  // FCB_decref, of an FCB that has lost the name r.
  function DropRef(s: State, r: Ref): (s': State)
    requires Shape(s)
    ensures Shape(s')
  {
    if r !in s.refs then s else
    var f := s.refs[r];
    var s1 := s.(refcount := s.refcount[f := s.refcount[f] - 1], refs := s.refs - {r});
    if s1.refcount[f] == 0 then
      s1.(closed := s.closed[f := s.closed[f] + 1], free := s.free + [f])
    else
      s1
  }

  // acquire_FCB, for the slot fd of p.
  function TakeFree(s: State, r: Ref): (s': State)
    requires Shape(s) && s.free != []
    ensures Shape(s')
  {
    var f := s.free[0];
    assert f in s.free && forall g :: g in s.free[1..] ==> g in s.free;
    var s1 := s.(refcount := s.refcount[f := 0], free := s.free[1..], reserved := s.reserved[f := s.reserved[f] + 1]);
    AddRef(s1, r, f)
  }

  // FCB_unreserve, which leaves the refcount as it is.
  function GiveBack(s: State, r: Ref): (s': State)
    requires Shape(s) && r in s.refs
    ensures Shape(s')
  {
    var f := s.refs[r];
    s.(refs := s.refs - {r}, free := s.free + [f], unreserved := s.unreserved[f := s.unreserved[f] + 1])
  }

  // --- the system calls

  predicate LegalFd(fd: Fid)
  {
    0 <= fd < MAX_FILEID
  }

  // The NULL slots of p, from fd up.
  function FreeFids(refs: map<Ref, Fcb>, p: Pid, fd: nat): (fids: seq<nat>)
    requires fd <= MAX_FILEID
    decreases MAX_FILEID - fd
  {
    if fd == MAX_FILEID then []
    else if Slot(p, fd) in refs then FreeFids(refs, p, fd + 1)
    else [fd] + FreeFids(refs, p, fd + 1)
  }

  function TakeAll(s: State, p: Pid, fids: seq<nat>): (s': State)
    requires Shape(s) && |fids| <= |s.free|
    ensures Shape(s')
    decreases |fids|
  {
    if fids == [] then s else TakeAll(TakeFree(s, Slot(p, fids[0])), p, fids[1..])
  }

  predicate CanReserve(s: State, p: Pid, num: nat)
  {
    num <= |FreeFids(s.refs, p, 0)| && num <= |s.free|
  }

  // When the fids suffice and the FCBs do not, those acquired are released
  // again, the last one first.
  function DoReserve(s: State, p: Pid, num: nat): (s': State)
    requires Shape(s)
    ensures Shape(s')
  {
    var fids := FreeFids(s.refs, p, 0);
    ReverseFacts(s.free);
    if |fids| < num then
      s
    else if |s.free| < num then
      s.(free := Reverse(s.free),
         refcount := seq(MAX_FILES, f requires 0 <= f < MAX_FILES => if f in s.free then 0 else s.refcount[f]))
    else
      TakeAll(s, p, fids[..num])
  }

  function DoOpenFails(s: State, p: Pid): (s': State)
    requires Shape(s)
    ensures Shape(s')
  {
    if CanReserve(s, p, 1) then
      var r := Slot(p, FreeFids(s.refs, p, 0)[0]);
      GiveBack(TakeFree(s, r), r)
    else
      DoReserve(s, p, 1)
  }

  // The child gets the parent's streams, from fd up.
  function Inherit(s: State, p: Pid, child: Pid, fd: nat): (s': State)
    requires Shape(s) && fd <= MAX_FILEID
    ensures Shape(s')
    decreases MAX_FILEID - fd
  {
    if fd == MAX_FILEID then s
    else if Slot(p, fd) in s.refs then
      Inherit(AddRef(s, Slot(child, fd), s.refs[Slot(p, fd)]), p, child, fd + 1)
    else
      Inherit(s, p, child, fd + 1)
  }

  function CloseAll(s: State, p: Pid, fd: nat): (s': State)
    requires Shape(s) && fd <= MAX_FILEID
    ensures Shape(s')
    decreases MAX_FILEID - fd
  {
    if fd == MAX_FILEID then s else CloseAll(DropRef(s, Slot(p, fd)), p, fd + 1)
  }

  function DoDup2(s: State, p: Pid, oldfd: Fid, newfd: Fid): (s': State)
    requires Shape(s)
    ensures Shape(s')
  {
    var o, n := Slot(p, oldfd), Slot(p, newfd);
    if !LegalFd(oldfd) || !LegalFd(newfd) || o !in s.refs then s
    else if n in s.refs && s.refs[n] == s.refs[o] then s
    else AddRef(DropRef(s, n), n, s.refs[o])
  }

  predicate NoSlots(s: State, p: Pid)
  {
    forall fd :: 0 <= fd < MAX_FILEID ==> Slot(p, fd) !in s.refs
  }

  predicate Enabled(s: State, a: Action)
  {
    match a
    case BeginUse(t, p, fd) => Using(t) !in s.refs
    case EndUse(t) => Using(t) in s.refs
    case Exec(p, child) => p != child && NoSlots(s, child)   // a free PCB has no streams
    case _ => true
  }

  function Next(s: State, a: Action): (s': State)
    requires Shape(s) && Enabled(s, a)
    ensures Shape(s')
  {
    match a
    case Reserve(p, num) => DoReserve(s, p, num)
    case OpenFails(p) => DoOpenFails(s, p)
    case BeginUse(t, p, fd) =>
      if LegalFd(fd) && Slot(p, fd) in s.refs then AddRef(s, Using(t), s.refs[Slot(p, fd)]) else s
    case EndUse(t) => DropRef(s, Using(t))
    case Close(p, fd) => if LegalFd(fd) then DropRef(s, Slot(p, fd)) else s
    case Dup2(p, oldfd, newfd) => DoDup2(s, p, oldfd, newfd)
    case Exec(p, child) => Inherit(s, p, child, 0)
    case Exit(p) => CloseAll(s, p, 0)
  }

  predicate Init(s: State)
  {
    && s.refcount == seq(MAX_FILES, _ => 0) && s.refs == map[]
    && s.free == seq(MAX_FILES, f => f)
    && s.reserved == seq(MAX_FILES, _ => 0) && s.closed == s.reserved && s.unreserved == s.reserved
  }

  predicate Steps(s: State, a: Action, s': State)
  {
    Shape(s) ==> Enabled(s, a) && s' == Next(s, a)
  }

  ghost predicate Run(states: seq<State>, actions: seq<Action>)
  {
    && |states| == |actions| + 1 && Init(states[0])
    && forall i :: 0 <= i < |actions| ==> Steps(states[i], actions[i], states[i + 1])
  }

  // --- the invariant

  function Holders(s: State, f: Fcb): set<Ref>
  {
    set r | r in s.refs && s.refs[r] == f
  }

  // An FCB is free and has no name, or has as many names as its refcount says.
  predicate FcbOk(s: State, f: Fcb)
    requires Shape(s) && f < MAX_FILES
  {
    && (if f in s.free then Holders(s, f) == {} else s.refcount[f] == |Holders(s, f)| && Holders(s, f) != {})
    && s.reserved[f] == s.closed[f] + s.unreserved[f] + if f in s.free then 0 else 1
  }

  ghost predicate Inv(s: State)
  {
    Shape(s) && Distinct(s.free) && forall f {:trigger FcbOk(s, f)} :: 0 <= f < MAX_FILES ==> FcbOk(s, f)
  }
}
