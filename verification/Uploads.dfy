/** The resumable upload protocol (internal/api/uploads.go,
    internal/store/upload.go, the upload operations of internal/fileops): one
    upload, the requests that work on it, its row and its temporary file. Every
    connection may be cut and the panel may stop at any point. */
module Uploads {
  import opened Bytes
  import opened Text

  type Contents = seq<Byte>
  type RequestId = nat
  type Seconds = nat

  const MINUTE: Seconds := 60
  const CHUNK_MAX := 32 * 1024 * 1024

  // ---- the helper ----

  function SizeOf(temp: Option<Contents>): nat { if temp.Some? then |temp.value| else 0 }

  function ContentsOf(temp: Option<Contents>): Contents { if temp.Some? then temp.value else [] }

  function Concat(pieces: seq<Contents>): Contents {
    if pieces == [] then [] else Concat(pieces[..|pieces| - 1]) + pieces[|pieces| - 1]
  }

  datatype Answer = Received(size: nat) | Conflict(size: nat) | Failed | Placed | Gone

  /** What upload-append makes of the temporary file, and its answer: a piece for
      another offset is told the true length; else all that arrived is in the
      file, cut off or not. */
  function Appended(temp: Option<Contents>, want: nat, body: seq<Contents>, cut: bool): (Option<Contents>, Answer) {
    if SizeOf(temp) != want then (Some(ContentsOf(temp)), Conflict(SizeOf(temp)))
    else (Some(ContentsOf(temp) + Concat(body)), if cut then Failed else Received(want + |Concat(body)|))
  }

  /** What upload-finish-file makes of the temporary file and the place. */
  function Finished(temp: Option<Contents>, dest: Option<Contents>, want: nat, renameFails: bool)
    : (Option<Contents>, Option<Contents>, Answer)
  {
    if temp.None? || |temp.value| != want then (temp, dest, Conflict(SizeOf(temp)))
    else if renameFails then (temp, dest, Failed)
    else (None, temp, Placed)
  }

  /** The files an upload touches, as the helper's operations change them. */
  class Files {
    var temp: Option<Contents>
    var dest: Option<Contents>

    method UploadSize() returns (size: nat)
      ensures size == SizeOf(temp)
    {
      if temp.None? {
        return 0;
      }
      size := |temp.value|;
    }

    /** upload-append: the body arrives in reads, the last of which may be the
        point where the connection was cut. */
    method UploadAppend(want: nat, body: seq<Contents>, cut: bool) returns (a: Answer)
      modifies this`temp
      ensures (temp, a) == Appended(old(temp), want, body, cut)
      ensures var was := if old(temp).Some? then old(temp).value else [];
        if |was| != want then temp == Some(was) && a == Conflict(|was|)
        else temp == Some(was + Concat(body)) && a == if cut then Failed else Received(|was| + |Concat(body)|)
    {
      if temp.None? {
        temp := Some([]);
      }
      ghost var start := temp.value;
      if |temp.value| != want {
        return Conflict(|temp.value|);
      }
      var n := 0;
      assert start + Concat(body[..0]) == start;
      for i := 0 to |body|
        invariant temp == Some(start + Concat(body[..i]))
        invariant n == |Concat(body[..i])|
      {
        assert body[..i + 1][..i] == body[..i];
        assert start + Concat(body[..i + 1]) == start + Concat(body[..i]) + body[i];
        temp := Some(temp.value + body[i]);
        n := n + |body[i]|;
      }
      assert body[..|body|] == body;
      return if cut then Failed else Received(want + n);
    }

    /** upload-finish-file */
    method UploadFinishFile(want: nat, renameFails: bool) returns (a: Answer)
      modifies this
      ensures (temp, dest, a) == Finished(old(temp), old(dest), want, renameFails)
      ensures if old(temp).Some? && |old(temp).value| == want && !renameFails then dest == old(temp) && temp == None && a == Placed
              else temp == old(temp) && dest == old(dest) && a != Placed
    {
      if temp.None? {
        return Conflict(0);
      }
      if |temp.value| != want {
        return Conflict(|temp.value|);
      }
      if renameFails {
        return Failed;
      }
      dest, temp := temp, None;
      return Placed;
    }
  }

  // ---- the protocol ----

  type Inode = nat

  datatype Kind = Put(offset: nat, length: nat) | Finish | Remove

  /** A request of the panel that took the lock: its helper not started, started
      and waited for, or the answer known and the lock still to be released. */
  datatype Stage = Fresh | Waiting | Answered(answer: Answer)
  datatype Request = Request(kind: Kind, stage: Stage)

  /** The helper in the pod: started, with the temporary file open and so much of
      the piece written, or with the size found right. It has a life of its own:
      a connection that is cut, or a panel that stops, does not end it. */
  datatype At = Begun | Appending(inode: Inode, done: nat) | Renaming(inode: Inode)
  datatype Helper = Helper(kind: Kind, at: At)

  /** The upload of a file or an archive; dest is what it put in place, or handed
      to the extraction. */
  datatype State = State(archive: bool, now: Seconds, lock: Option<Seconds>,
                         disk: map<Inode, Contents>, next: Inode, temp: Option<Inode>, dest: Option<Inode>,
                         requests: map<RequestId, Request>, helpers: map<RequestId, Helper>)

  function Start(archive: bool): State { State(archive, 1, Some(0), map[], 0, None, None, map[], map[]) }

  /** What the panel does for a request that has the lock, and a helper for its. */
  datatype ByPanel = Exec | Cut | End | Stop
  datatype ByHelper = Open | Write(n: nat) | Close | Check | Move(answered: bool) | Unlink(answered: bool) | Quit

  datatype Step =
    | Lock(id: RequestId, kind: Kind)
    | Panel(id: RequestId, act: ByPanel)
    | Pod(id: RequestId, work: ByHelper)
    | Tick(d: Seconds)

  /** How long each request claims the upload: a minute more than its deadline. */
  function Hold(kind: Kind): Seconds {
    match kind
    case Put(_, _) => 15 * MINUTE + MINUTE
    case Finish => 60 * MINUTE + MINUTE
    case Remove => MINUTE + MINUTE
  }

  predicate Fits(file: Contents, kind: Kind) {
    kind.Put? ==> kind.offset + kind.length <= |file| && kind.length <= CHUNK_MAX
  }

  function Read(s: State, at: Option<Inode>): Option<Contents> {
    if at.Some? && at.value in s.disk then Some(s.disk[at.value]) else None
  }

  /** What arrived, and what was put in place. */
  function Held(s: State): Option<Contents> { Read(s, s.temp) }

  function InPlace(s: State): Option<Contents> { Read(s, s.dest) }

  predicate Free(s: State) { s.lock.Some? && s.lock.value < s.now }

  predicate AtWork(s: State, id: RequestId) { id in s.requests || id in s.helpers }

  /** A helper tells its request how it ended, if that still waits. */
  function Told(s: State, id: RequestId, answer: Answer): map<RequestId, Request> {
    if id in s.requests && s.requests[id].stage.Waiting? then
      s.requests[id := s.requests[id].(stage := Answered(answer))]
    else s.requests
  }

  /** One step; one that is not possible changes nothing. file is what the client
      sends: each piece carries the file's bytes from its offset on. */
  function Do(file: Contents, s: State, step: Step): State {
    match step
    case Tick(d) => s.(now := s.now + d)
    case Lock(id, kind) =>
      // LockUpload, on a row whose lock has run out or was released
      if !AtWork(s, id) && Free(s) && Fits(file, kind) then
        s.(lock := Some(s.now + Hold(kind)), requests := s.requests[id := Request(kind, Fresh)])
      else s
    case Panel(id, act) => if id in s.requests then OfRequest(s, id, act) else s
    case Pod(id, work) => if id in s.helpers then OfHelper(file, s, id, work) else s
  }

  function OfRequest(s: State, id: RequestId, act: ByPanel): State
    requires id in s.requests
  {
    var r := s.requests[id];
    match act
    case Exec =>
      if r.stage.Fresh? && id !in s.helpers then
        s.(requests := s.requests[id := r.(stage := Waiting)], helpers := s.helpers[id := Helper(r.kind, Begun)])
      else s
    case Cut => if r.stage.Answered? then s else s.(requests := s.requests[id := r.(stage := Answered(Failed))])
    case End =>
      if !r.stage.Answered? then s
      else
        var a := r.stage.answer;
        var over := a.Placed? || a.Gone? || (s.archive && r.kind.Finish? && a.Failed?);
        // DeleteUpload, or TouchUpload: by id alone, whoever holds the lock by now
        s.(requests := s.requests - {id}, lock := if over || s.lock.None? then None else Some(0))
    case Stop => s.(requests := s.requests - {id})
  }

  function OfHelper(file: Contents, s: State, id: RequestId, work: ByHelper): State
    requires id in s.helpers
  {
    var h := s.helpers[id];
    match (work, h.at)
    case (Open, Begun) => if h.kind.Put? then Opened(s, id, h.kind) else s
    case (Write(n), Appending(i, done)) => if h.kind.Put? then Written(file, s, id, h.kind, i, done, n) else s
    case (Close, Appending(_, done)) => if h.kind.Put? then Ended(s, id, Received(h.kind.offset + done)) else s
    case (Check, Begun) =>
      if !h.kind.Finish? then s
      else if Held(s).None? || |Held(s).value| != |file| then Ended(s, id, Conflict(SizeOf(Held(s))))
      else s.(helpers := s.helpers[id := h.(at := Renaming(s.temp.value))])
    case (Move(answered), Renaming(i)) => Moved(s, id, i, answered)
    case (Unlink(answered), Begun) =>
      if h.kind.Remove? then Ended(s, id, if answered then Gone else Failed).(temp := None) else s
    case (Quit, _) => Ended(s, id, Failed)
    case _ => s
  }

  function Ended(s: State, id: RequestId, answer: Answer): State {
    s.(helpers := s.helpers - {id}, requests := Told(s, id, answer))
  }

  /** More of the piece reaches the file that was opened. */
  function Written(file: Contents, s: State, id: RequestId, kind: Kind, i: Inode, done: nat, n: nat): State
    requires kind.Put?
  {
    var from := kind.offset + done;
    if i !in s.disk || done + n > kind.length || from + n > |file| then s
    else
      s.(disk := s.disk[i := s.disk[i] + file[from..from + n]],
         helpers := s.helpers[id := Helper(kind, Appending(i, done + n))])
  }

  /** The open, which makes the file, and the check of its size. */
  function Opened(s: State, id: RequestId, kind: Kind): State
    requires id in s.helpers && kind.Put?
  {
    var t := if Held(s).Some? then s else s.(temp := Some(s.next), disk := s.disk[s.next := []], next := s.next + 1);
    var held := ContentsOf(Held(s));
    if |held| != kind.offset then Ended(t, id, Conflict(|held|))
    else t.(helpers := t.helpers[id := Helper(kind, Appending(t.temp.value, 0))])
  }

  /** The rename of what is at the temporary name by then; or the extraction of the
      archive that was opened, and the removal of that name. */
  function Moved(s: State, id: RequestId, i: Inode, answered: bool): State
    requires id in s.helpers
  {
    var t := s.(helpers := s.helpers - {id}, temp := None);
    if s.archive then
      t.(dest := Some(s.next), disk := s.disk[s.next := if i in s.disk then s.disk[i] else []], next := s.next + 1,
         requests := Told(s, id, if answered then Placed else Failed))
    else if s.temp.None? then t.(requests := Told(s, id, Failed))
    else t.(dest := s.temp, requests := Told(s, id, if answered then Placed else Failed))
  }

  function After(file: Contents, s: State, steps: seq<Step>): State {
    if steps == [] then s else Do(file, After(file, s, steps[..|steps| - 1]), steps[|steps| - 1])
  }

  function Run(file: Contents, archive: bool, steps: seq<Step>): State { After(file, Start(archive), steps) }

  lemma AfterOne(file: Contents, s: State, steps: seq<Step>, step: Step)
    ensures After(file, s, steps + [step]) == Do(file, After(file, s, steps), step)
  {
    assert (steps + [step])[..|steps + [step]| - 1] == steps;
  }

  lemma {:induction false} AfterMore(file: Contents, s: State, a: seq<Step>, b: seq<Step>)
    ensures After(file, s, a + b) == After(file, After(file, s, a), b)
    decreases |b|
  {
    if b == [] {
      assert a + b == a;
    } else {
      AfterMore(file, s, a, b[..|b| - 1]);
      assert (a + b)[..|a + b| - 1] == a + b[..|b| - 1];
    }
  }

  lemma NoSteps(file: Contents, s: State)
    ensures After(file, s, []) == s
  {}

  // ---- what single steps do ----

  predicate DiskOk(s: State) {
    && (forall i | i in s.disk :: i < s.next)
    && (s.temp.Some? ==> s.temp.value in s.disk) && (s.dest.Some? ==> s.dest.value in s.disk)
    && (s.temp.Some? && s.dest.Some? ==> s.temp.value != s.dest.value)
    && s.now > 0
  }

  /** A helper that has the file open, and its request waiting. */
  predicate InHand(s: State, id: RequestId, kind: Kind, at: At) {
    && id in s.helpers && s.helpers[id] == Helper(kind, at)
    && id in s.requests && s.requests[id] == Request(kind, Waiting)
  }

  lemma Locks(file: Contents, s: State, id: RequestId, kind: Kind)
    requires !AtWork(s, id) && Free(s) && Fits(file, kind)
    ensures Do(file, s, Lock(id, kind)) == s.(lock := Some(s.now + Hold(kind)), requests := s.requests[id := Request(kind, Fresh)])
  {}

  lemma Execs(file: Contents, s: State, id: RequestId, kind: Kind)
    requires id in s.requests && s.requests[id] == Request(kind, Fresh) && id !in s.helpers
    ensures Do(file, s, Panel(id, Exec)) ==
            s.(requests := s.requests[id := Request(kind, Waiting)], helpers := s.helpers[id := Helper(kind, Begun)])
  {}

  lemma Opens(file: Contents, s: State, id: RequestId, kind: Kind)
    requires id in s.helpers && s.helpers[id] == Helper(kind, Begun) && kind.Put?
    ensures Do(file, s, Pod(id, Open)) == Opened(s, id, kind)
  {
    hide Opened;
  }

  lemma WritesOn(file: Contents, s: State, id: RequestId, kind: Kind, i: Inode, done: nat, n: nat)
    requires id in s.helpers && s.helpers[id] == Helper(kind, Appending(i, done)) && kind.Put?
    ensures Do(file, s, Pod(id, Write(n))) == Written(file, s, id, kind, i, done, n)
  {
    hide Written;
  }

  lemma Closes(file: Contents, s: State, id: RequestId, kind: Kind, i: Inode, done: nat)
    requires InHand(s, id, kind, Appending(i, done)) && kind.Put?
    ensures Do(file, s, Pod(id, Close)) ==
            s.(helpers := s.helpers - {id}, requests := s.requests[id := Request(kind, Answered(Received(kind.offset + done)))])
  {}

  lemma Quits(file: Contents, s: State, id: RequestId, kind: Kind, at: At)
    requires InHand(s, id, kind, at)
    ensures Do(file, s, Pod(id, Quit)) ==
            s.(helpers := s.helpers - {id}, requests := s.requests[id := Request(kind, Answered(Failed))])
  {}

  lemma Releases(file: Contents, s: State, id: RequestId, kind: Kind, a: Answer)
    requires id in s.requests && s.requests[id] == Request(kind, Answered(a)) && kind.Put? && (a.Received? || a.Failed?) && s.lock.Some?
    ensures Do(file, s, Panel(id, End)) == s.(requests := s.requests - {id}, lock := Some(0))
  {}

  lemma OpensFor(s: State, id: RequestId, kind: Kind)
    requires DiskOk(s) && id in s.helpers && kind.Put? && SizeOf(Held(s)) == kind.offset
    ensures var t := Opened(s, id, kind);
      && DiskOk(t) && t.temp.Some? && t.temp.value in t.disk && Held(t) == Some(ContentsOf(Held(s)))
      && (s.temp.Some? ==> t.temp == s.temp)
      && t == s.(temp := t.temp, disk := t.disk, next := t.next, helpers := s.helpers[id := Helper(kind, Appending(t.temp.value, 0))])
  {}

  // ---- the steps are the helper's operations ----

  function Writes(id: RequestId, ns: seq<nat>): (steps: seq<Step>)
    ensures |steps| == |ns| && forall k | 0 <= k < |ns| :: steps[k] == Pod(id, Write(ns[k]))
  {
    seq(|ns|, k requires 0 <= k < |ns| => Pod(id, Write(ns[k])))
  }

  function Sum(ns: seq<nat>): nat { if ns == [] then 0 else Sum(ns[..|ns| - 1]) + ns[|ns| - 1] }

  /** The reads of a body that carries the file from an offset on. */
  function Reads(file: Contents, from: nat, ns: seq<nat>): seq<Contents>
    requires from + Sum(ns) <= |file|
  {
    if ns == [] then []
    else
      var rest := ns[..|ns| - 1];
      Reads(file, from, rest) + [file[from + Sum(rest)..from + Sum(ns)]]
  }

  lemma {:induction false} ReadsConcat(file: Contents, from: nat, ns: seq<nat>)
    requires from + Sum(ns) <= |file|
    ensures Concat(Reads(file, from, ns)) == file[from..from + Sum(ns)]
    decreases |ns|
  {
    if ns != [] {
      var rest := ns[..|ns| - 1];
      ReadsConcat(file, from, rest);
      assert Reads(file, from, ns)[..|Reads(file, from, ns)| - 1] == Reads(file, from, rest);
    }
  }

  lemma {:induction false} WritesAppend(file: Contents, s: State, id: RequestId, kind: Kind, ns: seq<nat>)
    requires kind.Put? && Fits(file, kind) && Sum(ns) <= kind.length && s.temp.Some? && s.temp.value in s.disk
    requires InHand(s, id, kind, Appending(s.temp.value, 0))
    ensures var t := After(file, s, Writes(id, ns));
      && t.temp == s.temp && t.temp.value in t.disk && InHand(t, id, kind, Appending(t.temp.value, Sum(ns)))
      && t.disk[t.temp.value] == s.disk[s.temp.value] + file[kind.offset..kind.offset + Sum(ns)]
    decreases |ns|
  {
    hide Do;
    if ns == [] {
      assert Writes(id, ns) == [];
      assert s.disk[s.temp.value] + file[kind.offset..kind.offset] == s.disk[s.temp.value];
    } else {
      var rest, n := ns[..|ns| - 1], ns[|ns| - 1];
      WritesAppend(file, s, id, kind, rest);
      assert Writes(id, ns) == Writes(id, rest) + [Pod(id, Write(n))];
      AfterOne(file, s, Writes(id, rest), Pod(id, Write(n)));
      WritesOn(file, After(file, s, Writes(id, rest)), id, kind, s.temp.value, Sum(rest), n);
      var from := kind.offset + Sum(rest);
      assert file[kind.offset..from] + file[from..from + n] == file[kind.offset..from + n];
    }
  }

  lemma {:induction false} WritesIdle(file: Contents, s: State, id: RequestId, ns: seq<nat>)
    requires id !in s.helpers
    ensures After(file, s, Writes(id, ns)) == s
    decreases |ns|
  {
    if ns == [] {
      assert Writes(id, ns) == [];
    } else {
      var rest := ns[..|ns| - 1];
      WritesIdle(file, s, id, rest);
      assert Writes(id, ns) == Writes(id, rest) + [Pod(id, Write(ns[|ns| - 1]))];
      AfterOne(file, s, Writes(id, rest), Pod(id, Write(ns[|ns| - 1])));
    }
  }

  function AppendSteps(id: RequestId, ns: seq<nat>, cut: bool): seq<Step> {
    [Pod(id, Open)] + Writes(id, ns) + [if cut then Pod(id, Quit) else Pod(id, Close)]
  }

  /** A helper's open, its writes and its close are upload-append: the same file
      and the same answer, whatever reads the body comes in and wherever it is cut
      off. */
  lemma StepsAppend(file: Contents, s: State, id: RequestId, kind: Kind, ns: seq<nat>, cut: bool)
    requires DiskOk(s) && kind.Put? && Fits(file, kind) && Sum(ns) <= kind.length && InHand(s, id, kind, Begun)
    ensures var t := After(file, s, AppendSteps(id, ns, cut));
      && id in t.requests && t.requests[id].stage.Answered?
      && (Held(t), t.requests[id].stage.answer) == Appended(Held(s), kind.offset, Reads(file, kind.offset, ns), cut)
  {
    hide After, InHand, DiskOk, Reads, AppendSteps, Concat, Held;
    if SizeOf(Held(s)) == kind.offset {
      StepsFit(file, s, id, kind, ns, cut);
      ReadsConcat(file, kind.offset, ns);
    } else {
      StepsConflict(file, s, id, kind, ns, cut);
    }
  }

  lemma StepsFit(file: Contents, s: State, id: RequestId, kind: Kind, ns: seq<nat>, cut: bool)
    requires DiskOk(s) && kind.Put? && Fits(file, kind) && Sum(ns) <= kind.length && InHand(s, id, kind, Begun)
    requires SizeOf(Held(s)) == kind.offset
    ensures var t := After(file, s, AppendSteps(id, ns, cut));
      && Held(t) == Some(ContentsOf(Held(s)) + file[kind.offset..kind.offset + Sum(ns)])
      && id in t.requests && t.requests[id].stage == Answered(if cut then Failed else Received(kind.offset + Sum(ns)))
  {
    hide After, Do, Opened, InHand;
    HasHelper(s, id, kind, Begun);
    var begun := Opened(s, id, kind);
    Opens(file, s, id, kind);
    AppendStepsAre(file, s, id, ns, cut);
    OpensInHand(s, id, kind);
    WritesAppend(file, begun, id, kind, ns);
    LastStep(file, After(file, begun, Writes(id, ns)), id, kind, begun.temp.value, Sum(ns), cut);
  }

  lemma StepsConflict(file: Contents, s: State, id: RequestId, kind: Kind, ns: seq<nat>, cut: bool)
    requires DiskOk(s) && kind.Put? && InHand(s, id, kind, Begun) && SizeOf(Held(s)) != kind.offset
    ensures var t := After(file, s, AppendSteps(id, ns, cut));
      && Held(t) == Some(ContentsOf(Held(s)))
      && id in t.requests && t.requests[id].stage == Answered(Conflict(SizeOf(Held(s))))
  {
    hide After, Do, Opened, InHand;
    HasHelper(s, id, kind, Begun);
    var begun := Opened(s, id, kind);
    Opens(file, s, id, kind);
    AppendStepsAre(file, s, id, ns, cut);
    OpensElsewhere(s, id, kind);
    WritesIdle(file, begun, id, ns);
    NoHelper(file, begun, id, if cut then Quit else Close);
  }

  lemma HasHelper(s: State, id: RequestId, kind: Kind, at: At)
    requires InHand(s, id, kind, at)
    ensures id in s.helpers && s.helpers[id] == Helper(kind, at)
  {}

  lemma AppendStepsAre(file: Contents, s: State, id: RequestId, ns: seq<nat>, cut: bool)
    ensures After(file, s, AppendSteps(id, ns, cut))
         == Do(file, After(file, Do(file, s, Pod(id, Open)), Writes(id, ns)), Pod(id, if cut then Quit else Close))
  {
    hide After, Do;
    var last := Pod(id, if cut then Quit else Close);
    AfterMore(file, s, [Pod(id, Open)] + Writes(id, ns), [last]);
    AfterMore(file, s, [Pod(id, Open)], Writes(id, ns));
    OneStep(file, s, Pod(id, Open));
    OneStep(file, After(file, Do(file, s, Pod(id, Open)), Writes(id, ns)), last);
    assert AppendSteps(id, ns, cut) == [Pod(id, Open)] + Writes(id, ns) + [last];
  }

  lemma OpensInHand(s: State, id: RequestId, kind: Kind)
    requires DiskOk(s) && InHand(s, id, kind, Begun) && kind.Put? && SizeOf(Held(s)) == kind.offset
    ensures var t := Opened(s, id, kind);
      && t.temp.Some? && t.temp.value in t.disk && t.disk[t.temp.value] == ContentsOf(Held(s))
      && InHand(t, id, kind, Appending(t.temp.value, 0))
  {}

  lemma LastStep(file: Contents, s: State, id: RequestId, kind: Kind, i: Inode, done: nat, cut: bool)
    requires kind.Put? && InHand(s, id, kind, Appending(i, done))
    ensures var t := Do(file, s, Pod(id, if cut then Quit else Close));
      && Held(t) == Held(s) && id in t.requests
      && t.requests[id].stage == Answered(if cut then Failed else Received(kind.offset + done))
  {
    hide Do, InHand;
    if cut { Quits(file, s, id, kind, Appending(i, done)); } else { Closes(file, s, id, kind, i, done); }
  }

  lemma OpensElsewhere(s: State, id: RequestId, kind: Kind)
    requires DiskOk(s) && InHand(s, id, kind, Begun) && kind.Put? && SizeOf(Held(s)) != kind.offset
    ensures var t := Opened(s, id, kind);
      && Held(t) == Some(ContentsOf(Held(s))) && id !in t.helpers
      && id in t.requests && t.requests[id].stage == Answered(Conflict(SizeOf(Held(s))))
  {}

  lemma NoHelper(file: Contents, s: State, id: RequestId, work: ByHelper)
    requires id !in s.helpers
    ensures Do(file, s, Pod(id, work)) == s
  {}

  lemma OneStep(file: Contents, s: State, step: Step)
    ensures After(file, s, [step]) == Do(file, s, step)
  {
    hide Do;
    NoSteps(file, s);
    assert [] + [step] == [step];
    AfterOne(file, s, [], step);
  }

  /** A helper's check and its rename are upload-finish-file. */
  lemma StepsFinish(file: Contents, s: State, id: RequestId, renameFails: bool)
    requires DiskOk(s) && !s.archive && InHand(s, id, Finish, Begun)
    ensures var t := After(file, s, [Pod(id, Check), if renameFails then Pod(id, Quit) else Pod(id, Move(true))]);
      && id in t.requests && t.requests[id].stage.Answered?
      && (Held(t), InPlace(t), t.requests[id].stage.answer)
         == Finished(Held(s), InPlace(s), |file|, renameFails)
  {
    hide After;
    var last := if renameFails then Pod(id, Quit) else Pod(id, Move(true));
    assert [Pod(id, Check)] + [last] == [Pod(id, Check), last];
    AfterMore(file, s, [Pod(id, Check)], [last]);
    OneStep(file, s, Pod(id, Check));
    OneStep(file, Do(file, s, Pod(id, Check)), last);
  }

  // ---- what every run keeps ----

  /** The lock is free and yet someone works on the upload: a request past its
      lock, or a helper whose request has released it. */
  predicate Exposed(s: State) { Free(s) && (s.requests != map[] || s.helpers != map[]) }

  /** Someone takes the lock. */
  predicate Takes(file: Contents, s: State, step: Step) {
    step.Lock? && !AtWork(s, step.id) && Free(s) && Fits(file, step.kind)
  }

  /** A run in which nobody takes the lock while someone else is at work. */
  predicate Orderly(file: Contents, archive: bool, steps: seq<Step>) {
    forall k | 0 <= k < |steps| && Takes(file, Run(file, archive, steps[..k]), steps[k]) :: !Exposed(Run(file, archive, steps[..k]))
  }

  predicate HelperOk(file: Contents, s: State, id: RequestId)
    requires id in s.helpers
  {
    var h := s.helpers[id];
    && Fits(file, h.kind)
    && match h.at
       case Begun => true
       case Appending(i, done) =>
         h.kind.Put? && done <= h.kind.length && s.temp == Some(i) && i in s.disk && s.disk[i] == file[..h.kind.offset + done]
       case Renaming(i) => h.kind.Finish? && s.temp == Some(i) && i in s.disk && s.disk[i] == file
  }

  predicate RequestOk(file: Contents, s: State, id: RequestId)
    requires id in s.requests
  {
    var r := s.requests[id];
    && Fits(file, r.kind)
    && match r.stage
       case Fresh => id !in s.helpers
       case Waiting => true
       case Answered(a) => a.Received? || a.Conflict? ==> id !in s.helpers && a.size == SizeOf(Held(s))
  }

  ghost predicate OneAtWork(s: State) { forall a, b | AtWork(s, a) && AtWork(s, b) :: a == b }

  ghost predicate Sound(file: Contents, s: State) {
    && DiskOk(s)
    && (Held(s).Some? ==> Held(s).value <= file)
    && (InPlace(s).Some? ==> InPlace(s).value == file)
    && (forall id | id in s.requests :: RequestOk(file, s, id))
    && (forall id | id in s.helpers :: HelperOk(file, s, id))
    && OneAtWork(s)
  }

  lemma LockKeeps(file: Contents, s: State, id: RequestId, kind: Kind)
    requires Sound(file, s) && (Takes(file, s, Lock(id, kind)) ==> !Exposed(s))
    ensures Sound(file, Do(file, s, Lock(id, kind)))
  {
    var t := Do(file, s, Lock(id, kind));
    if Takes(file, s, Lock(id, kind)) {
      assert s.requests == map[] && s.helpers == map[];
    }
  }

  /** The one at work went on: its own request and helper fit what it left. */
  lemma WorkKeeps(file: Contents, s: State, t: State, id: RequestId)
    requires Sound(file, s) && AtWork(s, id) && DiskOk(t)
    requires (forall x | x in t.requests :: x in s.requests || x == id) && (forall x | x in t.helpers :: x in s.helpers || x == id)
    requires (Held(t).Some? ==> Held(t).value <= file) && (InPlace(t).Some? ==> InPlace(t).value == file)
    requires (id in t.requests ==> RequestOk(file, t, id)) && (id in t.helpers ==> HelperOk(file, t, id))
    ensures Sound(file, t)
  {
    assert forall x | AtWork(t, x) :: AtWork(s, x);
    forall x | x in t.requests ensures RequestOk(file, t, x) { assert AtWork(s, x); }
    forall x | x in t.helpers ensures HelperOk(file, t, x) { assert AtWork(s, x); }
  }

  lemma RequestKeeps(file: Contents, s: State, id: RequestId, act: ByPanel)
    requires Sound(file, s) && id in s.requests
    ensures Sound(file, OfRequest(s, id, act))
  {
    hide Sound;
    var t := OfRequest(s, id, act);
    RequestSound(file, s, id);
    if id in s.helpers { HelperSound(file, s, id); }
    WorkKeeps(file, s, t, id);
  }

  lemma RequestSound(file: Contents, s: State, id: RequestId)
    requires Sound(file, s)
    ensures DiskOk(s) && (Held(s).Some? ==> Held(s).value <= file) && (InPlace(s).Some? ==> InPlace(s).value == file)
    ensures id in s.requests ==> RequestOk(file, s, id)
  {}

  lemma HelperSound(file: Contents, s: State, id: RequestId)
    requires Sound(file, s) && id in s.helpers
    ensures HelperOk(file, s, id)
  {}

  lemma OpenKeeps(file: Contents, s: State, id: RequestId)
    requires Sound(file, s) && id in s.helpers && s.helpers[id].kind.Put? && s.helpers[id].at.Begun?
    ensures Sound(file, Opened(s, id, s.helpers[id].kind))
  {
    var t, kind := Opened(s, id, s.helpers[id].kind), s.helpers[id].kind;
    assert HelperOk(file, s, id);
    if id in s.requests { assert RequestOk(file, s, id); }
    var held := ContentsOf(Held(s));
    assert held <= file;
    if |held| == kind.offset { assert held == file[..kind.offset]; }
    WorkKeeps(file, s, t, id);
  }

  lemma WriteKeeps(file: Contents, s: State, id: RequestId, kind: Kind, i: Inode, done: nat, n: nat)
    requires Sound(file, s) && id in s.helpers && s.helpers[id] == Helper(kind, Appending(i, done)) && kind.Put?
    ensures Sound(file, Written(file, s, id, kind, i, done, n))
  {
    hide Sound;
    var t := Written(file, s, id, kind, i, done, n);
    HelperSound(file, s, id);
    RequestSound(file, s, id);
    if done + n <= kind.length {
      var from := kind.offset + done;
      assert file[..from] + file[from..from + n] == file[..from + n];
      WorkKeeps(file, s, t, id);
    }
  }

  lemma MoveKeeps(file: Contents, s: State, id: RequestId, answered: bool)
    requires Sound(file, s) && id in s.helpers && s.helpers[id].at.Renaming?
    ensures Sound(file, Moved(s, id, s.helpers[id].at.inode, answered))
    ensures InPlace(Moved(s, id, s.helpers[id].at.inode, answered)) == Some(file)
  {
    var t := Moved(s, id, s.helpers[id].at.inode, answered);
    assert HelperOk(file, s, id);
    if id in s.requests { assert RequestOk(file, s, id); }
    WorkKeeps(file, s, t, id);
  }

  lemma EndKeeps(file: Contents, s: State, id: RequestId, answer: Answer, temp: Option<Inode>)
    requires Sound(file, s) && id in s.helpers && temp in {s.temp, None}
    requires answer.Received? || answer.Conflict? ==> temp == s.temp && answer.size == SizeOf(Held(s))
    ensures Sound(file, Ended(s, id, answer).(temp := temp))
  {
    hide Sound;
    var t := Ended(s, id, answer).(temp := temp);
    HelperSound(file, s, id);
    RequestSound(file, s, id);
    WorkKeeps(file, s, t, id);
  }

  lemma CheckKeeps(file: Contents, s: State, id: RequestId)
    requires Sound(file, s) && id in s.helpers && s.helpers[id].kind.Finish? && Held(s).Some? && |Held(s).value| == |file|
    ensures Sound(file, s.(helpers := s.helpers[id := s.helpers[id].(at := Renaming(s.temp.value))]))
  {
    hide Sound;
    HelperSound(file, s, id);
    RequestSound(file, s, id);
    assert Held(s).value == file;
    WorkKeeps(file, s, s.(helpers := s.helpers[id := s.helpers[id].(at := Renaming(s.temp.value))]), id);
  }

  lemma HelperKeeps(file: Contents, s: State, id: RequestId, work: ByHelper)
    requires Sound(file, s) && id in s.helpers
    ensures Sound(file, OfHelper(file, s, id, work))
  {
    hide Opened, Moved, Written, Ended, Sound, Held;
    var h := s.helpers[id];
    HelperSound(file, s, id);
    match (work, h.at)
    case (Open, Begun) => if h.kind.Put? { OpenKeeps(file, s, id); }
    case (Write(n), Appending(i, done)) => if h.kind.Put? { WriteKeeps(file, s, id, h.kind, i, done, n); }
    case (Close, Appending(i, done)) =>
      HeldSize(s, i);
      EndKeeps(file, s, id, Received(h.kind.offset + done), s.temp);
      EndTemp(s, id, Received(h.kind.offset + done));
    case (Check, Begun) =>
      if h.kind.Finish? {
        if Held(s).None? || |Held(s).value| != |file| {
          EndKeeps(file, s, id, Conflict(SizeOf(Held(s))), s.temp);
          EndTemp(s, id, Conflict(SizeOf(Held(s))));
        } else {
          CheckKeeps(file, s, id);
        }
      }
    case (Move(answered), Renaming(i)) => MoveKeeps(file, s, id, answered);
    case (Unlink(answered), Begun) => EndKeeps(file, s, id, if answered then Gone else Failed, None);
    case (Quit, _) => EndKeeps(file, s, id, Failed, s.temp); EndTemp(s, id, Failed);
    case _ =>
  }

  lemma EndTemp(s: State, id: RequestId, answer: Answer)
    ensures Ended(s, id, answer).(temp := s.temp) == Ended(s, id, answer)
  {}

  lemma HeldSize(s: State, i: Inode)
    requires s.temp == Some(i) && i in s.disk
    ensures Held(s) == Some(s.disk[i])
  {}

  lemma DoKeeps(file: Contents, s: State, step: Step)
    requires Sound(file, s) && (Takes(file, s, step) ==> !Exposed(s))
    ensures Sound(file, Do(file, s, step))
  {
    hide Sound, OfRequest, OfHelper, Takes, Exposed;
    match step
    case Tick(d) => TickKeeps(file, s, d);
    case Lock(id, kind) => LockKeeps(file, s, id, kind);
    case Panel(id, act) => if id in s.requests { RequestKeeps(file, s, id, act); }
    case Pod(id, work) => if id in s.helpers { HelperKeeps(file, s, id, work); }
  }

  lemma TickKeeps(file: Contents, s: State, d: Seconds)
    requires Sound(file, s)
    ensures Sound(file, s.(now := s.now + d))
  {
    var t := s.(now := s.now + d);
    assert Held(t) == Held(s) && InPlace(t) == InPlace(s) && forall x :: AtWork(t, x) == AtWork(s, x);
    forall x | x in t.requests ensures RequestOk(file, t, x) { assert RequestOk(file, s, x); }
    forall x | x in t.helpers ensures HelperOk(file, t, x) { assert HelperOk(file, s, x); }
  }

  lemma {:induction false} RunIsSound(file: Contents, archive: bool, steps: seq<Step>)
    requires Orderly(file, archive, steps)
    ensures Sound(file, Run(file, archive, steps))
    decreases |steps|
  {
    hide Do, Takes, Exposed;
    if steps == [] {
      NoSteps(file, Start(archive));
    } else {
      var before := steps[..|steps| - 1];
      forall k | 0 <= k < |before| && Takes(file, Run(file, archive, before[..k]), before[k])
        ensures !Exposed(Run(file, archive, before[..k]))
      {
        assert before[..k] == steps[..k];
      }
      RunIsSound(file, archive, before);
      DoKeeps(file, Run(file, archive, before), steps[|before|]);
    }
  }

  /** Under retries, cut connections, partial writes, stops of the panel and
      competing requests, with helpers that outlive their requests, as long as
      nobody takes the lock beside another at work: what has arrived is a
      beginning of the file, only the whole file is ever put in place, one
      request or helper works at a time, and each answer tells the true length. */
  lemma ArrivedIsAPrefix(file: Contents, archive: bool, steps: seq<Step>)
    requires Orderly(file, archive, steps)
    ensures var s := Run(file, archive, steps);
      && (Held(s).Some? ==> Held(s).value <= file && |Held(s).value| <= |file|)
      && (InPlace(s).Some? ==> InPlace(s).value == file)
      && OneAtWork(s)
      && (forall id | id in s.requests && s.requests[id].stage.Answered? ::
            var a := s.requests[id].stage.answer; (a.Received? || a.Conflict?) ==> a.size == SizeOf(Held(s)))
  {
    hide Run;
    RunIsSound(file, archive, steps);
    var s := Run(file, archive, steps);
    forall id | id in s.requests && s.requests[id].stage.Answered?
      ensures var a := s.requests[id].stage.answer; (a.Received? || a.Conflict?) ==> a.size == SizeOf(Held(s))
    {
      assert RequestOk(file, s, id);
    }
  }

  /** Bytes that arrived are not lost: only a finish that puts the whole file in
      place, or a removal, takes them away. */
  lemma ArrivedStays(file: Contents, archive: bool, before: seq<Step>, step: Step)
    requires Orderly(file, archive, before)
    ensures var s, t := Run(file, archive, before), Run(file, archive, before + [step]);
      || ContentsOf(Held(s)) <= ContentsOf(Held(t))
      || (step.Pod? && ((step.work.Move? && InPlace(t) == Some(file)) || step.work.Unlink?))
  {
    hide After, OfRequest, Sound;
    AfterOne(file, Start(archive), before, step);
    RunIsSound(file, archive, before);
    StepKeepsBytes(file, Run(file, archive, before), step);
  }

  lemma StepKeepsBytes(file: Contents, s: State, step: Step)
    requires Sound(file, s)
    ensures var t := Do(file, s, step);
      || ContentsOf(Held(s)) <= ContentsOf(Held(t))
      || (step.Pod? && ((step.work.Move? && InPlace(t) == Some(file)) || step.work.Unlink?))
  {
    hide Moved, OfRequest;
    if step.Pod? && step.id in s.helpers {
      HelperSound(file, s, step.id);
      if step.work.Move? && s.helpers[step.id].at.Renaming? { MoveKeeps(file, s, step.id, step.work.answered); }
    }
    if step.Panel? && step.id in s.requests { RequestKeepsBytes(s, step.id, step.act); }
  }

  lemma RequestKeepsBytes(s: State, id: RequestId, act: ByPanel)
    requires id in s.requests
    ensures Held(OfRequest(s, id, act)) == Held(s)
  {
  }

  // ---- an upload can always be finished ----

  function PutSteps(id: RequestId, offset: nat, n: nat): seq<Step> {
    [Lock(id, Put(offset, n)), Panel(id, Exec), Pod(id, Open), Pod(id, Write(n)), Pod(id, Close), Panel(id, End)]
  }

  lemma AfterTwo(file: Contents, s: State, a: Step, b: Step)
    ensures After(file, s, [a, b]) == Do(file, Do(file, s, a), b)
  {
    hide Do, After;
    assert [a] + [b] == [a, b];
    OneStep(file, s, a);
    AfterMore(file, s, [a], [b]);
    OneStep(file, Do(file, s, a), b);
  }

  lemma AfterSix(file: Contents, s: State, a: Step, b: Step, c: Step, d: Step, e: Step, f: Step)
    ensures After(file, s, [a, b, c, d, e, f]) == Do(file, Do(file, Do(file, Do(file, Do(file, Do(file, s, a), b), c), d), e), f)
  {
    hide Do, After;
    assert [a, b] + [c, d] == [a, b, c, d] && [a, b, c, d] + [e, f] == [a, b, c, d, e, f];
    AfterTwo(file, s, a, b);
    AfterMore(file, s, [a, b], [c, d]);
    AfterTwo(file, After(file, s, [a, b]), c, d);
    AfterMore(file, s, [a, b, c, d], [e, f]);
    AfterTwo(file, After(file, s, [a, b, c, d]), e, f);
  }

  /** The upload's row is there, its lock is free, and it can be appended to. */
  predicate Ready(s: State) { Free(s) && DiskOk(s) }

  /** The lock, and the helper started. */
  lemma Begins(file: Contents, s: State, id: RequestId, kind: Kind)
    requires !AtWork(s, id) && Free(s) && Fits(file, kind)
    ensures Do(file, Do(file, s, Lock(id, kind)), Panel(id, Exec)) ==
            s.(lock := Some(s.now + Hold(kind)), requests := s.requests[id := Request(kind, Waiting)],
               helpers := s.helpers[id := Helper(kind, Begun)])
  {
    hide Do;
    Locks(file, s, id, kind);
    var s1 := Do(file, s, Lock(id, kind));
    Execs(file, s1, id, kind);
    assert s.requests[id := Request(kind, Fresh)][id := Request(kind, Waiting)] == s.requests[id := Request(kind, Waiting)];
  }

  /** The piece written in one go, the helper ended, the lock released. */
  lemma Completes(file: Contents, s: State, id: RequestId, kind: Kind, i: Inode)
    requires kind.Put? && Fits(file, kind) && InHand(s, id, kind, Appending(i, 0)) && i in s.disk && s.lock.Some?
    ensures var n := kind.length;
      Do(file, Do(file, Do(file, s, Pod(id, Write(n))), Pod(id, Close)), Panel(id, End)) ==
        s.(lock := Some(0), requests := s.requests - {id}, helpers := s.helpers - {id},
           disk := s.disk[i := s.disk[i] + file[kind.offset..kind.offset + n]])
  {
    hide Do;
    var n := kind.length;
    WritesOn(file, s, id, kind, i, 0, n);
    var s1 := Do(file, s, Pod(id, Write(n)));
    Closes(file, s1, id, kind, i, n);
    var s2 := Do(file, s1, Pod(id, Close));
    Releases(file, s2, id, kind, Received(kind.offset + n));
    assert s.helpers[id := Helper(kind, Appending(i, n))] - {id} == s.helpers - {id};
    assert s.requests[id := Request(kind, Answered(Received(kind.offset + n)))] - {id} == s.requests - {id};
  }

  /** The file open for a piece at the length it has. */
  predicate OpenFor(s: State, t: State, id: RequestId, kind: Kind) {
    && DiskOk(t) && t.temp.Some? && t.temp.value in t.disk && t.disk[t.temp.value] == ContentsOf(Held(s))
    && (s.temp.Some? ==> t.temp == s.temp) && t.lock.Some? && t.archive == s.archive
    && t.requests == s.requests[id := Request(kind, Waiting)]
    && t.helpers == s.helpers[id := Helper(kind, Appending(t.temp.value, 0))]
  }

  lemma BeginsAndOpens(file: Contents, s: State, id: RequestId, kind: Kind)
    requires Ready(s) && !AtWork(s, id) && kind.Put? && Fits(file, kind) && SizeOf(Held(s)) == kind.offset
    ensures OpenFor(s, Do(file, Do(file, Do(file, s, Lock(id, kind)), Panel(id, Exec)), Pod(id, Open)), id, kind)
  {
    hide Do, Opened;
    var s2 := Do(file, Do(file, s, Lock(id, kind)), Panel(id, Exec));
    Begins(file, s, id, kind);
    Opens(file, s2, id, kind);
    OpensFor(s2, id, kind);
  }

  lemma CompletesReady(file: Contents, s: State, t: State, id: RequestId, kind: Kind)
    requires !AtWork(s, id) && OpenFor(s, t, id, kind) && kind.Put? && Fits(file, kind)
    ensures var u := Do(file, Do(file, Do(file, t, Pod(id, Write(kind.length))), Pod(id, Close)), Panel(id, End));
      && Ready(u) && u.archive == s.archive && u.requests == s.requests && u.helpers == s.helpers
      && Held(u) == Some(ContentsOf(Held(s)) + file[kind.offset..kind.offset + kind.length]) && (s.temp.Some? ==> u.temp == s.temp)
  {
    hide Do;
    Completes(file, t, id, kind, t.temp.value);
    assert t.requests - {id} == s.requests && t.helpers - {id} == s.helpers;
  }

  /** A put at the length the upload has, and nothing in between, whoever else may
      still be at work. */
  lemma OnePut(file: Contents, s: State, id: RequestId, n: nat)
    requires Ready(s) && !AtWork(s, id) && SizeOf(Held(s)) + n <= |file| && n <= CHUNK_MAX
    ensures var o := SizeOf(Held(s));
      var t := After(file, s, PutSteps(id, o, n));
      && Ready(t) && t.archive == s.archive && t.requests == s.requests && t.helpers == s.helpers
      && Held(t) == Some(ContentsOf(Held(s)) + file[o..o + n]) && (s.temp.Some? ==> t.temp == s.temp)
  {
    hide After, Do, OpenFor, Ready, AtWork;
    var o := SizeOf(Held(s));
    var kind := Put(o, n);
    AfterSix(file, s, Lock(id, kind), Panel(id, Exec), Pod(id, Open), Pod(id, Write(n)), Pod(id, Close), Panel(id, End));
    BeginsAndOpens(file, s, id, kind);
    CompletesReady(file, s, Do(file, Do(file, Do(file, s, Lock(id, kind)), Panel(id, Exec)), Pod(id, Open)), id, kind);
  }

  function Min(a: nat, b: nat): nat { if a < b then a else b }

  /** A client that asks for the size and sends on from there in pieces. */
  lemma {:induction false} SendsTheRest(file: Contents, s: State, id: RequestId) returns (steps: seq<Step>)
    requires Ready(s) && !AtWork(s, id) && SizeOf(Held(s)) <= |file| && file != []
    ensures var t := After(file, s, steps);
      && Ready(t) && t.archive == s.archive && t.requests == s.requests && t.helpers == s.helpers
      && Held(t) == Some(ContentsOf(Held(s)) + file[SizeOf(Held(s))..]) && (s.temp.Some? ==> t.temp == s.temp)
    decreases |file| - SizeOf(Held(s))
  {
    hide After, Do, Ready;
    var o := SizeOf(Held(s));
    if o == |file| {
      steps := [];
      NoSteps(file, s);
      assert ContentsOf(Held(s)) + file[o..] == ContentsOf(Held(s));
    } else {
      var n := Min(CHUNK_MAX, |file| - o);
      OnePut(file, s, id, n);
      var t := After(file, s, PutSteps(id, o, n));
      var rest := SendsTheRest(file, t, id);
      AfterMore(file, s, PutSteps(id, o, n), rest);
      assert file[o..o + n] + file[o + n..] == file[o..];
      assert ContentsOf(Held(s)) + file[o..o + n] + file[o + n..] == ContentsOf(Held(s)) + file[o..];
      steps := PutSteps(id, o, n) + rest;
    }
  }

  function FinishSteps(id: RequestId): seq<Step> { [Lock(id, Finish), Panel(id, Exec), Pod(id, Check), Pod(id, Move(true))] }

  lemma FinishPlaces(file: Contents, s: State, id: RequestId)
    requires Ready(s) && !AtWork(s, id) && Held(s) == Some(file)
    ensures var t := After(file, s, FinishSteps(id)); InPlace(t) == Some(file) && Held(t) == None
  {
    hide After;
    assert [Lock(id, Finish), Panel(id, Exec)] + [Pod(id, Check), Pod(id, Move(true))] == FinishSteps(id);
    AfterMore(file, s, [Lock(id, Finish), Panel(id, Exec)], [Pod(id, Check), Pod(id, Move(true))]);
    AfterTwo(file, s, Lock(id, Finish), Panel(id, Exec));
    var s2 := Do(file, Do(file, s, Lock(id, Finish)), Panel(id, Exec));
    assert s2.helpers == s.helpers[id := Helper(Finish, Begun)];
    AfterTwo(file, s2, Pod(id, Check), Pod(id, Move(true)));
    var s3 := Do(file, s2, Pod(id, Check));
    assert s3.helpers[id].at == Renaming(s.temp.value);
  }

  /** The upload is there and nobody works on it. */
  predicate Idle(s: State) { Free(s) && s.requests == map[] && s.helpers == map[] }

  /** From any point of an orderly run where the upload is there and idle, asking
      for the size, sending the rest and finishing puts the whole file in place. */
  lemma CanBeFinished(file: Contents, archive: bool, before: seq<Step>, id: RequestId)
    requires Orderly(file, archive, before) && Idle(Run(file, archive, before)) && file != []
    ensures exists steps :: InPlace(Run(file, archive, before + steps)) == Some(file)
  {
    hide After, Do;
    var s := Run(file, archive, before);
    RunIsSound(file, archive, before);
    var steps := SendsTheRest(file, s, id);
    var t := After(file, s, steps);
    var held := ContentsOf(Held(s));
    assert held == file[..|held|] && file[..|held|] + file[|held|..] == file;
    FinishPlaces(file, t, id);
    AfterMore(file, s, steps, FinishSteps(id));
    AfterMore(file, Start(archive), before, steps + FinishSteps(id));
    assert InPlace(Run(file, archive, before + (steps + FinishSteps(id)))) == Some(file);
  }

  // ---- what exposure leads to ----

  lemma LocksBeside(file: Contents, s: State, id: RequestId)
    requires Exposed(s) && !AtWork(s, id)
    ensures !OneAtWork(Do(file, s, Lock(id, Put(0, 0))))
  {
    var t := Do(file, s, Lock(id, Put(0, 0)));
    assert AtWork(t, id);
    if s.requests != map[] {
      var x :| x in s.requests;
      assert AtWork(t, x);
    } else {
      var x :| x in s.helpers;
      assert AtWork(t, x);
    }
  }

  /** A helper with bytes of its piece left to write. */
  predicate Unwritten(s: State, left: RequestId) {
    && left in s.helpers && s.helpers[left].kind.Put? && s.helpers[left].at.Appending?
    && s.helpers[left].at.done < s.helpers[left].kind.length
  }

  /** Others send the rest of the file; then the helper writes on. */
  lemma WritesBeyond(file: Contents, s: State, left: RequestId, id: RequestId) returns (steps: seq<Step>)
    requires Sound(file, s) && Free(s) && Unwritten(s, left) && !AtWork(s, id)
    ensures var t := After(file, s, steps); Held(t).Some? && |Held(t).value| == |file| + 1
  {
    hide After, Do;
    var h := s.helpers[left];
    assert HelperOk(file, s, left);
    var rest := SendsTheRest(file, s, id);
    var t := After(file, s, rest);
    steps := rest + [Pod(left, Write(1))];
    AfterOne(file, s, rest, Pod(left, Write(1)));
    OneByteMore(file, t, left, h);
  }

  lemma OneByteMore(file: Contents, t: State, left: RequestId, h: Helper)
    requires left in t.helpers && t.helpers[left] == h && h.kind.Put? && h.at.Appending? && t.temp == Some(h.at.inode)
    requires Fits(file, h.kind) && h.at.done < h.kind.length && Held(t).Some?
    ensures var u := Do(file, t, Pod(left, Write(1))); Held(u).Some? && |Held(u).value| == |Held(t).value| + 1
  {}

  /** Order is lost exactly where it is not kept: from every point where someone is
      at work though the lock is free, a next request can be at work beside it;
      and if that is a helper with bytes of its piece left, the run can go on to a
      temporary file longer than the file. */
  lemma ExposureBreaks(file: Contents, archive: bool, before: seq<Step>, id: RequestId)
    requires Orderly(file, archive, before) && Exposed(Run(file, archive, before)) && !AtWork(Run(file, archive, before), id)
    ensures !OneAtWork(Run(file, archive, before + [Lock(id, Put(0, 0))]))
    ensures forall left | Unwritten(Run(file, archive, before), left) ::
      exists more :: var t := Run(file, archive, before + more); Held(t).Some? && |Held(t).value| > |file|
  {
    hide After, Do;
    var s := Run(file, archive, before);
    RunIsSound(file, archive, before);
    AfterOne(file, Start(archive), before, Lock(id, Put(0, 0)));
    LocksBeside(file, s, id);
    forall left | Unwritten(s, left)
      ensures exists more :: var t := Run(file, archive, before + more); Held(t).Some? && |Held(t).value| > |file|
    {
      var more := WritesBeyond(file, s, left, id);
      AfterMore(file, Start(archive), before, more);
      var t := Run(file, archive, before + more);
      assert Held(t).Some? && |Held(t).value| > |file|;
    }
  }

  // ---- runs in which that happens ----

  /** A piece is cut off in the middle and its request releases the lock at once;
      the helper has the rest of the piece still in hand when it is sent again. */
  lemma CutConnection()
    ensures exists steps :: Held(Run([1, 2], false, steps)) == Some([1, 2, 2])
  {
    hide After, Do;
    var file: Contents := [1, 2];
    FirstPiece();
    SentAgain();
    AfterMore(file, Start(false), FIRST, SECOND);
    assert Held(Run(file, false, FIRST + SECOND)) == Some([1, 2, 2]);
  }

  const FIRST := [Lock(0, Put(0, 2)), Panel(0, Exec), Pod(0, Open), Pod(0, Write(1)), Panel(0, Cut), Panel(0, End)]
  const SECOND := [Lock(1, Put(1, 1)), Panel(1, Exec), Pod(1, Open), Pod(1, Write(1)), Pod(0, Write(1)), Pod(1, Close)]

  /** The first piece is cut off behind its first byte. */
  const HALF := State(false, 1, Some(0), map[0 := [1]], 1, Some(0), None, map[], map[0 := Helper(Put(0, 2), Appending(0, 1))])

  lemma FirstPiece()
    ensures After([1, 2], Start(false), FIRST) == HALF
  {
    hide After;
    var file: Contents := [1, 2];
    var s0, put := Start(false), Put(0, 2);
    AfterSix(file, s0, Lock(0, put), Panel(0, Exec), Pod(0, Open), Pod(0, Write(1)), Panel(0, Cut), Panel(0, End));
    Begins(file, s0, 0, put);
    var s2 := Do(file, Do(file, s0, Lock(0, put)), Panel(0, Exec));
    assert s2 == State(false, 1, Some(961), map[], 0, None, None, map[0 := Request(put, Waiting)], map[0 := Helper(put, Begun)]);
    var s3 := Do(file, s2, Pod(0, Open));
    assert s3 == State(false, 1, Some(961), map[0 := []], 1, Some(0), None, map[0 := Request(put, Waiting)],
                       map[0 := Helper(put, Appending(0, 0))]);
    assert file[0..1] == [1] && [] + [1] == [1];
    CutOff(file, s3);
  }

  lemma CutOff(file: Contents, s: State)
    requires file == [1, 2]
    requires s == State(false, 1, Some(961), map[0 := []], 1, Some(0), None, map[0 := Request(Put(0, 2), Waiting)],
                        map[0 := Helper(Put(0, 2), Appending(0, 0))])
    ensures Do(file, Do(file, Do(file, s, Pod(0, Write(1))), Panel(0, Cut)), Panel(0, End)) == HALF
  {
    assert file[0..1] == [1] && [] + [1] == [1];
    var s4 := Do(file, s, Pod(0, Write(1)));
    assert s4 == s.(disk := map[0 := [1]], helpers := map[0 := Helper(Put(0, 2), Appending(0, 1))]);
    var s5 := Do(file, s4, Panel(0, Cut));
    assert s5 == s4.(requests := map[0 := Request(Put(0, 2), Answered(Failed))]);
    assert s5.requests - {0} == map[];
  }

  /** The byte that is missing is sent again, and written twice. */
  lemma SentAgain()
    ensures Held(After([1, 2], HALF, SECOND)) == Some([1, 2, 2])
  {
    hide After, Do, Opened;
    var file: Contents := [1, 2];
    var put := Put(1, 1);
    AfterSix(file, HALF, Lock(1, put), Panel(1, Exec), Pod(1, Open), Pod(1, Write(1)), Pod(0, Write(1)), Pod(1, Close));
    Begins(file, HALF, 1, put);
    var s2 := Do(file, Do(file, HALF, Lock(1, put)), Panel(1, Exec));
    Opens(file, s2, 1, put);
    OpensFor(s2, 1, put);
    var s3 := Do(file, s2, Pod(1, Open));
    assert s3.disk[0] == [1] && s3.helpers[0] == Helper(Put(0, 2), Appending(0, 1));
    assert file[1..2] == [2] && [1] + [2] == [1, 2] && [1, 2] + [2] == [1, 2, 2];
    WritesOn(file, s3, 1, put, 0, 0, 1);
    var s4 := Do(file, s3, Pod(1, Write(1)));
    WritesOn(file, s4, 0, Put(0, 2), 0, 1, 1);
    var s5 := Do(file, s4, Pod(0, Write(1)));
    Closes(file, s5, 1, put, 0, 1);
  }

  /** A request still at work when its lock has run out is enough. */
  lemma OutlivedLock()
    ensures exists steps :: Orderly([1], false, steps) && Exposed(Run([1], false, steps)) && Unwritten(Run([1], false, steps), 0)
  {
    hide After;
    var file: Contents := [1];
    var s0, put := Start(false), Put(0, 1);
    var steps := [Lock(0, put), Panel(0, Exec), Pod(0, Open), Tick(1000)];
    assert steps == [Lock(0, put), Panel(0, Exec)] + [Pod(0, Open), Tick(1000)];
    AfterMore(file, s0, [Lock(0, put), Panel(0, Exec)], [Pod(0, Open), Tick(1000)]);
    AfterTwo(file, s0, Lock(0, put), Panel(0, Exec));
    var s2 := Do(file, Do(file, s0, Lock(0, put)), Panel(0, Exec));
    AfterTwo(file, s2, Pod(0, Open), Tick(1000));
    var s3 := Do(file, s2, Pod(0, Open));
    assert s3.helpers == map[0 := Helper(put, Appending(0, 0))];
    var s4 := Do(file, s3, Tick(1000));
    assert s4.lock == Some(961) && s4.now == 1001;
    assert steps[..0] == [] && !Exposed(Run(file, false, [])) by { NoSteps(file, s0); }
    assert Orderly(file, false, steps);
  }
}
