/** The lock of an upload over whole runs: how long it keeps others out, what its
    release leaves, and that an upload that is over stays so. */
module UploadLocks {
  import opened Bytes
  import opened Text
  import opened Uploads

  /** A request ends and releases the lock, whoever has it. */
  predicate Frees(step: Step) { step.Panel? && step.act.End? }

  /** Nobody came to work but who was there, and the lock is as it was. */
  ghost predicate KeptOut(s: State, t: State) {
    && t.lock == s.lock && s.now <= t.now
    && (forall x | AtWork(t, x) :: AtWork(s, x))
  }

  lemma StepKeepsOut(file: Contents, s: State, step: Step)
    requires !Frees(step) && !Free(s)
    ensures KeptOut(s, Do(file, s, step))
  {
    hide Opened, Written, Ended, Moved, Free;
    match step
    case Tick(_) =>
    case Lock(_, _) =>
    case Panel(id, act) => if id in s.requests { RequestKeepsOut(s, id, act); }
    case Pod(id, work) => if id in s.helpers { HelperKeepsOut(file, s, id, work); }
  }

  lemma RequestKeepsOut(s: State, id: RequestId, act: ByPanel)
    requires id in s.requests && !act.End?
    ensures KeptOut(s, OfRequest(s, id, act))
  {}

  lemma HelperKeepsOut(file: Contents, s: State, id: RequestId, work: ByHelper)
    requires id in s.helpers
    ensures KeptOut(s, OfHelper(file, s, id, work))
  {
    hide Held;
    var h := s.helpers[id];
    match work
    case Open =>
    case Write(n) =>
    case _ =>
  }

  lemma {:induction false} RunKeepsOut(file: Contents, s: State, steps: seq<Step>, until: Seconds)
    requires s.lock == Some(until) && After(file, s, steps).now <= until
    requires forall step | step in steps :: !Frees(step)
    ensures KeptOut(s, After(file, s, steps))
    decreases |steps|
  {
    hide Do, KeptOut, AtWork;
    if steps == [] {
      NothingKept(s);
    } else {
      var before, last := steps[..|steps| - 1], steps[|steps| - 1];
      assert last in steps;
      forall step | step in before ensures !Frees(step) { assert step in steps; }
      TimeGoesOn(file, After(file, s, before), last);
      RunKeepsOut(file, s, before, until);
      StillHeld(s, After(file, s, before), until);
      StepKeepsOut(file, After(file, s, before), last);
      KeptLonger(s, After(file, s, before), After(file, s, steps));
    }
  }

  lemma NothingKept(s: State)
    ensures KeptOut(s, s)
  {}

  lemma StillHeld(s: State, t: State, until: Seconds)
    requires KeptOut(s, t) && s.lock == Some(until) && t.now <= until
    ensures !Free(t)
  {}

  lemma KeptLonger(s: State, t: State, u: State)
    requires KeptOut(s, t) && KeptOut(t, u)
    ensures KeptOut(s, u)
  {
    hide AtWork;
  }

  lemma TimeGoesOn(file: Contents, s: State, step: Step)
    ensures s.now <= Do(file, s, step).now
  {
    hide Opened, Held;
    match step
    case Tick(_) =>
    case Lock(_, _) =>
    case Panel(id, act) =>
    case Pod(id, work) => if id in s.helpers { HelperKeepsOut(file, s, id, work); }
  }

  /** How long a piece, a finish and a removal may hold the lock, in seconds. */
  function HoldsFor(kind: Kind): Seconds {
    if kind.Put? then 960 else if kind.Finish? then 3660 else 120
  }

  /** A request that takes the lock keeps every other out for sixteen minutes when
      it brings a piece, for sixty-one when it finishes and for two when it
      removes, as long as no request releases it. */
  lemma LockHolds(file: Contents, archive: bool, before: seq<Step>, id: RequestId, kind: Kind, steps: seq<Step>)
    requires var s := Run(file, archive, before); !AtWork(s, id) && s.lock.Some? && s.lock.value < s.now && Fits(file, kind)
    requires forall step | step in steps :: !Frees(step)
    requires Run(file, archive, before + [Lock(id, kind)] + steps).now <= Run(file, archive, before).now + HoldsFor(kind)
    ensures forall x | AtWork(Run(file, archive, before + [Lock(id, kind)] + steps), x) ::
              AtWork(Run(file, archive, before), x) || x == id
  {
    hide Do, After, KeptOut;
    var s := Run(file, archive, before);
    var t := Run(file, archive, before + [Lock(id, kind)]);
    AfterOne(file, Start(archive), before, Lock(id, kind));
    Locks(file, s, id, kind);
    AfterMore(file, Start(archive), before + [Lock(id, kind)], steps);
    RunKeepsOut(file, t, steps, s.now + HoldsFor(kind));
    WhoIsKept(t, After(file, t, steps));
  }

  lemma WhoIsKept(s: State, t: State)
    requires KeptOut(s, t)
    ensures forall x | AtWork(t, x) :: AtWork(s, x)
  {
    hide AtWork;
  }

  // ---- an upload that is over ----

  /** A request that ends leaves the upload over exactly when it put it in place or
      removed it, or was to unpack an archive and failed; else free for the next
      one at once. */
  lemma EndsOverOrFree(file: Contents, archive: bool, before: seq<Step>, id: RequestId)
    requires var s := Run(file, archive, before); id in s.requests && s.requests[id].stage.Answered? && s.lock.Some?
    ensures var s, t := Run(file, archive, before), Run(file, archive, before + [Panel(id, End)]);
      var a := s.requests[id].stage.answer;
      && id !in t.requests
      && (t.lock == None <==> a == Placed || a == Gone || (archive && s.requests[id].kind == Finish && a == Failed))
      && (t.lock != None ==> t.lock == Some(0) && (t.now > 0 ==> Free(t)))
  {
    hide Run;
    AfterOne(file, Start(archive), before, Panel(id, End));
    ArchiveStays(file, archive, before);
    RunIsAfter(file, archive, before);
    RunIsAfter(file, archive, before + [Panel(id, End)]);
  }

  lemma RunIsAfter(file: Contents, archive: bool, steps: seq<Step>)
    ensures Run(file, archive, steps) == After(file, Start(archive), steps)
  {}

  lemma {:induction false} ArchiveStays(file: Contents, archive: bool, steps: seq<Step>)
    ensures Run(file, archive, steps).archive == archive
    decreases |steps|
  {
    hide Do;
    if steps != [] {
      ArchiveStays(file, archive, steps[..|steps| - 1]);
      StepKeepsKind(file, Run(file, archive, steps[..|steps| - 1]), steps[|steps| - 1]);
    }
  }

  lemma StepKeepsKind(file: Contents, s: State, step: Step)
    ensures Do(file, s, step).archive == s.archive
  {
    hide Held, Told;
  }

  lemma OverStays(file: Contents, s: State, step: Step)
    requires s.lock == None
    ensures Do(file, s, step).lock == None && forall x | x in Do(file, s, step).requests :: x in s.requests
  {
    hide Held, Opened, Written, Ended, Moved;
    match step
    case Tick(_) =>
    case Lock(_, _) =>
    case Panel(id, act) =>
    case Pod(id, work) => if id in s.helpers { HelperAddsNone(file, s, id, work); }
  }

  lemma HelperAddsNone(file: Contents, s: State, id: RequestId, work: ByHelper)
    requires id in s.helpers
    ensures OfHelper(file, s, id, work).lock == s.lock && forall x | x in OfHelper(file, s, id, work).requests :: x in s.requests
  {
    hide Held;
  }

  /** Once it is over nobody works on it any more but who already did. */
  lemma {:induction false} OverForGood(file: Contents, archive: bool, before: seq<Step>, steps: seq<Step>)
    requires Run(file, archive, before).lock == None
    ensures var s, t := Run(file, archive, before), Run(file, archive, before + steps);
      t.lock == None && forall x | x in t.requests :: x in s.requests
    decreases |steps|
  {
    hide Do;
    if steps == [] {
      assert before + steps == before;
    } else {
      var rest, last := steps[..|steps| - 1], steps[|steps| - 1];
      OverForGood(file, archive, before, rest);
      assert before + steps == (before + rest) + [last];
      AfterOne(file, Start(archive), before + rest, last);
      OverStays(file, Run(file, archive, before + rest), last);
    }
  }
}
