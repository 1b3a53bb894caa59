/** The life of one operation over whole runs of the backup manager: which step
    may take its row from which phase to which, and what must have run before. */
module BackupLifecycle {
  import opened Text
  import opened BackupJobs
  import opened BackupManager
  import opened BackupSafety
  import opened BackupPasses
  import opened BackupRuns

  // ---- from phase to phase ----

  /** Which step takes a row from a phase to another. */
  predicate MayMove(id: Id, from: Phase, step: Step, to: Phase) {
    match (from, to)
    case (Pending, Running) => step.Claim?
    case (Pending, Failed) => step.FinishEarly?
    case (Running, Succeeded) => step.StoreResult?
    case (Running, Failed) => step.StoreResult?
    case (Succeeded, Deleting) => step == ActDelete(MarkDeleting(id)) || (step.StoreResult? && id in step.pruned)
    case _ => from == to
  }

  /** Which step takes a row away. */
  predicate MayGo(id: Id, from: Phase, step: Step) {
    match from
    case Pending => step == Cancel(id)
    case Running => false
    case Deleting => step == ActDelete(DropRow(id)) || step.DropRecord?
    case _ => step == ActDelete(DropRow(id))
  }

  /** A row comes as a new request, keeps its server and its kind, and moves and
      goes only so. */
  predicate LivesOn(s: State, step: Step, t: State, id: Id) {
    if id !in s.rows then
      id in t.rows ==> step.Enqueue? && id == s.nextId && t.rows[id] == Row(step.server, step.dir, Pending, None, None, false)
    else if id !in t.rows then MayGo(id, s.rows[id].phase, step)
    else
      && t.rows[id].server == s.rows[id].server && t.rows[id].dir == s.rows[id].dir
      && MayMove(id, s.rows[id].phase, step, t.rows[id].phase)
      && (t.rows[id].forgotten ==> s.rows[id].forgotten || step.MarkForgotten?)
  }

  /** A write that leaves a row's phase as it is and marks it as nothing. */
  predicate SamePhase(s: State, t: State, id: Id) {
    && (id in s.rows <==> id in t.rows)
    && (id in s.rows ==>
          && t.rows[id].server == s.rows[id].server && t.rows[id].dir == s.rows[id].dir
          && t.rows[id].phase == s.rows[id].phase && (t.rows[id].forgotten ==> s.rows[id].forgotten))
  }

  lemma SameLives(s: State, step: Step, t: State, id: Id)
    requires SamePhase(s, t, id)
    ensures LivesOn(s, step, t, id)
  {}

  lemma WritesKeepPhase(s: State, id: Id)
    ensures forall n, r :: SamePhase(s, Submit(s, n, r), id)
    ensures forall x, uid, r :: SamePhase(s, Observed(s, x, uid, r), id)
    ensures forall n, r :: SamePhase(s, RemoveJob(s, n, r), id)
    ensures forall b, r :: SamePhase(s, Acknowledged(s, b, r), id)
  {
    hide Terminal;
  }

  lemma OthersLive(s: State, step: Step, id: Id)
    requires Sound(s) && !Mine(step)
    ensures LivesOn(s, step, ByOthers(s, step), id)
  {
    hide Sound, Enqueued, CalledOff, Acted, Asked, Ended, Vanished, Expired, Purged, LivesOn;
    match step
    case Enqueue(server, dir) => EnqueueLives(s, server, dir, id);
    case Cancel(x) => CancelLives(s, x, id);
    case ActDelete(request) => ActLives(s, request, id);
    case _ => OthersLeaveRows(s, step); SameLives(s, step, ByOthers(s, step), id);
  }

  /** All but three of them touch no row. */
  lemma OthersLeaveRows(s: State, step: Step)
    requires !step.Enqueue? && !step.Cancel? && !step.ActDelete?
    ensures ByOthers(s, step).rows == s.rows
  {
    hide Enqueued, CalledOff, Acted, Asked, Ended, Vanished, Expired, Purged;
    if step.AskDelete? { AskLeavesRows(s, step.id, step.elsewhere); } else { JobsLeaveRows(s); }
  }

  lemma EnqueueLives(s: State, server: Server, dir: Direction, id: Id)
    requires Sound(s)
    ensures LivesOn(s, Enqueue(server, dir), Enqueued(s, server, dir), id)
  {
    hide Sound;
    if id in s.rows { IdIsOld(s, id); }
  }

  lemma CancelLives(s: State, x: Id, id: Id)
    ensures LivesOn(s, Cancel(x), CalledOff(s, x), id)
  {}

  lemma AskLeavesRows(s: State, id: Id, elsewhere: bool)
    ensures Asked(s, id, elsewhere).rows == s.rows
  {}

  lemma ActLives(s: State, request: Request, id: Id)
    requires Sound(s)
    ensures LivesOn(s, ActDelete(request), Acted(s, request), id)
  {
    hide Sound, Endangers;
    SoundRequest(s, request);
  }

  lemma CleanupLives(s: State, c: CleanupAt, step: Step, id: Id)
    ensures LivesOn(s, step, CleanupStep(s, c, step), id)
  {
    hide ListsCleanup, RemoveJob, Acknowledged, LivesOn;
    WritesKeepPhase(s, id);
    SameLives(s, step, CleanupStep(s, c, step), id);
  }

  lemma FinishLives(s: State, b: Snap, r: Result, id: Id)
    ensures LivesOn(s, FinishEarly(r), Completed(s, b.id, Pending, Failed, {}, r), id)
  {}

  lemma StartLives(s: State, p: StartAt, step: Step, id: Id)
    ensures LivesOn(s, step, PendingStep(s, p, step), id)
  {
    hide Lists, ServersOf, HeldBack, Submit, Observed, Completed, Waits;
    WritesKeepPhase(s, id);
    if step.FinishEarly? {
      forall b ensures LivesOn(s, step, Completed(s, b, Pending, Failed, {}, step.result), id) {
        FinishLives(s, Snap(b, Row(0, Backup, Pending, None, None, false)), step.result, id);
      }
    }
  }

  lemma StoreLives(s: State, b: Snap, to: Phase, pruned: set<Id>, r: Result, id: Id)
    requires Prunable(s, b, pruned) && to in {Succeeded, Failed}
    ensures LivesOn(s, StoreResult(r, pruned), Completed(s, b.id, Running, to, pruned, r), id)
  {
    hide Completed, Prunable;
    CompletedRow(s, b.id, to, pruned, r, id);
    PrunedRow(s, b, pruned, id);
  }

  lemma PrunedRow(s: State, b: Snap, pruned: set<Id>, id: Id)
    requires Prunable(s, b, pruned)
    ensures id in pruned ==> id != b.id && id in s.rows && s.rows[id].phase == Succeeded
  {}

  lemma CompletedRow(s: State, x: Id, to: Phase, pruned: set<Id>, r: Result, id: Id)
    ensures var t := Completed(s, x, Running, to, pruned, r);
      && (id in t.rows <==> id in s.rows)
      && (id in s.rows ==>
            || t.rows[id] == s.rows[id]
            || (id == x && s.rows[id].phase == Running && t.rows[id] == s.rows[id].(phase := to))
            || (id in pruned && t.rows[id] == OnTheWayOut(s.rows[id])))
  {
    hide OnTheWayOut;
  }

  lemma FollowLives(s: State, f: FollowAt, step: Step, id: Id)
    ensures LivesOn(s, step, RunningStep(s, f, step), id)
  {
    hide Lists, RunningLook, Observable, Submit, Observed, Completed, RemoveJob, Acknowledged, LivesOn, Prunable;
    var t := RunningStep(s, f, step);
    if step.StoreResult? {
      if f.Bound? && Storable(s, f.b, f.seen, step.pruned) {
        var to := if f.seen.outcome == Complete then Succeeded else Failed;
        StoreLives(s, f.b, to, step.pruned, step.result, id);
        SameRowsLive(s, step, Completed(s, f.b.id, Running, to, step.pruned, step.result), t, id);
      } else {
        SameLives(s, step, t, id);
      }
    } else {
      WritesKeepPhase(s, id);
      SameLives(s, step, t, id);
    }
  }

  lemma SameRowsLive(s: State, step: Step, t: State, u: State, id: Id)
    requires LivesOn(s, step, t, id) && u.rows == t.rows
    ensures LivesOn(s, step, u, id)
  {}

  lemma DeleteLives(s: State, d: DeleteAt, step: Step, id: Id)
    requires LeaderOk(s) && s.leader == Deletes(d)
    ensures LivesOn(s, step, DeletingStep(s, d, step), id)
  {
    hide LeaderOk, DeletingStep, LivesOn;
    if step.Create? || step.DeleteJob? || d.Deletions? {
      DeleteCallsLive(s, d, step, id);
      SameLives(s, step, DeletingStep(s, d, step), id);
    } else {
      DeleteWritesLive(s, d, step, id);
    }
  }

  lemma DeleteCallsLive(s: State, d: DeleteAt, step: Step, id: Id)
    requires step.Create? || step.DeleteJob? || d.Deletions?
    ensures SamePhase(s, DeletingStep(s, d, step), id)
  {
    hide Lists, ServersOf, DeletionStep, Submit, RemoveJob, ForgetNamed, Unclaimed;
    DeletionMoves(s, d, step);
    WritesKeepPhase(s, id);
  }

  lemma DeleteWritesLive(s: State, d: DeleteAt, step: Step, id: Id)
    requires LeaderOk(s) && s.leader == Deletes(d) && !step.Create? && !step.DeleteJob? && !d.Deletions?
    ensures LivesOn(s, step, DeletingStep(s, d, step), id)
  {
    hide LeaderOk, LivesOn, DeletingStep;
    if step.NoteFailure? {
      NoteLives(s, d, step, id);
    } else if step.DropRecord? {
      DropLives(s, d, step, id);
    } else if step.MarkForgotten? {
      MarkedLives(s, d, step, id);
    } else {
      MarkLives(s, d, step, id);
      SameLives(s, step, DeletingStep(s, d, step), id);
    }
  }

  lemma NoteLives(s: State, d: DeleteAt, step: Step, id: Id)
    requires LeaderOk(s) && s.leader == Deletes(d) && step.NoteFailure? && !d.Deletions?
    ensures LivesOn(s, step, DeletingStep(s, d, step), id)
  {
    hide DeletionsHeld, DeletionsOk, Before, DeletionStep, NamedBy, Known, Holds, EndedAs, NoneElse, DeletionOk;
  }

  lemma DropLives(s: State, d: DeleteAt, step: Step, id: Id)
    requires LeaderOk(s) && s.leader == Deletes(d) && step.DropRecord? && !d.Deletions?
    ensures LivesOn(s, step, DeletingStep(s, d, step), id)
  {
    hide DeletionsHeld, DeletionsOk, Before, DeletionStep, NamedBy, Known, Holds, EndedAs, NoneElse, DeletionOk;
  }

  lemma MarkLives(s: State, d: DeleteAt, step: Step, id: Id)
    requires !step.Create? && !step.DeleteJob? && !d.Deletions?
    requires !step.NoteFailure? && !step.DropRecord? && !step.MarkForgotten?
    ensures SamePhase(s, DeletingStep(s, d, step), id)
  {
    hide Lists, ServersOf, DeletionStep, Submit, RemoveJob, Another, ForgetNamed, SamePhase, Unclaimed;
    if step.ClaimDeletion? {
      ClaimLives(s, d, step, id);
    } else {
      assert DeletingStep(s, d, step).rows == s.rows;
      assert SamePhase(s, DeletingStep(s, d, step), id) by { RowsPhase(s, DeletingStep(s, d, step), id); }
    }
  }

  lemma RowsPhase(s: State, t: State, id: Id)
    requires t.rows == s.rows
    ensures SamePhase(s, t, id)
  {}

  lemma ClaimLives(s: State, d: DeleteAt, step: Step, id: Id)
    requires !d.Deletions? && step.ClaimDeletion?
    ensures SamePhase(s, DeletingStep(s, d, step), id)
  {
    hide DeletionStep, Submit, RemoveJob, Another;
  }

  lemma MarkedLives(s: State, d: DeleteAt, step: Step, id: Id)
    requires !d.Deletions? && step.MarkForgotten?
    ensures LivesOn(s, step, DeletingStep(s, d, step), id)
  {
    hide DeletionStep, Submit, RemoveJob, Another;
  }

  lemma StepLives(s: State, step: Step, id: Id)
    requires Inv(s)
    ensures LivesOn(s, step, Do(s, step), id)
  {
    hide LeaderOk, Sound, CleanupStep, PendingStep, RunningStep, DeletingStep, ByOthers, Between, LivesOn;
    if !Mine(step) {
      OthersLive(s, step, id);
    } else if step.Begin? || step.ListFails? || step.EndList? {
      BetweenMoves(s, step);
      SameLives(s, step, Between(s, step), id);
    } else {
      match s.leader
      case Off => SameLives(s, step, s, id);
      case Cleanups(c) => CleanupLives(s, c, step, id);
      case Starts(p) => StartLives(s, p, step, id);
      case Follows(f) => FollowLives(s, f, step, id);
      case Deletes(d) => DeleteLives(s, d, step, id);
    }
  }

  /** In every run a row is asked for, keeps its server and its kind, and goes
      from phase to phase only so. */
  lemma Lives(steps: seq<Step>, step: Step, id: Id)
    ensures LivesOn(Run(steps), step, Run(steps + [step]), id)
  {
    hide Inv, Run, Do, LivesOn;
    RunSteps(steps, step);
    RunKeepsInv(steps);
    StepLives(Run(steps), step, id);
  }

  /** What never ran has not succeeded: an operation that has, or whose backup is
      on its way out, was given its one Job; it became so from running; and one
      that waited, and neither was started nor is gone, waits or has failed. */
  lemma OnlyWhatRanSucceeds(steps: seq<Step>, step: Step, id: Id)
    ensures var t := Run(steps + [step]);
      id in t.rows && t.rows[id].phase in {Succeeded, Deleting} ==> Made(t, id) == 1
    ensures var s, t := Run(steps), Run(steps + [step]);
      id in t.rows && t.rows[id].phase == Succeeded && !(id in s.rows && s.rows[id].phase == Succeeded) ==>
        id in s.rows && s.rows[id].phase == Running
    ensures var s, t := Run(steps), Run(steps + [step]);
      id in s.rows && s.rows[id].phase == Pending && id in t.rows && t.rows[id].phase != Running ==>
        t.rows[id].phase in {Pending, Failed}
  {
    hide Inv, Run, Do;
    Lives(steps, step, id);
    RunKeepsInv(steps + [step]);
    InvFacts(Run(steps + [step]), id);
  }

  // ---- what a record's end tells ----

  /** The operations whose forget Job has ended well and is there to be seen. */
  function ForgetsEnded(s: State): set<Id> {
    set name | name in s.jobs && name.Forget? && s.jobs[name].outcome == Complete :: name.of
  }

  /** Those whose forget Job had ended well at some point of the run. */
  function Forgot(steps: seq<Step>): set<Id>
    decreases |steps|
  {
    (if steps == [] then {} else Forgot(steps[..|steps| - 1])) + ForgetsEnded(Run(steps))
  }

  predicate RowsKnow(s: State, done: set<Id>) {
    forall id | id in s.rows && s.rows[id].forgotten :: id in done
  }

  predicate SnapsKnow(todo: seq<Snap>, done: set<Id>) {
    forall b | b in todo && b.row.forgotten :: b.id in done
  }

  /** The leader marks, cleans up and drops only what it knows to be forgotten. */
  predicate LeaderKnows(l: Leader, done: set<Id>) {
    l.Deletes? ==>
      && SnapsKnow(TodoOf(l.d), done)
      && (l.d.ForgetDone? || l.d.Forgotten? || l.d.ForgottenGone? ==> l.d.b.id in done)
  }

  predicate Knows(s: State, done: set<Id>) {
    RowsKnow(s, done) && LeaderKnows(s.leader, done) && ForgetsEnded(s) <= done
  }

  lemma MarksTheDone(s: State, d: DeleteAt, r: Result, id: Id, done: set<Id>)
    requires s.leader == Deletes(d) && Knows(s, done)
    ensures var t := DeletingStep(s, d, MarkForgotten(r)); id in t.rows && t.rows[id].forgotten ==> id in done
  {
    hide DeletionStep, SnapsKnow, ForgetsEnded;
    DeletionMoves(s, d, MarkForgotten(r));
  }

  lemma StepMarks(s: State, step: Step, done: set<Id>)
    requires Inv(s) && Knows(s, done)
    ensures RowsKnow(Do(s, step), done)
  {
    hide Inv, Knows, CleanupStep, PendingStep, RunningStep, DeletingStep, ByOthers, Between;
    var t := Do(s, step);
    forall id | id in t.rows && t.rows[id].forgotten ensures id in done {
      StepLives(s, step, id);
      assert RowsKnow(s, done) by { KnowsRows(s, done); }
      if step.MarkForgotten? { MarksKnown(s, step, id, done); }
    }
  }

  lemma KnowsRows(s: State, done: set<Id>)
    requires Knows(s, done)
    ensures RowsKnow(s, done) && LeaderKnows(s.leader, done)
  {
    hide RowsKnow, LeaderKnows;
  }

  lemma MarksKnown(s: State, step: Step, id: Id, done: set<Id>)
    requires Knows(s, done) && step.MarkForgotten? && id in Do(s, step).rows && Do(s, step).rows[id].forgotten
    ensures id in done
  {
    hide Knows, DeletingStep, CleanupStep, PendingStep, RunningStep, SnapsKnow;
    KnowsRows(s, done);
    if s.leader.Deletes? { MarksTheDone(s, s.leader.d, step.result, id, done); } else { NotMarking(s, step); }
  }

  lemma NotMarking(s: State, step: Step)
    requires step.MarkForgotten?
    ensures forall c :: CleanupStep(s, c, step) == s
    ensures forall p :: PendingStep(s, p, step) == s
    ensures forall f :: RunningStep(s, f, step) == s
  {
    hide Lists, ListsCleanup;
  }

  lemma LooksKnow(s: State, todo: seq<Snap>, busy: set<Server>, podsRemain: bool, done: set<Id>)
    requires Inv(s) && s.leader == Deletes(Deletions(todo, busy)) && todo != [] && Knows(s, done)
    ensures LeaderKnows(Deletes(DeletionLook(s, todo[0], todo[1..], busy, podsRemain)), done)
  {
    hide Sound, Holds, Known, RowsKnow;
    var b := todo[0];
    assert DeletionOk(s, b);
    assert b.row.job.Some? && Forget(b.id) in s.jobs && s.jobs[Forget(b.id)].outcome == Complete ==> b.id in ForgetsEnded(s);
  }

  lemma DeleteKnows(s: State, d: DeleteAt, step: Step, done: set<Id>)
    requires Inv(s) && s.leader == Deletes(d) && Knows(s, done)
    ensures LeaderKnows(DeletingStep(s, d, step).leader, done)
  {
    hide Inv, Knows, DeletingStep, DeletionStep, LeaderKnows;
    KnowsRows(s, done);
    if d.Deletions? {
      if d.todo != [] { FrontKnows(s, d.todo, d.busy, step, done); }
      assert DeletingStep(s, d, step) == if d.todo == [] then s else DeletionStep(s, d.todo[0], d.todo[1..], d.busy, step)
      by { DeletionsStep(s, d, step); }
    } else {
      GoesOnKnowing(s, d, step, done);
    }
  }

  lemma DeletionsStep(s: State, d: DeleteAt, step: Step)
    requires d.Deletions?
    ensures DeletingStep(s, d, step) == if d.todo == [] then s else DeletionStep(s, d.todo[0], d.todo[1..], d.busy, step)
  {
    hide DeletionStep;
  }

  lemma FrontKnows(s: State, todo: seq<Snap>, busy: set<Server>, step: Step, done: set<Id>)
    requires Inv(s) && s.leader == Deletes(Deletions(todo, busy)) && todo != [] && Knows(s, done)
    ensures LeaderKnows(DeletionStep(s, todo[0], todo[1..], busy, step).leader, done)
  {
    hide Inv, DeletionLook, RowsKnow, ForgetsEnded;
    if step.Look? { LooksKnow(s, todo, busy, step.podsRemain, done); }
  }

  lemma GoesOnKnowing(s: State, d: DeleteAt, step: Step, done: set<Id>)
    requires s.leader == Deletes(d) && RowsKnow(s, done) && LeaderKnows(s.leader, done) && !d.Deletions?
    ensures LeaderKnows(DeletingStep(s, d, step).leader, done)
  {
    hide Submit, RemoveJob, ForgetNamed, Unclaimed, DeletionStep, ServersOf, SnapsKnow;
    if d.AtDeleting? && step.List? && Lists(step.listed, s.rows, Deleting) { ListKnows(s, step.listed, done); }
  }

  lemma ListKnows(s: State, listed: seq<Snap>, done: set<Id>)
    requires RowsKnow(s, done) && Lists(listed, s.rows, Deleting)
    ensures SnapsKnow(listed, done)
  {}

  lemma StartStays(s: State, p: StartAt, step: Step)
    requires s.leader == Starts(p)
    ensures PendingStep(s, p, step).leader.Starts?
  {
    hide Lists, ServersOf, HeldBack, Submit, Observed, Completed, Waits;
  }

  lemma FollowStays(s: State, f: FollowAt, step: Step)
    requires s.leader == Follows(f)
    ensures RunningStep(s, f, step).leader.Follows?
  {
    hide Lists, RunningLook, Observable, Submit, Observed, Completed, RemoveJob, Acknowledged, Storable;
  }

  lemma CleanupStays(s: State, c: CleanupAt, step: Step)
    requires s.leader == Cleanups(c)
    ensures CleanupStep(s, c, step).leader.Cleanups?
  {
    hide ListsCleanup, RemoveJob, Acknowledged;
  }

  lemma StepKnows(s: State, step: Step, done: set<Id>)
    requires Inv(s) && Knows(s, done)
    ensures LeaderKnows(Do(s, step).leader, done)
  {
    hide Inv, Knows, CleanupStep, PendingStep, RunningStep, DeletingStep, ByOthers, SnapsKnow;
    KnowsRows(s, done);
    if !Mine(step) {
      if !step.Crash? { OthersLeaveTheLeader(s, step); } else { CrashesOff(s); }
    } else if step.Begin? || step.ListFails? || step.EndList? {
      assert SnapsKnow([], done) by { NothingKnown(done); }
    } else {
      match s.leader
      case Off =>
      case Cleanups(c) => CleanupStays(s, c, step);
      case Starts(p) => StartStays(s, p, step);
      case Follows(f) => FollowStays(s, f, step);
      case Deletes(d) => DeleteKnows(s, d, step, done);
    }
  }

  lemma NothingKnown(done: set<Id>)
    ensures SnapsKnow([], done)
  {}

  lemma CrashesOff(s: State)
    ensures ByOthers(s, Crash).leader == Off
  {}

  lemma {:induction false} RunKnows(steps: seq<Step>)
    ensures Knows(Run(steps), Forgot(steps))
    decreases |steps|
  {
    hide Inv, Do, RowsKnow, LeaderKnows, ForgetsEnded;
    if steps == [] {
      assert RowsKnow(START, Forgot(steps)) && LeaderKnows(START.leader, Forgot(steps)) by { StartKnows(Forgot(steps)); }
    } else {
      var before, step := steps[..|steps| - 1], steps[|steps| - 1];
      RunKnows(before);
      RunKeepsInv(before);
      StepMarks(Run(before), step, Forgot(before));
      StepKnows(Run(before), step, Forgot(before));
      MoreKnown(Run(steps), Forgot(before), Forgot(steps));
    }
  }

  lemma StartKnows(done: set<Id>)
    ensures RowsKnow(START, done) && LeaderKnows(START.leader, done)
  {}

  lemma MoreKnown(s: State, done: set<Id>, more: set<Id>)
    requires RowsKnow(s, done) && LeaderKnows(s.leader, done) && done <= more
    ensures RowsKnow(s, more) && LeaderKnows(s.leader, more)
  {}

  lemma {:induction false} ForgotOnce(steps: seq<Step>, id: Id)
    requires id in Forgot(steps)
    ensures exists k | 0 <= k <= |steps| ::
      Forget(id) in Run(steps[..k]).jobs && Run(steps[..k]).jobs[Forget(id)].outcome == Complete
    decreases |steps|
  {
    hide Run;
    if id in ForgetsEnded(Run(steps)) {
      assert steps[..|steps|] == steps;
    } else {
      var before := steps[..|steps| - 1];
      ForgotOnce(before, id);
      var k :| 0 <= k <= |before| && Forget(id) in Run(before[..k]).jobs && Run(before[..k]).jobs[Forget(id)].outcome == Complete;
      assert before[..k] == steps[..k];
    }
  }

  /** The record of a backup outlives its snapshot: a row on its way out that is
      marked as forgotten, or dropped by the leader, had its own forget Job end
      well before; nothing but an unconditional delete drops it otherwise. */
  lemma RecordsOutliveSnapshots(steps: seq<Step>, step: Step, id: Id)
    requires var s, t := Run(steps), Run(steps + [step]);
      && id in s.rows && s.rows[id].phase == Deleting
      && (s.rows[id].forgotten || (id !in t.rows && step != ActDelete(DropRow(id))))
    ensures exists k | 0 <= k <= |steps| ::
      Forget(id) in Run(steps[..k]).jobs && Run(steps[..k]).jobs[Forget(id)].outcome == Complete
  {
    hide Inv, Run, Do, Knows;
    RunKnows(steps);
    if !Run(steps).rows[id].forgotten {
      Lives(steps, step, id);
      RunSteps(steps, step);
      DropsKnown(Run(steps), step.result, id, Forgot(steps));
    } else {
      KnowsRows(Run(steps), Forgot(steps));
    }
    ForgotOnce(steps, id);
  }

  lemma DropsKnown(s: State, r: Result, id: Id, done: set<Id>)
    requires Knows(s, done) && id in s.rows && id !in Do(s, DropRecord(r)).rows
    ensures id in done
  {
    hide Knows, DeletingStep, CleanupStep, PendingStep, RunningStep, SnapsKnow;
    KnowsRows(s, done);
    if s.leader.Deletes? { DropsTheGone(s, s.leader.d, r, id); } else { NotDropping(s, r); }
  }

  lemma NotDropping(s: State, r: Result)
    ensures forall c :: CleanupStep(s, c, DropRecord(r)) == s
    ensures forall p :: PendingStep(s, p, DropRecord(r)) == s
    ensures forall f :: RunningStep(s, f, DropRecord(r)) == s
  {
    hide Lists, ListsCleanup;
  }

  lemma DropsTheGone(s: State, d: DeleteAt, r: Result, id: Id)
    requires id in s.rows && id !in DeletingStep(s, d, DropRecord(r)).rows
    ensures d.ForgottenGone? && d.b.id == id
  {
    hide DeletionStep;
    DeletionMoves(s, d, DropRecord(r));
  }
}
