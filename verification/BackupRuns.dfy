/** What holds of the backup manager over whole runs: through crashes, refused
    writes and lost answers, with the panel and the cluster acting at any
    point. */
module BackupRuns {
  import opened Text
  import opened BackupJobs
  import opened BackupManager
  import opened BackupSafety
  import opened BackupPasses

  lemma StartIsSound()
    ensures Inv(START)
  {}

  lemma {:induction false} RunKeepsInv(steps: seq<Step>)
    ensures Inv(Run(steps))
    decreases |steps|
  {
    hide Inv, Do;
    if steps == [] {
      StartIsSound();
    } else {
      RunKeepsInv(steps[..|steps| - 1]);
      DoKeepsInv(Run(steps[..|steps| - 1]), steps[|steps| - 1]);
    }
  }

  lemma RunSteps(before: seq<Step>, step: Step)
    ensures Run(before + [step]) == Do(Run(before), step)
  {
    hide Do;
    var steps := before + [step];
    assert steps[..|steps| - 1] == before;
  }

  lemma InvFacts(s: State, id: Id)
    requires Inv(s)
    ensures HistoryOk(s, id)
    ensures id in s.rows ==> RowOk(s, id)
  {
    hide LeaderOk, RowOk, HistoryOk;
  }

  // ---- the history only grows ----

  predicate Grows(s: State, t: State, id: Id) {
    && Made(s, id) <= Made(t, id)
    && (id in s.stored ==> id in t.stored) && (id in s.cancelled ==> id in t.cancelled)
  }

  /** What a single write or call adds to the history. */
  lemma WritesGrow(s: State, id: Id)
    ensures forall name, r :: Grows(s, Submit(s, name, r), id)
    ensures forall x, uid, r :: Grows(s, Observed(s, x, uid, r), id)
    ensures forall x, from, to, pruned, r :: Grows(s, Completed(s, x, from, to, pruned, r), id)
    ensures forall name, r :: Grows(s, RemoveJob(s, name, r), id)
    ensures forall b, r :: Grows(s, Acknowledged(s, b, r), id)
  {
    hide Observable, Terminal, OnTheWayOut;
  }

  lemma CleanupGrows(s: State, c: CleanupAt, step: Step, id: Id)
    ensures Grows(s, CleanupStep(s, c, step), id)
  {
    hide ListsCleanup, RemoveJob, Acknowledged;
    WritesGrow(s, id);
  }

  lemma StartGrows(s: State, p: StartAt, step: Step, id: Id)
    ensures Grows(s, PendingStep(s, p, step), id)
  {
    hide Lists, ServersOf, HeldBack, Submit, Observed, Completed;
    WritesGrow(s, id);
  }

  lemma FollowGrows(s: State, f: FollowAt, step: Step, id: Id)
    ensures Grows(s, RunningStep(s, f, step), id)
  {
    hide Storable, RunningLook, Lists, Observable, Completed, Submit, Observed, RemoveJob, Acknowledged;
    WritesGrow(s, id);
  }

  /** Taking a deletion off the list moves the leader alone. */
  lemma DeletionMoves(s: State, d: DeleteAt, step: Step)
    ensures d.Deletions? && d.todo != [] ==>
      var t := DeletionStep(s, d.todo[0], d.todo[1..], d.busy, step); t == s.(leader := t.leader)
  {
    hide DeletionLook;
  }

  predicate DeletingFrame(s: State, t: State) {
    t == s.(leader := t.leader, rows := t.rows, jobs := t.jobs, nextUid := t.nextUid, slipped := t.slipped)
  }

  /** What the deleting stage writes to. */
  lemma DeleteFrame(s: State, d: DeleteAt, step: Step)
    ensures DeletingFrame(s, DeletingStep(s, d, step))
  {
    hide DeletingStep, DeletingFrame;
    if step.Create? || step.DeleteJob? || d.Deletions? { DeleteCallsFrame(s, d, step); } else { DeleteWritesFrame(s, d, step); }
  }

  lemma DeleteCallsFrame(s: State, d: DeleteAt, step: Step)
    requires step.Create? || step.DeleteJob? || d.Deletions?
    ensures DeletingFrame(s, DeletingStep(s, d, step))
  {
    hide Lists, ServersOf, DeletionStep, ForgetNamed, Submit, RemoveJob, Unclaimed;
    DeletionMoves(s, d, step);
    WritesFrame(s);
  }

  lemma DeleteWritesFrame(s: State, d: DeleteAt, step: Step)
    requires !step.Create? && !step.DeleteJob? && !d.Deletions?
    ensures DeletingFrame(s, DeletingStep(s, d, step))
  {
    hide Lists, ServersOf, DeletionStep, Another, Submit, RemoveJob;
  }

  lemma WritesFrame(s: State)
    ensures forall id, r :: var t := Submit(s, Forget(id), r); t == s.(jobs := t.jobs, nextUid := t.nextUid)
    ensures forall n, r :: var t := RemoveJob(s, n, r); t == s.(jobs := t.jobs)
  {}

  lemma DeleteGrows(s: State, d: DeleteAt, step: Step, id: Id)
    ensures Grows(s, DeletingStep(s, d, step), id)
  {
    hide DeletingStep;
    DeleteFrame(s, d, step);
  }

  lemma OthersGrow(s: State, step: Step, id: Id)
    ensures Grows(s, ByOthers(s, step), id)
  {
    hide Enqueued, CalledOff, Asked, Acted, Ended, Vanished, Expired, Purged;
    AskersGrow(s, id);
    JobsGrow(s, id);
  }

  lemma AskersGrow(s: State, id: Id)
    ensures forall server, dir :: Grows(s, Enqueued(s, server, dir), id)
    ensures forall x :: Grows(s, CalledOff(s, x), id)
    ensures forall x, elsewhere :: Grows(s, Asked(s, x, elsewhere), id)
    ensures forall request :: Grows(s, Acted(s, request), id)
  {
    hide Endangers, Terminal, Rewritten;
  }

  lemma JobsGrow(s: State, id: Id)
    ensures forall name, outcome :: Grows(s, Ended(s, name, outcome), id)
    ensures forall name :: Grows(s, Vanished(s, name), id) && Grows(s, Expired(s, name), id)
    ensures forall slug :: Grows(s, Purged(s, slug), id)
  {
    hide Expires;
  }

  lemma BetweenGrows(s: State, step: Step, id: Id)
    ensures Grows(s, Between(s, step), id)
  {
    hide Between;
    BetweenMoves(s, step);
  }

  lemma DoGrows(s: State, step: Step, id: Id)
    ensures Grows(s, Do(s, step), id)
  {
    hide CleanupStep, PendingStep, RunningStep, DeletingStep, ByOthers, Between;
    OthersGrow(s, step, id);
    BetweenGrows(s, step, id);
    match s.leader
    case Off =>
    case Cleanups(c) => CleanupGrows(s, c, step, id);
    case Starts(p) => StartGrows(s, p, step, id);
    case Follows(f) => FollowGrows(s, f, step, id);
    case Deletes(d) => DeleteGrows(s, d, step, id);
  }

  /** What was made, stored or called off stays so. */
  lemma {:induction false} RunGrows(before: seq<Step>, after: seq<Step>, id: Id)
    ensures Grows(Run(before), Run(before + after), id)
    decreases |after|
  {
    hide Do;
    if after == [] {
      assert before + after == before;
    } else {
      var rest := after[..|after| - 1];
      RunGrows(before, rest, id);
      assert before + after == (before + rest) + [after[|after| - 1]];
      RunSteps(before + rest, after[|after| - 1]);
      DoGrows(Run(before + rest), after[|after| - 1], id);
    }
  }

  // ---- one Job per operation ----

  /** Through crashes, lost answers and repeated passes an operation is given at
      most one Job. */
  lemma AtMostOneJob(steps: seq<Step>, id: Id)
    ensures Made(Run(steps), id) <= 1
  {
    hide Inv, Run;
    RunKeepsInv(steps);
    InvFacts(Run(steps), id);
  }

  /** One called off while it was pending never gets any. */
  lemma CalledOffNeverRuns(before: seq<Step>, id: Id, after: seq<Step>)
    requires id in Run(before).rows && Run(before).rows[id].phase == Pending
    ensures Made(Run(before + [Cancel(id)] + after), id) == 0
  {
    hide Inv, Run;
    RunSteps(before, Cancel(id));
    RunGrows(before + [Cancel(id)], after, id);
    RunKeepsInv(before + [Cancel(id)] + after);
    InvFacts(Run(before + [Cancel(id)] + after), id);
  }

  /** One whose Job's UID was recorded never gets another. */
  lemma ObservedNeverRunsAgain(before: seq<Step>, id: Id, after: seq<Step>)
    requires id in Run(before).rows && Run(before).rows[id].phase == Running && Run(before).rows[id].uid.Some?
    ensures Made(Run(before), id) == Made(Run(before + after), id) == 1
  {
    hide Inv, Run, Do;
    RunKeepsInv(before);
    InvFacts(Run(before), id);
    RunGrows(before, after, id);
    AtMostOneJob(before + after, id);
  }

  // ---- what a single step may do to an operation ----

  /** The Job of an operation goes only once its result is stored, unless
      someone else deletes it. */
  predicate KeepsEvidence(s: State, step: Step, t: State, name: JobName) {
    name.Operation? && name in s.jobs && name !in t.jobs ==> name.id in s.stored || step == JobVanishes(name)
  }

  /** A running operation goes on running until the end of its own Job, the only
      one it was given, is stored as its result. */
  predicate SettledByItsJob(s: State, t: State, id: Id) {
    id in s.rows && s.rows[id].phase == Running ==>
      && id in t.rows
      && (t.rows[id].phase != Running ==>
            && t.rows[id].phase in {Succeeded, Failed} && id in t.stored
            && s.rows[id].uid.Some? && Made(s, id) == 1
            && var name := Operation(s.rows[id].dir, id);
               name in s.jobs ==> s.jobs[name] == Job(s.rows[id].uid.value, if t.rows[id].phase == Succeeded then Complete else Broken))
  }

  /** An operation starts from the queue, on a server with nothing in hand and
      not held for a transfer; of the others waiting for the server, the older
      ones are exactly those that were let pass. */
  predicate StartedInTurn(s: State, step: Step, t: State, id: Id) {
    id in t.rows && t.rows[id].phase == Running ==>
      && id in s.rows
      && (s.rows[id].phase != Running ==>
            && s.rows[id].phase == Pending && step.Claim?
            && var server := s.rows[id].server;
               NoneBusy(s, server) && !HeldBack(s, server, id)
               && (forall other | other in s.rows && s.rows[other].phase == Pending && s.rows[other].server == server && other != id ::
                     other < id <==> other in s.passed))
  }

  predicate Rightly(s: State, step: Step, t: State, dir: Direction, id: Id) {
    KeepsEvidence(s, step, t, Operation(dir, id)) && SettledByItsJob(s, t, id) && StartedInTurn(s, step, t, id)
  }

  lemma OthersKeepEvidence(s: State, step: Step, name: JobName)
    ensures KeepsEvidence(s, step, ByOthers(s, step), name)
  {
    hide Enqueued, CalledOff, Asked, Acted, Expires;
    OthersKeepJobs(s, step);
    OnlyAPurgeExpires(name);
  }

  lemma OthersKeepJobs(s: State, step: Step)
    ensures !step.JobEnds? && !step.JobVanishes? && !step.JobExpires? && !step.PurgeServer? ==> ByOthers(s, step).jobs == s.jobs
  {
    hide Ended, Vanished, Expired, Purged, Endangers, Rewritten, Terminal;
    match step
    case Enqueue(_, _) =>
    case Cancel(_) =>
    case AskDelete(_, _) =>
    case ActDelete(_) =>
    case _ =>
  }

  lemma OthersSettleNone(s: State, step: Step, id: Id)
    requires Sound(s)
    ensures SettledByItsJob(s, ByOthers(s, step), id)
  {
    hide Sound, RowOk, JobOk, HistoryOk, Acted, Ended, Vanished, Expired, Purged;
    if id in s.rows { IdIsOld(s, id); }
    JobsLeaveRows(s);
    if step.ActDelete? { ActSettlesNone(s, step.request, id); }
  }

  /** The cluster's own steps touch no row. */
  lemma JobsLeaveRows(s: State)
    ensures forall name, outcome :: Ended(s, name, outcome).rows == s.rows
    ensures forall name :: Vanished(s, name).rows == s.rows && Expired(s, name).rows == s.rows
    ensures forall slug :: Purged(s, slug).rows == s.rows
  {
    hide Expires;
  }

  lemma ActSettlesNone(s: State, request: Request, id: Id)
    requires Sound(s)
    ensures SettledByItsJob(s, Acted(s, request), id)
  {
    hide Sound, Endangers;
    SoundRequest(s, request);
  }

  lemma IdIsOld(s: State, id: Id)
    requires Sound(s) && id in s.rows
    ensures id < s.nextId
  {
    hide JobOk, HistoryOk;
    assert RowOk(s, id);
  }

  lemma OthersStartNone(s: State, step: Step, id: Id)
    ensures StartedInTurn(s, step, ByOthers(s, step), id)
  {
    hide NoneBusy, HeldBack;
  }

  /** A step that only moves the leader. */
  lemma MovingIsRight(s: State, step: Step, t: State, dir: Direction, id: Id)
    requires t.rows == s.rows && t.jobs == s.jobs
    ensures Rightly(s, step, t, dir, id)
  {
    hide NoneBusy, HeldBack;
  }

  lemma BetweenMoves(s: State, step: Step)
    ensures Between(s, step).rows == s.rows && Between(s, step).jobs == s.jobs
    ensures Between(s, step).created == s.created && Between(s, step).stored == s.stored
    ensures Between(s, step).cancelled == s.cancelled
  {}

  lemma CleanupKeepsEvidence(s: State, c: CleanupAt, step: Step, name: JobName)
    requires LeaderOk(s) && s.leader == Cleanups(c)
    ensures KeepsEvidence(s, step, CleanupStep(s, c, step), name)
  {
    hide ListsCleanup, Known;
    if c.Cleaning? && c.todo != [] { assert StoredOk(s, c.todo[0]); }
  }

  lemma CleanupMovesNone(s: State, c: CleanupAt, step: Step, id: Id)
    ensures SettledByItsJob(s, CleanupStep(s, c, step), id) && StartedInTurn(s, step, CleanupStep(s, c, step), id)
  {
    hide ListsCleanup, NoneBusy, HeldBack;
  }

  lemma StartKeepsEvidence(s: State, p: StartAt, step: Step, name: JobName)
    ensures KeepsEvidence(s, step, PendingStep(s, p, step), name)
  {
    hide HeldBack, Lists, ServersOf;
  }

  lemma StartSettles(s: State, p: StartAt, step: Step, id: Id)
    ensures SettledByItsJob(s, PendingStep(s, p, step), id)
  {
    hide HeldBack, Lists, ServersOf;
  }

  /** The pending stage at the front of its list. */
  predicate AtFront(s: State) { s.leader.Starts? && s.leader.p.Queue? && s.leader.p.todo != [] }

  lemma FrontStep(s: State, step: Step)
    requires AtFront(s)
    ensures var p := s.leader.p; PendingStep(s, p, step) == QueueStep(s, p.todo[0], p.todo[1..], p.bound, p.busy, step)
  {
    hide QueueStep;
  }

  lemma StartInTurn(s: State, p: StartAt, step: Step, id: Id)
    requires Inv(s) && s.leader == Starts(p)
    ensures StartedInTurn(s, step, PendingStep(s, p, step), id)
  {
    hide Inv, NoneBusy, HeldBack, Lists, ServersOf, QueueStep, Submit, Observed, Completed, FirstInLine;
    WritesStartNone(s, id);
    if AtFront(s) {
      FrontStep(s, step);
      QueueStartsNone(s, step, id);
    } else if p.Head? {
      HeadFacts(s, p.b, p.todo, p.bound, p.busy);
      if id == p.b.id { FirstMeans(s, p.b); }
    }
  }

  lemma HeadFacts(s: State, b: Snap, todo: seq<Snap>, bound: Id, busy: set<Server>)
    requires Inv(s) && s.leader == Starts(Head(b, todo, bound, busy))
    ensures Known(s, b) && NoneBusy(s, b.row.server) && FirstInLine(s, b)
  {
    hide Sound, Known, NoneBusy, FirstInLine, Waiting, QueueOk, Before;
  }

  /** Of the others that wait for the server, the older were let pass. */
  lemma FirstMeans(s: State, b: Snap)
    requires FirstInLine(s, b)
    ensures forall other | other in s.rows && s.rows[other].phase == Pending && s.rows[other].server == b.row.server && other != b.id ::
              other < b.id <==> other in s.passed
  {}

  lemma QueueStartsNone(s: State, step: Step, id: Id)
    requires AtFront(s)
    ensures var p := s.leader.p; StartsNot(s, QueueStep(s, p.todo[0], p.todo[1..], p.bound, p.busy, step), id)
  {
    hide HeldBack, Completed, Waits;
    WritesStartNone(s, id);
  }

  /** What a single write or call does to the Jobs. */
  lemma WritesKeepJobs(s: State, name: JobName)
    ensures forall n, r :: name in s.jobs ==> name in Submit(s, n, r).jobs
    ensures forall x, uid, r :: Observed(s, x, uid, r).jobs == s.jobs
    ensures forall x, from, to, pruned, r :: Completed(s, x, from, to, pruned, r).jobs == s.jobs
    ensures forall n, r :: name in s.jobs && name !in RemoveJob(s, n, r).jobs ==> n == Some(name)
    ensures forall b, r :: Acknowledged(s, b, r).jobs == s.jobs
  {
    hide Observable, Terminal, OnTheWayOut;
  }

  /** No write starts an operation. */
  predicate StartsNot(s: State, t: State, id: Id) {
    id in t.rows && t.rows[id].phase == Running ==> id in s.rows && s.rows[id].phase == Running
  }

  lemma WritesStartNone(s: State, id: Id)
    ensures forall n, r :: StartsNot(s, Submit(s, n, r), id)
    ensures forall x, uid, r :: StartsNot(s, Observed(s, x, uid, r), id)
    ensures forall x, from, to, pruned, r :: to != Running ==> StartsNot(s, Completed(s, x, from, to, pruned, r), id)
    ensures forall n, r :: StartsNot(s, RemoveJob(s, n, r), id)
    ensures forall b, r :: StartsNot(s, Acknowledged(s, b, r), id)
  {}

  lemma FollowKeepsEvidence(s: State, f: FollowAt, step: Step, name: JobName)
    requires LeaderOk(s) && s.leader == Follows(f)
    ensures KeepsEvidence(s, step, RunningStep(s, f, step), name)
  {
    hide FollowOk, Lists, Before, Storable, RunningLook, Observable, Follow, SeenOk, HasItsJob, Completed, Submit,
         Observed, RemoveJob, Acknowledged;
    WritesKeepJobs(s, name);
  }

  lemma FollowStoresItsJob(s: State, f: FollowAt, step: Step, id: Id)
    requires Inv(s) && s.leader == Follows(f) && step.StoreResult?
    ensures SettledByItsJob(s, RunningStep(s, f, step), id)
  {
    hide Sound, FollowOk, Lists, Before, Follow, HasItsJob, StoredOk, HistoryOk, Submit, Unobserved, Observed, Acknowledged,
         RemoveJob;
    if f.Bound? { SoundRow(s, f.b.id); }
  }

  predicate StillRuns(s: State, t: State, id: Id) {
    id in s.rows && s.rows[id].phase == Running ==> id in t.rows && t.rows[id].phase == Running
  }

  lemma RunningOn(s: State, t: State, id: Id)
    requires StillRuns(s, t, id)
    ensures SettledByItsJob(s, t, id)
  {}

  /** Only the result of a running operation ends it. */
  lemma WritesStillRun(s: State, id: Id)
    ensures forall n, r :: StillRuns(s, Submit(s, n, r), id)
    ensures forall x, uid, r :: StillRuns(s, Observed(s, x, uid, r), id)
    ensures forall n, r :: StillRuns(s, RemoveJob(s, n, r), id)
    ensures forall b, r :: StillRuns(s, Acknowledged(s, b, r), id)
  {}

  lemma FollowSettles(s: State, f: FollowAt, step: Step, id: Id)
    requires Inv(s) && s.leader == Follows(f)
    ensures SettledByItsJob(s, RunningStep(s, f, step), id)
  {
    hide Inv, Lists, Completed, Submit, Observed, Observable, RemoveJob, Acknowledged, Storable, RunningLook,
         SettledByItsJob;
    if step.StoreResult? {
      FollowStoresItsJob(s, f, step, id);
    } else {
      WritesStillRun(s, id);
      RunningOn(s, RunningStep(s, f, step), id);
    }
  }

  lemma FollowStartsNone(s: State, f: FollowAt, step: Step, id: Id)
    ensures StartedInTurn(s, step, RunningStep(s, f, step), id)
  {
    hide Lists, HeldBack, NoneBusy, Storable, RunningLook, Observable, Completed, Submit, Observed, RemoveJob, Acknowledged;
    WritesStartNone(s, id);
  }

  lemma DeleteKeepsEvidence(s: State, d: DeleteAt, step: Step, name: JobName)
    requires LeaderOk(s) && s.leader == Deletes(d)
    ensures KeepsEvidence(s, step, DeletingStep(s, d, step), name)
  {
    hide DeletionsHeld, DeletionsOk, CoversBusy, Lists, ServersOf, Before, DeletionLook, NoneBusy, DeletionOk, NamedBy,
         Known;
  }

  lemma DeleteSettles(s: State, d: DeleteAt, step: Step, id: Id)
    requires LeaderOk(s) && s.leader == Deletes(d)
    ensures SettledByItsJob(s, DeletingStep(s, d, step), id)
  {
    hide LeaderOk, DeletingStep, SettledByItsJob;
    DeletesRunOn(s, d, step, id);
    RunningOn(s, DeletingStep(s, d, step), id);
  }

  lemma DeletesRunOn(s: State, d: DeleteAt, step: Step, id: Id)
    requires LeaderOk(s) && s.leader == Deletes(d)
    ensures StillRuns(s, DeletingStep(s, d, step), id)
  {
    hide DeletionsHeld, DeletionsOk, Lists, ServersOf, Before, DeletionStep, NamedBy, Known, Holds, EndedAs, NoneElse,
         Submit,
         RemoveJob, Another;
    DeletionMoves(s, d, step);
    WritesStillRun(s, id);
  }

  lemma DeleteStartsNone(s: State, d: DeleteAt, step: Step, id: Id)
    ensures StartedInTurn(s, step, DeletingStep(s, d, step), id)
  {
    hide Lists, ServersOf, DeletionStep, NoneBusy, HeldBack, Submit, RemoveJob, Another;
    DeletionMoves(s, d, step);
    WritesStartNone(s, id);
  }

  /** What every step of every run does to the operations it touches. */
  lemma StepIsRight(s: State, step: Step, dir: Direction, id: Id)
    requires Inv(s)
    ensures Rightly(s, step, Do(s, step), dir, id)
  {
    hide LeaderOk, Sound, CleanupStep, PendingStep, RunningStep, DeletingStep, ByOthers, Between,
         KeepsEvidence, SettledByItsJob, StartedInTurn;
    if !Mine(step) {
      OthersKeepEvidence(s, step, Operation(dir, id)); OthersSettleNone(s, step, id); OthersStartNone(s, step, id);
    } else if step.Begin? || step.ListFails? || step.EndList? {
      BetweenMoves(s, step);
      MovingIsRight(s, step, Between(s, step), dir, id);
    } else {
      var name := Operation(dir, id);
      match s.leader
      case Off => MovingIsRight(s, step, s, dir, id);
      case Cleanups(c) => CleanupKeepsEvidence(s, c, step, name); CleanupMovesNone(s, c, step, id);
      case Starts(p) => StartKeepsEvidence(s, p, step, name); StartSettles(s, p, step, id); StartInTurn(s, p, step, id);
      case Follows(f) =>
        FollowKeepsEvidence(s, f, step, name); FollowSettles(s, f, step, id); FollowStartsNone(s, f, step, id);
      case Deletes(d) =>
        DeleteKeepsEvidence(s, d, step, name); DeleteSettles(s, d, step, id); DeleteStartsNone(s, d, step, id);
    }
  }

  // ---- evidence of a result ----

  /** An operation that was given its Job and whose result is not stored is
      running, and the Job that shows how it went is there to be read: nobody
      has to guess, whatever crashed in between. */
  lemma EvidenceStands(steps: seq<Step>, id: Id)
    requires var s := Run(steps); Made(s, id) > 0 && id !in s.stored && id !in s.vanished
    ensures var s := Run(steps);
      && id in s.rows && s.rows[id].phase == Running
      && var name := Operation(s.rows[id].dir, id);
         name in s.jobs && (s.rows[id].uid.Some? ==> s.jobs[name].uid == s.rows[id].uid.value)
  {
    hide Inv, Run;
    RunKeepsInv(steps);
    InvFacts(Run(steps), id);
  }

  /** No step takes that Job away before the result is stored but its deletion
      by someone else, and no other end than its own is ever stored. */
  lemma ResultsComeFromJobs(steps: seq<Step>, step: Step, dir: Direction, id: Id)
    ensures KeepsEvidence(Run(steps), step, Run(steps + [step]), Operation(dir, id))
    ensures SettledByItsJob(Run(steps), Run(steps + [step]), id)
  {
    hide Inv, Run, Do, KeepsEvidence, SettledByItsJob, StartedInTurn;
    RunSteps(steps, step);
    RunKeepsInv(steps);
    StepIsRight(Run(steps), step, dir, id);
  }

  /** The rows of a phase in the order a list read returns them. */
  function Listing(rows: map<Id, Row>, phase: Phase, n: nat): (listed: seq<Snap>)
    ensures forall i, j | 0 <= i < j < |listed| :: listed[i].id < listed[j].id < n
    ensures forall b | b in listed :: b.id < n && b.id in rows && rows[b.id] == b.row && b.row.phase == phase
    ensures forall id | id in rows && rows[id].phase == phase && id < n :: Snap(id, rows[id]) in listed
  {
    if n == 0 then []
    else
      var before := Listing(rows, phase, n - 1);
      if n - 1 in rows && rows[n - 1].phase == phase then before + [Snap(n - 1, rows[n - 1])] else before
  }

  lemma ListingLists(s: State, phase: Phase)
    requires Inv(s)
    ensures Lists(Listing(s.rows, phase, s.nextId), s.rows, phase)
  {
    hide LeaderOk, JobOk, HistoryOk, OneRunning, OneBusy;
    forall id | id in s.rows ensures id < s.nextId { assert RowOk(s, id); }
  }

  function Repeat(step: Step, n: nat): (steps: seq<Step>)
    ensures |steps| == n && forall i | 0 <= i < n :: steps[i] == step
  {
    seq(n, i => step)
  }

  /** What a restarted leader does for the operation that is k-th in the list of
      the running ones. */
  function Settling(listed: seq<Snap>, k: nat): seq<Step> {
    [Crash, Begin, ListFails, ListFails, List(listed)] + Repeat(Skip, k) + [Look(false), Observe(Acked), StoreResult(Acked, {})]
  }

  /** A step that leaves rows and Jobs as they are and moves the leader. */
  predicate MovesTo(s: State, t: State, l: Leader) { t.rows == s.rows && t.jobs == s.jobs && t.leader == l }

  lemma MovesOn(s: State, step: Step)
    requires step.Crash? || step.Begin? || step.ListFails? || step.EndList?
    ensures MovesTo(s, Do(s, step), if step.Crash? then Off else NextStage(s.leader, step))
  {
    hide NextStage;
  }

  lemma ListsTheRunning(s: State, listed: seq<Snap>)
    requires Lists(listed, s.rows, Running) && s.leader == Follows(AtRunning)
    ensures MovesTo(s, Do(s, List(listed)), Follows(InRunning(listed)))
  {
    hide Lists, PendingStep, CleanupStep, DeletingStep;
  }

  lemma Restarts(before: seq<Step>, listed: seq<Snap>)
    requires Lists(listed, Run(before).rows, Running)
    ensures MovesTo(Run(before), Run(before + [Crash, Begin, ListFails, ListFails, List(listed)]), Follows(InRunning(listed)))
  {
    hide Run, Lists, Do;
    var a := before + [Crash];
    var b := a + [Begin];
    var c := b + [ListFails];
    var d := c + [ListFails];
    RunSteps(before, Crash);
    MovesOn(Run(before), Crash);
    RunSteps(a, Begin);
    MovesOn(Run(a), Begin);
    RunSteps(b, ListFails);
    MovesOn(Run(b), ListFails);
    RunSteps(c, ListFails);
    MovesOn(Run(c), ListFails);
    RunSteps(d, List(listed));
    ListsTheRunning(Run(d), listed);
    assert d + [List(listed)] == before + [Crash, Begin, ListFails, ListFails, List(listed)];
  }

  lemma SkipsOne(s: State, listed: seq<Snap>)
    requires listed != [] && s.leader == Follows(InRunning(listed))
    ensures MovesTo(s, Do(s, Skip), Follows(InRunning(listed[1..])))
  {
    hide PendingStep, CleanupStep, DeletingStep;
  }

  lemma {:induction false} SkipsTo(before: seq<Step>, listed: seq<Snap>, k: nat)
    requires k <= |listed| && Run(before).leader == Follows(InRunning(listed))
    ensures MovesTo(Run(before), Run(before + Repeat(Skip, k)), Follows(InRunning(listed[k..])))
    decreases k
  {
    hide Run, Do;
    if k == 0 {
      assert before + Repeat(Skip, 0) == before && listed[0..] == listed;
    } else {
      SkipsTo(before, listed, k - 1);
      assert before + Repeat(Skip, k) == (before + Repeat(Skip, k - 1)) + [Skip];
      RunSteps(before + Repeat(Skip, k - 1), Skip);
      SkipsOne(Run(before + Repeat(Skip, k - 1)), listed[k - 1..]);
      assert listed[k - 1..][1..] == listed[k..];
    }
  }

  lemma Looks(s: State, b: Snap, todo: seq<Snap>)
    requires Inv(s) && s.leader == Follows(InRunning([b] + todo)) && b.id in s.rows && s.rows[b.id] == b.row
    requires b.row.phase == Running && Operation(b.row.dir, b.id) in s.jobs
    ensures MovesTo(s, Do(s, Look(false)), Follows(Found(b, s.jobs[Operation(b.row.dir, b.id)], todo)))
  {
    hide Inv, CleanupStep, PendingStep, DeletingStep, HistoryOk;
    InvFacts(s, b.id);
    assert ([b] + todo)[1..] == todo;
  }

  lemma Binds(s: State, b: Snap, seen: Job, todo: seq<Snap>)
    requires s.leader == Follows(Found(b, seen, todo)) && b.id in s.rows && s.rows[b.id] == b.row
    requires b.row.phase == Running
    ensures Do(s, Observe(Acked)).leader == Follows(Bound(b, seen, todo))
    ensures b.id in Do(s, Observe(Acked)).rows && Do(s, Observe(Acked)).rows[b.id].phase == Running
  {
    hide CleanupStep, PendingStep, DeletingStep, Observed;
    StaysRunning(s, b.id, seen.uid, Acked);
  }

  lemma StaysRunning(s: State, id: Id, uid: Uid, r: Result)
    requires id in s.rows && s.rows[id].phase == Running
    ensures id in Observed(s, id, uid, r).rows && Observed(s, id, uid, r).rows[id].phase == Running
  {}

  lemma Stores(s: State, b: Snap, seen: Job, todo: seq<Snap>)
    requires s.leader == Follows(Bound(b, seen, todo)) && b.id in s.rows && s.rows[b.id].phase == Running
    requires seen.outcome != Active
    ensures var t := Do(s, StoreResult(Acked, {}));
      && b.id in t.rows && b.id in t.stored
      && t.rows[b.id].phase == if seen.outcome == Complete then Succeeded else Failed
  {
    hide CleanupStep, PendingStep, DeletingStep;
  }

  /** The row says of the operation what its Job's end says. */
  predicate StoredAs(t: State, id: Id, outcome: Outcome) {
    id in t.rows && id in t.stored && t.rows[id].phase == if outcome == Complete then Succeeded else Failed
  }

  lemma LooksAndStores(before: seq<Step>, b: Snap, todo: seq<Snap>)
    requires var s := Run(before);
      && s.leader == Follows(InRunning([b] + todo)) && b.id in s.rows && s.rows[b.id] == b.row
      && b.row.phase == Running && Operation(b.row.dir, b.id) in s.jobs
      && s.jobs[Operation(b.row.dir, b.id)].outcome != Active
    ensures StoredAs(Run(before + [Look(false), Observe(Acked), StoreResult(Acked, {})]), b.id,
                     Run(before).jobs[Operation(b.row.dir, b.id)].outcome)
  {
    hide Inv, Run, Do;
    var s, job := Run(before), Run(before).jobs[Operation(b.row.dir, b.id)];
    var first := before + [Look(false)];
    var second := first + [Observe(Acked)];
    RunKeepsInv(before);
    RunSteps(before, Look(false));
    Looks(s, b, todo);
    RunSteps(first, Observe(Acked));
    Binds(Run(first), b, job, todo);
    RunSteps(second, StoreResult(Acked, {}));
    Stores(Run(second), b, job, todo);
    assert second + [StoreResult(Acked, {})] == before + [Look(false), Observe(Acked), StoreResult(Acked, {})];
  }

  /** A running operation whose Job has ended can always be settled: from any
      point of any run, a leader that starts afresh stores the Job's end as the
      result. */
  lemma CanBeSettled(before: seq<Step>, id: Id)
    requires var s := Run(before);
      && id in s.rows && s.rows[id].phase == Running
      && Operation(s.rows[id].dir, id) in s.jobs && s.jobs[Operation(s.rows[id].dir, id)].outcome != Active
    ensures exists listed, k: nat ::
      StoredAs(Run(before + Settling(listed, k)), id, Run(before).jobs[Operation(Run(before).rows[id].dir, id)].outcome)
  {
    hide Inv, Run, Do, Lists, StoredAs, RowOk, HistoryOk;
    var s := Run(before);
    RunKeepsInv(before);
    ListingLists(s, Running);
    InvFacts(s, id);
    var listed := Listing(s.rows, Running, s.nextId);
    var b := Snap(id, s.rows[id]);
    assert b in listed by { assert id < s.nextId by { IdIsOld(s, id) by { assert Sound(s) by { InvIsSound(s); } } } }
    var k: nat :| k < |listed| && listed[k] == b;
    SettlesTheOne(before, listed, k);
  }

  lemma InvIsSound(s: State)
    requires Inv(s)
    ensures Sound(s)
  {
    hide Sound, LeaderOk;
  }

  lemma SettlesTheOne(before: seq<Step>, listed: seq<Snap>, k: nat)
    requires k < |listed| && Lists(listed, Run(before).rows, Running)
    requires var name := Operation(listed[k].row.dir, listed[k].id);
      name in Run(before).jobs && Run(before).jobs[name].outcome != Active
    ensures StoredAs(Run(before + Settling(listed, k)), listed[k].id,
                     Run(before).jobs[Operation(listed[k].row.dir, listed[k].id)].outcome)
  {
    hide Run, Do, StoredAs;
    var first := before + [Crash, Begin, ListFails, ListFails, List(listed)];
    var second := first + Repeat(Skip, k);
    Restarts(before, listed);
    SkipsTo(first, listed, k);
    assert listed[k..] == [listed[k]] + listed[k + 1..] && listed[k] in listed;
    LooksAndStores(second, listed[k], listed[k + 1..]);
    assert second + [Look(false), Observe(Acked), StoreResult(Acked, {})] == before + Settling(listed, k);
  }

  // ---- one operation at a time ----

  /** The server an operation's or a deletion's Job works for. */
  predicate WorksFor(s: State, name: JobName, server: Server) {
    && !name.Purge?
    && var id := if name.Operation? then name.id else name.of;
       id in s.home && s.home[id] == server && name in s.jobs && s.jobs[name].outcome == Active
  }

  ghost predicate OneJob(s: State) {
    forall a, b, server | WorksFor(s, a, server) && WorksFor(s, b, server) :: a == b
  }

  /** A server has one operation or deletion in hand at most, and one Job going. */
  ghost predicate Exclusive(s: State) { OneBusy(s) && OneJob(s) }

  /** A server never has two operations running; and as long as nothing slipped
      it has one operation or deletion in hand at most, and one Job going. */
  lemma OneAtATime(steps: seq<Step>)
    ensures OneRunning(Run(steps))
    ensures !Run(steps).slipped ==> Exclusive(Run(steps))
  {
    hide LeaderOk, Run, WorksFor;
    var s := Run(steps);
    RunKeepsInv(steps);
    if !s.slipped {
      forall a, b, server | WorksFor(s, a, server) && WorksFor(s, b, server) ensures a == b { OneWorks(s, a, b, server); }
    }
  }

  lemma OneWorks(s: State, a: JobName, b: JobName, server: Server)
    requires Sound(s) && !s.slipped && WorksFor(s, a, server) && WorksFor(s, b, server)
    ensures a == b
  {
    hide HistoryOk;
    BusyWorks(s, a, server);
    BusyWorks(s, b, server);
  }

  /** A Job at work is that of a row in hand. */
  lemma BusyWorks(s: State, name: JobName, server: Server)
    requires Sound(s) && !s.slipped && WorksFor(s, name, server)
    ensures var id := if name.Operation? then name.id else name.of;
      id in s.rows && Busy(s.rows[id]) && s.rows[id].server == server && s.rows[id].job == Some(name)
  {
    hide OneRunning, OneBusy, HistoryOk;
    assert JobOk(s, name);
    var id := if name.Operation? then name.id else name.of;
    if id in s.rows { assert RowOk(s, id); }
  }

  /** Operations start in turn. */
  lemma StartsInTurn(steps: seq<Step>, step: Step, id: Id)
    ensures StartedInTurn(Run(steps), step, Run(steps + [step]), id)
  {
    hide Inv, Run, Do, KeepsEvidence, SettledByItsJob, StartedInTurn;
    RunSteps(steps, step);
    RunKeepsInv(steps);
    StepIsRight(Run(steps), step, Backup, id);
  }

  /** An operation is let pass: it is at the front of the list, and it was to be
      failed and that write was refused, or its server is free and held for a
      transfer. */
  predicate LetsPass(s: State, step: Step, id: Id) {
    && s.leader.Starts? && s.leader.p.Queue? && s.leader.p.todo != [] && s.leader.p.todo[0].id == id
    && Waits(s, id)
    && var server := s.leader.p.todo[0].row.server;
       step == FinishEarly(Refused) || (step.PassOver? && server !in s.leader.p.busy && HeldBack(s, server, id))
  }

  /** Nothing but the requests changes who waits and who was let pass. */
  predicate SameWaiting(s: State, t: State) { t.passed == s.passed && t.home == s.home && t.nextId == s.nextId }

  predicate SameAside(s: State, t: State) { SameWaiting(s, t) && t.slipped == s.slipped }

  lemma WritesWait(s: State)
    ensures forall n, r :: SameAside(s, Submit(s, n, r))
    ensures forall x, uid, r :: SameAside(s, Observed(s, x, uid, r))
    ensures forall x, from, to, pruned, r :: SameAside(s, Completed(s, x, from, to, pruned, r))
    ensures forall n, r :: SameAside(s, RemoveJob(s, n, r))
    ensures forall b, r :: SameAside(s, Acknowledged(s, b, r))
  {
    hide Observable, Terminal, OnTheWayOut;
  }

  lemma CleanupPasses(s: State, c: CleanupAt, step: Step)
    ensures SameAside(s, CleanupStep(s, c, step))
  {
    hide ListsCleanup, RemoveJob, Acknowledged;
    WritesWait(s);
  }

  lemma FollowPasses(s: State, f: FollowAt, step: Step)
    ensures SameAside(s, RunningStep(s, f, step))
  {
    hide Lists, Storable, RunningLook, Observable, Completed, Submit, Observed, RemoveJob, Acknowledged;
    WritesWait(s);
  }

  lemma DeletePasses(s: State, d: DeleteAt, step: Step)
    ensures SameWaiting(s, DeletingStep(s, d, step))
  {
    hide DeletingStep;
    DeleteFrame(s, d, step);
  }

  lemma BetweenPasses(s: State, step: Step)
    ensures SameWaiting(s, Between(s, step))
  {
    hide NextStage;
  }

  lemma QueuePasses(s: State, step: Step, id: Id)
    requires AtFront(s)
    ensures var p := s.leader.p;
      var t := QueueStep(s, p.todo[0], p.todo[1..], p.bound, p.busy, step);
      t.home == s.home && t.nextId == s.nextId && t.slipped == s.slipped
      && (id in t.passed <==> id in s.passed || LetsPass(s, step, id))
  {
    hide HeldBack, Completed, Waits, QueueStep;
    var b, todo, bound, busy := s.leader.p.todo[0], s.leader.p.todo[1..], s.leader.p.bound, s.leader.p.busy;
    if step.FinishEarly? {
      FinishAside(s, b.id, step.result);
      FinishPasses(s, b.id, step.result);
      FinishesAt(s, b, todo, bound, busy, step.result);
    } else {
      PassesAt(s, b, todo, bound, busy, step);
    }
  }

  lemma FinishesAt(s: State, b: Snap, todo: seq<Snap>, bound: Id, busy: set<Server>, r: Result)
    ensures var t, u := Completed(s, b.id, Pending, Failed, {}, r), QueueStep(s, b, todo, bound, busy, FinishEarly(r));
      && u.home == t.home && u.nextId == t.nextId && u.slipped == t.slipped
      && u.passed == if Waits(t, b.id) then s.passed + {b.id} else s.passed
  {
    hide Completed, Waits;
  }

  lemma PassesAt(s: State, b: Snap, todo: seq<Snap>, bound: Id, busy: set<Server>, step: Step)
    requires !step.FinishEarly?
    ensures var t := QueueStep(s, b, todo, bound, busy, step);
      && SameAside(s.(passed := t.passed), t)
      && t.passed == if step.PassOver? && b.row.server !in busy && HeldBack(s, b.row.server, b.id) && Waits(s, b.id) then s.passed + {b.id}
                     else s.passed
  {
    hide HeldBack, Completed, Waits;
  }

  lemma FinishAside(s: State, id: Id, r: Result)
    ensures SameAside(s, Completed(s, id, Pending, Failed, {}, r))
  {}

  /** The row to be failed still waits exactly when that write was refused. */
  lemma FinishPasses(s: State, id: Id, r: Result)
    ensures var t := Completed(s, id, Pending, Failed, {}, r);
      Waits(t, id) <==> r == Refused && Waits(s, id)
  {}

  lemma StartPasses(s: State, p: StartAt, step: Step)
    requires s.leader == Starts(p) && !AtFront(s)
    ensures var t := PendingStep(s, p, step);
      t.home == s.home && t.nextId == s.nextId && t.slipped == s.slipped && (t.passed == s.passed || t.passed == {})
  {
    hide Lists, ServersOf, QueueStep, HeldBack, Completed, Submit, Observed;
    WritesWait(s);
  }

  lemma OthersPass(s: State, step: Step)
    requires !Mine(step)
    ensures var t := ByOthers(s, step);
      t.passed == s.passed && s.nextId <= t.nextId && forall id | id in s.home && id < s.nextId :: id in t.home && t.home[id] == s.home[id]
  {
    hide Acted, Ended, Vanished, Expired, Purged;
    match step
    case ActDelete(request) => ActWaits(s, request);
    case JobEnds(name, outcome) => EndWaits(s, name, outcome);
    case JobVanishes(name) => VanishWaits(s, name);
    case JobExpires(name) => ExpireWaits(s, name);
    case PurgeServer(slug) => PurgeWaits(s, slug);
    case _ =>
  }

  lemma ActWaits(s: State, request: Request)
    ensures SameWaiting(s, Acted(s, request))
  {
    hide Endangers, Rewritten;
    if request in s.requests {}
  }

  lemma EndWaits(s: State, name: JobName, outcome: Outcome)
    ensures SameWaiting(s, Ended(s, name, outcome))
  {}

  lemma VanishWaits(s: State, name: JobName)
    ensures SameWaiting(s, Vanished(s, name))
  {}

  lemma ExpireWaits(s: State, name: JobName)
    ensures SameWaiting(s, Expired(s, name))
  {
    hide Expires;
  }

  lemma PurgeWaits(s: State, slug: string)
    ensures SameWaiting(s, Purged(s, slug))
  {}

  /** In a pass, those newly let pass are exactly those a step lets pass. */
  lemma PassesExactly(steps: seq<Step>, step: Step, id: Id)
    requires id !in Run(steps).passed
    ensures id in Run(steps + [step]).passed <==> LetsPass(Run(steps), step, id)
  {
    hide Run, Do, LetsPass;
    RunSteps(steps, step);
    StepPasses(Run(steps), step, id);
  }

  lemma StepPasses(s: State, step: Step, id: Id)
    ensures id in Do(s, step).passed ==> id in s.passed || LetsPass(s, step, id)
    ensures LetsPass(s, step, id) ==> id in Do(s, step).passed
    ensures var t := Do(s, step);
      s.nextId <= t.nextId && forall x | x in s.home && x < s.nextId :: x in t.home && t.home[x] == s.home[x]
  {
    hide CleanupStep, PendingStep, RunningStep, DeletingStep, ByOthers, Between, HeldBack;
    if !Mine(step) {
      OthersPass(s, step);
    } else if step.Begin? || step.ListFails? || step.EndList? {
      BetweenPasses(s, step);
    } else {
      match s.leader
      case Off =>
      case Cleanups(c) => CleanupPasses(s, c, step);
      case Starts(p) =>
        if AtFront(s) { FrontStep(s, step); QueuePasses(s, step, id); } else { StartPasses(s, p, step); }
      case Follows(f) => FollowPasses(s, f, step);
      case Deletes(d) => DeletePasses(s, d, step);
    }
  }

  /** No operation of the server was let pass. */
  predicate NonePassed(s: State, server: Server) {
    forall id | id in s.passed :: id in s.home && id < s.nextId && s.home[id] != server
  }

  /** A step that lets an operation of the server pass. */
  predicate PassesOne(s: State, step: Step, server: Server) {
    exists id | id in s.rows && s.rows[id].server == server :: LetsPass(s, step, id)
  }

  lemma StepPassesNone(s: State, step: Step, server: Server)
    requires Inv(s) && NonePassed(s, server) && !PassesOne(s, step, server)
    ensures NonePassed(Do(s, step), server)
  {
    hide Inv, Do, LetsPass, RowOk, HistoryOk;
    forall id | id in Do(s, step).passed
      ensures var t := Do(s, step); id in t.home && id < t.nextId && t.home[id] != server
    {
      StepPasses(s, step, id);
      if id !in s.passed { PassedRow(s, step, id); }
    }
  }

  lemma PassedRow(s: State, step: Step, id: Id)
    requires Inv(s) && LetsPass(s, step, id)
    ensures id in s.home && id < s.nextId && id in s.rows && s.home[id] == s.rows[id].server
  {
    hide Inv;
    InvFacts(s, id);
  }

  lemma {:induction false} NonePassesTheHead(steps: seq<Step>, server: Server)
    requires forall k | 0 <= k < |steps| :: !PassesOne(Run(steps[..k]), steps[k], server)
    ensures NonePassed(Run(steps), server)
    decreases |steps|
  {
    hide Inv, Do, PassesOne, NonePassed;
    if steps == [] {
      assert NonePassed(START, server) by { NoneYet(server); }
    } else {
      var before := steps[..|steps| - 1];
      forall k | 0 <= k < |before| ensures !PassesOne(Run(before[..k]), before[k], server) {
        assert before[..k] == steps[..k];
      }
      NonePassesTheHead(before, server);
      RunKeepsInv(before);
      StepPassesNone(Run(before), steps[|before|], server);
    }
  }

  lemma NoneYet(server: Server)
    ensures NonePassed(START, server)
  {}

  /** As long as no operation of a server is let pass, its operations start in
      the order they were asked for, whatever happens to other servers. */
  lemma StartsInOrder(steps: seq<Step>, step: Step, id: Id, other: Id)
    requires var s, t := Run(steps), Run(steps + [step]);
      && id in t.rows && t.rows[id].phase == Running && !(id in s.rows && s.rows[id].phase == Running)
      && Waits(s, other) && s.rows[other].server == t.rows[id].server
    requires forall k | 0 <= k < |steps| :: !PassesOne(Run(steps[..k]), steps[k], Run(steps).rows[other].server)
    ensures id <= other
  {
    hide Inv, Run, Do, PassesOne, HeldBack, NoneBusy;
    var s, t, server := Run(steps), Run(steps + [step]), Run(steps).rows[other].server;
    NonePassesTheHead(steps, server);
    StartsInTurn(steps, step, id);
    RunKeepsInv(steps);
    InvFacts(s, other);
    InvFacts(s, id);
    RunKeepsInv(steps + [step]);
    InvFacts(t, id);
    RunSteps(steps, step);
    StepPasses(s, step, id);
  }
}
