/** Why the exclusion of BackupRuns ends where it does: once a step has slipped,
    the run can go on to two operations in hand, or two Jobs going, on one
    server. */
module BackupSlips {
  import opened Text
  import opened BackupJobs
  import opened BackupManager
  import opened BackupSafety
  import opened BackupRuns
  import opened BackupLimits

  // ---- when it slips ----

  /** The claim of a deletion takes effect without its answer, and another
      deletion of the server is to come in the list. */
  predicate LosesClaim(s: State, step: Step) {
    && s.leader.Deletes? && s.leader.d.Submitting? && step == ClaimDeletion(Lost)
    && var d := s.leader.d;
       && d.b.row.job.None? && d.b.id in s.rows && s.rows[d.b.id].phase == Deleting && s.rows[d.b.id].job.None?
       && Another(s, d.b.row.server, d.todo)
  }

  /** A delete acts on a row whose Job is at work, or about to be. */
  predicate TakesJob(s: State, step: Step) {
    step.ActDelete? && step.request in s.requests && Endangers(s, step.request.id)
  }

  lemma StartKeepsSlip(s: State, p: StartAt, step: Step)
    requires s.leader == Starts(p)
    ensures PendingStep(s, p, step).slipped == s.slipped
  {
    hide PendingStep, QueueStep, LetsPass;
    if AtFront(s) { FrontStep(s, step); QueuePasses(s, step, 0); } else { StartPasses(s, p, step); }
  }

  lemma DeleteSlips(s: State, d: DeleteAt, step: Step)
    requires s.leader == Deletes(d) && !s.slipped
    ensures DeletingStep(s, d, step).slipped <==> LosesClaim(s, step)
  {
    hide Lists, ServersOf, DeletionStep, Another, Submit, RemoveJob;
    WritesWait(s);
    if d.Deletions? && d.todo != [] { FrontKeepsSlip(s, d, step); }
  }

  lemma FrontKeepsSlip(s: State, d: DeleteAt, step: Step)
    requires d.Deletions? && d.todo != []
    ensures DeletionStep(s, d.todo[0], d.todo[1..], d.busy, step).slipped == s.slipped
  {
    hide DeletionLook;
  }

  lemma ActSlips(s: State, request: Request)
    requires !s.slipped
    ensures Acted(s, request).slipped <==> request in s.requests && Endangers(s, request.id)
  {
    hide MaySubmit;
  }

  lemma OthersSlip(s: State, step: Step)
    requires !Mine(step) && !s.slipped
    ensures ByOthers(s, step).slipped <==> TakesJob(s, step)
  {
    hide Endangers, Acted, Ended, Vanished, Expired, Purged, Enqueued, CalledOff, Asked;
    OthersKeepSlip(s);
    if step.ActDelete? { ActSlips(s, step.request); }
  }

  lemma OthersKeepSlip(s: State)
    ensures forall server, dir :: Enqueued(s, server, dir).slipped == s.slipped
    ensures forall id :: CalledOff(s, id).slipped == s.slipped
    ensures forall id, elsewhere :: Asked(s, id, elsewhere).slipped == s.slipped
    ensures forall name, outcome :: Ended(s, name, outcome).slipped == s.slipped
    ensures forall name :: Vanished(s, name).slipped == s.slipped && Expired(s, name).slipped == s.slipped
    ensures forall slug :: Purged(s, slug).slipped == s.slipped
  {
    hide Expires, Terminal;
  }

  lemma SlipsWhen(s: State, step: Step)
    requires !s.slipped
    ensures Do(s, step).slipped <==> TakesJob(s, step) || LosesClaim(s, step)
  {
    hide CleanupStep, PendingStep, RunningStep, DeletingStep, ByOthers, NextStage, Endangers, Another;
    if !Mine(step) {
      OthersSlip(s, step);
    } else if !(step.Begin? || step.ListFails? || step.EndList?) {
      match s.leader
      case Off =>
      case Cleanups(c) => CleanupPasses(s, c, step);
      case Starts(p) => StartKeepsSlip(s, p, step);
      case Follows(f) => FollowPasses(s, f, step);
      case Deletes(d) => DeleteSlips(s, d, step);
    }
  }

  // ---- a pass goes on ----

  /** The steps lead from one point of a run to a later one with these rows and
      Jobs and this leader. */
  predicate Leads(before: seq<Step>, steps: seq<Step>, rows: map<Id, Row>, jobs: map<JobName, Job>, l: Leader) {
    before <= steps && Onto(Run(before), Run(steps), rows, jobs, l)
  }

  lemma Then(before: seq<Step>, steps: seq<Step>, step: Step, rows: map<Id, Row>, jobs: map<JobName, Job>, l: Leader)
    requires before <= steps && Onto(Run(before), Run(steps), Run(steps).rows, Run(steps).jobs, Run(steps).leader)
    requires Onto(Run(steps), Do(Run(steps), step), rows, jobs, l)
    ensures Leads(before, steps + [step], rows, jobs, l)
  {
    hide Run, Do;
    RunSteps(steps, step);
  }

  lemma SkipsDeletion(s: State, todo: seq<Snap>, busy: set<Server>)
    requires s.leader == Deletes(Deletions(todo, busy)) && todo != []
    ensures Onto(s, Do(s, Skip), s.rows, s.jobs, Deletes(Deletions(todo[1..], busy)))
  {
    hide CleanupStep, RunningStep, PendingStep;
  }

  lemma {:induction false} SkipsDeletions(before: seq<Step>, todo: seq<Snap>, busy: set<Server>, k: nat)
    requires k <= |todo| && Run(before).leader == Deletes(Deletions(todo, busy))
    ensures Leads(before, before + Repeat(Skip, k), Run(before).rows, Run(before).jobs, Deletes(Deletions(todo[k..], busy)))
    decreases k
  {
    hide Run, Do;
    if k == 0 {
      assert before + Repeat(Skip, 0) == before && todo[0..] == todo;
    } else {
      SkipsDeletions(before, todo, busy, k - 1);
      var steps := before + Repeat(Skip, k - 1);
      assert before + Repeat(Skip, k) == steps + [Skip];
      SkipsDeletion(Run(steps), todo[k - 1..], busy);
      assert todo[k - 1..][1..] == todo[k..];
      Then(before, steps, Skip, Run(before).rows, Run(before).jobs, Deletes(Deletions(todo[k..], busy)));
    }
  }

  // ---- a lost claim ----

  /** The other deletion is as it was read, and its server is not reserved. */
  lemma TheOther(s: State, b: Snap, x: Snap, todo: seq<Snap>, busy: set<Server>)
    requires Inv(s) && !s.slipped && s.leader == Deletes(Submitting(b, todo, busy)) && b.row.job.None?
    requires x in todo && x.row.server == b.row.server && x.row.job.None? && !x.row.forgotten && x.id in s.rows
    requires b.id in s.rows
    ensures x.id != b.id && s.rows[x.id] == x.row && x.row.phase == Deleting && b.row.server !in busy
    ensures s.rows[b.id].server == b.row.server
  {
    hide Sound, NoneBusy, EndedAs, NamedBy;
    assert DeletionOk(s, x) && DeletionOk(s, b);
  }

  lemma LosesTheAnswer(s: State, b: Snap, todo: seq<Snap>, busy: set<Server>)
    requires s.leader == Deletes(Submitting(b, todo, busy)) && b.row.job.None?
    requires b.id in s.rows && s.rows[b.id].phase == Deleting && s.rows[b.id].job.None?
    ensures Onto(s, Do(s, ClaimDeletion(Lost)), s.rows[b.id := s.rows[b.id].(job := Some(Forget(b.id)))], s.jobs,
                 Deletes(Deletions(todo, busy)))
  {
    hide CleanupStep, RunningStep, PendingStep, Another;
  }

  lemma BothInHand(s: State, a: Id, b: Id)
    requires a in s.rows && b in s.rows && a != b && s.rows[a].server == s.rows[b].server
    requires Busy(s.rows[a]) && Busy(s.rows[b])
    ensures !OneBusy(s)
  {}

  lemma LostBreaks(before: seq<Step>, step: Step) returns (steps: seq<Step>)
    requires !Run(before).slipped && LosesClaim(Run(before), step)
    ensures before + [step] <= steps && !OneBusy(Run(steps))
  {
    hide Run, Do, Inv, OneBusy;
    var s, d := Run(before), Run(before).leader.d;
    var b, todo, busy := d.b, d.todo, d.busy;
    var x :| x in todo && x.row.server == b.row.server && x.row.job.None? && !x.row.forgotten && x.id in s.rows;
    var k: nat :| k < |todo| && todo[k] == x;
    RunKeepsInv(before);
    TheOther(s, b, x, todo, busy);
    LosesTheAnswer(s, b, todo, busy); RunSteps(before, step);
    var first := before + [step];
    var rows := Run(first).rows;
    SkipsDeletions(first, todo, busy, k);
    steps := first + Repeat(Skip, k);
    assert todo[k..] == [x] + todo[k + 1..];
    LooksToSubmit(Run(steps), x, todo[k + 1..], busy); RunSteps(steps, Look(false));
    steps := steps + [Look(false)];
    ClaimsIt(Run(steps), x, todo[k + 1..], busy, Acked); RunSteps(steps, ClaimDeletion(Acked));
    steps := steps + [ClaimDeletion(Acked)];
    BothInHand(Run(steps), b.id, x.id);
  }

  // ---- a delete of a row whose Job is at work, or about to be ----

  /** A step that brings the leader back to its list and leaves rows and Jobs
      alone: a read, or a write that is refused. */
  function BackStep(d: DeleteAt): Step {
    match d
    case ForgetDone(_, _, _) => MarkForgotten(Refused)
    case ForgetBroken(_, _, _) => NoteFailure(Refused)
    case Forgotten(_, _, _) => DeleteJob(Refused)
    case ForgottenGone(_, _, _) => DropRecord(Refused)
    case Retrying(_, _, _) => DeleteJob(Refused)
    case Submitting(_, _, _) => Skip
    case ForgetClaimed(_, _, _) => Create(Refused)
    case _ => ReadDeleting
  }

  lemma RefusedChangesNothing(s: State)
    ensures forall n :: Submit(s, n, Refused) == s
    ensures forall n :: RemoveJob(s, n, Refused) == s
  {}

  lemma BackFromOne(s: State, d: DeleteAt)
    requires d.ForgetDone? || d.ForgetBroken? || d.Forgotten? || d.ForgottenGone? || d.Retrying? || d.Submitting? || d.ForgetClaimed?
    ensures var t := DeletingStep(s, d, BackStep(d));
      t.leader.Deletes? && t.leader.d.Deletions? && t.leader.d.todo == TodoOf(d) && t == s.(leader := t.leader)
  {
    hide Submit, RemoveJob, ServersOf, Another, Lists, DeletionStep;
    RefusedChangesNothing(s);
  }

  /** Wherever the leader is among its deletions, it can come back to its list. */
  lemma ComesBack(before: seq<Step>) returns (steps: seq<Step>, busy: set<Server>)
    requires Run(before).leader.Deletes? && !Run(before).leader.d.AtDeleting?
    ensures Leads(before, steps, Run(before).rows, Run(before).jobs, Deletes(Deletions(TodoOf(Run(before).leader.d), busy)))
  {
    hide Run, Do, DeletingStep, ServersOf;
    var s, d := Run(before), Run(before).leader.d;
    steps := before;
    if d.Deletions? {
      busy := d.busy;
      return;
    }
    if d.DeletingListed? {
      ReadsForDeletions(s, d.todo);
      Then(before, steps, ReadRunning, s.rows, s.jobs, Deletes(DeletingHalf(d.todo, ServersOf(s.rows, Running))));
      steps := steps + [ReadRunning];
    }
    var now := Run(steps).leader.d;
    if now.DeletingHalf? {
      ReadsOnForDeletions(Run(steps), now.todo, now.busy);
      busy := now.busy + ServersOf(s.rows, Deleting);
      Then(before, steps, ReadDeleting, s.rows, s.jobs, Deletes(Deletions(TodoOf(d), busy)));
      steps := steps + [ReadDeleting];
    } else {
      BackFromOne(s, d);
      DeletingMoves(s, BackStep(d));
      busy := Do(s, BackStep(d)).leader.d.busy;
      Then(before, steps, BackStep(d), s.rows, s.jobs, Deletes(Deletions(TodoOf(d), busy)));
      steps := steps + [BackStep(d)];
    }
  }

  lemma DeletingMoves(s: State, step: Step)
    requires s.leader.Deletes? && Mine(step) && !step.Begin? && !step.ListFails? && !step.EndList?
    ensures Do(s, step) == DeletingStep(s, s.leader.d, step)
  {
    hide DeletingStep, CleanupStep, PendingStep, RunningStep;
  }

  lemma LooksToSubmitAgain(s: State, b: Snap, todo: seq<Snap>, busy: set<Server>)
    requires s.leader == Deletes(Deletions([b] + todo, busy)) && !b.row.forgotten
    requires b.row.job.Some? && b.row.job.value !in s.jobs
    ensures Onto(s, Do(s, Look(false)), s.rows, s.jobs, Deletes(Submitting(b, todo, busy)))
  {
    hide CleanupStep, RunningStep, PendingStep;
    assert ([b] + todo)[1..] == todo;
  }

  lemma ClaimsAgain(s: State, b: Snap, todo: seq<Snap>, busy: set<Server>)
    requires s.leader == Deletes(Submitting(b, todo, busy)) && b.row.job.Some?
    ensures Onto(s, Do(s, ClaimDeletion(Acked)), s.rows, s.jobs, Deletes(ForgetClaimed(b, todo, busy)))
  {
    hide CleanupStep, RunningStep, PendingStep, Another;
  }

  lemma TodoFacts(s: State, b: Snap)
    requires Inv(s) && s.leader.Deletes? && b in TodoOf(s.leader.d)
    ensures b.row.job in {None, Some(Forget(b.id))}
  {
    hide Sound, Holds, Before, EndedAs, NamedBy, NoneElse;
    var todo := TodoOf(s.leader.d);
    assert DeletionsOk(s, todo);
    assert DeletionOk(s, b);
  }

  /** A leader that may submit a deletion whose Job is gone comes to do it. */
  lemma ComesToSubmit(before: seq<Step>, id: Id) returns (steps: seq<Step>, b: Snap, todo: seq<Snap>, busy: set<Server>)
    requires MaySubmit(Run(before).leader, id) && Forget(id) !in Run(before).jobs
    ensures b.id == id && Leads(before, steps, Run(before).rows, Run(before).jobs, Deletes(ForgetClaimed(b, todo, busy)))
  {
    hide Run, Do, Inv;
    var s, d := Run(before), Run(before).leader.d;
    steps := before;
    if d.ForgetClaimed? && d.b.id == id {
      b, todo, busy := d.b, d.todo, d.busy;
      return;
    }
    if d.Submitting? && d.b.id == id && d.b.row.job.Some? {
      b, todo, busy := d.b, d.todo, d.busy;
    } else {
      b :| b in TodoOf(d) && b.id == id && b.row.job.Some? && !b.row.forgotten;
      var k: nat :| k < |TodoOf(d)| && TodoOf(d)[k] == b;
      RunKeepsInv(before);
      TodoFacts(s, b);
      steps, busy := ComesBack(before);
      SkipsDeletions(steps, TodoOf(d), busy, k);
      steps := steps + Repeat(Skip, k);
      todo := TodoOf(d)[k + 1..];
      assert TodoOf(d)[k..] == [b] + todo;
      LooksToSubmitAgain(Run(steps), b, todo, busy);
      Then(before, steps, Look(false), s.rows, s.jobs, Deletes(Submitting(b, todo, busy)));
      steps := steps + [Look(false)];
    }
    ClaimsAgain(Run(steps), b, todo, busy);
    Then(before, steps, ClaimDeletion(Acked), s.rows, s.jobs, Deletes(ForgetClaimed(b, todo, busy)));
    steps := steps + [ClaimDeletion(Acked)];
  }

  // ---- another operation starts ----

  lemma Refuses(s: State, todo: seq<Snap>, bound: Id, busy: set<Server>)
    requires s.leader == Starts(Queue(todo, bound, busy)) && todo != []
    ensures Onto(s, Do(s, FinishEarly(Refused)), s.rows, s.jobs, Starts(Queue(todo[1..], bound, busy)))
  {
    hide CleanupStep, RunningStep, DeletingStep;
  }

  lemma {:induction false} RefusesTo(before: seq<Step>, todo: seq<Snap>, bound: Id, busy: set<Server>, k: nat)
    requires k <= |todo| && Run(before).leader == Starts(Queue(todo, bound, busy))
    ensures Leads(before, before + Repeat(FinishEarly(Refused), k), Run(before).rows, Run(before).jobs,
                  Starts(Queue(todo[k..], bound, busy)))
    decreases k
  {
    hide Run, Do;
    if k == 0 {
      assert before + Repeat(FinishEarly(Refused), 0) == before && todo[0..] == todo;
    } else {
      RefusesTo(before, todo, bound, busy, k - 1);
      var steps := before + Repeat(FinishEarly(Refused), k - 1);
      assert before + Repeat(FinishEarly(Refused), k) == steps + [FinishEarly(Refused)];
      Refuses(Run(steps), todo[k - 1..], bound, busy);
      assert todo[k - 1..][1..] == todo[k..];
      Then(before, steps, FinishEarly(Refused), Run(before).rows, Run(before).jobs, Starts(Queue(todo[k..], bound, busy)));
    }
  }

  /** A fresh leader comes to its queue of pending operations. */
  lemma ComesToQueue(before: seq<Step>, listed: seq<Snap>) returns (steps: seq<Step>)
    requires Run(before).leader == Off && Lists(listed, Run(before).rows, Pending)
    ensures var s := Run(before);
      Leads(before, steps, s.rows, s.jobs,
            Starts(Queue(listed, s.nextId, ServersOf(s.rows, Running) + ServersOf(s.rows, Deleting))))
  {
    hide Run, Do, Lists, ServersOf;
    var s := Run(before);
    Goes(s, Begin); RunSteps(before, Begin);
    steps := before + [Begin];
    Goes(Run(steps), ListFails); RunSteps(steps, ListFails);
    steps := steps + [ListFails];
    ListsQueue(Run(steps), listed); RunSteps(steps, List(listed));
    steps := steps + [List(listed)];
    ReadsForQueue(Run(steps), listed, s.nextId); RunSteps(steps, ReadRunning);
    steps := steps + [ReadRunning];
    ReadsOnForQueue(Run(steps), listed, s.nextId, ServersOf(s.rows, Running)); RunSteps(steps, ReadDeleting);
    steps := steps + [ReadDeleting];
  }

  /** The panel lifts a transfer, the leader goes, and a backup is asked for. */
  lemma AsksAfresh(before: seq<Step>, server: Server) returns (steps: seq<Step>)
    requires Inv(Run(before))
    ensures var s, t := Run(before), Run(steps);
      && before <= steps && t.leader == Off && server !in t.transfers && t.jobs == s.jobs
      && t.rows == s.rows[s.nextId := Row(server, Backup, Pending, None, None, false)]
      && t.home == s.home[s.nextId := server] && t.nextId == s.nextId + 1
  {
    hide Run, Inv;
    RunSteps(before, SetTransfer(server, None));
    steps := before + [SetTransfer(server, None)];
    RunSteps(steps, Crash);
    steps := steps + [Crash];
    RunSteps(steps, Enqueue(server, Backup));
    Asks(Run(steps), server);
    steps := steps + [Enqueue(server, Backup)];
    var s, t := Run(before), Run(steps);
    assert t.leader == Off && server !in t.transfers;
  }

  lemma NotYetMade(s: State, b: Snap, todo: seq<Snap>, bound: Id, busy: set<Server>)
    requires Inv(s) && s.leader == Starts(Claimed(b, todo, bound, busy))
    ensures Operation(b.row.dir, b.id) !in s.jobs
  {
    hide Waiting, RowOk, HistoryOk, OneRunning, OneBusy;
    SoundJob(s, Operation(b.row.dir, b.id));
  }

  /** The operation runs on this Job, whose UID is recorded; all else is as it
      was. */
  predicate HasStarted(s: State, t: State, id: Id, uid: Uid) {
    && id in s.rows
    && var name := Operation(s.rows[id].dir, id);
       && t.rows == s.rows[id := s.rows[id].(phase := Running, job := Some(name), uid := Some(uid))]
       && t.jobs == s.jobs[name := Job(uid, Active)] && t.home == s.home
  }

  /** An operation at the front of the queue on a free server gets its Job. */
  lemma TheHeadStarts(before: seq<Step>, b: Snap, todo: seq<Snap>, bound: Id, busy: set<Server>)
    returns (steps: seq<Step>, uid: Uid)
    requires var s := Run(before);
      && s.leader == Starts(Queue([b] + todo, bound, busy)) && b.row.server !in busy && !HeldBack(s, b.row.server, b.id)
      && b.id in s.rows && s.rows[b.id] == b.row && b.row.phase == Pending && b.row.uid.None?
    ensures before <= steps && HasStarted(Run(before), Run(steps), b.id, uid)
  {
    hide Run, Do, Inv, HeldBack;
    TakesHead(Run(before), b, todo, bound, busy); RunSteps(before, Take);
    steps := before + [Take];
    SameHold(Run(before), Run(steps), b);
    ClaimsHead(Run(steps), b, todo, bound, busy + {b.row.server}); RunSteps(steps, Claim(Acked));
    steps := steps + [Claim(Acked)];
    RunKeepsInv(steps);
    NotYetMade(Run(steps), b, todo, bound, busy + {b.row.server});
    uid := Run(steps).nextUid;
    CreatesJob(Run(steps), b, todo, bound, busy + {b.row.server}); RunSteps(steps, Create(Acked));
    steps := steps + [Create(Acked)];
    ObservesJob(Run(steps), b, uid, todo, bound, busy + {b.row.server}); RunSteps(steps, Observe(Acked));
    steps := steps + [Observe(Acked)];
    assert Run(steps).rows == Run(before).rows[b.id := b.row.(phase := Running, job := Some(Operation(b.row.dir, b.id)), uid := Some(uid))];
  }

  lemma SameHold(s: State, t: State, b: Snap)
    requires t.transfers == s.transfers
    ensures HeldBack(s, b.row.server, b.id) == HeldBack(t, b.row.server, b.id)
  {}

  lemma FreeOfReads(rows: map<Id, Row>, server: Server)
    requires forall id | id in rows && rows[id].server == server :: !Busy(rows[id])
    ensures server !in ServersOf(rows, Running) + ServersOf(rows, Deleting)
  {}

  lemma TwoWork(s: State, a: JobName, b: JobName, server: Server)
    requires a != b && WorksFor(s, a, server) && WorksFor(s, b, server)
    ensures !OneJob(s)
  {
    hide WorksFor;
  }

  /** The place of a waiting operation in the queue. */
  lemma PlaceInQueue(steps: seq<Step>, n: Id) returns (k: nat)
    requires Waits(Run(steps), n)
    ensures var s := Run(steps);
      var listed := Listing(s.rows, Pending, s.nextId);
      Lists(listed, s.rows, Pending) && k < |listed| && listed[k] == Snap(n, s.rows[n])
  {
    hide Run, Inv, Lists, HistoryOk, RowOk;
    var s := Run(steps);
    RunKeepsInv(steps);
    ListingLists(s, Pending);
    InvIsSound(s);
    IdIsOld(s, n);
    var listed := Listing(s.rows, Pending, s.nextId);
    assert Snap(n, s.rows[n]) in listed;
    k :| k < |listed| && listed[k] == Snap(n, s.rows[n]);
  }

  /** An operation that waits for a free server can start next. */
  lemma Overtakes(before: seq<Step>, n: Id) returns (steps: seq<Step>, uid: Uid)
    requires var s := Run(before);
      && s.leader == Off && Waits(s, n) && !HeldBack(s, s.rows[n].server, n)
      && s.rows[n].server !in ServersOf(s.rows, Running) + ServersOf(s.rows, Deleting)
    ensures before <= steps && HasStarted(Run(before), Run(steps), n, uid)
  {
    hide Run, Do, Lists, Listing, ServersOf, HeldBack, Inv, RowOk, HistoryOk;
    var s := Run(before);
    var k := PlaceInQueue(before, n);
    var listed, b := Listing(s.rows, Pending, s.nextId), Snap(n, s.rows[n]);
    RunKeepsInv(before);
    assert b.row.uid.None? by { PendingRow(s, n); }
    var queued := ComesToQueue(before, listed);
    var busy := ServersOf(s.rows, Running) + ServersOf(s.rows, Deleting);
    RefusesTo(queued, listed, s.nextId, busy, k);
    var front := queued + Repeat(FinishEarly(Refused), k);
    assert listed[k..] == [b] + listed[k + 1..];
    SameHold(s, Run(front), b);
    steps, uid := TheHeadStarts(front, b, listed[k + 1..], s.nextId, busy);
    SameStart(s, Run(front), Run(steps), n, uid);
  }

  lemma PendingRow(s: State, n: Id)
    requires Inv(s) && Waits(s, n)
    ensures s.rows[n].uid.None?
  {
    hide Inv;
    InvFacts(s, n);
  }

  lemma SameStart(s: State, f: State, t: State, n: Id, uid: Uid)
    requires f.rows == s.rows && f.jobs == s.jobs && f.home == s.home && HasStarted(f, t, n, uid)
    ensures HasStarted(s, t, n, uid)
  {}

  /** A deletion's Job goes and no row of the server is in hand: the next
      operation of the server starts beside it. */
  lemma StartsBeside(before: seq<Step>, id: Id, server: Server) returns (steps: seq<Step>)
    requires var s := Run(before);
      WorksFor(s, Forget(id), server) && NoneBusy(s, server) && id < s.nextId
    ensures before <= steps && !OneJob(Run(steps))
  {
    hide Run, Do, Inv, OneJob, ServersOf, NoneBusy;
    RunKeepsInv(before);
    var n := Run(before).nextId;
    steps := AsksAfresh(before, server);
    StillFree(Run(before), Run(steps), server);
    var uid;
    steps, uid := Overtakes(steps, n);
    TwoWork(Run(steps), Forget(id), Operation(Backup, n), server);
  }

  lemma StillFree(s: State, t: State, server: Server)
    requires NoneBusy(s, server) && t.rows == s.rows[s.nextId := Row(server, Backup, Pending, None, None, false)]
    ensures server !in ServersOf(t.rows, Running) + ServersOf(t.rows, Deleting)
  {
    hide ServersOf;
    FreeOfReads(t.rows, server);
  }

  /** What an endangering delete leaves behind. */
  lemma TakenJob(s: State, request: Request)
    requires Inv(s) && !s.slipped && request in s.requests && Endangers(s, request.id)
    ensures var t, id, server := Acted(s, request), request.id, s.rows[request.id].server;
      && t.leader == s.leader && t.jobs == s.jobs && t.home == s.home && t.nextId == s.nextId
      && id in t.home && t.home[id] == server && id < t.nextId && NoneBusy(t, server)
  {
    hide LeaderOk, MaySubmit, HistoryOk, JobOk;
    InvFacts(s, request.id);
  }

  lemma RemovesForget(s: State, id: Id)
    requires Forget(id) in s.jobs
    ensures Onto(s, Do(s, JobVanishes(Forget(id))), s.rows, s.jobs - {Forget(id)}, s.leader)
  {}

  lemma SubmitsForget(s: State, b: Snap, todo: seq<Snap>, busy: set<Server>)
    requires s.leader == Deletes(ForgetClaimed(b, todo, busy)) && Forget(b.id) !in s.jobs
    ensures var t := Do(s, Create(Acked));
      t.rows == s.rows && t.home == s.home && t.nextId == s.nextId && Forget(b.id) in t.jobs && t.jobs[Forget(b.id)].outcome == Active
  {
    CreatesForget(s, b, todo, busy);
  }

  lemma SameFree(s: State, t: State, server: Server)
    requires NoneBusy(s, server) && t.rows == s.rows
    ensures NoneBusy(t, server)
  {}

  lemma ActBreaks(before: seq<Step>, step: Step) returns (steps: seq<Step>)
    requires !Run(before).slipped && TakesJob(Run(before), step)
    ensures before + [step] <= steps && !OneJob(Run(steps))
  {
    hide Run, Do, Inv, OneJob, NoneBusy, Acted, MaySubmit;
    var s, id, server := Run(before), step.request.id, Run(before).rows[step.request.id].server;
    RunKeepsInv(before);
    TakenJob(s, step.request);
    ActsAs(s, step.request);
    RunSteps(before, step);
    var first := before + [step];
    var t := Run(first);
    steps := first;
    if Forget(id) !in t.jobs || t.jobs[Forget(id)].outcome != Active {
      if Forget(id) in t.jobs {
        RemovesForget(t, id);
        RunSteps(first, JobVanishes(Forget(id)));
        steps := first + [JobVanishes(Forget(id))];
      }
      var b, todo, busy;
      steps, b, todo, busy := ComesToSubmit(steps, id);
      SubmitsForget(Run(steps), b, todo, busy);
      RunSteps(steps, Create(Acked));
      steps := steps + [Create(Acked)];
      SameFree(t, Run(steps), server);
    }
    steps := StartsBeside(steps, id, server);
  }

  lemma ActsAs(s: State, request: Request)
    ensures Do(s, ActDelete(request)) == Acted(s, request)
  {
    hide Acted;
  }

  /** The exclusion of a server ends exactly where the run slips: from the step
      on which it does, the run can go on to two operations in hand, or two Jobs
      going, on one server. */
  lemma SlipBreaks(steps: seq<Step>, step: Step)
    requires !Run(steps).slipped
    ensures Run(steps + [step]).slipped <==> TakesJob(Run(steps), step) || LosesClaim(Run(steps), step)
    ensures Run(steps + [step]).slipped ==> exists more :: !Exclusive(Run(steps + [step] + more))
  {
    hide Run, Do, TakesJob, LosesClaim, OneBusy, OneJob;
    RunSteps(steps, step);
    SlipsWhen(Run(steps), step);
    if Run(steps + [step]).slipped {
      var all;
      if TakesJob(Run(steps), step) { all := ActBreaks(steps, step); } else { all := LostBreaks(steps, step); }
      var more := all[|steps| + 1..];
      assert steps + [step] + more == all;
      assert !Exclusive(Run(steps + [step] + more));
    }
  }
}
