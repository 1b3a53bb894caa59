/** Where the exclusion of BackupRuns ends: runs in which a second delete
    request, or the unanswered claim of a deletion, puts two Jobs on one server,
    and one in which a refused write lets a younger operation go first. */
module BackupLimits {
  import opened Text
  import opened BackupJobs
  import opened BackupManager
  import opened BackupSafety
  import opened BackupRuns

  // ---- single steps, with all they leave alone ----

  predicate Onto(s: State, t: State, rows: map<Id, Row>, jobs: map<JobName, Job>, l: Leader) {
    && t.rows == rows && t.jobs == jobs && t.leader == l
    && t.nextId == s.nextId && t.home == s.home && t.transfers == s.transfers && t.requests == s.requests
  }

  lemma Goes(s: State, step: Step)
    requires step.Begin? || step.ListFails? || step.EndList?
    ensures Onto(s, Do(s, step), s.rows, s.jobs, NextStage(s.leader, step))
  {
    hide NextStage;
  }

  lemma ListsQueue(s: State, listed: seq<Snap>)
    requires s.leader == Starts(AtPending) && Lists(listed, s.rows, Pending)
    ensures Onto(s, Do(s, List(listed)), s.rows, s.jobs, Starts(PendingListed(listed, s.nextId)))
  {
    hide Lists, CleanupStep, RunningStep, DeletingStep;
  }

  lemma ReadsForQueue(s: State, todo: seq<Snap>, bound: Id)
    requires s.leader == Starts(PendingListed(todo, bound))
    ensures Onto(s, Do(s, ReadRunning), s.rows, s.jobs, Starts(PendingHalf(todo, bound, ServersOf(s.rows, Running))))
  {
    hide CleanupStep, RunningStep, DeletingStep, ServersOf;
  }

  lemma ReadsOnForQueue(s: State, todo: seq<Snap>, bound: Id, busy: set<Server>)
    requires s.leader == Starts(PendingHalf(todo, bound, busy))
    ensures Onto(s, Do(s, ReadDeleting), s.rows, s.jobs, Starts(Queue(todo, bound, busy + ServersOf(s.rows, Deleting))))
  {
    hide CleanupStep, RunningStep, DeletingStep, ServersOf;
  }

  lemma TakesHead(s: State, b: Snap, todo: seq<Snap>, bound: Id, busy: set<Server>)
    requires s.leader == Starts(Queue([b] + todo, bound, busy)) && b.row.server !in busy
    requires !HeldBack(s, b.row.server, b.id)
    ensures Onto(s, Do(s, Take), s.rows, s.jobs, Starts(Head(b, todo, bound, busy + {b.row.server})))
  {
    hide CleanupStep, RunningStep, DeletingStep;
    assert ([b] + todo)[1..] == todo;
  }

  lemma ClaimsHead(s: State, b: Snap, todo: seq<Snap>, bound: Id, busy: set<Server>)
    requires s.leader == Starts(Head(b, todo, bound, busy)) && !HeldBack(s, b.row.server, b.id)
    requires b.id in s.rows && s.rows[b.id].phase == Pending
    ensures Onto(s, Do(s, Claim(Acked)), s.rows[b.id := s.rows[b.id].(phase := Running, job := Some(Operation(b.row.dir, b.id)))],
                 s.jobs, Starts(Claimed(b, todo, bound, busy)))
  {
    hide CleanupStep, RunningStep, DeletingStep;
  }

  lemma CreatesJob(s: State, b: Snap, todo: seq<Snap>, bound: Id, busy: set<Server>)
    requires s.leader == Starts(Claimed(b, todo, bound, busy)) && Operation(b.row.dir, b.id) !in s.jobs
    ensures Onto(s, Do(s, Create(Acked)), s.rows, s.jobs[Operation(b.row.dir, b.id) := Job(s.nextUid, Active)],
                 Starts(Submitted(b, s.nextUid, todo, bound, busy)))
  {
    hide CleanupStep, RunningStep, DeletingStep;
  }

  lemma ObservesJob(s: State, b: Snap, uid: Uid, todo: seq<Snap>, bound: Id, busy: set<Server>)
    requires s.leader == Starts(Submitted(b, uid, todo, bound, busy))
    requires b.id in s.rows && s.rows[b.id].phase == Running && s.rows[b.id].uid.None?
    ensures Onto(s, Do(s, Observe(Acked)), s.rows[b.id := s.rows[b.id].(uid := Some(uid))], s.jobs, Starts(Queue(todo, bound, busy)))
  {
    hide CleanupStep, RunningStep, DeletingStep;
  }

  lemma JobSucceeds(s: State, name: JobName)
    requires name in s.jobs && s.jobs[name].outcome == Active
    ensures Onto(s, Do(s, JobEnds(name, Complete)), s.rows, s.jobs[name := s.jobs[name].(outcome := Complete)], s.leader)
  {}

  lemma ListsToFollow(s: State, listed: seq<Snap>)
    requires s.leader == Follows(AtRunning) && Lists(listed, s.rows, Running)
    ensures Onto(s, Do(s, List(listed)), s.rows, s.jobs, Follows(InRunning(listed)))
  {
    hide Lists, CleanupStep, PendingStep, DeletingStep;
  }

  lemma LooksAt(s: State, b: Snap)
    requires s.leader == Follows(InRunning([b])) && Operation(b.row.dir, b.id) in s.jobs
    requires b.row.uid == Some(s.jobs[Operation(b.row.dir, b.id)].uid)
    ensures Onto(s, Do(s, Look(false)), s.rows, s.jobs, Follows(Found(b, s.jobs[Operation(b.row.dir, b.id)], [])))
  {
    hide CleanupStep, PendingStep, DeletingStep;
    assert [b][1..] == [];
  }

  lemma BindsTo(s: State, b: Snap, seen: Job)
    requires s.leader == Follows(Found(b, seen, [])) && b.row.uid.Some?
    ensures Onto(s, Do(s, Observe(Acked)), s.rows, s.jobs, Follows(Bound(b, seen, [])))
  {
    hide CleanupStep, PendingStep, DeletingStep;
  }

  lemma StoresSuccess(s: State, b: Snap, seen: Job)
    requires s.leader == Follows(Bound(b, seen, [])) && seen.outcome == Complete
    requires b.id in s.rows && s.rows[b.id].phase == Running
    ensures Onto(s, Do(s, StoreResult(Acked, {})), s.rows[b.id := s.rows[b.id].(phase := Succeeded)], s.jobs, Follows(Stored(b, [])))
  {
    hide CleanupStep, PendingStep, DeletingStep;
  }

  lemma DeletesItsJob(s: State, b: Snap)
    requires s.leader == Follows(Stored(b, [])) && b.row.job.Some?
    ensures Onto(s, Do(s, DeleteJob(Acked)), s.rows, s.jobs - {b.row.job.value}, Follows(StoredGone(b, [])))
  {
    hide CleanupStep, PendingStep, DeletingStep;
  }

  lemma AcknowledgesIt(s: State, b: Snap)
    requires s.leader == Follows(StoredGone(b, []))
    requires b.id in s.rows && s.rows[b.id].phase == Succeeded && s.rows[b.id].job == b.row.job
    ensures Onto(s, Do(s, Acknowledge(Acked)), s.rows[b.id := s.rows[b.id].(job := None, uid := None)], s.jobs,
                 Follows(InRunning([])))
  {
    hide CleanupStep, PendingStep, DeletingStep;
  }

  // ---- a backup runs to its end ----

  /** The only operation waiting or running is this one. */
  predicate Alone(rows: map<Id, Row>, id: Id) {
    forall k | k in rows && k != id :: rows[k].phase == Succeeded && rows[k].job.None?
  }

  predicate Still(s: State) { s.leader == Off && s.transfers == map[] && s.requests == multiset{} }

  lemma OneListed(rows: map<Id, Row>, id: Id)
    requires id in rows && Alone(rows, id)
    ensures Lists([Snap(id, rows[id])], rows, rows[id].phase) || rows[id].phase == Succeeded
    ensures !Busy(rows[id]) ==> forall k | k in rows :: !Busy(rows[k])
  {}

  lemma NoServers(rows: map<Id, Row>)
    requires forall k | k in rows :: !Busy(rows[k])
    ensures ServersOf(rows, Running) + ServersOf(rows, Deleting) == {}
  {}

  function Finished(server: Server): Row { Row(server, Backup, Succeeded, None, None, false) }

  lemma BackupStarts(before: seq<Step>, id: Id, server: Server) returns (steps: seq<Step>, uid: Uid)
    requires Still(Run(before)) && id in Run(before).rows && Alone(Run(before).rows, id)
    requires Run(before).rows[id] == Row(server, Backup, Pending, None, None, false)
    requires Operation(Backup, id) !in Run(before).jobs
    ensures Onto(Run(before), Run(steps),
      Run(before).rows[id := Row(server, Backup, Running, Some(Operation(Backup, id)), Some(uid), false)],
      Run(before).jobs[Operation(Backup, id) := Job(uid, Active)], Follows(AtRunning))
  {
    hide Run, Do, Lists, Alone, ServersOf;
    var s, b := Run(before), Snap(id, Run(before).rows[id]);
    OneListed(s.rows, id);
    NoServers(s.rows);
    Goes(s, Begin); RunSteps(before, Begin);
    steps := before + [Begin];
    Goes(Run(steps), ListFails); RunSteps(steps, ListFails);
    steps := steps + [ListFails];
    ListsQueue(Run(steps), [b]); RunSteps(steps, List([b]));
    steps := steps + [List([b])];
    ReadsForQueue(Run(steps), [b], s.nextId); RunSteps(steps, ReadRunning);
    steps := steps + [ReadRunning];
    ReadsOnForQueue(Run(steps), [b], s.nextId, ServersOf(s.rows, Running)); RunSteps(steps, ReadDeleting);
    steps := steps + [ReadDeleting];
    assert [b] + [] == [b];
    TakesHead(Run(steps), b, [], s.nextId, {}); RunSteps(steps, Take);
    steps := steps + [Take];
    ClaimsHead(Run(steps), b, [], s.nextId, {} + {server}); RunSteps(steps, Claim(Acked));
    steps := steps + [Claim(Acked)];
    uid := Run(steps).nextUid;
    CreatesJob(Run(steps), b, [], s.nextId, {} + {server}); RunSteps(steps, Create(Acked));
    steps := steps + [Create(Acked)];
    ObservesJob(Run(steps), b, uid, [], s.nextId, {} + {server}); RunSteps(steps, Observe(Acked));
    steps := steps + [Observe(Acked)];
    Goes(Run(steps), EndList); RunSteps(steps, EndList);
    steps := steps + [EndList];
  }

  lemma BackupEnds(before: seq<Step>, id: Id, server: Server, uid: Uid) returns (steps: seq<Step>)
    requires var s := Run(before);
      && s.leader == Follows(AtRunning) && s.transfers == map[] && s.requests == multiset{}
      && id in s.rows && Alone(s.rows, id)
      && s.rows[id] == Row(server, Backup, Running, Some(Operation(Backup, id)), Some(uid), false)
      && Operation(Backup, id) in s.jobs && s.jobs[Operation(Backup, id)] == Job(uid, Active)
    ensures Onto(Run(before), Run(steps), Run(before).rows[id := Finished(server)],
                 Run(before).jobs - {Operation(Backup, id)}, Off)
  {
    hide Run, Do, Lists, Alone, ServersOf;
    var s, b := Run(before), Snap(id, Run(before).rows[id]);
    var name, done := Operation(Backup, id), Job(uid, Complete);
    OneListed(s.rows, id);
    JobSucceeds(s, name); RunSteps(before, JobEnds(name, Complete));
    steps := before + [JobEnds(name, Complete)];
    ListsToFollow(Run(steps), [b]); RunSteps(steps, List([b]));
    steps := steps + [List([b])];
    LooksAt(Run(steps), b); RunSteps(steps, Look(false));
    steps := steps + [Look(false)];
    BindsTo(Run(steps), b, done); RunSteps(steps, Observe(Acked));
    steps := steps + [Observe(Acked)];
    StoresSuccess(Run(steps), b, done); RunSteps(steps, StoreResult(Acked, {}));
    steps := steps + [StoreResult(Acked, {})];
    DeletesItsJob(Run(steps), b); RunSteps(steps, DeleteJob(Acked));
    steps := steps + [DeleteJob(Acked)];
    AcknowledgesIt(Run(steps), b); RunSteps(steps, Acknowledge(Acked));
    steps := steps + [Acknowledge(Acked)];
    Goes(Run(steps), EndList); RunSteps(steps, EndList);
    steps := steps + [EndList];
    Goes(Run(steps), ListFails); RunSteps(steps, ListFails);
    steps := steps + [ListFails];
    assert Run(steps).jobs == s.jobs - {name};
  }

  lemma Asks(s: State, server: Server)
    ensures Onto(s, Do(s, Enqueue(server, Backup)).(nextId := s.nextId, home := s.home),
                 s.rows[s.nextId := Row(server, Backup, Pending, None, None, false)], s.jobs, s.leader)
    ensures Do(s, Enqueue(server, Backup)).nextId == s.nextId + 1
    ensures Do(s, Enqueue(server, Backup)).home == s.home[s.nextId := server]
  {}

  /** One backup more: it is asked for, runs and ends, and its Job is gone. */
  lemma OneMoreBackup(before: seq<Step>, id: Id) returns (steps: seq<Step>)
    requires var s := Run(before);
      Still(s) && s.nextId == id && id !in s.rows && Alone(s.rows, id) && s.jobs == map[]
    ensures var s, t := Run(before), Run(steps);
      Still(t) && t.nextId == id + 1 && t.rows == s.rows[id := Finished(0)] && t.jobs == map[]
  {
    hide Run, Do, Lists, ServersOf;
    var s := Run(before);
    Asks(s, 0); RunSteps(before, Enqueue(0, Backup));
    steps := before + [Enqueue(0, Backup)];
    var uid;
    steps, uid := BackupStarts(steps, id, 0);
    steps := BackupEnds(steps, id, 0, uid);
    assert Run(steps).rows == s.rows[id := Finished(0)];
    assert Run(steps).jobs == map[];
  }

  const TWO := map[0 := Finished(0), 1 := Finished(0)]

  /** Two finished backups of one server, the panel at rest. */
  lemma TwoBackups() returns (steps: seq<Step>)
    ensures Still(Run(steps)) && Run(steps).rows == TWO && Run(steps).jobs == map[]
  {
    hide Do;
    assert Run([]) == START;
    steps := OneMoreBackup([], 0);
    assert Alone(Run(steps).rows, 1);
    steps := OneMoreBackup(steps, 1);
  }

  // ---- deletions ----

  lemma AsksToDelete(s: State, id: Id)
    requires id in s.rows && s.rows[id] == Finished(0)
    ensures Onto(s, Do(s, AskDelete(id, false)).(requests := s.requests), s.rows, s.jobs, s.leader)
    ensures Do(s, AskDelete(id, false)).requests == s.requests + multiset{MarkDeleting(id)}
  {}

  lemma Marks(s: State, id: Id)
    requires MarkDeleting(id) in s.requests && id in s.rows
    ensures Onto(s, Do(s, ActDelete(MarkDeleting(id))).(requests := s.requests), s.rows[id := OnTheWayOut(s.rows[id])], s.jobs, s.leader)
    ensures Do(s, ActDelete(MarkDeleting(id))).requests == s.requests - multiset{MarkDeleting(id)}
  {}

  lemma ListsDeletions(s: State, listed: seq<Snap>)
    requires s.leader == Deletes(AtDeleting) && Lists(listed, s.rows, Deleting)
    ensures Onto(s, Do(s, List(listed)), s.rows, s.jobs, Deletes(DeletingListed(listed)))
  {
    hide Lists, CleanupStep, RunningStep, PendingStep;
  }

  lemma ReadsForDeletions(s: State, todo: seq<Snap>)
    requires s.leader == Deletes(DeletingListed(todo))
    ensures Onto(s, Do(s, ReadRunning), s.rows, s.jobs, Deletes(DeletingHalf(todo, ServersOf(s.rows, Running))))
  {
    hide CleanupStep, RunningStep, PendingStep, ServersOf;
  }

  lemma ReadsOnForDeletions(s: State, todo: seq<Snap>, busy: set<Server>)
    requires s.leader == Deletes(DeletingHalf(todo, busy))
    ensures Onto(s, Do(s, ReadDeleting), s.rows, s.jobs, Deletes(Deletions(todo, busy + ServersOf(s.rows, Deleting))))
  {
    hide CleanupStep, RunningStep, PendingStep, ServersOf;
  }

  lemma LooksToSubmit(s: State, b: Snap, todo: seq<Snap>, busy: set<Server>)
    requires s.leader == Deletes(Deletions([b] + todo, busy)) && !b.row.forgotten && b.row.job.None? && b.row.server !in busy
    ensures Onto(s, Do(s, Look(false)), s.rows, s.jobs, Deletes(Submitting(b, todo, busy)))
  {
    hide CleanupStep, RunningStep, PendingStep;
    assert ([b] + todo)[1..] == todo;
  }

  lemma ClaimsIt(s: State, b: Snap, todo: seq<Snap>, busy: set<Server>, r: Result)
    requires s.leader == Deletes(Submitting(b, todo, busy)) && b.row.job.None? && Took(r)
    requires b.id in s.rows && s.rows[b.id] == b.row && b.row.phase == Deleting
    ensures Onto(s, Do(s, ClaimDeletion(r)), s.rows[b.id := b.row.(job := Some(Forget(b.id)))], s.jobs,
                 Deletes(if r == Acked then ForgetClaimed(b, todo, busy) else Deletions(todo, busy)))
  {
    hide CleanupStep, RunningStep, PendingStep;
  }

  lemma CreatesForget(s: State, b: Snap, todo: seq<Snap>, busy: set<Server>)
    requires s.leader == Deletes(ForgetClaimed(b, todo, busy)) && Forget(b.id) !in s.jobs
    ensures Onto(s, Do(s, Create(Acked)), s.rows, s.jobs[Forget(b.id) := Job(s.nextUid, Active)],
                 Deletes(Deletions(todo, busy + {b.row.server})))
  {
    hide CleanupStep, RunningStep, PendingStep;
  }

  /** A deletion without a Job, on a free server, gets one. */
  lemma DeletesOne(before: seq<Step>, b: Snap, todo: seq<Snap>) returns (steps: seq<Step>)
    requires Run(before).leader == Deletes(Deletions([b] + todo, {})) && Forget(b.id) !in Run(before).jobs
    requires b.row == GOING && b.id in Run(before).rows && Run(before).rows[b.id] == GOING
    ensures exists uid :: Onto(Run(before), Run(steps), Run(before).rows[b.id := GOING.(job := Some(Forget(b.id)))],
                               Run(before).jobs[Forget(b.id) := Job(uid, Active)], Deletes(Deletions(todo, {0})))
  {
    hide Run, Do;
    LooksToSubmit(Run(before), b, todo, {}); RunSteps(before, Look(false));
    steps := before + [Look(false)];
    ClaimsIt(Run(steps), b, todo, {}, Acked); RunSteps(steps, ClaimDeletion(Acked));
    steps := steps + [ClaimDeletion(Acked)];
    var uid := Run(steps).nextUid;
    CreatesForget(Run(steps), b, todo, {}); RunSteps(steps, Create(Acked));
    steps := steps + [Create(Acked)];
    assert {} + {GOING.server} == {0};
    assert Onto(Run(before), Run(steps), Run(before).rows[b.id := GOING.(job := Some(Forget(b.id)))],
                Run(before).jobs[Forget(b.id) := Job(uid, Active)], Deletes(Deletions(todo, {0})));
  }

  const GOING := Finished(0).(phase := Deleting)
  const HELD := map[0 := GOING.(job := Some(Forget(0))), 1 := GOING.(job := Some(Forget(1)))]

  /** A pass that comes to its deletions. */
  lemma ToDeletions(before: seq<Step>, listed: seq<Snap>) returns (steps: seq<Step>)
    requires Run(before).leader == Off && Lists(listed, Run(before).rows, Deleting)
    requires forall id | id in Run(before).rows :: !Busy(Run(before).rows[id])
    ensures Onto(Run(before), Run(steps), Run(before).rows, Run(before).jobs, Deletes(Deletions(listed, {})))
  {
    hide Run, Do, Lists, ServersOf, Busy;
    var s := Run(before);
    Goes(s, Begin); RunSteps(before, Begin);
    steps := before + [Begin];
    Goes(Run(steps), ListFails); RunSteps(steps, ListFails);
    steps := steps + [ListFails];
    Goes(Run(steps), ListFails); RunSteps(steps, ListFails);
    steps := steps + [ListFails];
    Goes(Run(steps), ListFails); RunSteps(steps, ListFails);
    steps := steps + [ListFails];
    ListsDeletions(Run(steps), listed); RunSteps(steps, List(listed));
    steps := steps + [List(listed)];
    ReadsForDeletions(Run(steps), listed); RunSteps(steps, ReadRunning);
    steps := steps + [ReadRunning];
    ReadsOnForDeletions(Run(steps), listed, ServersOf(s.rows, Running)); RunSteps(steps, ReadDeleting);
    steps := steps + [ReadDeleting];
    NoServers(s.rows);
  }

  lemma PutOnTheWayOut(before: seq<Step>, id: Id) returns (steps: seq<Step>)
    requires id in Run(before).rows && Run(before).rows[id] == Finished(0) && Run(before).requests == multiset{}
    ensures Onto(Run(before), Run(steps), Run(before).rows[id := GOING], Run(before).jobs, Run(before).leader)
  {
    hide Run, Do;
    AsksToDelete(Run(before), id); RunSteps(before, AskDelete(id, false));
    steps := before + [AskDelete(id, false)];
    Marks(Run(steps), id); RunSteps(steps, ActDelete(MarkDeleting(id)));
    steps := steps + [ActDelete(MarkDeleting(id))];
  }

  /** A claim of a deletion that takes effect without its answer: the next
      deletion of the server is claimed too, and both have a Job. */
  lemma UnansweredClaim()
    ensures exists steps :: !OneBusy(Run(steps)) && Run(steps).requests == multiset{}
  {
    hide Run, Do, Lists, Busy;
    var steps := TwoBackups();
    steps := PutOnTheWayOut(steps, 0);
    steps := PutOnTheWayOut(steps, 1);
    var rows := map[0 := GOING, 1 := GOING];
    assert Run(steps).rows == rows;
    var a, b := Snap(0, GOING), Snap(1, GOING);
    assert Lists([a, b], rows, Deleting) by { TwoListed(); }
    assert !Busy(GOING) by { TwoListed(); }
    steps := ToDeletions(steps, [a, b]);
    assert [a, b] == [a] + [b];
    LooksToSubmit(Run(steps), a, [b], {}); RunSteps(steps, Look(false));
    steps := steps + [Look(false)];
    ClaimsIt(Run(steps), a, [b], {}, Lost); RunSteps(steps, ClaimDeletion(Lost));
    steps := steps + [ClaimDeletion(Lost)];
    assert [b] == [b] + [];
    LooksToSubmit(Run(steps), b, [], {}); RunSteps(steps, Look(false));
    steps := steps + [Look(false)];
    ClaimsIt(Run(steps), b, [], {}, Acked); RunSteps(steps, ClaimDeletion(Acked));
    steps := steps + [ClaimDeletion(Acked)];
    assert Run(steps).rows == HELD;
    assert !OneBusy(Run(steps)) by { TwoHeld(Run(steps)); }
  }

  lemma TwoListed()
    ensures Lists([Snap(0, GOING), Snap(1, GOING)], map[0 := GOING, 1 := GOING], Deleting)
    ensures !Busy(GOING)
  {}

  lemma TwoHeld(s: State)
    requires s.rows == HELD
    ensures !OneBusy(s)
  {
    assert Busy(s.rows[0]) && Busy(s.rows[1]) && s.rows[0].server == s.rows[1].server;
  }

  lemma OneListedToGo()
    ensures Lists([Snap(1, GOING)], TWO[1 := GOING], Deleting)
    ensures !Busy(GOING) && !Busy(Finished(0))
  {}

  /** Two delete requests for one backup, the second acting when the first one's
      Job is at work: the row forgets its Job, and the next deletion of the
      server gets a Job beside it. */
  lemma SecondDelete()
    ensures exists steps :: WorksFor(Run(steps), Forget(0), 0) && WorksFor(Run(steps), Forget(1), 0)
  {
    hide Run, Do, Lists, Busy;
    var steps := TwoBackups();
    AsksToDelete(Run(steps), 1); RunSteps(steps, AskDelete(1, false));
    steps := steps + [AskDelete(1, false)];
    AsksToDelete(Run(steps), 1); RunSteps(steps, AskDelete(1, false));
    steps := steps + [AskDelete(1, false)];
    Marks(Run(steps), 1); RunSteps(steps, ActDelete(MarkDeleting(1)));
    steps := steps + [ActDelete(MarkDeleting(1))];
    OneListedToGo();
    assert Run(steps).rows == TWO[1 := GOING];
    var a, b := Snap(0, GOING), Snap(1, GOING);
    steps := ToDeletions(steps, [b]);
    assert [b] == [b] + [];
    steps := DeletesOne(steps, b, []);
    Goes(Run(steps), EndList); RunSteps(steps, EndList);
    steps := steps + [EndList];
    Marks(Run(steps), 1); RunSteps(steps, ActDelete(MarkDeleting(1)));
    steps := steps + [ActDelete(MarkDeleting(1))];
    SecondDeletion(steps);
  }

  lemma BothWork(s: State)
    requires Inv(s) && 0 in s.rows && 1 in s.rows && s.rows[0].server == s.rows[1].server == 0
    requires Forget(0) in s.jobs && Forget(1) in s.jobs && s.jobs[Forget(0)].outcome == s.jobs[Forget(1)].outcome == Active
    ensures WorksFor(s, Forget(0), 0) && WorksFor(s, Forget(1), 0)
  {
    hide Inv, HistoryOk;
    InvFacts(s, 0);
    InvFacts(s, 1);
  }

  lemma SecondDeletion(before: seq<Step>)
    requires var s := Run(before);
      && s.leader == Off && s.rows == TWO[1 := GOING] && s.requests == multiset{}
      && Forget(1) in s.jobs && s.jobs[Forget(1)].outcome == Active && Forget(0) !in s.jobs
    ensures exists steps :: WorksFor(Run(steps), Forget(0), 0) && WorksFor(Run(steps), Forget(1), 0)
  {
    hide Run, Do, Lists, Busy, WorksFor, Inv;
    var steps := PutOnTheWayOut(before, 0);
    var a, b := Snap(0, GOING), Snap(1, GOING);
    assert Run(steps).rows == map[0 := GOING, 1 := GOING];
    assert Lists([a, b], Run(steps).rows, Deleting) by { TwoListed(); }
    assert !Busy(GOING) by { TwoListed(); }
    steps := ToDeletions(steps, [a, b]);
    assert [a, b] == [a] + [b];
    steps := DeletesOne(steps, a, [b]);
    RunKeepsInv(steps);
    BothWork(Run(steps));
  }

  // ---- the queue ----

  const FIRST := Row(0, Backup, Pending, None, None, false)
  const SECOND := Row(0, Import, Pending, None, None, false)

  lemma AsksImport(s: State)
    ensures Do(s, Enqueue(0, Import)) ==
            s.(rows := s.rows[s.nextId := SECOND], home := s.home[s.nextId := 0], nextId := s.nextId + 1)
  {}

  lemma FailsToFinish(s: State, b: Snap, todo: seq<Snap>, bound: Id, busy: set<Server>)
    requires s.leader == Starts(Queue([b] + todo, bound, busy))
    ensures Onto(s, Do(s, FinishEarly(Refused)), s.rows, s.jobs, Starts(Queue(todo, bound, busy)))
  {
    hide CleanupStep, RunningStep, DeletingStep;
    assert ([b] + todo)[1..] == todo;
  }

  lemma BothListed()
    ensures Lists([Snap(0, FIRST), Snap(1, SECOND)], map[0 := FIRST, 1 := SECOND], Pending)
    ensures !Busy(FIRST) && !Busy(SECOND)
  {}

  /** A backup that is to be failed for want of a target, and whose failure
      could not be written, lets a younger import of its server go first. */
  lemma PassedByAnImport()
    ensures exists steps ::
      var s := Run(steps);
      && s.transfers == map[]
      && 0 in s.rows && s.rows[0] == FIRST
      && 1 in s.rows && s.rows[1].server == 0 && s.rows[1].phase == Running
  {
    hide Run, Do, Lists, ServersOf, Busy;
    assert Run([]) == START by { EmptyRun(); }
    Asks(START, 0); RunSteps([], Enqueue(0, Backup));
    var steps := [] + [Enqueue(0, Backup)];
    AsksImport(Run(steps)); RunSteps(steps, Enqueue(0, Import));
    steps := steps + [Enqueue(0, Import)];
    var a, b := Snap(0, FIRST), Snap(1, SECOND);
    assert Run(steps).rows == map[0 := FIRST, 1 := SECOND];
    BothListed();
    NoServers(Run(steps).rows);
    Goes(Run(steps), Begin); RunSteps(steps, Begin);
    steps := steps + [Begin];
    Goes(Run(steps), ListFails); RunSteps(steps, ListFails);
    steps := steps + [ListFails];
    var bound, busy := Run(steps).nextId, ServersOf(Run(steps).rows, Running);
    ListsQueue(Run(steps), [a, b]); RunSteps(steps, List([a, b]));
    steps := steps + [List([a, b])];
    ReadsForQueue(Run(steps), [a, b], bound); RunSteps(steps, ReadRunning);
    steps := steps + [ReadRunning];
    ReadsOnForQueue(Run(steps), [a, b], bound, busy); RunSteps(steps, ReadDeleting);
    steps := steps + [ReadDeleting];
    PassesOver(steps, a, b, bound);
  }

  lemma EmptyRun()
    ensures Run([]) == START
  {}

  lemma PassesOver(before: seq<Step>, a: Snap, b: Snap, bound: Id)
    requires a == Snap(0, FIRST) && b == Snap(1, SECOND)
    requires var s := Run(before);
      s.rows == map[0 := FIRST, 1 := SECOND] && s.transfers == map[] && s.leader == Starts(Queue([a, b], bound, {}))
    ensures exists steps ::
      var s := Run(steps);
      && s.transfers == map[]
      && 0 in s.rows && s.rows[0] == FIRST
      && 1 in s.rows && s.rows[1].server == 0 && s.rows[1].phase == Running
  {
    hide Run, Do;
    assert [a, b] == [a] + [b] && [b] == [b] + [];
    FailsToFinish(Run(before), a, [b], bound, {}); RunSteps(before, FinishEarly(Refused));
    var steps := before + [FinishEarly(Refused)];
    TakesHead(Run(steps), b, [], bound, {}); RunSteps(steps, Take);
    steps := steps + [Take];
    ClaimsHead(Run(steps), b, [], bound, {} + {b.row.server}); RunSteps(steps, Claim(Acked));
    steps := steps + [Claim(Acked)];
  }
}
