/** What the backup manager can always still do: from any point of any run, a
    leader that starts afresh can start what waits for a free server, submit
    again what was claimed and never submitted, delete what is on its way out and
    clean up what is done. And what it never does: submit a claimed operation's
    Job again without having seen neither Job nor pods. */
module BackupProgress {
  import opened Text
  import opened BackupJobs
  import opened BackupManager
  import opened BackupSafety
  import opened BackupPasses
  import opened BackupRuns
  import opened BackupLimits
  import opened BackupSlips
  import opened BackupLifecycle

  lemma Crashes(s: State)
    ensures Onto(s, Do(s, Crash), s.rows, s.jobs, Off)
  {}

  // ---- starting ----

  /** An operation that waits for a server with nothing in hand, and is not held
      for a transfer, can start. */
  lemma CanBeStarted(before: seq<Step>, id: Id)
    requires var s := Run(before);
      Waits(s, id) && NoneBusy(s, s.rows[id].server) && !HeldBack(s, s.rows[id].server, id)
    ensures exists more, uid :: HasStarted(Run(before), Run(before + more), id, uid)
  {
    hide Run, Do, HasStarted, ServersOf, HeldBack, NoneBusy;
    var s, first := Run(before), before + [Crash];
    Crashes(s);
    RunSteps(before, Crash);
    var b := Snap(id, s.rows[id]);
    SameHold(s, Run(first), b);
    assert s.rows[id].server !in ServersOf(s.rows, Running) + ServersOf(s.rows, Deleting) by {
      assert forall k | k in s.rows && s.rows[k].server == s.rows[id].server :: !Busy(s.rows[k]) by { NoneOf(s, s.rows[id].server); }
      FreeOfReads(s.rows, s.rows[id].server);
    }
    var steps, uid := Overtakes(first, id);
    SameStart(s, Run(first), Run(steps), id, uid);
    var more := steps[|before|..];
    assert before + more == steps;
  }

  lemma NoneOf(s: State, server: Server)
    requires NoneBusy(s, server)
    ensures forall k | k in s.rows && s.rows[k].server == server :: !Busy(s.rows[k])
  {}

  // ---- submitting again ----

  lemma LooksInVain(s: State, b: Snap, todo: seq<Snap>)
    requires s.leader == Follows(InRunning([b] + todo)) && Operation(b.row.dir, b.id) !in s.jobs && b.row.uid.None?
    ensures Onto(s, Do(s, Look(false)), s.rows, s.jobs, Follows(Resuming(b, todo)))
  {
    hide CleanupStep, PendingStep, DeletingStep;
    assert ([b] + todo)[1..] == todo;
  }

  lemma CreatesAgain(s: State, b: Snap, todo: seq<Snap>)
    requires s.leader == Follows(Resuming(b, todo)) && Operation(b.row.dir, b.id) !in s.jobs
    ensures Onto(s, Do(s, Create(Acked)), s.rows, s.jobs[Operation(b.row.dir, b.id) := Job(s.nextUid, Active)],
                 Follows(Resumed(b, s.nextUid, todo)))
  {
    hide CleanupStep, PendingStep, DeletingStep;
  }

  lemma ObservesAgain(s: State, b: Snap, uid: Uid, todo: seq<Snap>)
    requires s.leader == Follows(Resumed(b, uid, todo))
    requires b.id in s.rows && s.rows[b.id].phase == Running && s.rows[b.id].uid.None?
    ensures Onto(s, Do(s, Observe(Acked)), s.rows[b.id := s.rows[b.id].(uid := Some(uid))], s.jobs, Follows(InRunning(todo)))
  {
    hide CleanupStep, PendingStep, DeletingStep;
  }

  /** The place of a row in the list of its phase. */
  lemma Place(steps: seq<Step>, id: Id) returns (listed: seq<Snap>, k: nat)
    requires id in Run(steps).rows
    ensures Lists(listed, Run(steps).rows, Run(steps).rows[id].phase)
    ensures k < |listed| && listed[k..] == [Snap(id, Run(steps).rows[id])] + listed[k + 1..]
  {
    hide Run, Inv, Lists, Listing;
    var s := Run(steps);
    RunKeepsInv(steps);
    ListingLists(s, s.rows[id].phase);
    listed := Listing(s.rows, s.rows[id].phase, s.nextId);
    IsListed(listed, s.rows, id);
    k := FrontOf(listed, Snap(id, s.rows[id]));
  }

  lemma IsListed(listed: seq<Snap>, rows: map<Id, Row>, id: Id)
    requires id in rows && Lists(listed, rows, rows[id].phase)
    ensures Snap(id, rows[id]) in listed
  {}

  lemma FrontOf(listed: seq<Snap>, b: Snap) returns (k: nat)
    requires b in listed
    ensures k < |listed| && listed[k..] == [b] + listed[k + 1..]
  {
    k :| k < |listed| && listed[k] == b;
  }

  /** A fresh leader comes to one running operation. */
  lemma ComesToRunning(before: seq<Step>, id: Id) returns (steps: seq<Step>, todo: seq<Snap>)
    requires id in Run(before).rows && Run(before).rows[id].phase == Running
    ensures before <= steps
    ensures MovesTo(Run(before), Run(steps), Follows(InRunning([Snap(id, Run(before).rows[id])] + todo)))
  {
    hide Run, Do, Lists;
    var listed, k := Place(before, id);
    Restarts(before, listed);
    steps := before + [Crash, Begin, ListFails, ListFails, List(listed)];
    SkipsTo(steps, listed, k);
    steps := steps + Repeat(Skip, k);
    todo := listed[k + 1..];
  }

  /** An operation that was claimed and whose Job was never made can still get
      it. */
  lemma CanBeSubmittedAgain(before: seq<Step>, id: Id)
    requires var s := Run(before);
      && id in s.rows && s.rows[id].phase == Running && s.rows[id].uid.None?
      && Operation(s.rows[id].dir, id) !in s.jobs
    ensures exists more, uid ::
      var s, t := Run(before), Run(before + more);
      && t.rows == s.rows[id := s.rows[id].(uid := Some(uid))]
      && t.jobs == s.jobs[Operation(s.rows[id].dir, id) := Job(uid, Active)]
  {
    hide Run, Do;
    var s, b := Run(before), Snap(id, Run(before).rows[id]);
    var steps, todo := ComesToRunning(before, id);
    LooksInVain(Run(steps), b, todo);
    RunSteps(steps, Look(false));
    steps := steps + [Look(false)];
    var uid := Run(steps).nextUid;
    CreatesAgain(Run(steps), b, todo);
    RunSteps(steps, Create(Acked));
    steps := steps + [Create(Acked)];
    ObservesAgain(Run(steps), b, uid, todo);
    RunSteps(steps, Observe(Acked));
    steps := steps + [Observe(Acked)];
    var more := steps[|before|..];
    assert before + more == steps;
  }

  // ---- deleting ----

  /** A fresh leader comes to its deletions. */
  lemma ComesToDeletions(before: seq<Step>, listed: seq<Snap>) returns (steps: seq<Step>)
    requires Lists(listed, Run(before).rows, Deleting)
    ensures var s := Run(before);
      Leads(before, steps, s.rows, s.jobs, Deletes(Deletions(listed, ServersOf(s.rows, Running) + ServersOf(s.rows, Deleting))))
  {
    hide Run, Do, Lists, ServersOf;
    var s := Run(before);
    Crashes(s); RunSteps(before, Crash);
    steps := before + [Crash];
    Goes(Run(steps), Begin); RunSteps(steps, Begin);
    steps := steps + [Begin];
    Goes(Run(steps), ListFails); RunSteps(steps, ListFails);
    steps := steps + [ListFails];
    Goes(Run(steps), ListFails); RunSteps(steps, ListFails);
    steps := steps + [ListFails];
    Goes(Run(steps), ListFails); RunSteps(steps, ListFails);
    steps := steps + [ListFails];
    ListsDeletions(Run(steps), listed); RunSteps(steps, List(listed));
    steps := steps + [List(listed)];
    ReadsForDeletions(Run(steps), listed); RunSteps(steps, ReadRunning);
    steps := steps + [ReadRunning];
    ReadsOnForDeletions(Run(steps), listed, ServersOf(s.rows, Running)); RunSteps(steps, ReadDeleting);
    steps := steps + [ReadDeleting];
  }

  /** And to the one deletion among them. */
  lemma ComesToDeletion(before: seq<Step>, id: Id) returns (steps: seq<Step>, todo: seq<Snap>)
    requires id in Run(before).rows && Run(before).rows[id].phase == Deleting
    ensures var s := Run(before);
      Leads(before, steps, s.rows, s.jobs,
            Deletes(Deletions([Snap(id, s.rows[id])] + todo, ServersOf(s.rows, Running) + ServersOf(s.rows, Deleting))))
  {
    hide Run, Do, Lists, ServersOf;
    var listed, k := Place(before, id);
    steps := ComesToDeletions(before, listed);
    SkipsDeletions(steps, listed, ServersOf(Run(before).rows, Running) + ServersOf(Run(before).rows, Deleting), k);
    steps := steps + Repeat(Skip, k);
    todo := listed[k + 1..];
  }

  lemma LooksAtDone(s: State, b: Snap, todo: seq<Snap>, busy: set<Server>)
    requires s.leader == Deletes(Deletions([b] + todo, busy)) && !b.row.forgotten
    requires b.row.job.Some? && b.row.job.value in s.jobs && s.jobs[b.row.job.value].outcome == Complete
    ensures Onto(s, Do(s, Look(false)), s.rows, s.jobs, Deletes(ForgetDone(b, todo, busy)))
  {
    hide CleanupStep, RunningStep, PendingStep;
    assert ([b] + todo)[1..] == todo;
  }

  lemma LooksAtForgotten(s: State, b: Snap, todo: seq<Snap>, busy: set<Server>)
    requires s.leader == Deletes(Deletions([b] + todo, busy)) && b.row.forgotten
    ensures Onto(s, Do(s, Look(false)), s.rows, s.jobs, Deletes(Forgotten(b, todo, busy)))
  {
    hide CleanupStep, RunningStep, PendingStep;
    assert ([b] + todo)[1..] == todo;
  }

  lemma MarksIt(s: State, b: Snap, todo: seq<Snap>, busy: set<Server>)
    requires s.leader == Deletes(ForgetDone(b, todo, busy)) && b.id in s.rows && s.rows[b.id].phase == Deleting
    ensures Onto(s, Do(s, MarkForgotten(Acked)), s.rows[b.id := s.rows[b.id].(forgotten := true)], s.jobs,
                 Deletes(Forgotten(b, todo, busy)))
  {
    hide CleanupStep, RunningStep, PendingStep;
  }

  function Without(jobs: map<JobName, Job>, name: Option<JobName>): map<JobName, Job> {
    if name.Some? then jobs - {name.value} else jobs
  }

  lemma RemovesIt(s: State, b: Snap, todo: seq<Snap>, busy: set<Server>)
    requires s.leader == Deletes(Forgotten(b, todo, busy))
    ensures Onto(s, Do(s, DeleteJob(Acked)), s.rows, Without(s.jobs, b.row.job), Deletes(ForgottenGone(b, todo, busy)))
  {
    hide CleanupStep, RunningStep, PendingStep;
  }

  lemma DropsIt(s: State, b: Snap, todo: seq<Snap>, busy: set<Server>)
    requires s.leader == Deletes(ForgottenGone(b, todo, busy))
    ensures Onto(s, Do(s, DropRecord(Acked)), s.rows - {b.id}, s.jobs, Deletes(Deletions(todo, busy)))
  {
    hide CleanupStep, RunningStep, PendingStep;
  }

  /** A backup whose snapshot is forgotten, or whose forget Job has ended well,
      can go: its Job, then its record. */
  lemma CanBeForgotten(before: seq<Step>, id: Id)
    requires var s := Run(before);
      && id in s.rows && s.rows[id].phase == Deleting
      && (s.rows[id].forgotten
          || (s.rows[id].job.Some? && s.rows[id].job.value in s.jobs && s.jobs[s.rows[id].job.value].outcome == Complete))
    ensures exists more ::
      var s, t := Run(before), Run(before + more);
      t.rows == s.rows - {id} && t.jobs == Without(s.jobs, s.rows[id].job)
  {
    hide Run, Do, ServersOf, Without;
    var s, b := Run(before), Snap(id, Run(before).rows[id]);
    var busy := ServersOf(s.rows, Running) + ServersOf(s.rows, Deleting);
    var steps, todo := ComesToDeletion(before, id);
    if b.row.forgotten {
      LooksAtForgotten(Run(steps), b, todo, busy);
      RunSteps(steps, Look(false));
      steps := steps + [Look(false)];
    } else {
      LooksAtDone(Run(steps), b, todo, busy);
      RunSteps(steps, Look(false));
      steps := steps + [Look(false)];
      MarksIt(Run(steps), b, todo, busy);
      RunSteps(steps, MarkForgotten(Acked));
      steps := steps + [MarkForgotten(Acked)];
    }
    RemovesIt(Run(steps), b, todo, busy);
    RunSteps(steps, DeleteJob(Acked));
    steps := steps + [DeleteJob(Acked)];
    DropsIt(Run(steps), b, todo, busy);
    RunSteps(steps, DropRecord(Acked));
    steps := steps + [DropRecord(Acked)];
    assert Run(steps).rows == s.rows - {id};
    var more := steps[|before|..];
    assert before + more == steps;
  }

  /** A backup on its way out can get its forget Job: when its server is free, or
      when it was claimed and the Job is not there. */
  lemma CanBeDeleted(before: seq<Step>, id: Id)
    requires var s := Run(before);
      && id in s.rows && s.rows[id].phase == Deleting && !s.rows[id].forgotten && Forget(id) !in s.jobs
      && (s.rows[id].job.Some? || NoneBusy(s, s.rows[id].server))
    ensures exists more, uid ::
      var s, t := Run(before), Run(before + more);
      && t.rows == s.rows[id := s.rows[id].(job := Some(Forget(id)))]
      && t.jobs == s.jobs[Forget(id) := Job(uid, Active)]
  {
    hide Run, Do, ServersOf, Inv, NoneBusy;
    var s, b := Run(before), Snap(id, Run(before).rows[id]);
    var busy := ServersOf(s.rows, Running) + ServersOf(s.rows, Deleting);
    RunKeepsInv(before);
    var steps, todo := ComesToDeletion(before, id);
    if b.row.job.Some? {
      HasForgetName(s, id);
      LooksToSubmitAgain(Run(steps), b, todo, busy);
      RunSteps(steps, Look(false));
      steps := steps + [Look(false)];
      ClaimsAgain(Run(steps), b, todo, busy);
    } else {
      NoneOf(s, b.row.server);
      FreeOfReads(s.rows, b.row.server);
      LooksToSubmit(Run(steps), b, todo, busy);
      RunSteps(steps, Look(false));
      steps := steps + [Look(false)];
      ClaimsIt(Run(steps), b, todo, busy, Acked);
    }
    RunSteps(steps, ClaimDeletion(Acked));
    steps := steps + [ClaimDeletion(Acked)];
    var uid := Run(steps).nextUid;
    CreatesForget(Run(steps), b, todo, busy);
    RunSteps(steps, Create(Acked));
    steps := steps + [Create(Acked)];
    assert Run(steps).rows == s.rows[id := s.rows[id].(job := Some(Forget(id)))];
    var more := steps[|before|..];
    assert before + more == steps;
  }

  lemma HasForgetName(s: State, id: Id)
    requires Inv(s) && id in s.rows && s.rows[id].phase == Deleting && s.rows[id].job.Some?
    ensures s.rows[id].job == Some(Forget(id))
  {
    hide Inv;
    InvFacts(s, id);
  }

  // ---- cleaning up ----

  lemma ListsToClean(s: State, b: Snap)
    requires s.leader == Cleanups(AtCleanup) && b.id in s.rows && s.rows[b.id] == b.row && Terminal(b.row) && b.row.job.Some?
    ensures Onto(s, Do(s, List([b])), s.rows, s.jobs, Cleanups(Cleaning([b])))
  {
    hide PendingStep, RunningStep, DeletingStep, Terminal;
    assert ListsCleanup([b], s.rows);
  }

  lemma CleansJob(s: State, b: Snap)
    requires s.leader == Cleanups(Cleaning([b])) && b.row.job.Some?
    ensures Onto(s, Do(s, DeleteJob(Acked)), s.rows, s.jobs - {b.row.job.value}, Cleanups(CleaningGone(b, [])))
  {
    hide PendingStep, RunningStep, DeletingStep;
    assert [b][1..] == [];
  }

  lemma ClearsJob(s: State, b: Snap)
    requires s.leader == Cleanups(CleaningGone(b, [])) && b.id in s.rows && s.rows[b.id].job == b.row.job && Terminal(s.rows[b.id])
    ensures Onto(s, Do(s, Acknowledge(Acked)), s.rows[b.id := s.rows[b.id].(job := None, uid := None)], s.jobs,
                 Cleanups(Cleaning([])))
  {
    hide PendingStep, RunningStep, DeletingStep;
  }

  /** The Job of a finished operation can be cleaned up and acknowledged. */
  lemma CanBeCleaned(before: seq<Step>, id: Id)
    requires var s := Run(before);
      id in s.rows && Terminal(s.rows[id]) && s.rows[id].job.Some?
    ensures exists more ::
      var s, t := Run(before), Run(before + more);
      t.rows == s.rows[id := s.rows[id].(job := None, uid := None)] && t.jobs == s.jobs - {s.rows[id].job.value}
  {
    hide Run, Do, Terminal;
    var s, b := Run(before), Snap(id, Run(before).rows[id]);
    Crashes(s); RunSteps(before, Crash);
    var steps := before + [Crash];
    Goes(Run(steps), Begin); RunSteps(steps, Begin);
    steps := steps + [Begin];
    ListsToClean(Run(steps), b); RunSteps(steps, List([b]));
    steps := steps + [List([b])];
    CleansJob(Run(steps), b); RunSteps(steps, DeleteJob(Acked));
    steps := steps + [DeleteJob(Acked)];
    ClearsJob(Run(steps), b); RunSteps(steps, Acknowledge(Acked));
    steps := steps + [Acknowledge(Acked)];
    var more := steps[|before|..];
    assert before + more == steps;
  }

  // ---- what is never submitted again ----

  /** The leader looked for this operation's Job and its pods and found neither. */
  predicate FoundNothing(s: State, step: Step, id: Id) {
    && step == Look(false)
    && s.leader.Follows? && s.leader.f.InRunning? && s.leader.f.todo != []
    && var b := s.leader.f.todo[0];
       b.id == id && b.row.uid.None? && Operation(b.row.dir, id) !in s.jobs
  }

  predicate IsResuming(l: Leader, id: Id) { l.Follows? && l.f.Resuming? && l.f.b.id == id }

  lemma BecomesResuming(s: State, step: Step, id: Id)
    requires IsResuming(Do(s, step).leader, id)
    ensures FoundNothing(s, step, id) || (s.leader == Do(s, step).leader && (!Mine(step) || Do(s, step) == s))
  {
    hide CleanupStep, PendingStep, DeletingStep, ByOthers, RunningStep, FoundNothing;
    if !Mine(step) {
      if step.Crash? { CrashesOff(s); } else { OthersLeaveTheLeader(s, step); }
    } else if !(step.Begin? || step.ListFails? || step.EndList?) {
      match s.leader
      case Off =>
      case Cleanups(c) => CleanupStays(s, c, step);
      case Starts(p) => StartStays(s, p, step);
      case Follows(f) => FollowResumes(s, f, step, id);
      case Deletes(d) => DeleteStays(s, d, step);
    }
  }

  lemma FollowResumes(s: State, f: FollowAt, step: Step, id: Id)
    requires s.leader == Follows(f)
    ensures var t := RunningStep(s, f, step); IsResuming(t.leader, id) ==> FoundNothing(s, step, id) || t == s
  {
    hide Lists, Observable, Submit, Observed, Completed, RemoveJob, Acknowledged, Storable;
  }

  lemma DeleteStays(s: State, d: DeleteAt, step: Step)
    requires s.leader == Deletes(d)
    ensures DeletingStep(s, d, step).leader.Deletes?
  {
    hide Lists, ServersOf, DeletionStep, Submit, RemoveJob, ForgetNamed, Unclaimed;
    if d.Deletions? && d.todo != [] { FrontStays(s, d, step); }
  }

  lemma FrontStays(s: State, d: DeleteAt, step: Step)
    requires s.leader == Deletes(d) && d.Deletions? && d.todo != []
    ensures DeletionStep(s, d.todo[0], d.todo[1..], d.busy, step).leader.Deletes?
  {
    hide DeletionLook;
  }

  /** A leader about to submit a claimed operation again has seen, in this run
      and since then without doing anything else, neither its Job nor its
      pods. */
  lemma {:induction false} ResumedOnlyUnseen(steps: seq<Step>, id: Id)
    requires IsResuming(Run(steps).leader, id)
    ensures exists k | 0 <= k < |steps| ::
      && FoundNothing(Run(steps[..k]), steps[k], id)
      && forall j | k < j < |steps| :: !Mine(steps[j]) || Run(steps[..j + 1]) == Run(steps[..j])
    decreases |steps|
  {
    hide Run, Do, FoundNothing, Mine;
    if steps == [] {
      assert Run(steps) == START by { StartRun(); }
    } else {
      var before, last := steps[..|steps| - 1], |steps| - 1;
      assert steps == before + [steps[last]] && steps[..last + 1] == steps;
      RunSteps(before, steps[last]);
      BecomesResuming(Run(before), steps[last], id);
      if !FoundNothing(Run(before), steps[last], id) {
        ResumedOnlyUnseen(before, id);
        var k :| 0 <= k < |before| && FoundNothing(Run(before[..k]), before[k], id)
          && forall j | k < j < |before| :: !Mine(before[j]) || Run(before[..j + 1]) == Run(before[..j]);
        assert before[..k] == steps[..k];
        forall j | k < j < |steps| ensures !Mine(steps[j]) || Run(steps[..j + 1]) == Run(steps[..j]) {
          if j < last { assert before[..j] == steps[..j] && before[..j + 1] == steps[..j + 1]; }
        }
      }
    }
  }

  lemma StartRun()
    ensures Run([]) == START
  {}

  /** A Job of an operation is made right after its claim, or by a leader that
      has seen nothing of it. */
  lemma MadeOnlySo(steps: seq<Step>, step: Step, id: Id)
    requires Made(Run(steps + [step]), id) > Made(Run(steps), id)
    ensures step.Create?
    ensures var l := Run(steps).leader; IsResuming(l, id) || (l.Starts? && l.p.Claimed? && l.p.b.id == id)
  {
    hide Run, CleanupStep, PendingStep, RunningStep, DeletingStep, ByOthers, Between;
    var s := Run(steps);
    RunSteps(steps, step);
    if !Mine(step) {
      OthersMakeNone(s, step);
    } else if step.Begin? || step.ListFails? || step.EndList? {
      BetweenMoves(s, step);
    } else {
      match s.leader
      case Off =>
      case Cleanups(c) => CleanupMakesNone(s, c, step);
      case Starts(p) => StartMakes(s, p, step, id);
      case Follows(f) => FollowMakes(s, f, step, id);
      case Deletes(d) => DeleteFrame(s, d, step);
    }
  }

  lemma OthersMakeNone(s: State, step: Step)
    ensures ByOthers(s, step).created == s.created
  {
    hide Acted, Ended, Vanished, Expired, Purged, Asked, CalledOff, Enqueued;
    match step
    case Enqueue(server, dir) => AskersMakeNone(s);
    case Cancel(id) => AskersMakeNone(s);
    case AskDelete(id, elsewhere) => AskersMakeNone(s);
    case ActDelete(request) => ActMakesNone(s);
    case JobEnds(name, outcome) => JobsMakeNone(s);
    case JobVanishes(name) => JobsMakeNone(s);
    case JobExpires(name) => JobsMakeNone(s);
    case PurgeServer(slug) => JobsMakeNone(s);
    case _ =>
  }

  lemma AskersMakeNone(s: State)
    ensures forall server, dir :: Enqueued(s, server, dir).created == s.created
    ensures forall id :: CalledOff(s, id).created == s.created
    ensures forall id, elsewhere :: Asked(s, id, elsewhere).created == s.created
  {
    hide Terminal;
  }

  lemma ActMakesNone(s: State)
    ensures forall request :: Acted(s, request).created == s.created
  {
    hide Endangers, Rewritten;
  }

  lemma JobsMakeNone(s: State)
    ensures forall name, outcome :: Ended(s, name, outcome).created == s.created
    ensures forall name :: Vanished(s, name).created == s.created && Expired(s, name).created == s.created
    ensures forall slug :: Purged(s, slug).created == s.created
  {
    hide Expires;
  }

  lemma CleanupMakesNone(s: State, c: CleanupAt, step: Step)
    ensures CleanupStep(s, c, step).created == s.created
  {
    hide ListsCleanup;
  }

  lemma SubmitMakes(s: State, name: JobName, r: Result, id: Id)
    ensures Made(Submit(s, name, r), id) > Made(s, id) ==> name.Operation? && name.id == id
  {}

  lemma WritesMakeNone(s: State)
    ensures forall x, uid, r :: Observed(s, x, uid, r).created == s.created
    ensures forall x, from, to, pruned, r :: Completed(s, x, from, to, pruned, r).created == s.created
    ensures forall n, r :: RemoveJob(s, n, r).created == s.created
    ensures forall b, r :: Acknowledged(s, b, r).created == s.created
  {
    hide Observable, Terminal, OnTheWayOut;
  }

  lemma StartMakes(s: State, p: StartAt, step: Step, id: Id)
    requires Made(PendingStep(s, p, step), id) > Made(s, id)
    ensures step.Create? && p.Claimed? && p.b.id == id
  {
    hide Lists, ServersOf, HeldBack, Submit, Observed, Completed, Waits;
    WritesMakeNone(s);
    if p.Claimed? && step.Create? { SubmitMakes(s, Operation(p.b.row.dir, p.b.id), step.result, id); }
  }

  lemma FollowMakes(s: State, f: FollowAt, step: Step, id: Id)
    requires Made(RunningStep(s, f, step), id) > Made(s, id)
    ensures step.Create? && f.Resuming? && f.b.id == id
  {
    hide Lists, Observable, Submit, Observed, Completed, RemoveJob, Acknowledged, Storable, RunningLook;
    WritesMakeNone(s);
    if f.Resuming? && step.Create? { SubmitMakes(s, Operation(f.b.row.dir, f.b.id), step.result, id); }
  }

  /** A deletion's Job was looked for, and neither it nor its pods were found. */
  predicate FoundNoDeletion(s: State, step: Step, b: Snap) {
    && step == Look(false)
    && s.leader.Deletes? && s.leader.d.Deletions? && s.leader.d.todo != [] && s.leader.d.todo[0] == b
    && b.row.job.Some? && b.row.job.value !in s.jobs && !b.row.forgotten
  }

  predicate IsResubmitting(l: Leader, b: Snap) { l.Deletes? && l.d.Submitting? && l.d.b == b && b.row.job.Some? }

  lemma BecomesResubmitting(s: State, step: Step, b: Snap)
    requires IsResubmitting(Do(s, step).leader, b)
    ensures FoundNoDeletion(s, step, b) || (s.leader == Do(s, step).leader && (!Mine(step) || Do(s, step) == s))
  {
    hide CleanupStep, PendingStep, DeletingStep, ByOthers, RunningStep, FoundNoDeletion;
    if !Mine(step) {
      if step.Crash? { CrashesOff(s); } else { OthersLeaveTheLeader(s, step); }
    } else if !(step.Begin? || step.ListFails? || step.EndList?) {
      match s.leader
      case Off =>
      case Cleanups(c) => CleanupStays(s, c, step);
      case Starts(p) => StartStays(s, p, step);
      case Follows(f) => FollowStays(s, f, step);
      case Deletes(d) => DeleteResubmits(s, d, step, b);
    }
  }

  lemma DeleteResubmits(s: State, d: DeleteAt, step: Step, b: Snap)
    requires s.leader == Deletes(d)
    ensures var t := DeletingStep(s, d, step); IsResubmitting(t.leader, b) ==> FoundNoDeletion(s, step, b) || t == s
  {
    hide DeletingStep, DeletionStep;
    if d.Deletions? {
      DeletionsStep(s, d, step);
      if d.todo != [] { FrontResubmits(s, d, step, b); }
    } else {
      GoesOnNotResubmitting(s, d, step, b);
    }
  }

  lemma FrontResubmits(s: State, d: DeleteAt, step: Step, b: Snap)
    requires s.leader == Deletes(d) && d.Deletions? && d.todo != []
    ensures var t := DeletionStep(s, d.todo[0], d.todo[1..], d.busy, step);
      IsResubmitting(t.leader, b) ==> FoundNoDeletion(s, step, b) || t == s
  {}

  lemma GoesOnNotResubmitting(s: State, d: DeleteAt, step: Step, b: Snap)
    requires s.leader == Deletes(d) && !d.Deletions?
    ensures var t := DeletingStep(s, d, step); IsResubmitting(t.leader, b) ==> t == s
  {
    hide DeletingStep;
    if d.Submitting? { SubmittingLeaves(s, d, step); } else { NoneSubmits(s, d, step); }
  }

  lemma SubmittingLeaves(s: State, d: DeleteAt, step: Step)
    requires s.leader == Deletes(d) && d.Submitting?
    ensures var t := DeletingStep(s, d, step); t == s || (t.leader.Deletes? && !t.leader.d.Submitting?)
  {
    hide ForgetNamed, Unclaimed;
  }

  lemma NoneSubmits(s: State, d: DeleteAt, step: Step)
    requires s.leader == Deletes(d) && !d.Deletions? && !d.Submitting?
    ensures var t := DeletingStep(s, d, step); t.leader.Deletes? && !t.leader.d.Submitting?
  {
    hide Lists, ServersOf, Submit, RemoveJob;
  }

  /** A leader about to submit a claimed deletion again has seen, in this run and
      since then without doing anything else, neither its Job nor its pods. */
  lemma {:induction false} ResubmittedOnlyUnseen(steps: seq<Step>, b: Snap)
    requires IsResubmitting(Run(steps).leader, b)
    ensures exists k | 0 <= k < |steps| ::
      && FoundNoDeletion(Run(steps[..k]), steps[k], b)
      && forall j | k < j < |steps| :: !Mine(steps[j]) || Run(steps[..j + 1]) == Run(steps[..j])
    decreases |steps|
  {
    hide Run, Do, FoundNoDeletion, Mine;
    if steps == [] {
      assert Run(steps) == START by { StartRun(); }
    } else {
      var before, last := steps[..|steps| - 1], |steps| - 1;
      assert steps == before + [steps[last]] && steps[..last + 1] == steps;
      RunSteps(before, steps[last]);
      BecomesResubmitting(Run(before), steps[last], b);
      if !FoundNoDeletion(Run(before), steps[last], b) {
        ResubmittedOnlyUnseen(before, b);
        var k :| 0 <= k < |before| && FoundNoDeletion(Run(before[..k]), before[k], b)
          && forall j | k < j < |before| :: !Mine(before[j]) || Run(before[..j + 1]) == Run(before[..j]);
        assert before[..k] == steps[..k];
        forall j | k < j < |steps| ensures !Mine(steps[j]) || Run(steps[..j + 1]) == Run(steps[..j]) {
          if j < last { assert before[..j] == steps[..j] && before[..j + 1] == steps[..j + 1]; }
        }
      }
    }
  }

  // ---- failing, and trying again ----

  lemma FailsTheHead(s: State, b: Snap, todo: seq<Snap>, bound: Id, busy: set<Server>)
    requires s.leader == Starts(Queue([b] + todo, bound, busy)) && b.id in s.rows && s.rows[b.id].phase == Pending
    ensures var t := Do(s, FinishEarly(Acked)); t.rows == s.rows[b.id := s.rows[b.id].(phase := Failed)] && t.jobs == s.jobs
  {
    hide CleanupStep, RunningStep, DeletingStep, Waits;
    assert ([b] + todo)[1..] == todo;
  }

  /** An operation that waits can be failed, whatever its server does. */
  lemma CanBeFailed(before: seq<Step>, id: Id)
    requires Waits(Run(before), id)
    ensures exists more ::
      var s, t := Run(before), Run(before + more);
      t.rows == s.rows[id := s.rows[id].(phase := Failed)] && t.jobs == s.jobs
  {
    hide Run, Do, Lists, ServersOf;
    var s, b := Run(before), Snap(id, Run(before).rows[id]);
    Crashes(s); RunSteps(before, Crash);
    var steps := before + [Crash];
    var listed, k := Place(steps, id);
    var queued := ComesToQueue(steps, listed);
    var busy := ServersOf(s.rows, Running) + ServersOf(s.rows, Deleting);
    RefusesTo(queued, listed, s.nextId, busy, k);
    steps := queued + Repeat(FinishEarly(Refused), k);
    FailsTheHead(Run(steps), b, listed[k + 1..], s.nextId, busy);
    RunSteps(steps, FinishEarly(Acked));
    steps := steps + [FinishEarly(Acked)];
    var more := steps[|before|..];
    assert before + more == steps;
  }

  lemma LooksAtBroken(s: State, b: Snap, todo: seq<Snap>, busy: set<Server>)
    requires s.leader == Deletes(Deletions([b] + todo, busy)) && !b.row.forgotten
    requires b.row.job.Some? && b.row.job.value in s.jobs && s.jobs[b.row.job.value].outcome == Broken
    ensures Onto(s, Do(s, Look(false)), s.rows, s.jobs, Deletes(ForgetBroken(b, todo, busy)))
  {
    hide CleanupStep, RunningStep, PendingStep;
    assert ([b] + todo)[1..] == todo;
  }

  lemma NotesIt(s: State, b: Snap, todo: seq<Snap>, busy: set<Server>)
    requires s.leader == Deletes(ForgetBroken(b, todo, busy)) && b.id in s.rows && s.rows[b.id] == b.row && b.row.phase == Deleting
    ensures Onto(s, Do(s, NoteFailure(Acked)), s.rows, s.jobs, Deletes(Retrying(b, todo, busy)))
  {
    hide CleanupStep, RunningStep, PendingStep;
    assert s.rows[b.id := b.row] == s.rows;
  }

  lemma RemovesBroken(s: State, b: Snap, todo: seq<Snap>, busy: set<Server>)
    requires s.leader == Deletes(Retrying(b, todo, busy))
    ensures Onto(s, Do(s, DeleteJob(Acked)), s.rows, Without(s.jobs, b.row.job), Deletes(Deletions(todo, busy)))
  {
    hide CleanupStep, RunningStep, PendingStep;
  }

  /** A deletion whose forget Job failed keeps its record, and its Job can be taken
      away, after which it can be submitted again (CanBeDeleted). */
  lemma CanBeRetried(before: seq<Step>, id: Id)
    requires var s := Run(before);
      && id in s.rows && s.rows[id].phase == Deleting && !s.rows[id].forgotten
      && s.rows[id].job.Some? && s.rows[id].job.value in s.jobs && s.jobs[s.rows[id].job.value].outcome == Broken
    ensures exists more ::
      var s, t := Run(before), Run(before + more);
      t.rows == s.rows && t.jobs == s.jobs - {s.rows[id].job.value}
  {
    hide Run, Do, ServersOf;
    var s, b := Run(before), Snap(id, Run(before).rows[id]);
    var busy := ServersOf(s.rows, Running) + ServersOf(s.rows, Deleting);
    var steps, todo := ComesToDeletion(before, id);
    LooksAtBroken(Run(steps), b, todo, busy);
    RunSteps(steps, Look(false));
    steps := steps + [Look(false)];
    NotesIt(Run(steps), b, todo, busy);
    RunSteps(steps, NoteFailure(Acked));
    steps := steps + [NoteFailure(Acked)];
    RemovesBroken(Run(steps), b, todo, busy);
    RunSteps(steps, DeleteJob(Acked));
    steps := steps + [DeleteJob(Acked)];
    var more := steps[|before|..];
    assert before + more == steps;
  }

  // ---- what a request to delete does ----

  /** The panel's delete, asked for and acted on: a finished backup is put on its
      way out, unless it was made to another target; that and any other operation
      that is over loses its record at once; one that is not over stays. */
  lemma DeleteRequests(before: seq<Step>, id: Id, elsewhere: bool)
    requires id in Run(before).rows
    ensures var s, r := Run(before), Run(before).rows[id];
      var kept := Run(before + [AskDelete(id, elsewhere)] + [ActDelete(MarkDeleting(id))]).rows;
      var gone := Run(before + [AskDelete(id, elsewhere)] + [ActDelete(DropRow(id))]).rows;
      if r.phase == Succeeded && r.dir == Backup && !elsewhere then
        kept == s.rows[id := r.(phase := Deleting, job := None, uid := None)]
      else if r.phase == Succeeded || r.phase == Failed then gone == s.rows - {id}
      else Run(before + [AskDelete(id, elsewhere)]) == s
  {
    hide Run, Do;
    var s := Run(before);
    RunSteps(before, AskDelete(id, elsewhere));
    var steps := before + [AskDelete(id, elsewhere)];
    RunSteps(steps, ActDelete(MarkDeleting(id)));
    RunSteps(steps, ActDelete(DropRow(id)));
    AskIsFor(s, id, elsewhere);
    ActIsOn(Run(steps), MarkDeleting(id));
    ActIsOn(Run(steps), DropRow(id));
  }

  lemma AskIsFor(s: State, id: Id, elsewhere: bool)
    requires id in s.rows
    ensures var t := Do(s, AskDelete(id, elsewhere));
      && t.rows == s.rows
      && (if s.rows[id].phase == Succeeded && s.rows[id].dir == Backup && !elsewhere then MarkDeleting(id) in t.requests
          else if s.rows[id].phase == Succeeded || s.rows[id].phase == Failed then DropRow(id) in t.requests
          else t == s)
  {
    hide Asked;
    assert Do(s, AskDelete(id, elsewhere)) == Asked(s, id, elsewhere);
    AskedIsFor(s, id, elsewhere);
  }

  lemma AskedIsFor(s: State, id: Id, elsewhere: bool)
    requires id in s.rows
    ensures var t := Asked(s, id, elsewhere);
      && t.rows == s.rows
      && (if s.rows[id].phase == Succeeded && s.rows[id].dir == Backup && !elsewhere then MarkDeleting(id) in t.requests
          else if s.rows[id].phase == Succeeded || s.rows[id].phase == Failed then DropRow(id) in t.requests
          else t == s)
  {
    if !Terminal(s.rows[id]) {
    } else if s.rows[id].dir == Backup && s.rows[id].phase == Succeeded && !elsewhere {
      assert Asked(s, id, elsewhere) == s.(requests := s.requests + multiset{MarkDeleting(id)});
    } else {
      assert Asked(s, id, elsewhere) == s.(requests := s.requests + multiset{DropRow(id)});
    }
  }

  lemma ActIsOn(s: State, request: Request)
    requires request.id in s.rows
    ensures var t := Do(s, ActDelete(request)); request in s.requests ==>
      t.rows == if request.MarkDeleting? then s.rows[request.id := OnTheWayOut(s.rows[request.id])] else s.rows - {request.id}
  {
    hide Endangers;
  }

  // ---- transfers and retention ----

  /** While a server is held for a transfer none of its operations starts but the
      transfer's own backup or restore, and none at all once it is cancelled. */
  lemma StartsUnderTransfer(steps: seq<Step>, step: Step, id: Id)
    requires var s, t := Run(steps), Run(steps + [step]);
      && id in t.rows && t.rows[id].phase == Running && !(id in s.rows && s.rows[id].phase == Running)
      && t.rows[id].server in s.transfers
    ensures var tr := Run(steps).transfers[Run(steps + [step]).rows[id].server];
      !tr.cancelled && (tr.backup == id || tr.restore == id)
  {
    hide Run, NoneBusy;
    StartsInTurn(steps, step, id);
    Lives(steps, step, id);
  }

  /** Retention takes only finished backups of the server whose backup was just
      stored, once their own Jobs are cleaned up. */
  lemma RetentionIsForTheServer(steps: seq<Step>, step: Step, id: Id)
    requires var s, t := Run(steps), Run(steps + [step]);
      && step.StoreResult? && id in s.rows && s.rows[id].phase == Succeeded && id in t.rows && t.rows[id].phase == Deleting
    ensures var s := Run(steps);
      && s.leader.Follows? && s.leader.f.Bound?
      && var b := s.leader.f.b;
         && s.rows[id].server == b.row.server && s.rows[id].dir == Backup && s.rows[id].job == None
         && b.row.dir == Backup && s.leader.f.seen.outcome == Complete
  {
    hide Run, Do;
    RunSteps(steps, step);
    StoreMoves(Run(steps), step, id);
  }

  lemma StoreMoves(s: State, step: Step, id: Id)
    requires step.StoreResult? && id in s.rows && s.rows[id].phase == Succeeded
    requires id in Do(s, step).rows && Do(s, step).rows[id].phase == Deleting
    ensures s.leader.Follows? && s.leader.f.Bound?
    ensures var b := s.leader.f.b;
      && s.rows[id].server == b.row.server && s.rows[id].dir == Backup && s.rows[id].job == None
      && b.row.dir == Backup && s.leader.f.seen.outcome == Complete
  {
    hide CleanupStep, PendingStep, RunningStep, DeletingStep;
    match s.leader
    case Off =>
    case Cleanups(c) => CleanupStoresNothing(s, c, step);
    case Starts(p) => StartStoresNothing(s, p, step);
    case Follows(f) => FollowStores(s, f, step, id);
    case Deletes(d) => DeleteStoresNothing(s, d, step);
  }

  lemma CleanupStoresNothing(s: State, c: CleanupAt, step: Step)
    requires step.StoreResult?
    ensures CleanupStep(s, c, step) == s
  {}

  lemma StartStoresNothing(s: State, p: StartAt, step: Step)
    requires step.StoreResult?
    ensures PendingStep(s, p, step) == s
  {}

  lemma DeleteStoresNothing(s: State, d: DeleteAt, step: Step)
    requires step.StoreResult?
    ensures DeletingStep(s, d, step) == s
  {}

  lemma FollowStores(s: State, f: FollowAt, step: Step, id: Id)
    requires step.StoreResult? && id in s.rows && s.rows[id].phase == Succeeded
    requires id in RunningStep(s, f, step).rows && RunningStep(s, f, step).rows[id].phase == Deleting
    ensures f.Bound? && f.b.row.dir == Backup && f.seen.outcome == Complete
    ensures s.rows[id].server == f.b.row.server && s.rows[id].dir == Backup && s.rows[id].job == None
  {
    hide Completed, Prunable;
    if f.Bound? && Storable(s, f.b, f.seen, step.pruned) {
      var to := if f.seen.outcome == Complete then Succeeded else Failed;
      CompletedRow(s, f.b.id, to, step.pruned, step.result, id);
      PrunableRow(s, f.b, step.pruned, id);
    }
  }

  lemma PrunableRow(s: State, b: Snap, pruned: set<Id>, id: Id)
    requires Prunable(s, b, pruned)
    ensures id in pruned ==> s.rows[id].server == b.row.server && s.rows[id].dir == Backup && s.rows[id].job == None
  {}
}
