/** The backup operation manager of internal/backup over the rows of
    internal/store and the Jobs of a cluster, as a state machine. One leader
    runs passes made of single reads, writes and API calls; between any two of
    them it may crash, the panel's API may act, and Jobs may end. Every write
    and every Create may be refused, or take effect without its answer coming
    back. */
module BackupManager {
  import opened Text
  import opened BackupJobs

  type Id = nat
  type Server = nat
  type Uid = nat

  datatype Phase = Pending | Running | Succeeded | Failed | Deleting

  datatype Row = Row(server: Server, dir: Direction, phase: Phase,
                     job: Option<JobName>, uid: Option<Uid>, forgotten: bool)

  datatype Outcome = Active | Complete | Broken
  datatype Job = Job(uid: Uid, outcome: Outcome)
  datatype Transfer = Transfer(cancelled: bool, backup: Id, restore: Id)

  /** A row as a list read returned it; the row may have changed since. */
  datatype Snap = Snap(id: Id, row: Row)

  /** A delete request of the panel that has read its row and is yet to act. */
  datatype Request = MarkDeleting(id: Id) | DropRow(id: Id)

  /** How an external write ended: done and answered, done with the answer
      lost, or not done. */
  datatype Result = Acked | Lost | Refused

  /** Where the leader is in its pass, stage by stage, with the variables it
      holds there. */
  datatype Leader = Off | Cleanups(c: CleanupAt) | Starts(p: StartAt) | Follows(f: FollowAt) | Deletes(d: DeleteAt)

  datatype CleanupAt =
    | AtCleanup
    | Cleaning(todo: seq<Snap>)
    | CleaningGone(b: Snap, todo: seq<Snap>)

  datatype StartAt =
    | AtPending
    | PendingListed(todo: seq<Snap>, bound: Id)
    | PendingHalf(todo: seq<Snap>, bound: Id, busy: set<Server>)
    | Queue(todo: seq<Snap>, bound: Id, busy: set<Server>)
    | Head(b: Snap, todo: seq<Snap>, bound: Id, busy: set<Server>)
    | Claimed(b: Snap, todo: seq<Snap>, bound: Id, busy: set<Server>)
    | Submitted(b: Snap, job: Uid, todo: seq<Snap>, bound: Id, busy: set<Server>)

  datatype FollowAt =
    | AtRunning
    | InRunning(todo: seq<Snap>)
    | Resuming(b: Snap, todo: seq<Snap>)
    | Resumed(b: Snap, job: Uid, todo: seq<Snap>)
    | Found(b: Snap, seen: Job, todo: seq<Snap>)
    | Bound(b: Snap, seen: Job, todo: seq<Snap>)
    | Stored(b: Snap, todo: seq<Snap>)
    | StoredGone(b: Snap, todo: seq<Snap>)

  datatype DeleteAt =
    | AtDeleting
    | DeletingListed(todo: seq<Snap>)
    | DeletingHalf(todo: seq<Snap>, busy: set<Server>)
    | Deletions(todo: seq<Snap>, busy: set<Server>)
    | ForgetDone(b: Snap, todo: seq<Snap>, busy: set<Server>)
    | ForgetBroken(b: Snap, todo: seq<Snap>, busy: set<Server>)
    | Forgotten(b: Snap, todo: seq<Snap>, busy: set<Server>)
    | ForgottenGone(b: Snap, todo: seq<Snap>, busy: set<Server>)
    | Retrying(b: Snap, todo: seq<Snap>, busy: set<Server>)
    | Submitting(b: Snap, todo: seq<Snap>, busy: set<Server>)
    | ForgetClaimed(b: Snap, todo: seq<Snap>, busy: set<Server>)

  /** The store, the cluster, the leader and the requests in flight; then the
      history the properties speak of: the server each operation was asked for,
      how many Jobs it was given, whose results were stored, whose Jobs someone
      else deleted, which operations were called off while pending, the operations
      let pass in this pass, at the front of the list and without their server
      being reserved, and whether a step endangered the exclusion. */
  datatype State = State(
    rows: map<Id, Row>, jobs: map<JobName, Job>, leader: Leader, requests: multiset<Request>,
    transfers: map<Server, Transfer>, nextId: Id, nextUid: Uid,
    home: map<Id, Server>, created: map<Id, nat>, stored: set<Id>, vanished: set<Id>, cancelled: set<Id>,
    passed: set<Id>, slipped: bool)

  const START := State(map[], map[], Off, multiset{}, map[], 0, 0, map[], map[], {}, {}, {}, {}, false)

  datatype Step =
    // the panel
    | Enqueue(server: Server, dir: Direction)
    | Cancel(id: Id)
    | AskDelete(id: Id, elsewhere: bool)
    | ActDelete(request: Request)
    | SetTransfer(server: Server, transfer: Option<Transfer>)
    // the cluster
    | JobEnds(name: JobName, outcome: Outcome)
    | JobVanishes(name: JobName)
    | JobExpires(name: JobName)
    | PurgeServer(slug: string)
    // the leader: every pass is a run of these
    | Crash
    | Begin
    | ListFails
    | List(listed: seq<Snap>)
    | ReadRunning
    | ReadDeleting
    | EndList
    | Skip
    | Take
    | PassOver
    | FinishEarly(result: Result)
    | Claim(result: Result)
    | Create(result: Result)
    | Observe(result: Result)
    | Look(podsRemain: bool)
    | StoreResult(result: Result, pruned: set<Id>)
    | DeleteJob(result: Result)
    | Acknowledge(result: Result)
    | MarkForgotten(result: Result)
    | NoteFailure(result: Result)
    | ClaimDeletion(result: Result)
    | DropRecord(result: Result)

  // ---- the store ----

  predicate Took(r: Result) { r != Refused }

  function Made(s: State, id: Id): nat { if id in s.created then s.created[id] else 0 }

  predicate Waits(s: State, id: Id) { id in s.rows && s.rows[id].phase == Pending }

  predicate Busy(r: Row) { r.phase == Running || (r.phase == Deleting && r.job.Some?) }

  predicate Terminal(r: Row) { r.phase == Succeeded || r.phase == Failed }

  /** A transfer holds back every operation but its own, and all once cancelled. */
  predicate HeldBack(s: State, server: Server, id: Id) {
    && server in s.transfers
    && var tr := s.transfers[server];
       tr.cancelled || (tr.backup != id && tr.restore != id)
  }

  /** A list read: the rows wanted, oldest first. */
  predicate Lists(listed: seq<Snap>, rows: map<Id, Row>, phase: Phase) {
    && (forall i, j | 0 <= i < j < |listed| :: listed[i].id < listed[j].id)
    && (forall b | b in listed :: b.id in rows && rows[b.id] == b.row && b.row.phase == phase)
    && (forall id | id in rows && rows[id].phase == phase :: Snap(id, rows[id]) in listed)
  }

  predicate ListsCleanup(listed: seq<Snap>, rows: map<Id, Row>) {
    forall b | b in listed :: b.id in rows && rows[b.id] == b.row && Terminal(b.row) && b.row.job.Some?
  }

  /** MarkBackupDeleting and the retention queue: on the way out, no Job yet. */
  function OnTheWayOut(r: Row): Row { r.(phase := Deleting, job := None, uid := None) }

  /** CompleteBackup's compare-and-swap from a phase, with the retention queue. */
  function Completed(s: State, id: Id, from: Phase, to: Phase, pruned: set<Id>, r: Result): State {
    if Took(r) && id in s.rows && s.rows[id].phase == from then
      s.(rows := map k | k in s.rows ::
           if k == id then s.rows[k].(phase := to)
           else if k in pruned then OnTheWayOut(s.rows[k]) else s.rows[k],
         stored := s.stored + {id})
    else s
  }

  /** Retention may queue finished backups of the same server whose Job cleanup
      was acknowledged. */
  predicate Prunable(s: State, b: Snap, pruned: set<Id>) {
    forall k | k in pruned ::
      && k != b.id && k in s.rows && s.rows[k].server == b.row.server
      && s.rows[k].dir == Backup && s.rows[k].phase == Succeeded && s.rows[k].job.None?
  }

  // ---- the cluster ----

  /** Create of a Job: refused when the name is taken. */
  function Submit(s: State, name: JobName, r: Result): State {
    if Took(r) && name !in s.jobs then
      s.(jobs := s.jobs[name := Job(s.nextUid, Active)], nextUid := s.nextUid + 1,
         created := if name.Operation? then s.created[name.id := Made(s, name.id) + 1] else s.created)
    else s
  }

  function RemoveJob(s: State, name: Option<JobName>, r: Result): State {
    if Took(r) && name.Some? then s.(jobs := s.jobs - {name.value}) else s
  }

  // ---- the panel and the environment ----

  /** CreateBackup, CreateRestore, CreateDatabaseImport. */
  function Enqueued(s: State, server: Server, dir: Direction): State {
    s.(rows := s.rows[s.nextId := Row(server, dir, Pending, None, None, false)], home := s.home[s.nextId := server],
       nextId := s.nextId + 1)
  }

  /** CancelPendingBackup. */
  function CalledOff(s: State, id: Id): State {
    if id in s.rows && s.rows[id].phase == Pending then
      s.(rows := s.rows - {id}, cancelled := s.cancelled + {id})
    else s
  }

  /** handleDeleteBackup up to its decision; a pending or running operation is
      refused or called off, one already on its way out is left to go. */
  function Asked(s: State, id: Id, elsewhere: bool): State {
    if id !in s.rows || !Terminal(s.rows[id]) then s
    else if s.rows[id].dir == Backup && s.rows[id].phase == Succeeded && !elsewhere then
      s.(requests := s.requests + multiset{MarkDeleting(id)})
    else s.(requests := s.requests + multiset{DropRow(id)})
  }

  /** The deletions a pass has still to come to. */
  function TodoOf(d: DeleteAt): seq<Snap> {
    match d
    case AtDeleting => []
    case DeletingListed(todo) => todo
    case DeletingHalf(todo, _) => todo
    case Deletions(todo, _) => todo
    case ForgetDone(_, todo, _) => todo
    case ForgetBroken(_, todo, _) => todo
    case Forgotten(_, todo, _) => todo
    case ForgottenGone(_, todo, _) => todo
    case Retrying(_, todo, _) => todo
    case Submitting(_, todo, _) => todo
    case ForgetClaimed(_, todo, _) => todo
  }

  /** The leader read that the deletion has a Job, and may submit it in this pass. */
  predicate MaySubmit(l: Leader, id: Id) {
    && l.Deletes?
    && ((exists b | b in TodoOf(l.d) :: b.id == id && b.row.job.Some? && !b.row.forgotten)
        || (l.d.Submitting? && l.d.b.id == id && l.d.b.row.job.Some?)
        || (l.d.ForgetClaimed? && l.d.b.id == id))
  }

  /** A delete of this row would take the Job from a deletion at work: the row
      holds it, and it is going or about to be submitted. */
  predicate Endangers(s: State, id: Id) {
    && id in s.rows && s.rows[id].phase == Deleting && s.rows[id].job.Some?
    && ((Forget(id) in s.jobs && s.jobs[Forget(id)].outcome == Active) || MaySubmit(s.leader, id))
  }

  /** MarkBackupDeleting or DeleteBackup: by id alone, whatever the phase by now. */
  function Acted(s: State, request: Request): State {
    if request !in s.requests then s
    else
      s.(requests := s.requests - multiset{request}, rows := Rewritten(s.rows, request),
         slipped := s.slipped || Endangers(s, request.id))
  }

  function Rewritten(rows: map<Id, Row>, request: Request): map<Id, Row> {
    if request.id !in rows then rows
    else if request.MarkDeleting? then rows[request.id := OnTheWayOut(rows[request.id])]
    else rows - {request.id}
  }

  function Ended(s: State, name: JobName, outcome: Outcome): State {
    if name in s.jobs && s.jobs[name].outcome == Active && outcome != Active then
      s.(jobs := s.jobs[name := s.jobs[name].(outcome := outcome)])
    else s
  }

  /** Someone else deletes a Job: any but one whose operation runs on it without
      having recorded its UID. */
  function Vanished(s: State, name: JobName): State {
    if name !in s.jobs then s
    else if !name.Operation? then s.(jobs := s.jobs - {name})
    else if name.id in s.rows && s.rows[name.id].phase == Running && s.rows[name.id].uid.None? then s
    else s.(jobs := s.jobs - {name}, vanished := s.vanished + {name.id})
  }

  /** The cluster removes an ended Job that has a time to live. */
  function Expired(s: State, name: JobName): State {
    if name in s.jobs && s.jobs[name].outcome != Active && Expires(name) then s.(jobs := s.jobs - {name}) else s
  }

  /** runBackupPurge, for a server whose rows are gone. */
  function Purged(s: State, slug: string): State {
    if Purge(slug) in s.jobs then s
    else s.(jobs := s.jobs[Purge(slug) := Job(s.nextUid, Active)], nextUid := s.nextUid + 1)
  }

  function ByOthers(s: State, step: Step): State {
    match step
    case Enqueue(server, dir) => Enqueued(s, server, dir)
    case Cancel(id) => CalledOff(s, id)
    case AskDelete(id, elsewhere) => Asked(s, id, elsewhere)
    case ActDelete(request) => Acted(s, request)
    case SetTransfer(server, tr) =>
      s.(transfers := if tr.Some? then s.transfers[server := tr.value] else s.transfers - {server})
    case JobEnds(name, outcome) => Ended(s, name, outcome)
    case JobVanishes(name) => Vanished(s, name)
    case JobExpires(name) => Expired(s, name)
    case PurgeServer(slug) => Purged(s, slug)
    case Crash => s.(leader := Off)
    case _ => s
  }

  // ---- the leader, stage by stage ----

  /** A pass goes through four stages; one whose list cannot be read, or is
      done, gives way to the next. */
  function NextStage(l: Leader, step: Step): Leader {
    match l
    case Off => if step.Begin? then Cleanups(AtCleanup) else l
    case Cleanups(c) => if Leaves(step, c.AtCleanup?, c == Cleaning([])) then Starts(AtPending) else l
    case Starts(p) => if Leaves(step, p.AtPending?, p.Queue? && p.todo == []) then Follows(AtRunning) else l
    case Follows(f) => if Leaves(step, f.AtRunning?, f == InRunning([])) then Deletes(AtDeleting) else l
    case Deletes(d) => if Leaves(step, d.AtDeleting?, d.Deletions? && d.todo == []) then Off else l
  }

  function Between(s: State, step: Step): State { s.(leader := NextStage(s.leader, step)) }

  predicate Leaves(step: Step, listing: bool, done: bool) {
    (step.ListFails? && listing) || (step.EndList? && done)
  }

  /** processCleanup and cleanupFinished. */
  function CleanupStep(s: State, c: CleanupAt, step: Step): State {
    match (c, step)
    case (AtCleanup, List(listed)) =>
      if ListsCleanup(listed, s.rows) then s.(leader := Cleanups(Cleaning(listed))) else s
    case (Cleaning(todo), Skip) => if todo == [] then s else s.(leader := Cleanups(Cleaning(todo[1..])))
    case (Cleaning(todo), DeleteJob(r)) =>
      if todo == [] then s
      else
        RemoveJob(s, todo[0].row.job, r).(leader :=
          Cleanups(if r == Acked then CleaningGone(todo[0], todo[1..]) else Cleaning(todo[1..])))
    case (CleaningGone(b, todo), Acknowledge(r)) => Acknowledged(s, b, r).(leader := Cleanups(Cleaning(todo)))
    case _ => s
  }

  /** ClearBackupJob, on a terminal row that still names this Job. */
  function Acknowledged(s: State, b: Snap, r: Result): State {
    if Took(r) && b.id in s.rows && s.rows[b.id].job == b.row.job && Terminal(s.rows[b.id]) then
      s.(rows := s.rows[b.id := s.rows[b.id].(job := None, uid := None)])
    else s
  }

  function ServersOf(rows: map<Id, Row>, phase: Phase): set<Server> {
    set id | id in rows && rows[id].phase == phase && Busy(rows[id]) :: rows[id].server
  }

  /** processPending, with busyServers as its two reads. */
  function PendingStep(s: State, p: StartAt, step: Step): State {
    match (p, step)
    case (AtPending, List(listed)) =>
      if Lists(listed, s.rows, Pending) then s.(leader := Starts(PendingListed(listed, s.nextId)), passed := {}) else s
    case (PendingListed(todo, bound), ReadRunning) =>
      s.(leader := Starts(PendingHalf(todo, bound, ServersOf(s.rows, Running))))
    case (PendingHalf(todo, bound, busy), ReadDeleting) =>
      s.(leader := Starts(Queue(todo, bound, busy + ServersOf(s.rows, Deleting))))
    case (Queue(todo, bound, busy), _) => if todo == [] then s else QueueStep(s, todo[0], todo[1..], bound, busy, step)
    case (Head(b, todo, bound, busy), Skip) => s.(leader := Starts(Queue(todo, bound, busy)))
    case (Head(b, todo, bound, busy), FinishEarly(r)) =>
      Completed(s, b.id, Pending, Failed, {}, r).(leader := Starts(Queue(todo, bound, busy)))
    case (Head(b, todo, bound, busy), Claim(r)) =>
      if Took(r) && b.id in s.rows && s.rows[b.id].phase == Pending && !HeldBack(s, b.row.server, b.id) then
        s.(rows := s.rows[b.id := s.rows[b.id].(phase := Running, job := Some(Operation(b.row.dir, b.id)))],
           leader := Starts(if r == Acked then Claimed(b, todo, bound, busy) else Queue(todo, bound, busy)))
      else s.(leader := Starts(Queue(todo, bound, busy)))
    case (Claimed(b, todo, bound, busy), Create(r)) =>
      var name := Operation(b.row.dir, b.id);
      var t := Submit(s, name, r);
      if r == Acked && name !in s.jobs then t.(leader := Starts(Submitted(b, s.nextUid, todo, bound, busy)))
      else t.(leader := Starts(Queue(todo, bound, busy)))
    case (Submitted(b, uid, todo, bound, busy), Observe(r)) =>
      Observed(s, b.id, uid, r).(leader := Starts(Queue(todo, bound, busy)))
    case _ => s
  }

  /** What happens to the operation at the front of the list. */
  function QueueStep(s: State, b: Snap, todo: seq<Snap>, bound: Id, busy: set<Server>, step: Step): State {
    match step
    case FinishEarly(r) =>
      // no backup target, or no such server: failed without being reserved
      var t := Completed(s, b.id, Pending, Failed, {}, r);
      t.(leader := Starts(Queue(todo, bound, busy)),
         passed := if Waits(t, b.id) then s.passed + {b.id} else s.passed)
    case Skip => if b.row.server in busy then s.(leader := Starts(Queue(todo, bound, busy))) else s
    case PassOver =>
      if b.row.server !in busy && HeldBack(s, b.row.server, b.id) then
        s.(leader := Starts(Queue(todo, bound, busy)), passed := if Waits(s, b.id) then s.passed + {b.id} else s.passed)
      else s
    case Take =>
      if b.row.server !in busy && !HeldBack(s, b.row.server, b.id) then
        s.(leader := Starts(Head(b, todo, bound, busy + {b.row.server})))
      else s
    case _ => s
  }

  /** ObserveBackupJob: the first UID recorded stands. */
  function Observed(s: State, id: Id, uid: Uid, r: Result): State {
    if Took(r) && Observable(s, id, uid) then s.(rows := s.rows[id := s.rows[id].(uid := Some(uid))]) else s
  }

  predicate Observable(s: State, id: Id, uid: Uid) {
    id in s.rows && s.rows[id].phase == Running && (s.rows[id].uid == None || s.rows[id].uid == Some(uid))
  }

  /** A running operation's Job is followed if it is the recorded one; without
      Job, pods or record the submission is resumed. */
  function RunningLook(s: State, b: Snap, todo: seq<Snap>, podsRemain: bool): FollowAt {
    var name := Operation(b.row.dir, b.id);
    if name !in s.jobs then
      if b.row.uid.None? && !podsRemain then Resuming(b, todo) else InRunning(todo)
    else if b.row.uid.Some? && b.row.uid.value != s.jobs[name].uid then InRunning(todo)
    else Found(b, s.jobs[name], todo)
  }

  /** An ended Job's result is stored; a finished backup brings retention. */
  predicate Storable(s: State, b: Snap, seen: Job, pruned: set<Id>) {
    && seen.outcome != Active && Prunable(s, b, pruned)
    && (pruned == {} || (seen.outcome == Complete && b.row.dir == Backup))
  }

  /** processRunning and resumeSubmission. */
  function RunningStep(s: State, f: FollowAt, step: Step): State {
    match (f, step)
    case (AtRunning, List(listed)) =>
      if Lists(listed, s.rows, Running) then s.(leader := Follows(InRunning(listed))) else s
    case (InRunning(todo), Skip) => if todo == [] then s else s.(leader := Follows(InRunning(todo[1..])))
    case (InRunning(todo), Look(podsRemain)) =>
      if todo == [] then s
      else s.(leader := Follows(RunningLook(s, todo[0], todo[1..], podsRemain)))
    case (Resuming(b, todo), Create(r)) =>
      var name := Operation(b.row.dir, b.id);
      var t := Submit(s, name, r);
      t.(leader := Follows(if r == Acked && name !in s.jobs then Resumed(b, s.nextUid, todo) else InRunning(todo)))
    case (Resumed(b, uid, todo), Observe(r)) => Observed(s, b.id, uid, r).(leader := Follows(InRunning(todo)))
    case (Found(b, seen, todo), Observe(r)) =>
      if b.row.uid.Some? then s.(leader := Follows(Bound(b, seen, todo)))
      else
        Observed(s, b.id, seen.uid, r).(leader :=
          Follows(if r == Acked && Observable(s, b.id, seen.uid) then Bound(b, seen, todo) else InRunning(todo)))
    case (Bound(b, seen, todo), Skip) => if seen.outcome == Active then s.(leader := Follows(InRunning(todo))) else s
    case (Bound(b, seen, todo), StoreResult(r, pruned)) =>
      if !Storable(s, b, seen, pruned) then s
      else
        var t := Completed(s, b.id, Running, if seen.outcome == Complete then Succeeded else Failed, pruned, r);
        t.(leader := Follows(
             if r == Acked && b.id in s.rows && s.rows[b.id].phase == Running then Stored(b, todo) else InRunning(todo)))
    case (Stored(b, todo), DeleteJob(r)) =>
      RemoveJob(s, b.row.job, r).(leader := Follows(if r == Acked then StoredGone(b, todo) else InRunning(todo)))
    case (StoredGone(b, todo), Acknowledge(r)) => Acknowledged(s, b, r).(leader := Follows(InRunning(todo)))
    case _ => s
  }

  /** processDeleting and cleanupForgotten. */
  function DeletingStep(s: State, d: DeleteAt, step: Step): State {
    match (d, step)
    case (AtDeleting, List(listed)) =>
      if Lists(listed, s.rows, Deleting) then s.(leader := Deletes(DeletingListed(listed))) else s
    case (DeletingListed(todo), ReadRunning) => s.(leader := Deletes(DeletingHalf(todo, ServersOf(s.rows, Running))))
    case (DeletingHalf(todo, busy), ReadDeleting) =>
      s.(leader := Deletes(Deletions(todo, busy + ServersOf(s.rows, Deleting))))
    case (Deletions(todo, busy), _) => if todo == [] then s else DeletionStep(s, todo[0], todo[1..], busy, step)
    case (ForgetDone(b, todo, busy), MarkForgotten(r)) =>
      var hit := b.id in s.rows && s.rows[b.id].phase == Deleting;
      s.(rows := if Took(r) && hit then s.rows[b.id := s.rows[b.id].(forgotten := true)] else s.rows,
         leader := Deletes(if hit && r == Acked then Forgotten(b, todo, busy) else Deletions(todo, busy)))
    case (ForgetBroken(b, todo, busy), NoteFailure(r)) =>
      s.(rows := if Took(r) && b.id in s.rows then s.rows[b.id := s.rows[b.id].(phase := Deleting, job := b.row.job)] else s.rows,
         leader := Deletes(if r == Acked then Retrying(b, todo, busy) else Deletions(todo, busy)))
    case (Forgotten(b, todo, busy), DeleteJob(r)) =>
      RemoveJob(s, b.row.job, r).(leader := Deletes(if r == Acked then ForgottenGone(b, todo, busy) else Deletions(todo, busy)))
    case (ForgottenGone(b, todo, busy), DropRecord(r)) =>
      s.(rows := if Took(r) then s.rows - {b.id} else s.rows, leader := Deletes(Deletions(todo, busy)))
    case (Retrying(b, todo, busy), DeleteJob(r)) => RemoveJob(s, b.row.job, r).(leader := Deletes(Deletions(todo, busy)))
    case (Submitting(b, todo, busy), Skip) => s.(leader := Deletes(Deletions(todo, busy)))
    case (Submitting(b, todo, busy), ClaimDeletion(r)) =>
      if b.row.job.Some? then s.(leader := Deletes(ForgetClaimed(b, todo, busy)))
      else if Unclaimed(s, b.id) && Took(r) then
        ForgetNamed(s, b, todo, r).(leader := Deletes(if r == Acked then ForgetClaimed(b, todo, busy) else Deletions(todo, busy)))
      else s.(leader := Deletes(Deletions(todo, busy)))
    case (ForgetClaimed(b, todo, busy), Create(r)) =>
      Submit(s, Forget(b.id), r).(leader := Deletes(Deletions(todo, busy + {b.row.server})))
    case _ => s
  }

  predicate Unclaimed(s: State, id: Id) { id in s.rows && s.rows[id].phase == Deleting && s.rows[id].job.None? }

  /** ClaimBackupDeletion, done. */
  function ForgetNamed(s: State, b: Snap, todo: seq<Snap>, r: Result): State
    requires b.id in s.rows
  {
    s.(rows := s.rows[b.id := s.rows[b.id].(job := Some(Forget(b.id)))],
       slipped := s.slipped || (r == Lost && Another(s, b.row.server, todo)))
  }

  /** A deletion of the server without a Job is still to come in the list. */
  predicate Another(s: State, server: Server, todo: seq<Snap>) {
    exists b | b in todo :: b.row.server == server && b.row.job.None? && !b.row.forgotten && b.id in s.rows
  }

  /** What happens to the deletion at the front of the list. */
  function DeletionStep(s: State, b: Snap, todo: seq<Snap>, busy: set<Server>, step: Step): State {
    match step
    case Skip => s.(leader := Deletes(Deletions(todo, busy)))
    case Look(podsRemain) => s.(leader := Deletes(DeletionLook(s, b, todo, busy, podsRemain)))
    case _ => s
  }

  /** A forgotten snapshot's record is cleaned up; a deletion with a Job is
      followed, and submitted again once neither its Job nor its pods are left;
      one without waits for its server to be free. */
  function DeletionLook(s: State, b: Snap, todo: seq<Snap>, busy: set<Server>, podsRemain: bool): DeleteAt {
    if b.row.forgotten then Forgotten(b, todo, busy)
    else if b.row.job.None? then
      if b.row.server in busy then Deletions(todo, busy) else Submitting(b, todo, busy)
    else if b.row.job.value in s.jobs then
      match s.jobs[b.row.job.value].outcome
      case Active => Deletions(todo, busy)
      case Complete => ForgetDone(b, todo, busy)
      case Broken => ForgetBroken(b, todo, busy)
    else if podsRemain then Deletions(todo, busy) else Submitting(b, todo, busy)
  }

  /** One step of the whole system; a step that is not possible changes nothing. */
  function Do(s: State, step: Step): State {
    if !Mine(step) then ByOthers(s, step)
    else if step.Begin? || step.ListFails? || step.EndList? then Between(s, step)
    else
      match s.leader
      case Off => s
      case Cleanups(c) => CleanupStep(s, c, step)
      case Starts(p) => PendingStep(s, p, step)
      case Follows(f) => RunningStep(s, f, step)
      case Deletes(d) => DeletingStep(s, d, step)
  }

  /** The steps of the leader's own program. */
  predicate Mine(step: Step) {
    !(step.Enqueue? || step.Cancel? || step.AskDelete? || step.ActDelete? || step.SetTransfer?
      || step.JobEnds? || step.JobVanishes? || step.JobExpires? || step.PurgeServer? || step.Crash?)
  }

  /** A run: any interleaving of steps from an empty panel. */
  function Run(steps: seq<Step>): State {
    if steps == [] then START else Do(Run(steps[..|steps| - 1]), steps[|steps| - 1])
  }
}
