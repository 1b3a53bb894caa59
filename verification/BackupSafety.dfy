/** What every run of the backup manager keeps. */
module BackupSafety {
  import opened Text
  import opened BackupJobs
  import opened BackupManager

  // ---- the rows, the Jobs and the history ----

  predicate RowOk(s: State, id: Id)
    requires id in s.rows
  {
    var r := s.rows[id];
    && id < s.nextId
    && id !in s.cancelled
    && id in s.home && s.home[id] == r.server
    && match r.phase
       case Pending => r.job.None? && r.uid.None? && Made(s, id) == 0 && id !in s.stored && id !in s.vanished
       case Running =>
         && r.job == Some(Operation(r.dir, id)) && id !in s.stored
         && (r.uid.Some? ==> Made(s, id) == 1)
         && (r.uid.None? ==> id !in s.vanished)
         && (Made(s, id) == 1 && id !in s.vanished ==> Operation(r.dir, id) in s.jobs)
         && (r.uid.Some? && Operation(r.dir, id) in s.jobs ==> s.jobs[Operation(r.dir, id)].uid == r.uid.value)
       case Deleting => id in s.stored && Made(s, id) == 1 && r.dir == Backup && r.job in {None, Some(Forget(id))} && r.uid.None?
       case _ =>
         && id in s.stored && r.job in {None, Some(Operation(r.dir, id))}
         && (r.phase == Succeeded ==> Made(s, id) == 1)
         && (Operation(r.dir, id) in s.jobs ==>
               s.jobs[Operation(r.dir, id)].outcome == if r.phase == Succeeded then Complete else Broken)
  }

  /** A Job of an operation was made once; one still going belongs to a running
      row, and a deletion's to a row that names it unless the exclusion slipped. */
  predicate JobOk(s: State, name: JobName)
    requires name in s.jobs
  {
    match name
    case Operation(dir, id) =>
      && Made(s, id) == 1
      && (id in s.rows ==> s.rows[id].dir == dir)
      && (s.jobs[name].outcome == Active ==> id in s.rows && s.rows[id].phase == Running)
    case Forget(id) =>
      s.jobs[name].outcome == Active && !s.slipped ==>
        id in s.rows && s.rows[id].phase == Deleting && s.rows[id].job == Some(name) && !s.rows[id].forgotten
    case Purge(_) => true
  }

  predicate HistoryOk(s: State, id: Id) {
    && Made(s, id) <= 1
    && (s.nextId <= id ==> Made(s, id) == 0 && id !in s.stored && id !in s.cancelled && id !in s.vanished)
    && (id in s.cancelled ==> Made(s, id) == 0)
    && (Made(s, id) == 1 && id !in s.stored ==> id in s.rows && s.rows[id].phase == Running)
  }

  predicate RequestOk(s: State, request: Request) {
    && request.id < s.nextId
    && (request.id in s.rows ==>
          var r := s.rows[request.id];
          if request.MarkDeleting? then r.phase in {Succeeded, Deleting} && r.dir == Backup
          else Terminal(r) || r.phase == Deleting)
  }

  predicate OneRunning(s: State) {
    forall a, b | a in s.rows && b in s.rows && s.rows[a].phase == s.rows[b].phase == Running
                  && s.rows[a].server == s.rows[b].server :: a == b
  }

  /** A server has one operation in hand at most. */
  predicate OneBusy(s: State) {
    forall a, b | a in s.rows && b in s.rows && Busy(s.rows[a]) && Busy(s.rows[b])
                  && s.rows[a].server == s.rows[b].server :: a == b
  }

  ghost predicate Sound(s: State) {
    && (forall id | id in s.rows :: RowOk(s, id))
    && (forall name | name in s.jobs :: JobOk(s, name))
    && (forall id :: HistoryOk(s, id))
    && (forall request | request in s.requests :: RequestOk(s, request))
    && OneRunning(s)
    && (!s.slipped ==> OneBusy(s))
  }

  // ---- where the leader is ----

  /** A row read earlier is still that server's and that kind's, if it is there. */
  predicate Known(s: State, b: Snap) {
    && b.id < s.nextId
    && (b.id in s.rows ==> s.rows[b.id].server == b.row.server && s.rows[b.id].dir == b.row.dir)
  }

  predicate CoversBusy(s: State, busy: set<Server>) {
    forall id | id in s.rows && Busy(s.rows[id]) :: s.rows[id].server in busy
  }

  predicate NoneBusy(s: State, server: Server) {
    forall id | id in s.rows && s.rows[id].server == server :: !Busy(s.rows[id])
  }

  /** Every pending operation older than the list is still to come in it, or its
      server is held by an earlier one, or it was let pass. */
  predicate InLine(s: State, todo: seq<Snap>, bound: Id, held: set<Server>) {
    forall id | id in s.rows && s.rows[id].phase == Pending && id < bound ::
      (exists b :: b in todo && b.id == id) || s.rows[id].server in held || id in s.passed
  }

  /** What was let pass in this pass is older than what is still to come. */
  predicate Behind(s: State, todo: seq<Snap>) { forall p, b | p in s.passed && b in todo :: p < b.id }

  predicate Ascending(todo: seq<Snap>) {
    forall i, j | 0 <= i < j < |todo| :: todo[i].id < todo[j].id
  }

  predicate QueueOk(s: State, todo: seq<Snap>, bound: Id, held: set<Server>) {
    && bound <= s.nextId && Ascending(todo)
    && (forall b | b in todo :: Known(s, b) && b.id < bound)
    && InLine(s, todo, bound, held)
  }

  predicate HeadOk(s: State, b: Snap, todo: seq<Snap>, bound: Id, busy: set<Server>) {
    && QueueOk(s, todo, bound, busy) && Known(s, b) && b.id < bound
    && b.row.server in busy
    && NoneBusy(s, b.row.server)
    && FirstInLine(s, b)
  }

  /** What was let pass is older, and so are no other pending operations of the
      server. */
  predicate FirstInLine(s: State, b: Snap) {
    && (forall p | p in s.passed :: p < b.id)
    && (forall id | id in s.rows && s.rows[id].phase == Pending && s.rows[id].server == b.row.server && id < b.id :: id in s.passed)
  }

  /** b runs and no UID of its Job was recorded. */
  predicate Unobserved(s: State, b: Snap) {
    && b.id in s.rows && Known(s, b)
    && s.rows[b.id].phase == Running && s.rows[b.id].uid.None?
  }

  predicate HasItsJob(s: State, b: Snap, uid: Uid) {
    && Unobserved(s, b)
    && Operation(b.row.dir, b.id) in s.jobs && s.jobs[Operation(b.row.dir, b.id)].uid == uid
  }

  predicate Follow(s: State, b: Snap) {
    b.id in s.rows && s.rows[b.id] == b.row && b.row.phase == Running
  }

  predicate FollowOk(s: State, todo: seq<Snap>) {
    Ascending(todo) && forall b | b in todo :: Follow(s, b)
  }

  predicate SeenOk(s: State, b: Snap, seen: Job) {
    var name := Operation(b.row.dir, b.id);
    name in s.jobs ==> s.jobs[name].uid == seen.uid && (seen.outcome != Active ==> s.jobs[name] == seen)
  }

  predicate StoredOk(s: State, b: Snap) {
    b.id in s.stored && b.row.job == Some(Operation(b.row.dir, b.id)) && Known(s, b)
  }

  /** What stays true of a deletion that was read, whatever happens to its row. */
  predicate WasDeleting(s: State, b: Snap) {
    && Known(s, b) && b.id in s.stored && b.row.phase == Deleting && b.row.job in {None, Some(Forget(b.id))}
    && (b.id in s.rows ==> s.rows[b.id].phase == Deleting && (b.row.forgotten ==> s.rows[b.id].forgotten))
  }

  /** While the exclusion has not slipped, a deletion still to come is as it was
      read: with a Job to follow it is there, without one it may be gone. */
  predicate DeletionOk(s: State, b: Snap) {
    && WasDeleting(s, b)
    && (!s.slipped && !b.row.forgotten ==> (b.id in s.rows ==> s.rows[b.id] == b.row) && (b.row.job.Some? ==> b.id in s.rows))
  }

  predicate DeletionsOk(s: State, todo: seq<Snap>) {
    Ascending(todo) && forall b | b in todo :: DeletionOk(s, b)
  }

  /** The deletion's Job is not going any more. */
  predicate DoneForgetting(s: State, b: Snap) {
    WasDeleting(s, b) && (!s.slipped && Forget(b.id) in s.jobs ==> s.jobs[Forget(b.id)].outcome != Active)
  }

  predicate EndedAs(s: State, b: Snap, outcome: Outcome) {
    b.row.job == Some(Forget(b.id)) && (Forget(b.id) in s.jobs ==> s.jobs[Forget(b.id)].outcome == outcome)
  }

  /** Nothing else of the server is in hand. */
  predicate NoneElse(s: State, b: Snap) {
    forall id | id in s.rows && s.rows[id].server == b.row.server && Busy(s.rows[id]) :: id == b.id
  }

  predicate Before(b: Snap, todo: seq<Snap>) { forall x | x in todo :: b.id < x.id }

  predicate CleanupsOk(s: State, c: CleanupAt) {
    match c
    case Cleaning(todo) => forall b | b in todo :: StoredOk(s, b)
    case CleaningGone(b, todo) => StoredOk(s, b) && forall b | b in todo :: StoredOk(s, b)
    case _ => true
  }

  predicate Waiting(s: State, todo: seq<Snap>, bound: Id, busy: set<Server>) {
    QueueOk(s, todo, bound, busy) && CoversBusy(s, busy) && Behind(s, todo)
  }

  predicate StartsOk(s: State, p: StartAt) {
    match p
    case PendingListed(todo, bound) => QueueOk(s, todo, bound, {}) && Behind(s, todo)
    case PendingHalf(todo, bound, busy) =>
      && QueueOk(s, todo, bound, busy) && Behind(s, todo)
      && forall id | id in s.rows && s.rows[id].phase == Running :: s.rows[id].server in busy
    case Queue(todo, bound, busy) => Waiting(s, todo, bound, busy)
    case Head(b, todo, bound, busy) => HeadOk(s, b, todo, bound, busy) && Waiting(s, todo, bound, busy) && Before(b, todo)
    case Claimed(b, todo, bound, busy) => Waiting(s, todo, bound, busy) && Unobserved(s, b) && Made(s, b.id) == 0
    case Submitted(b, uid, todo, bound, busy) => Waiting(s, todo, bound, busy) && HasItsJob(s, b, uid)
    case _ => true
  }

  predicate FollowsOk(s: State, f: FollowAt) {
    match f
    case InRunning(todo) => FollowOk(s, todo)
    case Resuming(b, todo) =>
      FollowOk(s, todo) && Follow(s, b) && Before(b, todo) && b.row.uid.None? && Operation(b.row.dir, b.id) !in s.jobs
    case Resumed(b, uid, todo) => FollowOk(s, todo) && Follow(s, b) && Before(b, todo) && HasItsJob(s, b, uid)
    case Found(b, seen, todo) =>
      && FollowOk(s, todo) && Follow(s, b) && Before(b, todo) && SeenOk(s, b, seen)
      && (b.row.uid.None? ==> Operation(b.row.dir, b.id) in s.jobs)
      && (b.row.uid.Some? ==> b.row.uid.value == seen.uid)
    case Bound(b, seen, todo) =>
      && FollowOk(s, todo) && Before(b, todo) && SeenOk(s, b, seen) && b.id in s.rows
      && s.rows[b.id] == b.row.(uid := Some(seen.uid)) && b.row.phase == Running
    case Stored(b, todo) => FollowOk(s, todo) && StoredOk(s, b)
    case StoredGone(b, todo) => FollowOk(s, todo) && StoredOk(s, b)
    case _ => true
  }

  predicate DeletesOk(s: State, d: DeleteAt) {
    match d
    case DeletingListed(todo) => DeletionsOk(s, todo)
    case DeletingHalf(todo, busy) =>
      DeletionsOk(s, todo) && forall id | id in s.rows && s.rows[id].phase == Running :: s.rows[id].server in busy
    case Deletions(todo, busy) => DeletionsHeld(s, todo, busy)
    case _ => true
  }

  /** A deletion to come that has a Job holds its server; one without finds its
      server held or free. */
  predicate Holds(s: State, b: Snap, busy: set<Server>) {
    !b.row.forgotten ==>
      if b.row.job.Some? then b.row.server in busy
      else b.id in s.rows ==> b.row.server in busy || NoneBusy(s, b.row.server)
  }

  predicate DeletionsHeld(s: State, todo: seq<Snap>, busy: set<Server>) {
    DeletionsOk(s, todo) && (!s.slipped ==> forall b | b in todo :: Holds(s, b, busy))
  }

  predicate ForgetsOk(s: State, d: DeleteAt) {
    match d
    case ForgetDone(b, todo, busy) =>
      DeletionsHeld(s, todo, busy) && WasDeleting(s, b) && Before(b, todo) && EndedAs(s, b, Complete)
    case ForgetBroken(b, todo, busy) =>
      && DeletionsHeld(s, todo, busy) && WasDeleting(s, b) && Before(b, todo) && EndedAs(s, b, Broken)
      && (!s.slipped ==> NoneElse(s, b) && b.row.server in busy && !b.row.forgotten)
    case Forgotten(b, todo, busy) => DeletionsHeld(s, todo, busy) && DoneForgetting(s, b) && Before(b, todo)
    case ForgottenGone(b, todo, busy) => DeletionsHeld(s, todo, busy) && DoneForgetting(s, b) && Before(b, todo)
    case Retrying(b, todo, busy) =>
      DeletionsHeld(s, todo, busy) && WasDeleting(s, b) && Before(b, todo) && EndedAs(s, b, Broken)
    case Submitting(b, todo, busy) =>
      && DeletionsHeld(s, todo, busy) && DeletionOk(s, b) && Before(b, todo) && !b.row.forgotten
      && (b.row.job.None? ==> b.row.server !in busy)
      && (!s.slipped ==> Holds(s, b, busy))
    case ForgetClaimed(b, todo, busy) =>
      && DeletionsHeld(s, todo, busy + {b.row.server}) && WasDeleting(s, b) && Before(b, todo) && NamedBy(s, b)
    case _ => true
  }

  predicate NamedBy(s: State, b: Snap) {
    !s.slipped ==>
      b.id in s.rows && s.rows[b.id].phase == Deleting && s.rows[b.id].job == Some(Forget(b.id)) && !s.rows[b.id].forgotten
  }

  predicate LeaderOk(s: State) {
    match s.leader
    case Off => true
    case Cleanups(c) => CleanupsOk(s, c)
    case Starts(p) => StartsOk(s, p)
    case Follows(f) => FollowsOk(s, f)
    case Deletes(d) => DeletesOk(s, d) && ForgetsOk(s, d)
  }

  ghost predicate Inv(s: State) { Sound(s) && LeaderOk(s) }

  // ---- what others may do under the leader ----

  /** A row on its way out stays as it is, or loses its Job or goes without that
      endangering anything. */
  predicate StaysOut(s: State, t: State, id: Id)
    requires id in s.rows
  {
    && (id in t.rows ==> t.rows[id] == s.rows[id] || (t.rows[id] == OnTheWayOut(s.rows[id]) && s.rows[id].job.Some?))
    && (Endangers(s, id) ==> id in t.rows && t.rows[id] == s.rows[id])
  }

  /** Everyone but the leader leaves running rows alone, takes no server in
      hand, starts no Job of a row, and queues new operations behind the old
      ones. */
  ghost predicate Mild(s: State, t: State) {
    && s.nextId <= t.nextId
    && t.created == s.created && s.stored <= t.stored && s.passed <= t.passed
    && (!t.slipped ==> !s.slipped)
    && (forall id | id in s.rows && s.rows[id].phase == Running :: id in t.rows && t.rows[id] == s.rows[id])
    && (forall id | id in t.rows ::
          if id in s.rows then
            && t.rows[id].server == s.rows[id].server && t.rows[id].dir == s.rows[id].dir
            && (Busy(t.rows[id]) ==> Busy(s.rows[id]))
            && (t.rows[id].phase == Pending ==> s.rows[id].phase == Pending)
            && (t.rows[id].phase == Running ==> s.rows[id].phase == Running)
            && (s.rows[id].phase == Deleting ==> t.rows[id].phase == Deleting)
            && (s.rows[id].forgotten ==> t.rows[id].forgotten)
          else s.nextId <= id && t.rows[id].phase == Pending)
    && (!t.slipped ==> forall id | id in s.rows && s.rows[id].phase == Deleting :: StaysOut(s, t, id))
    && (forall name: JobName | name in t.jobs && !name.Purge? ::
          && name in s.jobs && t.jobs[name].uid == s.jobs[name].uid
          && (s.jobs[name].outcome != Active ==> t.jobs[name] == s.jobs[name]))
    && (forall id | id in s.rows && s.rows[id].phase == Running && s.rows[id].uid.None? ::
          Operation(s.rows[id].dir, id) in s.jobs ==> Operation(s.rows[id].dir, id) in t.jobs)
  }

  predicate MildNumbers(s: State, t: State) {
    && s.nextId <= t.nextId && t.created == s.created && s.stored <= t.stored && s.passed <= t.passed
    && (!t.slipped ==> !s.slipped)
  }

  predicate MildRow(s: State, t: State, id: Id) {
    && (id in s.rows && s.rows[id].phase == Running ==> id in t.rows && t.rows[id] == s.rows[id])
    && (id in t.rows && id in s.rows ==>
          && t.rows[id].server == s.rows[id].server && t.rows[id].dir == s.rows[id].dir
          && (Busy(t.rows[id]) ==> Busy(s.rows[id]))
          && (t.rows[id].phase == Pending ==> s.rows[id].phase == Pending)
          && (t.rows[id].phase == Running ==> s.rows[id].phase == Running)
          && (s.rows[id].phase == Deleting ==> t.rows[id].phase == Deleting)
          && (s.rows[id].forgotten ==> t.rows[id].forgotten))
    && (id in t.rows && id !in s.rows ==> s.nextId <= id && t.rows[id].phase == Pending)
    && (!t.slipped && id in s.rows && s.rows[id].phase == Deleting ==> StaysOut(s, t, id))
  }

  predicate MildJob(s: State, t: State, name: JobName) {
    && (name in t.jobs && !name.Purge? ==>
          && name in s.jobs && t.jobs[name].uid == s.jobs[name].uid
          && (s.jobs[name].outcome != Active ==> t.jobs[name] == s.jobs[name]))
    && (name.Operation? && name in s.jobs && name.id in s.rows && s.rows[name.id].phase == Running
          && s.rows[name.id].uid.None? && s.rows[name.id].dir == name.dir ==>
          name in t.jobs)
  }

  /** Row by row and Job by Job. */
  lemma MildFrom(s: State, t: State)
    requires MildNumbers(s, t) && (forall id :: MildRow(s, t, id)) && (forall name :: MildJob(s, t, name))
    ensures Mild(s, t)
  {
    hide StaysOut, Busy;
    forall id | id in s.rows ensures MildRow(s, t, id) {}
    forall id | id in t.rows ensures MildRow(s, t, id) {}
    forall name | name in t.jobs ensures MildJob(s, t, name) {}
    forall id | id in s.rows ensures MildJob(s, t, Operation(s.rows[id].dir, id)) {}
  }

  /** OneRunning and OneBusy survive what takes no server in hand. */
  lemma MildKeepsOne(s: State, t: State)
    requires Mild(s, t) && OneRunning(s) && (!s.slipped ==> OneBusy(s))
    ensures OneRunning(t) && (!t.slipped ==> OneBusy(t))
  {}

  lemma EnqueueIsMild(s: State, server: Server, dir: Direction)
    requires Sound(s)
    ensures Mild(s, Enqueued(s, server, dir))
  {
    hide OneRunning, OneBusy, HistoryOk;
    forall id | id in s.rows ensures id < s.nextId { assert RowOk(s, id); }
  }

  lemma EnqueueKeepsSound(s: State, server: Server, dir: Direction)
    requires Sound(s)
    ensures Sound(Enqueued(s, server, dir))
  {
    hide OneRunning, OneBusy, Mild;
    var t := Enqueued(s, server, dir);
    forall id ensures HistoryOk(t, id) {
      assert HistoryOk(s, id);
      if id in s.rows { assert RowOk(s, id); }
    }
    forall id | id in t.rows ensures RowOk(t, id) {
      assert HistoryOk(s, id);
      if id in s.rows { assert RowOk(s, id); }
    }
    forall x | x in t.jobs ensures JobOk(t, x) {
      assert JobOk(s, x);
      if x.Operation? { assert HistoryOk(s, x.id); }
    }
    forall r | r in t.requests ensures RequestOk(t, r) {
      if r in s.requests { assert RequestOk(s, r); }
      if r.id in s.rows { assert RowOk(s, r.id); }
    }
    EnqueueIsMild(s, server, dir);
    MildKeepsOne(s, t);
  }

  lemma CancelIsMild(s: State, id: Id)
    requires Sound(s)
    ensures Mild(s, CalledOff(s, id))
  {
    hide Sound, Mild;
    var t := CalledOff(s, id);
    forall x ensures MildRow(s, t, x) {}
    forall name ensures MildJob(s, t, name) {}
    MildFrom(s, t);
  }

  lemma CancelKeepsSound(s: State, id: Id)
    requires Sound(s)
    ensures Sound(CalledOff(s, id))
  {
    hide OneRunning, OneBusy, Mild, CalledOff, RowOk, JobOk, HistoryOk, RequestOk;
    var t := CalledOff(s, id);
    forall x ensures HistoryOk(t, x) { CancelKeepsRow(s, id, x); }
    forall x | x in t.rows ensures RowOk(t, x) { CancelKeepsRow(s, id, x); }
    forall x | x in t.jobs ensures JobOk(t, x) { CancelKeepsJob(s, id, x); }
    forall r | r in t.requests ensures RequestOk(t, r) { CancelKeepsRequest(s, id, r); }
    CancelIsMild(s, id);
    MildKeepsOne(s, t);
  }

  lemma CancelKeepsRow(s: State, id: Id, x: Id)
    requires Sound(s)
    ensures var t := CalledOff(s, id); HistoryOk(t, x) && (x in t.rows ==> RowOk(t, x))
  {
    hide Sound;
    SoundRow(s, x);
    SoundRow(s, id);
  }

  lemma CancelKeepsJob(s: State, id: Id, x: JobName)
    requires Sound(s)
    ensures var t := CalledOff(s, id); x in t.jobs ==> JobOk(t, x)
  {
    hide Sound;
    SoundJob(s, x);
  }

  lemma CancelKeepsRequest(s: State, id: Id, r: Request)
    requires Sound(s)
    ensures var t := CalledOff(s, id); r in t.requests ==> RequestOk(t, r)
  {
    hide Sound;
    SoundRequest(s, r);
  }

  lemma AskKeeps(s: State, id: Id, elsewhere: bool)
    requires Sound(s)
    ensures Sound(Asked(s, id, elsewhere)) && Mild(s, Asked(s, id, elsewhere))
  {
    hide Sound, Mild;
    var t := Asked(s, id, elsewhere);
    forall r | r in t.requests ensures RequestOk(s, r) {
      SoundRequest(s, r);
      if r !in s.requests { SoundRow(s, id); }
    }
    SoundIgnores(s, t);
    SameIsMild(s, t);
  }

  lemma SoundRow(s: State, id: Id)
    requires Sound(s)
    ensures id in s.rows ==> RowOk(s, id)
    ensures HistoryOk(s, id)
  {}

  lemma SoundJob(s: State, name: JobName)
    requires Sound(s)
    ensures name in s.jobs ==> JobOk(s, name)
  {}

  lemma SoundRequest(s: State, r: Request)
    requires Sound(s)
    ensures r in s.requests ==> RequestOk(s, r)
  {}

  lemma ActIsMild(s: State, request: Request)
    requires Sound(s)
    ensures Mild(s, Acted(s, request))
  {
    hide Sound, MildRow, MildJob, MildNumbers, Mild, Acted;
    var t := Acted(s, request);
    forall id ensures MildRow(s, t, id) { ActMildRow(s, request, id); }
    forall name ensures MildJob(s, t, name) { ActMildJob(s, request, name); }
    ActMildNumbers(s, request);
    MildFrom(s, t);
  }

  lemma ActMildNumbers(s: State, request: Request)
    ensures MildNumbers(s, Acted(s, request))
  {
    hide Endangers, Rewritten;
  }

  lemma ActMildRow(s: State, request: Request, id: Id)
    requires Sound(s)
    ensures MildRow(s, Acted(s, request), id)
  {
    hide Sound, MaySubmit, HistoryOk, JobOk;
    SoundRequest(s, request);
    SoundRow(s, request.id);
  }

  lemma ActMildJob(s: State, request: Request, name: JobName)
    ensures MildJob(s, Acted(s, request), name)
  {
    hide Endangers;
  }

  lemma ActKeepsRow(s: State, request: Request, id: Id)
    requires Sound(s)
    ensures id in Acted(s, request).rows ==> RowOk(Acted(s, request), id)
    ensures HistoryOk(Acted(s, request), id)
  {
    hide Sound;
    SoundRow(s, id);
    SoundRow(s, request.id);
    SoundRequest(s, request);
  }

  lemma ActKeepsJob(s: State, request: Request, name: JobName)
    requires Sound(s)
    ensures name in Acted(s, request).jobs ==> JobOk(Acted(s, request), name)
  {
    hide Sound;
    SoundJob(s, name);
    SoundRequest(s, request);
  }

  lemma ActKeepsRequest(s: State, request: Request, r: Request)
    requires Sound(s)
    ensures r in Acted(s, request).requests ==> RequestOk(Acted(s, request), r)
  {
    hide Sound;
    SoundRequest(s, r);
    SoundRow(s, r.id);
  }

  lemma ActKeepsSound(s: State, request: Request)
    requires Sound(s)
    ensures Sound(Acted(s, request))
  {
    hide RowOk, JobOk, HistoryOk, RequestOk, OneRunning, OneBusy, Mild, Acted;
    var t := Acted(s, request);
    forall id ensures HistoryOk(t, id) { ActKeepsRow(s, request, id); }
    forall id | id in t.rows ensures RowOk(t, id) { ActKeepsRow(s, request, id); }
    forall x | x in t.jobs ensures JobOk(t, x) { ActKeepsJob(s, request, x); }
    forall r | r in t.requests ensures RequestOk(t, r) { ActKeepsRequest(s, request, r); }
    ActIsMild(s, request);
    MildKeepsOne(s, t);
  }

  lemma EndIsMild(s: State, name: JobName, outcome: Outcome)
    requires Sound(s)
    ensures Mild(s, Ended(s, name, outcome))
  {
    hide Sound, Mild;
    var t := Ended(s, name, outcome);
    forall x ensures MildRow(s, t, x) { hide MaySubmit; }
    forall x ensures MildJob(s, t, x) {}
    MildFrom(s, t);
  }

  lemma EndKeepsSound(s: State, name: JobName, outcome: Outcome)
    requires Sound(s)
    ensures Sound(Ended(s, name, outcome))
  {
    hide Sound, Mild, Ended, RowOk, JobOk, HistoryOk, RequestOk, OneRunning, OneBusy;
    var t := Ended(s, name, outcome);
    forall id ensures HistoryOk(t, id) { EndKeepsRow(s, name, outcome, id); }
    forall id | id in t.rows ensures RowOk(t, id) { EndKeepsRow(s, name, outcome, id); }
    forall x | x in t.jobs ensures JobOk(t, x) { EndKeepsJob(s, name, outcome, x); }
    forall r | r in t.requests ensures RequestOk(t, r) { EndKeepsRequest(s, name, outcome, r); }
    EndIsMild(s, name, outcome);
    SoundFrom(s, t);
  }

  lemma EndKeepsRow(s: State, name: JobName, outcome: Outcome, id: Id)
    requires Sound(s)
    ensures var t := Ended(s, name, outcome); HistoryOk(t, id) && (id in t.rows ==> RowOk(t, id))
  {
    hide Sound;
    SoundRow(s, id);
    SoundJob(s, name);
  }

  lemma EndKeepsJob(s: State, name: JobName, outcome: Outcome, x: JobName)
    requires Sound(s)
    ensures var t := Ended(s, name, outcome); x in t.jobs ==> JobOk(t, x)
  {
    hide Sound;
    SoundJob(s, x);
  }

  lemma EndKeepsRequest(s: State, name: JobName, outcome: Outcome, r: Request)
    requires Sound(s)
    ensures var t := Ended(s, name, outcome); r in t.requests ==> RequestOk(t, r)
  {
    hide Sound;
    SoundRequest(s, r);
  }

  lemma SoundFrom(s: State, t: State)
    requires Sound(s) && Mild(s, t)
    requires (forall id :: HistoryOk(t, id)) && (forall id | id in t.rows :: RowOk(t, id))
    requires (forall x | x in t.jobs :: JobOk(t, x)) && (forall r | r in t.requests :: RequestOk(t, r))
    ensures Sound(t)
  {
    hide RowOk, JobOk, HistoryOk, RequestOk, OneRunning, OneBusy, Mild;
    MildKeepsOne(s, t);
  }

  lemma VanishIsMild(s: State, name: JobName)
    requires Sound(s)
    ensures Mild(s, Vanished(s, name))
  {
    hide Sound, Mild;
    var t := Vanished(s, name);
    SoundJob(s, name);
    forall x ensures MildRow(s, t, x) { hide MaySubmit; }
    forall x ensures MildJob(s, t, x) { hide HistoryOk, RowOk; }
    MildFrom(s, t);
  }

  lemma VanishKeepsSound(s: State, name: JobName)
    requires Sound(s)
    ensures Sound(Vanished(s, name))
  {
    hide Sound, Mild, Vanished, RowOk, JobOk, HistoryOk, RequestOk, OneRunning, OneBusy;
    var t := Vanished(s, name);
    forall id ensures HistoryOk(t, id) { VanishKeepsRow(s, name, id); }
    forall id | id in t.rows ensures RowOk(t, id) { VanishKeepsRow(s, name, id); }
    forall x | x in t.jobs ensures JobOk(t, x) { VanishKeepsJob(s, name, x); }
    forall r | r in t.requests ensures RequestOk(t, r) { VanishKeepsRequest(s, name, r); }
    VanishIsMild(s, name);
    SoundFrom(s, t);
  }

  lemma VanishKeepsRow(s: State, name: JobName, id: Id)
    requires Sound(s)
    ensures var t := Vanished(s, name); HistoryOk(t, id) && (id in t.rows ==> RowOk(t, id))
  {
    hide Sound;
    SoundRow(s, id);
    SoundJob(s, name);
  }

  lemma VanishKeepsJob(s: State, name: JobName, x: JobName)
    requires Sound(s)
    ensures var t := Vanished(s, name); x in t.jobs ==> JobOk(t, x)
  {
    hide Sound;
    SoundJob(s, x);
  }

  lemma VanishKeepsRequest(s: State, name: JobName, r: Request)
    requires Sound(s)
    ensures var t := Vanished(s, name); r in t.requests ==> RequestOk(t, r)
  {
    hide Sound;
    SoundRequest(s, r);
  }

  /** Only a purge has a time to live: no Job of a row is ever removed by the
      cluster itself. */
  lemma OnlyAPurgeExpires(name: JobName)
    ensures Expires(name) <==> name.Purge?
  {}

  lemma ExpireKeeps(s: State, name: JobName)
    requires Sound(s)
    ensures Sound(Expired(s, name)) && Mild(s, Expired(s, name))
  {
    hide Expires;
    OnlyAPurgeExpires(name);
    var t := Expired(s, name);
    PurgesAside(s, t);
  }

  lemma PurgeKeeps(s: State, slug: string)
    requires Sound(s)
    ensures Sound(Purged(s, slug)) && Mild(s, Purged(s, slug))
  {
    PurgesAside(s, Purged(s, slug));
  }

  /** The Jobs of purges are nobody's but theirs. */
  lemma PurgesAside(s: State, t: State)
    requires Sound(s) && t == s.(jobs := t.jobs, nextUid := t.nextUid)
    requires forall name: JobName | !name.Purge? ::
      (name in t.jobs <==> name in s.jobs) && (name in s.jobs ==> t.jobs[name] == s.jobs[name])
    ensures Sound(t) && Mild(s, t)
  {
    hide OneRunning, OneBusy;
    SameOnes(s, t);
    forall id ensures HistoryOk(t, id) { SoundRow(s, id); }
    forall id | id in t.rows ensures RowOk(t, id) { SoundRow(s, id); }
    forall x | x in t.jobs ensures JobOk(t, x) { SoundJob(s, x); }
    forall r | r in t.requests ensures RequestOk(t, r) { SoundRequest(s, r); }
    forall id | id in s.rows ensures id < s.nextId { SoundRow(s, id); }
  }

  lemma OthersLeaveTheLeader(s: State, step: Step)
    requires !Mine(step) && !step.Crash?
    ensures ByOthers(s, step).leader == s.leader && ByOthers(s, step).passed == s.passed
  {
    hide Enqueued, CalledOff, Asked, Acted, Ended, Vanished, Expired, Purged;
    match step
    case Enqueue(server, dir) => EnqueueLeaves(s, server, dir);
    case Cancel(id) => CancelLeaves(s, id);
    case AskDelete(id, elsewhere) => AskLeaves(s, id, elsewhere);
    case ActDelete(request) => ActLeaves(s, request);
    case JobEnds(name, outcome) => EndLeaves(s, name, outcome);
    case JobVanishes(name) => VanishLeaves(s, name);
    case JobExpires(name) => ExpireLeaves(s, name);
    case PurgeServer(slug) => PurgeLeaves(s, slug);
    case _ =>
  }

  /** The leader's place and the operations it let pass. */
  predicate LeavesTheLeader(s: State, t: State) { t.leader == s.leader && t.passed == s.passed }

  lemma EnqueueLeaves(s: State, server: Server, dir: Direction)
    ensures LeavesTheLeader(s, Enqueued(s, server, dir))
  {}

  lemma CancelLeaves(s: State, id: Id)
    ensures LeavesTheLeader(s, CalledOff(s, id))
  {}

  lemma AskLeaves(s: State, id: Id, elsewhere: bool)
    ensures LeavesTheLeader(s, Asked(s, id, elsewhere))
  {}

  lemma ActLeaves(s: State, request: Request)
    ensures LeavesTheLeader(s, Acted(s, request))
  {
    hide Endangers, Rewritten;
  }

  lemma EndLeaves(s: State, name: JobName, outcome: Outcome)
    ensures LeavesTheLeader(s, Ended(s, name, outcome))
  {}

  lemma VanishLeaves(s: State, name: JobName)
    ensures LeavesTheLeader(s, Vanished(s, name))
  {}

  lemma ExpireLeaves(s: State, name: JobName)
    ensures LeavesTheLeader(s, Expired(s, name))
  {
    hide Expires;
  }

  lemma PurgeLeaves(s: State, slug: string)
    ensures LeavesTheLeader(s, Purged(s, slug))
  {}


  lemma OthersKeepInv(s: State, step: Step)
    requires Inv(s) && !Mine(step)
    ensures Inv(ByOthers(s, step))
  {
    hide Sound, LeaderOk, Mild, Enqueued, CalledOff, Asked, Acted, Ended, Vanished, Expired, Purged;
    if !step.Crash? { OthersLeaveTheLeader(s, step); }
    match step
    case Enqueue(server, dir) =>
      EnqueueIsMild(s, server, dir); EnqueueKeepsSound(s, server, dir); MildKeepsLeader(s, ByOthers(s, step));
    case Cancel(id) => CancelIsMild(s, id); CancelKeepsSound(s, id); MildKeepsLeader(s, ByOthers(s, step));
    case AskDelete(id, elsewhere) =>
      AskKeeps(s, id, elsewhere); MildKeepsLeader(s, ByOthers(s, step));
    case ActDelete(request) => ActIsMild(s, request); ActKeepsSound(s, request); MildKeepsLeader(s, ByOthers(s, step));
    case JobEnds(name, outcome) =>
      EndIsMild(s, name, outcome); EndKeepsSound(s, name, outcome); MildKeepsLeader(s, ByOthers(s, step));
    case JobVanishes(name) => VanishIsMild(s, name); VanishKeepsSound(s, name); MildKeepsLeader(s, ByOthers(s, step));
    case JobExpires(name) => ExpireKeeps(s, name); MildKeepsLeader(s, ByOthers(s, step));
    case PurgeServer(slug) => PurgeKeeps(s, slug); MildKeepsLeader(s, ByOthers(s, step));
    case SetTransfer(server, tr) => TransferKeeps(s, ByOthers(s, step));
    case _ => CrashKeeps(s);
  }

  lemma TransferKeeps(s: State, t: State)
    requires Inv(s) && t == s.(transfers := t.transfers)
    ensures Inv(t)
  {
    assert Sound(t) by { SoundIgnores(s, t); }
    assert Mild(s, t) by { SameIsMild(s, t); }
    MildKeepsLeader(s, t);
  }

  lemma SameIsMild(s: State, t: State)
    requires t == s.(transfers := t.transfers, requests := t.requests)
    ensures Mild(s, t)
  {}

  /** Soundness is of the rows, the Jobs, the requests and the history alone. */
  lemma SoundIgnores(s: State, t: State)
    requires Sound(s)
    requires t == s.(leader := t.leader, transfers := t.transfers, passed := t.passed, requests := t.requests)
    requires forall r | r in t.requests :: RequestOk(s, r)
    ensures Sound(t)
  {
    hide OneRunning, OneBusy;
    SameOnes(s, t);
    forall id ensures HistoryOk(t, id) { assert HistoryOk(s, id); }
    forall id | id in t.rows ensures RowOk(t, id) { assert RowOk(s, id); }
    forall x | x in t.jobs ensures JobOk(t, x) { assert JobOk(s, x); }
  }

  lemma SameOnes(s: State, t: State)
    requires t.rows == s.rows && t.slipped == s.slipped
    ensures OneRunning(t) == OneRunning(s) && OneBusy(t) == OneBusy(s)
  {}

  lemma CrashKeeps(s: State)
    requires Sound(s)
    ensures Inv(s.(leader := Off))
  {
    SoundIgnores(s, s.(leader := Off));
  }

  lemma MildQueue(s: State, t: State, todo: seq<Snap>, bound: Id, held: set<Server>)
    requires Mild(s, t) && QueueOk(s, todo, bound, held)
    ensures QueueOk(t, todo, bound, held)
  {}

  lemma MildBusy(s: State, t: State, busy: set<Server>)
    requires Mild(s, t)
    ensures CoversBusy(s, busy) ==> CoversBusy(t, busy)
    ensures (forall id | id in s.rows && s.rows[id].phase == Running :: s.rows[id].server in busy) ==>
              forall id | id in t.rows && t.rows[id].phase == Running :: t.rows[id].server in busy
  {}

  lemma MildHead(s: State, t: State, b: Snap)
    requires Mild(s, t) && Known(s, b)
    ensures Known(t, b)
    ensures NoneBusy(s, b.row.server) ==> NoneBusy(t, b.row.server)
    ensures FirstInLine(s, b) && t.passed == s.passed ==> FirstInLine(t, b)
  {}

  lemma MildRunning(s: State, t: State, b: Snap, seen: Job, uid: Uid)
    requires Mild(s, t)
    ensures Unobserved(s, b) ==> Unobserved(t, b)
    ensures HasItsJob(s, b, uid) ==> HasItsJob(t, b, uid)
    ensures Follow(s, b) ==> Follow(t, b)
    ensures SeenOk(s, b, seen) ==> SeenOk(t, b, seen)
    ensures StoredOk(s, b) ==> StoredOk(t, b)
    ensures Made(t, b.id) == Made(s, b.id)
  {}

  lemma MildFollow(s: State, t: State, todo: seq<Snap>)
    requires Mild(s, t) && FollowOk(s, todo)
    ensures FollowOk(t, todo)
  {}

  lemma MildWasDeleting(s: State, t: State, b: Snap, outcome: Outcome)
    requires Mild(s, t)
    ensures WasDeleting(s, b) ==> WasDeleting(t, b)
    ensures DoneForgetting(s, b) ==> DoneForgetting(t, b)
    ensures outcome != Active && EndedAs(s, b, outcome) ==> EndedAs(t, b, outcome)
    ensures NoneElse(s, b) ==> NoneElse(t, b)
  {}

  /** The leader still has the deletion's Job to submit, if it has one. */
  predicate StillToCome(s: State, b: Snap) { b.row.job.Some? && !b.row.forgotten ==> MaySubmit(s.leader, b.id) }

  lemma MildDeletion(s: State, t: State, b: Snap)
    requires Mild(s, t) && DeletionOk(s, b) && StillToCome(s, b)
    ensures DeletionOk(t, b)
  {
    hide MaySubmit;
    MildWasDeleting(s, t, b, Active);
  }

  lemma MildDeletions(s: State, t: State, todo: seq<Snap>)
    requires Mild(s, t) && DeletionsOk(s, todo) && forall b | b in todo :: StillToCome(s, b)
    ensures DeletionsOk(t, todo)
  {
    hide Mild, DeletionOk;
    forall b | b in todo ensures DeletionOk(t, b) { MildDeletion(s, t, b); }
  }

  lemma TodoIsToCome(s: State, todo: seq<Snap>)
    requires s.leader.Deletes? && forall b | b in todo :: b in TodoOf(s.leader.d)
    ensures forall b | b in todo :: StillToCome(s, b)
  {}

  lemma MildKeepsCleanupsOk(s: State, t: State, c: CleanupAt)
    requires CleanupsOk(s, c) && Mild(s, t)
    ensures CleanupsOk(t, c)
  {
    hide QueueOk, CoversBusy, NoneBusy, FirstInLine, FollowOk, DeletionsOk, DeletionOk, DoneForgetting, Before, SeenOk,
         StoredOk, Mild;
    match c
    case Cleaning(todo) => forall b | b in todo ensures StoredOk(t, b) { MildRunning(s, t, b, Job(0, Active), 0); }
    case CleaningGone(c, todo) =>
      MildRunning(s, t, c, Job(0, Active), 0);
      forall b | b in todo ensures StoredOk(t, b) { MildRunning(s, t, b, Job(0, Active), 0); }
    case _ =>
  }

  lemma MildWaiting(s: State, t: State, todo: seq<Snap>, bound: Id, busy: set<Server>)
    requires Mild(s, t) && t.passed == s.passed && Waiting(s, todo, bound, busy)
    ensures Waiting(t, todo, bound, busy)
  {
    hide QueueOk, CoversBusy, Mild;
    MildQueue(s, t, todo, bound, busy);
    MildBusy(s, t, busy);
  }

  lemma MildKeepsStartsOk(s: State, t: State, p: StartAt)
    requires StartsOk(s, p) && Mild(s, t) && t.passed == s.passed
    ensures StartsOk(t, p)
  {
    hide QueueOk, Waiting, CoversBusy, NoneBusy, FirstInLine, Before, Known, Unobserved, HasItsJob, Mild, Made;
    match p
    case PendingListed(todo, bound) => MildQueue(s, t, todo, bound, {});
    case PendingHalf(todo, bound, busy) => MildQueue(s, t, todo, bound, busy); MildBusy(s, t, busy);
    case Queue(todo, bound, busy) => MildWaiting(s, t, todo, bound, busy);
    case Head(b, todo, bound, busy) =>
      MildQueue(s, t, todo, bound, busy); MildWaiting(s, t, todo, bound, busy); MildHead(s, t, b);
    case Claimed(b, todo, bound, busy) => MildWaiting(s, t, todo, bound, busy); MildRunning(s, t, b, Job(0, Active), 0);
    case Submitted(b, uid, todo, bound, busy) =>
      MildWaiting(s, t, todo, bound, busy); MildRunning(s, t, b, Job(0, Active), uid);
    case _ =>
  }

  lemma MildKeepsFollowsOk(s: State, t: State, f: FollowAt)
    requires FollowsOk(s, f) && Mild(s, t)
    ensures FollowsOk(t, f)
  {
    hide FollowOk, Before, SeenOk, StoredOk, HasItsJob;
    match f
    case InRunning(todo) => MildFollow(s, t, todo);
    case Resuming(b, todo) => MildFollow(s, t, todo); MildRunning(s, t, b, Job(0, Active), 0);
    case Resumed(b, uid, todo) => MildFollow(s, t, todo); MildRunning(s, t, b, Job(0, Active), uid);
    case Found(b, seen, todo) => MildFollow(s, t, todo); MildRunning(s, t, b, seen, 0);
    case Bound(b, seen, todo) => MildFollow(s, t, todo); MildRunning(s, t, b, seen, 0);
    case Stored(b, todo) => MildFollow(s, t, todo); MildRunning(s, t, b, Job(0, Active), 0);
    case StoredGone(b, todo) => MildFollow(s, t, todo); MildRunning(s, t, b, Job(0, Active), 0);
    case _ =>
  }

  lemma MildHolds(s: State, t: State, b: Snap, busy: set<Server>)
    requires Mild(s, t) && Known(s, b) && Holds(s, b, busy)
    ensures Holds(t, b, busy)
  {
    hide Mild, NoneBusy;
    if b.id in t.rows { OldRow(s, t, b.id); }
    MildHead(s, t, b);
  }

  lemma OldRow(s: State, t: State, id: Id)
    requires Mild(s, t) && id in t.rows && id < s.nextId
    ensures id in s.rows
  {}

  lemma MildHeld(s: State, t: State, todo: seq<Snap>, busy: set<Server>)
    requires Mild(s, t) && DeletionsHeld(s, todo, busy) && forall b | b in todo :: StillToCome(s, b)
    ensures DeletionsHeld(t, todo, busy)
  {
    hide Mild, Holds, StillToCome, DeletionOk;
    MildDeletions(s, t, todo);
    if !t.slipped {
      NotSlipped(s, t);
      forall b | b in todo ensures Holds(t, b, busy) {
        assert Known(s, b) by { DeletionKnown(s, b); }
        MildHolds(s, t, b, busy);
      }
    }
  }

  lemma DeletionKnown(s: State, b: Snap)
    requires DeletionOk(s, b)
    ensures Known(s, b)
  {}

  lemma NotSlipped(s: State, t: State)
    requires Mild(s, t) && !t.slipped
    ensures !s.slipped
  {}

  lemma MildKeepsDeletesOk(s: State, t: State, d: DeleteAt)
    requires DeletesOk(s, d) && Mild(s, t) && s.leader == Deletes(d)
    ensures DeletesOk(t, d)
  {
    hide CoversBusy, DeletionsOk, DeletionsHeld, Mild, StillToCome;
    TodoIsToCome(s, TodoOf(d));
    match d
    case DeletingListed(todo) => MildDeletions(s, t, todo);
    case DeletingHalf(todo, busy) => MildDeletions(s, t, todo); MildBusy(s, t, busy);
    case Deletions(todo, busy) => MildHeld(s, t, todo, busy);
    case _ =>
  }

  lemma MildNamed(s: State, t: State, b: Snap)
    requires Mild(s, t) && NamedBy(s, b) && MaySubmit(s.leader, b.id)
    ensures NamedBy(t, b)
  {
    hide MaySubmit;
  }

  lemma MildKeepsForgetsOk(s: State, t: State, d: DeleteAt)
    requires ForgetsOk(s, d) && Mild(s, t) && s.leader == Deletes(d)
    ensures ForgetsOk(t, d)
  {
    hide NoneBusy, DeletionsHeld, DeletionsOk, DeletionOk, DoneForgetting, WasDeleting, NoneElse, Holds, Before,
         EndedAs, NamedBy,
         Known, Mild, StillToCome;
    TodoIsToCome(s, TodoOf(d));
    if !t.slipped { NotSlipped(s, t); }
    match d
    case ForgetDone(b, todo, busy) => MildHeld(s, t, todo, busy); MildWasDeleting(s, t, b, Complete);
    case ForgetBroken(b, todo, busy) => MildHeld(s, t, todo, busy); MildWasDeleting(s, t, b, Broken);
    case Forgotten(b, todo, busy) => MildHeld(s, t, todo, busy); MildWasDeleting(s, t, b, Active);
    case ForgottenGone(b, todo, busy) => MildHeld(s, t, todo, busy); MildWasDeleting(s, t, b, Active);
    case Retrying(b, todo, busy) => MildHeld(s, t, todo, busy); MildWasDeleting(s, t, b, Broken);
    case Submitting(b, todo, busy) =>
      MildHeld(s, t, todo, busy);
      SubmitIsToCome(s, b, todo, busy);
      MildDeletion(s, t, b);
      DeletionKnown(s, b);
      if !t.slipped { MildHolds(s, t, b, busy); }
    case ForgetClaimed(b, todo, busy) =>
      MildHeld(s, t, todo, busy + {b.row.server}); MildWasDeleting(s, t, b, Active); MildNamed(s, t, b);
    case _ =>
  }

  lemma SubmitIsToCome(s: State, b: Snap, todo: seq<Snap>, busy: set<Server>)
    requires s.leader == Deletes(Submitting(b, todo, busy))
    ensures StillToCome(s, b)
  {}

  lemma MildKeepsLeader(s: State, t: State)
    requires LeaderOk(s) && Mild(s, t) && t.leader == s.leader && t.passed == s.passed
    ensures LeaderOk(t)
  {
    hide CleanupsOk, StartsOk, FollowsOk, DeletesOk, ForgetsOk, Mild;
    match s.leader
    case Off =>
    case Cleanups(c) => MildKeepsCleanupsOk(s, t, c);
    case Starts(p) => MildKeepsStartsOk(s, t, p);
    case Follows(f) => MildKeepsFollowsOk(s, t, f);
    case Deletes(d) => MildKeepsDeletesOk(s, t, d); MildKeepsForgetsOk(s, t, d);
  }
}
