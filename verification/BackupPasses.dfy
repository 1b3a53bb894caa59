/** Every step of the leader keeps the invariant of BackupSafety, stage by
    stage of its pass. */
module BackupPasses {
  import opened Text
  import opened BackupJobs
  import opened BackupManager
  import opened BackupSafety

  // ---- what the leader's writes keep ----

  lemma FinishKeeps(s: State, id: Id, r: Result)
    requires Sound(s)
    ensures var t := Completed(s, id, Pending, Failed, {}, r); Sound(t) && Mild(s, t) && t.passed == s.passed
  {
    hide OneRunning, OneBusy, Mild;
    FinishIsMild(s, id, r);
    var t := Completed(s, id, Pending, Failed, {}, r);
    SoundRow(s, id);
    forall x ensures HistoryOk(t, x) { SoundRow(s, x); }
    forall x | x in t.rows ensures RowOk(t, x) { SoundRow(s, x); }
    forall x | x in t.jobs ensures JobOk(t, x) { SoundJob(s, x); }
    forall q | q in t.requests ensures RequestOk(t, q) { SoundRequest(s, q); }
    MildKeepsOne(s, t);
  }

  lemma FinishIsMild(s: State, id: Id, r: Result)
    ensures Mild(s, Completed(s, id, Pending, Failed, {}, r))
  {
    hide Mild, Endangers;
    var t := Completed(s, id, Pending, Failed, {}, r);
    forall x ensures MildRow(s, t, x) {}
    forall name ensures MildJob(s, t, name) {}
    MildFrom(s, t);
  }

  lemma SettleKeeps(s: State, b: Snap, seen: Job, pruned: set<Id>, r: Result, to: Phase)
    requires Sound(s) && to == if seen.outcome == Complete then Succeeded else Failed
    requires b.id in s.rows && s.rows[b.id] == b.row.(uid := Some(seen.uid)) && SeenOk(s, b, seen) && seen.outcome != Active
    requires Prunable(s, b, pruned)
    ensures Sound(Completed(s, b.id, Running, to, pruned, r))
  {
    hide OneRunning, OneBusy;
    var t := Completed(s, b.id, Running, to, pruned, r);
    SoundRow(s, b.id);
    forall x ensures HistoryOk(t, x) { SoundRow(s, x); }
    forall x | x in t.rows ensures RowOk(t, x) { SoundRow(s, x); }
    forall x | x in t.jobs ensures JobOk(t, x) { SoundJob(s, x); }
    forall q | q in t.requests ensures RequestOk(t, q) { SoundRequest(s, q); }
    SettleKeepsOne(s, b, pruned, r, to);
  }

  lemma SettleKeepsOne(s: State, b: Snap, pruned: set<Id>, r: Result, to: Phase)
    requires OneRunning(s) && (!s.slipped ==> OneBusy(s)) && to in {Succeeded, Failed}
    requires Prunable(s, b, pruned)
    ensures var t := Completed(s, b.id, Running, to, pruned, r); OneRunning(t) && (!t.slipped ==> OneBusy(t))
  {}

  /** A row taken in hand: the one thing that could break the exclusion. */
  lemma HandKeepsOne(s: State, t: State, id: Id)
    requires OneRunning(s) && (!s.slipped ==> OneBusy(s)) && id in s.rows
    requires id in t.rows && t.slipped == s.slipped && t.rows == s.rows[id := t.rows[id]] && t.rows[id].server == s.rows[id].server
    requires NoneBusy(s, s.rows[id].server) || (t.rows[id].phase != Running && s.slipped)
    ensures OneRunning(t) && (!t.slipped ==> OneBusy(t))
  {}

  function ClaimedRow(s: State, b: Snap): State
    requires b.id in s.rows
  {
    s.(rows := s.rows[b.id := s.rows[b.id].(phase := Running, job := Some(Operation(b.row.dir, b.id)))])
  }

  lemma ClaimKeeps(s: State, b: Snap)
    requires Sound(s) && Known(s, b) && b.id in s.rows && s.rows[b.id].phase == Pending && NoneBusy(s, b.row.server)
    ensures Sound(ClaimedRow(s, b))
  {
    hide OneRunning, OneBusy, NoneBusy;
    var t := ClaimedRow(s, b);
    SoundRow(s, b.id);
    forall x ensures HistoryOk(t, x) { SoundRow(s, x); }
    forall x | x in t.rows ensures RowOk(t, x) { SoundRow(s, x); }
    forall x | x in t.jobs ensures JobOk(t, x) { SoundJob(s, x); }
    forall q | q in t.requests ensures RequestOk(t, q) { SoundRequest(s, q); }
    HandKeepsOne(s, t, b.id);
  }

  /** The Create of an operation's Job, its first. */
  lemma SubmitKeeps(s: State, b: Snap, r: Result)
    requires Sound(s) && Unobserved(s, b) && Made(s, b.id) == 0
    ensures Sound(Submit(s, Operation(b.row.dir, b.id), r))
  {
    hide OneRunning, OneBusy;
    var name := Operation(b.row.dir, b.id);
    var t := Submit(s, name, r);
    SoundRow(s, b.id);
    SoundJob(s, name);
    forall x ensures HistoryOk(t, x) { SoundRow(s, x); }
    forall x | x in t.rows ensures RowOk(t, x) { SoundRow(s, x); }
    forall x | x in t.jobs ensures JobOk(t, x) { SoundJob(s, x); }
    forall q | q in t.requests ensures RequestOk(t, q) { SoundRequest(s, q); }
    SameOnes(s, t);
  }

  /** A Create leaves the rows alone, and the leader where it is. */
  lemma SubmitLeaves(s: State, name: JobName, r: Result)
    ensures var t := Submit(s, name, r);
      && t.rows == s.rows && t.nextId == s.nextId && t.stored == s.stored && t.slipped == s.slipped && t.passed == s.passed
      && t.requests == s.requests
  {}

  lemma ForgetKeeps(s: State, b: Snap, r: Result)
    requires Sound(s)
    requires NamedBy(s, b)
    ensures Sound(Submit(s, Forget(b.id), r))
  {
    hide OneRunning, OneBusy;
    var t := Submit(s, Forget(b.id), r);
    forall x ensures HistoryOk(t, x) { SoundRow(s, x); }
    forall x | x in t.rows ensures RowOk(t, x) { SoundRow(s, x); }
    forall x | x in t.jobs ensures JobOk(t, x) { SoundJob(s, x); }
    forall q | q in t.requests ensures RequestOk(t, q) { SoundRequest(s, q); }
    SameOnes(s, t);
  }

  lemma ObserveKeeps(s: State, b: Snap, uid: Uid, r: Result)
    requires Sound(s) && HasItsJob(s, b, uid)
    ensures Sound(Observed(s, b.id, uid, r))
  {
    hide OneRunning, OneBusy;
    var t := Observed(s, b.id, uid, r);
    SoundRow(s, b.id);
    SoundJob(s, Operation(b.row.dir, b.id));
    forall x ensures HistoryOk(t, x) { SoundRow(s, x); }
    forall x | x in t.rows ensures RowOk(t, x) { SoundRow(s, x); }
    forall x | x in t.jobs ensures JobOk(t, x) { SoundJob(s, x); }
    forall q | q in t.requests ensures RequestOk(t, q) { SoundRequest(s, q); }
    ObserveKeepsOne(s, b.id, uid, r);
  }

  lemma ObserveKeepsOne(s: State, id: Id, uid: Uid, r: Result)
    requires OneRunning(s) && (!s.slipped ==> OneBusy(s))
    ensures var t := Observed(s, id, uid, r); OneRunning(t) && (!t.slipped ==> OneBusy(t))
  {}

  /** Only the Job of a stored operation, or of a deletion, is ever deleted. */
  lemma RemoveKeeps(s: State, name: Option<JobName>, r: Result)
    requires Sound(s)
    requires name.Some? && name.value.Operation? ==> name.value.id in s.stored
    ensures Sound(RemoveJob(s, name, r)) && Mild(s, RemoveJob(s, name, r))
  {
    hide OneRunning, OneBusy, Mild;
    var t := RemoveJob(s, name, r);
    RemoveIsMild(s, name, r);
    hide Sound, RowOk, JobOk, HistoryOk, RequestOk, RemoveJob;
    forall x ensures HistoryOk(t, x) { RemoveKeepsRow(s, name, r, x); }
    forall x | x in t.rows ensures RowOk(t, x) { RemoveKeepsRow(s, name, r, x); }
    forall x | x in t.jobs ensures JobOk(t, x) { RemoveKeepsJob(s, name, r, x); }
    forall q | q in t.requests ensures RequestOk(t, q) { RemoveKeepsJob(s, name, r, Forget(0)); SoundRequest(s, q); }
    SoundFrom(s, t);
  }

  lemma RemoveKeepsRow(s: State, name: Option<JobName>, r: Result, x: Id)
    requires Sound(s)
    requires name.Some? && name.value.Operation? ==> name.value.id in s.stored
    ensures var t := RemoveJob(s, name, r); HistoryOk(t, x) && (x in t.rows ==> RowOk(t, x))
  {
    hide Sound;
    SoundRow(s, x);
  }

  lemma RemoveKeepsJob(s: State, name: Option<JobName>, r: Result, x: JobName)
    requires Sound(s)
    ensures var t := RemoveJob(s, name, r);
      t.requests == s.requests && t.rows == s.rows && t.nextId == s.nextId && (x in t.jobs ==> JobOk(t, x))
  {
    hide Sound;
    SoundJob(s, x);
  }

  lemma RemoveIsMild(s: State, name: Option<JobName>, r: Result)
    requires Sound(s)
    requires name.Some? && name.value.Operation? ==> name.value.id in s.stored
    ensures Mild(s, RemoveJob(s, name, r))
  {
    hide Sound, Mild, Endangers;
    var t := RemoveJob(s, name, r);
    if name.Some? && name.value.Operation? { SoundRow(s, name.value.id); }
    forall x ensures MildRow(s, t, x) { hide RowOk, HistoryOk; }
    forall x ensures MildJob(s, t, x) {}
    MildFrom(s, t);
  }

  lemma AcknowledgeKeeps(s: State, b: Snap, r: Result)
    requires Sound(s)
    ensures Sound(Acknowledged(s, b, r)) && Mild(s, Acknowledged(s, b, r))
  {
    hide OneRunning, OneBusy, Mild;
    AcknowledgeIsMild(s, b, r);
    var t := Acknowledged(s, b, r);
    SoundRow(s, b.id);
    forall x ensures HistoryOk(t, x) { SoundRow(s, x); }
    forall x | x in t.rows ensures RowOk(t, x) { SoundRow(s, x); }
    forall x | x in t.jobs ensures JobOk(t, x) { SoundJob(s, x); }
    forall q | q in t.requests ensures RequestOk(t, q) { SoundRequest(s, q); }
    MildKeepsOne(s, t);
  }

  lemma AcknowledgeIsMild(s: State, b: Snap, r: Result)
    ensures Mild(s, Acknowledged(s, b, r))
  {
    hide Mild, Endangers;
    var t := Acknowledged(s, b, r);
    forall x ensures MildRow(s, t, x) {}
    forall name ensures MildJob(s, t, name) {}
    MildFrom(s, t);
  }

  /** A change to one row that is on its way out. */
  lemma DeletingRowKeeps(s: State, t: State, id: Id)
    requires Sound(s) && id in s.rows && s.rows[id].phase == Deleting
    requires id in t.rows && t == s.(rows := s.rows[id := t.rows[id]])
    requires t.rows[id] == s.rows[id].(job := t.rows[id].job, forgotten := t.rows[id].forgotten)
    requires t.rows[id].job in {None, Some(Forget(id))}
    requires !s.slipped ==> (t.rows[id].job == s.rows[id].job || NoneElse(s, Snap(id, s.rows[id])))
    requires !s.slipped && Forget(id) in s.jobs && s.jobs[Forget(id)].outcome == Active ==>
      t.rows[id].job == Some(Forget(id)) && !t.rows[id].forgotten
    ensures Sound(t)
  {
    hide OneRunning, OneBusy, NoneElse;
    SoundRow(s, id);
    forall x ensures HistoryOk(t, x) { SoundRow(s, x); }
    forall x | x in t.rows ensures RowOk(t, x) { SoundRow(s, x); }
    forall x | x in t.jobs ensures JobOk(t, x) { SoundJob(s, x); }
    forall q | q in t.requests ensures RequestOk(t, q) { SoundRequest(s, q); }
    DeletingRowKeepsOne(s, t, id);
  }

  lemma DeletingRowKeepsOne(s: State, t: State, id: Id)
    requires OneRunning(s) && (!s.slipped ==> OneBusy(s)) && id in s.rows && s.rows[id].phase == Deleting
    requires id in t.rows && t == s.(rows := s.rows[id := t.rows[id]])
    requires t.rows[id] == s.rows[id].(job := t.rows[id].job, forgotten := t.rows[id].forgotten)
    requires !s.slipped ==> (t.rows[id].job == s.rows[id].job || NoneElse(s, Snap(id, s.rows[id])))
    ensures OneRunning(t) && (!t.slipped ==> OneBusy(t))
  {}

  lemma DropKeeps(s: State, b: Snap)
    requires Sound(s) && DoneForgetting(s, b)
    ensures Sound(s.(rows := s.rows - {b.id}))
  {
    hide OneRunning, OneBusy;
    var t := s.(rows := s.rows - {b.id});
    SoundRow(s, b.id);
    forall x ensures HistoryOk(t, x) { SoundRow(s, x); }
    forall x | x in t.rows ensures RowOk(t, x) { SoundRow(s, x); }
    forall x | x in t.jobs ensures JobOk(t, x) { SoundJob(s, x); }
    forall q | q in t.requests ensures RequestOk(t, q) { SoundRequest(s, q); }
    DropKeepsOne(s, b.id);
  }

  lemma DropKeepsOne(s: State, id: Id)
    requires OneRunning(s) && (!s.slipped ==> OneBusy(s))
    ensures var t := s.(rows := s.rows - {id}); OneRunning(t) && (!t.slipped ==> OneBusy(t))
  {}

  // ---- the leader's steps: processCleanup ----

  /** Moving the leader on, or noting operations let pass, leaves what
      Mild speaks of alone. */
  lemma MildAcross(s: State, t: State, u: State)
    requires Mild(s, t) && t.passed <= u.passed
    requires u == t.(leader := u.leader, passed := u.passed)
    ensures Mild(s, u)
  {}

  lemma SelfMild(s: State)
    ensures Mild(s, s)
  {}

  lemma SoundRequests(s: State)
    requires Sound(s)
    ensures forall r | r in s.requests :: RequestOk(s, r)
  {}

  /** A step that changes no row and no Job: the leader only moved. */
  lemma Moved(s: State, l: Leader)
    requires Sound(s)
    ensures Sound(s.(leader := l)) && Mild(s, s.(leader := l))
  {
    hide Sound, Mild;
    SoundRequests(s);
    SoundIgnores(s, s.(leader := l));
    SelfMild(s);
    MildAcross(s, s, s.(leader := l));
  }

  lemma MovedAfter(s: State, t: State, u: State)
    requires Sound(t) && Mild(s, t) && t.passed <= u.passed && u == t.(leader := u.leader, passed := u.passed)
    ensures Sound(u) && Mild(s, u)
  {
    hide Sound, Mild;
    SoundRequests(t);
    SoundIgnores(t, u);
    MildAcross(s, t, u);
  }

  lemma AllStored(s: State, t: State, todo: seq<Snap>)
    requires Mild(s, t) && forall b | b in todo :: StoredOk(s, b)
    ensures forall b | b in todo :: StoredOk(t, b)
  {
    forall b | b in todo ensures StoredOk(t, b) { MildRunning(s, t, b, Job(0, Active), 0); }
  }

  lemma ListedCleanup(s: State, listed: seq<Snap>)
    requires Sound(s) && ListsCleanup(listed, s.rows)
    ensures forall b | b in listed :: StoredOk(s, b)
  {
    forall b | b in listed ensures StoredOk(s, b) { SoundRow(s, b.id); }
  }

  lemma CleanupSkips(s: State, todo: seq<Snap>, l: Leader)
    requires Sound(s) && forall b | b in todo :: StoredOk(s, b)
    ensures var u := s.(leader := l); Sound(u) && forall b | b in todo :: StoredOk(u, b)
  {
    hide Sound, Mild, StoredOk;
    Moved(s, l);
    AllStored(s, s.(leader := l), todo);
  }

  lemma CleanupDeletes(s: State, todo: seq<Snap>, r: Result, l: Leader)
    requires Sound(s) && todo != [] && forall b | b in todo :: StoredOk(s, b)
    ensures var u := RemoveJob(s, todo[0].row.job, r).(leader := l);
      Sound(u) && forall b | b in todo :: StoredOk(u, b)
  {
    hide Sound, Mild, StoredOk, RemoveJob;
    var t := RemoveJob(s, todo[0].row.job, r);
    StoredJob(s, todo[0]);
    RemoveKeeps(s, todo[0].row.job, r);
    MovedAfter(s, t, t.(leader := l));
    AllStored(s, t.(leader := l), todo);
  }

  lemma CleanupAcknowledges(s: State, b: Snap, todo: seq<Snap>, r: Result, l: Leader)
    requires Sound(s) && forall b | b in todo :: StoredOk(s, b)
    ensures var u := Acknowledged(s, b, r).(leader := l);
      Sound(u) && forall b | b in todo :: StoredOk(u, b)
  {
    hide Sound, Mild, StoredOk, Acknowledged;
    var t := Acknowledged(s, b, r);
    AcknowledgeKeeps(s, b, r);
    MovedAfter(s, t, t.(leader := l));
    AllStored(s, t.(leader := l), todo);
  }

  lemma CleanupKeeps(s: State, c: CleanupAt, step: Step)
    requires Inv(s) && s.leader == Cleanups(c)
    ensures Inv(CleanupStep(s, c, step))
  {
    hide Sound, Mild, StoredOk, ListsCleanup, RemoveJob, Acknowledged;
    var u := CleanupStep(s, c, step);
    match (c, step)
    case (AtCleanup, List(listed)) =>
      if ListsCleanup(listed, s.rows) {
        ListedCleanup(s, listed);
        CleanupSkips(s, listed, u.leader);
      }
    case (Cleaning(todo), Skip) => CleanupSkips(s, todo, u.leader);
    case (Cleaning(todo), DeleteJob(r)) => if todo != [] { CleanupDeletes(s, todo, r, u.leader); }
    case (CleaningGone(b, todo), Acknowledge(r)) => CleanupAcknowledges(s, b, todo, r, u.leader);
    case _ =>
  }

  lemma StoredJob(s: State, b: Snap)
    requires StoredOk(s, b)
    ensures b.row.job == Some(Operation(b.row.dir, b.id)) && b.id in s.stored
  {}

  // ---- processPending ----

  lemma ListedPending(s: State, listed: seq<Snap>, u: State)
    requires Sound(s) && Lists(listed, s.rows, Pending)
    requires u == s.(leader := u.leader, passed := {})
    ensures Sound(u) && QueueOk(u, listed, s.nextId, {}) && Behind(u, listed)
  {
    hide OneRunning, OneBusy;
    SoundRequests(s);
    SoundIgnores(s, u);
    forall b | b in listed ensures Known(u, b) && b.id < s.nextId { SoundRow(s, b.id); }
    forall id | id in u.rows && u.rows[id].phase == Pending ensures exists b :: b in listed && b.id == id {
      assert Snap(id, s.rows[id]) in listed;
    }
  }

  lemma WiderQueue(s: State, todo: seq<Snap>, bound: Id, held: set<Server>, more: set<Server>)
    requires QueueOk(s, todo, bound, held) && held <= more
    ensures QueueOk(s, todo, bound, more)
  {}

  lemma ReadsCover(s: State, busy: set<Server>)
    ensures forall id | id in s.rows && s.rows[id].phase == Running :: s.rows[id].server in ServersOf(s.rows, Running)
    ensures (forall id | id in s.rows && s.rows[id].phase == Running :: s.rows[id].server in busy) ==>
              CoversBusy(s, busy + ServersOf(s.rows, Deleting))
  {}

  /** The front of the list is done with: finished, passed over, or its server
      reserved. */
  lemma PopQueue(s: State, t: State, todo: seq<Snap>, bound: Id, busy: set<Server>, more: set<Server>)
    requires QueueOk(s, todo, bound, busy) && todo != [] && Mild(s, t) && busy <= more
    requires var b := todo[0];
      && (b.id in t.rows && t.rows[b.id].phase == Pending ==> b.row.server in more || b.id in t.passed)
      && t.passed <= s.passed + {b.id}
    requires Behind(s, todo)
    ensures QueueOk(t, todo[1..], bound, more) && Behind(t, todo[1..])
    ensures Known(t, todo[0]) && todo[0].id < bound && Before(todo[0], todo[1..])
  {
    MildQueue(s, t, todo, bound, busy);
    assert todo[0] in todo;
    forall p, b | p in t.passed && b in todo[1..] ensures p < b.id { assert b in todo; }
    forall id | id in t.rows && t.rows[id].phase == Pending && id < bound
      ensures (exists b :: b in todo[1..] && b.id == id) || t.rows[id].server in more || id in t.passed
    {
      if exists b :: b in todo && b.id == id {
        var b :| b in todo && b.id == id;
        if b != todo[0] { assert b in todo[1..]; }
      }
    }
  }

  lemma TakesTheFirst(s: State, todo: seq<Snap>, bound: Id, busy: set<Server>)
    requires Waiting(s, todo, bound, busy) && todo != [] && todo[0].row.server !in busy
    ensures NoneBusy(s, todo[0].row.server) && FirstInLine(s, todo[0])
  {
    assert todo[0] in todo;
    assert forall b | b in todo :: todo[0].id <= b.id;
  }

  lemma QueueKeeps(s: State, todo: seq<Snap>, bound: Id, busy: set<Server>, step: Step)
    requires Sound(s) && Waiting(s, todo, bound, busy)
    requires s.leader == Starts(Queue(todo, bound, busy)) && todo != []
    ensures Inv(QueueStep(s, todo[0], todo[1..], bound, busy, step))
  {
    hide Sound, Mild, QueueOk, CoversBusy, Behind, Completed, NoneBusy, FirstInLine, HeldBack, Known, Before;
    var u := QueueStep(s, todo[0], todo[1..], bound, busy, step);
    match step
    case FinishEarly(r) =>
      FinishKeeps(s, todo[0].id, r);
      MovedAfter(s, Completed(s, todo[0].id, Pending, Failed, {}, r), u);
      PopQueue(s, u, todo, bound, busy, busy);
      MildBusy(s, u, busy);
    case Skip =>
      if todo[0].row.server in busy {
        Moved(s, u.leader);
        PopQueue(s, u, todo, bound, busy, busy);
        MildBusy(s, u, busy);
      }
    case PassOver =>
      if u != s {
        SelfMild(s);
        MovedAfter(s, s, u);
        PopQueue(s, u, todo, bound, busy, busy);
        MildBusy(s, u, busy);
      }
    case Take =>
      if u != s {
        var more := busy + {todo[0].row.server};
        TakesTheFirst(s, todo, bound, busy);
        Moved(s, u.leader);
        PopQueue(s, u, todo, bound, busy, more);
        MildBusy(s, u, busy);
        WiderCover(u, busy, more);
        assert Known(s, todo[0]) by { QueueKnows(s, todo, bound, busy); }
        MildHead(s, u, todo[0]);
      }
    case _ =>
  }

  lemma QueueKnows(s: State, todo: seq<Snap>, bound: Id, busy: set<Server>)
    requires QueueOk(s, todo, bound, busy)
    ensures forall b | b in todo :: Known(s, b)
  {}

  lemma WiderCover(s: State, busy: set<Server>, more: set<Server>)
    requires CoversBusy(s, busy) && busy <= more
    ensures CoversBusy(s, more)
  {}

  /** Rows and ids are all a queue speaks of. */
  lemma SameRows(s: State, t: State, todo: seq<Snap>, bound: Id, busy: set<Server>)
    requires t.rows == s.rows && t.nextId == s.nextId && t.passed == s.passed && Waiting(s, todo, bound, busy)
    ensures Waiting(t, todo, bound, busy)
  {}

  /** A row of a reserved server changes, not back to pending. */
  lemma HandQueue(s: State, t: State, id: Id, todo: seq<Snap>, bound: Id, busy: set<Server>)
    requires Waiting(s, todo, bound, busy)
    requires id in s.rows && s.rows[id].server in busy && id in t.rows
    requires t.rows == s.rows[id := t.rows[id]] && t.nextId == s.nextId && t.passed == s.passed
    requires t.rows[id].server == s.rows[id].server && t.rows[id].dir == s.rows[id].dir && t.rows[id].phase == Running
    ensures Waiting(t, todo, bound, busy)
  {}

  lemma HeadClaims(s: State, b: Snap, todo: seq<Snap>, bound: Id, busy: set<Server>, l: Leader)
    requires Sound(s) && HeadOk(s, b, todo, bound, busy) && Waiting(s, todo, bound, busy)
    requires b.id in s.rows && s.rows[b.id].phase == Pending
    ensures var u := ClaimedRow(s, b).(leader := l);
      Sound(u) && Waiting(u, todo, bound, busy) && Unobserved(u, b) && Made(u, b.id) == 0
  {
    hide Sound, Mild, Waiting, QueueOk, NoneBusy, FirstInLine, Unobserved, Known;
    var t := ClaimedRow(s, b);
    var u := t.(leader := l);
    KnownMeans(s, b);
    PendingRow(s, b.id);
    ClaimKeeps(s, b);
    HandQueue(s, t, b.id, todo, bound, busy);
    SameRows(t, u, todo, bound, busy);
    SoundRequests(t);
    SoundIgnores(t, u);
    ClaimedUnobserved(s, b, u);
  }

  lemma QueueMoves(s: State, t: State, u: State, todo: seq<Snap>, bound: Id, busy: set<Server>)
    requires Waiting(s, todo, bound, busy) && Sound(t) && Mild(s, t)
    requires t.passed == s.passed && u == t.(leader := Starts(Queue(todo, bound, busy)))
    ensures Inv(u)
  {
    hide Sound, Mild, Waiting;
    MovedAfter(s, t, u);
    MildWaiting(s, u, todo, bound, busy);
  }

  lemma HeadKeeps(s: State, b: Snap, todo: seq<Snap>, bound: Id, busy: set<Server>, step: Step)
    requires Inv(s) && s.leader == Starts(Head(b, todo, bound, busy))
    ensures Inv(PendingStep(s, s.leader.p, step))
  {
    hide Sound, Mild, QueueOk, Waiting, Completed, NoneBusy, FirstInLine, HeldBack, Before, Unobserved, Known;
    var u := PendingStep(s, s.leader.p, step);
    SelfMild(s);
    match step
    case Skip => QueueMoves(s, s, u, todo, bound, busy);
    case FinishEarly(r) =>
      FinishKeeps(s, b.id, r);
      QueueMoves(s, Completed(s, b.id, Pending, Failed, {}, r), u, todo, bound, busy);
    case Claim(r) =>
      if Took(r) && b.id in s.rows && s.rows[b.id].phase == Pending && !HeldBack(s, b.row.server, b.id) {
        HeadClaims(s, b, todo, bound, busy, u.leader);
      } else {
        QueueMoves(s, s, u, todo, bound, busy);
      }
    case _ =>
  }

  lemma KnownMeans(s: State, b: Snap)
    requires Known(s, b)
    ensures b.id < s.nextId
    ensures b.id in s.rows ==> s.rows[b.id].server == b.row.server && s.rows[b.id].dir == b.row.dir
  {}

  lemma ClaimedUnobserved(s: State, b: Snap, u: State)
    requires Known(s, b) && b.id in s.rows && s.rows[b.id].uid.None?
    requires u == ClaimedRow(s, b).(leader := u.leader)
    ensures Unobserved(u, b)
  {}

  lemma PendingRow(s: State, id: Id)
    requires Sound(s) && id in s.rows && s.rows[id].phase == Pending
    ensures s.rows[id].uid.None? && Made(s, id) == 0
  {
    SoundRow(s, id);
  }

  lemma SubmittedJob(s: State, b: Snap, r: Result, u: State)
    requires Unobserved(s, b) && Operation(b.row.dir, b.id) !in s.jobs && r == Acked
    requires u == Submit(s, Operation(b.row.dir, b.id), r).(leader := u.leader)
    ensures HasItsJob(u, b, s.nextUid)
  {}

  lemma ObservedRow(s: State, b: Snap, uid: Uid, r: Result)
    requires Unobserved(s, b)
    ensures var t := Observed(s, b.id, uid, r);
      b.id in s.rows && b.id in t.rows && t.rows == s.rows[b.id := t.rows[b.id]] && t.nextId == s.nextId && t.passed == s.passed
      && t.rows[b.id] == s.rows[b.id].(uid := if Took(r) then Some(uid) else None)
      && s.rows[b.id].server == b.row.server && s.rows[b.id].phase == Running
  {}

  lemma ClaimedKeeps(s: State, b: Snap, todo: seq<Snap>, bound: Id, busy: set<Server>, r: Result)
    requires Inv(s) && s.leader == Starts(Claimed(b, todo, bound, busy))
    ensures Inv(PendingStep(s, s.leader.p, Create(r)))
  {
    hide Inv, Submit, QueueStep, Completed, Observed, Lists, ServersOf;
    SubmittedOn(s, b, todo, bound, busy, r, PendingStep(s, s.leader.p, Create(r)));
  }

  lemma SubmittedOn(s: State, b: Snap, todo: seq<Snap>, bound: Id, busy: set<Server>, r: Result, u: State)
    requires Inv(s) && s.leader == Starts(Claimed(b, todo, bound, busy))
    requires
      var name := Operation(b.row.dir, b.id);
      u == Submit(s, name, r).(leader := Starts(
        if r == Acked && name !in s.jobs then Submitted(b, s.nextUid, todo, bound, busy) else Queue(todo, bound, busy)))
    ensures Inv(u)
  {
    hide Sound, Mild, Waiting, Unobserved, HasItsJob, Submit;
    var name := Operation(b.row.dir, b.id);
    var t := Submit(s, name, r);
    SubmitLeaves(s, name, r);
    SubmitKeeps(s, b, r);
    SameRows(s, u, todo, bound, busy);
    SoundRequests(t);
    SoundIgnores(t, u);
    if r == Acked && name !in s.jobs { SubmittedJob(s, b, r, u); }
  }

  lemma SubmittedKeeps(s: State, b: Snap, uid: Uid, todo: seq<Snap>, bound: Id, busy: set<Server>, r: Result)
    requires Inv(s) && s.leader == Starts(Submitted(b, uid, todo, bound, busy))
    ensures Inv(PendingStep(s, s.leader.p, Observe(r)))
  {
    hide Sound, Mild, Waiting, Unobserved, Observed;
    var t, u := Observed(s, b.id, uid, r), PendingStep(s, s.leader.p, Observe(r));
    ObserveKeeps(s, b, uid, r);
    ObservedRow(s, b, uid, r);
    assert s.rows[b.id].server in busy by { BusyCovered(s, b.id, todo, bound, busy); }
    HandQueue(s, t, b.id, todo, bound, busy);
    SameRows(t, u, todo, bound, busy);
    SoundRequests(t);
    SoundIgnores(t, u);
  }

  lemma BusyCovered(s: State, id: Id, todo: seq<Snap>, bound: Id, busy: set<Server>)
    requires Waiting(s, todo, bound, busy) && id in s.rows && s.rows[id].phase == Running
    ensures s.rows[id].server in busy
  {}

  lemma RunningRead(s: State, u: State, todo: seq<Snap>, bound: Id)
    requires Sound(s) && QueueOk(s, todo, bound, {}) && Behind(s, todo)
    requires u == s.(leader := Starts(PendingHalf(todo, bound, ServersOf(s.rows, Running))))
    ensures Inv(u)
  {
    hide Sound, Mild, QueueOk;
    Moved(s, u.leader);
    MildQueue(s, u, todo, bound, {});
    WiderQueue(u, todo, bound, {}, u.leader.p.busy);
    ReadsCover(u, {});
  }

  lemma DeletingRead(s: State, u: State, todo: seq<Snap>, bound: Id, busy: set<Server>)
    requires Sound(s) && QueueOk(s, todo, bound, busy) && Behind(s, todo)
    requires forall id | id in s.rows && s.rows[id].phase == Running :: s.rows[id].server in busy
    requires u == s.(leader := Starts(Queue(todo, bound, busy + ServersOf(s.rows, Deleting))))
    ensures Inv(u)
  {
    hide Sound, Mild, QueueOk;
    Moved(s, u.leader);
    MildQueue(s, u, todo, bound, busy);
    WiderQueue(u, todo, bound, busy, u.leader.p.busy);
    ReadsCover(u, busy);
  }

  lemma StartsKeep(s: State, p: StartAt, step: Step)
    requires Inv(s) && s.leader == Starts(p)
    ensures Inv(PendingStep(s, p, step))
  {
    hide Sound, Mild, QueueOk, Waiting, CoversBusy, Lists, ServersOf, QueueStep, HeadOk, Unobserved, HasItsJob,
         Completed, Observed, Submit, HeldBack, Behind, Before, Waits, Made;
    var u := PendingStep(s, p, step);
    match (p, step)
    case (AtPending, List(listed)) =>
      if Lists(listed, s.rows, Pending) { ListedPending(s, listed, u); }
    case (PendingListed(todo, bound), ReadRunning) => RunningRead(s, u, todo, bound);
    case (PendingHalf(todo, bound, busy), ReadDeleting) => DeletingRead(s, u, todo, bound, busy);
    case (Queue(todo, bound, busy), _) => if todo != [] { QueueKeeps(s, todo, bound, busy, step); }
    case (Head(b, todo, bound, busy), _) => HeadKeeps(s, b, todo, bound, busy, step);
    case (Claimed(b, todo, bound, busy), Create(r)) => ClaimedKeeps(s, b, todo, bound, busy, r);
    case (Submitted(b, uid, todo, bound, busy), Observe(r)) => SubmittedKeeps(s, b, uid, todo, bound, busy, r);
    case _ =>
  }

  // ---- processRunning ----

  lemma ListedRunning(s: State, listed: seq<Snap>)
    requires Lists(listed, s.rows, Running)
    ensures FollowOk(s, listed)
  {}

  lemma PopFollow(s: State, todo: seq<Snap>)
    requires FollowOk(s, todo) && todo != []
    ensures FollowOk(s, todo[1..]) && Follow(s, todo[0]) && Before(todo[0], todo[1..])
  {
    assert todo[0] in todo;
  }

  /** What the leader holds of running rows while it only moves. */
  lemma FollowMoves(s: State, todo: seq<Snap>, l: Leader)
    requires Sound(s) && FollowOk(s, todo)
    ensures Sound(s.(leader := l)) && Mild(s, s.(leader := l)) && FollowOk(s.(leader := l), todo)
  {
    hide Sound, Mild, FollowOk;
    Moved(s, l);
    MildFollow(s, s.(leader := l), todo);
  }

  /** Rows of others stay as they were listed. */
  lemma OtherRow(s: State, t: State, b: Snap, todo: seq<Snap>)
    requires FollowOk(s, todo) && Before(b, todo)
    requires forall id | id in s.rows && s.rows[id].phase == Running && id != b.id :: id in t.rows && t.rows[id] == s.rows[id]
    ensures FollowOk(t, todo)
  {
    forall x | x in todo ensures Follow(t, x) { assert Follow(s, x); }
  }

  lemma FollowIsKnown(s: State, b: Snap)
    requires Sound(s) && Follow(s, b)
    ensures Known(s, b) && b.row.job == Some(Operation(b.row.dir, b.id))
    ensures b.row.uid.None? ==> Unobserved(s, b)
    ensures b.row.uid.None? && Operation(b.row.dir, b.id) !in s.jobs ==> Made(s, b.id) == 0
  {
    SoundRow(s, b.id);
  }

  lemma LookKeeps(s: State, todo: seq<Snap>, podsRemain: bool)
    requires Inv(s) && s.leader == Follows(InRunning(todo)) && todo != []
    ensures Inv(RunningStep(s, s.leader.f, Look(podsRemain)))
  {
    hide Sound, Mild, FollowOk, Follow, Before, SeenOk, Submit, Observed, Completed, Storable, RemoveJob, Acknowledged,
         Lists,
         Observable, LeaderOk;
    assert FollowOk(s, todo) by { FollowsAll(s, todo); }
    PopFollow(s, todo);
    assert SeenNow(s, todo[0]) by { SeesItsJob(s, todo[0]); }
    GoesOnFollowing(s, todo[0], todo[1..], RunningStep(s, s.leader.f, Look(podsRemain)).leader.f);
  }

  lemma FollowsAll(s: State, todo: seq<Snap>)
    requires LeaderOk(s) && s.leader == Follows(InRunning(todo))
    ensures FollowOk(s, todo)
  {}

  predicate SeenNow(s: State, b: Snap) {
    Operation(b.row.dir, b.id) in s.jobs ==> SeenOk(s, b, s.jobs[Operation(b.row.dir, b.id)])
  }

  lemma SeesItsJob(s: State, b: Snap)
    ensures SeenNow(s, b)
  {}

  /** The leader goes on with the running operation it took off the list. */
  lemma GoesOnFollowing(s: State, b: Snap, todo: seq<Snap>, next: FollowAt)
    requires Sound(s) && FollowOk(s, todo) && Follow(s, b) && Before(b, todo) && SeenNow(s, b)
    requires
      var name := Operation(b.row.dir, b.id);
      || next == InRunning(todo)
      || (next == Resuming(b, todo) && b.row.uid.None? && name !in s.jobs)
      || (name in s.jobs && next == Found(b, s.jobs[name], todo) && (b.row.uid.Some? ==> b.row.uid.value == s.jobs[name].uid))
    ensures Inv(s.(leader := Follows(next)))
  {
    hide Sound, Mild, FollowOk, Follow, Before, SeenOk;
    var u := s.(leader := Follows(next));
    FollowMoves(s, todo, Follows(next));
    MildRunning(s, u, b, Job(0, Active), 0);
    if next.Found? { MildRunning(s, u, b, next.seen, 0); }
  }

  lemma ResumingCreates(s: State, b: Snap, todo: seq<Snap>, r: Result)
    requires Inv(s) && s.leader == Follows(Resuming(b, todo))
    ensures Inv(RunningStep(s, s.leader.f, Create(r)))
  {
    hide Sound, Mild, FollowOk, Before, Unobserved, HasItsJob, Submit, Completed, Observed, RemoveJob, Acknowledged,
         Storable, RunningLook;
    SubmitLeaves(s, Operation(b.row.dir, b.id), r);
    var name := Operation(b.row.dir, b.id);
    var t, u := Submit(s, name, r), RunningStep(s, s.leader.f, Create(r));
    FollowIsKnown(s, b);
    SubmitKeeps(s, b, r);
    SoundRequests(t);
    SoundIgnores(t, u);
    OtherRow(s, u, b, todo);
    if r == Acked { SubmittedJob(s, b, r, u); }
  }

  lemma ResumedObserves(s: State, b: Snap, uid: Uid, todo: seq<Snap>, r: Result)
    requires Inv(s) && s.leader == Follows(Resumed(b, uid, todo))
    ensures Inv(RunningStep(s, s.leader.f, Observe(r)))
  {
    hide Sound, Mild, FollowOk, Before, Unobserved, Observed;
    var t, u := Observed(s, b.id, uid, r), RunningStep(s, s.leader.f, Observe(r));
    ObserveKeeps(s, b, uid, r);
    assert Unobserved(s, b);
    ObservedRow(s, b, uid, r);
    SoundRequests(t);
    SoundIgnores(t, u);
    OtherRow(s, u, b, todo);
  }

  lemma FoundObserves(s: State, b: Snap, seen: Job, todo: seq<Snap>, r: Result)
    requires Inv(s) && s.leader == Follows(Found(b, seen, todo))
    ensures Inv(RunningStep(s, s.leader.f, Observe(r)))
  {
    hide Sound, Mild, FollowOk, Before, Unobserved;
    var u := RunningStep(s, s.leader.f, Observe(r));
    if b.row.uid.Some? {
      FollowMoves(s, todo, u.leader);
    } else {
      var t := Observed(s, b.id, seen.uid, r);
      FollowIsKnown(s, b);
      assert HasItsJob(s, b, seen.uid);
      ObserveKeeps(s, b, seen.uid, r);
      ObservedRow(s, b, seen.uid, r);
      SoundRequests(t);
      SoundIgnores(t, u);
      OtherRow(s, u, b, todo);
    }
  }

  lemma CompletedRows(s: State, b: Snap, pruned: set<Id>, to: Phase, r: Result, u: State)
    requires Prunable(s, b, pruned) && b.id in s.rows && s.rows[b.id].phase == Running && Known(s, b)
    requires u == Completed(s, b.id, Running, to, pruned, r).(leader := u.leader)
    ensures forall id | id in s.rows && s.rows[id].phase == Running && id != b.id :: id in u.rows && u.rows[id] == s.rows[id]
    ensures Known(u, b) && (Took(r) ==> b.id in u.stored)
  {}

  lemma BoundSettles(s: State, b: Snap, seen: Job, todo: seq<Snap>, r: Result, pruned: set<Id>)
    requires Inv(s) && s.leader == Follows(Bound(b, seen, todo))
    ensures Inv(RunningStep(s, s.leader.f, StoreResult(r, pruned)))
  {
    hide Sound, Mild, FollowOk, Before, Completed, Prunable, SeenOk;
    var u := RunningStep(s, s.leader.f, StoreResult(r, pruned));
    if u != s {
      var to := if seen.outcome == Complete then Succeeded else Failed;
      var t := Completed(s, b.id, Running, to, pruned, r);
      BoundMeans(s, b, seen);
      SettleKeeps(s, b, seen, pruned, r, to);
      SoundRequests(t);
      SoundIgnores(t, u);
      CompletedRows(s, b, pruned, to, r, u);
      OtherRow(s, u, b, todo);
    }
  }

  lemma BoundMeans(s: State, b: Snap, seen: Job)
    requires Sound(s) && b.id in s.rows && s.rows[b.id] == b.row.(uid := Some(seen.uid)) && b.row.phase == Running
    ensures Known(s, b) && b.row.job == Some(Operation(b.row.dir, b.id)) && s.rows[b.id].phase == Running
  {
    SoundRow(s, b.id);
  }

  /** A stored operation's Job is deleted, or its deletion acknowledged. */
  lemma StoredMoves(s: State, t: State, u: State, b: Snap, todo: seq<Snap>)
    requires FollowOk(s, todo) && StoredOk(s, b) && Sound(t) && Mild(s, t) && u == t.(leader := u.leader)
    ensures Sound(u) && FollowOk(u, todo) && StoredOk(u, b)
  {
    hide Sound, Mild, FollowOk, StoredOk;
    MovedAfter(s, t, u);
    MildFollow(s, u, todo);
    MildRunning(s, u, b, Job(0, Active), 0);
  }

  lemma RunningListed(s: State, u: State, listed: seq<Snap>)
    requires Inv(s) && Lists(listed, s.rows, Running) && u == s.(leader := Follows(InRunning(listed)))
    ensures Inv(u)
  {
    hide Sound, Mild, FollowOk, Lists;
    ListedRunning(s, listed);
    FollowMoves(s, listed, u.leader);
  }

  lemma RunningSkips(s: State, u: State, todo: seq<Snap>)
    requires Inv(s) && s.leader == Follows(InRunning(todo)) && todo != [] && u == s.(leader := Follows(InRunning(todo[1..])))
    ensures Inv(u)
  {
    hide Sound, Mild, FollowOk;
    PopFollow(s, todo);
    FollowMoves(s, todo[1..], u.leader);
  }

  lemma BoundSkips(s: State, u: State, b: Snap, seen: Job, todo: seq<Snap>)
    requires Inv(s) && s.leader == Follows(Bound(b, seen, todo)) && u == s.(leader := Follows(InRunning(todo)))
    ensures Inv(u)
  {
    hide Sound, Mild, FollowOk;
    FollowMoves(s, todo, u.leader);
  }

  lemma StoredDeletes(s: State, b: Snap, todo: seq<Snap>, r: Result)
    requires Inv(s) && s.leader == Follows(Stored(b, todo))
    ensures Inv(RunningStep(s, s.leader.f, DeleteJob(r)))
  {
    hide Sound, Mild, FollowOk, StoredOk, RemoveJob;
    StoredJob(s, b);
    RemoveKeeps(s, b.row.job, r);
    StoredMoves(s, RemoveJob(s, b.row.job, r), RunningStep(s, s.leader.f, DeleteJob(r)), b, todo);
  }

  lemma StoredAcknowledges(s: State, b: Snap, todo: seq<Snap>, r: Result)
    requires Inv(s) && s.leader == Follows(StoredGone(b, todo))
    ensures Inv(RunningStep(s, s.leader.f, Acknowledge(r)))
  {
    hide Sound, Mild, FollowOk, StoredOk, Acknowledged;
    AcknowledgeKeeps(s, b, r);
    StoredMoves(s, Acknowledged(s, b, r), RunningStep(s, s.leader.f, Acknowledge(r)), b, todo);
  }

  lemma FollowsKeep(s: State, f: FollowAt, step: Step)
    requires Inv(s) && s.leader == Follows(f)
    ensures Inv(RunningStep(s, f, step))
  {
    hide Inv, Lists, Completed, Storable, RunningLook, Observed, Submit, RemoveJob, Acknowledged, Observable;
    var u := RunningStep(s, f, step);
    match (f, step)
    case (AtRunning, List(listed)) => if Lists(listed, s.rows, Running) { RunningListed(s, u, listed); }
    case (InRunning(todo), Skip) => if todo != [] { RunningSkips(s, u, todo); }
    case (InRunning(todo), Look(podsRemain)) => if todo != [] { LookKeeps(s, todo, podsRemain); }
    case (Resuming(b, todo), Create(r)) => ResumingCreates(s, b, todo, r);
    case (Resumed(b, uid, todo), Observe(r)) => ResumedObserves(s, b, uid, todo, r);
    case (Found(b, seen, todo), Observe(r)) => FoundObserves(s, b, seen, todo, r);
    case (Bound(b, seen, todo), Skip) => if seen.outcome == Active { BoundSkips(s, u, b, seen, todo); }
    case (Bound(b, seen, todo), StoreResult(r, pruned)) => BoundSettles(s, b, seen, todo, r, pruned);
    case (Stored(b, todo), DeleteJob(r)) => StoredDeletes(s, b, todo, r);
    case (StoredGone(b, todo), Acknowledge(r)) => StoredAcknowledges(s, b, todo, r);
    case _ =>
  }

  // ---- processDeleting ----

  lemma ListedDeleting(s: State, listed: seq<Snap>)
    requires Sound(s) && Lists(listed, s.rows, Deleting)
    ensures DeletionsOk(s, listed)
  {
    hide OneRunning, OneBusy;
    forall b | b in listed ensures DeletionOk(s, b) { SoundRow(s, b.id); }
  }

  /** What is held of deletions speaks of the rows and the history alone. */
  lemma SameDeletion(s: State, t: State, b: Snap, busy: set<Server>)
    requires t.rows == s.rows && t.nextId == s.nextId && t.stored == s.stored && t.slipped == s.slipped
    ensures DeletionOk(t, b) == DeletionOk(s, b) && WasDeleting(t, b) == WasDeleting(s, b)
    ensures Holds(t, b, busy) == Holds(s, b, busy) && NoneElse(t, b) == NoneElse(s, b) && NamedBy(t, b) == NamedBy(s, b)
  {}

  lemma SameHeld(s: State, t: State, todo: seq<Snap>, busy: set<Server>)
    requires t.rows == s.rows && t.nextId == s.nextId && t.stored == s.stored && t.slipped == s.slipped
    ensures DeletionsOk(s, todo) ==> DeletionsOk(t, todo)
    ensures DeletionsHeld(s, todo, busy) ==> DeletionsHeld(t, todo, busy)
  {
    hide DeletionOk, Holds;
    forall b | b in todo ensures DeletionOk(t, b) == DeletionOk(s, b) && Holds(t, b, busy) == Holds(s, b, busy) {
      SameDeletion(s, t, b, busy);
    }
  }

  lemma PopDeletions(s: State, todo: seq<Snap>, busy: set<Server>)
    requires DeletionsHeld(s, todo, busy) && todo != []
    ensures DeletionsHeld(s, todo[1..], busy) && DeletionOk(s, todo[0]) && Before(todo[0], todo[1..])
    ensures !s.slipped ==> Holds(s, todo[0], busy)
  {
    hide DeletionOk, Holds;
    assert todo[0] in todo;
    forall b | b in todo[1..] ensures b in todo {}
  }

  /** A step of the leader that leaves the rows alone. */
  lemma HeldMoves(s: State, t: State, u: State, todo: seq<Snap>, busy: set<Server>)
    requires DeletionsHeld(s, todo, busy) && Sound(t) && Mild(s, t) && u == t.(leader := u.leader)
    requires t.rows == s.rows && t.nextId == s.nextId && t.stored == s.stored && t.slipped == s.slipped
    ensures Sound(u) && Mild(s, u) && DeletionsHeld(u, todo, busy)
  {
    hide Sound, Mild, DeletionsHeld;
    MovedAfter(s, t, u);
    SameHeld(s, u, todo, busy);
  }

  lemma DeletionFacts(s: State, b: Snap)
    requires Sound(s) && DeletionOk(s, b)
    ensures WasDeleting(s, b) && b.row.job in {None, Some(Forget(b.id))}
    ensures b.row.forgotten ==> DoneForgetting(s, b)
    ensures b.row.job.Some? && !s.slipped && !b.row.forgotten ==> NoneElse(s, b)
  {
    SoundRow(s, b.id);
    SoundJob(s, Forget(b.id));
  }

  lemma DeletionPops(s: State, u: State, todo: seq<Snap>, busy: set<Server>)
    requires Sound(s) && DeletionsHeld(s, todo, busy) && todo != [] && u == s.(leader := u.leader)
    ensures Sound(u) && DeletionsHeld(u, todo[1..], busy) && DeletionOk(u, todo[0]) && Before(todo[0], todo[1..])
    ensures var b := todo[0];
      && WasDeleting(u, b) && b.row.job in {None, Some(Forget(b.id))}
      && (b.row.forgotten ==> DoneForgetting(u, b))
      && (b.row.job.Some? && !u.slipped && !b.row.forgotten ==> NoneElse(u, b))
      && (!u.slipped ==> Holds(u, b, busy))
  {
    hide Sound, Mild, DeletionsHeld, DeletionOk, Holds, Before, NoneElse, DoneForgetting, WasDeleting;
    PopDeletions(s, todo, busy);
    SelfMild(s);
    HeldMoves(s, s, u, todo[1..], busy);
    SameDeletion(s, u, todo[0], busy);
    DeletionFacts(u, todo[0]);
  }

  lemma HoldsItsServer(s: State, b: Snap, busy: set<Server>)
    requires Holds(s, b, busy) && !b.row.forgotten && b.row.job.Some?
    ensures b.row.server in busy
  {}

  /** The leader goes on with the deletion it took off the list. */
  lemma GoesOnWith(u: State, b: Snap, todo: seq<Snap>, busy: set<Server>, next: DeleteAt)
    requires Sound(u) && DeletionsHeld(u, todo, busy) && DeletionOk(u, b) && Before(b, todo) && u.leader == Deletes(next)
    requires WasDeleting(u, b) && (!u.slipped ==> Holds(u, b, busy))
    requires
      || next == Deletions(todo, busy)
      || (next == Forgotten(b, todo, busy) && DoneForgetting(u, b))
      || (next == ForgetDone(b, todo, busy) && EndedAs(u, b, Complete))
      || (next == ForgetBroken(b, todo, busy) && EndedAs(u, b, Broken) && !b.row.forgotten && b.row.job.Some?
          && (!u.slipped ==> NoneElse(u, b)))
      || (next == Submitting(b, todo, busy) && !b.row.forgotten && (b.row.job.None? ==> b.row.server !in busy))
    ensures Inv(u)
  {
    hide Sound, DeletionsHeld, DeletionOk, Before, NoneElse, DoneForgetting, EndedAs, WasDeleting, Holds;
    if next.ForgetBroken? && !u.slipped { HoldsItsServer(u, b, busy); }
  }

  lemma DeletionLooks(s: State, todo: seq<Snap>, busy: set<Server>, next: DeleteAt, podsRemain: bool)
    requires Sound(s) && DeletionsHeld(s, todo, busy) && todo != []
    requires next in {Deletions(todo[1..], busy), DeletionLook(s, todo[0], todo[1..], busy, podsRemain)}
    ensures Inv(s.(leader := Deletes(next)))
  {
    hide Sound, DeletionsHeld, DeletionOk, Before, NoneElse, DoneForgetting, WasDeleting, Holds, Inv;
    var u := s.(leader := Deletes(next));
    DeletionPops(s, u, todo, busy);
    GoesOnWith(u, todo[0], todo[1..], busy, next);
  }

  lemma DeletionStepKeeps(s: State, todo: seq<Snap>, busy: set<Server>, step: Step)
    requires Inv(s) && s.leader == Deletes(Deletions(todo, busy)) && todo != []
    ensures Inv(DeletionStep(s, todo[0], todo[1..], busy, step))
  {
    hide Inv, DeletionLook;
    HoldsDeletions(s, todo, busy);
    match step
    case Skip => DeletionLooks(s, todo, busy, Deletions(todo[1..], busy), false);
    case Look(podsRemain) =>
      DeletionLooks(s, todo, busy, DeletionLook(s, todo[0], todo[1..], busy, podsRemain), podsRemain);
    case _ =>
  }

  lemma HoldsDeletions(s: State, todo: seq<Snap>, busy: set<Server>)
    requires Inv(s) && s.leader == Deletes(Deletions(todo, busy))
    ensures Sound(s) && DeletionsHeld(s, todo, busy)
  {}

  /** Only the row of the deletion in hand changes, and if that takes its server
      in hand the leader knows it. */
  predicate OneRowChanges(s: State, t: State, b: Snap, busy: set<Server>) {
    && t.slipped == s.slipped && t.stored == s.stored && t.nextId == s.nextId
    && (forall id | id in s.rows && id != b.id :: id in t.rows && t.rows[id] == s.rows[id])
    && (forall id | id in t.rows && id != b.id :: id in s.rows)
    && (b.id in t.rows && Busy(t.rows[b.id]) && !t.slipped ==>
          t.rows[b.id].server in busy || (b.id in s.rows && Busy(s.rows[b.id]) && s.rows[b.id].server == t.rows[b.id].server))
  }

  lemma OtherDeletion(s: State, t: State, b: Snap, x: Snap, busy: set<Server>)
    requires OneRowChanges(s, t, b, busy) && DeletionOk(s, x) && x.id != b.id
    ensures DeletionOk(t, x) && (!s.slipped && Holds(s, x, busy) ==> Holds(t, x, busy))
  {}

  lemma OtherDeletions(s: State, t: State, b: Snap, todo: seq<Snap>, busy: set<Server>)
    requires DeletionsHeld(s, todo, busy) && Before(b, todo) && OneRowChanges(s, t, b, busy)
    ensures DeletionsHeld(t, todo, busy)
  {
    hide DeletionOk, Holds;
    assert t.slipped == s.slipped;
    forall x | x in todo ensures DeletionOk(t, x) && (!t.slipped ==> Holds(t, x, busy)) {
      OtherDeletion(s, t, b, x, busy);
    }
  }

  lemma WiderHeld(s: State, todo: seq<Snap>, busy: set<Server>, more: set<Server>)
    requires DeletionsHeld(s, todo, busy) && busy <= more
    ensures DeletionsHeld(s, todo, more)
  {
    hide DeletionOk, NoneBusy;
    if !s.slipped {
      forall x | x in todo ensures Holds(s, x, more) { assert Holds(s, x, busy); }
    }
  }

  lemma MarkedRow(s: State, t: State, b: Snap, todo: seq<Snap>, busy: set<Server>)
    requires Inv(s) && s.leader == Deletes(ForgetDone(b, todo, busy)) && t == s.(rows := t.rows)
    requires t.rows == s.rows || (b.id in s.rows && t.rows == s.rows[b.id := s.rows[b.id].(forgotten := true)])
    ensures Sound(t) && DeletionsHeld(t, todo, busy) && DoneForgetting(t, b) && Before(b, todo)
  {
    hide Sound, DeletionsHeld, Before;
    SoundRow(s, b.id);
    if t.rows != s.rows { DeletingRowKeeps(s, t, b.id); }
    OtherDeletions(s, t, b, todo, busy);
  }

  lemma MarksForgotten(s: State, b: Snap, todo: seq<Snap>, busy: set<Server>, r: Result)
    requires Inv(s) && s.leader == Deletes(ForgetDone(b, todo, busy))
    ensures Inv(DeletingStep(s, s.leader.d, MarkForgotten(r)))
  {
    hide Inv, Submit, RemoveJob, Another, DeletionStep, Before, DeletionsHeld, DoneForgetting, Sound;
    var u := DeletingStep(s, s.leader.d, MarkForgotten(r));
    var t := s.(rows := u.rows);
    MarkedRow(s, t, b, todo, busy);
    AfterRow(t, u, b, todo, busy);
  }

  /** The leader goes on after its write to the row of a deletion. */
  lemma AfterRow(t: State, u: State, b: Snap, todo: seq<Snap>, busy: set<Server>)
    requires Sound(t) && DeletionsHeld(t, todo, busy) && Before(b, todo) && u == t.(leader := u.leader)
    requires
      || u.leader == Deletes(Deletions(todo, busy))
      || (u.leader == Deletes(Forgotten(b, todo, busy)) && DoneForgetting(t, b))
      || (u.leader == Deletes(Retrying(b, todo, busy)) && WasDeleting(t, b) && EndedAs(t, b, Broken))
    ensures Inv(u)
  {
    hide Sound, Mild, DeletionsHeld, Before, WasDeleting, EndedAs, DoneForgetting;
    SelfMild(t);
    HeldMoves(t, t, u, todo, busy);
    MildWasDeleting(t, u, b, Broken);
  }

  lemma NotedRow(s: State, t: State, b: Snap, todo: seq<Snap>, busy: set<Server>)
    requires Inv(s) && s.leader == Deletes(ForgetBroken(b, todo, busy)) && t == s.(rows := t.rows)
    requires t.rows == s.rows || (b.id in s.rows && t.rows == s.rows[b.id := s.rows[b.id].(phase := Deleting, job := b.row.job)])
    ensures Sound(t) && DeletionsHeld(t, todo, busy) && WasDeleting(t, b) && EndedAs(t, b, Broken) && Before(b, todo)
  {
    hide Sound, DeletionsHeld, Before;
    SoundRow(s, b.id);
    if t.rows != s.rows { DeletingRowKeeps(s, t, b.id); }
    OtherDeletions(s, t, b, todo, busy);
  }

  lemma NotesFailure(s: State, b: Snap, todo: seq<Snap>, busy: set<Server>, r: Result)
    requires Inv(s) && s.leader == Deletes(ForgetBroken(b, todo, busy))
    ensures Inv(DeletingStep(s, s.leader.d, NoteFailure(r)))
  {
    hide Inv, Submit, RemoveJob, Another, DeletionStep, Before, DeletionsHeld, WasDeleting, EndedAs, Sound;
    var u := DeletingStep(s, s.leader.d, NoteFailure(r));
    var t := s.(rows := u.rows);
    NotedRow(s, t, b, todo, busy);
    AfterRow(t, u, b, todo, busy);
  }

  lemma DropsRecord(s: State, b: Snap, todo: seq<Snap>, busy: set<Server>, r: Result)
    requires Inv(s) && s.leader == Deletes(ForgottenGone(b, todo, busy))
    ensures Inv(DeletingStep(s, s.leader.d, DropRecord(r)))
  {
    hide Sound, Mild, DeletionsHeld, Before, DoneForgetting, Submit, RemoveJob, Another, DeletionStep, Lists, ServersOf;
    var u := DeletingStep(s, s.leader.d, DropRecord(r));
    var t := s.(rows := u.rows);
    DropKeeps(s, b);
    SoundRequests(t);
    SoundIgnores(t, u);
    OtherDeletions(s, u, b, todo, busy);
  }

  function WithForgetJob(s: State, id: Id): State
    requires id in s.rows
  {
    s.(rows := s.rows[id := s.rows[id].(job := Some(Forget(id)))])
  }

  /** The claim of a deletion takes effect. */
  lemma ClaimTakes(s: State, b: Snap, todo: seq<Snap>, busy: set<Server>)
    requires Inv(s) && s.leader == Deletes(Submitting(b, todo, busy)) && b.row.job.None?
    requires b.id in s.rows && s.rows[b.id].phase == Deleting && s.rows[b.id].job.None?
    ensures var t := WithForgetJob(s, b.id); Sound(t) && WasDeleting(t, b) && NamedBy(t, b)
    ensures var t := WithForgetJob(s, b.id);
      DeletionsHeld(t, todo, busy + {b.row.server}) && (!Another(s, b.row.server, todo) ==> DeletionsHeld(t, todo, busy))
  {
    hide Sound, Mild, DeletionsHeld, Before, Another;
    var t := WithForgetJob(s, b.id);
    SoundJob(s, Forget(b.id));
    DeletingRowKeeps(s, t, b.id);
    WiderHeld(s, todo, busy, busy + {b.row.server});
    OtherDeletions(s, t, b, todo, busy + {b.row.server});
    if !Another(s, b.row.server, todo) { NoOtherHeld(s, b, todo, busy); }
  }

  /** No other deletion of the server waits for it in the list. */
  lemma NoOtherHeld(s: State, b: Snap, todo: seq<Snap>, busy: set<Server>)
    requires DeletionsHeld(s, todo, busy) && Before(b, todo) && !Another(s, b.row.server, todo)
    requires b.id in s.rows && s.rows[b.id].server == b.row.server && s.rows[b.id].phase == Deleting
    ensures DeletionsHeld(WithForgetJob(s, b.id), todo, busy)
  {
    hide DeletionOk;
    var t := WithForgetJob(s, b.id);
    forall x | x in todo ensures DeletionOk(t, x) {
      assert OneRowChanges(s, t, b, {b.row.server});
      OtherDeletion(s, t, b, x, {b.row.server});
    }
    if !s.slipped {
      forall x | x in todo ensures Holds(t, x, busy) { assert Holds(s, x, busy); DeletionKnown(s, x); }
    }
  }

  lemma SlipKeeps(t: State, u: State)
    requires Sound(t) && u == t.(slipped := true, leader := u.leader)
    ensures Sound(u)
  {
    hide OneRunning, OneBusy;
    forall x ensures HistoryOk(u, x) { SoundRow(t, x); }
    forall x | x in u.rows ensures RowOk(u, x) { SoundRow(t, x); }
    forall x | x in u.jobs ensures JobOk(u, x) { SoundJob(t, x); }
    forall q | q in u.requests ensures RequestOk(u, q) { SoundRequest(t, q); }
    SameRunning(t, u);
  }

  lemma SameRunning(s: State, t: State)
    requires t.rows == s.rows
    ensures OneRunning(t) == OneRunning(s)
  {}

  lemma SlipHeld(t: State, u: State, todo: seq<Snap>, busy: set<Server>, any: set<Server>)
    requires DeletionsHeld(t, todo, busy) && u == t.(slipped := true, leader := u.leader)
    ensures DeletionsHeld(u, todo, any)
  {
    forall b | b in todo ensures DeletionOk(u, b) { assert DeletionOk(t, b); }
  }

  lemma ClaimsDeletion(s: State, b: Snap, todo: seq<Snap>, busy: set<Server>, r: Result)
    requires Inv(s) && s.leader == Deletes(Submitting(b, todo, busy))
    ensures Inv(DeletingStep(s, s.leader.d, ClaimDeletion(r)))
  {
    hide Inv, Another, Submit, RemoveJob, DeletionStep, Lists, ServersOf;
    var u := DeletingStep(s, s.leader.d, ClaimDeletion(r));
    if b.row.job.Some? {
      AlreadyNamed(s, b, todo, busy, u);
    } else if Took(r) && b.id in s.rows && s.rows[b.id].phase == Deleting && s.rows[b.id].job.None? {
      ClaimedDeletion(s, b, todo, busy, r, u);
    } else {
      SubmittingSkips(s, b, u, todo, busy);
    }
  }

  lemma ClaimedDeletion(s: State, b: Snap, todo: seq<Snap>, busy: set<Server>, r: Result, u: State)
    requires Inv(s) && s.leader == Deletes(Submitting(b, todo, busy)) && b.row.job.None? && Took(r)
    requires b.id in s.rows && s.rows[b.id].phase == Deleting && s.rows[b.id].job.None?
    requires u == WithForgetJob(s, b.id).(
      leader := Deletes(if r == Acked then ForgetClaimed(b, todo, busy) else Deletions(todo, busy)),
      slipped := s.slipped || (r == Lost && Another(s, b.row.server, todo)))
    ensures Inv(u)
  {
    hide Sound, Mild, DeletionsHeld, Before, Holds, DeletionOk, WasDeleting, NamedBy, Another;
    var t := WithForgetJob(s, b.id);
    ClaimTakes(s, b, todo, busy);
    if u.slipped && !t.slipped {
      SlipKeeps(t, u);
      SlipHeld(t, u, todo, busy + {b.row.server}, busy);
    } else {
      SelfMild(t);
      if r == Acked || t.slipped { HeldMoves(t, t, u, todo, busy + {b.row.server}); SameDeletion(t, u, b, busy); }
      if r == Lost { LostHeld(t, u, todo, busy, busy + {b.row.server}); }
    }
  }

  /** After a claim without its answer the leader holds no more servers. */
  lemma LostHeld(t: State, u: State, todo: seq<Snap>, busy: set<Server>, more: set<Server>)
    requires Sound(t) && u == t.(leader := u.leader)
    requires DeletionsHeld(t, todo, busy) || (t.slipped && DeletionsHeld(t, todo, more))
    ensures Sound(u) && DeletionsHeld(u, todo, busy)
  {
    hide Sound, DeletionOk, Holds;
    SoundRequests(t);
    SoundIgnores(t, u);
    SameHeld(t, u, todo, busy);
    SameHeld(t, u, todo, more);
  }

  lemma AlreadyNamed(s: State, b: Snap, todo: seq<Snap>, busy: set<Server>, u: State)
    requires Inv(s) && s.leader == Deletes(Submitting(b, todo, busy)) && b.row.job.Some?
    requires u == s.(leader := Deletes(ForgetClaimed(b, todo, busy)))
    ensures Inv(u)
  {
    hide Sound, Mild, DeletionsHeld, Before, Holds;
    SelfMild(s);
    HeldMoves(s, s, u, todo, busy);
    WiderHeld(u, todo, busy, busy + {b.row.server});
  }

  lemma ForgetCreates(s: State, b: Snap, todo: seq<Snap>, busy: set<Server>, r: Result)
    requires Inv(s) && s.leader == Deletes(ForgetClaimed(b, todo, busy))
    ensures Inv(DeletingStep(s, s.leader.d, Create(r)))
  {
    hide Sound, Mild, DeletionsHeld, Before, NamedBy, WasDeleting, Submit, RemoveJob, Another, DeletionStep, Lists,
         ServersOf;
    var t, u := Submit(s, Forget(b.id), r), DeletingStep(s, s.leader.d, Create(r));
    ForgetKeeps(s, b, r);
    SubmitLeaves(s, Forget(b.id), r);
    SoundRequests(t);
    SoundIgnores(t, u);
    SameHeld(s, u, todo, busy + {b.row.server});
  }

  /** After both reads every deletion in the list finds its server held or free. */
  lemma ReadsHold(s: State, todo: seq<Snap>, busy: set<Server>)
    requires DeletionsOk(s, todo) && CoversBusy(s, busy)
    ensures DeletionsHeld(s, todo, busy)
  {
    if !s.slipped {
      forall b | b in todo ensures Holds(s, b, busy) { assert DeletionOk(s, b); }
    }
  }

  lemma HeldRead(s: State, u: State, todo: seq<Snap>, busy: set<Server>)
    requires Inv(s) && s.leader == Deletes(DeletingHalf(todo, busy))
    requires u == s.(leader := Deletes(Deletions(todo, busy + ServersOf(s.rows, Deleting))))
    ensures Inv(u)
  {
    hide Sound, Mild, DeletionsOk, DeletionsHeld, ServersOf, CoversBusy;
    var more := busy + ServersOf(s.rows, Deleting);
    Moved(s, u.leader);
    ReadsCover(s, busy);
    ReadsHold(s, todo, more);
    SameHeld(s, u, todo, more);
  }

  lemma HalfRead(s: State, u: State, todo: seq<Snap>)
    requires Inv(s) && s.leader == Deletes(DeletingListed(todo))
    requires u == s.(leader := Deletes(DeletingHalf(todo, ServersOf(s.rows, Running))))
    ensures Inv(u)
  {
    hide Sound, Mild, DeletionsOk, DeletionsHeld;
    Moved(s, u.leader);
    SameHeld(s, u, todo, {});
    ReadsCover(u, {});
  }

  lemma ForgottenDeletes(s: State, b: Snap, todo: seq<Snap>, busy: set<Server>, r: Result)
    requires Inv(s) && s.leader == Deletes(Forgotten(b, todo, busy))
    ensures Inv(DeletingStep(s, s.leader.d, DeleteJob(r)))
  {
    hide Sound, Mild, DeletionsHeld, Before, Known;
    var t, u := RemoveJob(s, b.row.job, r), DeletingStep(s, s.leader.d, DeleteJob(r));
    RemoveKeeps(s, b.row.job, r);
    HeldMoves(s, t, u, todo, busy);
    MildWasDeleting(s, u, b, Active);
  }

  lemma RetryDeletes(s: State, b: Snap, todo: seq<Snap>, busy: set<Server>, r: Result)
    requires Inv(s) && s.leader == Deletes(Retrying(b, todo, busy))
    ensures Inv(DeletingStep(s, s.leader.d, DeleteJob(r)))
  {
    hide Sound, Mild, DeletionsHeld, Before, Known;
    RemoveKeeps(s, b.row.job, r);
    HeldMoves(s, RemoveJob(s, b.row.job, r), DeletingStep(s, s.leader.d, DeleteJob(r)), todo, busy);
  }

  lemma DeletionsListed(s: State, u: State, listed: seq<Snap>)
    requires Inv(s) && Lists(listed, s.rows, Deleting) && u == s.(leader := Deletes(DeletingListed(listed)))
    ensures Inv(u)
  {
    hide Sound, Mild, DeletionsOk, DeletionsHeld, Lists;
    ListedDeleting(s, listed);
    Moved(s, u.leader);
    SameHeld(s, u, listed, {});
  }

  lemma SubmittingSkips(s: State, b: Snap, u: State, todo: seq<Snap>, busy: set<Server>)
    requires Inv(s) && s.leader == Deletes(Submitting(b, todo, busy)) && u == s.(leader := Deletes(Deletions(todo, busy)))
    ensures Inv(u)
  {
    hide Sound, Mild, DeletionsHeld;
    SelfMild(s);
    HeldMoves(s, s, u, todo, busy);
  }

  lemma DeletesKeep(s: State, d: DeleteAt, step: Step)
    requires Inv(s) && s.leader == Deletes(d)
    ensures Inv(DeletingStep(s, d, step))
  {
    hide Inv, Lists, DeletionStep, ServersOf, Submit, RemoveJob, Another;
    var u := DeletingStep(s, d, step);
    match (d, step)
    case (AtDeleting, List(listed)) =>
      if Lists(listed, s.rows, Deleting) { DeletionsListed(s, u, listed); }
    case (DeletingListed(todo), ReadRunning) => HalfRead(s, u, todo);
    case (DeletingHalf(todo, busy), ReadDeleting) => HeldRead(s, u, todo, busy);
    case (Deletions(todo, busy), _) => if todo != [] { DeletionStepKeeps(s, todo, busy, step); }
    case (ForgetDone(b, todo, busy), MarkForgotten(r)) => MarksForgotten(s, b, todo, busy, r);
    case (ForgetBroken(b, todo, busy), NoteFailure(r)) => NotesFailure(s, b, todo, busy, r);
    case (Forgotten(b, todo, busy), DeleteJob(r)) => ForgottenDeletes(s, b, todo, busy, r);
    case (ForgottenGone(b, todo, busy), DropRecord(r)) => DropsRecord(s, b, todo, busy, r);
    case (Retrying(b, todo, busy), DeleteJob(r)) => RetryDeletes(s, b, todo, busy, r);
    case (Submitting(b, todo, busy), Skip) => SubmittingSkips(s, b, u, todo, busy);
    case (Submitting(b, todo, busy), ClaimDeletion(r)) => ClaimsDeletion(s, b, todo, busy, r);
    case (ForgetClaimed(b, todo, busy), Create(r)) => ForgetCreates(s, b, todo, busy, r);
    case _ =>
  }

  /** Every step of the leader, of the panel and of the cluster keeps the
      invariant. */
  lemma DoKeepsInv(s: State, step: Step)
    requires Inv(s)
    ensures Inv(Do(s, step))
  {
    hide Sound, CleanupStep, PendingStep, RunningStep, DeletingStep, ByOthers, CleanupsOk, StartsOk, FollowsOk,
         DeletesOk, ForgetsOk;
    if !Mine(step) {
      OthersKeepInv(s, step);
    } else if step.Begin? || step.ListFails? || step.EndList? {
      if NextStage(s.leader, step) != s.leader { BetweenKeeps(s, NextStage(s.leader, step)); }
    } else {
      match s.leader
      case Off =>
      case Cleanups(c) => CleanupKeeps(s, c, step);
      case Starts(p) => StartsKeep(s, p, step);
      case Follows(f) => FollowsKeep(s, f, step);
      case Deletes(d) => DeletesKeep(s, d, step);
    }
  }

  lemma BetweenKeeps(s: State, l: Leader)
    requires Sound(s) && l in {Off, Cleanups(AtCleanup), Starts(AtPending), Follows(AtRunning), Deletes(AtDeleting)}
    ensures Inv(s.(leader := l))
  {
    hide Sound, Mild;
    Moved(s, l);
  }
}
