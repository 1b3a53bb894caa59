/** The UDP side of the activator's proxy (cmd/activator/proxy.go): listeners
    with a mutex each, readers, sweeps and shutdowns that share a flow map, an
    atomic count of slots and a count of live flows. Every step is one atomic
    access or one held lock's worth of a map change; all interleave. */
module UdpProxy {
  import opened Text

  type ListenerId = nat
  type Key = string
  type FlowId = nat

  const MAX_FLOWS := 128

  /** Who holds a listener's mutex, and how far it has come: the packet handler,
      from the lookup that found no flow to the start of the flow's reader, or
      someone who took an entry out of the map and is to count it down. */
  datatype Stage =
    | Free
    | Acquiring(key: Key)
    | Loaded(key: Key, seen: int)
    | Dialing(key: Key)
    | Inserted(key: Key, flow: FlowId)
    | Counted(key: Key, flow: FlowId)
    | Removed(reader: Option<FlowId>)

  datatype Listener = Listener(stage: Stage, closing: bool)

  /** A reader; ended once closeFlow is behind it and only its slot is left to
      give back. */
  datatype Reader = Reader(listener: ListenerId, key: Key, ended: bool)

  datatype State = State(limit: nat, slots: int, count: nat, tcp: nat, listeners: map<ListenerId, Listener>,
                         flows: map<(ListenerId, Key), FlowId>, readers: map<FlowId, Reader>, nextFlow: FlowId)

  /** udpFlowLimit, which tests may lower. */
  function Limit(configured: int): (limit: nat)
    ensures 0 < limit <= MAX_FLOWS
  {
    if configured <= 0 || configured > MAX_FLOWS then MAX_FLOWS else configured
  }

  function Start(configured: int, listeners: set<ListenerId>): State {
    State(Limit(configured), 0, 0, 0, map l | l in listeners :: Listener(Free, false), map[], map[], 0)
  }

  datatype Step =
    | Packet(l: ListenerId, key: Key)
    | Load(l: ListenerId)
    | CompareAndSwap(l: ListenerId)
    | Dial(l: ListenerId, works: bool)
    | Increment(l: ListenerId)
    | Go(l: ListenerId)
    | Sweep(l: ListenerId, key: Key)
    | Shut(l: ListenerId)
    | Decrement(l: ListenerId)
    | ReadFails(flow: FlowId)
    | Release(flow: FlowId)
    | TcpOpens
    | TcpCloses

  function At(s: State, l: ListenerId, stage: Stage): State
    requires l in s.listeners
  {
    s.(listeners := s.listeners[l := s.listeners[l].(stage := stage)])
  }

  /** activity.dec, with its floor. */
  function Floor(count: nat): nat { if count > 0 then count - 1 else count }

  function Do(s: State, step: Step): State {
    match step
    case TcpOpens => s.(count := s.count + 1, tcp := s.tcp + 1)
    case TcpCloses => if s.tcp == 0 then s else s.(count := Floor(s.count), tcp := s.tcp - 1)
    case ReadFails(flow) => if flow in s.readers then CloseFlow(s, flow, s.readers[flow]) else s
    case Release(flow) =>
      if flow in s.readers && s.readers[flow].ended then s.(slots := s.slots - 1, readers := s.readers - {flow}) else s
    case _ => if step.l in s.listeners then Listens(s, step, s.listeners[step.l]) else s
  }

  /** closeFlow, under the mutex: the entry goes only if it is this flow's own. */
  function CloseFlow(s: State, flow: FlowId, r: Reader): State {
    if r.ended || r.listener !in s.listeners || s.listeners[r.listener].stage != Free then s
    else if (r.listener, r.key) in s.flows && s.flows[(r.listener, r.key)] == flow then
      At(s, r.listener, Removed(Some(flow))).(flows := s.flows - {(r.listener, r.key)})
    else s.(readers := s.readers[flow := r.(ended := true)])
  }

  function Listens(s: State, step: Step, listener: Listener): State
    requires !step.TcpOpens? && !step.TcpCloses? && !step.ReadFails? && !step.Release?
    requires step.l in s.listeners && listener == s.listeners[step.l]
  {
    var l := step.l;
    match (step, listener.stage)
    case (Packet(_, key), Free) =>
      if listener.closing || (l, key) in s.flows then s else At(s, l, Acquiring(key))
    case (Load(_), Acquiring(key)) => At(s, l, if s.slots >= s.limit then Free else Loaded(key, s.slots))
    case (CompareAndSwap(_), Loaded(key, seen)) =>
      if s.slots == seen then At(s, l, Dialing(key)).(slots := s.slots + 1) else At(s, l, Acquiring(key))
    case (Dial(_, works), Dialing(key)) =>
      if works then
        At(s, l, Inserted(key, s.nextFlow)).(flows := s.flows[(l, key) := s.nextFlow], nextFlow := s.nextFlow + 1)
      else At(s, l, Free).(slots := s.slots - 1)
    case (Increment(_), Inserted(key, flow)) => At(s, l, Counted(key, flow)).(count := s.count + 1)
    case (Go(_), Counted(key, flow)) => At(s, l, Free).(readers := s.readers[flow := Reader(l, key, false)])
    case (Sweep(_, key), Free) =>
      if (l, key) in s.flows then At(s, l, Removed(None)).(flows := s.flows - {(l, key)}) else s
    case (Shut(_), Free) => s.(listeners := s.listeners[l := listener.(closing := true)])
    case (Decrement(_), Removed(reader)) =>
      var t := At(s, l, Free).(count := Floor(s.count));
      if reader.Some? && reader.value in s.readers then
        t.(readers := s.readers[reader.value := s.readers[reader.value].(ended := true)])
      else t
    case _ => s
  }

  function Run(configured: int, listeners: set<ListenerId>, steps: seq<Step>): State {
    if steps == [] then Start(configured, listeners)
    else Do(Run(configured, listeners, steps[..|steps| - 1]), steps[|steps| - 1])
  }

  // ---- what every interleaving keeps ----

  /** The listener holds a slot its flow's reader does not hold yet. */
  predicate Holds(stage: Stage) { stage.Dialing? || stage.Inserted? || stage.Counted? }

  function Holding(s: State): set<ListenerId> { set l | l in s.listeners && Holds(s.listeners[l].stage) }

  /** Entries put in the map and not counted yet; taken out and still counted. */
  function Uncounted(s: State): set<ListenerId> { set l | l in s.listeners && s.listeners[l].stage.Inserted? }

  function Overcounted(s: State): set<ListenerId> { set l | l in s.listeners && s.listeners[l].stage.Removed? }

  /** Slots are held by readers and by flows being dialled; the count is of the
      entries and the TCP flows, but for those just coming or going. */
  predicate Sums(s: State) {
    && s.slots == |s.readers| + |Holding(s)| <= s.limit
    && s.count + |Uncounted(s)| == |s.flows| + s.tcp + |Overcounted(s)|
  }

  /** The flow of an entry is read, or is about to be. */
  predicate EntryOk(s: State, e: (ListenerId, Key))
    requires e in s.flows
  {
    var flow := s.flows[e];
    && flow < s.nextFlow && e.0 in s.listeners
    && if flow in s.readers then s.readers[flow] == Reader(e.0, e.1, false)
       else s.listeners[e.0].stage in {Inserted(e.1, flow), Counted(e.1, flow)}
  }

  predicate StageOk(s: State, l: ListenerId)
    requires l in s.listeners
  {
    match s.listeners[l].stage
    case Acquiring(key) => (l, key) !in s.flows
    case Loaded(key, seen) => (l, key) !in s.flows && seen < s.limit
    case Dialing(key) => (l, key) !in s.flows
    case Inserted(key, flow) => (l, key) in s.flows && s.flows[(l, key)] == flow && flow !in s.readers
    case Counted(key, flow) => (l, key) in s.flows && s.flows[(l, key)] == flow && flow !in s.readers
    case Removed(Some(flow)) =>
      && flow in s.readers && s.readers[flow].listener == l && !s.readers[flow].ended
      && ((l, s.readers[flow].key) in s.flows ==> s.flows[(l, s.readers[flow].key)] != flow)
    case _ => true
  }

  predicate OneEntryEach(s: State) {
    forall d, e | d in s.flows && e in s.flows && s.flows[d] == s.flows[e] :: d == e
  }

  predicate Shape(s: State) {
    && OneEntryEach(s)
    && (forall e | e in s.flows :: EntryOk(s, e))
    && (forall l | l in s.listeners :: StageOk(s, l))
    && (forall flow | flow in s.readers :: flow < s.nextFlow)
  }

  predicate Sound(s: State) { Shape(s) && Sums(s) }

  lemma MapGrows<K, V>(m: map<K, V>, k: K, v: V)
    ensures |m[k := v]| == if k in m then |m| else |m| + 1
  {
    var n := m[k := v];
    assert n.Keys == m.Keys + {k};
    assert |n| == |n.Keys| && |m| == |m.Keys|;
  }

  lemma MapShrinks<K, V>(m: map<K, V>, k: K)
    requires k in m
    ensures |m - {k}| == |m| - 1
  {
    assert (m - {k}).Keys == m.Keys - {k};
    assert |m - {k}| == |(m - {k}).Keys| && |m| == |m.Keys|;
  }

  function One(b: bool): nat { if b then 1 else 0 }

  lemma Recounted(a: set<ListenerId>, b: set<ListenerId>, l: ListenerId)
    requires a - {l} == b - {l}
    ensures |a| - One(l in a) == |b| - One(l in b)
  {
    var c := a - {l};
    assert a == if l in a then c + {l} else c;
    assert b == if l in b then c + {l} else c;
  }

  /** One listener went on to another stage: its share of each sum changes. */
  lemma Restaged(s: State, t: State, l: ListenerId)
    requires l in s.listeners && l in t.listeners && t.listeners == s.listeners[l := t.listeners[l]]
    ensures var a, b := s.listeners[l].stage, t.listeners[l].stage;
      && |Holding(s)| - One(Holds(a)) == |Holding(t)| - One(Holds(b))
      && |Uncounted(s)| - One(a.Inserted?) == |Uncounted(t)| - One(b.Inserted?)
      && |Overcounted(s)| - One(a.Removed?) == |Overcounted(t)| - One(b.Removed?)
  {
    Recounted(Holding(s), Holding(t), l);
    Recounted(Uncounted(s), Uncounted(t), l);
    Recounted(Overcounted(s), Overcounted(t), l);
  }

  lemma {:induction false} FewerThanEntries(ls: set<ListenerId>, flows: map<(ListenerId, Key), FlowId>)
    requires forall l | l in ls :: exists key :: (l, key) in flows
    ensures |ls| <= |flows|
    decreases |ls|
  {
    if ls != {} {
      var l :| l in ls;
      var key :| (l, key) in flows;
      var rest := flows - {(l, key)};
      MapShrinks(flows, (l, key));
      forall k | k in ls - {l} ensures exists key :: (k, key) in rest {
        var other :| (k, other) in flows;
        assert (k, other) in rest;
      }
      FewerThanEntries(ls - {l}, rest);
    }
  }

  /** So the floor under the count is never met. */
  lemma CountCovers(s: State)
    requires Sound(s)
    ensures s.count >= s.tcp + |Overcounted(s)|
    ensures forall l | l in s.listeners && s.listeners[l].stage.Removed? :: s.count > 0
  {
    forall l | l in Uncounted(s) ensures exists key :: (l, key) in s.flows {
      assert StageOk(s, l);
      assert (l, s.listeners[l].stage.key) in s.flows;
    }
    FewerThanEntries(Uncounted(s), s.flows);
    forall l | l in s.listeners && s.listeners[l].stage.Removed? ensures s.count > 0 {
      assert l in Overcounted(s);
    }
  }

  // ---- the steps: the sums ----

  lemma AcquireSums(s: State, step: Step)
    requires Sound(s) && (step.Packet? || step.Load? || step.CompareAndSwap? || step.Shut? || step.Increment?)
    ensures Sums(Do(s, step))
  {
    hide EntryOk, OneEntryEach, Holding, Uncounted, Overcounted;
    if step.l in s.listeners {
      assert StageOk(s, step.l);
      Restaged(s, Do(s, step), step.l);
    }
  }

  lemma DialSums(s: State, l: ListenerId, works: bool)
    requires Sound(s)
    ensures Sums(Do(s, Dial(l, works)))
  {
    hide EntryOk, OneEntryEach, Holding, Uncounted, Overcounted;
    var t := Do(s, Dial(l, works));
    if l in s.listeners && s.listeners[l].stage.Dialing? {
      assert StageOk(s, l);
      Restaged(s, t, l);
      MapGrows(s.flows, (l, s.listeners[l].stage.key), s.nextFlow);
    }
  }

  lemma GoSums(s: State, l: ListenerId)
    requires Sound(s)
    ensures Sums(Do(s, Go(l)))
  {
    hide EntryOk, OneEntryEach, Holding, Uncounted, Overcounted;
    var t := Do(s, Go(l));
    if l in s.listeners && s.listeners[l].stage.Counted? {
      assert StageOk(s, l);
      Restaged(s, t, l);
      MapGrows(s.readers, s.listeners[l].stage.flow, Reader(l, s.listeners[l].stage.key, false));
    }
  }

  lemma DecrementSums(s: State, l: ListenerId)
    requires Sound(s)
    ensures Sums(Do(s, Decrement(l)))
  {
    hide EntryOk, OneEntryEach, Holding, Uncounted, Overcounted;
    var t := Do(s, Decrement(l));
    if l in s.listeners && s.listeners[l].stage.Removed? {
      assert StageOk(s, l);
      Restaged(s, t, l);
      CountCovers(s);
      var reader := s.listeners[l].stage.reader;
      if reader.Some? { MapGrows(s.readers, reader.value, t.readers[reader.value]); }
    }
  }

  lemma SweepSums(s: State, l: ListenerId, key: Key)
    requires Sound(s)
    ensures Sums(Do(s, Sweep(l, key)))
  {
    hide EntryOk, OneEntryEach, StageOk, Holding, Uncounted, Overcounted;
    var t := Do(s, Sweep(l, key));
    if t != s {
      Restaged(s, t, l);
      MapShrinks(s.flows, (l, key));
    }
  }

  lemma ReadFailsSums(s: State, flow: FlowId)
    requires Sound(s)
    ensures Sums(Do(s, ReadFails(flow)))
  {
    hide EntryOk, OneEntryEach, StageOk, Holding, Uncounted, Overcounted, Shape;
    var t := Do(s, ReadFails(flow));
    if t != s {
      var l, key := s.readers[flow].listener, s.readers[flow].key;
      Restaged(s, t, l);
      if t.flows != s.flows { MapShrinks(s.flows, (l, key)); }
      MapGrows(s.readers, flow, t.readers[flow]);
    }
  }

  lemma OtherSums(s: State, step: Step)
    requires Sound(s) && (step.Release? || step.TcpOpens? || step.TcpCloses?)
    ensures Sums(Do(s, step))
  {
    hide Shape, Holding, Uncounted, Overcounted;
    if step.Release? {
      ReleaseSums(s, step.flow);
    } else {
      CountCovers(s);
      SameStages(s, Do(s, step));
    }
  }

  lemma ReleaseSums(s: State, flow: FlowId)
    requires Sums(s)
    ensures Sums(Do(s, Release(flow)))
  {
    hide Holding, Uncounted, Overcounted;
    var t := Do(s, Release(flow));
    SameStages(s, t);
    if t != s { MapShrinks(s.readers, flow); }
  }

  lemma SameStages(s: State, t: State)
    requires t.listeners == s.listeners
    ensures Holding(t) == Holding(s) && Uncounted(t) == Uncounted(s) && Overcounted(t) == Overcounted(s)
  {}

  // ---- the steps: the shape ----

  /** Where no entry is added and no reader starts or leaves, an entry stays as
      it was, its listener in the stage it was in or its flow read. */
  lemma EntriesStay(s: State, t: State, l: ListenerId)
    requires Shape(s) && l in s.listeners && l in t.listeners && t.listeners == s.listeners[l := t.listeners[l]]
    requires forall e | e in t.flows :: e in s.flows && t.flows[e] == s.flows[e]
    requires t.readers == s.readers && t.nextFlow == s.nextFlow && t.limit == s.limit
    requires StageOk(t, l) && (s.listeners[l].stage.Inserted? || s.listeners[l].stage.Counted? ==>
      t.listeners[l].stage == Counted(s.listeners[l].stage.key, s.listeners[l].stage.flow) || t.listeners[l].stage == s.listeners[l].stage)
    requires forall k | k in s.listeners && k != l :: s.listeners[k].stage.Inserted? || s.listeners[k].stage.Counted? ==>
      forall key | (k, key) in s.flows :: (k, key) in t.flows
    ensures Shape(t)
  {
    forall e | e in t.flows ensures EntryOk(t, e) { assert EntryOk(s, e); }
    forall k | k in t.listeners ensures StageOk(t, k) { assert StageOk(s, k); }
  }

  lemma AcquireShape(s: State, step: Step)
    requires Shape(s) && (step.Packet? || step.Load? || step.CompareAndSwap? || step.Shut? || step.Increment?)
    ensures Shape(Do(s, step))
  {
    hide EntryOk, OneEntryEach, Shape;
    var t := Do(s, step);
    if t != s {
      assert StageOk(s, step.l) by { ShapeOfStage(s, step.l); }
      EntriesStay(s, t, step.l);
    }
  }

  lemma ShapeOfStage(s: State, l: ListenerId)
    requires Shape(s) && l in s.listeners
    ensures StageOk(s, l)
  {}

  lemma DialShape(s: State, l: ListenerId, works: bool)
    requires Shape(s)
    ensures Shape(Do(s, Dial(l, works)))
  {
    var t := Do(s, Dial(l, works));
    if t != s {
      assert StageOk(s, l);
      forall e | e in t.flows ensures EntryOk(t, e) { if e in s.flows { assert EntryOk(s, e); } }
      forall k | k in t.listeners ensures StageOk(t, k) { assert StageOk(s, k); }
      forall d, e | d in t.flows && e in t.flows && t.flows[d] == t.flows[e] ensures d == e {
        if d in s.flows { assert EntryOk(s, d); }
        if e in s.flows { assert EntryOk(s, e); }
      }
    }
  }

  lemma GoShape(s: State, l: ListenerId)
    requires Shape(s)
    ensures Shape(Do(s, Go(l)))
  {
    var t := Do(s, Go(l));
    if t != s {
      assert StageOk(s, l);
      var key, flow := s.listeners[l].stage.key, s.listeners[l].stage.flow;
      assert EntryOk(s, (l, key));
      forall e | e in t.flows ensures EntryOk(t, e) { assert EntryOk(s, e); }
      forall k | k in t.listeners ensures StageOk(t, k) { assert StageOk(s, k); }
    }
  }

  lemma RemoveShape(s: State, step: Step)
    requires Shape(s) && (step.Sweep? || step.ReadFails?)
    ensures Shape(Do(s, step))
  {
    var t := Do(s, step);
    if t != s {
      forall e | e in t.flows ensures EntryOk(t, e) { assert EntryOk(s, e); }
      forall k | k in t.listeners ensures StageOk(t, k) { assert StageOk(s, k); }
    }
  }

  lemma DecrementShape(s: State, l: ListenerId)
    requires Shape(s)
    ensures Shape(Do(s, Decrement(l)))
  {
    var t := Do(s, Decrement(l));
    if t != s {
      assert StageOk(s, l);
      forall e | e in t.flows ensures EntryOk(t, e) { assert EntryOk(s, e); }
      forall k | k in t.listeners ensures StageOk(t, k) { assert StageOk(s, k); }
    }
  }

  lemma OtherShape(s: State, step: Step)
    requires Shape(s) && (step.Release? || step.TcpOpens? || step.TcpCloses?)
    ensures Shape(Do(s, step))
  {
    var t := Do(s, step);
    forall e | e in t.flows ensures EntryOk(t, e) { assert EntryOk(s, e); }
    forall k | k in t.listeners ensures StageOk(t, k) { assert StageOk(s, k); }
  }

  lemma DoKeepsSound(s: State, step: Step)
    requires Sound(s)
    ensures Sound(Do(s, step))
  {
    hide Shape, Sums, Do;
    match step
    case Dial(l, works) => DialShape(s, l, works); DialSums(s, l, works);
    case Go(l) => GoShape(s, l); GoSums(s, l);
    case Decrement(l) => DecrementShape(s, l); DecrementSums(s, l);
    case Sweep(l, key) => RemoveShape(s, step); SweepSums(s, l, key);
    case ReadFails(flow) => RemoveShape(s, step); ReadFailsSums(s, flow);
    case Release(_) => OtherShape(s, step); OtherSums(s, step);
    case TcpOpens => OtherShape(s, step); OtherSums(s, step);
    case TcpCloses => OtherShape(s, step); OtherSums(s, step);
    case _ => AcquireShape(s, step); AcquireSums(s, step);
  }

  lemma StartIsSound(configured: int, listeners: set<ListenerId>)
    ensures Sound(Start(configured, listeners))
  {
    var s := Start(configured, listeners);
    assert Holding(s) == Uncounted(s) == Overcounted(s) == {};
  }

  lemma {:induction false} RunIsSound(configured: int, listeners: set<ListenerId>, steps: seq<Step>)
    ensures Sound(Run(configured, listeners, steps))
    decreases |steps|
  {
    hide Sound, Do;
    if steps == [] {
      StartIsSound(configured, listeners);
    } else {
      RunIsSound(configured, listeners, steps[..|steps| - 1]);
      DoKeepsSound(Run(configured, listeners, steps[..|steps| - 1]), steps[|steps| - 1]);
    }
  }

  // ---- the properties ----

  /** In every interleaving the slots taken are those of the readers and of one
      flow at most per listener on its way to a reader, and never more than the
      limit. */
  lemma SlotsAreReaders(configured: int, listeners: set<ListenerId>, steps: seq<Step>)
    ensures var s := Run(configured, listeners, steps);
      && s.slots == |s.readers| + |Holding(s)|
      && |s.readers| <= s.slots <= Limit(configured) <= MAX_FLOWS
      && |Holding(s)| <= |s.listeners|
      && (s.readers == map[] && Holding(s) == {} ==> s.slots == 0)
  {
    hide Sound, Do;
    RunIsSound(configured, listeners, steps);
    RunKeepsLimit(configured, listeners, steps);
    var s := Run(configured, listeners, steps);
    assert Sums(s) by { SoundSums(s); }
    Subset(Holding(s), s.listeners.Keys);
  }

  lemma SoundSums(s: State)
    requires Sound(s)
    ensures Sums(s)
  {}

  lemma Subset(a: set<ListenerId>, b: set<ListenerId>)
    requires a <= b
    ensures |a| <= |b|
  {
    assert b == a + (b - a);
  }

  lemma {:induction false} RunKeepsLimit(configured: int, listeners: set<ListenerId>, steps: seq<Step>)
    ensures Run(configured, listeners, steps).limit == Limit(configured)
    decreases |steps|
  {
    if steps != [] { RunKeepsLimit(configured, listeners, steps[..|steps| - 1]); }
  }

  /** The activity count is the number of map entries and counted TCP flows
      whenever nobody is between a change of the map and its count, and it is
      never counted down from zero. */
  lemma CountIsEntries(configured: int, listeners: set<ListenerId>, steps: seq<Step>)
    ensures var s := Run(configured, listeners, steps);
      && s.count + |Uncounted(s)| == |s.flows| + s.tcp + |Overcounted(s)|
      && (s.tcp > 0 ==> s.count > 0)
      && (forall l | l in s.listeners && s.listeners[l].stage.Removed? :: s.count > 0)
  {
    hide Run, Shape;
    RunIsSound(configured, listeners, steps);
    CountCovers(Run(configured, listeners, steps));
  }

  /** Every entry's flow has a reader that has not ended, but for one its listener
      is just starting; no flow is registered twice. */
  lemma EntriesAreRead(configured: int, listeners: set<ListenerId>, steps: seq<Step>)
    ensures var s := Run(configured, listeners, steps);
      && OneEntryEach(s)
      && forall e | e in s.flows ::
           && e.0 in s.listeners
           && if s.flows[e] in s.readers then s.readers[s.flows[e]] == Reader(e.0, e.1, false)
              else s.listeners[e.0].stage in {Inserted(e.1, s.flows[e]), Counted(e.1, s.flows[e])}
  {
    hide Run;
    RunIsSound(configured, listeners, steps);
    var s := Run(configured, listeners, steps);
    forall e | e in s.flows ensures EntryOk(s, e) {}
  }

  /** An entry goes by a sweep or a shutdown of its listener or by its own reader
      alone: a late reader of a client's old flow leaves the new one. And an
      entry never changes hands in place. */
  lemma OnlyItsReaderRemoves(configured: int, listeners: set<ListenerId>, steps: seq<Step>, step: Step, e: (ListenerId, Key))
    requires e in Run(configured, listeners, steps).flows
    ensures var s, t := Run(configured, listeners, steps), Do(Run(configured, listeners, steps), step);
      if e in t.flows then t.flows[e] == s.flows[e] else step == Sweep(e.0, e.1) || step == ReadFails(s.flows[e])
  {
    hide Run, Sums;
    RunIsSound(configured, listeners, steps);
    var s := Run(configured, listeners, steps);
    assert EntryOk(s, e);
    if step.Dial? && step.l in s.listeners { assert StageOk(s, step.l); }
  }

  // ---- who is served ----

  /** An acquisition is refused when the slots are used up, and only then:
      neither a slot taken meanwhile nor anything else ends it without one. */
  lemma RefusedOnlyWhenFull(configured: int, listeners: set<ListenerId>, steps: seq<Step>, step: Step, l: ListenerId)
    requires var s := Run(configured, listeners, steps);
      l in s.listeners && (s.listeners[l].stage.Acquiring? || s.listeners[l].stage.Loaded?)
    ensures var s, t := Run(configured, listeners, steps), Run(configured, listeners, steps + [step]);
      && l in t.listeners
      && (t.listeners[l].stage == Free <==>
            step == Load(l) && s.listeners[l].stage.Acquiring? && s.slots >= if 1 <= configured <= 128 then configured else 128)
      && (t.listeners[l].stage != Free ==>
            && (t.listeners[l].stage.Acquiring? || t.listeners[l].stage.Loaded? || t.listeners[l].stage.Dialing?)
            && t.listeners[l].stage.key == s.listeners[l].stage.key
            && (t.listeners[l].stage.Dialing? ==> step == CompareAndSwap(l) && t.slots == s.slots + 1))
  {
    hide Run, Do, Limit;
    RunSteps(configured, listeners, steps, step);
    RunKeepsLimit(configured, listeners, steps);
    LimitIs(configured);
    RefusedWhen(Run(configured, listeners, steps), step, l);
  }

  lemma RefusedWhen(s: State, step: Step, l: ListenerId)
    requires l in s.listeners && (s.listeners[l].stage.Acquiring? || s.listeners[l].stage.Loaded?)
    ensures var t := Do(s, step);
      && l in t.listeners
      && (t.listeners[l].stage == Free <==> step == Load(l) && s.listeners[l].stage.Acquiring? && s.slots >= s.limit)
      && (t.listeners[l].stage != Free ==>
            && (t.listeners[l].stage.Acquiring? || t.listeners[l].stage.Loaded? || t.listeners[l].stage.Dialing?)
            && t.listeners[l].stage.key == s.listeners[l].stage.key
            && (t.listeners[l].stage.Dialing? ==> step == CompareAndSwap(l) && t.slots == s.slots + 1))
  {}

  lemma RunSteps(configured: int, listeners: set<ListenerId>, steps: seq<Step>, step: Step)
    ensures Run(configured, listeners, steps + [step]) == Do(Run(configured, listeners, steps), step)
  {
    hide Do;
    assert (steps + [step])[..|steps|] == steps;
  }

  /** The client has an entry in the map whose reader lives. */
  predicate Served(s: State, l: ListenerId, key: Key) {
    (l, key) in s.flows && s.flows[(l, key)] in s.readers && s.readers[s.flows[(l, key)]] == Reader(l, key, false)
  }

  function Serving(l: ListenerId, key: Key): seq<Step> {
    [Packet(l, key), Load(l), CompareAndSwap(l), Dial(l, true), Increment(l), Go(l)]
  }

  /** Five steps after one another. */
  lemma RunsServing(configured: int, listeners: set<ListenerId>, steps: seq<Step>, l: ListenerId, key: Key)
    ensures var s := Run(configured, listeners, steps);
      Run(configured, listeners, steps + Serving(l, key))
      == Do(Do(Do(Do(Do(Do(s, Packet(l, key)), Load(l)), CompareAndSwap(l)), Dial(l, true)), Increment(l)), Go(l))
  {
    hide Run, Do;
    var a := steps + [Packet(l, key)];
    var b := a + [Load(l)];
    var c := b + [CompareAndSwap(l)];
    var d := c + [Dial(l, true)];
    var e := d + [Increment(l)];
    RunSteps(configured, listeners, steps, Packet(l, key));
    RunSteps(configured, listeners, a, Load(l));
    RunSteps(configured, listeners, b, CompareAndSwap(l));
    RunSteps(configured, listeners, c, Dial(l, true));
    RunSteps(configured, listeners, d, Increment(l));
    RunSteps(configured, listeners, e, Go(l));
    assert e + [Go(l)] == steps + Serving(l, key);
  }

  /** From any point of any run, a new client of an idle listener is served
      exactly when a slot is left; it costs one slot and counts as one flow, and a
      client that is not served leaves no trace. */
  lemma ServedBelowTheLimit(configured: int, listeners: set<ListenerId>, steps: seq<Step>, l: ListenerId, key: Key)
    requires var s := Run(configured, listeners, steps);
      l in s.listeners && s.listeners[l] == Listener(Free, false) && (l, key) !in s.flows
    ensures var s, t := Run(configured, listeners, steps), Run(configured, listeners, steps + Serving(l, key));
      && (Served(t, l, key) <==> s.slots < if 1 <= configured <= 128 then configured else 128)
      && (Served(t, l, key) ==>
            t.slots == s.slots + 1 && t.count == s.count + 1 && t.flows.Keys == s.flows.Keys + {(l, key)}
            && forall e | e in s.flows :: t.flows[e] == s.flows[e])
      && (!Served(t, l, key) ==> t == s)
  {
    hide Run, Do, Limit;
    var s := Run(configured, listeners, steps);
    RunsServing(configured, listeners, steps, l, key);
    RunKeepsLimit(configured, listeners, steps);
    LimitIs(configured);
    if s.slots < s.limit { ServesOne(s, l, key); } else { RefusesOne(s, l, key); }
  }

  lemma LimitIs(configured: int)
    ensures Limit(configured) == if 1 <= configured <= 128 then configured else 128
  {}

  lemma AcquiresOne(s: State, l: ListenerId, key: Key)
    requires l in s.listeners && s.listeners[l] == Listener(Free, false) && (l, key) !in s.flows && s.slots < s.limit
    ensures Do(Do(Do(s, Packet(l, key)), Load(l)), CompareAndSwap(l)) == At(s, l, Dialing(key)).(slots := s.slots + 1)
  {
    hide Do;
    var a := Do(s, Packet(l, key));
    assert a == At(s, l, Acquiring(key)) by { Does(s, Packet(l, key)); }
    var b := Do(a, Load(l));
    assert b == At(a, l, Loaded(key, s.slots)) by { Does(a, Load(l)); }
    assert Do(b, CompareAndSwap(l)) == At(b, l, Dialing(key)).(slots := s.slots + 1) by { Does(b, CompareAndSwap(l)); }
  }

  lemma RegistersOne(s: State, l: ListenerId, key: Key)
    requires l in s.listeners && s.listeners[l].stage == Dialing(key)
    ensures var t := Do(Do(Do(s, Dial(l, true)), Increment(l)), Go(l));
      t == At(s, l, Free).(flows := s.flows[(l, key) := s.nextFlow], nextFlow := s.nextFlow + 1, count := s.count + 1,
                           readers := s.readers[s.nextFlow := Reader(l, key, false)])
  {
    hide Do;
    var d := Do(s, Dial(l, true));
    assert d == At(s, l, Inserted(key, s.nextFlow)).(flows := s.flows[(l, key) := s.nextFlow], nextFlow := s.nextFlow + 1)
    by { Does(s, Dial(l, true)); }
    var e := Do(d, Increment(l));
    assert e == At(d, l, Counted(key, s.nextFlow)).(count := s.count + 1) by { Does(d, Increment(l)); }
    assert Do(e, Go(l)) == At(e, l, Free).(readers := s.readers[s.nextFlow := Reader(l, key, false)]) by { Does(e, Go(l)); }
  }

  lemma ServesOne(s: State, l: ListenerId, key: Key)
    requires l in s.listeners && s.listeners[l] == Listener(Free, false) && (l, key) !in s.flows && s.slots < s.limit
    ensures var t := Do(Do(Do(Do(Do(Do(s, Packet(l, key)), Load(l)), CompareAndSwap(l)), Dial(l, true)), Increment(l)), Go(l));
      && Served(t, l, key) && t.slots == s.slots + 1 && t.count == s.count + 1
      && t.flows == s.flows[(l, key) := s.nextFlow]
  {
    hide Do;
    AcquiresOne(s, l, key);
    RegistersOne(At(s, l, Dialing(key)).(slots := s.slots + 1), l, key);
  }

  lemma Does(s: State, step: Step)
    requires !step.TcpOpens? && !step.TcpCloses? && !step.ReadFails? && !step.Release? && step.l in s.listeners
    ensures Do(s, step) == Listens(s, step, s.listeners[step.l])
  {
    hide Listens;
  }

  lemma RefusesOne(s: State, l: ListenerId, key: Key)
    requires l in s.listeners && s.listeners[l] == Listener(Free, false) && (l, key) !in s.flows && s.slots >= s.limit
    ensures Do(Do(Do(Do(Do(Do(s, Packet(l, key)), Load(l)), CompareAndSwap(l)), Dial(l, true)), Increment(l)), Go(l)) == s
  {
    var t := Do(Do(s, Packet(l, key)), Load(l));
    assert t.listeners == s.listeners;
    assert t == s;
  }

  /** From any point of any run at which its listener is idle, a client's flow
      whose backend is done goes for good: its entry, its count and its slot. */
  lemma FlowsEnd(configured: int, listeners: set<ListenerId>, steps: seq<Step>, l: ListenerId, key: Key)
    requires var s := Run(configured, listeners, steps);
      Served(s, l, key) && l in s.listeners && s.listeners[l].stage == Free
    ensures var s := Run(configured, listeners, steps);
      var flow := s.flows[(l, key)];
      var t := Run(configured, listeners, steps + [ReadFails(flow), Decrement(l), Release(flow)]);
      s.count > 0
      && t == s.(flows := s.flows - {(l, key)}, readers := s.readers - {flow}, count := s.count - 1, slots := s.slots - 1)
  {
    hide Run, Do, CloseFlow;
    var s := Run(configured, listeners, steps);
    var flow := s.flows[(l, key)];
    var a := steps + [ReadFails(flow)];
    var b := a + [Decrement(l)];
    RunSteps(configured, listeners, steps, ReadFails(flow));
    RunSteps(configured, listeners, a, Decrement(l));
    RunSteps(configured, listeners, b, Release(flow));
    assert b + [Release(flow)] == steps + [ReadFails(flow), Decrement(l), Release(flow)];
    Closes(s, l, key);
    RunIsSound(configured, listeners, a);
    CountCovers(Run(configured, listeners, a));
    EndsOne(s, l, key);
  }

  lemma Closes(s: State, l: ListenerId, key: Key)
    requires Served(s, l, key) && l in s.listeners && s.listeners[l].stage == Free
    ensures var flow := s.flows[(l, key)];
      Do(s, ReadFails(flow)) == At(s, l, Removed(Some(flow))).(flows := s.flows - {(l, key)})
  {}

  lemma EndsOne(s: State, l: ListenerId, key: Key)
    requires Served(s, l, key) && l in s.listeners && s.listeners[l].stage == Free && s.count > 0
    ensures var flow := s.flows[(l, key)];
      Do(Do(Do(s, ReadFails(flow)), Decrement(l)), Release(flow))
      == s.(flows := s.flows - {(l, key)}, readers := s.readers - {flow}, count := s.count - 1, slots := s.slots - 1)
  {
    var flow := s.flows[(l, key)];
    Closes(s, l, key);
    var b := Do(Do(s, ReadFails(flow)), Decrement(l));
    assert b.listeners == s.listeners;
    assert Do(b, Release(flow)).readers == s.readers - {flow};
  }
}
