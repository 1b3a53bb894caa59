/** The notification outbox (internal/notify/notify.go): passes over the events
    past a durable cursor, with retries, channels that fail for good in a pass,
    and an interruption at any point. What a pass does to the world is a log, in
    order; a crash leaves some beginning of it. */
module Notify {
  import opened Text

  type Id = nat

  // ---- which failures are tried again ----

  datatype Error =
    | Cancelled
    | Permanent
    | Refused
    | Status(code: int, retryAfter: nat)
    | Smtp(code: int)
    | Certificate
    | Network

  /** Server errors, a timeout and too many requests, a mail server's transient
      replies and the network are worth another try; nothing else is. */
  predicate Retryable(e: Error): (worth: bool)
    ensures worth <==> e.Network?
                       || (e.Status? && (500 <= e.code || e.code in {408, 429}))
                       || (e.Smtp? && 400 <= e.code <= 499)
  {
    match e
    case Status(code, _) => code >= 500 || code == 429 || code == 408
    case Smtp(code) => 400 <= code < 500
    case Network => true
    case _ => false
  }

  // ---- events, channels, the environment ----

  datatype Event = Event(id: Id, kind: string, server: Id)
  datatype Channel = Channel(id: Id, events: seq<string>, server: Id)

  datatype Outcome = Delivered | Fails(error: Error)

  /** What happens to a pass: how the delivery begun at each moment ends, whether
      a channel's settings can be read then, and from when on the context is
      cancelled. */
  datatype World = World(outcomes: nat -> Outcome, settings: nat -> bool, stop: nat)

  datatype Config = Config(attempts: int, backoff: nat)

  const MAX_RETRY_AFTER := 10

  datatype Action =
    | Tried(channel: Id, event: Id, outcome: Outcome)
    | Waited(seconds: nat)
    | Recorded(channel: Id, event: Id, missed: bool)
    | Moved(event: Id)

  type Log = seq<Action>

  predicate QuietByDefault(kind: string) { "notification." <= kind || kind == "schedule.run" }

  /** Whether an enabled channel takes an event; server 0 is the whole panel. */
  predicate Matches(c: Channel, e: Event): (takes: bool)
    ensures takes <==> c.server in {0, e.server}
                       && (e.kind in c.events || (c.events == [] && e.kind != "schedule.run" && !("notification." <= e.kind)))
  {
    && (c.server == 0 || c.server == e.server)
    && if c.events == [] then !QuietByDefault(e.kind) else e.kind in c.events
  }

  function Attempts(cfg: Config): (n: nat)
    ensures n >= 1
  {
    if cfg.attempts < 1 then 1 else cfg.attempts
  }

  function Pause(wait: nat, e: Error): (seconds: nat)
    ensures seconds <= MAX_RETRY_AFTER
  {
    var pause := if e.Status? && e.retryAfter > 0 then e.retryAfter else wait;
    if pause > MAX_RETRY_AFTER then MAX_RETRY_AFTER else pause
  }

  // ---- what the loops do, as functions ----

  datatype Delivery = Delivery(log: Log, error: Option<Error>, time: nat)

  /** deliverWithRetry from its i-th attempt on. */
  function Deliver(w: World, attempts: nat, c: Id, e: Id, i: nat, wait: nat, t: nat): Delivery
    decreases attempts - i
  {
    var o := w.outcomes(t);
    var tried := [Tried(c, e, o)];
    if o.Delivered? then Delivery(tried, None, t + 1)
    else if i >= attempts || !Retryable(o.error) then Delivery(tried, Some(o.error), t + 1)
    else if t + 1 >= w.stop then Delivery(tried, Some(Cancelled), t + 2)
    else
      var next := Deliver(w, attempts, c, e, i + 1, wait * 2, t + 2);
      Delivery(tried + [Waited(Pause(wait, o.error))] + next.log, next.error, next.time)
  }

  function Power(k: nat): nat { if k == 0 then 1 else 2 * Power(k - 1) }

  /** The j-th try is what the world makes of it, at its moment. */
  predicate TryAt(log: Log, w: World, c: Id, e: Id, start: nat, j: nat) {
    2 * j < |log| && log[2 * j] == Tried(c, e, w.outcomes(start + 2 * j))
  }

  /** It failed so that another try may help, and is followed by a pause: as long
      as the server asked, or else the first pause doubled each time, but ten
      seconds at most. */
  predicate PauseAfter(log: Log, w: World, wait: nat, start: nat, j: nat) {
    && 2 * j + 1 < |log|
    && var o := w.outcomes(start + 2 * j);
       && o.Fails? && Retryable(o.error)
       && var asked := if o.error.Status? && o.error.retryAfter > 0 then o.error.retryAfter else wait * Power(j);
          log[2 * j + 1] == Waited(if asked > 10 then 10 else asked)
  }

  /** The log of n tries of one delivery with pauses between them, which ends when
      it should: with the first success, with the last try allowed, with a failure
      another try cannot change, or because the context was cancelled. */
  predicate TriesInTurn(log: Log, error: Option<Error>, t: nat, w: World, attempts: nat, c: Id, e: Id, wait: nat, start: nat, n: nat) {
    && 1 <= n <= attempts && |log| == 2 * n - 1
    && (forall j | 0 <= j < n :: TryAt(log, w, c, e, start, j))
    && (forall j | 0 <= j < n - 1 :: PauseAfter(log, w, wait, start, j))
    && var last := w.outcomes(start + 2 * n - 2);
       if last.Delivered? then error == None && t == start + 2 * n - 1
       else if n == attempts || !Retryable(last.error) then error == Some(last.error) && t == start + 2 * n - 1
       else error == Some(Cancelled) && t == start + 2 * n && start + 2 * n - 1 >= w.stop
  }

  ghost predicate TriedInTurn(log: Log, error: Option<Error>, t: nat, w: World, attempts: nat, c: Id, e: Id, wait: nat, start: nat) {
    exists n: nat :: TriesInTurn(log, error, t, w, attempts, c, e, wait, start, n)
  }

  lemma DeliverIsTriedInTurn(w: World, cfg: Config, c: Id, e: Id, t: nat)
    ensures var d := Deliver(w, Attempts(cfg), c, e, 1, cfg.backoff, t);
      TriedInTurn(d.log, d.error, d.time, w, if cfg.attempts < 1 then 1 else cfg.attempts, c, e, cfg.backoff, t)
  {
    hide TriesInTurn;
    var n := DeliverTriesInTurn(w, Attempts(cfg), c, e, 1, cfg.backoff, t);
  }

  lemma {:induction false} DeliverTriesInTurn(w: World, attempts: nat, c: Id, e: Id, i: nat, wait: nat, t: nat) returns (n: nat)
    requires 0 < i <= attempts
    ensures var d := Deliver(w, attempts, c, e, i, wait, t);
      TriesInTurn(d.log, d.error, d.time, w, attempts - i + 1, c, e, wait, t, n)
    decreases attempts - i
  {
    var o := w.outcomes(t);
    n := 1;
    if !o.Delivered? && i < attempts && Retryable(o.error) && t + 1 < w.stop {
      var next := Deliver(w, attempts, c, e, i + 1, wait * 2, t + 2);
      n := DeliverTriesInTurn(w, attempts, c, e, i + 1, wait * 2, t + 2);
      OneTryMore(next.log, next.error, next.time, w, attempts - i, c, e, wait, t, n);
      n := n + 1;
    } else {
      assert TryAt([Tried(c, e, o)], w, c, e, t, 0);
    }
  }

  lemma OneTryMore(rest: Log, error: Option<Error>, end: nat, w: World, attempts: nat, c: Id, e: Id, wait: nat, t: nat, n: nat)
    requires TriesInTurn(rest, error, end, w, attempts, c, e, wait * 2, t + 2, n)
    requires w.outcomes(t).Fails? && Retryable(w.outcomes(t).error)
    ensures var log := [Tried(c, e, w.outcomes(t))] + [Waited(Pause(wait, w.outcomes(t).error))] + rest;
      TriesInTurn(log, error, end, w, attempts + 1, c, e, wait, t, n + 1)
  {
    hide Retryable;
    var log := [Tried(c, e, w.outcomes(t))] + [Waited(Pause(wait, w.outcomes(t).error))] + rest;
    forall j | 0 <= j < n + 1 ensures TryAt(log, w, c, e, t, j) {
      if j > 0 { assert TryAt(rest, w, c, e, t + 2, j - 1) && log[2 * j] == rest[2 * (j - 1)]; }
    }
    forall j | 0 <= j < n ensures PauseAfter(log, w, wait, t, j) {
      if j > 0 {
        assert PauseAfter(rest, w, wait * 2, t + 2, j - 1) && log[2 * j + 1] == rest[2 * (j - 1) + 1];
        Doubles(wait, j);
      }
    }
  }

  lemma Doubles(wait: nat, j: nat)
    requires j > 0
    ensures wait * 2 * Power(j - 1) == wait * Power(j)
  {
    assert Power(j) == 2 * Power(j - 1);
  }

  /** What was added to a log. */
  function Appended(before: Log, after: Log): Log { if before <= after then after[|before|..] else [] }

  lemma AppendedIs(before: Log, more: Log)
    ensures Appended(before, before + more) == more
  {}

  datatype Fanned = Fanned(log: Log, tripped: set<Id>, time: nat)

  function After(log: Log, f: Fanned): Fanned { f.(log := log + f.log) }

  /** dispatch over the channels that are left. */
  function Fan(w: World, cfg: Config, e: Event, channels: seq<Channel>, tripped: set<Id>, t: nat): Fanned {
    if channels == [] then Fanned([], tripped, t)
    else
      var c, rest := channels[0], channels[1..];
      if !Matches(c, e) then Fan(w, cfg, e, rest, tripped, t)
      else if c.id in tripped then After([Recorded(c.id, e.id, true)], Fan(w, cfg, e, rest, tripped, t))
      else if !w.settings(t) then After([Recorded(c.id, e.id, true)], Fan(w, cfg, e, rest, tripped, t + 1))
      else
        var d := Deliver(w, Attempts(cfg), c.id, e.id, 1, cfg.backoff, t + 1);
        if d.error.None? then After(d.log + [Recorded(c.id, e.id, false)], Fan(w, cfg, e, rest, tripped, d.time))
        else if d.time >= w.stop then Fanned(d.log, tripped, d.time + 1)
        else After(d.log + [Recorded(c.id, e.id, true)], Fan(w, cfg, e, rest, tripped + {c.id}, d.time + 1))
  }

  /** drain over the events that are left. */
  function Drained(w: World, cfg: Config, events: seq<Event>, channels: seq<Channel>, tripped: set<Id>, t: nat): Log {
    if events == [] || t >= w.stop then []
    else
      var f := Fan(w, cfg, events[0], channels, tripped, t + 1);
      if f.time >= w.stop then f.log
      else f.log + [Moved(events[0].id)] + Drained(w, cfg, events[1..], channels, f.tripped, f.time + 1)
  }

  // ---- the cursor ----

  /** The cursor a log leaves: that of its last move. */
  function CursorAfter(start: Id, log: Log): Id {
    if log == [] then start
    else if log[|log| - 1].Moved? then log[|log| - 1].event
    else CursorAfter(start, log[..|log| - 1])
  }

  predicate NoMoves(log: Log) { forall a | a in log :: !a.Moved? }

  lemma {:induction false} CursorStays(start: Id, before: Log, log: Log)
    requires NoMoves(log)
    ensures CursorAfter(start, before + log) == CursorAfter(start, before)
    decreases |log|
  {
    if log == [] {
      assert before + log == before;
    } else {
      var rest, last := log[..|log| - 1], log[|log| - 1];
      assert last in log && NoMoves(rest);
      CursorStays(start, before, rest);
      assert (before + log)[..|before + log| - 1] == before + rest && (before + log)[|before + log| - 1] == last;
    }
  }

  lemma EmptyLog(start: Id)
    ensures CursorAfter(start, []) == start
  {}

  lemma CursorMoves(start: Id, before: Log, id: Id)
    ensures CursorAfter(start, before + [Moved(id)]) == id
  {}

  lemma {:induction false} DeliverMovesNothing(w: World, attempts: nat, c: Id, e: Id, i: nat, wait: nat, t: nat)
    ensures NoMoves(Deliver(w, attempts, c, e, i, wait, t).log)
    decreases attempts - i
  {
    var o := w.outcomes(t);
    if !o.Delivered? && i < attempts { DeliverMovesNothing(w, attempts, c, e, i + 1, wait * 2, t + 2); }
  }

  lemma {:induction false} FanMovesNothing(w: World, cfg: Config, e: Event, channels: seq<Channel>, tripped: set<Id>, t: nat)
    ensures NoMoves(Fan(w, cfg, e, channels, tripped, t).log)
    decreases |channels|
  {
    if channels != [] {
      var c, rest := channels[0], channels[1..];
      var d := Deliver(w, Attempts(cfg), c.id, e.id, 1, cfg.backoff, t + 1);
      DeliverMovesNothing(w, Attempts(cfg), c.id, e.id, 1, cfg.backoff, t + 1);
      FanMovesNothing(w, cfg, e, rest, tripped, t);
      FanMovesNothing(w, cfg, e, rest, tripped, t + 1);
      FanMovesNothing(w, cfg, e, rest, tripped, d.time);
      FanMovesNothing(w, cfg, e, rest, tripped + {c.id}, d.time + 1);
    }
  }

  lemma DrainedUnfolds(w: World, cfg: Config, events: seq<Event>, channels: seq<Channel>, tripped: set<Id>, t: nat)
    ensures Drained(w, cfg, events, channels, tripped, t) ==
      if events == [] || t >= w.stop then []
      else
        var f := Fan(w, cfg, events[0], channels, tripped, t + 1);
        if f.time >= w.stop then f.log
        else f.log + [Moved(events[0].id)] + Drained(w, cfg, events[1..], channels, f.tripped, f.time + 1)
  {}

  lemma Regroup(a: Log, b: Log, c: Log, d: Log)
    ensures a + (b + c + d) == (a + b + c) + d
  {}

  // ---- the dispatcher ----

  class Dispatcher {
    const cfg: Config
    var cursor: Id
    var log: Log

    constructor (cfg: Config, cursor: Id)
      ensures this.cfg == cfg && this.cursor == cursor && log == []
    {
      this.cfg, this.cursor, this.log := cfg, cursor, [];
    }

    method DeliverWithRetry(w: World, c: Id, e: Id, start: nat) returns (error: Option<Error>, t: nat)
      modifies this`log
      ensures var d := Deliver(w, Attempts(cfg), c, e, 1, cfg.backoff, start);
        log == old(log) + d.log && error == d.error && t == d.time
      ensures TriedInTurn(Appended(old(log), log), error, t, w, if cfg.attempts < 1 then 1 else cfg.attempts, c, e, cfg.backoff, start)
    {
      hide TriedInTurn, Appended;
      var attempts := Attempts(cfg);
      var wait: nat, i: nat := cfg.backoff, 1;
      t := start;
      ghost var d := Deliver(w, attempts, c, e, 1, cfg.backoff, start);
      DeliverIsTriedInTurn(w, cfg, c, e, start);
      AppendedIs(log, d.log);
      while true
        invariant i <= attempts || i == 1
        invariant var rest := Deliver(w, attempts, c, e, i, wait, t);
          old(log) + d.log == log + rest.log && rest.error == d.error && rest.time == d.time
        decreases attempts - i
      {
        var o := w.outcomes(t);
        log := log + [Tried(c, e, o)];
        if o.Delivered? {
          return None, t + 1;
        }
        if i >= attempts || !Retryable(o.error) {
          return Some(o.error), t + 1;
        }
        var pause := Pause(wait, o.error);
        if t + 1 >= w.stop {
          return Some(Cancelled), t + 2;
        }
        log := log + [Waited(pause)];
        wait, i, t := wait * 2, i + 1, t + 2;
      }
    }

    method Dispatch(w: World, e: Event, channels: seq<Channel>, failing: set<Id>, start: nat)
      returns (tripped: set<Id>, t: nat)
      modifies this`log
      ensures var f := Fan(w, cfg, e, channels, failing, start);
        log == old(log) + f.log && tripped == f.tripped && t == f.time
    {
      hide Deliver, TriedInTurn, Appended, Matches;
      tripped, t := failing, start;
      ghost var f := Fan(w, cfg, e, channels, failing, start);
      for i := 0 to |channels|
        invariant var rest := Fan(w, cfg, e, channels[i..], tripped, t);
          old(log) + f.log == log + rest.log && rest.tripped == f.tripped && rest.time == f.time
      {
        var c := channels[i];
        assert channels[i..][0] == c && channels[i..][1..] == channels[i + 1..];
        if !Matches(c, e) {
          continue;
        }
        if c.id in tripped {
          log := log + [Recorded(c.id, e.id, true)];
          continue;
        }
        if !w.settings(t) {
          log := log + [Recorded(c.id, e.id, true)];
          t := t + 1;
          continue;
        }
        var error;
        error, t := DeliverWithRetry(w, c.id, e.id, t + 1);
        if error.Some? {
          if t >= w.stop {
            t := t + 1;
            return;
          }
          t := t + 1;
          tripped := tripped + {c.id};
          log := log + [Recorded(c.id, e.id, true)];
          continue;
        }
        log := log + [Recorded(c.id, e.id, false)];
      }
    }

    method Drain(w: World, events: seq<Event>, channels: seq<Channel>)
      modifies this
      ensures log == old(log) + Drained(w, cfg, events, channels, {}, 0)
      ensures cursor == CursorAfter(old(cursor), Drained(w, cfg, events, channels, {}, 0))
    {
      hide Fan, CursorAfter, Drained, NoMoves;
      var tripped: set<Id>, t: nat := {}, 0;
      assert CursorAfter(cursor, []) == cursor by { EmptyLog(cursor); }
      ghost var all := Drained(w, cfg, events, channels, {}, 0);
      ghost var done: Log := [];
      for i := 0 to |events|
        invariant all == done + Drained(w, cfg, events[i..], channels, tripped, t)
        invariant log == old(log) + done
        invariant cursor == CursorAfter(old(cursor), done)
      {
        assert events[i..][0] == events[i] && events[i..][1..] == events[i + 1..];
        DrainedUnfolds(w, cfg, events[i..], channels, tripped, t);
        if t >= w.stop {
          assert all == done;
          return;
        }
        ghost var before, t0 := tripped, t;
        ghost var f := Fan(w, cfg, events[i], channels, before, t0 + 1);
        tripped, t := Dispatch(w, events[i], channels, tripped, t + 1);
        FanMovesNothing(w, cfg, events[i], channels, before, t0 + 1);
        CursorStays(old(cursor), done, f.log);
        Regroup(done, f.log, [Moved(events[i].id)], Drained(w, cfg, events[i + 1..], channels, tripped, t + 1));
        if t >= w.stop {
          assert all == done + f.log;
          return;
        }
        cursor := events[i].id;
        log := log + [Moved(cursor)];
        CursorMoves(old(cursor), done + f.log, events[i].id);
        done := done + f.log + [Moved(events[i].id)];
        t := t + 1;
      }
      DrainedUnfolds(w, cfg, [], channels, tripped, t);
      assert all == done;
    }
  }

  // ---- one delivery ----

  /** How often an event was sent to a channel. */
  function Tries(log: Log, c: Id, e: Id): nat {
    if log == [] then 0
    else (if log[0].Tried? && log[0].channel == c && log[0].event == e then 1 else 0) + Tries(log[1..], c, e)
  }

  lemma {:induction false} TriesAdd(a: Log, b: Log, c: Id, e: Id)
    ensures Tries(a + b, c, e) == Tries(a, c, e) + Tries(b, c, e)
    decreases |a|
  {
    if a == [] {
      assert a + b == b;
    } else {
      assert (a + b)[1..] == a[1..] + b;
      TriesAdd(a[1..], b, c, e);
    }
  }

  /** A log speaks of one channel and one event, and sends it at its end or not
      at all. */
  predicate Delivers(log: Log, c: Id, e: Id, sent: bool) {
    && log != []
    && (forall i | 0 <= i < |log| :: log[i].Waited? || (log[i].Tried? && log[i].channel == c && log[i].event == e))
    && (forall i | 0 <= i < |log| - 1 :: log[i].Tried? ==> !log[i].outcome.Delivered?)
    && log[|log| - 1].Tried? && (log[|log| - 1].outcome.Delivered? <==> sent)
  }

  lemma {:induction false} DeliverDelivers(w: World, attempts: nat, c: Id, e: Id, i: nat, wait: nat, t: nat)
    requires 0 < i <= attempts
    ensures var d := Deliver(w, attempts, c, e, i, wait, t);
      && Delivers(d.log, c, e, d.error.None?)
      && Tries(d.log, c, e) <= attempts - i + 1
      && (forall a | a in d.log && a.Waited? :: a.seconds <= MAX_RETRY_AFTER)
      && (forall k | 0 <= k < |d.log| - 1 && d.log[k].Tried? :: d.log[k].outcome.Fails? && Retryable(d.log[k].outcome.error))
    decreases attempts - i
  {
    var o := w.outcomes(t);
    if !o.Delivered? && i < attempts && Retryable(o.error) && t + 1 < w.stop {
      DeliverDelivers(w, attempts, c, e, i + 1, wait * 2, t + 2);
      var next := Deliver(w, attempts, c, e, i + 1, wait * 2, t + 2);
      var front := [Tried(c, e, o), Waited(Pause(wait, o.error))];
      assert Deliver(w, attempts, c, e, i, wait, t).log == front + next.log;
      TriesAdd(front, next.log, c, e);
      assert front[1..] == [Waited(Pause(wait, o.error))] && front[1..][1..] == [];
    }
  }

  // ---- one event over the channels ----

  /** The channel was sent the event, or has it on record as missed. */
  predicate Handled(log: Log, c: Id, e: Id) { Tried(c, e, Delivered) in log || Recorded(c, e, true) in log }

  /** The channel was contacted. */
  predicate Contacted(log: Log, c: Id) { exists a :: a in log && a.Tried? && a.channel == c }

  predicate Distinct(channels: seq<Channel>) {
    forall i, j | 0 <= i < j < |channels| :: channels[i].id != channels[j].id
  }

  predicate About(a: Action, channels: seq<Channel>, e: Id) {
    || a.Waited?
    || ((a.Tried? || a.Recorded?) && a.event == e && exists c :: c in channels && c.id == a.channel)
  }

  /** A log that contacts a channel no more once it was sent the event. */
  predicate SendsLast(log: Log) {
    forall i, j | 0 <= i < j < |log| && log[i].Tried? && log[i].outcome.Delivered? && log[j].Tried? ::
      log[i].channel != log[j].channel
  }

  lemma {:induction false} FanIsAbout(w: World, cfg: Config, e: Event, channels: seq<Channel>, tripped: set<Id>, t: nat)
    ensures forall a | a in Fan(w, cfg, e, channels, tripped, t).log :: About(a, channels, e.id)
    decreases |channels|
  {
    if channels != [] {
      var c, rest := channels[0], channels[1..];
      var d := Deliver(w, Attempts(cfg), c.id, e.id, 1, cfg.backoff, t + 1);
      DeliverDelivers(w, Attempts(cfg), c.id, e.id, 1, cfg.backoff, t + 1);
      FanIsAbout(w, cfg, e, rest, tripped, t);
      FanIsAbout(w, cfg, e, rest, tripped, t + 1);
      FanIsAbout(w, cfg, e, rest, tripped, d.time);
      FanIsAbout(w, cfg, e, rest, tripped + {c.id}, d.time + 1);
      assert c in channels;
    }
  }

  lemma {:induction false} FanHandles(w: World, cfg: Config, e: Event, channels: seq<Channel>, tripped: set<Id>, t: nat, c: Channel)
    requires c in channels && Matches(c, e)
    ensures var f := Fan(w, cfg, e, channels, tripped, t); f.time < w.stop ==> Handled(f.log, c.id, e.id)
    decreases |channels|
  {
    var head, rest := channels[0], channels[1..];
    var d := Deliver(w, Attempts(cfg), head.id, e.id, 1, cfg.backoff, t + 1);
    DeliverDelivers(w, Attempts(cfg), head.id, e.id, 1, cfg.backoff, t + 1);
    if head != c {
      FanHandles(w, cfg, e, rest, tripped, t, c);
      FanHandles(w, cfg, e, rest, tripped, t + 1, c);
      FanHandles(w, cfg, e, rest, tripped, d.time, c);
      FanHandles(w, cfg, e, rest, tripped + {head.id}, d.time + 1, c);
    }
  }

  /** What a pass has found failing it does not contact; what it contacts in vain
      is found failing, unless the pass is over. */
  lemma {:induction false} FanTrips(w: World, cfg: Config, e: Event, channels: seq<Channel>, tripped: set<Id>, t: nat, c: Id)
    requires Distinct(channels)
    ensures var f := Fan(w, cfg, e, channels, tripped, t);
      && tripped <= f.tripped
      && (c in tripped ==> !Contacted(f.log, c))
      && (Contacted(f.log, c) && f.time < w.stop ==> Tried(c, e.id, Delivered) in f.log || c in f.tripped)
    decreases |channels|
  {
    if channels != [] {
      var head, rest := channels[0], channels[1..];
      var d := Deliver(w, Attempts(cfg), head.id, e.id, 1, cfg.backoff, t + 1);
      DeliverDelivers(w, Attempts(cfg), head.id, e.id, 1, cfg.backoff, t + 1);
      FanTrips(w, cfg, e, rest, tripped, t, c);
      FanTrips(w, cfg, e, rest, tripped, t + 1, c);
      FanTrips(w, cfg, e, rest, tripped, d.time, c);
      FanTrips(w, cfg, e, rest, tripped + {head.id}, d.time + 1, c);
    }
  }

  lemma {:induction false} FanSendsLast(w: World, cfg: Config, e: Event, channels: seq<Channel>, tripped: set<Id>, t: nat)
    requires Distinct(channels)
    ensures SendsLast(Fan(w, cfg, e, channels, tripped, t).log)
    decreases |channels|
  {
    if channels != [] {
      var c, rest := channels[0], channels[1..];
      var d := Deliver(w, Attempts(cfg), c.id, e.id, 1, cfg.backoff, t + 1);
      DeliverDelivers(w, Attempts(cfg), c.id, e.id, 1, cfg.backoff, t + 1);
      FanSendsLast(w, cfg, e, rest, tripped, t);
      FanSendsLast(w, cfg, e, rest, tripped, t + 1);
      FanSendsLast(w, cfg, e, rest, tripped, d.time);
      FanSendsLast(w, cfg, e, rest, tripped + {c.id}, d.time + 1);
      FanIsAbout(w, cfg, e, rest, tripped, d.time);
      FanIsAbout(w, cfg, e, rest, tripped + {c.id}, d.time + 1);
      SendsLastAfter(d.log, c.id, e.id, d.error.None?, false, Fan(w, cfg, e, rest, tripped, d.time).log, rest);
      SendsLastAfter(d.log, c.id, e.id, d.error.None?, true, Fan(w, cfg, e, rest, tripped + {c.id}, d.time + 1).log, rest);
      SendsLastAfterRecord(c.id, e.id, Fan(w, cfg, e, rest, tripped, t).log);
      SendsLastAfterRecord(c.id, e.id, Fan(w, cfg, e, rest, tripped, t + 1).log);
    }
  }

  lemma SendsLastAfterRecord(c: Id, e: Id, rest: Log)
    requires SendsLast(rest)
    ensures SendsLast([Recorded(c, e, true)] + rest)
  {
    var log := [Recorded(c, e, true)] + rest;
    forall i, j | 0 <= i < j < |log| && log[i].Tried? && log[i].outcome.Delivered? && log[j].Tried?
      ensures log[i].channel != log[j].channel
    {
      assert log[i] == rest[i - 1] && log[j] == rest[j - 1];
    }
  }

  lemma SendsLastAfter(first: Log, c: Id, e: Id, sent: bool, missed: bool, rest: Log, channels: seq<Channel>)
    requires Delivers(first, c, e, sent) && SendsLast(rest)
    requires (forall a | a in rest :: About(a, channels, e)) && forall x | x in channels :: x.id != c
    ensures SendsLast(first) && SendsLast(first + [Recorded(c, e, missed)] + rest)
  {
    var log, n := first + [Recorded(c, e, missed)] + rest, |first|;
    forall i, j | 0 <= i < j < |log| && log[i].Tried? && log[i].outcome.Delivered? && log[j].Tried?
      ensures log[i].channel != log[j].channel
    {
      if i < n {
        assert log[i] == first[i];
        if j > n { assert log[j] in rest; }
      } else {
        assert log[i] == rest[i - n - 1] && log[j] == rest[j - n - 1];
      }
    }
  }

  lemma {:induction false} NoTries(log: Log, c: Id, e: Id)
    requires forall a | a in log && a.Tried? :: a.channel != c || a.event != e
    ensures Tries(log, c, e) == 0
    decreases |log|
  {
    if log != [] { NoTries(log[1..], c, e); }
  }

  lemma {:induction false} FanTries(w: World, cfg: Config, e: Event, channels: seq<Channel>, tripped: set<Id>, t: nat, c: Id)
    requires Distinct(channels)
    ensures Tries(Fan(w, cfg, e, channels, tripped, t).log, c, e.id) <= Attempts(cfg)
    decreases |channels|
  {
    if channels != [] {
      var head, rest := channels[0], channels[1..];
      var d := Deliver(w, Attempts(cfg), head.id, e.id, 1, cfg.backoff, t + 1);
      DeliverDelivers(w, Attempts(cfg), head.id, e.id, 1, cfg.backoff, t + 1);
      var missed := [Recorded(head.id, e.id, true)];
      if head.id != c { NoTries(d.log, c, e.id); }
      if !Matches(head, e) {
        FanTries(w, cfg, e, rest, tripped, t, c);
      } else if head.id in tripped {
        FanTries(w, cfg, e, rest, tripped, t, c);
        FanTriesAfter(w, cfg, e, rest, tripped, t, head.id, c, missed);
      } else if !w.settings(t) {
        FanTries(w, cfg, e, rest, tripped, t + 1, c);
        FanTriesAfter(w, cfg, e, rest, tripped, t + 1, head.id, c, missed);
      } else if d.error.None? {
        FanTries(w, cfg, e, rest, tripped, d.time, c);
        TriesAdd(d.log, [Recorded(head.id, e.id, false)], c, e.id);
        FanTriesAfter(w, cfg, e, rest, tripped, d.time, head.id, c, d.log + [Recorded(head.id, e.id, false)]);
      } else if d.time < w.stop {
        FanTries(w, cfg, e, rest, tripped + {head.id}, d.time + 1, c);
        TriesAdd(d.log, missed, c, e.id);
        FanTriesAfter(w, cfg, e, rest, tripped + {head.id}, d.time + 1, head.id, c, d.log + missed);
      }
    }
  }

  lemma FanTriesAfter(w: World, cfg: Config, e: Event, rest: seq<Channel>, tripped: set<Id>, t: nat, head: Id, c: Id, first: Log)
    requires forall x | x in rest :: x.id != head
    ensures var f := Fan(w, cfg, e, rest, tripped, t);
      && Tries(first + f.log, c, e.id) == Tries(first, c, e.id) + Tries(f.log, c, e.id)
      && (c == head ==> Tries(f.log, c, e.id) == 0)
  {
    var f := Fan(w, cfg, e, rest, tripped, t);
    TriesAdd(first, f.log, c, e.id);
    FanIsAbout(w, cfg, e, rest, tripped, t);
    if c == head { NoTries(f.log, c, e.id); }
  }

  // ---- a pass ----

  predicate Ascending(events: seq<Event>) {
    forall i, j | 0 <= i < j < |events| :: events[i].id < events[j].id
  }

  predicate Among(events: seq<Event>, id: Id) { exists e :: e in events && e.id == id }

  lemma {:induction false} DrainedIsAbout(w: World, cfg: Config, events: seq<Event>, channels: seq<Channel>, tripped: set<Id>, t: nat)
    ensures forall a | a in Drained(w, cfg, events, channels, tripped, t) :: a.Waited? || Among(events, a.event)
    decreases |events|
  {
    if events != [] && t < w.stop {
      var f := Fan(w, cfg, events[0], channels, tripped, t + 1);
      FanIsAbout(w, cfg, events[0], channels, tripped, t + 1);
      DrainedIsAbout(w, cfg, events[1..], channels, f.tripped, f.time + 1);
      assert events[0] in events;
      forall id | Among(events[1..], id) ensures Among(events, id) {}
    }
  }

  /** Every channel that takes the event was sent it or has it on record as
      missed. */
  predicate AllHandled(log: Log, channels: seq<Channel>, e: Event) {
    forall c | c in channels && Matches(c, e) :: Handled(log, c.id, e.id)
  }

  /** The cursor moves over an event only after that. */
  lemma {:induction false} MovesAfterHandling(w: World, cfg: Config, events: seq<Event>, channels: seq<Channel>, tripped: set<Id>, t: nat, k: nat)
    requires var log := Drained(w, cfg, events, channels, tripped, t); k < |log| && log[k].Moved?
    ensures var log := Drained(w, cfg, events, channels, tripped, t);
      exists e :: e in events && e.id == log[k].event && AllHandled(log[..k], channels, e)
    decreases |events|
  {
    var log := Drained(w, cfg, events, channels, tripped, t);
    var e := events[0];
    var f := Fan(w, cfg, e, channels, tripped, t + 1);
    FanMovesNothing(w, cfg, e, channels, tripped, t + 1);
    forall i | 0 <= i < |f.log| ensures !log[i].Moved? {
      assert log[i] == f.log[i] && f.log[i] in f.log;
    }
    if k == |f.log| {
      assert log[..k] == f.log;
      forall c | c in channels && Matches(c, e) ensures Handled(log[..k], c.id, e.id) {
        FanHandles(w, cfg, e, channels, tripped, t + 1, c);
      }
      assert AllHandled(log[..k], channels, e);
    } else {
      var n := |f.log| + 1;
      var rest := Drained(w, cfg, events[1..], channels, f.tripped, f.time + 1);
      MovesAfterHandling(w, cfg, events[1..], channels, f.tripped, f.time + 1, k - n);
      var x :| x in events[1..] && x.id == rest[k - n].event && AllHandled(rest[..k - n], channels, x);
      assert log[k] == rest[k - n];
      HandledLater(log, f.log + [Moved(e.id)], rest, k, channels, x);
    }
  }

  lemma HandledLater(log: Log, first: Log, rest: Log, k: nat, channels: seq<Channel>, e: Event)
    requires log == first + rest && |first| <= k <= |log| && AllHandled(rest[..k - |first|], channels, e)
    ensures AllHandled(log[..k], channels, e)
  {
    assert log[..k] == first + rest[..k - |first|];
  }

  lemma {:induction false} DrainedSkipsTripped(w: World, cfg: Config, events: seq<Event>, channels: seq<Channel>, tripped: set<Id>, t: nat, c: Id)
    requires Distinct(channels) && c in tripped
    ensures !Contacted(Drained(w, cfg, events, channels, tripped, t), c)
    decreases |events|
  {
    if events != [] && t < w.stop {
      var f := Fan(w, cfg, events[0], channels, tripped, t + 1);
      FanTrips(w, cfg, events[0], channels, tripped, t + 1, c);
      DrainedSkipsTripped(w, cfg, events[1..], channels, f.tripped, f.time + 1, c);
    }
  }

  /** Two contacts of a channel in one pass: for one event the first one failed;
      for two, the channel was sent the first before the cursor moved over it and
      the second was tried. */
  predicate ContactsOk(log: Log, i: nat, j: nat)
    requires i < j < |log| && log[i].Tried? && log[j].Tried?
  {
    if log[i].event == log[j].event then log[i].outcome.Fails?
    else Tried(log[i].channel, log[i].event, Delivered) in log[..j] && Moved(log[i].event) in log[i..j]
  }

  lemma {:induction false} ContactsInOrder(w: World, cfg: Config, events: seq<Event>, channels: seq<Channel>, tripped: set<Id>, t: nat,
                                          i: nat, j: nat)
    requires Distinct(channels) && Ascending(events)
    requires var log := Drained(w, cfg, events, channels, tripped, t);
      i < j < |log| && log[i].Tried? && log[j].Tried? && log[i].channel == log[j].channel
    ensures ContactsOk(Drained(w, cfg, events, channels, tripped, t), i, j)
    decreases |events|
  {
    var log := Drained(w, cfg, events, channels, tripped, t);
    var e := events[0];
    var f := Fan(w, cfg, e, channels, tripped, t + 1);
    FanIsAbout(w, cfg, e, channels, tripped, t + 1);
    if j < |f.log| {
      FanSendsLast(w, cfg, e, channels, tripped, t + 1);
      assert log[i] == f.log[i] && log[j] == f.log[j];
      assert About(f.log[i], channels, e.id) && About(f.log[j], channels, e.id);
    } else {
      var n := |f.log| + 1;
      var rest := Drained(w, cfg, events[1..], channels, f.tripped, f.time + 1);
      assert log == f.log + [Moved(e.id)] + rest;
      assert log[j] == rest[j - n];
      if i >= n {
        assert log[i] == rest[i - n];
        ContactsInOrder(w, cfg, events[1..], channels, f.tripped, f.time + 1, i - n, j - n);
        assert log[..j] == f.log + [Moved(e.id)] + rest[..j - n] && log[i..j] == rest[i - n..j - n];
      } else {
        assert log[i] == f.log[i] && About(f.log[i], channels, e.id);
        AcrossEvents(w, cfg, events, channels, tripped, t, i, j);
      }
    }
  }

  lemma AcrossEvents(w: World, cfg: Config, events: seq<Event>, channels: seq<Channel>, tripped: set<Id>, t: nat, i: nat, j: nat)
    requires Distinct(channels) && Ascending(events) && events != [] && t < w.stop
    requires var f := Fan(w, cfg, events[0], channels, tripped, t + 1);
      var log := Drained(w, cfg, events, channels, tripped, t);
      i < |f.log| < j < |log| && log[i].Tried? && log[j].Tried? && log[i].channel == log[j].channel
    ensures ContactsOk(Drained(w, cfg, events, channels, tripped, t), i, j)
  {
    var log, e := Drained(w, cfg, events, channels, tripped, t), events[0];
    var f := Fan(w, cfg, e, channels, tripped, t + 1);
    var n, c := |f.log| + 1, log[i].channel;
    var rest := Drained(w, cfg, events[1..], channels, f.tripped, f.time + 1);
    assert log == f.log + [Moved(e.id)] + rest;
    assert log[i] == f.log[i] && log[i] in f.log && log[j] == rest[j - n] && log[j] in rest;
    FanIsAbout(w, cfg, e, channels, tripped, t + 1);
    assert log[i].event == e.id by { assert About(log[i], channels, e.id); }
    DrainedIsAbout(w, cfg, events[1..], channels, f.tripped, f.time + 1);
    assert log[j].event != e.id by {
      var x :| x in events[1..] && x.id == log[j].event;
    }
    FanTrips(w, cfg, e, channels, tripped, t + 1, c);
    assert Contacted(f.log, c) && Contacted(rest, c);
    if c in f.tripped { DrainedSkipsTripped(w, cfg, events[1..], channels, f.tripped, f.time + 1, c); }
    assert Tried(c, e.id, Delivered) in f.log;
    assert log[..j] == f.log + [Moved(e.id)] + rest[..j - n];
    assert log[|f.log|] == Moved(e.id) && log[i..j][|f.log| - i] == Moved(e.id);
  }

  /** What is done is done for this event, or is a wait. */
  predicate Serves(a: Action, e: Id) { a.Waited? || a.event == e }

  lemma SliceOfSum(a: Log, b: Log, i: nat, j: nat)
    requires |a| <= i <= j <= |a + b|
    ensures (a + b)[i..j] == b[i - |a|..j - |a|]
  {}

  lemma SliceOfPrefix(log: Log, n: nat, k: nat, m: nat)
    requires k <= m <= n <= |log|
    ensures log[..n][k..m] == log[k..m]
  {}

  lemma SliceOfSlice(log: Log, n: nat, k: nat, m: nat)
    requires n <= k <= m <= |log|
    ensures log[n..m][..k - n] == log[n..k]
  {}

  /** A pass turns to another event only once the cursor has moved over the one
      before. */
  lemma {:induction false} EventsInOrder(w: World, cfg: Config, events: seq<Event>, channels: seq<Channel>, tripped: set<Id>, t: nat,
                                        i: nat, j: nat)
    requires var log := Drained(w, cfg, events, channels, tripped, t);
      i < j < |log| && !log[i].Waited? && !log[j].Waited? && log[i].event != log[j].event
    ensures var log := Drained(w, cfg, events, channels, tripped, t); Moved(log[i].event) in log[i..j]
    decreases |events|
  {
    var log, e := Drained(w, cfg, events, channels, tripped, t), events[0];
    var f := Fan(w, cfg, e, channels, tripped, t + 1);
    FanIsAbout(w, cfg, e, channels, tripped, t + 1);
    var n := |f.log|;
    forall k | 0 <= k < n ensures Serves(log[k], e.id) { assert log[k] == f.log[k] && About(f.log[k], channels, e.id); }
    if i <= n {
      assert n < j;
      assert log[n] == Moved(e.id) && log[i..j][n - i] == log[n];
    } else {
      var rest := Drained(w, cfg, events[1..], channels, f.tripped, f.time + 1);
      assert log == (f.log + [Moved(e.id)]) + rest;
      SliceOfSum(f.log + [Moved(e.id)], rest, i, j);
      assert log[i] == rest[i - n - 1] && log[j] == rest[j - n - 1];
      EventsInOrder(w, cfg, events[1..], channels, f.tripped, f.time + 1, i - n - 1, j - n - 1);
    }
  }

  /** The pass is stopped while it serves the event. */
  predicate StopsAt(w: World, cfg: Config, events: seq<Event>, channels: seq<Channel>, tripped: set<Id>, t: nat, e: Id) {
    && events != [] && t < w.stop
    && var f := Fan(w, cfg, events[0], channels, tripped, t + 1);
       if f.time >= w.stop then events[0].id == e
       else StopsAt(w, cfg, events[1..], channels, f.tripped, f.time + 1, e)
  }

  /** An event that a pass served and did not move over is the one it was stopped
      at. */
  lemma {:induction false} ServedOrMoved(w: World, cfg: Config, events: seq<Event>, channels: seq<Channel>, tripped: set<Id>, t: nat,
                                        k: nat)
    requires var log := Drained(w, cfg, events, channels, tripped, t);
      k < |log| && !log[k].Waited? && Moved(log[k].event) !in log
    ensures StopsAt(w, cfg, events, channels, tripped, t, Drained(w, cfg, events, channels, tripped, t)[k].event)
    decreases |events|
  {
    var log, e := Drained(w, cfg, events, channels, tripped, t), events[0];
    var f := Fan(w, cfg, e, channels, tripped, t + 1);
    FanIsAbout(w, cfg, e, channels, tripped, t + 1);
    var n := |f.log|;
    if k < n { assert log[k] == f.log[k] && About(f.log[k], channels, e.id); }
    if f.time < w.stop {
      assert log[n] == Moved(e.id);
      var rest := Drained(w, cfg, events[1..], channels, f.tripped, f.time + 1);
      assert log[k] == rest[k - n - 1];
      assert forall a | a in rest :: a in log;
      ServedOrMoved(w, cfg, events[1..], channels, f.tripped, f.time + 1, k - n - 1);
    }
  }

  /** One event costs a channel at most Attempts tries in a pass. */
  lemma {:induction false} DrainedTries(w: World, cfg: Config, events: seq<Event>, channels: seq<Channel>, tripped: set<Id>, t: nat, c: Id, e: Id)
    requires Distinct(channels) && Ascending(events)
    ensures Tries(Drained(w, cfg, events, channels, tripped, t), c, e) <= Attempts(cfg)
    decreases |events|
  {
    if events != [] && t < w.stop {
      var f := Fan(w, cfg, events[0], channels, tripped, t + 1);
      var rest := Drained(w, cfg, events[1..], channels, f.tripped, f.time + 1);
      var head := events[0].id;
      FanIsAbout(w, cfg, events[0], channels, tripped, t + 1);
      DrainedIsAbout(w, cfg, events[1..], channels, f.tripped, f.time + 1);
      TriesAdd(f.log + [Moved(head)], rest, c, e);
      TriesAdd(f.log, [Moved(head)], c, e);
      if head == e {
        FanTries(w, cfg, events[0], channels, tripped, t + 1, c);
        forall a | a in rest && a.Tried? ensures a.event != e {
          var x :| x in events[1..] && x.id == a.event;
        }
        NoTries(rest, c, e);
      } else {
        NoTries(f.log, c, e);
        DrainedTries(w, cfg, events[1..], channels, f.tripped, f.time + 1, c, e);
      }
    }
  }

  lemma {:induction false} CursorAppend(start: Id, a: Log, b: Log)
    ensures CursorAfter(start, a + b) == CursorAfter(CursorAfter(start, a), b)
    decreases |b|
  {
    if b == [] {
      assert a + b == a;
    } else {
      assert (a + b)[..|a + b| - 1] == a + b[..|b| - 1];
      CursorAppend(start, a, b[..|b| - 1]);
    }
  }

  predicate Past(events: seq<Event>, cursor: Id) { forall e | e in events :: e.id > cursor }

  /** Nothing is done for an event the cursor has reached. */
  lemma {:induction false} AheadOfCursor(w: World, cfg: Config, events: seq<Event>, channels: seq<Channel>, tripped: set<Id>, t: nat,
                                        cursor: Id, k: nat)
    requires Ascending(events) && Past(events, cursor)
    requires var log := Drained(w, cfg, events, channels, tripped, t); k < |log| && !log[k].Waited?
    ensures var log := Drained(w, cfg, events, channels, tripped, t); log[k].event > CursorAfter(cursor, log[..k])
    decreases |events|
  {
    var log, e := Drained(w, cfg, events, channels, tripped, t), events[0];
    var f := Fan(w, cfg, e, channels, tripped, t + 1);
    FanMovesNothing(w, cfg, e, channels, tripped, t + 1);
    FanIsAbout(w, cfg, e, channels, tripped, t + 1);
    var n := |f.log|;
    if k <= n {
      assert log[..k] == [] + f.log[..k] && NoMoves(f.log[..k]);
      CursorStays(cursor, [], f.log[..k]);
      EmptyLog(cursor);
      if k < n { assert log[k] == f.log[k] && About(f.log[k], channels, e.id); }
    } else {
      var rest := Drained(w, cfg, events[1..], channels, f.tripped, f.time + 1);
      var first := f.log + [Moved(e.id)];
      assert log == first + rest && log[k] == rest[k - n - 1];
      assert log[..k] == first + rest[..k - n - 1];
      CursorMoves(cursor, f.log, e.id);
      CursorAppend(cursor, first, rest[..k - n - 1]);
      AheadOfCursor(w, cfg, events[1..], channels, f.tripped, f.time + 1, e.id, k - n - 1);
    }
  }

  /** The cursor passes no event over. */
  lemma {:induction false} MovesOneByOne(w: World, cfg: Config, events: seq<Event>, channels: seq<Channel>, tripped: set<Id>, t: nat,
                                        k: nat, z: Event)
    requires Ascending(events) && z in events
    requires var log := Drained(w, cfg, events, channels, tripped, t); k < |log| && log[k].Moved? && z.id <= log[k].event
    ensures Moved(z.id) in Drained(w, cfg, events, channels, tripped, t)[..k + 1]
    decreases |events|
  {
    var log, e := Drained(w, cfg, events, channels, tripped, t), events[0];
    var f := Fan(w, cfg, e, channels, tripped, t + 1);
    FanMovesNothing(w, cfg, e, channels, tripped, t + 1);
    var n := |f.log|;
    forall i | 0 <= i < n ensures !log[i].Moved? { assert log[i] == f.log[i] && f.log[i] in f.log; }
    assert log[n] == Moved(e.id) && log[..k + 1][n] == log[n];
    if z != e {
      var rest := Drained(w, cfg, events[1..], channels, f.tripped, f.time + 1);
      assert k > n;
      assert log[k] == rest[k - n - 1];
      MovesOneByOne(w, cfg, events[1..], channels, f.tripped, f.time + 1, k - n - 1, z);
      assert log[..k + 1] == f.log + [Moved(e.id)] + rest[..k - n];
    }
  }

  // ---- runs ----

  /** A pass: the outbox and the channels it reads, what happens to it, and how
      much of its log there is when it ends or the process dies. */
  datatype Pass = Pass(outbox: seq<Event>, channels: seq<Channel>, world: World, cut: nat)

  function Beyond(outbox: seq<Event>, cursor: Id): seq<Event> {
    if outbox == [] then []
    else if outbox[0].id > cursor then [outbox[0]] + Beyond(outbox[1..], cursor) else Beyond(outbox[1..], cursor)
  }

  function Take<T>(s: seq<T>, n: nat): seq<T> { if n <= |s| then s[..n] else s }

  /** EventsAfter. */
  function EventsAfter(outbox: seq<Event>, cursor: Id, batch: nat): seq<Event> { Take(Beyond(outbox, cursor), batch) }

  function PassLog(cfg: Config, batch: nat, cursor: Id, p: Pass): Log {
    Take(Drained(p.world, cfg, EventsAfter(p.outbox, cursor, batch), p.channels, {}, 0), p.cut)
  }

  function RunLog(cfg: Config, batch: nat, start: Id, passes: seq<Pass>): Log {
    if passes == [] then []
    else
      var before := RunLog(cfg, batch, start, passes[..|passes| - 1]);
      before + PassLog(cfg, batch, CursorAfter(start, before), passes[|passes| - 1])
  }

  /** The i-th pass's own part of the log. */
  function Part(cfg: Config, batch: nat, start: Id, passes: seq<Pass>, i: nat): Log
    requires i < |passes|
  {
    PassLog(cfg, batch, CursorAfter(start, RunLog(cfg, batch, start, passes[..i])), passes[i])
  }

  function Before(cfg: Config, batch: nat, start: Id, passes: seq<Pass>, i: nat): nat
    requires i <= |passes|
  {
    |RunLog(cfg, batch, start, passes[..i])|
  }

  lemma {:induction false} PartsMakeTheRun(cfg: Config, batch: nat, start: Id, passes: seq<Pass>, i: nat)
    requires i < |passes|
    ensures var log, n := RunLog(cfg, batch, start, passes), Before(cfg, batch, start, passes, i);
      var m := Before(cfg, batch, start, passes, i + 1);
      n <= m <= |log| && log[..n] == RunLog(cfg, batch, start, passes[..i]) && log[n..m] == Part(cfg, batch, start, passes, i)
    decreases |passes|
  {
    hide PassLog, CursorAfter;
    var rest := passes[..|passes| - 1];
    var log, before := RunLog(cfg, batch, start, passes), RunLog(cfg, batch, start, rest);
    if i == |rest| {
      assert passes[..i] == rest && passes[..i + 1] == passes;
    } else {
      PartsMakeTheRun(cfg, batch, start, rest, i);
      assert passes[..i] == rest[..i] && passes[..i + 1] == rest[..i + 1] && passes[i] == rest[i];
      var n, m := Before(cfg, batch, start, passes, i), Before(cfg, batch, start, passes, i + 1);
      assert log[..n] == before[..n] && log[n..m] == before[n..m];
    }
  }

  lemma {:induction false} InSomePart(cfg: Config, batch: nat, start: Id, passes: seq<Pass>, k: nat) returns (i: nat)
    requires k < |RunLog(cfg, batch, start, passes)|
    ensures i < |passes| && Before(cfg, batch, start, passes, i) <= k < Before(cfg, batch, start, passes, i + 1)
    decreases |passes|
  {
    hide PassLog, CursorAfter;
    var rest := passes[..|passes| - 1];
    assert passes[..|rest|] == rest && passes[..|passes|] == passes;
    if k < |RunLog(cfg, batch, start, rest)| {
      i := InSomePart(cfg, batch, start, rest, k);
      assert passes[..i] == rest[..i] && passes[..i + 1] == rest[..i + 1];
    } else {
      i := |rest|;
    }
  }

  /** Events are appended with ascending ids. */
  ghost predicate Proper(passes: seq<Pass>) {
    && (forall p | p in passes :: Ascending(p.outbox) && Distinct(p.channels))
    && (forall i, j | 0 <= i < j < |passes| :: passes[i].outbox <= passes[j].outbox)
  }

  lemma {:induction false} BeyondHolds(outbox: seq<Event>, cursor: Id, e: Event)
    ensures e in Beyond(outbox, cursor) <==> e in outbox && e.id > cursor
    decreases |outbox|
  {
    if outbox != [] { BeyondHolds(outbox[1..], cursor, e); }
  }

  lemma {:induction false} BeyondIsAscending(outbox: seq<Event>, cursor: Id)
    requires Ascending(outbox)
    ensures Ascending(Beyond(outbox, cursor))
    decreases |outbox|
  {
    if outbox != [] {
      var rest := Beyond(outbox[1..], cursor);
      BeyondIsAscending(outbox[1..], cursor);
      forall j | 0 <= j < |rest| ensures outbox[0].id < rest[j].id {
        BeyondHolds(outbox[1..], cursor, rest[j]);
      }
    }
  }

  lemma EventsAfterArePast(outbox: seq<Event>, cursor: Id, batch: nat)
    requires Ascending(outbox)
    ensures var es := EventsAfter(outbox, cursor, batch);
      && Ascending(es) && Past(es, cursor) && (forall e | e in es :: e in outbox)
      && forall e, z | e in es && z in outbox && cursor < z.id <= e.id :: z in es
  {
    BeyondIsAscending(outbox, cursor);
    var all, es := Beyond(outbox, cursor), EventsAfter(outbox, cursor, batch);
    forall e | e in es ensures e in outbox && e.id > cursor {
      assert e in all;
      BeyondHolds(outbox, cursor, e);
    }
    forall e, z | e in es && z in outbox && cursor < z.id <= e.id ensures z in es {
      BeyondHolds(outbox, cursor, z);
      var i :| 0 <= i < |es| && es[i] == e;
      var j :| 0 <= j < |all| && all[j] == z;
      assert j <= i;
      assert es[j] == z;
    }
  }

  lemma RunUnfolds(cfg: Config, batch: nat, start: Id, passes: seq<Pass>)
    requires Proper(passes) && passes != []
    ensures var rest, p := passes[..|passes| - 1], passes[|passes| - 1];
      var before := RunLog(cfg, batch, start, rest);
      && Proper(rest) && p in passes && Ascending(p.outbox) && Distinct(p.channels)
      && (rest != [] ==> rest[|rest| - 1].outbox <= p.outbox)
      && RunLog(cfg, batch, start, passes) == before + PassLog(cfg, batch, CursorAfter(start, before), p)
  {}

  lemma PassGoesOn(cfg: Config, batch: nat, cursor: Id, p: Pass, i: nat)
    requires Ascending(p.outbox) && i < |PassLog(cfg, batch, cursor, p)| && !PassLog(cfg, batch, cursor, p)[i].Waited?
    ensures var log := PassLog(cfg, batch, cursor, p); log[i].event > CursorAfter(cursor, log[..i])
  {
    hide Drained, EventsAfter;
    var events := EventsAfter(p.outbox, cursor, batch);
    EventsAfterArePast(p.outbox, cursor, batch);
    AheadOfCursor(p.world, cfg, events, p.channels, {}, 0, cursor, i);
    assert PassLog(cfg, batch, cursor, p)[..i] == Drained(p.world, cfg, events, p.channels, {}, 0)[..i];
  }

  /** What is done is done for events ahead of the cursor: it never goes back, and
      an event it has reached is never sent again. */
  lemma {:induction false} CursorGoesOn(cfg: Config, batch: nat, start: Id, passes: seq<Pass>, k: nat)
    requires Proper(passes)
    requires var log := RunLog(cfg, batch, start, passes); k < |log| && !log[k].Waited?
    ensures var log := RunLog(cfg, batch, start, passes); log[k].event > CursorAfter(start, log[..k])
    decreases |passes|
  {
    hide Proper, PassLog, Ascending, CursorAfter;
    RunUnfolds(cfg, batch, start, passes);
    var rest, p := passes[..|passes| - 1], passes[|passes| - 1];
    var before := RunLog(cfg, batch, start, rest);
    var cursor := CursorAfter(start, before);
    var log, added := RunLog(cfg, batch, start, passes), PassLog(cfg, batch, cursor, p);
    if k < |before| {
      CursorGoesOn(cfg, batch, start, rest, k);
      assert log[k] == before[k] && log[..k] == before[..k];
    } else {
      var i := k - |before|;
      PassGoesOn(cfg, batch, cursor, p, i);
      assert log[k] == added[i] && log[..k] == before + added[..i];
      CursorAppend(start, before, added[..i]);
    }
  }

  lemma {:induction false} CursorStaysUp(cfg: Config, batch: nat, start: Id, passes: seq<Pass>, i: nat, m: nat)
    requires Proper(passes)
    requires var log := RunLog(cfg, batch, start, passes); i < m <= |log| && log[i].Moved?
    ensures var log := RunLog(cfg, batch, start, passes); CursorAfter(start, log[..m]) >= log[i].event
    decreases m
  {
    hide Proper, RunLog;
    var log := RunLog(cfg, batch, start, passes);
    var last := m - 1;
    assert log[..m][..|log[..m]| - 1] == log[..last] && log[..m][|log[..m]| - 1] == log[last];
    if i < last {
      CursorStaysUp(cfg, batch, start, passes, i, last);
      if log[last].Moved? { CursorGoesOn(cfg, batch, start, passes, last); }
    }
  }

  /** Once the cursor has moved to an event, whatever is done after that, in any
      later pass, is done for later events: the cursor moves only forward. */
  lemma NothingPastTheCursor(cfg: Config, batch: nat, start: Id, passes: seq<Pass>, i: nat, j: nat)
    requires Proper(passes)
    requires var log := RunLog(cfg, batch, start, passes); i < j < |log| && log[i].Moved? && !log[j].Waited?
    ensures var log := RunLog(cfg, batch, start, passes); log[j].event > log[i].event
  {
    hide Proper, RunLog, CursorAfter;
    CursorStaysUp(cfg, batch, start, passes, i, j);
    CursorGoesOn(cfg, batch, start, passes, j);
  }

  lemma PassHandles(cfg: Config, batch: nat, cursor: Id, p: Pass, i: nat)
    requires Ascending(p.outbox) && i < |PassLog(cfg, batch, cursor, p)| && PassLog(cfg, batch, cursor, p)[i].Moved?
    ensures var log := PassLog(cfg, batch, cursor, p);
      exists e :: e in p.outbox && e.id == log[i].event && AllHandled(log[..i], p.channels, e)
  {
    hide Drained, EventsAfter, AllHandled;
    var events := EventsAfter(p.outbox, cursor, batch);
    var all := Drained(p.world, cfg, events, p.channels, {}, 0);
    EventsAfterArePast(p.outbox, cursor, batch);
    MovesAfterHandling(p.world, cfg, events, p.channels, {}, 0, i);
    var e :| e in events && e.id == all[i].event && AllHandled(all[..i], p.channels, e);
    assert PassLog(cfg, batch, cursor, p)[..i] == all[..i];
  }

  /** The pass that moves the cursor over an event has itself handled it: every
      channel it knows that takes the event was sent it, or has it on record as
      missed, in that pass's own part of the log. */
  ghost predicate HandledByItsPass(cfg: Config, batch: nat, start: Id, passes: seq<Pass>, k: nat, i: nat)
    requires i < |passes| && k < |RunLog(cfg, batch, start, passes)| && RunLog(cfg, batch, start, passes)[k].Moved?
  {
    var log, n := RunLog(cfg, batch, start, passes), Before(cfg, batch, start, passes, i);
    && n <= k < Before(cfg, batch, start, passes, i + 1)
    && exists e :: e in passes[i].outbox && e.id == log[k].event && AllHandled(log[n..k], passes[i].channels, e)
  }

  /** The cursor moves over an event only when every enabled channel that takes
      it was sent it or has it on record as missed. */
  lemma CursorPassesHandled(cfg: Config, batch: nat, start: Id, passes: seq<Pass>, k: nat)
    requires Proper(passes)
    requires var log := RunLog(cfg, batch, start, passes); k < |log| && log[k].Moved?
    ensures exists i: nat :: i < |passes| && HandledByItsPass(cfg, batch, start, passes, k, i)
  {
    hide PassLog, Ascending, CursorAfter, AllHandled, RunLog;
    var log := RunLog(cfg, batch, start, passes);
    var i := InSomePart(cfg, batch, start, passes, k);
    PartsMakeTheRun(cfg, batch, start, passes, i);
    var n, m := Before(cfg, batch, start, passes, i), Before(cfg, batch, start, passes, i + 1);
    var part := Part(cfg, batch, start, passes, i);
    assert log[n..m][k - n] == log[k];
    SliceOfSlice(log, n, k, m);
    assert passes[i] in passes;
    PassHandles(cfg, batch, CursorAfter(start, RunLog(cfg, batch, start, passes[..i])), passes[i], k - n);
    assert HandledByItsPass(cfg, batch, start, passes, k, i);
  }

  // ---- events sent again ----

  predicate Sends(log: Log, e: Id) { exists k :: 0 <= k < |log| && log[k].Tried? && log[k].event == e }

  /** From the first thing done for the event to the end, the log serves it alone. */
  predicate EndsWith(log: Log, e: Id) {
    forall k, l | 0 <= k < l < |log| && !log[k].Waited? && log[k].event == e :: Serves(log[l], e)
  }

  /** The process died, or was stopped, while the pass served the event. */
  predicate Interrupted(cfg: Config, batch: nat, cursor: Id, p: Pass, e: Id) {
    var events := EventsAfter(p.outbox, cursor, batch);
    || |PassLog(cfg, batch, cursor, p)| < |Drained(p.world, cfg, events, p.channels, {}, 0)|
    || StopsAt(p.world, cfg, events, p.channels, {}, 0, e)
  }

  lemma UnfinishedPass(cfg: Config, batch: nat, cursor: Id, p: Pass, e: Id)
    requires var log := PassLog(cfg, batch, cursor, p); Sends(log, e) && Moved(e) !in log
    ensures var log := PassLog(cfg, batch, cursor, p); EndsWith(log, e) && Interrupted(cfg, batch, cursor, p, e)
  {
    hide Drained, EventsAfter, StopsAt;
    var events := EventsAfter(p.outbox, cursor, batch);
    var all, log := Drained(p.world, cfg, events, p.channels, {}, 0), PassLog(cfg, batch, cursor, p);
    assert log == all[..|log|];
    forall k: nat, l: nat | k < l < |log| && !log[k].Waited? && log[k].event == e ensures Serves(log[l], e) {
      SliceOfPrefix(all, |log|, k, l);
      if !Serves(log[l], e) { EventsInOrder(p.world, cfg, events, p.channels, {}, 0, k, l); }
    }
    var k: nat :| k < |log| && log[k].Tried? && log[k].event == e;
    if |log| == |all| {
      assert log == all;
      ServedOrMoved(p.world, cfg, events, p.channels, {}, 0, k);
    }
  }

  /** An event is sent again only if the earlier pass was interrupted during it:
      that pass did not move over it, ended with it, and was cut or stopped
      there. */
  lemma ResentOnlyIfInterrupted(cfg: Config, batch: nat, start: Id, passes: seq<Pass>, i: nat, j: nat, e: Id)
    requires Proper(passes) && i < j < |passes|
    requires Sends(Part(cfg, batch, start, passes, i), e) && Sends(Part(cfg, batch, start, passes, j), e)
    ensures var part := Part(cfg, batch, start, passes, i); Moved(e) !in part && EndsWith(part, e)
    ensures Interrupted(cfg, batch, CursorAfter(start, RunLog(cfg, batch, start, passes[..i])), passes[i], e)
  {
    hide Proper, PassLog, CursorAfter, RunLog, EndsWith, Interrupted;
    var log, part := RunLog(cfg, batch, start, passes), Part(cfg, batch, start, passes, i);
    var n, m := Before(cfg, batch, start, passes, i), Before(cfg, batch, start, passes, j);
    PartsMakeTheRun(cfg, batch, start, passes, i);
    PartsMakeTheRun(cfg, batch, start, passes, j);
    PartsAscend(cfg, batch, start, passes, i + 1, j);
    var later := Part(cfg, batch, start, passes, j);
    var l :| 0 <= l < |later| && later[l].Tried? && later[l].event == e;
    assert log[m + l] == later[l];
    if Moved(e) in part {
      var k :| 0 <= k < |part| && part[k] == Moved(e);
      assert log[n + k] == part[k];
      NothingPastTheCursor(cfg, batch, start, passes, n + k, m + l);
    }
    UnfinishedPass(cfg, batch, CursorAfter(start, RunLog(cfg, batch, start, passes[..i])), passes[i], e);
  }

  lemma {:induction false} PartsAscend(cfg: Config, batch: nat, start: Id, passes: seq<Pass>, i: nat, j: nat)
    requires i <= j <= |passes|
    ensures Before(cfg, batch, start, passes, i) <= Before(cfg, batch, start, passes, j)
    decreases j - i
  {
    hide RunLog;
    if i < j {
      PartsAscend(cfg, batch, start, passes, i, j - 1);
      PartsMakeTheRun(cfg, batch, start, passes, j - 1);
    }
  }

  lemma PassMovesWithin(cfg: Config, batch: nat, cursor: Id, p: Pass)
    requires Ascending(p.outbox)
    ensures var after := CursorAfter(cursor, PassLog(cfg, batch, cursor, p));
      after == cursor || Among(p.outbox, after)
  {
    hide Drained, EventsAfter, CursorAfter;
    var added := PassLog(cfg, batch, cursor, p);
    LastMove(cursor, added);
    if CursorAfter(cursor, added) != cursor {
      var events := EventsAfter(p.outbox, cursor, batch);
      EventsAfterArePast(p.outbox, cursor, batch);
      DrainedIsAbout(p.world, cfg, events, p.channels, {}, 0);
      var a := Moved(CursorAfter(cursor, added));
      assert a in Drained(p.world, cfg, events, p.channels, {}, 0);
      var e :| e in events && e.id == a.event;
      assert e in p.outbox;
    }
  }

  lemma {:induction false} CursorIsOfTheOutbox(cfg: Config, batch: nat, start: Id, passes: seq<Pass>)
    requires Proper(passes) && passes != []
    ensures var cursor := CursorAfter(start, RunLog(cfg, batch, start, passes));
      cursor == start || Among(passes[|passes| - 1].outbox, cursor)
    decreases |passes|
  {
    hide Proper, PassLog, Ascending, CursorAfter;
    RunUnfolds(cfg, batch, start, passes);
    var rest, p := passes[..|passes| - 1], passes[|passes| - 1];
    var before := RunLog(cfg, batch, start, rest);
    var cursor := CursorAfter(start, before);
    CursorAppend(start, before, PassLog(cfg, batch, cursor, p));
    PassMovesWithin(cfg, batch, cursor, p);
    if rest == [] {
      EmptyLog(start);
    } else {
      CursorIsOfTheOutbox(cfg, batch, start, rest);
      var last := rest[|rest| - 1].outbox;
      if Among(last, cursor) {
        var e :| e in last && e.id == cursor;
        assert e in p.outbox;
      }
    }
  }

  /** Where the cursor stands, it was moved to. */
  lemma {:induction false} LastMove(start: Id, log: Log)
    ensures CursorAfter(start, log) == start || Moved(CursorAfter(start, log)) in log
    decreases |log|
  {
    if log != [] && !log[|log| - 1].Moved? { LastMove(start, log[..|log| - 1]); }
  }

  lemma PassSkipsNone(cfg: Config, batch: nat, cursor: Id, p: Pass, z: Event)
    requires Ascending(p.outbox) && z in p.outbox && cursor < z.id <= CursorAfter(cursor, PassLog(cfg, batch, cursor, p))
    ensures Moved(z.id) in PassLog(cfg, batch, cursor, p)
  {
    hide Drained, EventsAfter, CursorAfter;
    var added := PassLog(cfg, batch, cursor, p);
    var events := EventsAfter(p.outbox, cursor, batch);
    var whole := Drained(p.world, cfg, events, p.channels, {}, 0);
    EventsAfterArePast(p.outbox, cursor, batch);
    LastMove(cursor, added);
    var k :| 0 <= k < |added| && added[k] == Moved(CursorAfter(cursor, added));
    assert whole[k] == added[k] && whole[k] in whole;
    DrainedIsAbout(p.world, cfg, events, p.channels, {}, 0);
    var e :| e in events && e.id == whole[k].event;
    assert z in events;
    MovesOneByOne(p.world, cfg, events, p.channels, {}, 0, k, z);
    assert whole[..k + 1] == added[..k + 1];
  }

  /** No event is passed over: each one of the outbox from the start to the cursor
      had the cursor moved to it. */
  lemma {:induction false} NoneIsSkipped(cfg: Config, batch: nat, start: Id, passes: seq<Pass>, z: Event)
    requires Proper(passes) && passes != [] && z in passes[|passes| - 1].outbox
    requires start < z.id <= CursorAfter(start, RunLog(cfg, batch, start, passes))
    ensures Moved(z.id) in RunLog(cfg, batch, start, passes)
    decreases |passes|
  {
    hide Proper, PassLog, Ascending, CursorAfter;
    RunUnfolds(cfg, batch, start, passes);
    var rest, p := passes[..|passes| - 1], passes[|passes| - 1];
    var before := RunLog(cfg, batch, start, rest);
    var cursor := CursorAfter(start, before);
    CursorAppend(start, before, PassLog(cfg, batch, cursor, p));
    if z.id > cursor {
      PassSkipsNone(cfg, batch, cursor, p, z);
    } else {
      if rest == [] { EmptyLog(start); }
      CursorIsOfTheOutbox(cfg, batch, start, rest);
      WasThere(rest[|rest| - 1].outbox, p.outbox, cursor, z);
      NoneIsSkipped(cfg, batch, start, rest, z);
    }
  }

  /** An event as old as one that was there was there too. */
  lemma WasThere(past: seq<Event>, now: seq<Event>, cursor: Id, z: Event)
    requires past <= now && Ascending(now) && Among(past, cursor) && z in now && z.id <= cursor
    ensures z in past
  {
    var e :| e in past && e.id == cursor;
    var i :| 0 <= i < |past| && past[i] == e;
    var j :| 0 <= j < |now| && now[j] == z;
    assert now[i] == e;
    assert j <= i;
    assert past[j] == z;
  }

  /** In one pass a channel that failed for good is not contacted again; it is
      contacted for another event only once it was sent the one before and the
      cursor had moved over that; and no event costs it more than Attempts tries. */
  lemma ChannelsInAPass(cfg: Config, batch: nat, cursor: Id, p: Pass, c: Id, e: Id)
    requires Ascending(p.outbox) && Distinct(p.channels)
    ensures var log := PassLog(cfg, batch, cursor, p);
      && Tries(log, c, e) <= Attempts(cfg)
      && forall i, j | 0 <= i < j < |log| && log[i].Tried? && log[j].Tried? && log[i].channel == log[j].channel == c ::
           ContactsOk(log, i, j)
  {
    var events := EventsAfter(p.outbox, cursor, batch);
    var all, log := Drained(p.world, cfg, events, p.channels, {}, 0), PassLog(cfg, batch, cursor, p);
    EventsAfterArePast(p.outbox, cursor, batch);
    DrainedTries(p.world, cfg, events, p.channels, {}, 0, c, e);
    assert all == log + all[|log|..];
    TriesAdd(log, all[|log|..], c, e);
    forall i: nat, j: nat | i < j < |log| && log[i].Tried? && log[j].Tried? && log[i].channel == log[j].channel == c
      ensures ContactsOk(log, i, j)
    {
      ContactsInOrder(p.world, cfg, events, p.channels, {}, 0, i, j);
      assert all[i] == log[i] && all[j] == log[j] && all[..j] == log[..j] && all[i..j] == log[i..j];
    }
  }
}
