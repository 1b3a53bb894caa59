/** What the records of the notification outbox tell: a pass contacts only
    channels that take the event, and what it stores on a channel is true. */
module NotifyRecords {
  import opened Text
  import opened Notify

  // ---- only what is taken ----

  /** The channel is one that takes the event. */
  predicate Takes(a: Action, channels: seq<Channel>, e: Event) {
    (a.Tried? || a.Recorded?) && exists c :: c in channels && c.id == a.channel && a.event == e.id && Matches(c, e)
  }

  predicate OnlyTaken(log: Log, channels: seq<Channel>, e: Event) {
    forall a | a in log && (a.Tried? || a.Recorded?) :: Takes(a, channels, e)
  }

  lemma TakenByMore(log: Log, c: Channel, rest: seq<Channel>, e: Event)
    requires OnlyTaken(log, rest, e)
    ensures OnlyTaken(log, [c] + rest, e)
  {
    forall a | a in log && (a.Tried? || a.Recorded?) ensures Takes(a, [c] + rest, e) {
      assert Takes(a, rest, e);
      var x :| x in rest && x.id == a.channel && a.event == e.id && Matches(x, e);
      assert x in [c] + rest;
    }
  }

  lemma TakenByHead(log: Log, c: Channel, rest: seq<Channel>, e: Event, missed: bool)
    requires Matches(c, e)
    requires forall i | 0 <= i < |log| :: log[i].Waited? || (log[i].Tried? && log[i].channel == c.id && log[i].event == e.id)
    ensures OnlyTaken(log, [c] + rest, e) && OnlyTaken(log + [Recorded(c.id, e.id, missed)], [c] + rest, e)
  {
    assert c in [c] + rest;
  }

  lemma {:induction false} FanTakes(w: World, cfg: Config, e: Event, channels: seq<Channel>, tripped: set<Id>, t: nat)
    ensures OnlyTaken(Fan(w, cfg, e, channels, tripped, t).log, channels, e)
    decreases |channels|
  {
    hide OnlyTaken, Matches;
    if channels == [] {
      assert OnlyTaken([], channels, e) by { NothingTaken(channels, e); }
    } else {
      var c, rest := channels[0], channels[1..];
      assert channels == [c] + rest;
      if !Matches(c, e) {
        FanTakes(w, cfg, e, rest, tripped, t);
        TakenByMore(Fan(w, cfg, e, rest, tripped, t).log, c, rest, e);
      } else if c.id in tripped {
        FanTakes(w, cfg, e, rest, tripped, t);
        ThenTakes([], true, c, rest, e, Fan(w, cfg, e, rest, tripped, t).log);
      } else if !w.settings(t) {
        FanTakes(w, cfg, e, rest, tripped, t + 1);
        ThenTakes([], true, c, rest, e, Fan(w, cfg, e, rest, tripped, t + 1).log);
      } else {
        var d := Deliver(w, Attempts(cfg), c.id, e.id, 1, cfg.backoff, t + 1);
        DeliverDelivers(w, Attempts(cfg), c.id, e.id, 1, cfg.backoff, t + 1);
        TakenByHead(d.log, c, rest, e, true);
        if d.error.None? {
          FanTakes(w, cfg, e, rest, tripped, d.time);
          ThenTakes(d.log, false, c, rest, e, Fan(w, cfg, e, rest, tripped, d.time).log);
        } else if d.time < w.stop {
          FanTakes(w, cfg, e, rest, tripped + {c.id}, d.time + 1);
          ThenTakes(d.log, true, c, rest, e, Fan(w, cfg, e, rest, tripped + {c.id}, d.time + 1).log);
        }
      }
    }
  }

  lemma NothingTaken(channels: seq<Channel>, e: Event)
    ensures OnlyTaken([], channels, e)
  {}

  lemma ThenTakes(log: Log, missed: bool, c: Channel, rest: seq<Channel>, e: Event, after: Log)
    requires Matches(c, e) && OnlyTaken(after, rest, e)
    requires forall i | 0 <= i < |log| :: log[i].Waited? || (log[i].Tried? && log[i].channel == c.id && log[i].event == e.id)
    ensures OnlyTaken(log + [Recorded(c.id, e.id, missed)] + after, [c] + rest, e)
    ensures log == [] ==> OnlyTaken([Recorded(c.id, e.id, missed)] + after, [c] + rest, e)
  {
    hide Takes;
    TakenByHead(log, c, rest, e, missed);
    TakenByMore(after, c, rest, e);
    if log == [] { assert log + [Recorded(c.id, e.id, missed)] + after == [Recorded(c.id, e.id, missed)] + after; }
  }

  /** An action of a pass is for one of its events and a channel that takes it. */
  predicate TakenIn(a: Action, events: seq<Event>, channels: seq<Channel>) {
    exists e :: e in events && Takes(a, channels, e)
  }

  lemma {:induction false} DrainedTakes(w: World, cfg: Config, events: seq<Event>, channels: seq<Channel>, tripped: set<Id>, t: nat,
                                       a: Action)
    requires a in Drained(w, cfg, events, channels, tripped, t) && (a.Tried? || a.Recorded?)
    ensures TakenIn(a, events, channels)
    decreases |events|
  {
    hide Takes;
    var f := Fan(w, cfg, events[0], channels, tripped, t + 1);
    FanTakes(w, cfg, events[0], channels, tripped, t + 1);
    if a in f.log {
      assert events[0] in events && Takes(a, channels, events[0]);
    } else {
      DrainedTakes(w, cfg, events[1..], channels, f.tripped, f.time + 1, a);
      var e :| e in events[1..] && Takes(a, channels, e);
      assert e in events;
    }
  }

  /** Whatever a pass sends, or stores on a channel, is for an event past the
      cursor and an enabled channel that takes it: of the event's server or of the
      whole panel, and by its list of kinds, or by default with an empty one. */
  lemma OnlyTakersAreContacted(cfg: Config, batch: nat, cursor: Id, p: Pass, a: Action)
    requires Ascending(p.outbox) && a in PassLog(cfg, batch, cursor, p) && (a.Tried? || a.Recorded?)
    ensures exists c, e :: c in p.channels && e in p.outbox && e.id > cursor
              && c.id == a.channel && e.id == a.event
              && (c.server == 0 || c.server == e.server)
              && (e.kind in c.events || (c.events == [] && e.kind != "schedule.run" && !("notification." <= e.kind)))
  {
    hide Drained, Matches;
    var events := EventsAfter(p.outbox, cursor, batch);
    var all := Drained(p.world, cfg, events, p.channels, {}, 0);
    assert a in all;
    DrainedTakes(p.world, cfg, events, p.channels, {}, 0, a);
    var e :| e in events && Takes(a, p.channels, e);
    var c :| c in p.channels && c.id == a.channel && a.event == e.id && Matches(c, e);
    EventsAfterArePast(p.outbox, cursor, batch);
    BeyondHolds(p.outbox, cursor, e);
    assert e in Beyond(p.outbox, cursor);
  }

  // ---- what is stored is true ----

  /** The try just before it failed for good. */
  predicate FailedAt(log: Log, k: int, c: Id) {
    && 0 < k < |log| && log[k].Recorded? && log[k].missed && log[k].channel == c
    && log[k - 1].Tried? && log[k - 1].channel == c && log[k - 1].event == log[k].event && log[k - 1].outcome.Fails?
  }

  ghost predicate Unreadable(w: World) { exists t: nat :: !w.settings(t) }

  /** A success is stored right after it; a miss right after the try that failed,
      or because the channel failed before, or its settings could not be read. */
  ghost predicate Tells(log: Log, k: int, w: World, tripped: set<Id>) {
    0 <= k < |log| && log[k].Recorded? ==>
      if !log[k].missed then k > 0 && log[k - 1] == Tried(log[k].channel, log[k].event, Delivered)
      else
        || FailedAt(log, k, log[k].channel)
        || log[k].channel in tripped
        || (exists j :: 0 <= j < k && FailedAt(log, j, log[k].channel))
        || Unreadable(w)
  }

  ghost predicate AllTell(log: Log, w: World, tripped: set<Id>) { forall k | 0 <= k < |log| :: Tells(log, k, w, tripped) }

  /** Those given up in the meantime failed in this part of the log. */
  predicate Given(log: Log, before: set<Id>, after: set<Id>) {
    forall c | c in after :: c in before || exists j :: 0 <= j < |log| && FailedAt(log, j, c)
  }

  lemma Later(first: Log, rest: Log, w: World, tripped: set<Id>, more: set<Id>)
    requires AllTell(first, w, tripped) && AllTell(rest, w, more) && Given(first, tripped, more)
    ensures AllTell(first + rest, w, tripped)
  {
    hide Given, AllTell;
    forall k | 0 <= k < |first + rest| ensures Tells(first + rest, k, w, tripped) {
      if k < |first| { TellsBefore(first, rest, w, tripped, k); } else { TellsLater(first, rest, w, tripped, more, k); }
    }
    assert AllTell(first + rest, w, tripped) by { TellAll(first + rest, w, tripped); }
  }

  lemma TellAll(log: Log, w: World, tripped: set<Id>)
    requires forall k | 0 <= k < |log| :: Tells(log, k, w, tripped)
    ensures AllTell(log, w, tripped)
  {}

  lemma TellsBefore(first: Log, rest: Log, w: World, tripped: set<Id>, k: int)
    requires AllTell(first, w, tripped) && 0 <= k < |first|
    ensures Tells(first + rest, k, w, tripped)
  {
    hide Unreadable;
    assert Tells(first, k, w, tripped);
    var log := first + rest;
    if log[k].Recorded? {
      forall j | 0 <= j <= k ensures FailedAt(log, j, log[k].channel) <==> FailedAt(first, j, log[k].channel) {}
    }
  }

  lemma TellsLater(first: Log, rest: Log, w: World, tripped: set<Id>, more: set<Id>, k: int)
    requires AllTell(rest, w, more) && Given(first, tripped, more) && |first| <= k < |first + rest|
    ensures Tells(first + rest, k, w, tripped)
  {
    hide Unreadable;
    var log, n := first + rest, |first|;
    assert Tells(rest, k - n, w, more);
    if log[k].Recorded? {
      var c := log[k].channel;
      if log[k].missed {
        forall j | 0 <= j <= k - n && FailedAt(rest, j, c) ensures FailedAt(log, n + j, c) {
          assert log[n + j] == rest[j] && log[n + j - 1] == rest[j - 1];
        }
        if c in more && c !in tripped {
          var j :| 0 <= j < n && FailedAt(first, j, c);
          assert FailedAt(log, j, c);
        }
      } else {
        assert log[k - 1] == rest[k - n - 1];
      }
    }
  }

  lemma GivenLater(first: Log, rest: Log, a: set<Id>, b: set<Id>, c: set<Id>)
    requires Given(first, a, b) && Given(rest, b, c)
    ensures Given(first + rest, a, c)
  {
    var log, n := first + rest, |first|;
    forall x | x in c && x !in a ensures exists j :: 0 <= j < |log| && FailedAt(log, j, x) {
      if x in b {
        var j :| 0 <= j < n && FailedAt(first, j, x);
        assert FailedAt(log, j, x);
      } else {
        var j :| 0 <= j < |rest| && FailedAt(rest, j, x);
        assert log[n + j] == rest[j] && log[n + j - 1] == rest[j - 1];
        assert FailedAt(log, n + j, x);
      }
    }
  }

  /** One delivery and its record. */
  lemma DeliveryTells(log: Log, c: Id, e: Id, sent: bool, w: World, tripped: set<Id>)
    requires Delivers(log, c, e, sent)
    ensures AllTell(log, w, tripped) && AllTell(log + [Recorded(c, e, !sent)], w, tripped)
    ensures Given(log + [Recorded(c, e, !sent)], tripped, if sent then tripped else tripped + {c})
  {
    hide Unreadable;
    var all := log + [Recorded(c, e, !sent)];
    assert all[|log| - 1] == log[|log| - 1];
    if !sent { assert FailedAt(all, |log|, c); }
    forall k | 0 <= k < |log| ensures !log[k].Recorded? && all[k] == log[k] {}
  }

  /** A record without a delivery. */
  lemma MissTells(c: Id, e: Id, w: World, tripped: set<Id>)
    requires c in tripped || Unreadable(w)
    ensures AllTell([Recorded(c, e, true)], w, tripped) && Given([Recorded(c, e, true)], tripped, tripped)
  {
    hide Unreadable;
  }

  lemma {:induction false} FanTells(w: World, cfg: Config, e: Event, channels: seq<Channel>, tripped: set<Id>, t: nat)
    ensures var f := Fan(w, cfg, e, channels, tripped, t); AllTell(f.log, w, tripped) && Given(f.log, tripped, f.tripped)
    decreases |channels|
  {
    hide AllTell, Given, Matches, Delivers, Tells;
    if channels == [] {
      EmptyTells(w, tripped);
    } else {
      var c, rest := channels[0], channels[1..];
      if !Matches(c, e) {
        FanTells(w, cfg, e, rest, tripped, t);
      } else if c.id in tripped {
        FanTells(w, cfg, e, rest, tripped, t);
        MissTells(c.id, e.id, w, tripped);
        ThenTells([Recorded(c.id, e.id, true)], tripped, Fan(w, cfg, e, rest, tripped, t), w, tripped);
      } else if !w.settings(t) {
        FanTells(w, cfg, e, rest, tripped, t + 1);
        MissTells(c.id, e.id, w, tripped);
        ThenTells([Recorded(c.id, e.id, true)], tripped, Fan(w, cfg, e, rest, tripped, t + 1), w, tripped);
      } else {
        var d := Deliver(w, Attempts(cfg), c.id, e.id, 1, cfg.backoff, t + 1);
        DeliverDelivers(w, Attempts(cfg), c.id, e.id, 1, cfg.backoff, t + 1);
        DeliveryTells(d.log, c.id, e.id, d.error.None?, w, tripped);
        if d.error.None? {
          FanTells(w, cfg, e, rest, tripped, d.time);
          ThenTells(d.log + [Recorded(c.id, e.id, false)], tripped, Fan(w, cfg, e, rest, tripped, d.time), w, tripped);
        } else if d.time >= w.stop {
          SameGiven(d.log, tripped);
        } else {
          FanTells(w, cfg, e, rest, tripped + {c.id}, d.time + 1);
          ThenTells(d.log + [Recorded(c.id, e.id, true)], tripped + {c.id},
                    Fan(w, cfg, e, rest, tripped + {c.id}, d.time + 1), w, tripped);
        }
      }
    }
  }

  lemma EmptyTells(w: World, tripped: set<Id>)
    ensures AllTell([], w, tripped) && Given([], tripped, tripped)
  {}

  lemma SameGiven(log: Log, tripped: set<Id>)
    ensures Given(log, tripped, tripped)
  {}

  lemma ThenTells(first: Log, more: set<Id>, f: Fanned, w: World, tripped: set<Id>)
    requires AllTell(first, w, tripped) && Given(first, tripped, more)
    requires AllTell(f.log, w, more) && Given(f.log, more, f.tripped)
    ensures AllTell(first + f.log, w, tripped) && Given(first + f.log, tripped, f.tripped)
  {
    hide AllTell, Given;
    Later(first, f.log, w, tripped, more);
    GivenLater(first, f.log, tripped, more, f.tripped);
  }

  lemma {:induction false} DrainedTells(w: World, cfg: Config, events: seq<Event>, channels: seq<Channel>, tripped: set<Id>, t: nat)
    ensures AllTell(Drained(w, cfg, events, channels, tripped, t), w, tripped)
    decreases |events|
  {
    hide AllTell, Given, Fan;
    if events == [] || t >= w.stop {
      EmptyTells(w, tripped);
    } else {
      var f := Fan(w, cfg, events[0], channels, tripped, t + 1);
      FanTells(w, cfg, events[0], channels, tripped, t + 1);
      if f.time < w.stop {
        var rest := Drained(w, cfg, events[1..], channels, f.tripped, f.time + 1);
        DrainedTells(w, cfg, events[1..], channels, f.tripped, f.time + 1);
        MoveTells(events[0].id, w, f.tripped);
        Later([Moved(events[0].id)], rest, w, f.tripped, f.tripped);
        Later(f.log, [Moved(events[0].id)] + rest, w, tripped, f.tripped);
        assert f.log + [Moved(events[0].id)] + rest == f.log + ([Moved(events[0].id)] + rest);
      }
    }
  }

  lemma MoveTells(e: Id, w: World, tripped: set<Id>)
    ensures AllTell([Moved(e)], w, tripped) && Given([Moved(e)], tripped, tripped)
  {}

  /** What a pass stores on a channel is true. A success is stored right after the
      event was delivered; a miss right after the last try failed, or for a channel
      that failed so earlier in the pass, or when the channel's settings could not
      be read. */
  lemma RecordsTell(cfg: Config, batch: nat, cursor: Id, p: Pass, k: nat)
    requires var log := PassLog(cfg, batch, cursor, p); k < |log| && log[k].Recorded?
    ensures var log := PassLog(cfg, batch, cursor, p);
      var c := log[k].channel;
      if !log[k].missed then k > 0 && log[k - 1] == Tried(c, log[k].event, Delivered)
      else FailedAt(log, k, c) || (exists j :: 0 <= j < k && FailedAt(log, j, c)) || Unreadable(p.world)
  {
    hide Drained, EventsAfter, Unreadable;
    var events := EventsAfter(p.outbox, cursor, batch);
    var all, log := Drained(p.world, cfg, events, p.channels, {}, 0), PassLog(cfg, batch, cursor, p);
    DrainedTells(p.world, cfg, events, p.channels, {}, 0);
    assert Tells(all, k, p.world, {});
    assert log == all[..|log|];
    forall j | 0 <= j <= k ensures FailedAt(all, j, log[k].channel) <==> FailedAt(log, j, log[k].channel) {}
  }

  // ---- a pass comes to its end ----

  /** How long one channel can take at most: its settings, its tries with the
      pauses between them, its record. */
  function Longest(cfg: Config): nat { 2 * (if cfg.attempts < 1 then 1 else cfg.attempts) + 3 }

  lemma DeliveryEnds(w: World, cfg: Config, c: Id, e: Id, t: nat)
    ensures Deliver(w, Attempts(cfg), c, e, 1, cfg.backoff, t).time <= t + Longest(cfg) - 3
  {
    hide TryAt, PauseAfter, Retryable;
    var n := DeliverTriesInTurn(w, Attempts(cfg), c, e, 1, cfg.backoff, t);
  }

  lemma {:induction false} FanEnds(w: World, cfg: Config, e: Event, channels: seq<Channel>, tripped: set<Id>, t: nat)
    ensures Fan(w, cfg, e, channels, tripped, t).time <= t + |channels| * Longest(cfg)
    decreases |channels|
  {
    hide Matches, Longest;
    if channels != [] {
      var c, rest := channels[0], channels[1..];
      var d := Deliver(w, Attempts(cfg), c.id, e.id, 1, cfg.backoff, t + 1);
      DeliveryEnds(w, cfg, c.id, e.id, t + 1);
      assert Longest(cfg) >= 3 by { LongEnough(cfg); }
      assert |channels| * Longest(cfg) == |rest| * Longest(cfg) + Longest(cfg);
      FanEnds(w, cfg, e, rest, tripped, t);
      FanEnds(w, cfg, e, rest, tripped, t + 1);
      FanEnds(w, cfg, e, rest, tripped, d.time);
      FanEnds(w, cfg, e, rest, tripped + {c.id}, d.time + 1);
    }
  }

  lemma LongEnough(cfg: Config)
    ensures Longest(cfg) >= 3
  {}

  lemma {:induction false} DrainedEnds(w: World, cfg: Config, events: seq<Event>, channels: seq<Channel>, tripped: set<Id>, t: nat,
                                      z: Event)
    requires z in events && t + |events| * (|channels| * Longest(cfg) + 2) < w.stop
    ensures Moved(z.id) in Drained(w, cfg, events, channels, tripped, t)
    decreases |events|
  {
    hide Fan, Longest;
    var each := |channels| * Longest(cfg) + 2;
    var f := Fan(w, cfg, events[0], channels, tripped, t + 1);
    FanEnds(w, cfg, events[0], channels, tripped, t + 1);
    assert |events| * each == |events[1..]| * each + each;
    if z != events[0] { DrainedEnds(w, cfg, events[1..], channels, f.tripped, f.time + 1, z); }
  }

  lemma {:induction false} BeyondIsShorter(outbox: seq<Event>, cursor: Id)
    ensures |Beyond(outbox, cursor)| <= |outbox|
    decreases |outbox|
  {
    if outbox != [] { BeyondIsShorter(outbox[1..], cursor); }
  }

  /** A pass that is neither cut off nor stopped, with room for the outbox in its
      batch, moves over every event past the cursor: a channel that fails, however
      often, holds nothing up for longer than its tries. */
  lemma PassesFinish(cfg: Config, batch: nat, cursor: Id, p: Pass, z: Event)
    requires z in p.outbox && z.id > cursor && |p.outbox| <= batch
    requires |p.outbox| * (|p.channels| * Longest(cfg) + 2) < p.world.stop
    requires |PassLog(cfg, batch, cursor, p)| < p.cut
    ensures Moved(z.id) in PassLog(cfg, batch, cursor, p)
  {
    hide Drained, Longest;
    var events := EventsAfter(p.outbox, cursor, batch);
    BeyondHolds(p.outbox, cursor, z);
    BeyondIsShorter(p.outbox, cursor);
    assert events == Beyond(p.outbox, cursor);
    var each := |p.channels| * Longest(cfg) + 2;
    Monotone(|events|, |p.outbox|, each);
    DrainedEnds(p.world, cfg, events, p.channels, {}, 0, z);
  }

  lemma Monotone(a: nat, b: nat, each: nat)
    requires a <= b
    ensures a * each <= b * each
  {}
}
