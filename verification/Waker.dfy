/** The debounced wake callback (cmd/activator/main.go, waker.trigger): triggers
    that interleave, a post made outside the mutex, and the timestamp cleared
    when it fails. */
module Waker {
  import opened Text

  type Seconds = nat
  type PostId = nat

  const COOLDOWN: Seconds := 15

  /** A trigger that won the right to post: its post is being made, or failed and
      the timestamp is still to be cleared. */
  datatype Stage = Posting | Clearing
  datatype Flight = Flight(at: Seconds, stage: Stage)

  datatype Post = Post(id: PostId, at: Seconds)

  /** late says that some trigger was still at work a whole cooldown after its
      timestamp. */
  datatype State = State(now: Seconds, last: Option<Seconds>, flights: map<PostId, Flight>,
                         posts: seq<Post>, failed: set<PostId>, late: bool)

  const START := State(0, None, map[], [], {}, false)

  datatype Step = Tick(d: Seconds) | Trigger | Ends(id: PostId, ok: bool) | Clear(id: PostId)

  predicate Debounced(s: State) { s.last.Some? && s.now - s.last.value < COOLDOWN }

  function Do(s: State, step: Step): State {
    match step
    case Tick(d) =>
      s.(now := s.now + d, late := s.late || exists id | id in s.flights :: s.flights[id].at + COOLDOWN <= s.now + d)
    case Trigger =>
      if Debounced(s) then s
      else
        var id := |s.posts|;
        s.(last := Some(s.now), flights := s.flights[id := Flight(s.now, Posting)], posts := s.posts + [Post(id, s.now)])
    case Ends(id, ok) =>
      if id !in s.flights || s.flights[id].stage != Posting then s
      else if ok then s.(flights := s.flights - {id})
      else s.(flights := s.flights[id := s.flights[id].(stage := Clearing)], failed := s.failed + {id})
    case Clear(id) =>
      if id !in s.flights || s.flights[id].stage != Clearing then s
      else s.(flights := s.flights - {id}, last := None)
  }

  function Run(steps: seq<Step>): State {
    if steps == [] then START else Do(Run(steps[..|steps| - 1]), steps[|steps| - 1])
  }

  // ---- what every interleaving keeps ----

  /** Posts that follow each other start a cooldown apart unless the first one
      failed. */
  predicate Spaced(s: State) {
    forall j | 0 < j < |s.posts| ::
      s.posts[j].at >= s.posts[j - 1].at + COOLDOWN || s.posts[j - 1].id in s.failed
  }

  predicate FlightOk(s: State, id: PostId)
    requires id in s.flights
  {
    && id == |s.posts| - 1 && s.flights[id].at == s.posts[id].at
    && s.last == Some(s.flights[id].at) && s.now < s.flights[id].at + COOLDOWN
    && (s.flights[id].stage == Clearing ==> id in s.failed)
  }

  /** The timestamp is the last post's; it is cleared only for one that failed. */
  predicate LastOk(s: State) {
    match s.last
    case Some(t) => s.posts != [] && s.posts[|s.posts| - 1].at == t
    case None => s.posts == [] || |s.posts| - 1 in s.failed
  }

  predicate Sound(s: State) {
    && (forall i | 0 <= i < |s.posts| :: s.posts[i].id == i && s.posts[i].at <= s.now)
    && (forall id | id in s.flights :: FlightOk(s, id))
    && (forall id | id in s.failed :: id < |s.posts|)
    && LastOk(s) && Spaced(s)
  }

  lemma TriggerKeeps(s: State)
    requires Sound(s)
    ensures Sound(Do(s, Trigger))
  {
    hide Spaced;
    var t := Do(s, Trigger);
    if !Debounced(s) {
      forall id | id in t.flights ensures FlightOk(t, id) {}
      PostSpaced(s, t);
    }
  }

  lemma PostSpaced(s: State, t: State)
    requires Spaced(s) && LastOk(s) && !Debounced(s) && t == Do(s, Trigger)
    requires forall i | 0 <= i < |s.posts| :: s.posts[i].id == i && s.posts[i].at <= s.now
    ensures Spaced(t)
  {
    forall j | 0 < j < |t.posts|
      ensures t.posts[j].at >= t.posts[j - 1].at + COOLDOWN || t.posts[j - 1].id in t.failed
    {
      if j < |s.posts| { assert t.posts[j - 1] == s.posts[j - 1] && t.posts[j] == s.posts[j]; }
    }
  }

  lemma OthersKeep(s: State, step: Step)
    requires Sound(s) && !step.Trigger?
    ensures !Do(s, step).late ==> Sound(Do(s, step))
  {
    hide Spaced;
    var t := Do(s, step);
    if !t.late {
      if !step.Tick? && step.id in s.flights { assert FlightOk(s, step.id); }
      forall id | id in t.flights ensures FlightOk(t, id) { assert FlightOk(s, id); }
      StaysSpaced(s, t);
    }
  }

  lemma StaysSpaced(s: State, t: State)
    requires Spaced(s) && t.posts == s.posts && s.failed <= t.failed
    ensures Spaced(t)
  {}

  lemma DoKeepsSound(s: State, step: Step)
    requires !s.late ==> Sound(s)
    ensures !Do(s, step).late ==> Sound(Do(s, step))
  {
    hide Sound;
    if !s.late {
      if step.Trigger? { TriggerKeeps(s); } else { OthersKeep(s, step); }
    }
  }

  lemma {:induction false} RunIsSound(steps: seq<Step>)
    ensures !Run(steps).late ==> Sound(Run(steps))
    decreases |steps|
  {
    if steps != [] {
      RunIsSound(steps[..|steps| - 1]);
      DoKeepsSound(Run(steps[..|steps| - 1]), steps[|steps| - 1]);
    }
  }

  predicate TwoAtWork(s: State) { exists a, b | a in s.flights && b in s.flights :: a != b }

  /** Two posts are being made at the same time. */
  predicate TwoPosting(s: State) {
    exists a, b | a in s.flights && b in s.flights :: a != b && s.flights[a].stage == s.flights[b].stage == Posting
  }

  /** If every trigger that posts is done within the cooldown of its timestamp,
      one at most is at work, and two posts in a row start closer than the
      cooldown only when the first of them failed. */
  lemma OnePostAtATime(steps: seq<Step>)
    ensures var s := Run(steps); !s.late ==> !TwoAtWork(s) && Spaced(s)
  {
    hide Run, Spaced;
    RunIsSound(steps);
    var s := Run(steps);
    if !s.late {
      forall a, b | a in s.flights && b in s.flights ensures a == b {
        assert FlightOk(s, a) && FlightOk(s, b);
      }
    }
  }

  lemma RunSteps(before: seq<Step>, step: Step)
    ensures Run(before + [step]) == Do(Run(before), step)
  {
    assert (before + [step])[..|before + [step]| - 1] == before;
  }

  // ---- and only then ----

  /** The clock moves on, a trigger comes, the post before it fails and is
      cleared, and another trigger comes. */
  function Overrun(d: Seconds, id: PostId): seq<Step> { [Tick(d), Trigger, Ends(id, false), Clear(id), Trigger] }

  function Overran(s: State, d: Seconds, id: PostId): State {
    Do(Do(Do(Do(Do(s, Tick(d)), Trigger), Ends(id, false)), Clear(id)), Trigger)
  }

  lemma RunOverrun(steps: seq<Step>, d: Seconds, id: PostId)
    ensures Run(steps + Overrun(d, id)) == Overran(Run(steps), d, id)
  {
    hide Run, Do;
    var a := steps + [Tick(d)];
    var b := a + [Trigger];
    var c := b + [Ends(id, false)];
    var e := c + [Clear(id)];
    RunSteps(steps, Tick(d));
    RunSteps(a, Trigger);
    RunSteps(b, Ends(id, false));
    RunSteps(c, Clear(id));
    RunSteps(e, Trigger);
    assert steps + Overrun(d, id) == e + [Trigger];
  }

  /** A trigger that is late is overtaken: the next one posts beside it, and the
      one after that beside both timestamp and post of that one. */
  lemma LateIsOvertaken(s: State, d: Seconds, id: PostId)
    requires Sound(s) && id in s.flights && s.flights[id].at + COOLDOWN <= s.now + d
    ensures TwoAtWork(Do(Do(s, Tick(d)), Trigger))
    ensures TwoPosting(Overran(s, d, id)) && !Spaced(Overran(s, d, id))
  {
    hide Spaced;
    assert FlightOk(s, id);
    var t := Do(Do(s, Tick(d)), Trigger);
    assert t.flights == s.flights[id + 1 := Flight(s.now + d, Posting)] && t.last == Some(s.now + d);
    assert id in t.flights && id + 1 in t.flights;
    var u := Do(Do(t, Ends(id, false)), Clear(id));
    assert u.last == None && u.posts == t.posts && u.failed <= s.failed + {id};
    assert id + 1 in u.flights && u.flights[id + 1].stage == Posting;
    var v := Overran(s, d, id);
    assert v.posts == u.posts + [Post(id + 2, s.now + d)];
    assert id + 1 in v.flights && id + 2 in v.flights && v.flights[id + 1].stage == v.flights[id + 2].stage == Posting;
    assert v.posts[id + 2].at == v.posts[id + 1].at && v.posts[id + 1].id == id + 1 && id + 1 !in v.failed;
    NotSpaced(v, id + 2);
  }

  lemma NotSpaced(s: State, j: nat)
    requires 0 < j < |s.posts| && s.posts[j].at < s.posts[j - 1].at + COOLDOWN && s.posts[j - 1].id !in s.failed
    ensures !Spaced(s)
  {}

  /** Letting a whole cooldown pass over a trigger still at work is exactly what
      breaks the rule: then, and only then, the next trigger is at work beside
      it; then, and only then, two posts can be made at once and start together
      though the first of them did not fail. */
  lemma LatenessDecides(steps: seq<Step>, d: Seconds)
    requires !Run(steps).late
    ensures Run(steps + [Tick(d)]).late <==> TwoAtWork(Run(steps + [Tick(d)] + [Trigger]))
    ensures Run(steps + [Tick(d)]).late <==> exists id :: TwoPosting(Run(steps + Overrun(d, id)))
    ensures Run(steps + [Tick(d)]).late <==> exists id :: !Spaced(Run(steps + Overrun(d, id)))
  {
    hide Run, Spaced, TwoPosting, TwoAtWork, Overran, Overrun, Sound;
    var s, t := Run(steps), Run(steps + [Tick(d)]);
    RunIsSound(steps);
    RunSteps(steps, Tick(d));
    RunSteps(steps + [Tick(d)], Trigger);
    if t.late {
      var id :| id in s.flights && s.flights[id].at + COOLDOWN <= s.now + d;
      LateIsOvertaken(s, d, id);
      RunOverrun(steps, d, id);
    } else {
      OnePostAtATime(steps + [Tick(d)] + [Trigger]);
      forall id ensures !TwoPosting(Run(steps + Overrun(d, id))) && Spaced(Run(steps + Overrun(d, id))) {
        RunOverrun(steps, d, id);
        OnTime(s, d, id);
        OnePostAtATime(steps + Overrun(d, id));
        OnlyOne(Run(steps + Overrun(d, id)));
      }
    }
  }

  lemma OnTime(s: State, d: Seconds, id: PostId)
    requires !Do(s, Tick(d)).late
    ensures !Overran(s, d, id).late
  {}

  lemma OnlyOne(s: State)
    requires !TwoAtWork(s)
    ensures !TwoPosting(s)
  {}

  /** A failure cleared too late wipes out a later post's timestamp: two posts
      are in flight, neither of them failed. */
  lemma LateClear()
    ensures exists steps :: var s := Run(steps);
      |s.posts| == 3 && 1 in s.flights && 2 in s.flights && s.failed == {0} && s.posts[2].at == s.posts[1].at
  {
    hide Run;
    var a: seq<Step> := [];
    assert Run(a) == START by { NoSteps(); }
    var s1 := Do(START, Trigger);
    RunSteps(a, Trigger);
    var b := a + [Trigger];
    var s2 := Do(s1, Ends(0, false));
    RunSteps(b, Ends(0, false));
    var c := b + [Ends(0, false)];
    var s3 := Do(s2, Tick(COOLDOWN));
    RunSteps(c, Tick(COOLDOWN));
    var d := c + [Tick(COOLDOWN)];
    var s4 := Do(s3, Trigger);
    RunSteps(d, Trigger);
    var e := d + [Trigger];
    var s5 := Do(s4, Clear(0));
    RunSteps(e, Clear(0));
    var f := e + [Clear(0)];
    var s6 := Do(s5, Trigger);
    RunSteps(f, Trigger);
    assert s4.posts == [Post(0, 0), Post(1, 15)];
    assert s6.posts == [Post(0, 0), Post(1, 15), Post(2, 15)];
    assert Run(f + [Trigger]) == s6;
  }

  lemma NoSteps()
    ensures Run([]) == START
  {}

  // ---- which triggers post ----

  /** A post is being made and has not failed, or failed and is to be cleared; and
      one whose failure was cleared leaves no timestamp. */
  predicate Clears(s: State) {
    && (forall id | id in s.flights :: id in s.failed <==> s.flights[id].stage == Clearing)
    && (s.posts != [] && |s.posts| - 1 in s.failed && |s.posts| - 1 !in s.flights ==> s.last == None)
  }

  lemma StepClears(s: State, step: Step)
    requires Sound(s) && Clears(s)
    ensures Clears(Do(s, step))
  {
    hide Spaced;
    var t := Do(s, step);
    if (step.Ends? || step.Clear?) && step.id in s.flights { assert FlightOk(s, step.id); }
    forall id | id in t.flights ensures id in t.failed <==> t.flights[id].stage == Clearing {}
  }

  lemma {:induction false} RunClears(steps: seq<Step>)
    ensures !Run(steps).late ==> Clears(Run(steps))
    decreases |steps|
  {
    hide Sound;
    if steps == [] {
      NoSteps();
    } else {
      var before, last := steps[..|steps| - 1], steps[|steps| - 1];
      RunClears(before);
      RunIsSound(before);
      StaysLate(Run(before), last);
      if !Run(before).late { StepClears(Run(before), last); }
    }
  }

  lemma StaysLate(s: State, step: Step)
    ensures s.late ==> Do(s, step).late
  {}

  /** When all triggers are on time, one posts exactly when there was no post in
      the last fifteen seconds, but for one that failed and was cleared; and then
      it posts once, at once. */
  lemma TriggersPost(steps: seq<Step>)
    requires !Run(steps).late
    ensures var s, t := Run(steps), Run(steps + [Trigger]);
      var n := |s.posts|;
      t.posts == if n == 0 || s.now >= s.posts[n - 1].at + 15 || (n - 1 in s.failed && n - 1 !in s.flights)
                 then s.posts + [Post(n, s.now)] else s.posts
  {
    hide Run, Spaced;
    RunIsSound(steps);
    RunClears(steps);
    RunSteps(steps, Trigger);
  }
}
