/** The passes of the measurement agree with each other and with what they stand for. */
module MeasurementAgreement {
  import opened Basics
  import opened Measurement

  // ---- filters ----

  lemma {:induction false} SameFilter<T(!new)>(xs: seq<T>, p: T -> bool, q: T -> bool)
    requires forall x :: x in xs ==> p(x) == q(x)
    ensures Filter(xs, p) == Filter(xs, q)
  {
    if xs != [] {
      assert xs == xs[..|xs| - 1] + [Last(xs)];
      SameFilter(xs[..|xs| - 1], p, q);
    }
  }

  function Both<T>(p: T -> bool, q: T -> bool): T -> bool {
    x => p(x) && q(x)
  }

  lemma {:induction false} FilterTwice<T(!new)>(xs: seq<T>, p: T -> bool, q: T -> bool)
    ensures Filter(Filter(xs, p), q) == Filter(xs, Both(p, q))
  {
    if xs != [] {
      var init := xs[..|xs| - 1];
      FilterTwice(init, p, q);
      if p(Last(xs)) {
        var f := Filter(init, p) + [Last(xs)];
        assert f[..|f| - 1] == Filter(init, p);
      }
    }
  }

  ghost predicate ByIndex(os: seq<Observation>) {
    forall j, k :: 0 <= j < k < |os| ==> os[j].index < os[k].index
  }

  lemma {:induction false} FilterByIndex(os: seq<Observation>, p: Observation -> bool)
    requires ByIndex(os)
    ensures ByIndex(Filter(os, p))
  {
    if os != [] {
      var init := os[..|os| - 1];
      FilterByIndex(init, p);
      var f := Filter(init, p);
      forall j | 0 <= j < |f| ensures f[j].index < Last(os).index {
        assert f[j] in f && f[j] in init;
      }
    }
  }

  lemma {:induction false} PostByIndex(text: string -> bool, events: seq<Event>, scenario: string, required: set<string>)
    ensures var post := PostActions(text, events, scenario, required);
      post.Some? ==> ByIndex(post.value) && forall o :: o in post.value ==> o.index < |events|
  {
    if events != [] { PostByIndex(text, events[..|events| - 1], scenario, required); }
  }

  /** The first kept observation is the kept one with the least index. */
  lemma FirstIsLeast(os: seq<Observation>, p: Observation -> bool)
    requires ByIndex(os)
    ensures First(os, p).None? <==> forall o :: o in os ==> !p(o)
    ensures First(os, p).Some? ==>
      First(os, p).value in os && p(First(os, p).value)
      && forall o :: o in os && p(o) ==> First(os, p).value.index <= o.index
  {
    var f := Filter(os, p);
    FilterByIndex(os, p);
    if f == [] {
      forall o | o in os ensures !p(o) { assert o in f <==> o in os && p(o); }
    } else {
      assert f[0] in f;
      forall o | o in os && p(o) ensures f[0].index <= o.index {
        assert o in f;
        var k :| 0 <= k < |f| && f[k] == o;
      }
    }
  }

  // ---- actions and deliveries ----

  lemma {:induction false} ActionsAreEvents(events: seq<Event>)
    ensures ReadActions(events).Some? ==>
      forall a :: a in ReadActions(events).value ==> a.index < |events| && Name(events[a.index]) == "action_result"
  {
    if events != [] { ActionsAreEvents(events[..|events| - 1]); }
  }

  lemma {:induction false} FirstDeliveryIsFirst(events: seq<Event>)
    ensures match FirstDelivery(events)
      case None => forall i :: 0 <= i < |events| ==> !IsDelivery(events[i])
      case Some(i) => i < |events| && IsDelivery(events[i]) && forall j :: 0 <= j < i ==> !IsDelivery(events[j])
  {
    if events != [] { FirstDeliveryIsFirst(events[..|events| - 1]); }
  }

  /** What parsing guarantees: the admission-order check puts the first delivered alert before
      every action of an eligible episode, and observations come in event order. */
  ghost predicate Ordered(ep: Episode) {
    && ByIndex(ep.post)
    && (ep.admission == Eligible ==>
          FirstDelivery(ep.events).Some? && forall a :: a in ep.actions ==> a.index > FirstDelivery(ep.events).value)
  }

  lemma ParsedIsOrdered(text: string -> bool, events: seq<Event>, scenario: string, required: set<string>)
    requires Parse(text, events, scenario, required).Some?
    ensures Ordered(Parse(text, events, scenario, required).value)
  {
    var ep := Parse(text, events, scenario, required).value;
    PostByIndex(text, events, scenario, required);
    ActionsAreEvents(events);
    FirstDeliveryIsFirst(events);
    assert ep.events == events && Some(ep.actions) == ReadActions(events);
  }

  // ---- the recovery pass and the resolution pass see the same observations ----

  lemma SameExecuted(ep: Episode)
    requires Ordered(ep) && ep.admission == Eligible
    ensures Filter(ep.actions, ExecutedAfter(FirstDelivery(ep.events).value)) == Executed(ep)
  {
    SameFilter(ep.actions, ExecutedAfter(FirstDelivery(ep.events).value), (a: Action) => a.executed);
  }

  function InScope(ep: Episode): Observation -> bool {
    (o: Observation) => AfterAny(Executed(ep), o.index) && Before(ep.cleanup, o.index)
  }

  function Relevant(ep: Episode): seq<Observation> {
    Filter(ep.post, InScope(ep))
  }

  lemma A1SeesRelevant(ep: Episode)
    ensures Filter(Filter(ep.post, ToAfter(Executed(ep))), ToBefore(ep.cleanup)) == Relevant(ep)
  {
    var p, q := ToAfter(Executed(ep)), ToBefore(ep.cleanup);
    FilterTwice(ep.post, p, q);
    SameFilter(ep.post, Both(p, q), InScope(ep));
  }

  lemma RecoverySeesRelevant(ep: Episode)
    requires Ordered(ep) && ep.admission == Eligible
    ensures var alert := FirstDelivery(ep.events).value;
      Filter(ep.post, Between(alert, ep.cleanup, Filter(ep.actions, ExecutedAfter(alert)))) == Relevant(ep)
  {
    SameExecuted(ep);
    var alert := FirstDelivery(ep.events).value;
    var between := Between(alert, ep.cleanup, Executed(ep));
    forall o | o in ep.post ensures between(o) == InScope(ep)(o) {
      if AfterAny(Executed(ep), o.index) {
        var i :| 0 <= i < |Executed(ep)| && Executed(ep)[i].index < o.index;
        assert Executed(ep)[i] in Executed(ep);
      }
    }
    SameFilter(ep.post, between, InScope(ep));
  }

  /** Nothing is relevant without an executed action or without a cleanup boundary. */
  lemma RelevantNeeds(ep: Episode)
    ensures Relevant(ep) != [] ==> Executed(ep) != [] && ep.cleanup.Some?
  {
    if Relevant(ep) != [] { assert Relevant(ep)[0] in Relevant(ep); }
  }

  lemma FirstOfEmpty(ep: Episode)
    ensures Relevant(ep) == [] ==> First(Relevant(ep), Success).None?
  {
  }

  lemma A1Endpoint(ep: Episode)
    requires ep.admission == Eligible && !Pending(ep.events)
    ensures MeasureA1(ep).value == Some(1) <==> First(Relevant(ep), Success).Some?
    ensures MeasureA1(ep).value == Some(1) ==> MeasureA1(ep).endpoint == IndexOf(First(Relevant(ep), Success))
  {
    A1SeesRelevant(ep);
    UnscorableIsPending(ep.events);
  }

  lemma UnscorableIsPending(events: seq<Event>)
    ensures Any(events, {"episode_unscorable"}) ==> Pending(events)
  {
  }

  lemma RecoveryEndpoint(ep: Episode, clocked: set<nat>)
    requires Ordered(ep) && ep.admission == Eligible && !Pending(ep.events)
    ensures TimeToRecovery(ep, clocked).recovery == IndexOf(First(Relevant(ep), Success))
  {
    SameExecuted(ep);
    RecoverySeesRelevant(ep);
    RelevantNeeds(ep);
    FirstOfEmpty(ep);
  }

  // ---- main results ----

  /** The resolution pass says 1 exactly when the recovery-time pass reports a recovery endpoint,
      with the same event index, whatever timestamps there are. */
  lemma ResolutionMatchesRecovery(text: string -> bool, events: seq<Event>, scenario: string, required: set<string>,
                                  clocked: set<nat>)
    requires Parse(text, events, scenario, required).Some?
    ensures var ep := Parse(text, events, scenario, required).value;
      var a1, ttr := MeasureA1(ep), TimeToRecovery(ep, clocked);
      && (a1.value == Some(1) <==> ttr.recovery.Some?)
      && (a1.value == Some(1) ==> a1.endpoint == ttr.recovery)
  {
    var ep := Parse(text, events, scenario, required).value;
    ParsedIsOrdered(text, events, scenario, required);
    if ep.admission == Eligible && !Pending(events) {
      A1Endpoint(ep);
      RecoveryEndpoint(ep, clocked);
    }
  }

  /** What the resolution pass's 1 means: the episode is admitted, nothing awaits adjudication, and
      some verifier observation after an executed action and before cleanup passed; the endpoint is
      the first such observation. */
  lemma ResolutionMeansRecovered(text: string -> bool, events: seq<Event>, scenario: string, required: set<string>)
    requires Parse(text, events, scenario, required).Some?
    ensures var ep := Parse(text, events, scenario, required).value; var a1 := MeasureA1(ep);
      && (a1.value == Some(1) <==>
            ep.admission == Eligible && !Pending(events) && exists o :: o in ep.post && Recovers(ep, o))
      && (a1.value == Some(1) ==>
            a1.endpoint.Some? && FirstRecovery(ep, a1.endpoint.value))
  {
    var ep := Parse(text, events, scenario, required).value;
    ParsedIsOrdered(text, events, scenario, required);
    if ep.admission == Eligible && !Pending(events) {
      A1Endpoint(ep);
      RelevantRecovers(ep);
    }
  }

  ghost predicate FirstRecovery(ep: Episode, index: nat) {
    && (exists o :: o in ep.post && Recovers(ep, o) && o.index == index)
    && (forall o :: o in ep.post && Recovers(ep, o) ==> index <= o.index)
  }

  lemma AfterAnyMeans(ep: Episode, index: nat)
    ensures AfterAny(Executed(ep), index) <==> exists a :: a in ep.actions && a.executed && a.index < index
  {
  }

  lemma RelevantRecovers(ep: Episode)
    requires ByIndex(ep.post)
    ensures var found := First(Relevant(ep), Success);
      && (found.Some? <==> exists o :: o in ep.post && Recovers(ep, o))
      && (found.Some? ==> FirstRecovery(ep, found.value.index))
  {
    FilterByIndex(ep.post, InScope(ep));
    FirstIsLeast(Relevant(ep), Success);
    forall o ensures o in Relevant(ep) && Success(o) <==> o in ep.post && Recovers(ep, o) { AfterAnyMeans(ep, o.index); }
  }

  ghost predicate Recovers(ep: Episode, o: Observation) {
    && Success(o) && ep.cleanup.Some? && o.index < ep.cleanup.value
    && exists a :: a in ep.actions && a.executed && a.index < o.index
  }

  ghost predicate InSight(ep: Episode, o: Observation) {
    && ep.cleanup.Some? && o.index < ep.cleanup.value
    && exists a :: a in ep.actions && a.executed && a.index < o.index
  }

  /** The last observation after an executed action and before cleanup says failed and unresolved. */
  ghost predicate EndsUnresolved(ep: Episode) {
    exists o :: o in ep.post && InSight(ep, o) && Unresolved(o)
      && forall o' :: o' in ep.post && InSight(ep, o') ==> o'.index <= o.index
  }

  lemma LastIsGreatest(os: seq<Observation>)
    requires ByIndex(os) && os != []
    ensures forall o :: o in os ==> o.index <= Last(os).index && (o.index == Last(os).index ==> o == Last(os))
  {
  }

  lemma RelevantEnds(ep: Episode)
    requires ByIndex(ep.post)
    ensures Relevant(ep) != [] && Unresolved(Last(Relevant(ep))) <==> EndsUnresolved(ep)
  {
    var os := Relevant(ep);
    FilterByIndex(ep.post, InScope(ep));
    forall o ensures o in os <==> o in ep.post && InSight(ep, o) { AfterAnyMeans(ep, o.index); }
    if os != [] {
      LastIsGreatest(os);
      assert Last(os) in os;
    }
  }

  lemma NoneExecuted(ep: Episode)
    ensures Executed(ep) == [] <==> forall a :: a in ep.actions ==> !a.executed
  {
    if Executed(ep) != [] { assert Executed(ep)[0] in Executed(ep); }
    if a :| a in ep.actions && a.executed { assert a in Executed(ep); }
  }

  /** What the resolution pass's 0 means: an admitted, settled episode without recovery in which the
      model failed, or no attempted action was executed, or the last verifier observation in sight
      says unresolved. In every other case without recovery the value is null. */
  lemma ResolutionMeansNegative(text: string -> bool, events: seq<Event>, scenario: string, required: set<string>)
    requires Parse(text, events, scenario, required).Some?
    ensures var ep := Parse(text, events, scenario, required).value;
      MeasureA1(ep).value == Some(0) <==>
        && ep.admission == Eligible && !Pending(events) && MeasureA1(ep).value != Some(1)
        && (|| Any(events, MODEL_FAILURE)
            || (ep.actions != [] && forall a :: a in ep.actions ==> !a.executed)
            || EndsUnresolved(ep))
  {
    var ep := Parse(text, events, scenario, required).value;
    ParsedIsOrdered(text, events, scenario, required);
    A1SeesRelevant(ep);
    UnscorableIsPending(ep.events);
    RelevantNeeds(ep);
    RelevantEnds(ep);
    NoneExecuted(ep);
  }

  /** Classification recomputes what is pending to the same answer, and calls an episode recovered
      exactly when the resolution pass says 1, and negative exactly when it says 0. */
  lemma OutcomeMatchesResolution(text: string -> bool, events: seq<Event>, scenario: string, required: set<string>)
    requires Parse(text, events, scenario, required).Some?
    ensures var ep := Parse(text, events, scenario, required).value;
      var a1 := MeasureA1(ep); var outcome := Classify(ep, a1);
      && (outcome == EligiblePending || outcome == NotEligiblePending <==> Pending(events))
      && (outcome == Recovered <==> a1.value == Some(1))
      && (outcome == Negative <==> a1.value == Some(0))
  {
    var ep := Parse(text, events, scenario, required).value;
    assert ep.events == events;
    ResolutionNeeds(ep);
    ClassifyAgrees(ep, MeasureA1(ep));
  }

  lemma ClassifyAgrees(ep: Episode, a1: A1)
    requires a1.value.Some? ==> ep.admission == Eligible && !Pending(ep.events)
    ensures var outcome := Classify(ep, a1);
      && (outcome == EligiblePending || outcome == NotEligiblePending <==> Pending(ep.events))
      && (outcome == Recovered <==> a1.value == Some(1))
      && (outcome == Negative <==> a1.value == Some(0))
  {
    PendingRecomputed(ep.events);
  }

  lemma ResolutionNeeds(ep: Episode)
    ensures MeasureA1(ep).value.Some? ==> ep.admission == Eligible && !Pending(ep.events)
  {
  }

  lemma PendingRecomputed(events: seq<Event>)
    ensures Pending(events) <==>
      Any(events, INFRASTRUCTURE + {"episode_unscorable"})
      || (Any(events, {"episode_failed"}) && !Any(events, MODEL_FAILURE))
  {
  }

  // ---- the score ----

  /** A parsed verification that passed has no failed required check. */
  ghost predicate SoundObservation(o: Observation, required: set<string>) {
    && (o.status == Some("passed") ==> o.envResolved == Some(true) && !Failing(o.checks, required))
    && (o.status == Some("failed") ==> o.envResolved == Some(false))
  }

  lemma ParsedIsSound(text: string -> bool, index: nat, e: Event, scenario: string, required: set<string>)
    ensures var o := ParseVerification(text, index, e, scenario, required);
      o.Some? ==> SoundObservation(o.value, required)
  {
  }

  lemma {:induction false} PostAreSound(text: string -> bool, events: seq<Event>, scenario: string, required: set<string>)
    ensures var post := PostActions(text, events, scenario, required);
      post.Some? ==> forall o :: o in post.value ==> SoundObservation(o, required)
  {
    if events != [] {
      PostAreSound(text, events[..|events| - 1], scenario, required);
      ParsedIsSound(text, |events| - 1, Last(events), scenario, required);
    }
  }

  lemma ScoredIsPost(ep: Episode)
    requires ep.actions != []
    ensures ScoredObservation(ep).Some? ==> ScoredObservation(ep).value in ep.post
  {
  }

  lemma PassedIsPart(checks: Checks, required: set<string>)
    ensures |Passed(checks, required)| <= |required|
  {
    var passed := Passed(checks, required);
    assert passed <= required;
    assert |required| == |passed| + |required - passed|;
  }

  lemma CoverageRange(checks: Checks, required: set<string>)
    requires required != {}
    ensures |required| > 0 && 0.0 <= |Passed(checks, required)| as real / |required| as real <= 1.0
    ensures Passed(checks, required) == required ==> |Passed(checks, required)| as real / |required| as real == 1.0
  {
    PassedIsPart(checks, required);
    var part, all := |Passed(checks, required)|, |required|;
    assert all > 0;
    Quotient(part, all);
  }

  lemma Quotient(part: nat, all: nat)
    requires part <= all && all > 0
    ensures 0.0 <= part as real / all as real <= 1.0
  {
  }

  /** Without a missing or failed required check, every required check passed. */
  lemma AllPassed(checks: Checks, required: set<string>)
    requires !Missing(Some(checks), required) && !Failing(Some(checks), required)
    ensures Passed(checks, required) == required
  {
    forall id | id in required ensures id in Passed(checks, required) {
      assert id in checks && checks[id].Some?;
      var passed := checks[id].value;
      assert checks[id] == Some(passed);
      assert checks[id] == Some(false) || passed;
    }
  }

  /** What a given score is made of. */
  lemma ScoreParts(ep: Episode, required: set<string>)
    requires required != {} && ScoreEpisode(ep, required).value.Some?
    ensures ep.actions != [] && ScoredObservation(ep).Some?
    ensures var o := ScoredObservation(ep).value; var score := ScoreEpisode(ep, required);
      && !Missing(o.checks, required) && o.checks.Some? && |required| > 0
      && score.verified == Some(Success(o)) && (o.status == Some("passed") || o.status == Some("failed"))
      && score.value.value
         == 0.75 * Points(Success(o)) + 0.25 * (|Passed(o.checks.value, required)| as real / |required| as real)
            - 0.25 * Points(Claimed(ep.actions) && !Success(o))
  {
  }

  /** The shape of the score: 1 exactly when recovery is verified, and otherwise within a quarter
      of zero; and verified recovery is what the scored observation itself says. */
  lemma ScoreShape(text: string -> bool, events: seq<Event>, scenario: string, required: set<string>)
    requires required != {} && Parse(text, events, scenario, required).Some?
    ensures var ep := Parse(text, events, scenario, required).value; var score := ScoreEpisode(ep, required);
      score.value.Some? ==>
        && ep.actions != [] && ScoredObservation(ep).Some? && score.verified == Some(Success(ScoredObservation(ep).value))
        && (score.verified == Some(true) ==> score.value == Some(1.0))
        && (score.verified == Some(false) ==> -0.25 <= score.value.value <= 0.25)
  {
    var ep := Parse(text, events, scenario, required).value;
    if ScoreEpisode(ep, required).value.Some? {
      ScoreParts(ep, required);
      ScoredIsPost(ep);
      PostAreSound(text, events, scenario, required);
      ScoreFromParts(ScoredObservation(ep).value, required);
    }
  }

  lemma ScoreFromParts(o: Observation, required: set<string>)
    requires required != {} && SoundObservation(o, required) && !Missing(o.checks, required) && o.checks.Some?
    ensures |required| > 0
    ensures var coverage := |Passed(o.checks.value, required)| as real / |required| as real;
      0.0 <= coverage <= 1.0 && (Success(o) ==> coverage == 1.0)
  {
    CoverageRange(o.checks.value, required);
    if Success(o) { AllPassed(o.checks.value, required); }
  }
}
