/** Endpoints, reasons and classes of a measurement (bench/candidate_measurement.py:752-1108), told from
    the observations in sight: those after an executed action and before cleanup. */
module MeasurementReasons {
  import opened Basics
  import opened Measurement
  import opened MeasurementAgreement

  // ---- the observations in sight ----

  ghost predicate SomeInSight(ep: Episode) {
    exists o :: o in ep.post && InSight(ep, o)
  }

  ghost predicate UnresolvedInSight(ep: Episode, o: Observation) {
    o in ep.post && InSight(ep, o) && o.status == Some("failed") && o.envResolved == Some(false)
  }

  ghost predicate FirstUnresolved(ep: Episode, index: nat) {
    && (exists o :: UnresolvedInSight(ep, o) && o.index == index)
    && (forall o :: UnresolvedInSight(ep, o) ==> index <= o.index)
  }

  ghost predicate LastUnresolved(ep: Episode, index: nat) {
    && (exists o :: UnresolvedInSight(ep, o) && o.index == index)
    && (forall o :: UnresolvedInSight(ep, o) ==> o.index <= index)
  }

  ghost predicate SomeRecovers(ep: Episode) {
    exists o :: o in ep.post && Recovers(ep, o)
  }

  predicate SomeExecuted(ep: Episode) {
    exists a :: a in ep.actions && a.executed
  }

  predicate SomeAfterAction(ep: Episode) {
    exists o, a :: o in ep.post && a in ep.actions && a.executed && a.index < o.index
  }

  lemma RelevantIsInSight(ep: Episode)
    ensures forall o :: o in Relevant(ep) <==> o in ep.post && InSight(ep, o)
    ensures Relevant(ep) != [] <==> SomeInSight(ep)
  {
    forall o ensures o in Relevant(ep) <==> o in ep.post && InSight(ep, o) { AfterAnyMeans(ep, o.index); }
    if Relevant(ep) != [] { assert Relevant(ep)[0] in Relevant(ep); }
  }

  lemma FirstUnresolvedOne(ep: Episode)
    requires ByIndex(ep.post)
    ensures forall i: nat :: IndexOf(First(Relevant(ep), Unresolved)) == Some(i) <==> FirstUnresolved(ep, i)
  {
    RelevantIsInSight(ep);
    FilterByIndex(ep.post, InScope(ep));
    FirstIsLeast(Relevant(ep), Unresolved);
    forall o ensures o in Relevant(ep) && Unresolved(o) <==> UnresolvedInSight(ep, o) {}
  }

  lemma LastUnresolvedOne(ep: Episode)
    requires ByIndex(ep.post)
    ensures var all := Filter(Relevant(ep), Unresolved);
      forall i: nat :: all != [] && Last(all).index == i <==> LastUnresolved(ep, i)
  {
    RelevantIsInSight(ep);
    FilterByIndex(ep.post, InScope(ep));
    FilterByIndex(Relevant(ep), Unresolved);
    var all := Filter(Relevant(ep), Unresolved);
    forall o ensures o in all <==> UnresolvedInSight(ep, o) {}
    if all != [] {
      LastIsGreatest(all);
      assert Last(all) in all;
    }
  }

  lemma SomeExecutedIff(ep: Episode)
    ensures SomeExecuted(ep) <==> Executed(ep) != []
    ensures SomeAfterAction(ep) <==> Filter(ep.post, ToAfter(Executed(ep))) != []
  {
    NoneExecuted(ep);
    var after := Filter(ep.post, ToAfter(Executed(ep)));
    forall o ensures o in after <==> o in ep.post && exists a :: a in ep.actions && a.executed && a.index < o.index {
      AfterAnyMeans(ep, o.index);
    }
    if after != [] { assert after[0] in after; }
  }

  // ---- the resolution pass ----

  /** Value and reason of an admitted and settled episode without recovery. */
  ghost predicate UnrecoveredTold(ep: Episode, value: Option<int>, reason: string) {
    if Any(ep.events, MODEL_FAILURE) then value == Some(0) && reason == "eligible_model_failure"
    else if ep.actions == [] then value == None && reason == "action_execution_observation_missing"
    else if !SomeExecuted(ep) then value == Some(0) && reason == "eligible_no_action_execution"
    else if SomeAfterAction(ep) && ep.cleanup.None? then value == None && reason == "cleanup_boundary_observation_missing"
    else if EndsUnresolved(ep) then value == Some(0) && reason == "conclusive_verifier_no_recovery_before_cleanup"
    else value == None && reason == "post_action_verifier_missing_or_inconclusive"
  }

  /** The same with the endpoint, which is the first unresolved observation in sight. */
  ghost predicate SettledTold(ep: Episode, a1: A1) {
    if SomeRecovers(ep) then
      && a1.value == Some(1) && a1.reason == "first_conclusive_post_action_success_before_cleanup"
      && a1.endpoint.Some? && FirstRecovery(ep, a1.endpoint.value)
    else UnrecoveredTold(ep, a1.value, a1.reason) && forall i: nat :: a1.endpoint == Some(i) <==> FirstUnresolved(ep, i)
  }

  /** Value, reason and endpoint of a resolution. */
  ghost predicate ResolutionTold(ep: Episode, a1: A1) {
    if ep.admission != Eligible then a1 == A1(None, "episode_admission_not_eligible", None)
    else if Any(ep.events, {"episode_unscorable"}) then a1 == A1(None, "episode_unscorable_pending_independent_adjudication", None)
    else if Pending(ep.events) then a1 == A1(None, "pending_independent_adjudication", None)
    else SettledTold(ep, a1)
  }

  /** The resolution pass, on the observations in sight. */
  function Resolve(ep: Episode, seen: seq<Observation>): A1 {
    var first := IndexOf(First(seen, Unresolved));
    if First(seen, Success).Some? then
      A1(Some(1), "first_conclusive_post_action_success_before_cleanup", IndexOf(First(seen, Success)))
    else if Any(ep.events, MODEL_FAILURE) then A1(Some(0), "eligible_model_failure", first)
    else if ep.actions != [] && Executed(ep) == [] then A1(Some(0), "eligible_no_action_execution", first)
    else if ep.actions == [] then A1(None, "action_execution_observation_missing", None)
    else if Filter(ep.post, ToAfter(Executed(ep))) == [] then A1(None, "post_action_verifier_missing_or_inconclusive", None)
    else if ep.cleanup.None? then A1(None, "cleanup_boundary_observation_missing", first)
    else if seen == [] then A1(None, "post_action_verifier_missing_or_inconclusive", None)
    else if Unresolved(Last(seen)) then A1(Some(0), "conclusive_verifier_no_recovery_before_cleanup", first)
    else A1(None, "post_action_verifier_missing_or_inconclusive", first)
  }

  lemma MeasureIsResolve(ep: Episode)
    requires ep.admission == Eligible && !Pending(ep.events)
    ensures MeasureA1(ep) == Resolve(ep, Relevant(ep))
  {
    A1SeesRelevant(ep);
    UnscorableIsPending(ep.events);
  }

  lemma ResolveValue(ep: Episode)
    requires Ordered(ep) && First(Relevant(ep), Success).None?
    ensures var a1 := Resolve(ep, Relevant(ep)); UnrecoveredTold(ep, a1.value, a1.reason)
  {
    RelevantEnds(ep);
    SomeExecutedIff(ep);
    NothingInSight(ep);
  }

  lemma ResolveEndpoint(ep: Episode)
    requires First(Relevant(ep), Success).None?
    ensures Resolve(ep, Relevant(ep)).endpoint == IndexOf(First(Relevant(ep), Unresolved))
  {
    NothingInSight(ep);
  }

  lemma ResolveTold(ep: Episode)
    requires Ordered(ep)
    ensures SettledTold(ep, Resolve(ep, Relevant(ep)))
  {
    FoundRecovery(ep);
    if First(Relevant(ep), Success).None? {
      ResolveValue(ep);
      ResolveEndpoint(ep);
      FirstUnresolvedOne(ep);
    }
  }

  lemma ResolutionOf(ep: Episode)
    requires Ordered(ep)
    ensures ResolutionTold(ep, MeasureA1(ep))
  {
    if ep.admission == Eligible && !Pending(ep.events) {
      UnscorableIsPending(ep.events);
      MeasureIsResolve(ep);
      ResolveTold(ep);
    }
  }

  lemma NothingInSight(ep: Episode)
    ensures Filter(ep.post, ToAfter(Executed(ep))) == [] || ep.cleanup.None? || ep.actions == [] ==> Relevant(ep) == []
    ensures Relevant(ep) == [] ==> First(Relevant(ep), Unresolved).None?
  {
    SomeExecutedIff(ep);
    RelevantIsInSight(ep);
    if o :| o in Relevant(ep) { assert SomeAfterAction(ep); }
    if Relevant(ep) != [] { assert Relevant(ep)[0] in Relevant(ep); }
  }

  // ---- the recovery-time pass ----

  /** The delivered alert that time is counted from. */
  ghost predicate FirstAlert(ep: Episode, i: nat) {
    && i < |ep.events| && IsDelivery(ep.events[i])
    && forall j :: 0 <= j < i ==> !IsDelivery(ep.events[j])
  }

  /** The reason, by what is missing first. */
  function ReasonBy(clocked: set<nat>, alert: nat, executed: bool, cleanup: bool, seen: bool,
                    recovery: Option<nat>, coverage: Option<nat>): string {
    if alert !in clocked then "delivered alert lacks clock"
    else if !executed then "no action was executed after delivered alert"
    else if !cleanup then "cleanup boundary observation is missing"
    else if !seen then "objective post-action observation missing before cleanup"
    else if recovery.Some? then
      (if recovery.value in clocked then "clock_comparability_not_verified" else "first conclusive success lacks clock")
    else if coverage.Some? then
      (if coverage.value in clocked then "clock_comparability_not_verified" else "coverage endpoint lacks clock")
    else "no conclusive objective post-action verifier before cleanup"
  }

  ghost predicate TimeReasonTold(ep: Episode, clocked: set<nat>, alert: nat, t: Recovery) {
    t.reason == ReasonBy(clocked, alert, SomeExecuted(ep), ep.cleanup.Some?, SomeInSight(ep), t.recovery, t.coverage)
  }

  /** The recovery endpoint is the first recovery in sight, the coverage endpoint the last unresolved
      observation in sight when there is none; and the reason. */
  ghost predicate TimeToldFrom(ep: Episode, clocked: set<nat>, alert: nat, t: Recovery) {
    && (forall i: nat :: t.recovery == Some(i) <==> FirstRecovery(ep, i))
    && (forall i: nat :: t.coverage == Some(i) <==> t.recovery.None? && LastUnresolved(ep, i))
    && TimeReasonTold(ep, clocked, alert, t)
  }

  ghost predicate TimeTold(ep: Episode, clocked: set<nat>, t: Recovery) {
    if ep.admission != Eligible then t == Recovery("episode admission is not established", None, None)
    else if Pending(ep.events) then t == Recovery("pending_independent_adjudication", None, None)
    else exists alert :: FirstAlert(ep, alert) && TimeToldFrom(ep, clocked, alert, t)
  }

  lemma TimeOf(ep: Episode, clocked: set<nat>)
    requires Ordered(ep)
    ensures TimeTold(ep, clocked, TimeToRecovery(ep, clocked))
  {
    if ep.admission == Eligible && !Pending(ep.events) {
      FirstDeliveryIsFirst(ep.events);
      var alert := FirstDelivery(ep.events).value;
      assert FirstAlert(ep, alert);
      TimeOfSettled(ep, clocked, alert);
    }
  }

  function AlertClock(clocked: set<nat>, alert: nat, reason: string): string {
    ClockReason(clocked, alert, "delivered alert lacks clock", reason)
  }

  /** The recovery-time pass, on the observations in sight. */
  function TimeFrom(ep: Episode, clocked: set<nat>, alert: nat, seen: seq<Observation>): Recovery {
    var success, unresolved := First(seen, Success), Filter(seen, Unresolved);
    if Executed(ep) == [] then Recovery(AlertClock(clocked, alert, "no action was executed after delivered alert"), None, None)
    else if ep.cleanup.None? then Recovery(AlertClock(clocked, alert, "cleanup boundary observation is missing"), None, None)
    else if seen == [] then Recovery(AlertClock(clocked, alert, "objective post-action observation missing before cleanup"), None, None)
    else if success.Some? then
      Recovery(AlertClock(clocked, alert, ClockReason(clocked, success.value.index, "first conclusive success lacks clock",
                                 "clock_comparability_not_verified")), IndexOf(success), None)
    else if unresolved == [] then Recovery(AlertClock(clocked, alert, "no conclusive objective post-action verifier before cleanup"), None, None)
    else
      Recovery(AlertClock(clocked, alert, ClockReason(clocked, Last(unresolved).index, "coverage endpoint lacks clock",
                                 "clock_comparability_not_verified")), None, Some(Last(unresolved).index))
  }

  lemma TimeIsTimeFrom(ep: Episode, clocked: set<nat>, alert: nat)
    requires Ordered(ep) && ep.admission == Eligible && !Pending(ep.events) && FirstDelivery(ep.events) == Some(alert)
    ensures TimeToRecovery(ep, clocked) == TimeFrom(ep, clocked, alert, Relevant(ep))
  {
    SameExecuted(ep);
    RecoverySeesRelevant(ep);
  }

  lemma TimeEndpoints(ep: Episode, clocked: set<nat>, alert: nat)
    requires Ordered(ep)
    ensures var t := TimeFrom(ep, clocked, alert, Relevant(ep)); var unresolved := Filter(Relevant(ep), Unresolved);
      && t.recovery == IndexOf(First(Relevant(ep), Success))
      && t.coverage == if t.recovery.None? && unresolved != [] then Some(Last(unresolved).index) else None
  {
    RelevantNeeds(ep);
    FirstOfEmpty(ep);
    assert Relevant(ep) == [] ==> Filter(Relevant(ep), Unresolved) == [];
  }

  lemma TimeOfSettled(ep: Episode, clocked: set<nat>, alert: nat)
    requires Ordered(ep) && ep.admission == Eligible && !Pending(ep.events) && FirstDelivery(ep.events) == Some(alert)
    ensures TimeToldFrom(ep, clocked, alert, TimeToRecovery(ep, clocked))
  {
    TimeIsTimeFrom(ep, clocked, alert);
    TimeEndpoints(ep, clocked, alert);
    FoundRecovery(ep);
    LastUnresolvedOne(ep);
    TimeReasons(ep, clocked, alert);
  }

  lemma TimeReasons(ep: Episode, clocked: set<nat>, alert: nat)
    ensures var t := TimeFrom(ep, clocked, alert, Relevant(ep)); TimeReasonTold(ep, clocked, alert, t)
  {
    SomeExecutedIff(ep);
    RelevantIsInSight(ep);
    TimeFromReason(ep, clocked, alert, Relevant(ep));
  }

  lemma TimeFromReason(ep: Episode, clocked: set<nat>, alert: nat, seen: seq<Observation>)
    ensures var t := TimeFrom(ep, clocked, alert, seen);
      t.reason == ReasonBy(clocked, alert, Executed(ep) != [], ep.cleanup.Some?, seen != [], t.recovery, t.coverage)
  {
  }

  lemma FoundRecovery(ep: Episode)
    requires ByIndex(ep.post)
    ensures forall i: nat :: IndexOf(First(Relevant(ep), Success)) == Some(i) <==> FirstRecovery(ep, i)
    ensures First(Relevant(ep), Success).Some? <==> SomeRecovers(ep)
  {
    RelevantRecovers(ep);
  }

  // ---- the classification ----

  /** The class of an episode, from its admission and what was seen. */
  ghost predicate ClassTold(ep: Episode, outcome: Outcome) {
    outcome == (
      if Pending(ep.events) then (if ep.admission == Eligible then EligiblePending else NotEligiblePending)
      else if ep.admission != Eligible then NotAssessed
      else if SomeRecovers(ep) then Recovered
      else if Any(ep.events, MODEL_FAILURE) || (ep.actions != [] && !SomeExecuted(ep)) || EndsUnresolved(ep) then Negative
      else if ep.actions == [] then OutcomeUndetermined
      else Unscorable)
  }

  /** No other reason is the one for missing actions. */
  lemma ReasonsDiffer()
    ensures "cleanup_boundary_observation_missing" != "action_execution_observation_missing"
    ensures "post_action_verifier_missing_or_inconclusive" != "action_execution_observation_missing"
  {
  }

  lemma ClassOfSettled(ep: Episode, a1: A1)
    requires ep.admission == Eligible && !Pending(ep.events) && SettledTold(ep, a1)
    ensures ClassTold(ep, Classify(ep, a1))
  {
    PendingRecomputed(ep.events);
    ReasonsDiffer();
    NothingEnds(ep);
  }

  lemma NothingEnds(ep: Episode)
    ensures ep.actions == [] || !SomeExecuted(ep) ==> !EndsUnresolved(ep)
    ensures EndsUnresolved(ep) ==> ep.cleanup.Some?
  {
  }

  lemma ClassOf(ep: Episode)
    requires Ordered(ep)
    ensures ClassTold(ep, Classify(ep, MeasureA1(ep)))
  {
    if ep.admission == Eligible && !Pending(ep.events) {
      ResolutionOf(ep);
      UnscorableIsPending(ep.events);
      ClassOfSettled(ep, MeasureA1(ep));
    } else {
      PendingRecomputed(ep.events);
    }
  }

  // ---- main result ----

  /** For every accepted episode, its resolution, recovery time and class are so. */
  lemma MeasurementTold(text: string -> bool, events: seq<Event>, scenario: string, required: set<string>, clocked: set<nat>)
    requires Parse(text, events, scenario, required).Some?
    ensures var ep := Parse(text, events, scenario, required).value;
      && ResolutionTold(ep, MeasureA1(ep)) && TimeTold(ep, clocked, TimeToRecovery(ep, clocked))
      && ClassTold(ep, Classify(ep, MeasureA1(ep)))
  {
    ParsedIsOrdered(text, events, scenario, required);
    var ep := Parse(text, events, scenario, required).value;
    ResolutionOf(ep);
    TimeOf(ep, clocked);
    ClassOf(ep);
  }
}
