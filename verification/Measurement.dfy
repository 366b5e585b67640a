/** The per-episode measurement of bench/candidate_measurement.py: several passes over one list of
    events. An event is its JSON object; None stands for a raised ValueError. Timestamps enter only
    as the set of event indices that have one. */
module Measurement {
  import opened Basics
  import opened Evidence

  const STATUSES: set<string> := {"passed", "failed", "inconclusive", "error"}
  const INFRASTRUCTURE: set<string> := {"episode_interrupted", "infrastructure_failure", "telemetry_loss"}
  const MODEL_FAILURE: set<string> := {"model_failure", "step_failure"}
  const ORDERED: set<string> := {
    "action_result", "diagnosis_output", "episode_failed", "episode_unscorable", "model_failure", "policy_output",
    "step_failure"
  }

  type Event = Fields

  function Name(e: Event): string {
    var n := Get(e, "event", Null);
    if n.String? then n.text else ""
  }

  /** `_event_boolean`: absent or null, a boolean, or an error. */
  function Boolean(v: Json): Option<Option<bool>> {
    match v
    case Null => Some(None)
    case Bool(b) => Some(Some(b))
    case _ => None
  }

  function Field(e: Event, name: string): Option<Option<bool>> {
    Boolean(Get(e, name, Null))
  }

  // ---- verifications ----

  type Checks = map<string, Option<bool>>

  datatype Observation = Observation(index: nat, status: Option<string>, envResolved: Option<bool>, checks: Option<Checks>)

  /** One check of a verification: its id and result, or an error. `text` says what an id may be. */
  function ParseCheck(text: string -> bool, required: set<string>, check: Json): Option<(string, Option<bool>)> {
    if !check.Object? then None
    else
      var id := Get(check.members, "check_id", Null);
      var passed := Boolean(Get(check.members, "passed", Null));
      var needed := Boolean(Get(check.members, "required", Null));
      if !id.String? || !text(id.text) || passed.None? || needed.None? then None
      else if id.text in required && needed.value == Some(false) then None
      else Some((id.text, passed.value))
  }

  function ParseChecks(text: string -> bool, required: set<string>, checks: seq<Json>): Option<Checks> {
    if checks == [] then Some(map[])
    else
      var before := ParseChecks(text, required, checks[..|checks| - 1]);
      var check := ParseCheck(text, required, Last(checks));
      if before.None? || check.None? || check.value.0 in before.value then None
      else Some(before.value[check.value.0 := check.value.1])
  }

  /** The loop over the checks of a verification, which refuses a repeated id. */
  method CollectChecks(text: string -> bool, required: set<string>, raw: seq<Json>) returns (r: Option<Checks>)
    ensures r == ParseChecks(text, required, raw)
  {
    var checks: Checks := map[];
    var i := 0;
    while i < |raw|
      invariant 0 <= i <= |raw| && ParseChecks(text, required, raw[..i]) == Some(checks)
    {
      var check := ParseCheck(text, required, raw[i]);
      assert raw[..i + 1][..i] == raw[..i];
      if check.None? || check.value.0 in checks {
        ParseChecksFail(text, required, raw, i + 1);
        return None;
      }
      checks := checks[check.value.0 := check.value.1];
      i := i + 1;
    }
    assert raw[..i] == raw;
    r := Some(checks);
  }

  lemma {:induction false} ParseChecksFail(text: string -> bool, required: set<string>, raw: seq<Json>, i: nat)
    requires i <= |raw| && ParseChecks(text, required, raw[..i]).None?
    ensures ParseChecks(text, required, raw).None?
  {
    if i == |raw| {
      assert raw[..i] == raw;
    } else {
      assert raw[..|raw| - 1][..i] == raw[..i];
      ParseChecksFail(text, required, raw[..|raw| - 1], i);
    }
  }

  predicate Failing(checks: Option<Checks>, required: set<string>) {
    checks.Some? && exists id :: id in required && id in checks.value && checks.value[id] == Some(false)
  }

  function ParseVerification(text: string -> bool, index: nat, e: Event, scenario: string, required: set<string>)
    : Option<Observation>
  {
    var v := Get(e, "verification", Null);
    if v.Null? then Some(Observation(index, None, None, None))
    else if !v.Object? then None
    else
      var owner := Get(v.members, "scenario_id", Null);
      var status := Get(v.members, "verification_status", Null);
      var env := Boolean(Get(v.members, "env_resolved", Null));
      var raw := Get(v.members, "checks", Null);
      if (!owner.Null? && owner != String(scenario)) || !(status.Null? || (status.String? && status.text in STATUSES))
         || env.None? then None
      else if status.String? && Conflicts(status.text, env.value) then None
      else
        var checks := if raw.List? then ParseChecks(text, required, raw.items) else None;
        if !(raw.Null? || raw.List?) || (raw.List? && checks.None?) then None
        else if status == String("passed") && Failing(checks, required) then None
        else Some(Observation(index, if status.String? then Some(status.text) else None, env.value, checks))
  }

  /** Status and resolution contradict each other. */
  predicate Conflicts(status: string, env: Option<bool>) {
    || (status in {"passed", "failed"} && env.None?)
    || (status == "passed" && env == Some(false))
    || (status == "failed" && env == Some(true))
    || (status in {"inconclusive", "error"} && env == Some(true))
  }

  function PostActions(text: string -> bool, events: seq<Event>, scenario: string, required: set<string>): Option<seq<Observation>> {
    if events == [] then Some([])
    else
      var before := PostActions(text, events[..|events| - 1], scenario, required);
      if before.None? then None
      else if Name(Last(events)) != "post_action_verification" then before
      else match ParseVerification(text, |events| - 1, Last(events), scenario, required)
        case None => None
        case Some(o) => Some(before.value + [o])
  }

  /** The indices of the events with a name, in order. */
  function Indices(events: seq<Event>, name: string): (r: seq<nat>)
    ensures forall i :: i in r <==> 0 <= i < |events| && Name(events[i]) == name
    ensures forall j, k :: 0 <= j < k < |r| ==> r[j] < r[k]
  {
    if events == [] then []
    else
      var before := Indices(events[..|events| - 1], name);
      assert forall j :: 0 <= j < |before| ==> before[j] in before;
      if Name(Last(events)) == name then before + [|events| - 1] else before
  }

  // ---- actions ----

  datatype Action = Action(index: nat, executed: bool, claimed: Option<bool>)

  function ReadActions(events: seq<Event>): Option<seq<Action>> {
    if events == [] then Some([])
    else
      var before := ReadActions(events[..|events| - 1]);
      var e := Last(events);
      if before.None? then None
      else if Name(e) != "action_result" then before
      else
        var executed := Field(e, "executed");
        var claimed := Field(e, "agent_claimed_resolved");
        if executed.None? || executed.value.None? || claimed.None? then None
        else Some(before.value + [Action(|events| - 1, executed.value.value, claimed.value)])
  }

  /** `_read_actions`. */
  method CollectActions(events: seq<Event>) returns (r: Option<seq<Action>>)
    ensures r == ReadActions(events)
  {
    var actions: seq<Action> := [];
    var i := 0;
    while i < |events|
      invariant 0 <= i <= |events| && ReadActions(events[..i]) == Some(actions)
    {
      assert events[..i + 1][..i] == events[..i];
      if Name(events[i]) == "action_result" {
        var executed := Field(events[i], "executed");
        var claimed := Field(events[i], "agent_claimed_resolved");
        if executed.None? || executed.value.None? || claimed.None? {
          ReadActionsFail(events, i + 1);
          return None;
        }
        actions := actions + [Action(i, executed.value.value, claimed.value)];
      }
      i := i + 1;
    }
    assert events[..i] == events;
    r := Some(actions);
  }

  lemma {:induction false} ReadActionsFail(events: seq<Event>, i: nat)
    requires i <= |events| && ReadActions(events[..i]).None?
    ensures ReadActions(events).None?
  {
    if i == |events| {
      assert events[..i] == events;
    } else {
      assert events[..|events| - 1][..i] == events[..i];
      ReadActionsFail(events[..|events| - 1], i);
    }
  }

  // ---- admission ----

  datatype Admission = Eligible | Ineligible | Undetermined

  /** The values of a boolean field over the events with a name; None when one is no boolean. */
  function FieldValues(events: seq<Event>, name: string, field: string): Option<seq<Option<bool>>> {
    if events == [] then Some([])
    else
      var before := FieldValues(events[..|events| - 1], name, field);
      if before.None? then None
      else if Name(Last(events)) != name then before
      else match Field(Last(events), field)
        case None => None
        case Some(v) => Some(before.value + [v])
  }

  /** The one known value; None when two contradict each other. */
  function Consistent(values: seq<Option<bool>>): Option<Option<bool>> {
    if Some(true) in values && Some(false) in values then None
    else Some(if Some(true) in values then Some(true) else if Some(false) in values then Some(false) else None)
  }

  function Delivered(values: seq<Option<bool>>): Option<bool> {
    if Some(true) in values then Some(true)
    else if values != [] && (forall v :: v in values ==> v == Some(false)) then Some(false)
    else None
  }

  predicate Success(o: Observation) {
    o.status == Some("passed") && o.envResolved == Some(true)
  }

  predicate Unresolved(o: Observation) {
    o.status == Some("failed") && o.envResolved == Some(false)
  }

  function Assess(authorized: Option<bool>, observed: Option<bool>, delivered: Option<bool>, pre: Option<Observation>): Admission {
    if authorized == Some(false) || observed == Some(false) || delivered == Some(false) || (pre.Some? && Success(pre.value))
    then Ineligible
    else if authorized.None? || observed.None? || delivered.None? || !(pre.Some? && Unresolved(pre.value))
    then Undetermined
    else Eligible
  }

  predicate OrderOk(events: seq<Event>, pre: nat) {
    && (forall i :: 0 <= i < |events| && Name(events[i]) in ORDERED ==> i >= pre)
    && (exists i :: 0 <= i < |events| && i < pre && IsDelivery(events[i]))
  }

  predicate IsDelivery(e: Event) {
    Name(e) == "alert_delivery" && Get(e, "delivered", Null) == Bool(true)
  }

  // ---- an episode as its passes see it ----

  datatype Episode = Episode(
    events: seq<Event>, admission: Admission, pre: Option<Observation>, post: seq<Observation>,
    cleanup: Option<nat>, actions: seq<Action>)

  function Parse(text: string -> bool, events: seq<Event>, scenario: string, required: set<string>): Option<Episode> {
    var pres := Indices(events, "pre_action_verification");
    if |pres| > 1 then None
    else
      var pre := if pres == [] then Some(None) else
        assert pres[0] in pres;
        match ParseVerification(text, pres[0], events[pres[0]], scenario, required)
        case None => None
        case Some(o) => Some(Some(o));
      var post := PostActions(text, events, scenario, required);
      var authorized := FieldValues(events, "fault_authorization", "authorized");
      var observed := FieldValues(events, "fault_observation", "observed");
      var delivered := FieldValues(events, "alert_delivery", "delivered");
      if pre.None? || post.None? || authorized.None? || observed.None? || delivered.None?
         || Consistent(authorized.value).None? || Consistent(observed.value).None? then None
      else
        var admission := Assess(Consistent(authorized.value).value, Consistent(observed.value).value,
                                Delivered(delivered.value), pre.value);
        var cleanups := Indices(events, "cleanup_started");
        var actions := ReadActions(events);
        if (admission == Eligible && !(pre.value.Some? && OrderOk(events, pre.value.value.index))) || actions.None? then None
        else Some(Episode(events, admission, pre.value, post.value,
                          if cleanups == [] then None else Some(cleanups[0]), actions.value))
  }

  // ---- failures ----

  predicate Any(events: seq<Event>, names: set<string>) {
    exists i :: 0 <= i < |events| && Name(events[i]) in names
  }

  /** A failure event that needs adjudication. */
  predicate Pending(events: seq<Event>) {
    exists i :: 0 <= i < |events| && PendingEvent(events, Name(events[i]))
  }

  predicate PendingEvent(events: seq<Event>, name: string) {
    name in INFRASTRUCTURE || name == "episode_unscorable" || (name == "episode_failed" && !Any(events, MODEL_FAILURE))
  }

  // ---- the passes ----

  function Filter<T(!new)>(xs: seq<T>, keep: T -> bool): (r: seq<T>)
    ensures forall x :: x in r <==> x in xs && keep(x)
    ensures |r| <= |xs|
  {
    if xs == [] then []
    else
      var before := Filter(xs[..|xs| - 1], keep);
      if keep(Last(xs)) then before + [Last(xs)] else before
  }

  function First<T(!new)>(xs: seq<T>, keep: T -> bool): Option<T> {
    var found := Filter(xs, keep);
    if found == [] then None else Some(found[0])
  }

  function Executed(ep: Episode): seq<Action> {
    Filter(ep.actions, (a: Action) => a.executed)
  }

  predicate AfterAny(actions: seq<Action>, index: nat) {
    exists i :: 0 <= i < |actions| && actions[i].index < index
  }

  predicate Before(cleanup: Option<nat>, index: nat) {
    cleanup.Some? && index < cleanup.value
  }

  function ToBefore(cleanup: Option<nat>): Observation -> bool {
    (o: Observation) => Before(cleanup, o.index)
  }

  function ToAfter(executed: seq<Action>): Observation -> bool {
    (o: Observation) => AfterAny(executed, o.index)
  }

  datatype A1 = A1(value: Option<int>, reason: string, endpoint: Option<nat>)

  function IndexOf(o: Option<Observation>): Option<nat> {
    if o.Some? then Some(o.value.index) else None
  }

  function MeasureA1(ep: Episode): A1 {
    if ep.admission != Eligible then A1(None, "episode_admission_not_eligible", None)
    else if Any(ep.events, {"episode_unscorable"}) then A1(None, "episode_unscorable_pending_independent_adjudication", None)
    else if Pending(ep.events) then A1(None, "pending_independent_adjudication", None)
    else
      var executed := Executed(ep);
      var post := Filter(ep.post, ToAfter(executed));
      var before := Filter(post, ToBefore(ep.cleanup));
      var success := First(before, Success);
      var endpoint := IndexOf(First(before, Unresolved));
      if success.Some? then A1(Some(1), "first_conclusive_post_action_success_before_cleanup", IndexOf(success))
      else if Any(ep.events, MODEL_FAILURE) then A1(Some(0), "eligible_model_failure", endpoint)
      else if ep.actions != [] && executed == [] then A1(Some(0), "eligible_no_action_execution", endpoint)
      else if ep.actions == [] then A1(None, "action_execution_observation_missing", None)
      else if post == [] then A1(None, "post_action_verifier_missing_or_inconclusive", None)
      else if ep.cleanup.None? then A1(None, "cleanup_boundary_observation_missing", endpoint)
      else if before == [] then A1(None, "post_action_verifier_missing_or_inconclusive", None)
      else if Unresolved(Last(before)) then A1(Some(0), "conclusive_verifier_no_recovery_before_cleanup", endpoint)
      else A1(None, "post_action_verifier_missing_or_inconclusive", endpoint)
  }

  function ExecutedAfter(alert: nat): Action -> bool {
    (a: Action) => a.executed && a.index > alert
  }

  function Between(alert: nat, cleanup: Option<nat>, executed: seq<Action>): Observation -> bool {
    (o: Observation) => alert < o.index && Before(cleanup, o.index) && AfterAny(executed, o.index)
  }

  datatype Recovery = Recovery(reason: string, recovery: Option<nat>, coverage: Option<nat>)

  function FirstDelivery(events: seq<Event>): Option<nat> {
    if events == [] then None
    else
      var before := FirstDelivery(events[..|events| - 1]);
      if before.Some? then before else if IsDelivery(Last(events)) then Some(|events| - 1) else None
  }

  function ClockReason(clocked: set<nat>, index: nat, missing: string, otherwise: string): string {
    if index in clocked then otherwise else missing
  }

  function TimeToRecovery(ep: Episode, clocked: set<nat>): Recovery {
    if ep.admission != Eligible then Recovery("episode admission is not established", None, None)
    else if Pending(ep.events) then Recovery("pending_independent_adjudication", None, None)
    else
      var alert := FirstDelivery(ep.events);
      if alert.None? then Recovery("delivered alert observation is missing", None, None)
      else
        var noAlert := "delivered alert lacks clock";
        var executed := Filter(ep.actions, ExecutedAfter(alert.value));
        if executed == [] then Recovery(ClockReason(clocked, alert.value, noAlert, "no action was executed after delivered alert"), None, None)
        else if ep.cleanup.None? then Recovery(ClockReason(clocked, alert.value, noAlert, "cleanup boundary observation is missing"), None, None)
        else
          var post := Filter(ep.post, Between(alert.value, ep.cleanup, executed));
          var success := First(post, Success);
          var unresolved := Filter(post, Unresolved);
          if post == [] then Recovery(ClockReason(clocked, alert.value, noAlert, "objective post-action observation missing before cleanup"), None, None)
          else if success.Some? then
            Recovery(ClockReason(clocked, alert.value, noAlert,
                       ClockReason(clocked, success.value.index, "first conclusive success lacks clock", "clock_comparability_not_verified")),
                     IndexOf(success), None)
          else if unresolved == [] then
            Recovery(ClockReason(clocked, alert.value, noAlert, "no conclusive objective post-action verifier before cleanup"), None, None)
          else
            Recovery(ClockReason(clocked, alert.value, noAlert,
                       ClockReason(clocked, Last(unresolved).index, "coverage endpoint lacks clock", "clock_comparability_not_verified")),
                     None, Some(Last(unresolved).index))
  }

  datatype Outcome = EligiblePending | NotEligiblePending | NotAssessed | Recovered | Negative | OutcomeUndetermined | Unscorable

  /** Recomputes from the failure events what is pending. */
  function Classify(ep: Episode, a1: A1): Outcome {
    if Any(ep.events, INFRASTRUCTURE + {"episode_unscorable"})
       || (Any(ep.events, {"episode_failed"}) && !Any(ep.events, MODEL_FAILURE))
    then (if ep.admission == Eligible then EligiblePending else NotEligiblePending)
    else if ep.admission != Eligible then NotAssessed
    else if a1.value == Some(1) then Recovered
    else if a1.value == Some(0) then Negative
    else if a1.reason == "action_execution_observation_missing" then OutcomeUndetermined
    else Unscorable
  }

  // ---- the score ----

  datatype Score = Score(value: Option<real>, reason: string, verified: Option<bool>)

  function Passed(checks: Checks, required: set<string>): set<string> {
    set id | id in required && id in checks && checks[id] == Some(true)
  }

  predicate Missing(checks: Option<Checks>, required: set<string>) {
    exists id :: id in required && (checks.None? || id !in checks.value || checks.value[id].None?)
  }

  /** The verifier observation the score is taken from. */
  function ScoredObservation(ep: Episode): Option<Observation>
    requires ep.actions != []
  {
    var found := Filter(ep.post, (o: Observation) =>
      o.index > Last(ep.actions).index && (ep.cleanup.None? || o.index < ep.cleanup.value));
    if found == [] then None else Some(Last(found))
  }

  function Points(b: bool): real {
    if b then 1.0 else 0.0
  }

  predicate Claimed(actions: seq<Action>) {
    exists i :: 0 <= i < |actions| && actions[i].claimed == Some(true)
  }

  function ScoreEpisode(ep: Episode, required: set<string>): Score
    requires required != {}
  {
    if ep.admission != Eligible then Score(None, "episode_admission_not_eligible", None)
    else if Any(ep.events, {"episode_unscorable"}) then Score(None, "episode_unscorable", None)
    else if Pending(ep.events) then Score(None, "pending_independent_adjudication", None)
    else if ep.actions == [] then Score(None, "action_and_claim_observation_missing", None)
    else
      var selected := ScoredObservation(ep);
      if selected.None? then Score(None, "post_action_verifier_observation_missing", None)
      else if selected.value.status != Some("passed") && selected.value.status != Some("failed")
      then Score(None, "objective_verifier_status", None)
      else
        var verified := Success(selected.value);
        if Missing(selected.value.checks, required) then Score(None, "required_verifier_check_observation_missing", Some(verified))
        else if exists i :: 0 <= i < |ep.actions| && ep.actions[i].claimed.None?
        then Score(None, "agent_resolution_claim_observation_missing", Some(verified))
        else
          var checks := if selected.value.checks.Some? then selected.value.checks.value else map[];
          assert |required| > 0;
          var coverage := |Passed(checks, required)| as real / |required| as real;
          Score(Some(0.75 * Points(verified) + 0.25 * coverage - 0.25 * Points(Claimed(ep.actions) && !verified)),
                "", Some(verified))
  }
}
