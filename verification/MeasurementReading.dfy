/** What the measurement reads out of an episode's events (bench/candidate_measurement.py:399-749),
    stated on the events themselves: its actions and observations, its admission, and its score. */
module MeasurementReading {
  import opened Basics
  import opened Evidence
  import opened Measurement
  import opened MeasurementAgreement

  // ---- fields ----

  function BoolAt(f: Fields, name: string): Option<bool> {
    match Get(f, name, Null) case Bool(b) => Some(b) case _ => None
  }

  function TextAt(f: Fields, name: string): Option<string> {
    match Get(f, name, Null) case String(s) => Some(s) case _ => None
  }

  /** The verification an event carries. */
  function Verdict(e: Event): Fields {
    match Get(e, "verification", Null) case Object(f) => f case _ => map[]
  }

  lemma FieldIsBool(e: Event, name: string)
    requires Field(e, name).Some?
    ensures Field(e, name).value == BoolAt(e, name)
  {
  }

  // ---- actions ----

  predicate IsAction(e: Event) {
    Name(e) == "action_result"
  }

  function ActionAt(events: seq<Event>, i: nat): Action
    requires i < |events|
  {
    Action(i, BoolAt(events[i], "executed") == Some(true), BoolAt(events[i], "agent_claimed_resolved"))
  }

  /** The action is that of its event, with the event's own fields. */
  predicate ActionRead(events: seq<Event>, a: Action) {
    a.index < |events| && IsAction(events[a.index]) && a == ActionAt(events, a.index)
  }

  predicate Listed(actions: seq<Action>, i: nat) {
    exists k :: 0 <= k < |actions| && actions[k].index == i
  }

  predicate Rising(actions: seq<Action>) {
    forall j, k :: 0 <= j < k < |actions| ==> actions[j].index < actions[k].index
  }

  /** The actions are the action events, in order. */
  ghost predicate ActionsRead(events: seq<Event>, actions: seq<Action>) {
    && (forall k :: 0 <= k < |actions| ==> ActionRead(events, actions[k])) && Rising(actions)
    && (forall i :: 0 <= i < |events| && IsAction(events[i]) ==> Listed(actions, i))
  }

  lemma ReadLater(events: seq<Event>, e: Event, a: Action)
    requires ActionRead(events, a)
    ensures ActionRead(events + [e], a) && a.index < |events|
  {
    assert (events + [e])[a.index] == events[a.index];
  }

  lemma ListedSnoc(actions: seq<Action>, a: Action, i: nat)
    ensures Listed(actions + [a], i) <==> Listed(actions, i) || a.index == i
  {
    var more := actions + [a];
    if k :| 0 <= k < |actions| && actions[k].index == i { assert more[k] == actions[k]; }
    assert more[|actions|] == a;
  }

  lemma NoActionSnoc(events: seq<Event>, e: Event, actions: seq<Action>)
    requires ActionsRead(events, actions) && !IsAction(e)
    ensures ActionsRead(events + [e], actions)
  {
    forall k | 0 <= k < |actions| ensures ActionRead(events + [e], actions[k]) { ReadLater(events, e, actions[k]); }
    forall i | 0 <= i < |events + [e]| && IsAction((events + [e])[i]) ensures Listed(actions, i) {
      if i < |events| { assert (events + [e])[i] == events[i]; }
    }
  }

  lemma ActionSnoc(events: seq<Event>, e: Event, actions: seq<Action>)
    requires ActionsRead(events, actions) && IsAction(e)
    ensures ActionsRead(events + [e], actions + [ActionAt(events + [e], |events|)])
  {
    var a := ActionAt(events + [e], |events|);
    forall k | 0 <= k < |actions| ensures ActionRead(events + [e], actions[k]) && actions[k].index < |events| {
      ReadLater(events, e, actions[k]);
    }
    assert ActionRead(events + [e], a);
    forall i | 0 <= i < |events + [e]| && IsAction((events + [e])[i]) ensures Listed(actions + [a], i) {
      ListedSnoc(actions, a, i);
      if i < |events| { assert (events + [e])[i] == events[i]; }
    }
  }

  lemma {:induction false} ActionsAreRead(events: seq<Event>)
    requires ReadActions(events).Some?
    ensures ActionsRead(events, ReadActions(events).value)
  {
    if events != [] {
      var init, e := events[..|events| - 1], Last(events);
      assert events == init + [e];
      ActionsAreRead(init);
      if IsAction(e) {
        ActionIsRead(e);
        ActionSnoc(init, e, ReadActions(init).value);
      } else {
        NoActionSnoc(init, e, ReadActions(init).value);
      }
    }
  }

  lemma ActionIsRead(e: Event)
    requires Field(e, "executed").Some? && Field(e, "agent_claimed_resolved").Some?
    ensures Field(e, "executed").value == BoolAt(e, "executed")
    ensures Field(e, "agent_claimed_resolved").value == BoolAt(e, "agent_claimed_resolved")
  {
  }

  // ---- checks and observations ----

  predicate IsCheck(j: Json, id: string) {
    j.Object? && Get(j.members, "check_id", Null) == String(id)
  }

  ghost predicate HasCheck(raw: seq<Json>, id: string) {
    exists k :: 0 <= k < |raw| && IsCheck(raw[k], id)
  }

  /** The checks are those of the list, each id once, with the result of its own entry. */
  ghost predicate ChecksRead(raw: seq<Json>, checks: Checks) {
    && (forall id :: id in checks <==> HasCheck(raw, id))
    && (forall k, id :: 0 <= k < |raw| && IsCheck(raw[k], id) ==> id in checks && checks[id] == BoolAt(raw[k].members, "passed"))
  }

  lemma HasCheckSnoc(raw: seq<Json>, check: Json, id: string)
    ensures HasCheck(raw + [check], id) <==> HasCheck(raw, id) || IsCheck(check, id)
  {
    var more := raw + [check];
    assert more[|raw|] == check;
    if k :| 0 <= k < |raw| && IsCheck(raw[k], id) { assert IsCheck(more[k], id); }
  }

  lemma ChecksReadSnoc(raw: seq<Json>, check: Json, id: string, before: Checks)
    requires ChecksRead(raw, before) && IsCheck(check, id) && id !in before
    ensures ChecksRead(raw + [check], before[id := BoolAt(check.members, "passed")])
  {
    var more, checks := raw + [check], before[id := BoolAt(check.members, "passed")];
    forall other ensures other in checks <==> HasCheck(more, other) { HasCheckSnoc(raw, check, other); }
    forall k, other | 0 <= k < |more| && IsCheck(more[k], other)
      ensures other in checks && checks[other] == BoolAt(more[k].members, "passed")
    {
      if k < |raw| {
        assert IsCheck(raw[k], other) && HasCheck(raw, other);
      } else {
        assert other == id;
      }
    }
  }

  lemma {:induction false} ChecksAreRead(text: string -> bool, required: set<string>, raw: seq<Json>)
    requires ParseChecks(text, required, raw).Some?
    ensures ChecksRead(raw, ParseChecks(text, required, raw).value)
  {
    if raw != [] {
      var init, check := raw[..|raw| - 1], Last(raw);
      assert raw == init + [check];
      ChecksAreRead(text, required, init);
      FieldIsBool(check.members, "passed");
      ChecksReadSnoc(init, check, ParseCheck(text, required, check).value.0, ParseChecks(text, required, init).value);
    }
  }

  predicate Flag(j: Json) {
    j.Null? || j.Bool?
  }

  /** An entry with a proper id; a required check cannot call itself optional. */
  ghost predicate CheckWellFormed(text: string -> bool, required: set<string>, j: Json) {
    && j.Object? && Flag(Get(j.members, "passed", Null)) && Flag(Get(j.members, "required", Null))
    && exists id :: IsCheck(j, id) && text(id) && (id in required ==> Get(j.members, "required", Null) != Bool(false))
  }

  lemma CheckAccepted(text: string -> bool, required: set<string>, j: Json)
    ensures ParseCheck(text, required, j).Some? <==> CheckWellFormed(text, required, j)
  {
    if ParseCheck(text, required, j).Some? { assert IsCheck(j, Get(j.members, "check_id", Null).text); }
  }

  ghost predicate NoIdTwice(raw: seq<Json>) {
    forall k, l, id :: 0 <= k < l < |raw| && IsCheck(raw[k], id) ==> !IsCheck(raw[l], id)
  }

  lemma NoIdTwiceInit(raw: seq<Json>, check: Json)
    requires NoIdTwice(raw + [check])
    ensures NoIdTwice(raw)
  {
    var more := raw + [check];
    forall k, l, id | 0 <= k < l < |raw| && IsCheck(raw[k], id) ensures !IsCheck(raw[l], id) {
      assert IsCheck(more[k], id) && more[l] == raw[l];
    }
  }

  lemma NoIdTwiceSnoc(raw: seq<Json>, check: Json, id: string)
    requires IsCheck(check, id)
    ensures NoIdTwice(raw + [check]) <==> NoIdTwice(raw) && !HasCheck(raw, id)
  {
    var more := raw + [check];
    assert more[|raw|] == check;
    assert forall k :: 0 <= k < |raw| ==> more[k] == raw[k];
    if NoIdTwice(more) {
      NoIdTwiceInit(raw, check);
      assert IsCheck(more[|raw|], id);
      forall k | 0 <= k < |raw| ensures !IsCheck(raw[k], id) { assert more[k] == raw[k]; }
    }
  }

  ghost predicate AllChecks(text: string -> bool, required: set<string>, raw: seq<Json>) {
    forall k :: 0 <= k < |raw| ==> CheckWellFormed(text, required, raw[k])
  }

  lemma AllChecksSnoc(text: string -> bool, required: set<string>, raw: seq<Json>, check: Json)
    ensures AllChecks(text, required, raw + [check]) <==>
      AllChecks(text, required, raw) && CheckWellFormed(text, required, check)
  {
    var more := raw + [check];
    assert more[|raw|] == check;
    if AllChecks(text, required, more) {
      forall k | 0 <= k < |raw| ensures CheckWellFormed(text, required, raw[k]) { assert more[k] == raw[k]; }
    }
  }

  /** The list is accepted exactly if every entry is well formed and no id comes twice. */
  lemma {:induction false} ChecksAccepted(text: string -> bool, required: set<string>, raw: seq<Json>)
    ensures ParseChecks(text, required, raw).Some? <==> AllChecks(text, required, raw) && NoIdTwice(raw)
  {
    if raw != [] {
      var init, check := raw[..|raw| - 1], Last(raw);
      assert raw == init + [check];
      ChecksAccepted(text, required, init);
      AllChecksSnoc(text, required, init, check);
      CheckAccepted(text, required, check);
      if NoIdTwice(raw) { NoIdTwiceInit(init, check); }
      if ParseChecks(text, required, init).Some? && ParseCheck(text, required, check).Some? {
        ChecksAreRead(text, required, init);
        NoIdTwiceSnoc(init, check, ParseCheck(text, required, check).value.0);
      }
    }
  }

  /** It says whether it was executed, and claims yes, no or nothing. */
  predicate WellFormed(e: Event) {
    BoolAt(e, "executed").Some? && (Get(e, "agent_claimed_resolved", Null).Bool? || Get(e, "agent_claimed_resolved", Null).Null?)
  }

  lemma WellFormedFields(e: Event)
    ensures WellFormed(e) <==>
      Field(e, "executed").Some? && Field(e, "executed").value.Some? && Field(e, "agent_claimed_resolved").Some?
  {
  }

  ghost predicate AllWellFormed(events: seq<Event>) {
    forall i :: 0 <= i < |events| && IsAction(events[i]) ==> WellFormed(events[i])
  }

  lemma WellFormedSnoc(events: seq<Event>, e: Event)
    ensures AllWellFormed(events + [e]) <==> AllWellFormed(events) && (IsAction(e) ==> WellFormed(e))
  {
    var more := events + [e];
    assert more[|events|] == e;
    if AllWellFormed(more) {
      forall i | 0 <= i < |events| && IsAction(events[i]) ensures WellFormed(events[i]) { assert more[i] == events[i]; }
    }
  }

  /** The actions are accepted exactly if each is well formed. */
  lemma {:induction false} ActionsAccepted(events: seq<Event>)
    ensures ReadActions(events).Some? <==> AllWellFormed(events)
  {
    if events != [] {
      var init, e := events[..|events| - 1], Last(events);
      assert events == init + [e];
      ActionsAccepted(init);
      WellFormedSnoc(init, e);
      WellFormedFields(e);
    }
  }

  /** The status goes with the resolution: passed with resolved, failed with unresolved, and a status
      that decides nothing never with resolved. */
  predicate Agrees(status: Option<string>, resolved: Option<bool>) {
    match status
    case None => true
    case Some(s) =>
      || (s == "passed" && resolved == Some(true))
      || (s == "failed" && resolved == Some(false))
      || (s in {"inconclusive", "error"} && resolved != Some(true))
  }

  /** A verification of this scenario (or of none named) with a known status that goes with its
      resolution, and a proper list of checks, which cannot hold a failed required one if it passed. */
  ghost predicate Acceptable(text: string -> bool, v: Fields, scenario: string, required: set<string>) {
    var status, raw, env := Get(v, "verification_status", Null), Get(v, "checks", Null), Get(v, "env_resolved", Null);
    && Get(v, "scenario_id", Null) in {Null, String(scenario)}
    && (status.Null? || status.String?) && Flag(env) && (raw.Null? || raw.List?)
    && Agrees(if status.String? then Some(status.text) else None, if env.Bool? then Some(env.value) else None)
    && (raw.List? ==> AllChecks(text, required, raw.items) && NoIdTwice(raw.items))
    && (raw.List? && status == String("passed") ==> !SomeFailed(raw.items, required))
  }

  ghost predicate SomeFailed(raw: seq<Json>, required: set<string>) {
    exists k, id :: 0 <= k < |raw| && id in required && IsCheck(raw[k], id) && BoolAt(raw[k].members, "passed") == Some(false)
  }

  lemma FailingIsSomeFailed(raw: seq<Json>, checks: Checks, required: set<string>)
    requires ChecksRead(raw, checks)
    ensures Failing(Some(checks), required) <==> SomeFailed(raw, required)
  {
    if id :| id in required && id in checks && checks[id] == Some(false) {
      assert HasCheck(raw, id);
      var k :| 0 <= k < |raw| && IsCheck(raw[k], id);
      assert SomeFailed(raw, required);
    }
  }

  /** Which verifications are accepted; one that is absent always is, and tells nothing. */
  lemma VerificationAccepted(text: string -> bool, i: nat, e: Event, scenario: string, required: set<string>)
    ensures ParseVerification(text, i, e, scenario, required).Some? <==>
      match Get(e, "verification", Null)
      case Null => true
      case Object(v) => Acceptable(text, v, scenario, required)
      case _ => false
  {
    var v := Get(e, "verification", Null);
    if v.Object? {
      var raw := Get(v.members, "checks", Null);
      if raw.List? {
        ChecksAccepted(text, required, raw.items);
        if ParseChecks(text, required, raw.items).Some? {
          ChecksAreRead(text, required, raw.items);
          FailingIsSomeFailed(raw.items, ParseChecks(text, required, raw.items).value, required);
        }
      }
    }
  }

  /** An observation has the fields of its event's verification. */
  ghost predicate ObservationRead(e: Event, o: Observation) {
    && o.status == TextAt(Verdict(e), "verification_status") && o.envResolved == BoolAt(Verdict(e), "env_resolved")
    && match Get(Verdict(e), "checks", Null)
       case List(raw) => o.checks.Some? && ChecksRead(raw, o.checks.value)
       case _ => o.checks.None?
  }

  lemma ObservationIsRead(text: string -> bool, i: nat, e: Event, scenario: string, required: set<string>)
    requires ParseVerification(text, i, e, scenario, required).Some?
    ensures var o := ParseVerification(text, i, e, scenario, required).value; o.index == i && ObservationRead(e, o)
  {
    var v := Get(e, "verification", Null);
    if v.Object? {
      FieldIsBool(v.members, "env_resolved");
      var raw := Get(v.members, "checks", Null);
      if raw.List? { ChecksAreRead(text, required, raw.items); }
    }
  }

  predicate IsPost(e: Event) {
    Name(e) == "post_action_verification"
  }

  ghost predicate PostAt(events: seq<Event>, o: Observation) {
    o.index < |events| && IsPost(events[o.index]) && ObservationRead(events[o.index], o)
  }

  predicate Seen(post: seq<Observation>, i: nat) {
    exists k :: 0 <= k < |post| && post[k].index == i
  }

  /** The observations are the post-action verifications, in order. */
  ghost predicate PostRead(events: seq<Event>, post: seq<Observation>) {
    && ByIndex(post) && (forall k :: 0 <= k < |post| ==> PostAt(events, post[k]))
    && (forall i :: 0 <= i < |events| && IsPost(events[i]) ==> Seen(post, i))
  }

  lemma PostLater(events: seq<Event>, e: Event, o: Observation)
    requires PostAt(events, o)
    ensures PostAt(events + [e], o) && o.index < |events|
  {
    assert (events + [e])[o.index] == events[o.index];
  }

  lemma SeenSnoc(post: seq<Observation>, o: Observation, i: nat)
    ensures Seen(post + [o], i) <==> Seen(post, i) || o.index == i
  {
    var more := post + [o];
    if k :| 0 <= k < |post| && post[k].index == i { assert more[k] == post[k]; }
    assert more[|post|] == o;
  }

  lemma NoPostSnoc(events: seq<Event>, e: Event, post: seq<Observation>)
    requires PostRead(events, post) && !IsPost(e)
    ensures PostRead(events + [e], post)
  {
    forall k | 0 <= k < |post| ensures PostAt(events + [e], post[k]) { PostLater(events, e, post[k]); }
    forall i | 0 <= i < |events + [e]| && IsPost((events + [e])[i]) ensures Seen(post, i) {
      if i < |events| { assert (events + [e])[i] == events[i]; }
    }
  }

  lemma PostSnoc(events: seq<Event>, e: Event, post: seq<Observation>, o: Observation)
    requires PostRead(events, post) && IsPost(e) && o.index == |events| && ObservationRead(e, o)
    ensures PostRead(events + [e], post + [o])
  {
    forall k | 0 <= k < |post| ensures PostAt(events + [e], post[k]) && post[k].index < |events| { PostLater(events, e, post[k]); }
    assert PostAt(events + [e], o);
    forall i | 0 <= i < |events + [e]| && IsPost((events + [e])[i]) ensures Seen(post + [o], i) {
      SeenSnoc(post, o, i);
      if i < |events| { assert (events + [e])[i] == events[i]; }
    }
  }

  lemma {:induction false} PostIsRead(text: string -> bool, events: seq<Event>, scenario: string, required: set<string>)
    requires PostActions(text, events, scenario, required).Some?
    ensures PostRead(events, PostActions(text, events, scenario, required).value)
  {
    if events != [] {
      var init, e := events[..|events| - 1], Last(events);
      assert events == init + [e];
      PostIsRead(text, init, scenario, required);
      var before := PostActions(text, init, scenario, required).value;
      if IsPost(e) {
        ObservationIsRead(text, |init|, e, scenario, required);
        PostSnoc(init, e, before, ParseVerification(text, |init|, e, scenario, required).value);
      } else {
        NoPostSnoc(init, e, before);
      }
    }
  }

  // ---- admission ----

  ghost predicate Says(events: seq<Event>, name: string, field: string, value: bool) {
    exists i :: 0 <= i < |events| && Name(events[i]) == name && BoolAt(events[i], field) == Some(value)
  }

  ghost predicate Present(events: seq<Event>, name: string) {
    exists i :: 0 <= i < |events| && Name(events[i]) == name
  }

  /** Every event with the name says no. */
  ghost predicate OnlyNo(events: seq<Event>, name: string, field: string) {
    Present(events, name) && forall i :: 0 <= i < |events| && Name(events[i]) == name ==> BoolAt(events[i], field) == Some(false)
  }

  /** The values are those of the events with the name. */
  ghost predicate ValuesSaid(events: seq<Event>, name: string, field: string, values: seq<Option<bool>>) {
    && (forall b :: Some(b) in values <==> Says(events, name, field, b))
    && (values != [] <==> Present(events, name))
    && (AllNo(values) <==> OnlyNo(events, name, field))
  }

  predicate AllNo(values: seq<Option<bool>>) {
    values != [] && forall v :: v in values ==> v == Some(false)
  }

  lemma ValuesSnoc(events: seq<Event>, e: Event, name: string, field: string, values: seq<Option<bool>>)
    requires ValuesSaid(events, name, field, values)
    ensures ValuesSaid(events + [e], name, field, if Name(e) == name then values + [BoolAt(e, field)] else values)
  {
    var v := BoolAt(e, field);
    forall b ensures Says(events + [e], name, field, b) <==> Says(events, name, field, b) || (Name(e) == name && v == Some(b)) {
      SaysSnoc(events, e, name, field, b);
    }
    PresentSnoc(events, e, name, field);
    AllNoSnoc(values, v);
  }

  lemma AllNoSnoc(values: seq<Option<bool>>, v: Option<bool>)
    ensures AllNo(values + [v]) <==> v == Some(false) && (values != [] ==> AllNo(values))
  {
    assert v in values + [v];
    forall x | x in values ensures x in values + [v] {}
  }

  lemma {:induction false} ValuesAreSaid(events: seq<Event>, name: string, field: string)
    requires FieldValues(events, name, field).Some?
    ensures ValuesSaid(events, name, field, FieldValues(events, name, field).value)
  {
    if events != [] {
      var init, e := events[..|events| - 1], Last(events);
      assert events == init + [e];
      ValuesAreSaid(init, name, field);
      ValuesSnoc(init, e, name, field, FieldValues(init, name, field).value);
      if Name(e) == name { FieldIsBool(e, field); }
    }
  }

  lemma SaysSnoc(events: seq<Event>, e: Event, name: string, field: string, b: bool)
    ensures Says(events + [e], name, field, b) <==> Says(events, name, field, b) || (Name(e) == name && BoolAt(e, field) == Some(b))
  {
    var more := events + [e];
    if Says(events, name, field, b) {
      var i :| 0 <= i < |events| && Name(events[i]) == name && BoolAt(events[i], field) == Some(b);
      assert more[i] == events[i];
    }
    assert more[|events|] == e;
  }

  lemma PresentSnoc(events: seq<Event>, e: Event, name: string, field: string)
    ensures Present(events + [e], name) <==> Present(events, name) || Name(e) == name
    ensures OnlyNo(events + [e], name, field) <==>
      if Name(e) == name then BoolAt(e, field) == Some(false) && (Present(events, name) ==> OnlyNo(events, name, field))
      else OnlyNo(events, name, field)
  {
    var more := events + [e];
    assert more[|events|] == e;
    if Present(events, name) {
      var i :| 0 <= i < |events| && Name(events[i]) == name;
      assert more[i] == events[i];
    }
    if OnlyNo(more, name, field) {
      forall i | 0 <= i < |events| && Name(events[i]) == name ensures BoolAt(events[i], field) == Some(false) { assert more[i] == events[i]; }
    }
  }

  /** The one verification before the actions, if the events have one. */
  ghost predicate PreSays(events: seq<Event>, status: string, resolved: bool) {
    exists i :: 0 <= i < |events| && Name(events[i]) == "pre_action_verification"
      && TextAt(Verdict(events[i]), "verification_status") == Some(status) && BoolAt(Verdict(events[i]), "env_resolved") == Some(resolved)
  }

  lemma PreIsRead(text: string -> bool, events: seq<Event>, scenario: string, required: set<string>)
    requires Parse(text, events, scenario, required).Some?
    ensures var pre := Parse(text, events, scenario, required).value.pre;
      && (pre.Some? && Success(pre.value) <==> PreSays(events, "passed", true))
      && (pre.Some? && Unresolved(pre.value) <==> PreSays(events, "failed", false))
  {
    var pres := Indices(events, "pre_action_verification");
    if pres != [] {
      assert pres[0] in pres;
      ObservationIsRead(text, pres[0], events[pres[0]], scenario, required);
    }
    forall i | 0 <= i < |events| && Name(events[i]) == "pre_action_verification" ensures pres != [] && i == pres[0] {
      assert i in pres;
    }
  }

  /** An accepted episode is eligible if and only if the fault was authorised and observed, an alert was
      delivered, and the verifier saw the incident unresolved beforehand; it is ineligible if and only if
      one of these is denied. */
  lemma AdmissionRead(text: string -> bool, events: seq<Event>, scenario: string, required: set<string>)
    requires Parse(text, events, scenario, required).Some?
    ensures var admission := Parse(text, events, scenario, required).value.admission;
      && (admission == Ineligible <==>
            || Says(events, "fault_authorization", "authorized", false) || Says(events, "fault_observation", "observed", false)
            || OnlyNo(events, "alert_delivery", "delivered") || PreSays(events, "passed", true))
      && (admission == Eligible <==>
            && Says(events, "fault_authorization", "authorized", true) && Says(events, "fault_observation", "observed", true)
            && Says(events, "alert_delivery", "delivered", true) && PreSays(events, "failed", false))
  {
    ValuesAreSaid(events, "fault_authorization", "authorized");
    ValuesAreSaid(events, "fault_observation", "observed");
    ValuesAreSaid(events, "alert_delivery", "delivered");
    PreIsRead(text, events, scenario, required);
  }

  // ---- the score ----

  /** The observation that is scored: the last one after every action and before cleanup. */
  ghost predicate Scored(ep: Episode, o: Observation) {
    && InScoreScope(ep, o) && forall x :: InScoreScope(ep, x) ==> x.index <= o.index
  }

  ghost predicate InScoreScope(ep: Episode, o: Observation) {
    && o in ep.post && (forall a :: a in ep.actions ==> a.index < o.index) && (ep.cleanup.Some? ==> o.index < ep.cleanup.value)
  }

  /** Every required check of the observation has a result. */
  ghost predicate AllKnown(o: Observation, required: set<string>) {
    o.checks.Some? && forall id :: id in required ==> id in o.checks.value && o.checks.value[id].Some?
  }

  /** The share of the required checks that passed. */
  function Share(o: Observation, required: set<string>): real
    requires o.checks.Some? && required != {}
  {
    assert |required| > 0;
    |set id | id in required && id in o.checks.value && o.checks.value[id] == Some(true)| as real / |required| as real
  }

  /** Some action event claims that the incident is resolved; every one of them says yes or no. */
  ghost predicate SomeClaim(events: seq<Event>) {
    Says(events, "action_result", "agent_claimed_resolved", true)
  }

  ghost predicate AllClaimsKnown(events: seq<Event>) {
    forall i :: 0 <= i < |events| && IsAction(events[i]) ==> BoolAt(events[i], "agent_claimed_resolved").Some?
  }

  lemma ClaimsRead(events: seq<Event>, actions: seq<Action>)
    requires ActionsRead(events, actions)
    ensures Claimed(actions) <==> SomeClaim(events)
    ensures (forall i :: 0 <= i < |actions| ==> actions[i].claimed.Some?) <==> AllClaimsKnown(events)
    ensures actions != [] <==> Present(events, "action_result")
  {
    forall i | 0 <= i < |events| && IsAction(events[i])
      ensures exists k :: 0 <= k < |actions| && actions[k].index == i && actions[k].claimed == BoolAt(events[i], "agent_claimed_resolved")
    {
      var k :| 0 <= k < |actions| && actions[k].index == i;
      assert ActionRead(events, actions[k]);
    }
    if Claimed(actions) {
      var k :| 0 <= k < |actions| && actions[k].claimed == Some(true);
      assert ActionRead(events, actions[k]);
      assert BoolAt(events[actions[k].index], "agent_claimed_resolved") == Some(true);
    }
    if actions != [] { assert ActionRead(events, actions[0]); }
    forall k | 0 <= k < |actions| ensures actions[k].claimed == BoolAt(events[actions[k].index], "agent_claimed_resolved") {
      assert ActionRead(events, actions[k]);
    }
  }

  lemma ScoredIsLast(ep: Episode)
    requires ByIndex(ep.post) && ep.actions != [] && Rising(ep.actions)
    ensures match ScoredObservation(ep)
            case Some(o) => Scored(ep, o) && forall x :: Scored(ep, x) ==> x == o
            case None => forall o :: !InScoreScope(ep, o)
  {
    var p := (o: Observation) => o.index > Last(ep.actions).index && (ep.cleanup.None? || o.index < ep.cleanup.value);
    var found := Filter(ep.post, p);
    FilterByIndex(ep.post, p);
    assert Last(ep.actions) in ep.actions;
    forall o ensures o in found <==> InScoreScope(ep, o) {}
    if found != [] {
      LastIsGreatest(found);
      assert Last(found) in found;
    }
  }

  /** The conditions under which an episode has a score at all. */
  ghost predicate HasScore(ep: Episode, required: set<string>, o: Observation) {
    && ep.admission == Eligible && !Pending(ep.events) && Present(ep.events, "action_result") && AllClaimsKnown(ep.events)
    && Scored(ep, o) && (o.status == Some("passed") || o.status == Some("failed")) && AllKnown(o, required)
  }

  lemma MissingIsUnknown(o: Observation, required: set<string>)
    requires required != {}
    ensures Missing(o.checks, required) <==> !AllKnown(o, required)
  {
    var id :| id in required;
    if o.checks.None? { assert id in required; }
  }

  /** 1 for a passed observation, and otherwise a quarter of the share that passed, less a quarter for a claim. */
  ghost function ScoreFor(events: seq<Event>, required: set<string>, o: Observation): real
    requires required != {} && o.checks.Some?
  {
    if o.status == Some("passed") then 1.0
    else 0.25 * Share(o, required) - if SomeClaim(events) then 0.25 else 0.0
  }

  /** What a score is, on the events of an accepted episode: 1 when the scored observation passed, and
      otherwise a quarter of the share of required checks that passed, less a quarter exactly if some
      action claimed resolution. It is there exactly for admitted, settled episodes in which the last
      observation after the actions is conclusive and every required check and every claim is known. */
  lemma ScoreExact(text: string -> bool, events: seq<Event>, scenario: string, required: set<string>)
    requires required != {} && Parse(text, events, scenario, required).Some?
    ensures var ep := Parse(text, events, scenario, required).value; var score := ScoreEpisode(ep, required).value;
      && (score.Some? <==> exists o :: HasScore(ep, required, o))
      && (forall o :: HasScore(ep, required, o) ==> score == Some(ScoreFor(events, required, o)))
  {
    var ep := Parse(text, events, scenario, required).value;
    ActionsAreRead(events);
    PostByIndex(text, events, scenario, required);
    PostAreSound(text, events, scenario, required);
    EpisodeScore(ep, required);
  }

  lemma EpisodeScore(ep: Episode, required: set<string>)
    requires required != {} && ByIndex(ep.post) && ActionsRead(ep.events, ep.actions)
    requires forall o :: o in ep.post ==> SoundObservation(o, required)
    ensures var score := ScoreEpisode(ep, required).value;
      && (score.Some? <==> exists o :: HasScore(ep, required, o))
      && (forall o :: HasScore(ep, required, o) ==> score == Some(ScoreFor(ep.events, required, o)))
  {
    ClaimsRead(ep.events, ep.actions);
    UnscorableIsPending(ep.events);
    if ep.actions != [] {
      ScoredIsLast(ep);
      if ScoredObservation(ep).Some? { ScoreOf(ep, required, ScoredObservation(ep).value); }
    }
  }

  /** The score from the scored observation. */
  lemma ScoreOf(ep: Episode, required: set<string>, o: Observation)
    requires required != {} && ep.actions != [] && ScoredObservation(ep) == Some(o) && Scored(ep, o) && SoundObservation(o, required)
    requires (Claimed(ep.actions) <==> SomeClaim(ep.events)) && Present(ep.events, "action_result")
    requires (forall i :: 0 <= i < |ep.actions| ==> ep.actions[i].claimed.Some?) <==> AllClaimsKnown(ep.events)
    requires Any(ep.events, {"episode_unscorable"}) ==> Pending(ep.events)
    ensures var score := ScoreEpisode(ep, required).value;
      && (score.Some? <==> HasScore(ep, required, o))
      && (HasScore(ep, required, o) ==> score == Some(ScoreFor(ep.events, required, o)))
  {
    MissingIsUnknown(o, required);
    if AllKnown(o, required) { ScoreFromParts(o, required); }
  }
}
