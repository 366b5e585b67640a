/** Which episodes the measurement accepts at all (bench/candidate_measurement.py:399-628), told from
    their events. */
module MeasurementAcceptance {
  import opened Basics
  import opened Evidence
  import opened Measurement
  import opened MeasurementReading

  /** The verification an event carries, if any, is acceptable. */
  ghost predicate VerificationOk(text: string -> bool, e: Event, scenario: string, required: set<string>) {
    match Get(e, "verification", Null)
    case Null => true
    case Object(v) => Acceptable(text, v, scenario, required)
    case _ => false
  }

  ghost predicate PostsOk(text: string -> bool, events: seq<Event>, scenario: string, required: set<string>) {
    forall i :: 0 <= i < |events| && IsPost(events[i]) ==> VerificationOk(text, events[i], scenario, required)
  }

  lemma PostsOkSnoc(text: string -> bool, events: seq<Event>, e: Event, scenario: string, required: set<string>)
    ensures PostsOk(text, events + [e], scenario, required) <==>
      PostsOk(text, events, scenario, required) && (IsPost(e) ==> VerificationOk(text, e, scenario, required))
  {
    var more := events + [e];
    assert more[|events|] == e;
    if PostsOk(text, more, scenario, required) {
      forall i | 0 <= i < |events| && IsPost(events[i]) ensures VerificationOk(text, events[i], scenario, required) {
        assert more[i] == events[i];
      }
    }
  }

  lemma {:induction false} PostsAccepted(text: string -> bool, events: seq<Event>, scenario: string, required: set<string>)
    ensures PostActions(text, events, scenario, required).Some? <==> PostsOk(text, events, scenario, required)
  {
    if events != [] {
      var init, e := events[..|events| - 1], Last(events);
      assert events == init + [e];
      PostsAccepted(text, init, scenario, required);
      PostsOkSnoc(text, init, e, scenario, required);
      VerificationAccepted(text, |init|, e, scenario, required);
    }
  }

  ghost predicate FlagsOk(events: seq<Event>, name: string, field: string) {
    forall i :: 0 <= i < |events| && Name(events[i]) == name ==> Flag(Get(events[i], field, Null))
  }

  lemma FlagsOkSnoc(events: seq<Event>, e: Event, name: string, field: string)
    ensures FlagsOk(events + [e], name, field) <==> FlagsOk(events, name, field) && (Name(e) == name ==> Flag(Get(e, field, Null)))
  {
    var more := events + [e];
    assert more[|events|] == e;
    if FlagsOk(more, name, field) {
      forall i | 0 <= i < |events| && Name(events[i]) == name ensures Flag(Get(events[i], field, Null)) {
        assert more[i] == events[i];
      }
    }
  }

  lemma {:induction false} FlagsAccepted(events: seq<Event>, name: string, field: string)
    ensures FieldValues(events, name, field).Some? <==> FlagsOk(events, name, field)
  {
    if events != [] {
      var init, e := events[..|events| - 1], Last(events);
      assert events == init + [e];
      FlagsAccepted(init, name, field);
      FlagsOkSnoc(init, e, name, field);
    }
  }

  predicate IsPre(e: Event) {
    Name(e) == "pre_action_verification"
  }

  /** At most one verification before the actions, and an acceptable one. */
  ghost predicate PreOk(text: string -> bool, events: seq<Event>, scenario: string, required: set<string>) {
    && (forall i, j :: 0 <= i < j < |events| && IsPre(events[i]) ==> !IsPre(events[j]))
    && (forall i :: 0 <= i < |events| && IsPre(events[i]) ==> VerificationOk(text, events[i], scenario, required))
  }

  /** No contradiction about the fault. */
  ghost predicate Agreed(events: seq<Event>, name: string, field: string) {
    FlagsOk(events, name, field) && !(Says(events, name, field, true) && Says(events, name, field, false))
  }

  /** What makes an episode eligible. */
  ghost predicate EligibleEvents(events: seq<Event>) {
    && Says(events, "fault_authorization", "authorized", true) && Says(events, "fault_observation", "observed", true)
    && Says(events, "alert_delivery", "delivered", true) && PreSays(events, "failed", false)
  }

  predicate OfModel(name: string) {
    name in {"action_result", "diagnosis_output", "episode_failed", "episode_unscorable", "model_failure", "policy_output", "step_failure"}
  }

  /** The alert was delivered before the verification, and nothing of the model comes before that. */
  ghost predicate InOrderFrom(events: seq<Event>, pre: nat) {
    && (exists i :: 0 <= i < |events| && i < pre && IsDelivery(events[i]))
    && (forall i :: 0 <= i < |events| && i < pre ==> !OfModel(Name(events[i])))
  }

  /** Everything the parse reads is well formed. */
  ghost predicate PartsOk(text: string -> bool, events: seq<Event>, scenario: string, required: set<string>) {
    && PreOk(text, events, scenario, required) && PostsOk(text, events, scenario, required)
    && Agreed(events, "fault_authorization", "authorized") && Agreed(events, "fault_observation", "observed")
    && FlagsOk(events, "alert_delivery", "delivered")
  }

  ghost predicate OrderedEvents(events: seq<Event>) {
    exists pre: nat :: pre < |events| && IsPre(events[pre]) && InOrderFrom(events, pre)
  }

  ghost predicate EpisodeOk(text: string -> bool, events: seq<Event>, scenario: string, required: set<string>) {
    && PartsOk(text, events, scenario, required) && AllWellFormed(events)
    && (EligibleEvents(events) ==> OrderedEvents(events))
  }

  // ---- the parts of the parse ----

  /** The indices of the verifications before the actions. */
  function Pres(events: seq<Event>): seq<nat> {
    Indices(events, "pre_action_verification")
  }

  /** The verification before the actions. */
  function ReadPre(text: string -> bool, events: seq<Event>, scenario: string, required: set<string>): Option<Option<Observation>> {
    if Pres(events) == [] then Some(None)
    else
      assert Pres(events)[0] in Pres(events);
      match ParseVerification(text, Pres(events)[0], events[Pres(events)[0]], scenario, required)
      case None => None
      case Some(o) => Some(Some(o))
  }

  lemma OnePre(events: seq<Event>)
    ensures |Pres(events)| <= 1 <==> forall i, j :: 0 <= i < j < |events| && IsPre(events[i]) ==> !IsPre(events[j])
  {
    var pres := Pres(events);
    if |pres| > 1 {
      assert pres[0] in pres && pres[1] in pres && pres[0] < pres[1];
      assert IsPre(events[pres[0]]) && IsPre(events[pres[1]]);
    } else {
      forall i, j | 0 <= i < j < |events| && IsPre(events[i]) ensures !IsPre(events[j]) {
        assert i in pres;
        assert IsPre(events[j]) ==> j in pres;
      }
    }
  }

  lemma PreAccepted(text: string -> bool, events: seq<Event>, scenario: string, required: set<string>)
    ensures |Pres(events)| <= 1 && ReadPre(text, events, scenario, required).Some? <==> PreOk(text, events, scenario, required)
  {
    OnePre(events);
    var pres := Pres(events);
    if |pres| == 1 {
      assert pres[0] in pres && IsPre(events[pres[0]]);
      VerificationAccepted(text, pres[0], events[pres[0]], scenario, required);
      forall i | 0 <= i < |events| && IsPre(events[i]) ensures i == pres[0] { assert i in pres; }
    } else if pres == [] {
      forall i | 0 <= i < |events| ensures !IsPre(events[i]) { assert i !in pres; }
    }
  }

  lemma PreUnresolved(text: string -> bool, events: seq<Event>, scenario: string, required: set<string>)
    requires |Pres(events)| <= 1 && ReadPre(text, events, scenario, required).Some?
    ensures var pre := ReadPre(text, events, scenario, required).value;
      && (pre.Some? && Unresolved(pre.value) <==> PreSays(events, "failed", false))
      && (pre.Some? && Success(pre.value) <==> PreSays(events, "passed", true))
      && (pre.Some? ==> Pres(events) != [] && pre.value.index == Pres(events)[0])
  {
    var pres := Pres(events);
    if pres != [] {
      assert pres[0] in pres;
      ObservationIsRead(text, pres[0], events[pres[0]], scenario, required);
    }
    forall i | 0 <= i < |events| && IsPre(events[i]) ensures pres != [] && i == pres[0] { assert i in pres; }
  }

  lemma AgreedIff(events: seq<Event>, name: string, field: string)
    ensures var values := FieldValues(events, name, field);
      && (values.Some? && Consistent(values.value).Some? <==> Agreed(events, name, field))
      && (values.Some? && Consistent(values.value).Some? ==>
            forall b :: Consistent(values.value).value == Some(b) <==> Says(events, name, field, b))
  {
    FlagsAccepted(events, name, field);
    if FieldValues(events, name, field).Some? { ValuesAreSaid(events, name, field); }
  }

  lemma OrderOkIff(events: seq<Event>, pre: nat)
    requires pre <= |events|
    ensures OrderOk(events, pre) <==> InOrderFrom(events, pre)
  {
  }

  lemma PartsAccepted(text: string -> bool, events: seq<Event>, scenario: string, required: set<string>)
    ensures PartsOk(text, events, scenario, required) <==>
      && |Pres(events)| <= 1 && ReadPre(text, events, scenario, required).Some?
      && PostActions(text, events, scenario, required).Some?
      && FieldValues(events, "fault_authorization", "authorized").Some? && FieldValues(events, "fault_observation", "observed").Some?
      && FieldValues(events, "alert_delivery", "delivered").Some?
      && Consistent(FieldValues(events, "fault_authorization", "authorized").value).Some?
      && Consistent(FieldValues(events, "fault_observation", "observed").value).Some?
  {
    PreAccepted(text, events, scenario, required);
    PostsAccepted(text, events, scenario, required);
    AgreedIff(events, "fault_authorization", "authorized");
    AgreedIff(events, "fault_observation", "observed");
    FlagsAccepted(events, "alert_delivery", "delivered");
  }

  function Admit(text: string -> bool, events: seq<Event>, scenario: string, required: set<string>): Admission
    requires PartsOk(text, events, scenario, required)
  {
    PartsAccepted(text, events, scenario, required);
    Assess(Consistent(FieldValues(events, "fault_authorization", "authorized").value).value,
           Consistent(FieldValues(events, "fault_observation", "observed").value).value,
           Delivered(FieldValues(events, "alert_delivery", "delivered").value), ReadPre(text, events, scenario, required).value)
  }

  lemma EligibleIff(text: string -> bool, events: seq<Event>, scenario: string, required: set<string>)
    requires PartsOk(text, events, scenario, required)
    ensures Admit(text, events, scenario, required) == Eligible <==> EligibleEvents(events)
  {
    PartsAccepted(text, events, scenario, required);
    AgreedIff(events, "fault_authorization", "authorized");
    AgreedIff(events, "fault_observation", "observed");
    ValuesAreSaid(events, "alert_delivery", "delivered");
    PreUnresolved(text, events, scenario, required);
  }

  lemma ParseIff(text: string -> bool, events: seq<Event>, scenario: string, required: set<string>)
    ensures Parse(text, events, scenario, required).Some? <==>
      && PartsOk(text, events, scenario, required) && ReadActions(events).Some?
      && (Admit(text, events, scenario, required) == Eligible ==>
            var pre := ReadPre(text, events, scenario, required);
            pre.Some? && pre.value.Some? && OrderOk(events, pre.value.value.index))
  {
    PartsAccepted(text, events, scenario, required);
  }

  // ---- main result ----

  /** An episode is accepted exactly if its verifications, facts and actions are well formed and do not
      contradict each other, at most one verification precedes the actions, and, if the episode is
      eligible, an alert was delivered before that one and nothing of the model came before it. */
  lemma EpisodeAccepted(text: string -> bool, events: seq<Event>, scenario: string, required: set<string>)
    ensures Parse(text, events, scenario, required).Some? <==> EpisodeOk(text, events, scenario, required)
  {
    ParseIff(text, events, scenario, required);
    ActionsAccepted(events);
    if PartsOk(text, events, scenario, required) {
      EligibleIff(text, events, scenario, required);
      if EligibleEvents(events) { OrderIff(text, events, scenario, required); }
    }
  }

  lemma OrderIff(text: string -> bool, events: seq<Event>, scenario: string, required: set<string>)
    requires PartsOk(text, events, scenario, required) && EligibleEvents(events)
    ensures var pre := ReadPre(text, events, scenario, required);
      pre.Some? && pre.value.Some? && OrderOk(events, pre.value.value.index) <==> OrderedEvents(events)
  {
    PartsAccepted(text, events, scenario, required);
    PreUnresolved(text, events, scenario, required);
    var p := Pres(events)[0];
    assert p in Pres(events) && IsPre(events[p]);
    OrderOkIff(events, p);
    forall i | 0 <= i < |events| && IsPre(events[i]) ensures i == p { assert i in Pres(events); }
  }
}
