/** Membership and population arithmetic of a replay (bench/candidate_replay.py) and of an adapter
    (bench/candidate_adapters.py). Schedules list each id once; the source validates that first. */
module Replay {
  import opened Basics
  import M = Measurement
  import MA = MeasurementAgreement

  // ---- ordered membership ----

  predicate Distinct<T(==)>(xs: seq<T>) {
    forall i, j :: 0 <= i < j < |xs| ==> xs[i] != xs[j]
  }

  /** `where` gives, in order, the place in `whole` of each element of `part`. */
  ghost predicate Embeds<T>(part: seq<T>, whole: seq<T>, where: seq<nat>) {
    && |where| == |part|
    && (forall i :: 0 <= i < |part| ==> where[i] < |whole| && whole[where[i]] == part[i])
    && (forall i, j :: 0 <= i < j < |where| ==> where[i] < where[j])
  }

  ghost predicate Subsequence<T(!new)>(part: seq<T>, whole: seq<T>) {
    exists where :: Embeds(part, whole, where)
  }

  /** The place of `x`; the last one, as a dictionary built in order would hold. */
  function Place<T(==)>(xs: seq<T>, x: T): (r: nat)
    requires x in xs
    ensures r < |xs| && xs[r] == x
  {
    if Last(xs) == x then |xs| - 1 else Place(xs[..|xs| - 1], x)
  }

  lemma PlaceIsUnique<T>(xs: seq<T>, k: nat)
    requires Distinct(xs) && k < |xs|
    ensures Place(xs, xs[k]) == k
  {
  }

  /** What the membership check accepts: known ids at increasing places. */
  ghost predicate InOrder<T>(observed: seq<T>, expected: seq<T>) {
    && (forall i :: 0 <= i < |observed| ==> observed[i] in expected)
    && (forall i, j :: 0 <= i < j < |observed| ==> Place(expected, observed[i]) < Place(expected, observed[j]))
  }

  /** An id more is in order exactly when it is known and comes after the last one. */
  lemma NextInOrder<T(!new)>(observed: seq<T>, expected: seq<T>, i: nat)
    requires i < |observed| && InOrder(observed[..i], expected)
    ensures InOrder(observed[..i + 1], expected) <==>
      observed[i] in expected && (i > 0 ==> Place(expected, observed[i - 1]) < Place(expected, observed[i]))
    ensures InOrder(observed, expected) ==> InOrder(observed[..i + 1], expected)
    ensures InOrder(observed[..i + 1], expected) ==> observed[i] !in observed[..i]
  {
    var now := observed[..i + 1];
    assert now[..i] == observed[..i] && now[i] == observed[i];
    if i > 0 { assert now[i - 1] == observed[i - 1]; }
    if observed[i] in expected && (i > 0 ==> Place(expected, observed[i - 1]) < Place(expected, observed[i])) {
      forall j, k | 0 <= j < k < |now| ensures Place(expected, now[j]) < Place(expected, now[k]) {
        if k == i && j < i - 1 { assert Place(expected, observed[..i][j]) < Place(expected, observed[..i][i - 1]); }
      }
    }
  }

  /** For a schedule without repetition, membership is accepted exactly when the observed ids are an
      ordered subsequence of it. */
  lemma AcceptedIffSubsequence<T(!new)>(observed: seq<T>, expected: seq<T>)
    requires Distinct(expected)
    ensures InOrder(observed, expected) <==> Subsequence(observed, expected)
  {
    if InOrder(observed, expected) {
      var where := seq(|observed|, i requires 0 <= i < |observed| => Place(expected, observed[i]));
      assert Embeds(observed, expected, where);
    }
    if Subsequence(observed, expected) {
      var where :| Embeds(observed, expected, where);
      forall i | 0 <= i < |observed| ensures observed[i] in expected && Place(expected, observed[i]) == where[i] {
        PlaceIsUnique(expected, where[i]);
      }
    }
  }

  function Absent<T(==)>(expected: seq<T>, observed: seq<T>): (r: seq<T>)
    ensures |r| <= |expected|
  {
    if expected == [] then []
    else
      var before := Absent(expected[..|expected| - 1], observed);
      if Last(expected) in observed then before else before + [Last(expected)]
  }

  /** `_ordered_missing_ids`: None when the membership is refused. */
  method OrderedMissingIds(expected: seq<string>, observed: seq<string>) returns (r: Option<seq<string>>)
    requires Distinct(expected)
    ensures r.Some? <==> Subsequence(observed, expected)
    ensures r.Some? ==> r.value == Absent(expected, observed)
  {
    AcceptedIffSubsequence(observed, expected);
    if exists i :: 0 <= i < |observed| && observed[i] !in expected {
      return None;
    }
    var i := 1;
    while i < |observed|
      invariant observed != [] ==> 1 <= i <= |observed|
      invariant forall j, k :: 0 <= j < k < i <= |observed| ==> Place(expected, observed[j]) < Place(expected, observed[k])
    {
      if Place(expected, observed[i]) <= Place(expected, observed[i - 1]) {
        return None;
      }
      i := i + 1;
    }
    r := Some(Absent(expected, observed));
  }

  // ---- rows of several arms ----

  datatype Pair = Pair(arm: string, scenario: string)

  /** The schedule: every scenario for each arm, arm by arm. */
  function Schedule(arms: seq<string>, scenarios: seq<string>): seq<Pair> {
    if arms == [] then []
    else Schedule(arms[..|arms| - 1], scenarios) + ForArm(Last(arms), scenarios)
  }

  function ForArm(arm: string, scenarios: seq<string>): (r: seq<Pair>)
    ensures |r| == |scenarios| && forall i :: 0 <= i < |r| ==> r[i] == Pair(arm, scenarios[i])
  {
    seq(|scenarios|, i requires 0 <= i < |scenarios| => Pair(arm, scenarios[i]))
  }

  function RowsOf(rows: seq<Pair>, arm: string): (r: seq<string>)
    ensures |r| <= |rows|
    ensures forall s :: s in r <==> Pair(arm, s) in rows
  {
    if rows == [] then []
    else
      var before := RowsOf(rows[..|rows| - 1], arm);
      if Last(rows).arm == arm then before + [Last(rows).scenario] else before
  }

  function MissingOf(rows: seq<Pair>, arm: string, scenarios: seq<string>): seq<string> {
    Absent(scenarios, RowsOf(rows, arm))
  }

  /** `_parse_common_episode_rows`: one pass over all rows, which refuses an unknown pair, a repeated
      one, and any that does not come later in the schedule than the row before. */
  method ParseRows(rows: seq<Pair>, arms: seq<string>, scenarios: seq<string>) returns (ok: bool)
    ensures ok <==> InOrder(rows, Schedule(arms, scenarios))
  {
    var schedule := Schedule(arms, scenarios);
    var seen: set<Pair> := {};
    var previous: int := -1;
    var i := 0;
    while i < |rows|
      invariant 0 <= i <= |rows|
      invariant forall p :: p in seen <==> p in rows[..i]
      invariant InOrder(rows[..i], schedule)
      invariant previous == if i == 0 then -1 else Place(schedule, rows[i - 1])
    {
      assert rows[..i + 1] == rows[..i] + [rows[i]];
      NextInOrder(rows, schedule, i);
      if rows[i] !in schedule || rows[i] in seen {
        return false;
      }
      var place := Place(schedule, rows[i]);
      if place <= previous {
        return false;
      }
      previous := place;
      seen := seen + {rows[i]};
      i := i + 1;
    }
    assert rows[..i] == rows;
    ok := true;
  }

  /** Accepted rows of one arm are an ordered subsequence of the scenarios; observed and missing
      scenarios together are all of them. */
  lemma ArmMembership(rows: seq<Pair>, arms: seq<string>, scenarios: seq<string>, arm: string)
    requires Distinct(arms) && Distinct(scenarios) && InOrder(rows, Schedule(arms, scenarios))
    ensures Subsequence(RowsOf(rows, arm), scenarios)
    ensures |RowsOf(rows, arm)| + |MissingOf(rows, arm, scenarios)| == |scenarios|
    ensures forall s :: s in scenarios ==> (s in RowsOf(rows, arm) <==> s !in MissingOf(rows, arm, scenarios))
  {
    ArmInOrder(rows, arms, scenarios, arm);
    AcceptedIffSubsequence(RowsOf(rows, arm), scenarios);
    InOrderDistinct(RowsOf(rows, arm), scenarios);
    AbsentCount(scenarios, RowsOf(rows, arm));
  }

  lemma InOrderDistinct<T>(observed: seq<T>, expected: seq<T>)
    requires InOrder(observed, expected)
    ensures Distinct(observed) && forall x :: x in observed ==> x in expected
  {
  }

  /** Within the schedule, places grow with the scenario inside one arm. */
  lemma {:induction false} ScheduleOrder(arms: seq<string>, scenarios: seq<string>, a: Pair, b: Pair)
    requires Distinct(arms) && Distinct(scenarios) && a.arm == b.arm
    requires a in Schedule(arms, scenarios) && b in Schedule(arms, scenarios)
    requires Place(Schedule(arms, scenarios), a) < Place(Schedule(arms, scenarios), b)
    ensures a.scenario in scenarios && b.scenario in scenarios
            && Place(scenarios, a.scenario) < Place(scenarios, b.scenario)
  {
    var schedule := Schedule(arms, scenarios);
    ScheduleSize(arms, scenarios);
    var m, n := Place(schedule, a), Place(schedule, b);
    var i, k := ScheduleAt(arms, scenarios, m);
    var i', k' := ScheduleAt(arms, scenarios, n);
    assert i == i';
    PlaceIsUnique(scenarios, k);
    PlaceIsUnique(scenarios, k');
  }

  lemma {:induction false} ScheduleSize(arms: seq<string>, scenarios: seq<string>)
    ensures |Schedule(arms, scenarios)| == |arms| * |scenarios|
  {
    if arms != [] {
      ScheduleSize(arms[..|arms| - 1], scenarios);
      assert (|arms| - 1) * |scenarios| + |scenarios| == |arms| * |scenarios|;
    }
  }

  /** The arm and the scenario that stand at a place. */
  lemma {:induction false} ScheduleAt(arms: seq<string>, scenarios: seq<string>, m: nat) returns (i: nat, k: nat)
    requires m < |Schedule(arms, scenarios)|
    ensures i < |arms| && k < |scenarios| && m == i * |scenarios| + k
    ensures Schedule(arms, scenarios)[m] == Pair(arms[i], scenarios[k])
  {
    var init := arms[..|arms| - 1];
    ScheduleSize(init, scenarios);
    if m < |Schedule(init, scenarios)| {
      i, k := ScheduleAt(init, scenarios, m);
    } else {
      i, k := |arms| - 1, m - |Schedule(init, scenarios)|;
    }
  }

  lemma {:induction false} ArmInOrder(rows: seq<Pair>, arms: seq<string>, scenarios: seq<string>, arm: string)
    requires Distinct(arms) && Distinct(scenarios) && InOrder(rows, Schedule(arms, scenarios))
    ensures InOrder(RowsOf(rows, arm), scenarios)
  {
    if rows != [] {
      var init := rows[..|rows| - 1];
      ArmInOrder(init, arms, scenarios, arm);
      if Last(rows).arm == arm {
        ScheduledScenario(arms, scenarios, Last(rows));
        forall s | s in RowsOf(init, arm) ensures s in scenarios && Place(scenarios, s) < Place(scenarios, Last(rows).scenario) {
          var j :| 0 <= j < |init| && init[j] == Pair(arm, s);
          assert rows[j] == Pair(arm, s);
          ScheduleOrder(arms, scenarios, rows[j], Last(rows));
        }
      }
    }
  }

  lemma ScheduledScenario(arms: seq<string>, scenarios: seq<string>, p: Pair)
    requires p in Schedule(arms, scenarios)
    ensures p.scenario in scenarios
  {
  }

  lemma {:induction false} AbsentMeans<T>(expected: seq<T>, observed: seq<T>)
    ensures forall x :: x in Absent(expected, observed) <==> x in expected && x !in observed
  {
    if expected != [] {
      AbsentMeans(expected[..|expected| - 1], observed);
      assert expected == expected[..|expected| - 1] + [Last(expected)];
    }
  }

  lemma AbsentCount<T>(expected: seq<T>, observed: seq<T>)
    requires Distinct(expected) && Distinct(observed) && forall x :: x in observed ==> x in expected
    ensures |observed| + |Absent(expected, observed)| == |expected|
    ensures forall x :: x in expected ==> (x in observed <==> x !in Absent(expected, observed))
  {
    AbsentMeans(expected, observed);
    AbsentDistinct(expected, observed);
    var e, o, a := Elements(expected), Elements(observed), Elements(Absent(expected, observed));
    DistinctSize(expected);
    DistinctSize(observed);
    DistinctSize(Absent(expected, observed));
    assert e == o + a && o * a == {};
  }

  function Elements<T>(xs: seq<T>): set<T> {
    set x | x in xs
  }

  lemma {:induction false} AbsentDistinct<T>(expected: seq<T>, observed: seq<T>)
    requires Distinct(expected)
    ensures Distinct(Absent(expected, observed))
  {
    if expected != [] {
      var init := expected[..|expected| - 1];
      AbsentDistinct(init, observed);
      AbsentMeans(init, observed);
      var before := Absent(init, observed);
      forall i | 0 <= i < |before| ensures before[i] != Last(expected) { assert before[i] in before; }
    }
  }

  lemma {:induction false} DistinctSize<T>(xs: seq<T>)
    requires Distinct(xs)
    ensures |Elements(xs)| == |xs|
  {
    if xs != [] {
      var init := xs[..|xs| - 1];
      DistinctSize(init);
      assert xs == init + [Last(xs)];
      assert Elements(xs) == Elements(init) + {Last(xs)};
      assert Last(xs) !in Elements(init);
    }
  }

  // ---- the population ----

  /** A measured episode. */
  datatype Measured = Measured(scenario: string, ep: M.Episode, a1: M.A1, score: M.Score)

  const ATTEMPTS: set<string> := {"action_result", "diagnosis_output", "model_failure", "policy_output", "step_failure"}

  predicate Attempted(m: Measured) {
    M.Any(m.ep.events, ATTEMPTS)
  }

  predicate Awaiting(m: Measured) {
    M.Pending(m.ep.events)
  }

  /** The episode was measured by the measurement module. */
  ghost predicate Genuine(m: Measured) {
    m.a1 == M.MeasureA1(m.ep)
  }

  function WithStatus(episodes: seq<Measured>, status: M.Admission): (r: seq<Measured>)
    ensures forall m :: m in r <==> m in episodes && m.ep.admission == status
    ensures |r| <= |episodes|
  {
    if episodes == [] then []
    else
      var before := WithStatus(episodes[..|episodes| - 1], status);
      if Last(episodes).ep.admission == status then before + [Last(episodes)] else before
  }

  /** The scenarios that were observed. */
  function Observed(episodes: seq<Measured>): (r: seq<string>)
    ensures |r| == |episodes| && forall i :: 0 <= i < |r| ==> r[i] == episodes[i].scenario
  {
    seq(|episodes|, i requires 0 <= i < |episodes| => episodes[i].scenario)
  }

  /** Eligible, ineligible, undetermined and missing count every scheduled id once. */
  lemma {:induction false} CountsAreConserved(episodes: seq<Measured>, scheduled: seq<string>)
    requires Distinct(scheduled) && Subsequence(Observed(episodes), scheduled)
    ensures |WithStatus(episodes, M.Eligible)| + |WithStatus(episodes, M.Ineligible)|
            + |WithStatus(episodes, M.Undetermined)| + |Absent(scheduled, Observed(episodes))| == |scheduled|
  {
    var observed := Observed(episodes);
    StatusesPartition(episodes);
    AcceptedIffSubsequence(observed, scheduled);
    InOrderDistinct(observed, scheduled);
    AbsentCount(scheduled, observed);
  }

  lemma {:induction false} StatusesPartition(episodes: seq<Measured>)
    ensures |WithStatus(episodes, M.Eligible)| + |WithStatus(episodes, M.Ineligible)|
            + |WithStatus(episodes, M.Undetermined)| == |episodes|
  {
    if episodes != [] { StatusesPartition(episodes[..|episodes| - 1]); }
  }

  predicate Blocked(episodes: seq<Measured>, missing: seq<string>) {
    || missing != []
    || exists i :: 0 <= i < |episodes| &&
         (episodes[i].ep.admission == M.Undetermined || Awaiting(episodes[i])
          || (episodes[i].ep.admission == M.Ineligible && Attempted(episodes[i])))
  }

  /** An episode that keeps every metric back: undecided eligibility, classified as pending, or not
      eligible although something was attempted in it. */
  ghost predicate Hinders(m: Measured) {
    || m.ep.admission == M.Undetermined
    || M.Classify(m.ep, m.a1) == M.EligiblePending || M.Classify(m.ep, m.a1) == M.NotEligiblePending
    || (m.ep.admission == M.Ineligible && exists e :: e in m.ep.events && TellsAttempt(M.Name(e)))
  }

  predicate TellsAttempt(name: string) {
    name in {"action_result", "diagnosis_output", "model_failure", "policy_output", "step_failure"}
  }

  ghost predicate Unhindered(episodes: seq<Measured>, missing: seq<string>) {
    missing == [] && forall m :: m in episodes ==> !Hinders(m)
  }

  lemma AttemptedIsSeen(m: Measured)
    ensures Attempted(m) <==> exists e :: e in m.ep.events && TellsAttempt(M.Name(e))
  {
    if e :| e in m.ep.events && TellsAttempt(M.Name(e)) {
      var i :| 0 <= i < |m.ep.events| && m.ep.events[i] == e;
    }
  }

  lemma BlockedIff(episodes: seq<Measured>, missing: seq<string>)
    ensures Blocked(episodes, missing) <==> !Unhindered(episodes, missing)
  {
    forall m | m in episodes ensures Hinders(m) <==>
      m.ep.admission == M.Undetermined || Awaiting(m) || (m.ep.admission == M.Ineligible && Attempted(m))
    {
      MA.PendingRecomputed(m.ep.events);
      AttemptedIsSeen(m);
    }
  }

  datatype Metric = ResolutionRate | RewardMean

  function MetricValue(m: Measured, metric: Metric): Option<real> {
    match metric
    case ResolutionRate => if m.a1.value.Some? then Some(m.a1.value.value as real) else None
    case RewardMean => m.score.value
  }

  function Sum(xs: seq<real>): real {
    if xs == [] then 0.0 else Sum(xs[..|xs| - 1]) + Last(xs)
  }

  /** The values of the metric, when every episode has one. */
  function Values(episodes: seq<Measured>, metric: Metric): Option<seq<real>> {
    if episodes == [] then Some([])
    else
      var before := Values(episodes[..|episodes| - 1], metric);
      var value := MetricValue(Last(episodes), metric);
      if before.None? || value.None? then None else Some(before.value + [value.value])
  }

  /** The loop over the eligible episodes. */
  method CollectValues(episodes: seq<Measured>, metric: Metric) returns (r: Option<seq<real>>)
    ensures r == Values(episodes, metric)
  {
    var values: seq<real> := [];
    var unknown := 0;
    var i := 0;
    while i < |episodes|
      invariant 0 <= i <= |episodes| && unknown >= 0
      invariant Values(episodes[..i], metric) == if unknown == 0 then Some(values) else None
    {
      assert episodes[..i + 1][..i] == episodes[..i];
      var v := MetricValue(episodes[i], metric);
      if v.None? {
        unknown := unknown + 1;
      } else {
        values := values + [v.value];
      }
      i := i + 1;
    }
    assert episodes[..i] == episodes;
    r := if unknown == 0 then Some(values) else None;
  }

  /** The value reported for a population metric: null when anything blocks it. */
  function Reported(episodes: seq<Measured>, missing: seq<string>, metric: Metric): Option<real> {
    var eligible := WithStatus(episodes, M.Eligible);
    if Blocked(episodes, missing) || eligible == [] || Values(eligible, metric).None? then None
    else Some(Sum(Values(eligible, metric).value) / |eligible| as real)
  }

  /** One population metric of `_summarize_episodes`. */
  method Summarize(episodes: seq<Measured>, missing: seq<string>, metric: Metric) returns (value: Option<real>)
    ensures value == Reported(episodes, missing, metric)
  {
    var eligible := WithStatus(episodes, M.Eligible);
    var values := CollectValues(eligible, metric);
    if Blocked(episodes, missing) || values.None? || eligible == [] {
      return None;
    }
    value := Some(Sum(values.value) / |eligible| as real);
  }

  function Count(episodes: seq<Measured>, value: int): nat {
    if episodes == [] then 0
    else Count(episodes[..|episodes| - 1], value) + if Last(episodes).a1.value == Some(value) then 1 else 0
  }

  /** Resolution is 0 or 1, so every episode has a value exactly when the two counts cover them all. */
  lemma {:induction false} SumCounts(episodes: seq<Measured>)
    requires forall m :: m in episodes ==> ZeroOrOne(m.a1.value)
    ensures Count(episodes, 1) + Count(episodes, 0) <= |episodes|
    ensures Values(episodes, ResolutionRate).Some? <==> Count(episodes, 1) + Count(episodes, 0) == |episodes|
    ensures Values(episodes, ResolutionRate).Some? ==>
              Sum(Values(episodes, ResolutionRate).value) == Count(episodes, 1) as real
  {
    if episodes != [] {
      var before := episodes[..|episodes| - 1];
      SumCounts(before);
      assert ZeroOrOne(Last(episodes).a1.value);
      if Values(episodes, ResolutionRate).Some? {
        var values := Values(episodes, ResolutionRate).value;
        assert values[..|values| - 1] == Values(before, ResolutionRate).value;
      }
    }
  }

  predicate ZeroOrOne(value: Option<int>) {
    value.Some? ==> value.value == 0 || value.value == 1
  }

  lemma GenuineIsZeroOrOne(m: Measured)
    requires Genuine(m)
    ensures ZeroOrOne(m.a1.value)
  {
  }

  /** The resolution rate is reported exactly when nothing blocks it and the eligible episodes, of
      which there are some, are all classified as recovered or negative. It is then the recovered
      ones over the eligible ones, in 0 to 1; nothing scheduled is missing or undetermined. */
  lemma ResolutionRateIsRecovered(episodes: seq<Measured>, missing: seq<string>)
    requires forall m :: m in episodes ==> Genuine(m)
    ensures var eligible := WithStatus(episodes, M.Eligible);
      var rate := Reported(episodes, missing, ResolutionRate);
      && (rate.Some? <==>
          && Unhindered(episodes, missing) && eligible != []
          && Outcomes(eligible, M.Recovered) + Outcomes(eligible, M.Negative) == |eligible|)
      && (rate.Some? ==>
          && rate.value == Outcomes(eligible, M.Recovered) as real / |eligible| as real && 0.0 <= rate.value <= 1.0
          && |eligible| == |episodes| - |WithStatus(episodes, M.Ineligible)|
          && missing == [] && WithStatus(episodes, M.Undetermined) == [])
  {
    var eligible := WithStatus(episodes, M.Eligible);
    BlockedIff(episodes, missing);
    if !Blocked(episodes, missing) && eligible != [] {
      forall m | m in eligible ensures ZeroOrOne(m.a1.value) && !Awaiting(m) {
        GenuineIsZeroOrOne(m);
        var i :| 0 <= i < |episodes| && episodes[i] == m;
      }
      SumCounts(eligible);
      OutcomesAreCounts(eligible);
      NoneUndetermined(episodes, missing);
      StatusesPartition(episodes);
      RateRange(Count(eligible, 1), |eligible|);
    }
  }

  // ---- the mean reward ----

  /** The scores of the episodes, added up. */
  function TotalScore(episodes: seq<Measured>): real {
    if episodes == [] then 0.0
    else TotalScore(episodes[..|episodes| - 1]) + (match Last(episodes).score.value case Some(x) => x case None => 0.0)
  }

  /** The score was given by the measurement to an episode that it accepted. */
  ghost predicate ScoreGenuine(m: Measured, text: string -> bool, required: set<string>) {
    && required != {} && m.score == M.ScoreEpisode(m.ep, required)
    && exists events, scenario :: M.Parse(text, events, scenario, required) == Some(m.ep)
  }

  lemma ScoreInRange(m: Measured, text: string -> bool, required: set<string>)
    requires ScoreGenuine(m, text, required) && m.score.value.Some?
    ensures -0.25 <= m.score.value.value <= 1.0
  {
    var events, scenario :| M.Parse(text, events, scenario, required) == Some(m.ep);
    MA.ScoreShape(text, events, scenario, required);
  }

  lemma {:induction false} SumIsTotal(episodes: seq<Measured>)
    ensures Values(episodes, RewardMean).Some? <==> forall m :: m in episodes ==> m.score.value.Some?
    ensures Values(episodes, RewardMean).Some? ==>
      |Values(episodes, RewardMean).value| == |episodes| && Sum(Values(episodes, RewardMean).value) == TotalScore(episodes)
  {
    if episodes != [] {
      var init := episodes[..|episodes| - 1];
      assert episodes == init + [Last(episodes)];
      SumIsTotal(init);
      if Values(episodes, RewardMean).Some? {
        var values := Values(episodes, RewardMean).value;
        assert values[..|values| - 1] == Values(init, RewardMean).value;
      }
    }
  }

  lemma {:induction false} TotalInRange(episodes: seq<Measured>)
    requires forall m :: m in episodes ==> m.score.value.Some? && -0.25 <= m.score.value.value <= 1.0
    ensures -0.25 * |episodes| as real <= TotalScore(episodes) <= |episodes| as real
  {
    if episodes != [] {
      TotalInRange(episodes[..|episodes| - 1]);
      assert Last(episodes) in episodes;
    }
  }

  lemma MeanInRange(total: real, n: nat)
    requires n > 0 && -0.25 * n as real <= total <= n as real
    ensures -0.25 <= total / n as real <= 1.0
  {
  }

  /** The reward is reported exactly when nothing blocks it and every eligible episode, of which there
      are some, has a score; it is then their mean, between minus a quarter and one. */
  lemma RewardIsMeanScore(episodes: seq<Measured>, missing: seq<string>, text: string -> bool, required: set<string>)
    requires forall m :: m in episodes ==> ScoreGenuine(m, text, required)
    ensures var eligible := WithStatus(episodes, M.Eligible); var reward := Reported(episodes, missing, RewardMean);
      && (reward.Some? <==>
            Unhindered(episodes, missing) && eligible != [] && forall m :: m in eligible ==> m.score.value.Some?)
      && (reward.Some? ==> reward.value == TotalScore(eligible) / |eligible| as real && -0.25 <= reward.value <= 1.0)
  {
    var eligible := WithStatus(episodes, M.Eligible);
    SumIsTotal(eligible);
    BlockedIff(episodes, missing);
    if Reported(episodes, missing, RewardMean).Some? {
      forall m | m in eligible ensures -0.25 <= m.score.value.value <= 1.0 { ScoreInRange(m, text, required); }
      TotalInRange(eligible);
      MeanInRange(TotalScore(eligible), |eligible|);
    }
  }

  function Outcomes(episodes: seq<Measured>, outcome: M.Outcome): nat {
    if episodes == [] then 0
    else Outcomes(episodes[..|episodes| - 1], outcome)
         + if M.Classify(Last(episodes).ep, Last(episodes).a1) == outcome then 1 else 0
  }

  lemma {:induction false} OutcomesAreCounts(episodes: seq<Measured>)
    requires forall m :: m in episodes ==> m.ep.admission == M.Eligible && !Awaiting(m)
    ensures Outcomes(episodes, M.Recovered) == Count(episodes, 1) && Outcomes(episodes, M.Negative) == Count(episodes, 0)
  {
    if episodes != [] {
      OutcomesAreCounts(episodes[..|episodes| - 1]);
      assert Last(episodes) in episodes;
      NotPending(Last(episodes));
    }
  }

  lemma NotPending(m: Measured)
    requires !Awaiting(m)
    ensures !M.Any(m.ep.events, M.INFRASTRUCTURE + {"episode_unscorable"})
    ensures !(M.Any(m.ep.events, {"episode_failed"}) && !M.Any(m.ep.events, M.MODEL_FAILURE))
  {
  }

  lemma NoneUndetermined(episodes: seq<Measured>, missing: seq<string>)
    requires !Blocked(episodes, missing)
    ensures WithStatus(episodes, M.Undetermined) == []
  {
  }

  lemma RateRange(part: nat, all: nat)
    requires 0 < all && part <= all
    ensures 0.0 <= part as real / all as real <= 1.0
  {
  }
}
