/** The circuit breaker of agents/circuit_breaker.py. Each event carries the clock readings it may
    make: the rolling window reads the clock once to compare and once more when it rolls. */
module CircuitBreaker {
  import opened Basics

  const HOUR: real := 3600.0

  const DESIGNED_OUTCOMES: set<string> :=
    {"approval_rejected", "approval_timeout", "manual_runbook", "partial_resolution", "escalation"}

  datatype Limits = Limits(toolCalls: int, mutating: int, concurrent: int, threshold: int)

  datatype Outcome = Resolved | Designed | Failed

  /** An accepted mutating call: its latest clock reading and the window it was counted in. */
  datatype Call = Call(at: real, window: nat)

  datatype Breaker = Breaker(
    toolCalls: map<string, int>, mutating: int, active: int, failures: int, tripped: bool, windowStart: real,
    // histories: last clock reading, window starts, accepted mutating calls, outcomes, pauses
    clock: real, starts: seq<real>, calls: seq<Call>, outcomes: seq<Outcome>, paused: bool)

  datatype Event =
    | StartIncident
    | FinishIncident(incident: string, resolved: bool, reason: string)
    | CheckToolCall(incident: string, mutates: bool, first: real, second: real)
    | Status(first: real, second: real)
    | Pause(first: real, second: real)

  datatype Reply = Passed | Raised(error: string)

  function Initial(now: real): Breaker {
    Breaker(map[], 0, 0, 0, false, now, now, [now], [], [], false)
  }

  // ---- the steps ----

  function Roll(b: Breaker, first: real, second: real): Breaker {
    if first - b.windowStart >= HOUR
    then b.(windowStart := second, mutating := 0, clock := second, starts := b.starts + [second])
    else b.(clock := first)
  }

  function Counted(b: Breaker, incident: string): (n: int) {
    if incident in b.toolCalls then b.toolCalls[incident] else 0
  }

  function OutcomeOf(resolved: bool, reason: string): Outcome {
    if resolved then Resolved else if reason in DESIGNED_OUTCOMES then Designed else Failed
  }

  function StartStep(l: Limits, b: Breaker): (Breaker, Reply) {
    if b.tripped then (b, Raised("open"))
    else if b.active >= l.concurrent then (b, Raised("concurrent"))
    else (b.(active := b.active + 1), Passed)
  }

  function FinishStep(l: Limits, b: Breaker, incident: string, resolved: bool, reason: string): Breaker {
    var outcome := OutcomeOf(resolved, reason);
    var c := b.(active := if b.active > 0 then b.active - 1 else 0,
                toolCalls := b.toolCalls - {incident}, outcomes := b.outcomes + [outcome]);
    match outcome
    case Resolved => c.(failures := 0)
    case Designed => c
    case Failed => c.(failures := b.failures + 1, tripped := b.tripped || b.failures + 1 >= l.threshold)
  }

  function Accept(b: Breaker): Breaker
    requires b.starts != []
  {
    b.(mutating := b.mutating + 1, calls := b.calls + [Call(b.clock, |b.starts| - 1)])
  }

  function CheckStep(l: Limits, b: Breaker, incident: string, mutates: bool, first: real, second: real)
    : (Breaker, Reply)
    requires b.starts != []
  {
    var r := Roll(b, first, second);
    if r.tripped then (r, Raised("open"))
    else if Counted(r, incident) >= l.toolCalls then (r, Raised("tool calls"))
    else
      var c := r.(toolCalls := r.toolCalls[incident := Counted(r, incident) + 1]);
      if !mutates then (c, Passed)
      else if c.mutating >= l.mutating then (c, Raised("hourly"))
      else (Accept(c), Passed)
  }

  function StepReply(l: Limits, b: Breaker, e: Event): (Breaker, Reply)
    requires b.starts != []
  {
    match e
    case StartIncident => StartStep(l, b)
    case FinishIncident(incident, resolved, reason) => (FinishStep(l, b, incident, resolved, reason), Passed)
    case CheckToolCall(incident, mutates, first, second) => CheckStep(l, b, incident, mutates, first, second)
    case Status(first, second) => (Roll(b, first, second), Passed)
    case Pause(first, second) => (Roll(b.(tripped := true, paused := true), first, second), Passed)
  }

  function Run(l: Limits, t0: real, events: seq<Event>): (b: Breaker)
    ensures b.starts != []
  {
    if events == [] then Initial(t0)
    else StepReply(l, Run(l, t0, events[..|events| - 1]), Last(events)).0
  }

  /** The readings of `e` do not go back behind those made before. */
  predicate InOrder(b: Breaker, e: Event) {
    e.CheckToolCall? || e.Status? || e.Pause? ==> b.clock <= e.first <= e.second
  }

  predicate SteadyClock(l: Limits, t0: real, events: seq<Event>) {
    events != [] ==>
      && SteadyClock(l, t0, events[..|events| - 1])
      && InOrder(Run(l, t0, events[..|events| - 1]), Last(events))
  }

  // ---- what every step keeps ----

  function AtLeast(n: int, low: int): int {
    if n < low then low else n
  }

  function InWindow(calls: seq<Call>, k: nat): nat {
    if calls == [] then 0
    else InWindow(calls[..|calls| - 1], k) + if Last(calls).window == k then 1 else 0
  }

  ghost predicate WindowsOk(t0: real, b: Breaker) {
    && b.starts != [] && b.starts[0] == t0 && Last(b.starts) == b.windowStart <= b.clock
    && forall j, k :: 0 <= j < k < |b.starts| ==> b.starts[j] + (k - j) as real * HOUR <= b.starts[k]
  }

  ghost predicate CallOk(b: Breaker, c: Call) {
    c.window < |b.starts| && b.starts[c.window] <= c.at < b.starts[c.window] + HOUR
  }

  ghost predicate QuotaOk(l: Limits, b: Breaker) {
    && (forall k: nat :: InWindow(b.calls, k) <= AtLeast(l.mutating, 0))
    && b.starts != [] && b.mutating == InWindow(b.calls, |b.starts| - 1)
  }

  ghost predicate Inv(l: Limits, t0: real, b: Breaker) {
    && WindowsOk(t0, b) && QuotaOk(l, b)
    && forall i :: 0 <= i < |b.calls| ==> CallOk(b, b.calls[i])
  }

  lemma {:induction false} FreshWindowIsEmpty(calls: seq<Call>, n: nat)
    requires forall i :: 0 <= i < |calls| ==> calls[i].window < n
    ensures InWindow(calls, n) == 0
  {
    if calls != [] { FreshWindowIsEmpty(calls[..|calls| - 1], n); }
  }

  lemma InWindowSnoc(calls: seq<Call>, c: Call, k: nat)
    ensures InWindow(calls + [c], k) == InWindow(calls, k) + if c.window == k then 1 else 0
  {
  }

  /** A new window starts at least an hour after the last one. */
  lemma NewWindowOk(t0: real, b: Breaker, first: real, second: real)
    requires WindowsOk(t0, b) && b.clock <= first <= second && first - b.windowStart >= HOUR
    ensures WindowsOk(t0, Roll(b, first, second))
  {
    var r := Roll(b, first, second);
    forall j, k | 0 <= j < k < |r.starts| ensures r.starts[j] + (k - j) as real * HOUR <= r.starts[k] {
      var last := |b.starts| - 1;
      if k == |b.starts| && j < last {
        assert b.starts[j] + (last - j) as real * HOUR <= b.starts[last];
      }
    }
  }

  lemma RollInv(l: Limits, t0: real, b: Breaker, first: real, second: real)
    requires Inv(l, t0, b) && b.clock <= first <= second
    ensures Inv(l, t0, Roll(b, first, second))
    ensures var r := Roll(b, first, second); r.windowStart <= r.clock < r.windowStart + HOUR
  {
    var r := Roll(b, first, second);
    if first - b.windowStart >= HOUR {
      FreshWindowIsEmpty(b.calls, |b.starts|);
      NewWindowOk(t0, b, first, second);
      forall i | 0 <= i < |r.calls| ensures CallOk(r, r.calls[i]) { assert CallOk(b, b.calls[i]); }
    }
  }

  lemma AcceptInv(l: Limits, t0: real, b: Breaker)
    requires Inv(l, t0, b) && b.clock < b.windowStart + HOUR && b.mutating < l.mutating
    ensures Inv(l, t0, Accept(b))
  {
    var c := Call(b.clock, |b.starts| - 1);
    assert Accept(b).starts == b.starts && Accept(b).calls == b.calls + [c];
    forall k: nat ensures InWindow(b.calls + [c], k) == InWindow(b.calls, k) + if c.window == k then 1 else 0 {
      InWindowSnoc(b.calls, c, k);
    }
    forall i | 0 <= i < |b.calls| ensures CallOk(Accept(b), b.calls[i]) { assert CallOk(b, b.calls[i]); }
  }

  lemma CheckInv(l: Limits, t0: real, b: Breaker, incident: string, mutates: bool, first: real, second: real)
    requires Inv(l, t0, b) && b.clock <= first <= second
    ensures Inv(l, t0, CheckStep(l, b, incident, mutates, first, second).0)
  {
    var b' := CheckStep(l, b, incident, mutates, first, second).0;
    RollInv(l, t0, b, first, second);
    var r := Roll(b, first, second);
    var c := r.(toolCalls := r.toolCalls[incident := Counted(r, incident) + 1]);
    SameWindows(l, t0, r, c);
    if c.mutating < l.mutating {
      AcceptInv(l, t0, c);
    }
    assert b' == r || b' == c || (c.mutating < l.mutating && b' == Accept(c));
  }

  lemma SameWindows(l: Limits, t0: real, b: Breaker, c: Breaker)
    requires Inv(l, t0, b)
    requires (c.mutating, c.windowStart, c.clock, c.starts, c.calls) == (b.mutating, b.windowStart, b.clock, b.starts, b.calls)
    ensures Inv(l, t0, c)
  {
  }

  lemma StepInv(l: Limits, t0: real, b: Breaker, e: Event)
    requires Inv(l, t0, b) && InOrder(b, e)
    ensures Inv(l, t0, StepReply(l, b, e).0)
  {
    var b' := StepReply(l, b, e).0;
    match e {
      case CheckToolCall(incident, mutates, first, second) => CheckInv(l, t0, b, incident, mutates, first, second);
      case Status(first, second) => RollInv(l, t0, b, first, second);
      case Pause(first, second) =>
        SameWindows(l, t0, b, b.(tripped := true, paused := true));
        RollInv(l, t0, b.(tripped := true, paused := true), first, second);
      case _ => SameWindows(l, t0, b, b');
    }
  }

  lemma {:induction false} RunInv(l: Limits, t0: real, events: seq<Event>)
    requires SteadyClock(l, t0, events)
    ensures Inv(l, t0, Run(l, t0, events))
  {
    if events != [] {
      RunInv(l, t0, events[..|events| - 1]);
      StepInv(l, t0, Run(l, t0, events[..|events| - 1]), Last(events));
    }
  }

  // ---- the rate bound ----

  /** How many accepted mutating calls fall in the half-open interval from `low` to `high`. */
  function Accepted(calls: seq<Call>, low: real, high: real): nat {
    if calls == [] then 0
    else Accepted(calls[..|calls| - 1], low, high) + if low <= Last(calls).at < high then 1 else 0
  }

  /** The last window that starts no later than `at`, or window 0. */
  function WindowAt(starts: seq<real>, at: real): (k: nat)
    requires starts != []
    ensures k < |starts|
    ensures k == 0 || starts[k] <= at
    ensures forall m :: k < m < |starts| ==> at < starts[m]
  {
    if |starts| == 1 || Last(starts) <= at then |starts| - 1
    else WindowAt(starts[..|starts| - 1], at)
  }

  lemma {:induction false} AcceptedInTwoWindows(calls: seq<Call>, low: real, high: real, k: nat)
    requires forall i :: 0 <= i < |calls| && low <= calls[i].at < high ==> calls[i].window == k || calls[i].window == k + 1
    ensures Accepted(calls, low, high) <= InWindow(calls, k) + InWindow(calls, k + 1)
  {
    if calls != [] {
      assert Last(calls) == calls[|calls| - 1];
      AcceptedInTwoWindows(calls[..|calls| - 1], low, high, k);
    }
  }

  lemma WindowGap(t0: real, b: Breaker, j: nat, k: nat)
    requires WindowsOk(t0, b) && j < |b.starts| && k < |b.starts|
    ensures j < k ==> b.starts[j] + HOUR <= b.starts[j] + (k - j) as real * HOUR <= b.starts[k]
  {
  }

  lemma HourInTwoWindows(t0: real, b: Breaker, c: Call, from: real)
    requires WindowsOk(t0, b) && CallOk(b, c) && from <= c.at < from + HOUR
    ensures var k := WindowAt(b.starts, from); c.window == k || c.window == k + 1
  {
    var k := WindowAt(b.starts, from);
    WindowGap(t0, b, c.window, k);
    if k + 1 < |b.starts| { WindowGap(t0, b, k + 1, c.window); }
  }

  /** With a nondecreasing clock, at most twice the hourly limit is accepted in any hour. */
  lemma HourlyRateBound(l: Limits, t0: real, events: seq<Event>, from: real)
    requires SteadyClock(l, t0, events)
    ensures Accepted(Run(l, t0, events).calls, from, from + HOUR) <= 2 * AtLeast(l.mutating, 0)
  {
    RunInv(l, t0, events);
    HourWithinLimit(l, t0, Run(l, t0, events), from);
  }

  lemma HourWithinLimit(l: Limits, t0: real, b: Breaker, from: real)
    requires Inv(l, t0, b)
    ensures Accepted(b.calls, from, from + HOUR) <= 2 * AtLeast(l.mutating, 0)
  {
    var k := WindowAt(b.starts, from);
    forall i | 0 <= i < |b.calls| && from <= b.calls[i].at < from + HOUR
      ensures b.calls[i].window == k || b.calls[i].window == k + 1
    {
      HourInTwoWindows(t0, b, b.calls[i], from);
    }
    AcceptedInTwoWindows(b.calls, from, from + HOUR, k);
  }

  function AcceptedUpTo(calls: seq<Call>, at: real): nat {
    if calls == [] then 0 else AcceptedUpTo(calls[..|calls| - 1], at) + if Last(calls).at <= at then 1 else 0
  }

  function InWindowsBelow(calls: seq<Call>, n: nat): nat {
    if n == 0 then 0 else InWindowsBelow(calls, n - 1) + InWindow(calls, n - 1)
  }

  lemma {:induction false} WindowsBelowSnoc(calls: seq<Call>, c: Call, n: nat)
    ensures InWindowsBelow(calls + [c], n) == InWindowsBelow(calls, n) + if c.window < n then 1 else 0
  {
    if n > 0 {
      WindowsBelowSnoc(calls, c, n - 1);
      InWindowSnoc(calls, c, n - 1);
    }
  }

  lemma {:induction false} UpToInWindowsBelow(calls: seq<Call>, at: real, n: nat)
    requires forall i :: 0 <= i < |calls| && calls[i].at <= at ==> calls[i].window < n
    ensures AcceptedUpTo(calls, at) <= InWindowsBelow(calls, n)
  {
    if calls != [] {
      UpToInWindowsBelow(calls[..|calls| - 1], at, n);
      WindowsBelowSnoc(calls[..|calls| - 1], Last(calls), n);
      assert calls == calls[..|calls| - 1] + [Last(calls)];
    }
  }

  lemma {:induction false} WindowsBelowBound(l: Limits, b: Breaker, n: nat)
    requires QuotaOk(l, b)
    ensures InWindowsBelow(b.calls, n) <= AtLeast(l.mutating, 0) * n
  {
    if n > 0 {
      WindowsBelowBound(l, b, n - 1);
      var m := AtLeast(l.mutating, 0);
      assert InWindow(b.calls, n - 1) <= m;
      assert m * (n - 1) + m == m * n;
    }
  }

  /** Up to time `at`, at most the limit times the number of hours begun is accepted. */
  lemma TotalRateBound(l: Limits, t0: real, events: seq<Event>, at: real)
    requires SteadyClock(l, t0, events) && at >= t0
    ensures AcceptedUpTo(Run(l, t0, events).calls, at)
            <= AtLeast(l.mutating, 0) * (1 + ((at - t0) / HOUR).Floor)
  {
    RunInv(l, t0, events);
    var b := Run(l, t0, events);
    var n := 1 + ((at - t0) / HOUR).Floor;
    forall i | 0 <= i < |b.calls| && b.calls[i].at <= at ensures b.calls[i].window < n {
      var m := b.calls[i].window;
      assert CallOk(b, b.calls[i]);
      assert m > 0 ==> b.starts[0] + (m - 0) as real * HOUR <= b.starts[m];
      assert m as real * HOUR <= at - t0;
    }
    UpToInWindowsBelow(b.calls, at, n);
    WindowsBelowBound(l, b, n);
  }

  // ---- tripping ----

  function FailuresIn(outcomes: seq<Outcome>): nat {
    if outcomes == [] then 0
    else FailuresIn(outcomes[..|outcomes| - 1]) + if Last(outcomes) == Failed then 1 else 0
  }

  /** Outcomes `i` to `k` hold a threshold of counted failures and no resolution. */
  ghost predicate FailureRun(l: Limits, outcomes: seq<Outcome>, i: nat, k: nat) {
    i <= k <= |outcomes| && Resolved !in outcomes[i..k] && FailuresIn(outcomes[i..k]) >= AtLeast(l.threshold, 1)
  }

  ghost predicate HasFailureRun(l: Limits, outcomes: seq<Outcome>) {
    exists i: nat, k: nat :: FailureRun(l, outcomes, i, k)
  }

  /** `n` failures are counted since outcome `i`, the first after the last resolution. */
  ghost predicate Since(outcomes: seq<Outcome>, i: nat, n: int) {
    && i <= |outcomes| && n == FailuresIn(outcomes[i..])
    && Resolved !in outcomes[i..] && (i > 0 ==> outcomes[i - 1] == Resolved)
  }

  ghost predicate TripOk(l: Limits, b: Breaker) {
    && (exists i :: Since(b.outcomes, i, b.failures))
    && (b.tripped <==> b.paused || HasFailureRun(l, b.outcomes))
  }

  lemma SliceSnoc<T>(xs: seq<T>, x: T, i: nat)
    requires i <= |xs|
    ensures (xs + [x])[i..] == xs[i..] + [x] && (xs[i..] + [x])[..|xs| - i] == xs[i..]
  {
  }

  lemma {:induction false} FailuresSuffix(outcomes: seq<Outcome>, i: nat)
    requires i <= |outcomes|
    ensures FailuresIn(outcomes[i..]) <= FailuresIn(outcomes)
  {
    if i < |outcomes| {
      assert outcomes[i..][..|outcomes| - i - 1] == outcomes[..|outcomes| - 1][i..];
      FailuresSuffix(outcomes[..|outcomes| - 1], i);
    }
  }

  /** A run of `xs + [x]` is one of `xs` unless it ends at its last element. */
  lemma OldOrNewRun(l: Limits, xs: seq<Outcome>, x: Outcome, i: nat, k: nat)
    requires FailureRun(l, xs + [x], i, k)
    ensures k == |xs| + 1 || FailureRun(l, xs, i, k)
  {
    if k <= |xs| {
      assert (xs + [x])[i..k] == xs[i..k];
    }
  }

  lemma OldRunStays(l: Limits, xs: seq<Outcome>, x: Outcome)
    requires HasFailureRun(l, xs)
    ensures HasFailureRun(l, xs + [x])
  {
    var i: nat, k: nat :| FailureRun(l, xs, i, k);
    assert (xs + [x])[i..k] == xs[i..k];
    assert FailureRun(l, xs + [x], i, k);
  }

  /** Without a failure at its end, a run that ends at the last element is there before it. */
  lemma ShorterRun(l: Limits, xs: seq<Outcome>, x: Outcome, i: nat)
    requires x != Failed && FailureRun(l, xs + [x], i, |xs| + 1)
    ensures FailureRun(l, xs, i, |xs|)
  {
    var run := (xs + [x])[i..|xs| + 1];
    assert run != [];
    assert run == xs[i..] + [x];
    SliceSnoc(xs, x, i);
    assert xs[i..|xs|] == xs[i..];
    assert forall o :: o in xs[i..] ==> o in run;
  }

  /** A resolution or a designed outcome makes no new failure run. */
  lemma NoNewRun(l: Limits, xs: seq<Outcome>, x: Outcome)
    requires x != Failed && HasFailureRun(l, xs + [x])
    ensures HasFailureRun(l, xs)
  {
    var i: nat, k: nat :| FailureRun(l, xs + [x], i, k);
    OldOrNewRun(l, xs, x, i, k);
    if k == |xs| + 1 {
      ShorterRun(l, xs, x, i);
    }
  }

  /** After `n` failures since the last resolution, one more makes a run exactly when it reaches
      the threshold (or a run was there before). */
  lemma FailureMakesRun(l: Limits, xs: seq<Outcome>, i: nat, n: int)
    requires Since(xs, i, n)
    ensures HasFailureRun(l, xs + [Failed]) <==> HasFailureRun(l, xs) || n + 1 >= l.threshold
    ensures Since(xs + [Failed], i, n + 1)
  {
    SliceSnoc(xs, Failed, i);
    var ys := xs + [Failed];
    if n + 1 >= l.threshold {
      assert ys[i..|ys|] == ys[i..];
      assert FailureRun(l, ys, i, |ys|);
    }
    if HasFailureRun(l, xs) { OldRunStays(l, xs, Failed); }
    if HasFailureRun(l, ys) {
      var j: nat, k: nat :| FailureRun(l, ys, j, k);
      OldOrNewRun(l, xs, Failed, j, k);
      if k == |ys| {
        LastRunStartsLate(l, xs, i, n, j);
      }
    }
  }

  lemma SuffixHolds<T>(xs: seq<T>, j: nat)
    requires j <= |xs|
    ensures forall p :: j <= p < |xs| ==> xs[p] in xs[j..|xs|]
  {
  }

  lemma LastRunStartsLate(l: Limits, xs: seq<Outcome>, i: nat, n: int, j: nat)
    requires Since(xs, i, n) && FailureRun(l, xs + [Failed], j, |xs| + 1)
    ensures n + 1 >= l.threshold
  {
    var ys := xs + [Failed];
    SliceSnoc(xs, Failed, i);
    SuffixHolds(ys, j);
    assert i <= j && ys[j..|ys|] == ys[i..][j - i..];
    FailuresSuffix(ys[i..], j - i);
  }

  lemma FinishTripOk(l: Limits, b: Breaker, incident: string, resolved: bool, reason: string)
    requires TripOk(l, b)
    ensures TripOk(l, FinishStep(l, b, incident, resolved, reason))
  {
    var x := OutcomeOf(resolved, reason);
    var i: nat :| Since(b.outcomes, i, b.failures);
    OutcomeSince(l, b.outcomes, x, i, b.failures);
  }

  function Streak(n: int, x: Outcome): int {
    match x case Resolved => 0 case Designed => n case Failed => n + 1
  }

  /** How the failure counter, and the presence of a run, follow the next outcome. */
  lemma OutcomeSince(l: Limits, xs: seq<Outcome>, x: Outcome, i: nat, n: int)
    requires Since(xs, i, n)
    ensures exists j :: Since(xs + [x], j, Streak(n, x))
    ensures HasFailureRun(l, xs + [x]) <==> HasFailureRun(l, xs) || (x == Failed && n + 1 >= l.threshold)
  {
    match x {
      case Failed =>
        FailureMakesRun(l, xs, i, n);
        assert Since(xs + [x], i, Streak(n, x));
      case Resolved =>
        assert (xs + [x])[|xs| + 1..] == [];
        assert Since(xs + [x], |xs| + 1, Streak(n, x));
      case Designed =>
        SliceSnoc(xs, x, i);
        assert Since(xs + [x], i, Streak(n, x));
    }
    if x != Failed && HasFailureRun(l, xs + [x]) { NoNewRun(l, xs, x); }
    if HasFailureRun(l, xs) { OldRunStays(l, xs, x); }
  }

  lemma {:induction false} RunTripOk(l: Limits, t0: real, events: seq<Event>)
    ensures TripOk(l, Run(l, t0, events))
  {
    if events == [] {
      assert Since([], 0, 0);
    } else {
      RunTripOk(l, t0, events[..|events| - 1]);
      var b := Run(l, t0, events[..|events| - 1]);
      match Last(events) {
        case FinishIncident(incident, resolved, reason) => FinishTripOk(l, b, incident, resolved, reason);
        case _ =>
      }
    }
  }

  function OutcomesOf(e: Event): seq<Outcome> {
    if e.FinishIncident? then [OutcomeOf(e.resolved, e.reason)] else []
  }

  /** The outcomes an event list reports, and whether it pauses: read off without the breaker. */
  function Outcomes(events: seq<Event>): seq<Outcome> {
    if events == [] then []
    else Outcomes(events[..|events| - 1])
         + OutcomesOf(Last(events))
  }

  predicate Paused(events: seq<Event>) {
    exists k :: 0 <= k < |events| && events[k].Pause?
  }

  lemma StepHistories(l: Limits, b: Breaker, e: Event)
    requires b.starts != []
    ensures var b' := StepReply(l, b, e).0;
      b'.outcomes == b.outcomes + OutcomesOf(e) && b'.paused == (b.paused || e.Pause?)
  {
  }

  lemma {:induction false} HistoriesAreRecorded(l: Limits, t0: real, events: seq<Event>)
    ensures Run(l, t0, events).outcomes == Outcomes(events)
    ensures Run(l, t0, events).paused <==> Paused(events)
  {
    if events != [] {
      HistoriesAreRecorded(l, t0, events[..|events| - 1]);
      StepHistories(l, Run(l, t0, events[..|events| - 1]), Last(events));
      PausedSnoc(events[..|events| - 1], Last(events));
      assert events == events[..|events| - 1] + [Last(events)];
    }
  }

  lemma PausedSnoc(events: seq<Event>, e: Event)
    ensures Paused(events + [e]) <==> Paused(events) || e.Pause?
  {
    if Paused(events) {
      var k :| 0 <= k < |events| && events[k].Pause?;
      assert (events + [e])[k].Pause?;
    }
    assert (events + [e])[|events|] == e;
  }

  /** Without a reset, the breaker is open exactly when it was paused or a threshold run of
      counted failures happened with no resolution in between. */
  lemma TripsExactlyWhen(l: Limits, t0: real, events: seq<Event>)
    ensures Run(l, t0, events).tripped <==> Paused(events) || HasFailureRun(l, Outcomes(events))
  {
    RunTripOk(l, t0, events);
    HistoriesAreRecorded(l, t0, events);
  }

  /** Once open it stays open, and then starts no incident and lets no call through. */
  lemma {:induction false} OpenStaysOpen(l: Limits, t0: real, events: seq<Event>, more: seq<Event>)
    requires Run(l, t0, events).tripped
    ensures var b := Run(l, t0, events + more);
      && b.tripped && b.calls == Run(l, t0, events).calls
      && (forall e: Event :: e.StartIncident? || e.CheckToolCall? ==> StepReply(l, b, e).1.Raised?)
  {
    if more == [] {
      assert events + more == events;
    } else {
      OpenStaysOpen(l, t0, events, more[..|more| - 1]);
      assert (events + more)[..|events + more| - 1] == events + more[..|more| - 1];
    }
  }

  // ---- the per-incident tool-call count ----

  /** Tool calls of `incident` charged since it last finished: every call that gets past the open
      breaker and the per-incident limit, also when the hourly quota then refuses it. */
  function Charged(l: Limits, t0: real, events: seq<Event>, incident: string): int {
    if events == [] then 0
    else
      var init := events[..|events| - 1];
      var before := Charged(l, t0, init, incident);
      match Last(events)
      case FinishIncident(i, _, _) => if i == incident then 0 else before
      case CheckToolCall(i, _, _, _) =>
        var reply := StepReply(l, Run(l, t0, init), Last(events)).1;
        if i == incident && (reply == Passed || reply == Raised("hourly")) then before + 1 else before
      case _ => before
  }

  lemma StepCounted(l: Limits, b: Breaker, e: Event, incident: string)
    requires b.starts != []
    ensures Counted(StepReply(l, b, e).0, incident) ==
      match e
      case FinishIncident(i, _, _) => if i == incident then 0 else Counted(b, incident)
      case CheckToolCall(i, _, _, _) =>
        var reply := StepReply(l, b, e).1;
        if i == incident && (reply == Passed || reply == Raised("hourly"))
        then Counted(b, incident) + 1 else Counted(b, incident)
      case _ => Counted(b, incident)
    ensures Counted(b, incident) >= 0 ==>
      0 <= Counted(StepReply(l, b, e).0, incident) <= AtLeast(l.toolCalls, Counted(b, incident))
  {
  }

  lemma {:induction false} ToolCallsAreCharged(l: Limits, t0: real, events: seq<Event>, incident: string)
    ensures Counted(Run(l, t0, events), incident) == Charged(l, t0, events, incident)
    ensures 0 <= Charged(l, t0, events, incident) <= AtLeast(l.toolCalls, 0)
  {
    if events != [] {
      ToolCallsAreCharged(l, t0, events[..|events| - 1], incident);
      StepCounted(l, Run(l, t0, events[..|events| - 1]), Last(events), incident);
    }
  }

  /** The active count stays between zero and the concurrency limit. */
  lemma {:induction false} ActiveWithinLimit(l: Limits, t0: real, events: seq<Event>)
    ensures 0 <= Run(l, t0, events).active <= AtLeast(l.concurrent, 0)
  {
    if events != [] {
      ActiveWithinLimit(l, t0, events[..|events| - 1]);
    }
  }

  // ---- the breaker as an object ----

  /** Each method takes the breaker to the state and reply of the step it implements. */
  class CircuitBreaker {
    const limits: Limits
    var toolCalls: map<string, int>
    var mutating: int
    var active: int
    var failures: int
    var tripped: bool
    var windowStart: real
    ghost var clock: real
    ghost var starts: seq<real>
    ghost var calls: seq<Call>
    ghost var outcomes: seq<Outcome>
    ghost var paused: bool

    ghost function View(): Breaker
      reads this
    {
      Breaker(toolCalls, mutating, active, failures, tripped, windowStart, clock, starts, calls, outcomes, paused)
    }

    constructor (limits: Limits, now: real)
      ensures this.limits == limits && View() == Initial(now)
    {
      this.limits := limits;
      toolCalls, mutating, active, failures, tripped, windowStart := map[], 0, 0, 0, false, now;
      clock, starts, calls, outcomes, paused := now, [now], [], [], false;
    }

    method StartIncident() returns (reply: Reply)
      requires starts != []
      modifies this
      ensures (View(), reply) == StepReply(limits, old(View()), Event.StartIncident)
    {
      if tripped {
        return Raised("open");
      }
      if active >= limits.concurrent {
        return Raised("concurrent");
      }
      active := active + 1;
      reply := Passed;
    }

    method FinishIncident(incident: string, resolved: bool, reason: string)
      requires starts != []
      modifies this
      ensures View() == StepReply(limits, old(View()), Event.FinishIncident(incident, resolved, reason)).0
    {
      active := if active > 0 then active - 1 else 0;
      toolCalls := toolCalls - {incident};
      outcomes := outcomes + [OutcomeOf(resolved, reason)];
      if resolved {
        failures := 0;
        return;
      }
      if reason in DESIGNED_OUTCOMES {
        return;
      }
      failures := failures + 1;
      if failures >= limits.threshold {
        tripped := true;
      }
    }

    method CheckBeforeToolCall(incident: string, mutates: bool, first: real, second: real) returns (reply: Reply)
      requires starts != []
      modifies this
      ensures (View(), reply) == StepReply(limits, old(View()), CheckToolCall(incident, mutates, first, second))
    {
      RollWindow(first, second);
      if tripped {
        return Raised("open");
      }
      var count := if incident in toolCalls then toolCalls[incident] else 0;
      if count >= limits.toolCalls {
        return Raised("tool calls");
      }
      toolCalls := toolCalls[incident := count + 1];
      if mutates {
        if mutating >= limits.mutating {
          return Raised("hourly");
        }
        mutating := mutating + 1;
        calls := calls + [Call(clock, |starts| - 1)];
      }
      reply := Passed;
    }

    method Pause(first: real, second: real)
      requires starts != []
      modifies this
      ensures View() == StepReply(limits, old(View()), Event.Pause(first, second)).0
    {
      tripped := true;
      paused := true;
      RollWindow(first, second);
    }

    method RollWindow(first: real, second: real)
      requires starts != []
      modifies this`mutating, this`windowStart, this`clock, this`starts
      ensures View() == Roll(old(View()), first, second)
    {
      clock := first;
      if first - windowStart >= HOUR {
        windowStart := second;
        mutating := 0;
        clock := second;
        starts := starts + [second];
      }
    }
  }
}
