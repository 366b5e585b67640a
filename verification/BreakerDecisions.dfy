/** When the circuit breaker lets something through (agents/circuit_breaker.py:38-86): its answers told
    from the events alone, without the breaker's counters. */
module BreakerDecisions {
  import opened Basics
  import opened CircuitBreaker

  // ---- what the events say ----

  /** An unresolved finish for a reason that is not a decision made by design. */
  predicate Failure(e: Event) {
    e.FinishIncident? && !e.resolved
    && e.reason !in {"approval_rejected", "approval_timeout", "manual_runbook", "partial_resolution", "escalation"}
  }

  /** The failures since the last resolution. */
  function Streak(events: seq<Event>): nat {
    if events == [] then 0
    else
      var before, e := Streak(events[..|events| - 1]), Last(events);
      if e.FinishIncident? && e.resolved then 0 else if Failure(e) then before + 1 else before
  }

  /** The breaker was paused, or a failure brought the streak to the threshold. */
  predicate Open(l: Limits, events: seq<Event>) {
    events != []
    && (Open(l, events[..|events| - 1]) || Last(events).Pause? || (Failure(Last(events)) && Streak(events) >= l.threshold))
  }

  predicate Reads(e: Event) {
    e.CheckToolCall? || e.Status? || e.Pause?
  }

  /** The start of the current window: each reading an hour or more after the last start begins a new one. */
  function WindowStart(t0: real, events: seq<Event>): real {
    if events == [] then t0
    else
      var before, e := WindowStart(t0, events[..|events| - 1]), Last(events);
      if Reads(e) && e.first - before >= HOUR then e.second else before
  }

  /** The incident's tool calls since it last finished that found the breaker closed and the limit not
      yet reached. */
  ghost function Charges(l: Limits, events: seq<Event>, incident: string): nat {
    if events == [] then 0
    else
      var init, e := events[..|events| - 1], Last(events);
      var before := Charges(l, init, incident);
      if e.FinishIncident? && e.incident == incident then 0
      else if e.CheckToolCall? && e.incident == incident && !Open(l, init) && before < l.toolCalls then before + 1
      else before
  }

  /** The mutating calls that passed in the current window. */
  ghost function Used(l: Limits, t0: real, events: seq<Event>): nat
    decreases |events|, 0
  {
    if events == [] then 0
    else
      var init, e := events[..|events| - 1], Last(events);
      var before := if Reads(e) then UsedAt(l, t0, init, e.first) else Used(l, t0, init);
      if e.CheckToolCall? && e.mutates && Passes(l, t0, init, e.incident, true, e.first) then before + 1 else before
  }

  /** The same at a reading that may begin a new window. */
  ghost function UsedAt(l: Limits, t0: real, events: seq<Event>, now: real): nat
    decreases |events|, 1
  {
    if now - WindowStart(t0, events) >= HOUR then 0 else Used(l, t0, events)
  }

  /** A call passes when the breaker is closed, the incident has calls left, and a mutating call finds
      quota left in its window. */
  ghost predicate Passes(l: Limits, t0: real, events: seq<Event>, incident: string, mutates: bool, now: real)
    decreases |events|, 2
  {
    && !Open(l, events) && Charges(l, events, incident) < l.toolCalls
    && (mutates ==> UsedAt(l, t0, events, now) < l.mutating)
  }

  /** The incidents that were let in and have not finished; finishing more often has no effect. */
  ghost function Active(l: Limits, events: seq<Event>): nat {
    if events == [] then 0
    else
      var init, e := events[..|events| - 1], Last(events);
      var before := Active(l, init);
      if e.FinishIncident? then (if before > 0 then before - 1 else 0)
      else if e.StartIncident? && !Open(l, init) && before < l.concurrent then before + 1
      else before
  }

  // ---- the counters agree ----

  ghost predicate Agrees(l: Limits, t0: real, events: seq<Event>, b: Breaker) {
    && (b.tripped <==> Open(l, events)) && b.failures == Streak(events) && b.windowStart == WindowStart(t0, events)
    && b.mutating == Used(l, t0, events) && b.active == Active(l, events)
    && forall i :: Counted(b, i) == Charges(l, events, i)
  }

  lemma CheckReply(l: Limits, t0: real, events: seq<Event>, b: Breaker, incident: string, mutates: bool, first: real, second: real)
    requires b.starts != [] && Agrees(l, t0, events, b)
    ensures CheckStep(l, b, incident, mutates, first, second).1 ==
      if Open(l, events) then Raised("open")
      else if Charges(l, events, incident) >= l.toolCalls then Raised("tool calls")
      else if !Passes(l, t0, events, incident, mutates, first) then Raised("hourly") else Passed
  {
  }

  lemma OpenAgrees(l: Limits, events: seq<Event>, b: Breaker, e: Event)
    requires b.starts != [] && (b.tripped <==> Open(l, events)) && b.failures == Streak(events)
    ensures var b' := StepReply(l, b, e).0; (b'.tripped <==> Open(l, events + [e])) && b'.failures == Streak(events + [e])
  {
    assert (events + [e])[..|events|] == events;
  }

  lemma CheckCharges(l: Limits, t0: real, events: seq<Event>, b: Breaker, incident: string, mutates: bool, first: real, second: real)
    requires b.starts != [] && Agrees(l, t0, events, b)
    ensures var e := CheckToolCall(incident, mutates, first, second); var b' := StepReply(l, b, e).0;
      forall i :: Counted(b', i) == Charges(l, events + [e], i)
  {
    assert (events + [CheckToolCall(incident, mutates, first, second)])[..|events|] == events;
  }

  lemma CheckWindow(l: Limits, t0: real, events: seq<Event>, b: Breaker, incident: string, mutates: bool, first: real, second: real)
    requires b.starts != [] && Agrees(l, t0, events, b)
    ensures var e := CheckToolCall(incident, mutates, first, second); var b' := StepReply(l, b, e).0;
      && b'.windowStart == WindowStart(t0, events + [e]) && b'.mutating == Used(l, t0, events + [e])
      && b'.active == Active(l, events + [e])
  {
    assert (events + [CheckToolCall(incident, mutates, first, second)])[..|events|] == events;
  }

  lemma OtherAgrees(l: Limits, t0: real, events: seq<Event>, b: Breaker, e: Event)
    requires b.starts != [] && Agrees(l, t0, events, b) && !e.CheckToolCall?
    ensures var b' := StepReply(l, b, e).0;
      && b'.windowStart == WindowStart(t0, events + [e]) && b'.mutating == Used(l, t0, events + [e])
      && b'.active == Active(l, events + [e]) && forall i :: Counted(b', i) == Charges(l, events + [e], i)
  {
    assert (events + [e])[..|events|] == events;
  }

  lemma {:induction false} RunAgrees(l: Limits, t0: real, events: seq<Event>)
    ensures Agrees(l, t0, events, Run(l, t0, events))
  {
    if events != [] {
      var init, e := events[..|events| - 1], Last(events);
      assert events == init + [e];
      RunAgrees(l, t0, init);
      OpenAgrees(l, init, Run(l, t0, init), e);
      if e.CheckToolCall? {
        CheckCharges(l, t0, init, Run(l, t0, init), e.incident, e.mutates, e.first, e.second);
        CheckWindow(l, t0, init, Run(l, t0, init), e.incident, e.mutates, e.first, e.second);
      } else {
        OtherAgrees(l, t0, init, Run(l, t0, init), e);
      }
    }
  }

  // ---- main results ----

  /** After any events, and whatever the clock does: a tool call is answered by the first of the three
      rules that it breaks, and passes if and only if it breaks none. */
  lemma CallAnswered(l: Limits, t0: real, events: seq<Event>, incident: string, mutates: bool, first: real, second: real)
    ensures StepReply(l, Run(l, t0, events), CheckToolCall(incident, mutates, first, second)).1 ==
      if Open(l, events) then Raised("open")
      else if Charges(l, events, incident) >= l.toolCalls then Raised("tool calls")
      else if mutates && UsedAt(l, t0, events, first) >= l.mutating then Raised("hourly")
      else Passed
  {
    RunAgrees(l, t0, events);
    CheckReply(l, t0, events, Run(l, t0, events), incident, mutates, first, second);
  }

  /** An incident is let in if and only if the breaker is closed and fewer than the limit are active. */
  lemma StartAnswered(l: Limits, t0: real, events: seq<Event>)
    ensures StepReply(l, Run(l, t0, events), StartIncident).1 ==
      if Open(l, events) then Raised("open")
      else if Active(l, events) >= l.concurrent then Raised("concurrent")
      else Passed
  {
    RunAgrees(l, t0, events);
  }
}
