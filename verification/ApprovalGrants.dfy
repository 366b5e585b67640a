/** What the approval gate grants (agents/approval.py:187-293): every recorded approval leads its
    waiter to a permit, and the permit is good for one timely use on its own action. */
module ApprovalGrants {
  import opened Basics
  import opened Approval

  // ---- approvals, as the callbacks made them ----

  /** Event `k` of the run is a callback that approves request `t` in the operator's name, and is accepted. */
  ghost predicate ApprovedAt(timeout: real, events: seq<Event>, k: nat, t: Token, name: string) {
    && k < |events| && events[k].Callback? && events[k].token == t && events[k].verdict == Approve
    && events[k].approvedBy == name && StepReply(Run(timeout, events[..k]), events[k]).1 == Accepted
  }

  lemma StepApproves(g: Gate, e: Event, t: Token)
    ensures t in Step(g, e).approvals <==>
      t in g.approvals || (e.Callback? && e.token == t && e.verdict == Approve && StepReply(g, e).1 == Accepted)
    ensures t in Step(g, e).approvals && t !in g.approvals ==> Step(g, e).approvals[t].approvedBy == e.approvedBy
    ensures t in Step(g, e).approvals && (e.Callback? ==> e.token != t) && t in g.approvals ==>
      Step(g, e).approvals[t] == g.approvals[t]
  {
  }

  lemma ApprovedBefore(timeout: real, events: seq<Event>, e: Event, k: nat, t: Token, name: string)
    requires k < |events|
    ensures ApprovedAt(timeout, events + [e], k, t, name) <==> ApprovedAt(timeout, events, k, t, name)
  {
    assert (events + [e])[..k] == events[..k];
  }

  /** A recorded approval comes from an accepted callback, and names its operator. */
  lemma {:induction false} RecordedIsApproved(timeout: real, events: seq<Event>, t: Token) returns (k: nat)
    requires t in Run(timeout, events).approvals
    ensures ApprovedAt(timeout, events, k, t, Run(timeout, events).approvals[t].approvedBy)
  {
    var init, e := events[..|events| - 1], Last(events);
    assert events == init + [e];
    RunInv(timeout, init);
    StepInv(Run(timeout, init), e);
    StepApproves(Run(timeout, init), e, t);
    if t in Run(timeout, init).approvals {
      k := RecordedIsApproved(timeout, init, t);
      ApprovedBefore(timeout, init, e, k, t, Run(timeout, init).approvals[t].approvedBy);
    } else {
      k := |init|;
      assert events[..k] == init;
    }
  }

  /** Every accepted approval is recorded, for ever. */
  lemma ApprovedIsRecorded(timeout: real, events: seq<Event>, k: nat, t: Token, name: string)
    requires ApprovedAt(timeout, events, k, t, name)
    ensures t in Run(timeout, events).approvals
  {
    var before, after := events[..k + 1], events[k + 1..];
    assert before[..k] == events[..k] && events == before + after;
    StepApproves(Run(timeout, events[..k]), events[k], t);
    DecisionsAreFinal(timeout, before, after);
  }

  // ---- the permit ----

  /** A permit for exactly what was approved, stored under a new id. */
  ghost predicate GrantedFor(g: Gate, g': Gate, t: Token, p: Permit, now: real)
    requires t in g.requests && t in g.approvals
  {
    && p.id !in g.sources && p.id in g'.permits && g'.permits[p.id] == p
    && p.incident == g.requests[t].incident && Some(p.digest) == g.requests[t].digest && Some(p.expires) == g.requests[t].expires
    && p.approvedBy == g.approvals[t].approvedBy && p.issuedAt == now
  }

  /** The waiter of an action request, resuming. */
  ghost predicate Resumes(g: Gate, t: Token, how: Wake) {
    && t in g.requests && g.requests[t].waiter == Waiting && g.requests[t].digest.Some?
    && how != Cancelled && (how == Woken ==> g.requests[t].decision != Pending)
  }

  lemma GrantsApproved(g: Gate, t: Token, how: Wake, now: real)
    requires Inv(g) && Resumes(g, t, how)
    ensures var (g', reply) := EndWaitStep(g, t, how, now);
      && reply.Decided? && (reply.permit.Some? <==> t in g.approvals)
      && reply.decision == (if g.requests[t].decision == Pending then TimedOut else g.requests[t].decision)
      && (reply.permit.Some? ==> GrantedFor(g, g', t, reply.permit.value, now))
  {
    assert RequestOk(g, t, g.requests[t]);
    TokensBelow(g);
  }

  lemma TokensBelow(g: Gate)
    requires Inv(g)
    ensures forall t :: t in g.byToken ==> t < g.next
    ensures forall id :: id in g.sources ==> id < g.next
  {
    forall t | t in g.byToken ensures t < g.next { assert RequestOk(g, t, g.requests[t]); }
  }

  /** In every run: the waiter of an action request that resumes without being cancelled gets a permit
      if and only if a callback that approves the request was accepted before. The permit carries the
      request's incident, digest and time limit, and the name given by such a callback. */
  lemma PermitIffApproved(timeout: real, events: seq<Event>, t: Token, how: Wake, now: real)
    requires Resumes(Run(timeout, events), t, how)
    ensures var g := Run(timeout, events); var (g', reply) := EndWaitStep(g, t, how, now);
      && reply.Decided? && (reply.permit.Some? <==> exists k: nat, name :: ApprovedAt(timeout, events, k, t, name))
      && (reply.permit.Some? ==>
            && t in g.approvals && GrantedFor(g, g', t, reply.permit.value, now)
            && exists k: nat :: ApprovedAt(timeout, events, k, t, reply.permit.value.approvedBy))
  {
    RunInv(timeout, events);
    GrantsApproved(Run(timeout, events), t, how, now);
    if t in Run(timeout, events).approvals { var k := RecordedIsApproved(timeout, events, t); }
    if k: nat, name :| ApprovedAt(timeout, events, k, t, name) { ApprovedIsRecorded(timeout, events, k, t, name); }
  }

  /** A waiter that is over, for whatever reason, leaves its incident free for the next request. */
  lemma ResumedIsCleared(g: Gate, t: Token, how: Wake, now: real)
    requires t in g.requests && g.requests[t].waiter == Waiting && (how == Woken ==> g.requests[t].decision != Pending)
    ensures var (g', reply) := EndWaitStep(g, t, how, now); var i := g.requests[t].incident;
      && t in g'.requests && g'.requests[t].waiter == Over && t !in g'.byToken
      && (i in g'.byIncident ==> i in g.byIncident && g.byIncident[i] != t && g'.byIncident[i] == g.byIncident[i])
      && (how == Cancelled ==> reply == Refused("cancelled") && g'.permits == g.permits)
      && g'.requests[t].decision ==
           (if how == TimeRanOut && g.requests[t].decision == Pending then TimedOut else g.requests[t].decision)
  {
  }

  // ---- its use ----

  ghost predicate Stored(g: Gate, p: Permit) {
    p.id in g.permits && g.permits[p.id] == p
  }

  predicate AttemptsWith(e: Event, p: Permit) {
    e.Consume? && e.permit == Some(p)
  }

  lemma OthersKeepPermits(g: Gate, e: Event, p: Permit)
    requires Stored(g, p) && !e.EndWait? && !AttemptsWith(e, p)
    ensures Stored(Step(g, e), p)
  {
  }

  lemma EndWaitKeepsPermits(g: Gate, t: Token, how: Wake, now: real, p: Permit)
    requires Inv(g) && Stored(g, p)
    ensures Stored(EndWaitStep(g, t, how, now).0, p)
  {
    assert p.id in g.sources && p.id < g.next;
    if t in g.requests { IssuedShape(g, t, how, now); }
  }

  lemma SameTimeout(g: Gate, e: Event)
    ensures Step(g, e).timeout == g.timeout
  {
  }

  lemma {:induction false} RunTimeout(timeout: real, events: seq<Event>)
    ensures Run(timeout, events).timeout == timeout
  {
    if events != [] {
      RunTimeout(timeout, events[..|events| - 1]);
      SameTimeout(Run(timeout, events[..|events| - 1]), Last(events));
    }
  }

  lemma {:induction false} StaysStored(timeout: real, events: seq<Event>, p: Permit, more: seq<Event>)
    requires Stored(Run(timeout, events), p) && forall e :: e in more ==> !AttemptsWith(e, p)
    ensures Stored(Run(timeout, events + more), p)
  {
    if more == [] {
      assert events + more == events;
    } else {
      var init, e := events + more[..|more| - 1], Last(more);
      assert (events + more)[..|events + more| - 1] == init && Last(events + more) == e;
      StaysStored(timeout, events, p, more[..|more| - 1]);
      RunInv(timeout, init);
      if e.EndWait? {
        EndWaitKeepsPermits(Run(timeout, init), e.token, e.how, e.now, p);
      } else {
        OthersKeepPermits(Run(timeout, init), e, p);
      }
    }
  }

  /** The first attempt to consume a stored permit succeeds, whatever lies between, if and only if it is
      for the permit's own incident and digest, within the timeout and before the permit expires. */
  lemma FirstUseIff(timeout: real, events: seq<Event>, p: Permit, more: seq<Event>,
                    incident: string, digest: Digest, first: real, second: real)
    requires Stored(Run(timeout, events), p) && forall e :: e in more ==> !AttemptsWith(e, p)
    ensures ConsumeStep(Run(timeout, events + more), Some(p), incident, digest, first, second).1 == Allowed(
      incident == p.incident && digest == p.digest && 0.0 <= first - p.issuedAt <= timeout && second <= p.expires)
  {
    StaysStored(timeout, events, p, more);
    RunTimeout(timeout, events + more);
  }

  // ---- callbacks ----

  /** A pending request whose waiter is not over can still be decided. */
  ghost predicate Reachable(g: Gate) {
    forall t :: t in g.requests && g.requests[t].decision == Pending && g.requests[t].waiter != Over ==> t in g.byToken
  }

  lemma EndWaitReachable(g: Gate, t: Token, how: Wake, now: real)
    requires Reachable(g)
    ensures Reachable(EndWaitStep(g, t, how, now).0)
  {
  }

  lemma CallbackReachable(g: Gate, t: Token, verdict: Verdict, approvedBy: string, reason: string, digest: Option<Digest>, now: real)
    requires Reachable(g)
    ensures Reachable(CallbackStep(g, t, verdict, approvedBy, reason, digest, now).0)
  {
  }

  lemma StepReachable(g: Gate, e: Event)
    requires Reachable(g)
    ensures Reachable(Step(g, e))
  {
    match e {
      case EndWait(t, how, now) => EndWaitReachable(g, t, how, now);
      case Callback(t, verdict, approvedBy, reason, quoted, now) =>
        CallbackReachable(g, t, verdict, approvedBy, reason, quoted, now);
      case _ =>
    }
  }

  lemma {:induction false} RunReachable(timeout: real, events: seq<Event>)
    ensures Reachable(Run(timeout, events))
  {
    if events != [] {
      RunReachable(timeout, events[..|events| - 1]);
      StepReachable(Run(timeout, events[..|events| - 1]), Last(events));
    }
  }

  /** While a request is pending and its waiter not over, a callback decides it if and only if it is in
      time, quotes the digest (which only an action with a target must), says yes or no, and is signed;
      any other callback leaves the decision open, and one that is late times the request out. */
  lemma CallbackDecidesIff(timeout: real, events: seq<Event>, t: Token, verdict: Verdict, who: string, reason: string,
                           quoted: Option<Digest>, now: real)
    requires var g := Run(timeout, events);
      t in g.requests && g.requests[t].decision == Pending && g.requests[t].waiter != Over
    ensures var g := Run(timeout, events); var r := g.requests[t];
      var (g', reply) := CallbackStep(g, t, verdict, who, reason, quoted, now);
      var late := r.expires.Some? && now > r.expires.value;
      var quotes := quoted == r.digest || (quoted.None? && !r.targeted);
      && t in g'.requests && (reply == Accepted <==> !late && quotes && verdict != Unknown && who != "")
      && g'.requests[t].decision == (if late then TimedOut else if reply != Accepted then Pending
                                     else if verdict == Approve then Approved else Rejected)
      && (reply == Accepted ==> g'.requests[t].approvedBy == who)
  {
    RunReachable(timeout, events);
  }

  // ---- an approved action can run ----

  lemma RunSnoc(timeout: real, events: seq<Event>, e: Event)
    ensures Run(timeout, events + [e]) == Step(Run(timeout, events), e)
  {
    assert (events + [e])[..|events|] == events;
  }

  /** The steps of one approval, from the request to the permit. */
  function Approving(g: Gate, incident: string, digest: Digest, targeted: bool, who: string, reason: string,
                     asked: real, answered: real, resumed: real): seq<Event>
  {
    [RequestAction(incident, Ok(digest), targeted, true, asked), BeginWait(incident, g.next),
     Callback(g.next, Approve, who, reason, Some(digest), answered), EndWait(g.next, Woken, resumed)]
  }

  lemma RequestBegins(g: Gate, incident: string, digest: Digest, targeted: bool, asked: real)
    requires incident !in g.byIncident && g.next !in g.byToken
    ensures var t := g.next;
      var b := Step(Step(g, RequestAction(incident, Ok(digest), targeted, true, asked)), BeginWait(incident, t));
      && t in b.byToken && t in b.requests && b.timeout == g.timeout
      && b.requests[t] == Request(incident, Some(digest), targeted, Some(asked + g.timeout), Pending, "", "", Waiting)
  {
  }

  lemma ApprovalResumes(b: Gate, t: Token, who: string, reason: string, answered: real, resumed: real)
    requires t in b.byToken && t in b.requests && who != ""
    requires var r := b.requests[t]; r.decision == Pending && r.waiter == Waiting && r.digest.Some? && r.expires.Some? && answered <= r.expires.value
    ensures var r := b.requests[t];
      var d := Step(b, Callback(t, Approve, who, reason, r.digest, answered)); var reply := StepReply(d, EndWait(t, Woken, resumed)).1;
      && reply.Decided? && reply.decision == Approved && reply.permit.Some?
      && var p := reply.permit.value;
         && Stored(Step(d, EndWait(t, Woken, resumed)), p)
         && p == Permit(p.id, r.incident, r.digest.value, who, resumed, r.expires.value)
  {
  }

  /** In every reachable state, for any action of an incident with nothing pending, with a target or
      without: requested, awaited, approved in time by a named operator who quotes its digest, it gets
      a permit with which it is allowed once, within the timeout and the time limit. */
  lemma ApprovedActionIsAllowed(timeout: real, events: seq<Event>, incident: string, digest: Digest, targeted: bool,
                                who: string, reason: string, asked: real, answered: real, resumed: real, first: real, second: real)
    requires incident !in Run(timeout, events).byIncident && who != "" && answered <= asked + timeout
    requires 0.0 <= first - resumed <= timeout && second <= asked + timeout
    ensures var g := Run(timeout, events);
      var granted := Run(timeout, events + Approving(g, incident, digest, targeted, who, reason, asked, answered, resumed));
      exists p: Permit :: p.incident == incident && p.digest == digest && p.approvedBy == who
        && ConsumeStep(granted, Some(p), incident, digest, first, second).1 == Allowed(true)
  {
    var g := Run(timeout, events);
    RunInv(timeout, events);
    RunTimeout(timeout, events);
    TokensBelow(g);
    var es := Approving(g, incident, digest, targeted, who, reason, asked, answered, resumed);
    RunFour(timeout, events, es[0], es[1], es[2], es[3]);
    assert es == [es[0], es[1], es[2], es[3]];
    RequestBegins(g, incident, digest, targeted, asked);
    var b := Step(Step(g, es[0]), es[1]);
    ApprovalResumes(b, g.next, who, reason, answered, resumed);
    var p := StepReply(Step(b, es[2]), es[3]).1.permit.value;
    assert Stored(Run(timeout, events + es), p);
    FirstUseIff(timeout, events + es, p, [], incident, digest, first, second);
    assert events + es + [] == events + es;
  }

  lemma RunFour(timeout: real, events: seq<Event>, a: Event, b: Event, c: Event, d: Event)
    ensures Run(timeout, events + [a, b, c, d]) == Step(Step(Step(Step(Run(timeout, events), a), b), c), d)
  {
    RunSnoc(timeout, events, a);
    RunSnoc(timeout, events + [a], b);
    RunSnoc(timeout, events + [a] + [b], c);
    RunSnoc(timeout, events + [a] + [b] + [c], d);
    assert events + [a, b, c, d] == events + [a] + [b] + [c] + [d];
  }
}
