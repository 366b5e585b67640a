/** Which requests the approval gate takes and which waits it begins (agents/approval.py:95-195), told
    from the requests on record instead of the gate's indexes. */
module ApprovalRequests {
  import opened Basics
  import opened Approval

  /** Its waiter is over, or it ran out of time. */
  predicate Closed(r: Request) {
    r.waiter == Over || r.decision == TimedOut
  }

  /** The newest request of the incident. */
  ghost predicate Latest(g: Gate, incident: string, t: Token) {
    && t in g.requests && g.requests[t].incident == incident
    && forall u :: u in g.requests && g.requests[u].incident == incident ==> u <= t
  }

  /** The request that the incident waits on: its newest one, while that is not closed. */
  ghost predicate Awaited(g: Gate, incident: string, t: Token) {
    Latest(g, incident, t) && !Closed(g.requests[t])
  }

  predicate Indexed(g: Gate, incident: string, t: Token) {
    incident in g.byIncident && g.byIncident[incident] == t
  }

  /** The indexes say just that. */
  ghost predicate IndexesTell(g: Gate) {
    && (forall t :: t in g.requests ==> t < g.next)
    && (forall t :: t in g.byToken <==> t in g.requests && !Closed(g.requests[t]))
    && (forall i, t :: Indexed(g, i, t) <==> Awaited(g, i, t))
  }

  ghost predicate SameIncidents(g: Gate, g': Gate) {
    g'.requests.Keys == g.requests.Keys
    && forall t :: t in g.requests ==> g'.requests[t].incident == g.requests[t].incident
  }

  lemma LatestSame(g: Gate, g': Gate, incident: string, t: Token)
    requires SameIncidents(g, g')
    ensures Latest(g', incident, t) <==> Latest(g, incident, t)
  {
    if Latest(g', incident, t) {
      forall u | u in g.requests && g.requests[u].incident == incident ensures u <= t { assert u in g'.requests; }
    }
    if Latest(g, incident, t) {
      forall u | u in g'.requests && g'.requests[u].incident == incident ensures u <= t { assert u in g.requests; }
    }
  }

  lemma LatestOfOthers(g: Gate, r: Request, incident: string, t: Token)
    requires incident != r.incident && g.next !in g.requests
    ensures Latest(Register(g, r), incident, t) <==> Latest(g, incident, t)
  {
    var g' := Register(g, r);
    if Latest(g', incident, t) {
      forall u | u in g.requests && g.requests[u].incident == incident ensures u <= t { assert u in g'.requests; }
    }
  }

  lemma RegisterTells(g: Gate, r: Request)
    requires IndexesTell(g) && !Closed(r)
    ensures IndexesTell(Register(g, r))
  {
    var g' := Register(g, r);
    assert Latest(g', r.incident, g.next);
    forall i, t ensures Indexed(g', i, t) <==> Awaited(g', i, t) {
      assert Indexed(g, i, t) <==> Awaited(g, i, t);
      if i != r.incident { LatestOfOthers(g, r, i, t); }
    }
  }

  /** A request changes, but not its incident, nor whether it is closed. */
  lemma ChangeTells(g: Gate, t: Token, r: Request)
    requires IndexesTell(g) && t in g.requests && r.incident == g.requests[t].incident
    requires Closed(r) <==> Closed(g.requests[t])
    ensures IndexesTell(SetRequest(g, t, r))
  {
    var g' := SetRequest(g, t, r);
    forall i, u ensures Indexed(g', i, u) <==> Awaited(g', i, u) {
      assert Indexed(g, i, u) <==> Awaited(g, i, u);
      LatestSame(g, g', i, u);
    }
  }

  lemma CloseTells(g: Gate, t: Token, r: Request)
    requires IndexesTell(g) && t in g.requests && r.incident == g.requests[t].incident && Closed(r)
    ensures IndexesTell(Clear(SetRequest(g, t, r), t))
  {
    var g' := Clear(SetRequest(g, t, r), t);
    forall i, u ensures Indexed(g', i, u) <==> Awaited(g', i, u) {
      assert Indexed(g, i, u) <==> Awaited(g, i, u);
      LatestSame(g, g', i, u);
    }
  }

  /** Nothing that the indexes are about changes. */
  lemma SameTells(g: Gate, g': Gate)
    requires IndexesTell(g)
    requires g'.requests == g.requests && g'.byToken == g.byToken && g'.byIncident == g.byIncident && g'.next >= g.next
    ensures IndexesTell(g')
  {
    forall i, u ensures Indexed(g', i, u) <==> Awaited(g', i, u) {
      assert Indexed(g, i, u) <==> Awaited(g, i, u);
      LatestSame(g, g', i, u);
    }
  }

  lemma EndWaitTells(g: Gate, t: Token, how: Wake, now: real)
    requires IndexesTell(g)
    ensures IndexesTell(EndWaitStep(g, t, how, now).0)
  {
    var g' := EndWaitStep(g, t, how, now).0;
    if g' != g {
      var c := Clear(SetRequest(g, t, Resumed(g.requests[t], how)), t);
      CloseTells(g, t, Resumed(g.requests[t], how));
      SameTells(c, g');
    }
  }

  lemma CallbackTells(g: Gate, t: Token, verdict: Verdict, approvedBy: string, reason: string, digest: Option<Digest>, now: real)
    requires IndexesTell(g)
    ensures IndexesTell(CallbackStep(g, t, verdict, approvedBy, reason, digest, now).0)
  {
    var (g', reply) := CallbackStep(g, t, verdict, approvedBy, reason, digest, now);
    if reply == Refused("expired") {
      CloseTells(g, t, g.requests[t].(decision := TimedOut));
    } else if reply == Accepted {
      ChangeTells(g, t, g'.requests[t]);
      SameTells(SetRequest(g, t, g'.requests[t]), g');
    }
  }

  lemma RequestActionTells(g: Gate, incident: string, digest: Result<Digest>, targeted: bool, scopeOk: bool, now: real)
    requires IndexesTell(g)
    ensures IndexesTell(RequestActionStep(g, incident, digest, targeted, scopeOk, now).0)
  {
    if RequestActionStep(g, incident, digest, targeted, scopeOk, now).0 != g {
      RegisterTells(g, Request(incident, Some(digest.value), targeted, Some(now + g.timeout), Pending, "", "", Idle));
    }
  }

  lemma BeginWaitTells(g: Gate, incident: string, token: Token)
    requires IndexesTell(g)
    ensures IndexesTell(BeginWaitStep(g, incident, token).0)
  {
    if BeginWaitStep(g, incident, token).0 != g { ChangeTells(g, token, g.requests[token].(waiter := Waiting)); }
  }

  lemma BeginPlainWaitTells(g: Gate, incident: string)
    requires IndexesTell(g)
    ensures IndexesTell(BeginPlainWaitStep(g, incident).0)
  {
    if BeginPlainWaitStep(g, incident).0 != g {
      var t := g.byIncident[incident];
      ChangeTells(g, t, g.requests[t].(waiter := Waiting));
    }
  }

  lemma StepTells(g: Gate, e: Event)
    requires IndexesTell(g)
    ensures IndexesTell(Step(g, e))
  {
    match e {
      case PlainRequest(incident) => RegisterTells(g, Request(incident, None, false, None, Pending, "", "", Idle));
      case RequestAction(incident, digest, targeted, scopeOk, now) =>
        RequestActionTells(g, incident, digest, targeted, scopeOk, now);
      case BeginWait(incident, token) => BeginWaitTells(g, incident, token);
      case BeginPlainWait(incident) => BeginPlainWaitTells(g, incident);
      case EndWait(token, how, now) => EndWaitTells(g, token, how, now);
      case Callback(token, verdict, approvedBy, reason, digest, now) =>
        CallbackTells(g, token, verdict, approvedBy, reason, digest, now);
      case Consume(permit, incident, digest, first, second) =>
        SameTells(g, ConsumeStep(g, permit, incident, digest, first, second).0);
    }
  }

  lemma StepTimeout(g: Gate, e: Event)
    ensures Step(g, e).timeout == g.timeout
  {
  }

  lemma EmptyTells(timeout: real)
    ensures IndexesTell(Empty(timeout))
  {
  }

  lemma {:induction false} RunTells(timeout: real, events: seq<Event>)
    ensures IndexesTell(Run(timeout, events)) && Run(timeout, events).timeout == timeout
  {
    if events == [] {
      EmptyTells(timeout);
    } else {
      StepTimeout(Run(timeout, events[..|events| - 1]), Last(events));
      RunTells(timeout, events[..|events| - 1]);
      StepTells(Run(timeout, events[..|events| - 1]), Last(events));
    }
  }

  // ---- main results ----

  /** The request is on record with its time limit, undecided and unapproved; no other is touched. */
  ghost predicate OnRecord(g: Gate, g': Gate, token: Token, r: Request) {
    && token !in g.requests && g'.requests == g.requests[token := r] && Awaited(g', r.incident, token)
    && g'.approvals == g.approvals && g'.permits == g.permits && g'.uses == g.uses
  }

  lemma RegisteredIsOnRecord(g: Gate, r: Request)
    requires IndexesTell(g) && !Closed(r)
    ensures OnRecord(g, Register(g, r), g.next, r)
  {
    RegisterTells(g, r);
    assert Indexed(Register(g, r), r.incident, g.next);
  }

  /** It is refused if the incident's newest request is still open, or else for a bad digest or scope,
      and otherwise put on record. */
  ghost predicate RequestAnswered(g: Gate, g': Gate, reply: Reply, incident: string, digest: Result<Digest>,
                                  targeted: bool, scopeOk: bool, now: real) {
    if exists t :: Awaited(g, incident, t) then reply == Refused("already pending") && g' == g
    else match digest
      case Err(error) => reply == Refused(error) && g' == g
      case Ok(d) =>
        if !scopeOk then reply == Refused("scope") && g' == g
        else reply.Registered? && OnRecord(g, g', reply.token,
               Request(incident, Some(d), targeted, Some(now + g.timeout), Pending, "", "", Idle))
  }

  lemma IndexedIffAwaited(g: Gate, incident: string)
    requires IndexesTell(g)
    ensures incident in g.byIncident <==> exists t :: Awaited(g, incident, t)
  {
    if incident in g.byIncident { assert Indexed(g, incident, g.byIncident[incident]); }
    if t :| Awaited(g, incident, t) { assert Indexed(g, incident, t); }
  }

  lemma ActionRequestTold(g: Gate, incident: string, digest: Result<Digest>, targeted: bool, scopeOk: bool, now: real)
    requires IndexesTell(g)
    ensures var (g', reply) := RequestActionStep(g, incident, digest, targeted, scopeOk, now);
      RequestAnswered(g, g', reply, incident, digest, targeted, scopeOk, now)
  {
    IndexedIffAwaited(g, incident);
    if incident !in g.byIncident && digest.Ok? && scopeOk {
      RegisteredIsOnRecord(g, Request(incident, Some(digest.value), targeted, Some(now + g.timeout), Pending, "", "", Idle));
    }
  }

  /** After any events, an action request is answered so; its time limit is that of the gate. */
  lemma ActionRequestAnswered(timeout: real, events: seq<Event>, incident: string, digest: Result<Digest>,
                              targeted: bool, scopeOk: bool, now: real)
    ensures var g := Run(timeout, events);
      var (g', reply) := StepReply(g, RequestAction(incident, digest, targeted, scopeOk, now));
      g.timeout == timeout && RequestAnswered(g, g', reply, incident, digest, targeted, scopeOk, now)
  {
    RunTells(timeout, events);
    ActionRequestTold(Run(timeout, events), incident, digest, targeted, scopeOk, now);
  }

  /** The wait for an action request begins exactly if it is its incident's newest one, open, and
      nobody waits for it yet; then only that changes. */
  lemma WaitAnswered(timeout: real, events: seq<Event>, incident: string, token: Token)
    ensures var g := Run(timeout, events); var (g', reply) := StepReply(g, BeginWait(incident, token));
      if Awaited(g, incident, token) && g.requests[token].digest.Some? && g.requests[token].waiter == Idle
      then reply == Began && g' == g.(requests := g.requests[token := g.requests[token].(waiter := Waiting)])
      else reply == Refused("missing") && g' == g
  {
    RunTells(timeout, events);
    assert Indexed(Run(timeout, events), incident, token) <==> Awaited(Run(timeout, events), incident, token);
  }

  /** The incident's newest request is open, without an action, and nobody waits for it yet. */
  ghost predicate PlainlyAwaited(g: Gate, incident: string, t: Token) {
    Awaited(g, incident, t) && g.requests[t].digest.None? && g.requests[t].waiter == Idle
  }

  /** The wait for a request without an action begins on the same terms. */
  lemma PlainWaitAnswered(timeout: real, events: seq<Event>, incident: string)
    ensures var g := Run(timeout, events); var (g', reply) := StepReply(g, BeginPlainWait(incident));
      && (forall t :: PlainlyAwaited(g, incident, t) ==>
            reply == Began && g' == g.(requests := g.requests[t := g.requests[t].(waiter := Waiting)]))
      && ((forall t :: !PlainlyAwaited(g, incident, t)) ==> reply == Refused("missing") && g' == g)
  {
    RunTells(timeout, events);
    var g := Run(timeout, events);
    forall t | PlainlyAwaited(g, incident, t) ensures Indexed(g, incident, t) {}
    if incident in g.byIncident { assert Indexed(g, incident, g.byIncident[incident]); }
  }

  /** What a callback is answered: the first of these that it meets. */
  function CallbackAnswer(g: Gate, t: Token, verdict: Verdict, who: string, quoted: Option<Digest>, now: real): Reply {
    if t !in g.requests || Closed(g.requests[t]) then Refused("unknown_token")
    else
      var r := g.requests[t];
      if r.decision == Approved || r.decision == Rejected then Refused("already_decided")
      else if r.expires.Some? && r.expires.value < now then Refused("expired")
      else if quoted != r.digest && (r.targeted || quoted.Some?) then Refused("action_digest_mismatch")
      else if verdict == Unknown then Refused("decision")
      else if who == "" then Refused("approved_by")
      else Accepted
  }

  lemma CallbackAnswered(timeout: real, events: seq<Event>, t: Token, verdict: Verdict, who: string, reason: string,
                         quoted: Option<Digest>, now: real)
    ensures StepReply(Run(timeout, events), Callback(t, verdict, who, reason, quoted, now)).1 ==
      CallbackAnswer(Run(timeout, events), t, verdict, who, quoted, now)
  {
    RunTells(timeout, events);
    CallbackTold(Run(timeout, events), t, verdict, who, reason, quoted, now);
  }

  lemma CallbackTold(g: Gate, t: Token, verdict: Verdict, who: string, reason: string, quoted: Option<Digest>, now: real)
    requires IndexesTell(g)
    ensures CallbackStep(g, t, verdict, who, reason, quoted, now).1 == CallbackAnswer(g, t, verdict, who, quoted, now)
  {
  }
}
