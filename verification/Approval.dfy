/** The approval gate of agents/approval.py. Requests are objects shared by two indexes and by a
    waiting coroutine; here an object is named by its token. The clock is a parameter of each
    step, and a coroutine's steps are separate events, so callbacks, timeouts and cancellations
    interleave freely. Operator names are taken after stripping: "" is a blank name. */
module Approval {
  import opened Basics

  type Token = nat
  type PermitId = nat
  type Digest = string

  datatype Decision = Pending | Approved | Rejected | TimedOut

  /** Whether the request's one waiter has not begun, is waiting, or is over. */
  datatype Waiter = Idle | Waiting | Over

  /** `digest` and `expires` are None for a plain (non-action) request; `targeted` says the
      action carries a target, so a callback must quote the digest. */
  datatype Request = Request(
    incident: string, digest: Option<Digest>, targeted: bool, expires: Option<real>,
    decision: Decision, approvedBy: string, reason: string, waiter: Waiter)

  datatype Permit = Permit(
    id: PermitId, incident: string, digest: Digest, approvedBy: string, issuedAt: real, expires: real)

  /** An accepted approval callback. */
  datatype ApprovalRecord = ApprovalRecord(incident: string, digest: Option<Digest>, approvedBy: string, at: real)

  /** A successful consumption: the executed action it authorises. */
  datatype Use = Use(permit: PermitId, incident: string, digest: Digest, at: real)

  datatype Gate = Gate(
    timeout: real,
    requests: map<Token, Request>,
    byIncident: map<string, Token>,
    byToken: set<Token>,
    permits: map<PermitId, Permit>,
    next: nat,
    // histories: accepted approvals by request, the request behind each permit, executed actions
    approvals: map<Token, ApprovalRecord>,
    sources: map<PermitId, Token>,
    uses: seq<Use>)

  datatype Verdict = Approve | Reject | Unknown

  datatype Wake = Woken | TimeRanOut | Cancelled

  datatype Event =
    | PlainRequest(incident: string)
    | RequestAction(incident: string, action: Result<Digest>, targeted: bool, scopeOk: bool, now: real)
    | BeginWait(incident: string, token: Token)
    | BeginPlainWait(incident: string)
    | EndWait(token: Token, how: Wake, now: real)
    | Callback(token: Token, verdict: Verdict, approvedBy: string, reason: string, quoted: Option<Digest>, now: real)
    | Consume(permit: Option<Permit>, incident: string, digest: Digest, first: real, second: real)

  datatype Reply = Ignored | Refused(error: string) | Registered(token: Token) | Began
                 | Decided(decision: Decision, permit: Option<Permit>) | Accepted | Allowed(ok: bool)

  function Empty(timeout: real): Gate {
    Gate(timeout, map[], map[], {}, map[], 0, map[], map[], [])
  }

  // ---- the steps ----

  function Register(g: Gate, r: Request): Gate {
    g.(requests := g.requests[g.next := r], byIncident := g.byIncident[r.incident := g.next],
       byToken := g.byToken + {g.next}, next := g.next + 1)
  }

  /** `_clear`. */
  function Clear(g: Gate, t: Token): Gate
    requires t in g.requests
  {
    var i := g.requests[t].incident;
    g.(byIncident := if i in g.byIncident && g.byIncident[i] == t then g.byIncident - {i} else g.byIncident,
       byToken := g.byToken - {t})
  }

  function SetRequest(g: Gate, t: Token, r: Request): Gate {
    g.(requests := g.requests[t := r])
  }

  function RequestActionStep(g: Gate, incident: string, digest: Result<Digest>, targeted: bool, scopeOk: bool, now: real)
    : (Gate, Reply)
  {
    if incident in g.byIncident then (g, Refused("already pending"))
    else if digest.Err? then (g, Refused(digest.error))
    else if !scopeOk then (g, Refused("scope"))
    else (Register(g, Request(incident, Some(digest.value), targeted, Some(now + g.timeout), Pending, "", "", Idle)),
          Registered(g.next))
  }

  /** `wait_for_action_decision` up to its await. */
  function BeginWaitStep(g: Gate, incident: string, token: Token): (Gate, Reply) {
    if incident !in g.byIncident || g.byIncident[incident] != token || token !in g.requests then (g, Refused("missing"))
    else
      var r := g.requests[token];
      if r.digest.None? || r.waiter != Idle then (g, Refused("missing"))
      else (SetRequest(g, token, r.(waiter := Waiting)), Began)
  }

  /** `wait_for_decision` up to its await. */
  function BeginPlainWaitStep(g: Gate, incident: string): (Gate, Reply) {
    if incident !in g.byIncident || g.byIncident[incident] !in g.requests then (g, Refused("missing"))
    else
      var t := g.byIncident[incident];
      var r := g.requests[t];
      if r.digest.Some? || r.waiter != Idle then (g, Refused("missing"))
      else (SetRequest(g, t, r.(waiter := Waiting)), Began)
  }

  /** The request once its waiter is over; running out of time decides only a pending request. */
  function Resumed(r: Request, how: Wake): Request {
    if how != Cancelled && r.decision == Pending then r.(waiter := Over, decision := TimedOut) else r.(waiter := Over)
  }

  predicate Granted(r: Request) {
    r.decision == Approved && r.digest.Some? && r.expires.Some? && r.approvedBy != ""
  }

  function PermitFor(r: Request, id: PermitId, now: real): Permit
    requires Granted(r)
  {
    Permit(id, r.incident, r.digest.value, r.approvedBy, now, r.expires.value)
  }

  function Issue(g: Gate, t: Token, p: Permit): Gate {
    g.(permits := g.permits[p.id := p], sources := g.sources[p.id := t], next := g.next + 1)
  }

  /** The waiter resumes. It is woken only once a decision is recorded; on a timeout or a
      cancellation a decision may have been recorded at the same moment. */
  function EndWaitStep(g: Gate, t: Token, how: Wake, now: real): (Gate, Reply) {
    if t !in g.requests || g.requests[t].waiter != Waiting || (how == Woken && g.requests[t].decision == Pending)
    then (g, Ignored)
    else
      var r := Resumed(g.requests[t], how);
      var c := Clear(SetRequest(g, t, r), t);
      if how == Cancelled then (c, Refused("cancelled"))
      else if Granted(r) then (Issue(c, t, PermitFor(r, c.next, now)), Decided(r.decision, Some(PermitFor(r, c.next, now))))
      else (c, Decided(r.decision, None))
  }

  predicate DigestAccepted(r: Request, digest: Option<Digest>) {
    if r.targeted then digest == r.digest else digest.None? || digest == r.digest
  }

  function CallbackStep(g: Gate, t: Token, verdict: Verdict, approvedBy: string, reason: string,
                        digest: Option<Digest>, now: real): (Gate, Reply)
  {
    if t !in g.byToken || t !in g.requests then (g, Refused("unknown_token"))
    else
      var r := g.requests[t];
      if r.decision != Pending then (g, Refused("already_decided"))
      else if r.expires.Some? && now > r.expires.value then
        (Clear(SetRequest(g, t, r.(decision := TimedOut)), t), Refused("expired"))
      else if !DigestAccepted(r, digest) then (g, Refused("action_digest_mismatch"))
      else if verdict == Unknown then (g, Refused("decision"))
      else if approvedBy == "" then (g, Refused("approved_by"))
      else
        var d := if verdict == Approve then Approved else Rejected;
        var g' := SetRequest(g, t, r.(decision := d, approvedBy := approvedBy, reason := reason));
        (if verdict == Approve
         then g'.(approvals := g.approvals[t := ApprovalRecord(r.incident, r.digest, approvedBy, now)]) else g',
         Accepted)
  }

  /** `consume_action_permit`; the clock is read once for the age and once for the expiry. */
  function ConsumeStep(g: Gate, permit: Option<Permit>, incident: string, digest: Digest, first: real, second: real)
    : (Gate, Reply)
  {
    if permit.None? || permit.value.id !in g.permits || g.permits[permit.value.id] != permit.value
    then (g, Allowed(false))
    else
      var p := permit.value;
      var spent := g.(permits := g.permits - {p.id});
      var ok := p.incident == incident && p.digest == digest
                && 0.0 <= first - p.issuedAt <= g.timeout && second <= p.expires;
      (if ok then spent.(uses := g.uses + [Use(p.id, incident, digest, second)]) else spent, Allowed(ok))
  }

  function StepReply(g: Gate, e: Event): (Gate, Reply) {
    match e
    case PlainRequest(incident) =>
      (Register(g, Request(incident, None, false, None, Pending, "", "", Idle)), Registered(g.next))
    case RequestAction(incident, digest, targeted, scopeOk, now) =>
      RequestActionStep(g, incident, digest, targeted, scopeOk, now)
    case BeginWait(incident, token) => BeginWaitStep(g, incident, token)
    case BeginPlainWait(incident) => BeginPlainWaitStep(g, incident)
    case EndWait(token, how, now) => EndWaitStep(g, token, how, now)
    case Callback(token, verdict, approvedBy, reason, digest, now) =>
      CallbackStep(g, token, verdict, approvedBy, reason, digest, now)
    case Consume(permit, incident, digest, first, second) =>
      ConsumeStep(g, permit, incident, digest, first, second)
  }

  function Step(g: Gate, e: Event): Gate {
    StepReply(g, e).0
  }

  function Run(timeout: real, events: seq<Event>): Gate {
    if events == [] then Empty(timeout) else Step(Run(timeout, events[..|events| - 1]), Last(events))
  }

  // ---- what every step keeps ----

  ghost predicate RequestOk(g: Gate, t: Token, r: Request) {
    && t < g.next
    && (r.digest.Some? <==> r.expires.Some?)
    && (r.decision == Approved <==> t in g.approvals)
    && (t in g.approvals ==>
          && r.approvedBy != "" && g.approvals[t].approvedBy == r.approvedBy
          && g.approvals[t].incident == r.incident && g.approvals[t].digest == r.digest
          && (r.expires.Some? ==> g.approvals[t].at <= r.expires.value))
  }

  /** A permit is made from an approved action request whose waiter is over. */
  ghost predicate SourceOk(r: Request) {
    r.waiter == Over && r.decision == Approved && r.digest.Some?
  }

  ghost predicate PermitOk(r: Request, p: Permit) {
    p.incident == r.incident && Some(p.digest) == r.digest && Some(p.expires) == r.expires
  }

  ghost predicate UseOk(g: Gate, u: Use) {
    && u.permit in g.sources && u.permit !in g.permits && g.sources[u.permit] in g.requests
    && var r := g.requests[g.sources[u.permit]];
       r.incident == u.incident && r.digest == Some(u.digest) && r.expires.Some? && u.at <= r.expires.value
  }

  ghost predicate RequestsOk(g: Gate) {
    && (forall t :: t in g.requests ==> RequestOk(g, t, g.requests[t]))
    && (forall t :: t in g.approvals ==> t in g.requests)
  }

  ghost predicate IndexesOk(g: Gate) {
    && (forall t :: t in g.byToken ==> t in g.requests)
    && (forall i :: i in g.byIncident ==> g.byIncident[i] in g.byToken && g.requests[g.byIncident[i]].incident == i)
  }

  ghost predicate PermitsOk(g: Gate) {
    && (forall id :: id in g.sources ==>
          id < g.next && g.sources[id] in g.requests && SourceOk(g.requests[g.sources[id]]))
    && (forall x, y :: x in g.sources && y in g.sources && g.sources[x] == g.sources[y] ==> x == y)
    && (forall id :: id in g.permits ==>
          id in g.sources && g.permits[id].id == id && PermitOk(g.requests[g.sources[id]], g.permits[id]))
  }

  ghost predicate UsesOk(g: Gate) {
    && (forall k :: 0 <= k < |g.uses| ==> UseOk(g, g.uses[k]))
    && (forall a, b :: 0 <= a < b < |g.uses| ==> g.uses[a].permit != g.uses[b].permit)
  }

  ghost predicate Inv(g: Gate) {
    RequestsOk(g) && IndexesOk(g) && PermitsOk(g) && UsesOk(g)
  }

  /** A recorded decision, with its approver and approval, is never changed afterwards. */
  ghost predicate KeepsDecisions(g: Gate, g': Gate) {
    && (forall t :: t in g.requests ==> t in g'.requests && KeepsDecision(g.requests[t], g'.requests[t]))
    && (forall t :: t in g.approvals ==> t in g'.approvals && g'.approvals[t] == g.approvals[t])
  }

  ghost predicate KeepsDecision(r: Request, r': Request) {
    && r'.incident == r.incident && r'.digest == r.digest && r'.expires == r.expires
    && (r.decision != Pending ==> r'.decision == r.decision && r'.approvedBy == r.approvedBy)
    && (r.waiter == Over ==> r'.waiter == Over)
  }

  lemma KeepsTrans(a: Gate, b: Gate, c: Gate)
    requires KeepsDecisions(a, b) && KeepsDecisions(b, c)
    ensures KeepsDecisions(a, c)
  {
  }

  /** A request moves on without a new approval: its waiter advances or its time runs out. */
  lemma SetRequestInv(g: Gate, t: Token, r: Request)
    requires Inv(g) && t in g.requests
    requires r == g.requests[t].(waiter := r.waiter, decision := r.decision)
    requires r.decision == g.requests[t].decision || (g.requests[t].decision == Pending && r.decision == TimedOut)
    requires g.requests[t].waiter == Over ==> r.waiter == Over
    ensures Inv(SetRequest(g, t, r)) && KeepsDecisions(g, SetRequest(g, t, r))
  {
    var g' := SetRequest(g, t, r);
    forall s | s in g'.requests ensures RequestOk(g', s, g'.requests[s]) {
      assert RequestOk(g, s, g.requests[s]);
    }
    SameSources(g, g');
  }

  lemma SamePermits(g: Gate, g': Gate)
    requires PermitsOk(g) && KeepsDecisions(g, g')
    requires g'.sources == g.sources && g'.permits == g.permits && g'.next >= g.next
    ensures PermitsOk(g')
  {
    forall id | id in g'.sources ensures SourceOk(g'.requests[g'.sources[id]]) {
      assert SourceOk(g.requests[g.sources[id]]);
      assert KeepsDecision(g.requests[g.sources[id]], g'.requests[g.sources[id]]);
    }
  }

  lemma SameUses(g: Gate, g': Gate)
    requires UsesOk(g) && KeepsDecisions(g, g')
    requires g'.sources == g.sources && g'.permits == g.permits && g'.uses == g.uses
    ensures UsesOk(g')
  {
    forall k | 0 <= k < |g'.uses| ensures UseOk(g', g'.uses[k]) {
      assert UseOk(g, g.uses[k]);
      assert KeepsDecision(g.requests[g.sources[g.uses[k].permit]], g'.requests[g.sources[g.uses[k].permit]]);
    }
  }

  /** Permits and uses depend on the requests only through what a decision fixes. */
  lemma SameSources(g: Gate, g': Gate)
    requires Inv(g) && KeepsDecisions(g, g')
    requires g'.sources == g.sources && g'.permits == g.permits && g'.uses == g.uses && g'.next >= g.next
    ensures PermitsOk(g') && UsesOk(g')
  {
    SamePermits(g, g');
    SameUses(g, g');
  }

  lemma ClearInv(g: Gate, t: Token)
    requires Inv(g) && t in g.requests
    ensures Inv(Clear(g, t)) && KeepsDecisions(g, Clear(g, t))
  {
  }

  lemma RegisterKeeps(g: Gate, r: Request)
    requires RequestsOk(g) && r.decision == Pending && (r.digest.Some? <==> r.expires.Some?)
    ensures RequestsOk(Register(g, r)) && KeepsDecisions(g, Register(g, r))
  {
    var g' := Register(g, r);
    forall s | s in g'.requests ensures RequestOk(g', s, g'.requests[s]) {
      if s in g.requests { assert RequestOk(g, s, g.requests[s]); }
    }
    forall t | t in g.requests ensures t in g'.requests && g'.requests[t] == g.requests[t] {
      assert RequestOk(g, t, g.requests[t]);
    }
  }

  lemma RegisterInv(g: Gate, r: Request)
    requires Inv(g) && r.decision == Pending && (r.digest.Some? <==> r.expires.Some?)
    ensures Inv(Register(g, r)) && KeepsDecisions(g, Register(g, r))
  {
    RegisterKeeps(g, r);
    SameSources(g, Register(g, r));
  }

  /** The state after a callback accepts a decision for `t`. */
  ghost function Decide(g: Gate, t: Token, approve: bool, approvedBy: string, reason: string, now: real): Gate
    requires t in g.requests
  {
    var r := g.requests[t];
    var h := SetRequest(g, t, r.(decision := if approve then Approved else Rejected,
                                 approvedBy := approvedBy, reason := reason));
    if approve then h.(approvals := g.approvals[t := ApprovalRecord(r.incident, r.digest, approvedBy, now)]) else h
  }

  lemma DecideRequests(g: Gate, t: Token, approve: bool, approvedBy: string, reason: string, now: real)
    requires RequestsOk(g) && t in g.requests && g.requests[t].decision == Pending && approvedBy != ""
    requires g.requests[t].expires.Some? ==> now <= g.requests[t].expires.value
    ensures RequestsOk(Decide(g, t, approve, approvedBy, reason, now))
    ensures KeepsDecisions(g, Decide(g, t, approve, approvedBy, reason, now))
  {
    var g' := Decide(g, t, approve, approvedBy, reason, now);
    assert RequestOk(g, t, g.requests[t]);
    forall s | s in g'.requests ensures RequestOk(g', s, g'.requests[s]) {
      assert RequestOk(g, s, g.requests[s]);
    }
    DecideKeeps(g, t, approve, approvedBy, reason, now);
  }

  lemma DecideKeeps(g: Gate, t: Token, approve: bool, approvedBy: string, reason: string, now: real)
    requires t in g.requests && g.requests[t].decision == Pending && t !in g.approvals
    ensures KeepsDecisions(g, Decide(g, t, approve, approvedBy, reason, now))
  {
  }

  lemma DecideInv(g: Gate, t: Token, approve: bool, approvedBy: string, reason: string, now: real)
    requires Inv(g) && t in g.requests && g.requests[t].decision == Pending && approvedBy != ""
    requires g.requests[t].expires.Some? ==> now <= g.requests[t].expires.value
    ensures Inv(Decide(g, t, approve, approvedBy, reason, now))
    ensures KeepsDecisions(g, Decide(g, t, approve, approvedBy, reason, now))
  {
    var g' := Decide(g, t, approve, approvedBy, reason, now);
    DecideRequests(g, t, approve, approvedBy, reason, now);
    SameSources(g, g');
  }

  lemma IssueInv(g: Gate, t: Token, p: Permit)
    requires Inv(g) && t in g.requests && SourceOk(g.requests[t]) && PermitOk(g.requests[t], p) && p.id == g.next
    requires forall id :: id in g.sources ==> g.sources[id] != t
    ensures Inv(Issue(g, t, p)) && KeepsDecisions(g, Issue(g, t, p))
  {
    SameRequests(g, Issue(g, t, p));
    IssuePermits(g, t, p);
    IssueUses(g, t, p);
  }

  lemma SameRequests(g: Gate, g': Gate)
    requires RequestsOk(g) && IndexesOk(g) && g'.next >= g.next
    requires g'.requests == g.requests && g'.approvals == g.approvals
    requires g'.byToken == g.byToken && g'.byIncident == g.byIncident
    ensures RequestsOk(g') && IndexesOk(g') && KeepsDecisions(g, g')
  {
    forall s | s in g'.requests ensures RequestOk(g', s, g'.requests[s]) { assert RequestOk(g, s, g.requests[s]); }
  }

  lemma IssuePermits(g: Gate, t: Token, p: Permit)
    requires PermitsOk(g) && t in g.requests && SourceOk(g.requests[t]) && PermitOk(g.requests[t], p) && p.id == g.next
    requires forall id :: id in g.sources ==> g.sources[id] != t
    ensures PermitsOk(Issue(g, t, p))
  {
  }

  lemma IssueUses(g: Gate, t: Token, p: Permit)
    requires PermitsOk(g) && UsesOk(g) && p.id == g.next
    ensures UsesOk(Issue(g, t, p))
  {
    var g' := Issue(g, t, p);
    forall k | 0 <= k < |g'.uses| ensures UseOk(g', g'.uses[k]) { assert UseOk(g, g.uses[k]); }
  }

  lemma EndWaitInv(g: Gate, t: Token, how: Wake, now: real)
    requires Inv(g) && t in g.requests && g.requests[t].waiter == Waiting
    ensures Inv(EndWaitStep(g, t, how, now).0) && KeepsDecisions(g, EndWaitStep(g, t, how, now).0)
  {
    var r := Resumed(g.requests[t], how);
    FinishWaitInv(g, t, r);
    if how != Cancelled && Granted(r) {
      GrantInv(g, t, r, now);
    }
  }

  lemma FinishWaitInv(g: Gate, t: Token, d: Request)
    requires Inv(g) && t in g.requests && d.waiter == Over
    requires d == g.requests[t].(waiter := d.waiter, decision := d.decision)
    requires d.decision == g.requests[t].decision || (g.requests[t].decision == Pending && d.decision == TimedOut)
    ensures var c := Clear(SetRequest(g, t, d), t); Inv(c) && KeepsDecisions(g, c)
  {
    SetRequestInv(g, t, d);
    ClearInv(SetRequest(g, t, d), t);
    KeepsTrans(g, SetRequest(g, t, d), Clear(SetRequest(g, t, d), t));
  }

  lemma GrantInv(g: Gate, t: Token, r: Request, now: real)
    requires Inv(g) && t in g.requests && g.requests[t].waiter == Waiting && r.waiter == Over && Granted(r)
    requires var c := Clear(SetRequest(g, t, r), t); Inv(c) && KeepsDecisions(g, c)
    ensures var c := Clear(SetRequest(g, t, r), t); var i := Issue(c, t, PermitFor(r, c.next, now));
      Inv(i) && KeepsDecisions(g, i)
  {
    var c := Clear(SetRequest(g, t, r), t);
    assert forall id :: id in g.sources ==> SourceOk(g.requests[g.sources[id]]);
    IssueInv(c, t, PermitFor(r, c.next, now));
    KeepsTrans(g, c, Issue(c, t, PermitFor(r, c.next, now)));
  }

  ghost function Spend(g: Gate, id: PermitId): Gate {
    g.(permits := g.permits - {id})
  }

  lemma SpendInv(g: Gate, id: PermitId)
    requires Inv(g)
    ensures Inv(Spend(g, id)) && KeepsDecisions(g, Spend(g, id))
  {
  }

  lemma RecordUseInv(g: Gate, u: Use)
    requires Inv(g) && UseOk(g, u) && forall k :: 0 <= k < |g.uses| ==> g.uses[k].permit != u.permit
    ensures Inv(g.(uses := g.uses + [u])) && KeepsDecisions(g, g.(uses := g.uses + [u]))
  {
  }

  /** A permit is spent on an action that it covers. */
  lemma UseInv(g: Gate, p: Permit, at: real)
    requires Inv(g) && p.id in g.permits && g.permits[p.id] == p && at <= p.expires
    ensures var s := Spend(g, p.id); var g' := s.(uses := s.uses + [Use(p.id, p.incident, p.digest, at)]);
      Inv(g') && KeepsDecisions(g, g')
  {
    SpendInv(g, p.id);
    forall k | 0 <= k < |g.uses| ensures g.uses[k].permit != p.id { assert UseOk(g, g.uses[k]); }
    RecordUseInv(Spend(g, p.id), Use(p.id, p.incident, p.digest, at));
  }

  lemma ConsumeInv(g: Gate, permit: Option<Permit>, incident: string, digest: Digest, first: real, second: real)
    requires Inv(g)
    ensures var g' := ConsumeStep(g, permit, incident, digest, first, second).0; Inv(g') && KeepsDecisions(g, g')
  {
    var g' := ConsumeStep(g, permit, incident, digest, first, second).0;
    if permit.Some? && permit.value.id in g.permits && g.permits[permit.value.id] == permit.value {
      var p := permit.value;
      var s := Spend(g, p.id);
      if p.incident == incident && p.digest == digest
         && 0.0 <= first - p.issuedAt <= g.timeout && second <= p.expires {
        UseInv(g, p, second);
        assert g' == s.(uses := s.uses + [Use(p.id, p.incident, p.digest, second)]);
      } else {
        SpendInv(g, p.id);
        assert g' == s;
      }
    } else {
      assert g' == g;
    }
  }

  lemma CallbackInv(g: Gate, t: Token, verdict: Verdict, approvedBy: string, reason: string,
                    digest: Option<Digest>, now: real)
    requires Inv(g)
    ensures var g' := CallbackStep(g, t, verdict, approvedBy, reason, digest, now).0; Inv(g') && KeepsDecisions(g, g')
  {
    var g' := CallbackStep(g, t, verdict, approvedBy, reason, digest, now).0;
    if t in g.byToken && g.requests[t].decision == Pending && g' != g {
      var r := g.requests[t];
      if r.expires.Some? && now > r.expires.value {
        ExpireInv(g, t);
        assert g' == Clear(SetRequest(g, t, r.(decision := TimedOut)), t);
      } else {
        DecideInv(g, t, verdict == Approve, approvedBy, reason, now);
        assert g' == Decide(g, t, verdict == Approve, approvedBy, reason, now);
      }
    } else {
      assert g' == g;
    }
  }

  lemma ExpireInv(g: Gate, t: Token)
    requires Inv(g) && t in g.requests && g.requests[t].decision == Pending
    ensures var g' := Clear(SetRequest(g, t, g.requests[t].(decision := TimedOut)), t);
      Inv(g') && KeepsDecisions(g, g')
  {
    SetRequestInv(g, t, g.requests[t].(decision := TimedOut));
    ClearInv(SetRequest(g, t, g.requests[t].(decision := TimedOut)), t);
  }

  lemma BeginInv(g: Gate, t: Token)
    requires Inv(g) && t in g.requests && g.requests[t].waiter == Idle
    ensures var g' := SetRequest(g, t, g.requests[t].(waiter := Waiting)); Inv(g') && KeepsDecisions(g, g')
  {
    SetRequestInv(g, t, g.requests[t].(waiter := Waiting));
  }

  lemma RequestActionInv(g: Gate, incident: string, action: Result<Digest>, targeted: bool, scopeOk: bool, now: real)
    requires Inv(g)
    ensures var g' := RequestActionStep(g, incident, action, targeted, scopeOk, now).0;
      Inv(g') && KeepsDecisions(g, g')
  {
    var g' := RequestActionStep(g, incident, action, targeted, scopeOk, now).0;
    if incident in g.byIncident || action.Err? || !scopeOk {
      assert g' == g;
    } else {
      var r := Request(incident, Some(action.value), targeted, Some(now + g.timeout), Pending, "", "", Idle);
      RegisterInv(g, r);
      assert g' == Register(g, r);
    }
  }

  lemma BeginWaitInv(g: Gate, incident: string, token: Token)
    requires Inv(g)
    ensures var g' := BeginWaitStep(g, incident, token).0; Inv(g') && KeepsDecisions(g, g')
  {
    var g' := BeginWaitStep(g, incident, token).0;
    if g' != g {
      BeginInv(g, token);
      assert g' == SetRequest(g, token, g.requests[token].(waiter := Waiting));
    }
  }

  lemma BeginPlainWaitInv(g: Gate, incident: string)
    requires Inv(g)
    ensures var g' := BeginPlainWaitStep(g, incident).0; Inv(g') && KeepsDecisions(g, g')
  {
    var g' := BeginPlainWaitStep(g, incident).0;
    if g' != g {
      var t := g.byIncident[incident];
      BeginInv(g, t);
      assert g' == SetRequest(g, t, g.requests[t].(waiter := Waiting));
    }
  }

  /** Every event keeps the invariant and every recorded decision. */
  lemma StepInv(g: Gate, e: Event)
    requires Inv(g)
    ensures Inv(Step(g, e)) && KeepsDecisions(g, Step(g, e))
  {
    match e {
      case EndWait(token, how, now) =>
        if token in g.requests && g.requests[token].waiter == Waiting { EndWaitInv(g, token, how, now); }
      case Callback(token, verdict, approvedBy, reason, quoted, now) =>
        CallbackInv(g, token, verdict, approvedBy, reason, quoted, now);
      case Consume(permit, incident, digest, first, second) =>
        ConsumeInv(g, permit, incident, digest, first, second);
      case PlainRequest(incident) =>
        RegisterInv(g, Request(incident, None, false, None, Pending, "", "", Idle));
      case RequestAction(incident, action, targeted, scopeOk, now) =>
        RequestActionInv(g, incident, action, targeted, scopeOk, now);
      case BeginWait(incident, token) => BeginWaitInv(g, incident, token);
      case BeginPlainWait(incident) => BeginPlainWaitInv(g, incident);
    }
  }

  lemma {:induction false} RunInv(timeout: real, events: seq<Event>)
    ensures Inv(Run(timeout, events))
  {
    if events != [] {
      RunInv(timeout, events[..|events| - 1]);
      StepInv(Run(timeout, events[..|events| - 1]), Last(events));
    }
  }

  // ---- main results ----

  /** Decisions are write-once across callback, timeout and cancellation races. */
  lemma {:induction false} DecisionsAreFinal(timeout: real, events: seq<Event>, more: seq<Event>)
    ensures KeepsDecisions(Run(timeout, events), Run(timeout, events + more))
  {
    if more == [] {
      assert events + more == events;
    } else {
      var init := events + more[..|more| - 1];
      DecisionsAreFinal(timeout, events, more[..|more| - 1]);
      assert (events + more)[..|events + more| - 1] == init && Last(events + more) == Last(more);
      RunInv(timeout, init);
      StepInv(Run(timeout, init), Last(more));
      KeepsTrans(Run(timeout, events), Run(timeout, init), Run(timeout, events + more));
    }
  }

  /** The request and approval behind an executed action. */
  ghost predicate Authorised(g: Gate, u: Use) {
    && u.permit in g.sources && g.sources[u.permit] in g.requests && g.sources[u.permit] in g.approvals
    && var p := g.approvals[g.sources[u.permit]]; var r := g.requests[g.sources[u.permit]];
       && p.incident == u.incident && p.digest == Some(u.digest) && p.approvedBy != ""
       && r.expires.Some? && p.at <= r.expires.value && u.at <= r.expires.value
  }

  /** Executed actions map injectively to accepted approvals: for the same incident and exact
      action digest, by a named operator, approval and use both within the request's time limit. */
  lemma UsesAreAuthorised(timeout: real, events: seq<Event>, j: nat, k: nat)
    requires j < |Run(timeout, events).uses| && k < |Run(timeout, events).uses|
    ensures var g := Run(timeout, events);
      && Authorised(g, g.uses[j]) && Authorised(g, g.uses[k])
      && (g.sources[g.uses[j].permit] == g.sources[g.uses[k].permit] ==> j == k)
  {
    RunInv(timeout, events);
    var g := Run(timeout, events);
    forall i | i == j || i == k ensures Authorised(g, g.uses[i]) {
      assert UseOk(g, g.uses[i]);
      var t := g.sources[g.uses[i].permit];
      assert SourceOk(g.requests[t]) && RequestOk(g, t, g.requests[t]);
    }
  }

  /** A permit that was issued is consumed at most once: after one attempt, whatever it
      answered, every later attempt is refused. */
  lemma PermitsAreSpentOnce(
    timeout: real, events: seq<Event>, p: Permit, incident: string, digest: Digest, first: real, second: real,
    more: seq<Event>, incident': string, digest': Digest, first': real, second': real)
    requires p.id in Run(timeout, events).sources
    ensures var g := Run(timeout, events + [Consume(Some(p), incident, digest, first, second)] + more);
      ConsumeStep(g, Some(p), incident', digest', first', second').1 == Allowed(false)
  {
    var base := events + [Consume(Some(p), incident, digest, first, second)];
    assert base[..|base| - 1] == events;
    RunInv(timeout, events);
    StaysSpent(timeout, base, p, more);
  }

  ghost predicate NotStored(g: Gate, p: Permit) {
    p.id in g.sources && (p.id in g.permits ==> g.permits[p.id] != p)
  }

  /** A permit id that is issued but not stored (or stored with other contents) stays so. */
  lemma {:induction false} StaysSpent(timeout: real, events: seq<Event>, p: Permit, more: seq<Event>)
    requires NotStored(Run(timeout, events), p)
    ensures NotStored(Run(timeout, events + more), p)
  {
    if more == [] {
      assert events + more == events;
    } else {
      var init := events + more[..|more| - 1];
      StaysSpent(timeout, events, p, more[..|more| - 1]);
      assert (events + more)[..|events + more| - 1] == init && Last(events + more) == Last(more);
      RunInv(timeout, init);
      StaysSpentStep(Run(timeout, init), Last(more), p);
    }
  }

  /** An issued permit is never stored again. */
  ghost predicate KeepsIssued(g: Gate, g': Gate) {
    forall id :: id in g.sources ==>
      id in g'.sources && (id in g'.permits ==> id in g.permits && g'.permits[id] == g.permits[id])
  }

  lemma EndWaitIssues(g: Gate, t: Token, how: Wake, now: real)
    requires PermitsOk(g)
    ensures KeepsIssued(g, EndWaitStep(g, t, how, now).0)
  {
    if t in g.requests { IssuedShape(g, t, how, now); }
    assert forall id :: id in g.sources ==> id < g.next;
  }

  lemma IssuedShape(g: Gate, t: Token, how: Wake, now: real)
    requires t in g.requests
    ensures var g' := EndWaitStep(g, t, how, now).0; var r := Resumed(g.requests[t], how);
      (g'.sources == g.sources && g'.permits == g.permits)
      || (Granted(r) && var p := PermitFor(r, g.next, now);
          g'.sources == g.sources[p.id := t] && g'.permits == g.permits[p.id := p])
  {
  }

  lemma StepIssues(g: Gate, e: Event)
    requires PermitsOk(g)
    ensures KeepsIssued(g, Step(g, e))
  {
    match e {
      case EndWait(token, how, now) => EndWaitIssues(g, token, how, now);
      case Consume(permit, incident, digest, first, second) => ConsumeIssuesNothing(g, permit, incident, digest, first, second);
      case _ => OthersIssueNothing(g, e);
    }
  }

  lemma ConsumeIssuesNothing(g: Gate, permit: Option<Permit>, incident: string, digest: Digest, first: real, second: real)
    ensures KeepsIssued(g, ConsumeStep(g, permit, incident, digest, first, second).0)
  {
  }

  lemma OthersIssueNothing(g: Gate, e: Event)
    requires !e.EndWait? && !e.Consume?
    ensures Step(g, e).sources == g.sources && Step(g, e).permits == g.permits
  {
  }

  lemma StaysSpentStep(g: Gate, e: Event, p: Permit)
    requires Inv(g) && NotStored(g, p)
    ensures NotStored(Step(g, e), p)
  {
    StepIssues(g, e);
  }

  // ---- the gate as an object ----

  /** Each method takes the gate to the state and reply of the step it implements; `StepInv` then
      keeps it valid. */
  class ApprovalGate {
    const timeout: real
    var requests: map<Token, Request>
    var byIncident: map<string, Token>
    var byToken: set<Token>
    var permits: map<PermitId, Permit>
    var next: nat
    ghost var approvals: map<Token, ApprovalRecord>
    ghost var sources: map<PermitId, Token>
    ghost var uses: seq<Use>

    ghost function View(): Gate
      reads this
    {
      Gate(timeout, requests, byIncident, byToken, permits, next, approvals, sources, uses)
    }

    ghost predicate Valid()
      reads this
    {
      Inv(View())
    }

    constructor (timeout: real)
      ensures Valid() && View() == Empty(timeout)
    {
      this.timeout := timeout;
      requests, byIncident, byToken, permits, next := map[], map[], {}, map[], 0;
      approvals, sources, uses := map[], map[], [];
    }

    method RegisterRequest(r: Request) returns (token: Token)
      modifies this
      ensures View() == Register(old(View()), r) && token == old(next)
    {
      token := next;
      requests := requests[token := r];
      byIncident := byIncident[r.incident := token];
      byToken := byToken + {token};
      next := next + 1;
    }

    method ClearRequest(t: Token)
      requires t in requests
      modifies this`byIncident, this`byToken
      ensures View() == Clear(old(View()), t)
    {
      var i := requests[t].incident;
      if i in byIncident && byIncident[i] == t {
        byIncident := byIncident - {i};
      }
      byToken := byToken - {t};
    }

    method RequestAction(incident: string, digest: Result<Digest>, targeted: bool, scopeOk: bool, now: real)
      returns (reply: Reply)
      requires Valid()
      modifies this
      ensures (View(), reply) == StepReply(old(View()), Event.RequestAction(incident, digest, targeted, scopeOk, now))
    {
      if incident in byIncident {
        return Refused("already pending");
      }
      if digest.Err? {
        return Refused(digest.error);
      }
      if !scopeOk {
        return Refused("scope");
      }
      var token := RegisterRequest(
        Request(incident, Some(digest.value), targeted, Some(now + timeout), Pending, "", "", Idle));
      reply := Registered(token);
    }

    /** `wait_for_action_decision` up to its await. */
    method BeginWait(incident: string, token: Token) returns (reply: Reply)
      requires Valid()
      modifies this
      ensures (View(), reply) == StepReply(old(View()), Event.BeginWait(incident, token))
    {
      if incident !in byIncident || byIncident[incident] != token
         || requests[token].digest.None? || requests[token].waiter != Idle {
        return Refused("missing");
      }
      requests := requests[token := requests[token].(waiter := Waiting)];
      reply := Began;
    }

    /** The rest of `wait_for_action_decision` and `_wait_for_request`. */
    method EndWait(t: Token, how: Wake, now: real) returns (reply: Reply)
      requires Valid() && t in requests && requests[t].waiter == Waiting
      requires how == Woken ==> requests[t].decision != Pending
      modifies this
      ensures (View(), reply) == StepReply(old(View()), Event.EndWait(t, how, now))
    {
      ghost var before := View();
      Resume(t, how);
      assert next == before.next;
      if how == Cancelled {
        reply := Refused("cancelled");
      } else {
        reply := IssuePermit(t, now);
      }
    }

    /** `_wait_for_request` after its await. */
    method Resume(t: Token, how: Wake)
      requires t in requests
      modifies this`requests, this`byIncident, this`byToken
      ensures View() == Clear(SetRequest(old(View()), t, Resumed(old(requests)[t], how)), t)
    {
      requests := requests[t := requests[t].(waiter := Over)];
      if how != Cancelled && requests[t].decision == Pending {
        requests := requests[t := requests[t].(decision := TimedOut)];
      }
      assert requests == old(requests)[t := Resumed(old(requests)[t], how)];
      ClearRequest(t);
    }

    /** The end of `wait_for_action_decision`: a named approval becomes a permit. */
    method IssuePermit(t: Token, now: real) returns (reply: Reply)
      requires t in requests
      modifies this`permits, this`sources, this`next
      ensures var r := requests[t];
        if Granted(r) then
          var p := PermitFor(r, old(next), now);
          View() == Issue(old(View()), t, p) && reply == Decided(r.decision, Some(p))
        else View() == old(View()) && reply == Decided(r.decision, None)
    {
      var r := requests[t];
      if r.decision != Approved || r.digest.None? || r.expires.None? || r.approvedBy == "" {
        return Decided(r.decision, None);
      }
      var p := Permit(next, r.incident, r.digest.value, r.approvedBy, now, r.expires.value);
      permits := permits[p.id := p];
      sources := sources[p.id := t];
      next := next + 1;
      reply := Decided(r.decision, Some(p));
    }

    method Callback(t: Token, verdict: Verdict, approvedBy: string, reason: string, digest: Option<Digest>, now: real)
      returns (reply: Reply)
      requires Valid()
      modifies this
      ensures (View(), reply) == StepReply(old(View()), Event.Callback(t, verdict, approvedBy, reason, digest, now))
    {
      if t !in byToken {
        return Refused("unknown_token");
      }
      var r := requests[t];
      if r.decision != Pending {
        return Refused("already_decided");
      }
      if r.expires.Some? && now > r.expires.value {
        requests := requests[t := r.(decision := TimedOut)];
        ClearRequest(t);
        return Refused("expired");
      }
      if r.targeted {
        if digest != r.digest {
          return Refused("action_digest_mismatch");
        }
      } else if digest.Some? && digest != r.digest {
        return Refused("action_digest_mismatch");
      }
      if verdict == Unknown {
        return Refused("decision");
      }
      if approvedBy == "" {
        return Refused("approved_by");
      }
      var d := if verdict == Approve then Approved else Rejected;
      requests := requests[t := r.(decision := d, approvedBy := approvedBy, reason := reason)];
      if verdict == Approve {
        approvals := approvals[t := ApprovalRecord(r.incident, r.digest, approvedBy, now)];
      }
      reply := Accepted;
    }

    method ConsumePermit(permit: Option<Permit>, incident: string, digest: Digest, first: real, second: real)
      returns (ok: bool)
      requires Valid()
      modifies this`permits, this`uses
      ensures (View(), Allowed(ok)) == StepReply(old(View()), Consume(permit, incident, digest, first, second))
    {
      if permit.None? || permit.value.id !in permits || permits[permit.value.id] != permit.value {
        return false;
      }
      var p := permit.value;
      permits := permits - {p.id};
      ok := p.incident == incident && p.digest == digest
            && 0.0 <= first - p.issuedAt <= timeout && second <= p.expires;
      if ok {
        uses := uses + [Use(p.id, incident, digest, second)];
      }
    }
  }
}
