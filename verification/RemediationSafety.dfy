/** Run safety of the remediation loop, for every script: every model output, tool answer, policy,
    verifier answer, and every use of the approval gate by others. */
module RemediationSafety {
  import opened Basics
  import opened Evidence
  import opened Remediation
  import G = Approval

  // ---- what one call does, without its branches ----

  /** An executed mutation: the tool exists and was called, or at least started. */
  predicate IsMutation(e: Entry) {
    e.Executed? && e.mutates
  }

  /** The gate moved on by the recorded events. */
  ghost predicate GateMoved(s: State, s': State) {
    exists events :: s'.gateEvents == s.gateEvents + events && s'.gate == GateAfter(s.gate, events)
  }

  /** How the call was authorised: never in manual mode, in operational mode only by approval, and
      by approval only with a use of the gate for this incident and exactly this action. */
  ghost predicate AuthorisedBy(cfg: Config, s: State, s': State, e: Entry)
    requires e.Executed?
  {
    && e.mode != Manual && (cfg.operational ==> e.mode == Approve)
    && (e.mode == Approve ==>
          && e.use.Some? && |s.gate.uses| <= e.use.value < |s'.gate.uses|
          && s'.gate.uses[e.use.value].incident == cfg.incident
          && s'.gate.uses[e.use.value].digest == cfg.digest(e.action))
  }

  ghost predicate NewMutationOk(cfg: Config, s: State, s': State, e: Entry, flow: Flow)
    requires e.Executed?
  {
    && !s.mutationInResponse && e.key !in s.terminal
    && (flow == Continue ==> s'.mutationInResponse && StillFailing(e.observation))
    && AuthorisedBy(cfg, s, s', e)
  }

  ghost predicate NewEntryOk(cfg: Config, s: State, s': State, e: Entry, flow: Flow) {
    && e.turn == s.turn
    && match e
       case Blocked(key, _) => key in s'.terminal
       case Executed(_, tool, callKey, key, mutates, _, _, _, terminalError, _) =>
         && Count(s.counts, tool) < Count(s'.counts, tool) <= Cap(tool)
         && Count(s.seen, callKey) < Count(s'.seen, callKey) <= MAX_SAME_CALL
         && (terminalError.Some? && flow == Continue ==> key in s'.terminal)
         && (mutates ==> NewMutationOk(cfg, s, s', e, flow))
  }

  ghost predicate Grows(s: State, s': State) {
    && s'.turn == s.turn
    && (s.mutationInResponse ==> s'.mutationInResponse)
    && (forall key :: key in s.terminal ==> key in s'.terminal)
    && (forall t :: Count(s.counts, t) <= Count(s'.counts, t))
    && (forall k :: Count(s.seen, k) <= Count(s'.seen, k))
    && |s.gate.uses| <= |s'.gate.uses| && s'.gate.uses[..|s.gate.uses|] == s.gate.uses
  }

  /** At most one entry is added, and it is a sound one. */
  ghost predicate Effect(cfg: Config, s: State, s': State, flow: Flow) {
    && Grows(s, s') && GateMoved(s, s')
    && (s'.history == s.history
        || (s'.history != [] && s'.history[..|s'.history| - 1] == s.history
            && NewEntryOk(cfg, s, s', Last(s'.history), flow)))
  }

  lemma SameGate(s: State, s': State)
    requires s'.gate == s.gate && s'.gateEvents == s.gateEvents
    ensures GateMoved(s, s')
  {
    assert s'.gateEvents == s.gateEvents + [] && s'.gate == GateAfter(s.gate, []);
  }

  /** What a call that passes the checks finds, and what it is charged. */
  ghost predicate Passed(cfg: Config, s: State, s': State, c: Call) {
    && s'.history == s.history && s'.terminal == s.terminal && s'.mutationInResponse == s.mutationInResponse
    && Count(s.counts, c.tool) < Count(s'.counts, c.tool) <= Cap(c.tool)
    && Count(s.seen, CallKey(cfg, c)) < Count(s'.seen, CallKey(cfg, c)) <= MAX_SAME_CALL
    && (Mutating(cfg, c.tool, c.args) ==> !s.mutationInResponse && ActionIdentity(cfg, c.tool, c.args) !in s.terminal)
  }

  lemma ChargeEffect(cfg: Config, s: State, c: Call)
    requires Mutating(cfg, c.tool, c.args) ==> !s.mutationInResponse && ActionIdentity(cfg, c.tool, c.args) !in s.terminal
    ensures var (s', passed) := Charge(cfg, s, c);
      && Grows(s, s') && s' == s.(seen := s'.seen, counts := s'.counts) && (passed ==> Passed(cfg, s, s', c))
  {
  }

  /** A mutation is refused for good, on evidence or policy. */
  ghost function Stopped(s: State, key: Key, why: string): State {
    s.(terminal := s.terminal[key := why], history := s.history + [Blocked(key, s.turn)])
  }

  lemma StoppedEffect(cfg: Config, s: State, key: Key, why: string)
    ensures Effect(cfg, s, Stopped(s, key, why), Continue)
  {
    var s' := Stopped(s, key, why);
    SameGate(s, s');
    assert s'.history[..|s'.history| - 1] == s.history;
  }

  lemma ScreenCases(cfg: Config, s: State, c: Call)
    ensures var key := ActionIdentity(cfg, c.tool, c.args); var mutates := Mutating(cfg, c.tool, c.args);
      || Screen(cfg, s, c) == (s, false)
      || (exists why :: Screen(cfg, s, c) == (Stopped(s, key, why), false))
      || (Screen(cfg, s, c) == Charge(cfg, s, c) && (mutates ==> !s.mutationInResponse && key !in s.terminal))
  {
    if c.argsValid && c.precondition {
      assert Screen(cfg, s, c) == (s, false)
        || Screen(cfg, s, c) == (Stopped(s, ActionIdentity(cfg, c.tool, c.args), "evidence_precondition"), false);
    } else if c.argsValid && c.policy {
      assert Screen(cfg, s, c) == (s, false)
        || Screen(cfg, s, c) == (Stopped(s, ActionIdentity(cfg, c.tool, c.args), "safety_block"), false);
    }
  }

  lemma ScreenEffect(cfg: Config, s: State, c: Call)
    ensures var (s', passed) := Screen(cfg, s, c);
      && Grows(s, s') && s'.gate == s.gate && s'.gateEvents == s.gateEvents
      && (!passed ==> Effect(cfg, s, s', Continue)) && (passed ==> Passed(cfg, s, s', c))
  {
    var key := ActionIdentity(cfg, c.tool, c.args);
    var (s', passed) := Screen(cfg, s, c);
    ScreenCases(cfg, s, c);
    if why :| (s', passed) == (Stopped(s, key, why), false) {
      StoppedEffect(cfg, s, key, why);
    } else {
      SameGate(s, s');
      if s' != s { ChargeEffect(cfg, s, c); }
    }
  }

  /** A gate event only adds uses. */
  lemma GateStepUses(g: G.Gate, e: G.Event)
    ensures |g.uses| <= |G.Step(g, e).uses| && G.Step(g, e).uses[..|g.uses|] == g.uses
  {
  }

  lemma {:induction false} GateUses(g: G.Gate, events: seq<G.Event>)
    ensures |g.uses| <= |GateAfter(g, events).uses| && GateAfter(g, events).uses[..|g.uses|] == g.uses
  {
    if events != [] {
      GateUses(g, events[..|events| - 1]);
      GateStepUses(GateAfter(g, events[..|events| - 1]), Last(events));
      var h := GateAfter(g, events);
      assert h.uses[..|g.uses|] == h.uses[..|GateAfter(g, events[..|events| - 1]).uses|][..|g.uses|];
    }
  }

  lemma ConsumeUses(g: G.Gate, permit: Option<G.Permit>, incident: string, digest: string, first: real, second: real)
    requires G.ConsumeStep(g, permit, incident, digest, first, second).1 == G.Allowed(true)
    ensures var g' := G.ConsumeStep(g, permit, incident, digest, first, second).0;
      && |g'.uses| == |g.uses| + 1
      && g'.uses[|g.uses|].incident == incident && g'.uses[|g.uses|].digest == digest
  {
  }

  ghost predicate GrantOk(cfg: Config, s: State, s': State, grant: Grant)
    requires grant.Granted?
  {
    && grant.mode != Manual && (cfg.operational ==> grant.mode == Approve)
    && (grant.mode == Approve ==>
          && grant.use.Some? && |s.gate.uses| <= grant.use.value < |s'.gate.uses|
          && s'.gate.uses[grant.use.value].incident == cfg.incident
          && s'.gate.uses[grant.use.value].digest == cfg.digest(grant.action))
  }

  /** Others act on the gate, then it is asked to consume a permit. */
  lemma ConsumeAfter(g: G.Gate, events: seq<G.Event>, permit: Option<G.Permit>, incident: string, digest: string,
                     first: real, second: real)
    ensures var before := GateAfter(g, events);
      var (after, reply) := G.ConsumeStep(before, permit, incident, digest, first, second);
      && after == GateAfter(g, events + [G.Consume(permit, incident, digest, first, second)])
      && |g.uses| <= |before.uses| <= |after.uses| && after.uses[..|g.uses|] == g.uses
      && (reply == G.Allowed(true) ==>
            |before.uses| < |after.uses| && after.uses[|before.uses|].incident == incident
            && after.uses[|before.uses|].digest == digest)
  {
    var consume := G.Consume(permit, incident, digest, first, second);
    var more := events + [consume];
    assert more[..|more| - 1] == events;
    GateUses(g, events);
    GateUses(g, more);
    if G.ConsumeStep(GateAfter(g, events), permit, incident, digest, first, second).1 == G.Allowed(true) {
      ConsumeUses(GateAfter(g, events), permit, incident, digest, first, second);
    }
  }

  lemma AskGateEffect(cfg: Config, s: State, c: Call, action: Fields)
    ensures var (s', ok) := AskGate(cfg, s, c, action);
      var used := |GateAfter(s.gate, c.gateEvents).uses|;
      && GateMoved(s, s') && Grows(s, s')
      && (ok ==> |s.gate.uses| <= used < |s'.gate.uses|
                 && s'.gate.uses[used].incident == cfg.incident && s'.gate.uses[used].digest == cfg.digest(action))
  {
    var s' := AskGate(cfg, s, c, action).0;
    ConsumeAfter(s.gate, c.gateEvents, c.permit, cfg.incident, cfg.digest(action), c.first, c.second);
    var events := c.gateEvents + [G.Consume(c.permit, cfg.incident, cfg.digest(action), c.first, c.second)];
    assert s'.gateEvents == s.gateEvents + events && s'.gate == GateAfter(s.gate, events);
  }

  lemma AskGateFrame(cfg: Config, s: State, c: Call, action: Fields)
    ensures var s' := AskGate(cfg, s, c, action).0; s' == s.(gate := s'.gate, gateEvents := s'.gateEvents)
  {
  }

  lemma AuthoriseEffect(cfg: Config, s: State, c: Call)
    ensures var (s', grant) := Authorise(cfg, s, c);
      && Grows(s, s') && GateMoved(s, s') && s' == s.(gate := s'.gate, gateEvents := s'.gateEvents)
      && (grant.Granted? ==> GrantOk(cfg, s, s', grant))
  {
    var (s', grant) := Authorise(cfg, s, c);
    if EffectiveMode(cfg, c) == Approve && (cfg.operational ==> c.prepared.Some?) {
      var action := if cfg.operational then c.prepared.value else PlainAction(c);
      AskGateEffect(cfg, s, c, action);
      AskGateFrame(cfg, s, c, action);
    } else {
      assert s' == s;
      SameGate(s, s');
    }
  }

  /** Execution adds one entry, and what it says is in the new state. */
  ghost predicate EntryAdded(cfg: Config, s: State, s': State, c: Call, g: Grant, flow: Flow)
    requires g.Granted?
  {
    && s'.history != [] && s'.history[..|s'.history| - 1] == s.history
    && EntryShows(cfg, s, s', c, g, Last(s'.history), flow)
  }

  ghost predicate EntryShows(cfg: Config, s: State, s': State, c: Call, g: Grant, e: Entry, flow: Flow)
    requires g.Granted?
  {
    && e.Executed? && e == NewEntry(cfg, s, c, g, e.terminalError, e.observation)
    && (e.terminalError.Some? ==> e.key in s'.terminal)
    && (e.mutates && flow == Continue ==> s'.mutationInResponse && StillFailing(e.observation))
  }

  /** Execution leaves the counters and the gate alone. */
  ghost predicate ExecutionFrame(s: State, s': State) {
    Grows(s, s') && s'.gate == s.gate && s'.gateEvents == s.gateEvents && s'.counts == s.counts && s'.seen == s.seen
  }

  lemma FinishEffect(cfg: Config, s: State, c: Call, g: Grant, answer: Answer)
    requires g.Granted? && answer.Output?
    ensures var (s', flow) := Finish(cfg, s, c, g, answer);
      ExecutionFrame(s, s') && EntryAdded(cfg, s, s', c, g, flow)
  {
  }

  /** What the model is told, when the run goes on. */
  function AnswerTo(c: Call): Answer {
    if !c.known then UnknownTool(c) else if c.answer.Output? then c.answer else ToolFailed(c.answer.message)
  }

  lemma ExecuteCases(cfg: Config, s: State, c: Call, g: Grant)
    requires g.Granted?
    ensures
      || Execute(cfg, s, c, g) == Finish(cfg, s, c, g, AnswerTo(c))
      || Execute(cfg, s, c, g) == (s, Raise)
      || Execute(cfg, s, c, g) == (s.(history := s.history + [NewEntry(cfg, s, c, g, None, Missing)]), Raise)
  {
  }

  lemma ExecuteEffect(cfg: Config, s: State, c: Call, g: Grant)
    requires g.Granted?
    ensures var (s', flow) := Execute(cfg, s, c, g);
      ExecutionFrame(s, s') && (s'.history == s.history || EntryAdded(cfg, s, s', c, g, flow))
  {
    var (s', flow) := Execute(cfg, s, c, g);
    ExecuteCases(cfg, s, c, g);
    if (s', flow) == Finish(cfg, s, c, g, AnswerTo(c)) {
      FinishEffect(cfg, s, c, g, AnswerTo(c));
    } else if s' != s {
      assert s'.history[..|s'.history| - 1] == s.history;
    }
  }

  lemma GrowsTrans(a: State, b: State, c: State)
    requires Grows(a, b) && Grows(b, c)
    ensures Grows(a, c)
  {
  }

  lemma CallEffect(cfg: Config, s: State, c: Call)
    ensures var (s', flow) := CallStep(cfg, s, c); Effect(cfg, s, s', flow)
  {
    var (screened, passed) := Screen(cfg, s, c);
    ScreenEffect(cfg, s, c);
    if passed {
      if !Mutating(cfg, c.tool, c.args) {
        PlainCallEffect(cfg, s, c);
      } else {
        MutationEffect(cfg, s, c);
      }
    }
  }

  lemma PlainCallEffect(cfg: Config, s: State, c: Call)
    requires !Mutating(cfg, c.tool, c.args) && Screen(cfg, s, c).1
    ensures var (s', flow) := CallStep(cfg, s, c); Effect(cfg, s, s', flow)
  {
    var screened := Screen(cfg, s, c).0;
    var grant := Granted(Auto, PlainAction(c), None);
    var (s', flow) := Execute(cfg, screened, c, grant);
    ScreenEffect(cfg, s, c);
    ExecuteEffect(cfg, screened, c, grant);
    GrowsTrans(s, screened, s');
    SameGate(s, s');
  }

  lemma MutationStep(cfg: Config, s: State, c: Call)
    requires Mutating(cfg, c.tool, c.args) && Screen(cfg, s, c).1
    ensures var (asked, grant) := Authorise(cfg, Screen(cfg, s, c).0, c);
      CallStep(cfg, s, c) == if grant.Denied? then (asked, Return(grant.status)) else Execute(cfg, asked, c, grant)
  {
  }

  lemma MutationEffect(cfg: Config, s: State, c: Call)
    requires Mutating(cfg, c.tool, c.args) && Screen(cfg, s, c).1
    ensures var (s', flow) := CallStep(cfg, s, c); Effect(cfg, s, s', flow)
  {
    var screened := Screen(cfg, s, c).0;
    var (asked, grant) := Authorise(cfg, screened, c);
    MutationStep(cfg, s, c);
    ScreenEffect(cfg, s, c);
    AuthoriseEffect(cfg, screened, c);
    GrowsTrans(s, screened, asked);
    if grant.Granted? { GrantedEffect(cfg, s, asked, c, grant); }
  }

  /** A granted mutation, from the state before its checks. */
  lemma GrantedEffect(cfg: Config, s: State, asked: State, c: Call, grant: Grant)
    requires grant.Granted? && Mutating(cfg, c.tool, c.args)
    requires Passed(cfg, s, asked, c) && Grows(s, asked) && GateMoved(s, asked) && GrantOk(cfg, s, asked, grant)
    ensures var (s', flow) := Execute(cfg, asked, c, grant); Effect(cfg, s, s', flow)
  {
    var (s', flow) := Execute(cfg, asked, c, grant);
    ExecuteEffect(cfg, asked, c, grant);
    GrowsTrans(s, asked, s');
    GateMovedSame(s, asked, s');
    if s'.history != asked.history { MutationEntryOk(cfg, s, asked, s', c, grant, Last(s'.history), flow); }
  }

  lemma GateMovedSame(s: State, a: State, b: State)
    requires GateMoved(s, a) && b.gate == a.gate && b.gateEvents == a.gateEvents
    ensures GateMoved(s, b)
  {
  }

  lemma MutationEntryOk(cfg: Config, s: State, asked: State, s': State, c: Call, grant: Grant, e: Entry, flow: Flow)
    requires grant.Granted? && asked.turn == s.turn
    requires Mutating(cfg, c.tool, c.args) && !s.mutationInResponse && ActionIdentity(cfg, c.tool, c.args) !in s.terminal
    requires Count(s.counts, c.tool) < Count(s'.counts, c.tool) <= Cap(c.tool)
    requires Count(s.seen, CallKey(cfg, c)) < Count(s'.seen, CallKey(cfg, c)) <= MAX_SAME_CALL
    requires GrantOk(cfg, s, s', grant) && EntryShows(cfg, asked, s', c, grant, e, flow)
    ensures NewEntryOk(cfg, s, s', e, flow)
  {
  }


  // ---- the invariant over the history ----

  /** The entry makes its action identity terminal. */
  predicate EndsKey(e: Entry) {
    e.Blocked? || e.terminalError.Some?
  }

  ghost predicate Separated(h: seq<Entry>) {
    forall i, j :: 0 <= i < j < |h| && IsMutation(h[i]) && IsMutation(h[j]) ==>
      StillFailing(h[i].observation) && h[i].turn < h[j].turn
  }

  ghost predicate TerminalRespected(h: seq<Entry>) {
    forall i, j :: 0 <= i < j < |h| && EndsKey(h[i]) && IsMutation(h[j]) ==> h[i].key != h[j].key
  }

  function Executions(h: seq<Entry>, tool: string): nat {
    if h == [] then 0
    else Executions(h[..|h| - 1], tool) + if Last(h).Executed? && Last(h).tool == tool then 1 else 0
  }

  function SameCalls(h: seq<Entry>, callKey: string): nat {
    if h == [] then 0
    else SameCalls(h[..|h| - 1], callKey) + if Last(h).Executed? && Last(h).callKey == callKey then 1 else 0
  }

  ghost predicate Capped(s: State) {
    && (forall t :: Executions(s.history, t) <= Cap(t) && Executions(s.history, t) <= Count(s.counts, t))
    && (forall k :: SameCalls(s.history, k) <= MAX_SAME_CALL && SameCalls(s.history, k) <= Count(s.seen, k))
  }

  ghost predicate UseOk(cfg: Config, uses: seq<G.Use>, e: Entry)
    requires e.Executed?
  {
    && e.mode != Manual && (cfg.operational ==> e.mode == Approve)
    && (e.mode == Approve ==>
          && e.use.Some? && e.use.value < |uses|
          && uses[e.use.value].incident == cfg.incident && uses[e.use.value].digest == cfg.digest(e.action))
  }

  ghost predicate Approved(cfg: Config, s: State) {
    && (forall i :: 0 <= i < |s.history| && IsMutation(s.history[i]) ==> UseOk(cfg, s.gate.uses, s.history[i]))
    && (forall i, j :: 0 <= i < j < |s.history| && ByApproval(s.history[i]) && ByApproval(s.history[j]) ==>
          s.history[i].use.Some? && s.history[j].use.Some? && s.history[i].use.value < s.history[j].use.value)
  }

  predicate ByApproval(e: Entry) {
    IsMutation(e) && e.mode == Approve
  }

  ghost predicate GateOk(cfg: Config, s: State) {
    s.gate == GateAfter(G.Empty(cfg.timeout), s.gateEvents)
  }

  ghost predicate Inv(cfg: Config, s: State) {
    Separated(s.history) && TerminalRespected(s.history) && Capped(s) && Approved(cfg, s) && GateOk(cfg, s)
  }

  /** What also holds as long as the loop goes on. */
  ghost predicate GoingOn(s: State) {
    && (forall i :: 0 <= i < |s.history| && IsMutation(s.history[i]) ==>
          && StillFailing(s.history[i].observation) && s.history[i].turn <= s.turn
          && (s.history[i].turn == s.turn ==> s.mutationInResponse))
    && (forall i :: 0 <= i < |s.history| && EndsKey(s.history[i]) ==> s.history[i].key in s.terminal)
  }

  lemma {:induction false} GateAfterConcat(g: G.Gate, a: seq<G.Event>, b: seq<G.Event>)
    ensures GateAfter(g, a + b) == GateAfter(GateAfter(g, a), b)
  {
    if b == [] {
      assert a + b == a;
    } else {
      assert (a + b)[..|a + b| - 1] == a + b[..|b| - 1];
      GateAfterConcat(g, a, b[..|b| - 1]);
    }
  }

  lemma GateKept(cfg: Config, s: State, s': State)
    requires GateOk(cfg, s) && GateMoved(s, s')
    ensures GateOk(cfg, s')
  {
    var events :| s'.gateEvents == s.gateEvents + events && s'.gate == GateAfter(s.gate, events);
    GateAfterConcat(G.Empty(cfg.timeout), s.gateEvents, events);
  }

  lemma Snoc<T>(h: seq<T>, h': seq<T>)
    requires h' != [] && h'[..|h'| - 1] == h
    ensures |h'| == |h| + 1 && Last(h') == h'[|h|] && forall i :: 0 <= i < |h| ==> h'[i] == h[i]
  {
  }

  lemma SeparatedKept(cfg: Config, s: State, s': State, flow: Flow)
    requires Separated(s.history) && GoingOn(s) && Effect(cfg, s, s', flow)
    ensures Separated(s'.history)
  {
  }

  lemma TerminalKept(cfg: Config, s: State, s': State, flow: Flow)
    requires TerminalRespected(s.history) && GoingOn(s) && Effect(cfg, s, s', flow)
    ensures TerminalRespected(s'.history)
  {
  }

  lemma CappedKept(cfg: Config, s: State, s': State, flow: Flow)
    requires Capped(s) && Effect(cfg, s, s', flow)
    ensures Capped(s')
  {
  }

  lemma ApprovedKept(cfg: Config, s: State, s': State, flow: Flow)
    requires Approved(cfg, s) && Effect(cfg, s, s', flow)
    ensures Approved(cfg, s')
  {
    var h, h' := s.history, s'.history;
    if h' != h { Snoc(h, h'); }
    forall i | 0 <= i < |h'| && IsMutation(h'[i]) ensures UseOk(cfg, s'.gate.uses, h'[i]) {
      if i < |h| {
        assert UseOk(cfg, s.gate.uses, h[i]);
        UsesStay(cfg, s.gate.uses, s'.gate.uses, h[i]);
      }
    }
    forall i, j | 0 <= i < j < |h'| && ByApproval(h'[i]) && ByApproval(h'[j])
      ensures h'[i].use.Some? && h'[j].use.Some? && h'[i].use.value < h'[j].use.value
    {
      assert IsMutation(h[i]) && UseOk(cfg, s.gate.uses, h[i]);
    }
  }

  lemma UsesStay(cfg: Config, uses: seq<G.Use>, more: seq<G.Use>, e: Entry)
    requires e.Executed? && UseOk(cfg, uses, e) && |uses| <= |more| && more[..|uses|] == uses
    ensures UseOk(cfg, more, e)
  {
  }

  lemma GoingOnKept(cfg: Config, s: State, s': State)
    requires GoingOn(s) && Effect(cfg, s, s', Continue)
    ensures GoingOn(s')
  {
  }

  lemma EffectKeeps(cfg: Config, s: State, s': State, flow: Flow)
    requires Inv(cfg, s) && GoingOn(s) && Effect(cfg, s, s', flow)
    ensures Inv(cfg, s') && (flow == Continue ==> GoingOn(s'))
  {
    SeparatedKept(cfg, s, s', flow);
    TerminalKept(cfg, s, s', flow);
    CappedKept(cfg, s, s', flow);
    ApprovedKept(cfg, s, s', flow);
    GateKept(cfg, s, s');
    if flow == Continue { GoingOnKept(cfg, s, s'); }
  }

  lemma {:induction false} CallsKeep(cfg: Config, s: State, calls: seq<Call>)
    requires Inv(cfg, s) && GoingOn(s)
    ensures var (s', flow) := Calls(cfg, s, calls);
      Inv(cfg, s') && s'.turn == s.turn && (flow == Continue ==> GoingOn(s'))
  {
    if calls != [] {
      CallsKeep(cfg, s, calls[..|calls| - 1]);
      var (m, flow) := Calls(cfg, s, calls[..|calls| - 1]);
      if flow == Continue {
        CallEffect(cfg, m, Last(calls));
        var (s', f) := CallStep(cfg, m, Last(calls));
        EffectKeeps(cfg, m, s', f);
      }
    }
  }

  lemma BeginKeeps(cfg: Config, s: State, turn: nat)
    requires Inv(cfg, s) && GoingOn(s) && (s.turn < turn || s.history == [])
    ensures Inv(cfg, BeginTurn(s, turn)) && GoingOn(BeginTurn(s, turn))
  {
  }

  lemma ResponseKeeps(cfg: Config, s: State, turn: nat, r: Response)
    requires Inv(cfg, s) && GoingOn(s) && (s.turn < turn || s.history == [])
    ensures var (s', flow) := ResponseStep(cfg, s, turn, r);
      Inv(cfg, s') && s'.turn == turn && (flow == Continue ==> GoingOn(s'))
  {
    var begun := BeginTurn(s, turn);
    BeginKeeps(cfg, s, turn);
    var (s', flow) := ResponseStep(cfg, s, turn, r);
    if r.Response? && r.calls != [] {
      CallsKeep(cfg, begun, r.calls);
    } else {
      RetryKeeps(cfg, begun, s');
    }
  }

  lemma RetryKeeps(cfg: Config, s: State, s': State)
    requires Inv(cfg, s) && GoingOn(s) && s' == s.(retryGiven := s'.retryGiven)
    ensures Inv(cfg, s') && GoingOn(s')
  {
  }

  lemma {:induction false} RunKeeps(cfg: Config, script: seq<Response>)
    ensures var (s, flow) := Run(cfg, script);
      Inv(cfg, s) && (flow == Continue ==> GoingOn(s) && (if script == [] then s.history == [] else s.turn == |script| - 1))
  {
    if script != [] {
      RunKeeps(cfg, script[..|script| - 1]);
      var (s, flow) := Run(cfg, script[..|script| - 1]);
      if flow == Continue { ResponseKeeps(cfg, s, |script| - 1, Last(script)); }
    }
  }

  // ---- main results ----

  /** Between two executed mutations lies a later model response and a verifier observation of
      exactly failed and unresolved; so a response executes at most one mutation. */
  lemma MutationsAreSeparated(cfg: Config, script: seq<Response>, i: nat, j: nat)
    requires var h := Run(cfg, script).0.history;
      i < j < |h| && IsMutation(h[i]) && IsMutation(h[j])
    ensures var h := Run(cfg, script).0.history; StillFailing(h[i].observation) && h[i].turn < h[j].turn
  {
    RunKeeps(cfg, script);
  }

  /** No mutation is executed after its action identity was blocked on evidence or policy, or had a
      terminal error. */
  lemma TerminalActionsStayStopped(cfg: Config, script: seq<Response>, i: nat, j: nat)
    requires var h := Run(cfg, script).0.history; i < j < |h| && EndsKey(h[i]) && IsMutation(h[j])
    ensures var h := Run(cfg, script).0.history; h[i].key != h[j].key
  {
    RunKeeps(cfg, script);
  }

  /** Executions of a tool stay within its cap, and of one exact call within three. */
  lemma ExecutionsAreCapped(cfg: Config, script: seq<Response>, tool: string, callKey: string)
    ensures var h := Run(cfg, script).0.history;
      Executions(h, tool) <= Cap(tool) && SameCalls(h, callKey) <= MAX_SAME_CALL
  {
    RunKeeps(cfg, script);
  }

  lemma {:induction false} GateIsRun(timeout: real, events: seq<G.Event>)
    ensures GateAfter(G.Empty(timeout), events) == G.Run(timeout, events)
  {
    if events != [] { GateIsRun(timeout, events[..|events| - 1]); }
  }

  /** In operational mode nothing is mutated but by approval, in manual mode nothing at all. Each
      mutation by approval has its own use of the gate, and that use an accepted approval of its
      own: for the same incident and the digest of exactly the executed action, by a named
      operator, approval and use both within the request's time limit. */
  lemma MutationsAreApproved(cfg: Config, script: seq<Response>, i: nat, j: nat)
    requires var h := Run(cfg, script).0.history; i < |h| && j < |h| && IsMutation(h[i]) && ByApproval(h[j])
    ensures var s := Run(cfg, script).0; var h := s.history;
      && h[i].mode != Manual && (cfg.operational ==> h[i].mode == Approve)
      && h[j].use.Some? && h[j].use.value < |s.gate.uses|
      && var u := s.gate.uses[h[j].use.value];
         && u.incident == cfg.incident && u.digest == cfg.digest(h[j].action)
         && G.Authorised(s.gate, u)
         && (ByApproval(h[i]) && i != j ==>
               && h[i].use.Some? && h[i].use.value < |s.gate.uses|
               && s.gate.uses[h[i].use.value].permit in s.gate.sources
               && s.gate.sources[s.gate.uses[h[i].use.value].permit] != s.gate.sources[u.permit])
  {
    RunKeeps(cfg, script);
    var s := Run(cfg, script).0;
    assert UseOk(cfg, s.gate.uses, s.history[i]) && UseOk(cfg, s.gate.uses, s.history[j]);
    GateIsRun(cfg.timeout, s.gateEvents);
    var other := if ByApproval(s.history[i]) then s.history[i].use.value else s.history[j].use.value;
    G.UsesAreAuthorised(cfg.timeout, s.gateEvents, other, s.history[j].use.value);
  }
}
