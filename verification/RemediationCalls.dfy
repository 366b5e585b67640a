/** What one tool call comes to at any point of the remediation loop (agents/coordinator.py:1548-2020)
    and when an empty response concludes it (agents/coordinator.py:1392-1440), told from the record. */
module RemediationCalls {
  import opened Basics
  import opened Evidence
  import opened Remediation
  import opened RemediationSafety
  import opened RemediationEnds
  import G = Approval

  // ---- which tools mutate, and which answers stop an action ----

  lemma WhatMutates(cfg: Config, tool: string, args: Fields)
    ensures Mutating(cfg, tool, args) <==>
      || tool in {"alertmanager_silence", "argocd_rollback", "chaos_stop_experiment", "kubectl_scale"}
      || (tool == "kubectl_rollout" && "action" in args && Truthy(cfg.nonzero, args["action"])
          && cfg.fold(cfg.strip(cfg.text(args["action"]))) == "undo")
      || (tool == "kubectl_rollout" && !("action" in args && Truthy(cfg.nonzero, args["action"]))
          && cfg.fold(cfg.strip("")) == "undo")
  {
  }

  /** The answer is no success, and its class or the text of its error says that a repeat is pointless. */
  ghost predicate Hopeless(cfg: Config, a: Answer)
    requires a.Output?
  {
    && a.success != Bool(true)
    && (|| cfg.fold(cfg.strip(OrEmpty(cfg, a.errorClass))) in {
             "authorization_failed", "configuration_error", "evidence_precondition", "forbidden", "invalid_action_arguments",
             "invalid_arguments", "invalid_revision", "not_found", "safety_block", "target_conflict", "target_mismatch",
             "terminal_action_blocked"}
        || exists part :: Contains(cfg.fold(OrEmpty(cfg, a.error)), part) && part in {
             "invalid revision", "invalid rollout action", "invalid namespace", "authorization", "forbidden", "not found",
             "doesn't have a resource type"})
  }

  lemma HopelessIsTerminal(cfg: Config, a: Answer)
    requires a.Output?
    ensures TerminalErrorClass(cfg, a).Some? <==> Hopeless(cfg, a)
  {
  }

  /** The arguments that say what an action is done to. */
  function TargetKeys(tool: string): set<string> {
    match tool
    case "argocd_rollback" => {"app"}
    case "kubectl_rollout" => {"namespace", "resource"}
    case "kubectl_scale" => {"namespace", "deployment"}
    case "chaos_stop_experiment" => {"kind", "namespace", "name"}
    case _ => {}
  }

  /** Actions of one tool on one target have one identity, whatever else their arguments say; actions
      of different tools never share one. */
  lemma IdentityIsTarget(cfg: Config, tool: string, args: Fields, tool': string, args': Fields)
    ensures tool == tool' && (forall k :: k in TargetKeys(tool) ==> Get(args, k, Null) == Get(args', k, Null) && (k in args <==> k in args'))
            ==> ActionIdentity(cfg, tool, args) == ActionIdentity(cfg, tool', args')
    ensures tool != tool' ==> ActionIdentity(cfg, tool, args) != ActionIdentity(cfg, tool', args')
  {
    if tool == tool' && forall k :: k in TargetKeys(tool) ==> Get(args, k, Null) == Get(args', k, Null) && (k in args <==> k in args') {
      forall k, d | k in TargetKeys(tool) ensures Part(cfg, args, k, d) == Part(cfg, args', k, d) {}
    }
  }

  // ---- one call ----

  /** A mutation that the history speaks against: one in this response already, or its identity stopped. */
  ghost predicate Withheld(cfg: Config, h: seq<Entry>, turn: nat, c: Call) {
    Mutating(cfg, c.tool, c.args) && (MutatedIn(h, turn) || Stops(h, ActionIdentity(cfg, c.tool, c.args)))
  }

  /** The checks on evidence and policy are reached, and one objects. */
  ghost predicate Objected(cfg: Config, h: seq<Entry>, turn: nat, c: Call) {
    c.argsValid && !Withheld(cfg, h, turn, c) && (c.precondition || c.policy)
  }

  /** Nothing objects to the call, and neither of its two caps is reached. */
  ghost predicate Admitted(cfg: Config, s: State, c: Call) {
    && c.argsValid && !Withheld(cfg, s.history, s.turn, c) && !c.precondition && !c.policy && !c.breaker
    && Count(s.seen, CallKey(cfg, c)) < 3 && Executions(s.history, c.tool) < Cap(c.tool)
  }

  /** The entry that a refusal leaves: an objection on evidence or policy stops the mutation's identity. */
  ghost function Stopping(cfg: Config, s: State, c: Call): seq<Entry> {
    if Objected(cfg, s.history, s.turn, c) && Mutating(cfg, c.tool, c.args)
    then [Blocked(ActionIdentity(cfg, c.tool, c.args), s.turn)] else []
  }

  lemma ScreenAnswered(cfg: Config, s: State, c: Call)
    requires ChecksTold(s) && !s.verifierResolved
    ensures var (s', passed) := Screen(cfg, s, c);
      && (passed <==> Admitted(cfg, s, c))
      && s'.history == s.history + Stopping(cfg, s, c)
      && s'.turn == s.turn && s'.gate == s.gate && s'.verifierResolved == s.verifierResolved
  {
    assert ActionIdentity(cfg, c.tool, c.args) in s.terminal <==> Stops(s.history, ActionIdentity(cfg, c.tool, c.args));
    assert Executions(s.history, c.tool) == Least(Count(s.counts, c.tool), Cap(c.tool));
  }

  /** The action that approval is asked for. */
  function ActionOf(cfg: Config, c: Call): Fields {
    if cfg.operational && c.prepared.Some? then c.prepared.value else map["tool" := String(c.tool), "arguments" := Object(c.args)]
  }

  /** The gate, after what others did to it, holds the permit, and it covers the action at these times. */
  predicate HasPermit(cfg: Config, g: G.Gate, c: Call) {
    && c.permit.Some? && c.permit.value.id in g.permits && g.permits[c.permit.value.id] == c.permit.value
    && c.permit.value.incident == cfg.incident && c.permit.value.digest == cfg.digest(ActionOf(cfg, c))
    && 0.0 <= c.first - c.permit.value.issuedAt <= g.timeout && c.second <= c.permit.value.expires
  }

  /** Why an admitted mutation is not authorised. */
  function Denial(cfg: Config, g: G.Gate, c: Call): Option<string> {
    if cfg.operational && c.prepared.None? then Some("action_preparation_failed")
    else if c.policyMode == Manual then Some("approval_manual_required")
    else if (cfg.operational || c.policyMode == Approve) && !HasPermit(cfg, g, c) then Some("approval_denied")
    else None
  }

  lemma AskAnswered(cfg: Config, s: State, c: Call)
    ensures var (s', ok) := AskGate(cfg, s, c, ActionOf(cfg, c));
      && (ok <==> HasPermit(cfg, GateAfter(s.gate, c.gateEvents), c))
      && s'.history == s.history && s'.turn == s.turn && s'.verifierResolved == s.verifierResolved
  {
  }

  lemma AuthoriseAnswered(cfg: Config, s: State, c: Call)
    ensures var (s', grant) := Authorise(cfg, s, c); var why := Denial(cfg, GateAfter(s.gate, c.gateEvents), c);
      && (if why.Some? then grant == Denied(why.value)
          else grant.Granted? && grant.action == ActionOf(cfg, c)
               && grant.mode == (if cfg.operational || c.policyMode == Approve then Approve else Auto))
      && s'.history == s.history && s'.turn == s.turn && s'.verifierResolved == s.verifierResolved
  {
    AskAnswered(cfg, s, c);
  }

  /** The entry of the call; only a known mutating tool makes it a mutation, and only then is it observed. */
  ghost predicate EntryTells(cfg: Config, turn: nat, c: Call, e: Entry) {
    && e.Executed? && e.turn == turn && e.tool == c.tool && e.callKey == CallKey(cfg, c)
    && e.key == ActionIdentity(cfg, c.tool, c.args) && (e.mutates <==> Mutating(cfg, c.tool, c.args) && c.known)
    && (Mutating(cfg, c.tool, c.args) ==>
          e.action == ActionOf(cfg, c) && e.mode == if cfg.operational || c.policyMode == Approve then Approve else Auto)
  }

  /** The answer of the tool was taken: one entry more, which says whether its action is stopped and what
      the verifier saw, and decides how the loop goes on. */
  ghost predicate Finished(cfg: Config, s: State, c: Call, s': State, flow: Flow) {
    && |s'.history| == |s.history| + 1 && s'.history[..|s.history|] == s.history
    && var e := Last(s'.history);
       && EntryTells(cfg, s.turn, c, e)
       && (e.terminalError.Some? <==> Mutating(cfg, c.tool, c.args) && Hopeless(cfg, AnswerTo(c)))
       && e.observation == (if e.mutates then c.observation else Missing)
       && flow == (if !e.mutates || c.observation == Observed(Bool(false), "failed") then Continue
                   else if c.observation == Observed(Bool(true), "passed") then Return("resolved") else Return("escalated"))
  }

  /** The call goes to the tool. In operational mode an exception ends the run, and leaves an entry
      exactly if the tool had been entered. */
  ghost predicate RunsCall(cfg: Config, s: State, c: Call, s': State, flow: Flow) {
    if c.known && cfg.operational && c.answer.RaisedBefore? then s'.history == s.history && flow == Raise
    else if c.known && cfg.operational && c.answer.RaisedInside? then
      && |s'.history| == |s.history| + 1 && s'.history[..|s.history|] == s.history
      && EntryTells(cfg, s.turn, c, Last(s'.history)) && flow == Raise
    else Finished(cfg, s, c, s', flow)
  }

  lemma FinishAnswered(cfg: Config, s: State, c: Call, g: Grant)
    requires g.Granted? && !s.verifierResolved
    requires Mutating(cfg, c.tool, c.args) ==>
      g.action == ActionOf(cfg, c) && g.mode == (if cfg.operational || c.policyMode == Approve then Approve else Auto)
    ensures var (s', flow) := Finish(cfg, s, c, g, AnswerTo(c)); Finished(cfg, s, c, s', flow)
  {
    HopelessIsTerminal(cfg, AnswerTo(c));
    var s' := Finish(cfg, s, c, g, AnswerTo(c)).0;
    assert s'.history == s.history + [Last(s'.history)];
  }

  lemma ExecuteAnswered(cfg: Config, s: State, c: Call, g: Grant)
    requires g.Granted? && !s.verifierResolved
    requires Mutating(cfg, c.tool, c.args) ==>
      g.action == ActionOf(cfg, c) && g.mode == (if cfg.operational || c.policyMode == Approve then Approve else Auto)
    ensures var (s', flow) := Execute(cfg, s, c, g); RunsCall(cfg, s, c, s', flow)
  {
    if !(c.known && cfg.operational && !c.answer.Output?) {
      FinishAnswered(cfg, s, c, g);
      assert Execute(cfg, s, c, g) == Finish(cfg, s, c, g, AnswerTo(c));
    }
  }

  /** How a call is answered: refused by a check (which stops a mutation if evidence or policy objects),
      denied for want of preparation or approval, or given to the tool. */
  ghost predicate Answered(cfg: Config, s: State, c: Call, s': State, flow: Flow) {
    var why := Denial(cfg, GateAfter(s.gate, c.gateEvents), c);
    if !Admitted(cfg, s, c) then
      && flow == Continue
      && s'.history == s.history + Stopping(cfg, s, c)
    else if Mutating(cfg, c.tool, c.args) && why.Some? then flow == Return(why.value) && s'.history == s.history
    else RunsCall(cfg, s, c, s', flow)
  }

  lemma RunsFrom(cfg: Config, s: State, t: State, c: Call, s': State, flow: Flow)
    requires s.history == t.history && s.turn == t.turn && RunsCall(cfg, t, c, s', flow)
    ensures RunsCall(cfg, s, c, s', flow)
  {
  }

  lemma MutationAnswered(cfg: Config, s: State, screened: State, c: Call)
    requires Mutating(cfg, c.tool, c.args) && Screen(cfg, s, c) == (screened, true)
    requires Admitted(cfg, s, c) && !s.verifierResolved && screened.verifierResolved == s.verifierResolved
    requires screened.history == s.history && screened.turn == s.turn && screened.gate == s.gate
    ensures var (s', flow) := CallStep(cfg, s, c); Answered(cfg, s, c, s', flow)
  {
    MutationStep(cfg, s, c);
    AuthoriseAnswered(cfg, screened, c);
    var (asked, grant) := Authorise(cfg, screened, c);
    if grant.Granted? {
      ExecuteAnswered(cfg, asked, c, grant);
      var (s', flow) := Execute(cfg, asked, c, grant);
      RunsFrom(cfg, s, asked, c, s', flow);
    }
  }

  lemma ReadingAnswered(cfg: Config, s: State, screened: State, c: Call)
    requires !Mutating(cfg, c.tool, c.args) && Screen(cfg, s, c) == (screened, true)
    requires Admitted(cfg, s, c) && !s.verifierResolved && screened.verifierResolved == s.verifierResolved
    requires screened.history == s.history && screened.turn == s.turn
    ensures var (s', flow) := CallStep(cfg, s, c); Answered(cfg, s, c, s', flow)
  {
    ExecuteAnswered(cfg, screened, c, Granted(Auto, PlainAction(c), None));
    var (s', flow) := Execute(cfg, screened, c, Granted(Auto, PlainAction(c), None));
    RunsFrom(cfg, s, screened, c, s', flow);
  }

  lemma StepAnswered(cfg: Config, s: State, c: Call)
    requires ChecksTold(s) && !s.verifierResolved
    ensures var (s', flow) := CallStep(cfg, s, c); Answered(cfg, s, c, s', flow)
  {
    ScreenAnswered(cfg, s, c);
    var (screened, passed) := Screen(cfg, s, c);
    if !passed {
      ScreenedEnds(cfg, s, c);
    } else if Mutating(cfg, c.tool, c.args) {
      AdmittedStops(cfg, s, c);
      MutationAnswered(cfg, s, screened, c);
    } else {
      AdmittedStops(cfg, s, c);
      ReadingAnswered(cfg, s, screened, c);
    }
  }

  /** Nothing objected to an admitted call. */
  lemma AdmittedStops(cfg: Config, s: State, c: Call)
    requires Admitted(cfg, s, c)
    ensures Stopping(cfg, s, c) == []
  {
  }

  /** At every point of every run, in every mode, a call is answered so. */
  lemma CallIsAnswered(cfg: Config, script: seq<Response>, calls: seq<Call>, c: Call)
    requires Midway(cfg, script, calls)
    ensures var s := StateMidway(cfg, script, calls); var (s', flow) := CallStep(cfg, s, c); Answered(cfg, s, c, s', flow)
  {
    MidwayTold(cfg, script, calls);
    StepAnswered(cfg, StateMidway(cfg, script, calls), c);
  }

  // ---- an empty response ----

  /** The call runs a mutating tool, which answers with success. */
  predicate SucceedsAt(cfg: Config, s: State, c: Call) {
    && Mutating(cfg, c.tool, c.args) && Truthy(cfg.nonzero, AnswerTo(c).success)
    && var (s', _) := CallStep(cfg, s, c); s'.history != s.history && Last(s'.history).Executed?
  }

  predicate SucceedsIn(cfg: Config, s: State, calls: seq<Call>, j: nat)
    requires j < |calls|
  {
    SucceedsAt(cfg, Calls(cfg, s, calls[..j]).0, calls[j])
  }

  predicate SomeSucceeds(cfg: Config, s: State, calls: seq<Call>) {
    exists j :: 0 <= j < |calls| && SucceedsIn(cfg, s, calls, j)
  }

  predicate SucceedsBy(cfg: Config, script: seq<Response>, i: nat)
    requires i < |script|
  {
    script[i].Response? && SomeSucceeds(cfg, BeginTurn(Run(cfg, script[..i]).0, i), script[i].calls)
  }

  predicate Succeeded(cfg: Config, script: seq<Response>) {
    exists i :: 0 <= i < |script| && SucceedsBy(cfg, script, i)
  }

  predicate HasEmpty(script: seq<Response>) {
    exists i :: 0 <= i < |script| && script[i] == Response([])
  }

  lemma StepSuccess(cfg: Config, s: State, c: Call)
    ensures var (s', flow) := CallStep(cfg, s, c);
      && (flow == Continue ==> (s'.mutationSucceeded <==> s.mutationSucceeded || SucceedsAt(cfg, s, c)))
      && s'.retryGiven == s.retryGiven
  {
    ScreenSuccess(cfg, s, c);
    var (screened, passed) := Screen(cfg, s, c);
    if passed {
      if !Mutating(cfg, c.tool, c.args) {
        ExecuteSuccess(cfg, screened, c, Granted(Auto, PlainAction(c), None));
      } else {
        AuthoriseSuccess(cfg, screened, c);
        var (asked, grant) := Authorise(cfg, screened, c);
        if grant.Granted? { ExecuteSuccess(cfg, asked, c, grant); }
      }
    }
  }

  lemma ScreenSuccess(cfg: Config, s: State, c: Call)
    ensures var (s', passed) := Screen(cfg, s, c);
      && s'.mutationSucceeded == s.mutationSucceeded && s'.retryGiven == s.retryGiven
      && (passed ==> s'.history == s.history) && (s'.history != s.history ==> Last(s'.history).Blocked?)
  {
  }

  lemma AuthoriseSuccess(cfg: Config, s: State, c: Call)
    ensures var s' := Authorise(cfg, s, c).0;
      s'.mutationSucceeded == s.mutationSucceeded && s'.retryGiven == s.retryGiven && s'.history == s.history
  {
  }

  lemma ExecuteSuccess(cfg: Config, s: State, c: Call, g: Grant)
    requires g.Granted?
    ensures var (s', flow) := Execute(cfg, s, c, g);
      && s'.retryGiven == s.retryGiven
      && (flow == Continue ==> s'.history != s.history && Last(s'.history).Executed?)
      && (flow == Continue ==>
            (s'.mutationSucceeded <==>
               s.mutationSucceeded || (Mutating(cfg, c.tool, c.args) && Truthy(cfg.nonzero, AnswerTo(c).success))))
  {
    ExecuteCases(cfg, s, c, g);
    if Execute(cfg, s, c, g) == Finish(cfg, s, c, g, AnswerTo(c)) {
      var s' := Finish(cfg, s, c, g, AnswerTo(c)).0;
      assert |s'.history| == |s.history| + 1;
    }
  }

  lemma {:induction false} CallsSuccess(cfg: Config, s: State, calls: seq<Call>)
    ensures var (s', flow) := Calls(cfg, s, calls);
      && (flow == Continue ==> (s'.mutationSucceeded <==> s.mutationSucceeded || SomeSucceeds(cfg, s, calls)))
      && s'.retryGiven == s.retryGiven
  {
    if calls != [] {
      var init := calls[..|calls| - 1];
      CallsSuccess(cfg, s, init);
      StepSuccess(cfg, Calls(cfg, s, init).0, Last(calls));
      SomeSucceedsSnoc(cfg, s, calls);
    }
  }

  lemma SameSuccess(cfg: Config, s: State, calls: seq<Call>, j: nat)
    requires j < |calls| - 1
    ensures SucceedsIn(cfg, s, calls, j) <==> SucceedsIn(cfg, s, calls[..|calls| - 1], j)
  {
    assert calls[..|calls| - 1][..j] == calls[..j];
  }

  lemma SomeSucceedsSnoc(cfg: Config, s: State, calls: seq<Call>)
    requires calls != []
    ensures var init := calls[..|calls| - 1];
      SomeSucceeds(cfg, s, calls) <==> SomeSucceeds(cfg, s, init) || SucceedsIn(cfg, s, calls, |calls| - 1)
  {
    var init := calls[..|calls| - 1];
    if j :| 0 <= j < |calls| && SucceedsIn(cfg, s, calls, j) {
      if j < |init| { SameSuccess(cfg, s, calls, j); }
    }
    if j :| 0 <= j < |init| && SucceedsIn(cfg, s, init, j) { SameSuccess(cfg, s, calls, j); }
  }

  lemma SameSuccessBy(cfg: Config, script: seq<Response>, i: nat)
    requires i < |script| - 1
    ensures SucceedsBy(cfg, script, i) <==> SucceedsBy(cfg, script[..|script| - 1], i)
  {
    assert script[..|script| - 1][..i] == script[..i];
  }

  lemma SucceededSnoc(cfg: Config, script: seq<Response>)
    requires script != []
    ensures Succeeded(cfg, script) <==> Succeeded(cfg, script[..|script| - 1]) || SucceedsBy(cfg, script, |script| - 1)
  {
    var init := script[..|script| - 1];
    if i :| 0 <= i < |script| && SucceedsBy(cfg, script, i) {
      if i < |init| { SameSuccessBy(cfg, script, i); }
    }
    if i :| 0 <= i < |init| && SucceedsBy(cfg, init, i) { SameSuccessBy(cfg, script, i); }
  }

  lemma HasEmptySnoc(script: seq<Response>)
    requires script != []
    ensures HasEmpty(script) <==> HasEmpty(script[..|script| - 1]) || Last(script) == Response([])
  {
    var init := script[..|script| - 1];
    if i :| 0 <= i < |init| && init[i] == Response([]) { assert script[i] == Response([]); }
  }

  /** While the loop goes on, its two marks are what the script shows. */
  lemma {:induction false} MarksTold(cfg: Config, script: seq<Response>)
    requires Run(cfg, script).1 == Continue
    ensures var s := Run(cfg, script).0; (s.mutationSucceeded <==> Succeeded(cfg, script)) && (s.retryGiven <==> HasEmpty(script))
  {
    if script != [] {
      var init := script[..|script| - 1];
      MarksTold(cfg, init);
      SucceededSnoc(cfg, script);
      HasEmptySnoc(script);
      var s := Run(cfg, init).0;
      if Last(script).Response? && Last(script).calls != [] {
        CallsSuccess(cfg, BeginTurn(s, |init|), Last(script).calls);
      }
    }
  }

  /** A response without a call concludes the run, unless it is the first one, no mutation has succeeded
      and no action has been stopped: then the model is asked once more. */
  lemma EmptyResponseAnswered(cfg: Config, script: seq<Response>)
    requires Run(cfg, script).1 == Continue
    ensures Run(cfg, script + [Response([])]).1 ==
      if HasEmpty(script) || Succeeded(cfg, script) || (exists e :: e in Run(cfg, script).0.history && EndsKey(e))
      then Return("conclusion") else Continue
  {
    MarksTold(cfg, script);
    RunTold(cfg, script);
    var s := Run(cfg, script).0;
    assert (script + [Response([])])[..|script|] == script;
    assert StopsRecorded(BeginTurn(s, |script|));
    if e :| e in s.history && EndsKey(e) {
      var i :| 0 <= i < |s.history| && s.history[i] == e;
      assert Stops(s.history, e.key) && e.key in s.terminal;
    }
    if key :| key in s.terminal { assert Stops(s.history, key); }
  }
}
