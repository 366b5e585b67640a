/** How the remediation loop ends and when it acts (agents/coordinator.py:1548-2020), told from the
    record of what it executed and blocked. */
module RemediationEnds {
  import opened Basics
  import opened Evidence
  import opened Remediation
  import opened RemediationSafety
  import G = Approval

  // ---- the return of the loop ----

  /** The verifier confirmed recovery after the mutation. */
  predicate Verified(e: Entry) {
    IsMutation(e) && e.observation == Observed(Bool(true), "passed")
  }

  /** The verifier said neither that the incident is resolved nor that it still fails. */
  predicate Inconclusive(e: Entry) {
    IsMutation(e) && e.observation != Observed(Bool(true), "passed") && e.observation != Observed(Bool(false), "failed")
  }

  predicate Failing(e: Entry) {
    IsMutation(e) ==> e.observation == Observed(Bool(false), "failed")
  }

  /** What the last entry of the history says, by how the loop goes on. */
  predicate EndTells(h: seq<Entry>, flow: Flow) {
    match flow
    case Continue => h != [] ==> Failing(Last(h))
    case Return(status) =>
      if status == "resolved" then h != [] && Verified(Last(h))
      else if status == "escalated" then h != [] && Inconclusive(Last(h))
      else h != [] ==> Failing(Last(h))
    case Raise => h != [] ==> !Verified(Last(h))
  }

  /** While the loop goes on, nothing is resolved yet. */
  predicate Unresolved(s: State, flow: Flow) {
    flow == Continue ==> !s.verifierResolved
  }

  lemma FinishEnds(cfg: Config, s: State, c: Call, g: Grant, answer: Answer)
    requires g.Granted? && answer.Output? && !s.verifierResolved
    ensures var (s', flow) := Finish(cfg, s, c, g, answer); EndTells(s'.history, flow) && Unresolved(s', flow)
  {
  }

  lemma ExecuteEnds(cfg: Config, s: State, c: Call, g: Grant)
    requires g.Granted? && !s.verifierResolved && EndTells(s.history, Continue)
    ensures var (s', flow) := Execute(cfg, s, c, g); EndTells(s'.history, flow) && Unresolved(s', flow)
  {
    ExecuteCases(cfg, s, c, g);
    if Execute(cfg, s, c, g) == Finish(cfg, s, c, g, AnswerTo(c)) { FinishEnds(cfg, s, c, g, AnswerTo(c)); }
  }

  lemma ScreenEnds(cfg: Config, s: State, c: Call)
    requires !s.verifierResolved && EndTells(s.history, Continue)
    ensures var s' := Screen(cfg, s, c).0; !s'.verifierResolved && EndTells(s'.history, Continue)
  {
    ScreenCases(cfg, s, c);
    assert Charge(cfg, s, c).0.history == s.history;
  }

  /** A mutation that is not authorised ends the loop with a status of its own. */
  lemma AuthoriseEnds(cfg: Config, s: State, c: Call)
    ensures var (s', grant) := Authorise(cfg, s, c);
      && s'.history == s.history && s'.verifierResolved == s.verifierResolved
      && (grant.Denied? ==> grant.status in {"action_preparation_failed", "approval_manual_required", "approval_denied"})
  {
  }

  lemma CallEnds(cfg: Config, s: State, c: Call)
    requires !s.verifierResolved && EndTells(s.history, Continue)
    ensures var (s', flow) := CallStep(cfg, s, c); EndTells(s'.history, flow) && Unresolved(s', flow)
  {
    var (screened, passed) := Screen(cfg, s, c);
    ScreenEnds(cfg, s, c);
    if passed {
      if Mutating(cfg, c.tool, c.args) {
        MutationStep(cfg, s, c);
        AuthoriseEnds(cfg, screened, c);
        var (asked, grant) := Authorise(cfg, screened, c);
        if grant.Granted? { ExecuteEnds(cfg, asked, c, grant); }
      } else {
        ExecuteEnds(cfg, screened, c, Granted(Auto, PlainAction(c), None));
      }
    }
  }

  lemma {:induction false} CallsEnd(cfg: Config, s: State, calls: seq<Call>)
    requires !s.verifierResolved && EndTells(s.history, Continue)
    ensures var (s', flow) := Calls(cfg, s, calls); EndTells(s'.history, flow) && Unresolved(s', flow)
  {
    if calls != [] {
      var init := calls[..|calls| - 1];
      CallsEnd(cfg, s, init);
      var (s', flow) := Calls(cfg, s, init);
      if flow == Continue { CallEnds(cfg, s', Last(calls)); }
    }
  }

  lemma {:induction false} RunTells(cfg: Config, script: seq<Response>)
    ensures var (s, flow) := Run(cfg, script); EndTells(s.history, flow) && Unresolved(s, flow)
  {
    if script != [] {
      var init := script[..|script| - 1];
      RunTells(cfg, init);
      var (s, flow) := Run(cfg, init);
      if flow == Continue {
        match Last(script) {
          case ProviderError =>
          case Response(calls) => CallsEnd(cfg, BeginTurn(s, |script| - 1), calls);
        }
      }
    }
  }

  /** For every script: the loop returns `resolved` if and only if the last thing it did was a mutation
      after which the verifier confirmed recovery, and `escalated` if and only if it returns at a
      mutation after which the verifier said neither that nor that the incident still fails. */
  lemma EndingToldByLastEntry(cfg: Config, script: seq<Response>)
    ensures var (s, flow) := Run(cfg, script); var h := s.history;
      && (flow == Return("resolved") <==> h != [] && Verified(Last(h)))
      && (flow == Return("escalated") <==> flow.Return? && h != [] && Inconclusive(Last(h)))
  {
    RunTells(cfg, script);
  }

  // ---- what stops a mutation ----

  /** An identity is stopped exactly if an entry of the history stopped it. */
  ghost predicate StopsRecorded(s: State) {
    forall key :: key in s.terminal <==> Stops(s.history, key)
  }

  ghost predicate Stops(h: seq<Entry>, key: Key) {
    exists i :: 0 <= i < |h| && EndsKey(h[i]) && h[i].key == key
  }

  lemma StopsSnoc(h: seq<Entry>, e: Entry, key: Key)
    ensures Stops(h + [e], key) <==> Stops(h, key) || (EndsKey(e) && e.key == key)
  {
    var more := h + [e];
    if i :| 0 <= i < |h| && EndsKey(h[i]) && h[i].key == key { assert more[i] == h[i]; }
    if EndsKey(e) && e.key == key { assert more[|h|] == e; }
  }

  ghost predicate MutatedIn(h: seq<Entry>, turn: nat) {
    exists i :: 0 <= i < |h| && IsMutation(h[i]) && h[i].turn == turn
  }

  lemma MutatedSnoc(h: seq<Entry>, e: Entry, turn: nat)
    ensures MutatedIn(h + [e], turn) <==> MutatedIn(h, turn) || (IsMutation(e) && e.turn == turn)
  {
    var more := h + [e];
    if i :| 0 <= i < |h| && IsMutation(h[i]) && h[i].turn == turn { assert more[i] == h[i]; }
    if IsMutation(e) && e.turn == turn { assert more[|h|] == e; }
  }

  predicate TurnsUpTo(h: seq<Entry>, turn: nat) {
    forall i :: 0 <= i < |h| ==> h[i].turn <= turn
  }

  function Least(a: nat, b: nat): nat {
    if a < b then a else b
  }

  /** While the loop goes on, what the checks read is what the history shows: which identities are
      stopped, whether this response mutated, and how often each tool ran. */
  ghost predicate ChecksTold(s: State) {
    && StopsRecorded(s) && TurnsUpTo(s.history, s.turn)
    && (s.mutationInResponse <==> MutatedIn(s.history, s.turn))
    && (forall t :: Executions(s.history, t) == Least(Count(s.counts, t), Cap(t)))
  }

  lemma ExecutionsSnoc(h: seq<Entry>, e: Entry, t: string)
    ensures Executions(h + [e], t) == Executions(h, t) + if e.Executed? && e.tool == t then 1 else 0
  {
    assert (h + [e])[..|h|] == h;
  }

  /** Checks on evidence and policy stop an identity; the caps only count. */
  lemma ScreenTold(cfg: Config, s: State, c: Call)
    requires ChecksTold(s)
    ensures var (s', passed) := Screen(cfg, s, c);
      && s'.turn == s.turn && StopsRecorded(s') && TurnsUpTo(s'.history, s'.turn) && (s'.mutationInResponse <==> MutatedIn(s'.history, s'.turn))
      && (forall t :: Executions(s'.history, t)
                      == Least(Count(s'.counts, t), Cap(t)) - if passed && t == c.tool then 1 else 0)
  {
    var (s', passed) := Screen(cfg, s, c);
    var key := ActionIdentity(cfg, c.tool, c.args);
    ScreenCases(cfg, s, c);
    if why :| (s', passed) == (Stopped(s, key, why), false) {
      StoppedTold(s, key, why);
    } else if s' != s || passed {
      ChargeCounts(cfg, s, c);
    }
  }

  lemma StoppedTold(s: State, key: Key, why: string)
    requires ChecksTold(s)
    ensures ChecksTold(Stopped(s, key, why))
  {
    var e := Blocked(key, s.turn);
    var s' := Stopped(s, key, why);
    forall k ensures k in s'.terminal <==> Stops(s'.history, k) { StopsSnoc(s.history, e, k); }
    MutatedSnoc(s.history, e, s.turn);
    forall t ensures Executions(s'.history, t) == Executions(s.history, t) { ExecutionsSnoc(s.history, e, t); }
  }

  lemma ChargeCounts(cfg: Config, s: State, c: Call)
    requires forall t :: Executions(s.history, t) == Least(Count(s.counts, t), Cap(t))
    ensures var (s', passed) := Charge(cfg, s, c);
      && s' == s.(seen := s'.seen, counts := s'.counts)
      && forall t :: Executions(s'.history, t)
                     == Least(Count(s'.counts, t), Cap(t)) - if passed && t == c.tool then 1 else 0
  {
    var s' := Charge(cfg, s, c).0;
    assert forall t :: t != c.tool ==> Count(s'.counts, t) == Count(s.counts, t);
  }

  /** One executed entry more, with what it says of the state. */
  lemma EntryTold(s: State, s': State, e: Entry)
    requires e.Executed? && s'.history == s.history + [e] && s'.counts == s.counts && s'.turn == s.turn == e.turn
    requires StopsRecorded(s) && TurnsUpTo(s.history, s.turn) && (s.mutationInResponse <==> MutatedIn(s.history, s.turn))
    requires forall t :: Executions(s.history, t) == Least(Count(s.counts, t), Cap(t)) - if t == e.tool then 1 else 0
    requires forall k :: k in s'.terminal <==> k in s.terminal || (e.terminalError.Some? && k == e.key)
    requires s'.mutationInResponse == (s.mutationInResponse || e.mutates)
    ensures ChecksTold(s')
  {
    forall k ensures k in s'.terminal <==> Stops(s'.history, k) { StopsSnoc(s.history, e, k); }
    MutatedSnoc(s.history, e, s.turn);
    forall t ensures Executions(s'.history, t) == Least(Count(s'.counts, t), Cap(t)) { ExecutionsSnoc(s.history, e, t); }
  }

  lemma ExecuteTold(cfg: Config, s: State, c: Call, g: Grant)
    requires g.Granted? && StopsRecorded(s) && TurnsUpTo(s.history, s.turn) && (s.mutationInResponse <==> MutatedIn(s.history, s.turn))
    requires forall t :: Executions(s.history, t) == Least(Count(s.counts, t), Cap(t)) - if t == c.tool then 1 else 0
    ensures var (s', flow) := Execute(cfg, s, c, g); s'.turn == s.turn && (flow == Continue ==> ChecksTold(s'))
  {
    ExecuteCases(cfg, s, c, g);
    if Execute(cfg, s, c, g) == Finish(cfg, s, c, g, AnswerTo(c)) {
      var s' := Finish(cfg, s, c, g, AnswerTo(c)).0;
      EntryTold(s, s', Last(s'.history));
    }
  }

  lemma CallTold(cfg: Config, s: State, c: Call)
    requires ChecksTold(s)
    ensures var (s', flow) := CallStep(cfg, s, c); s'.turn == s.turn && (flow == Continue ==> ChecksTold(s'))
  {
    var (screened, passed) := Screen(cfg, s, c);
    ScreenTold(cfg, s, c);
    if passed {
      if Mutating(cfg, c.tool, c.args) {
        MutationStep(cfg, s, c);
        var (asked, grant) := Authorise(cfg, screened, c);
        AuthoriseEffect(cfg, screened, c);
        if grant.Granted? { ExecuteTold(cfg, asked, c, grant); }
      } else {
        ExecuteTold(cfg, screened, c, Granted(Auto, PlainAction(c), None));
      }
    }
  }

  lemma {:induction false} CallsTold(cfg: Config, s: State, calls: seq<Call>)
    requires ChecksTold(s)
    ensures var (s', flow) := Calls(cfg, s, calls); s'.turn == s.turn && (flow == Continue ==> ChecksTold(s'))
  {
    if calls != [] {
      var init := calls[..|calls| - 1];
      CallsTold(cfg, s, init);
      var (s', flow) := Calls(cfg, s, init);
      if flow == Continue { CallTold(cfg, s', Last(calls)); }
    }
  }

  /** The next response begins with nothing mutated in it. */
  lemma BeginTold(s: State, turn: nat)
    requires StopsRecorded(s) && (forall t :: Executions(s.history, t) == Least(Count(s.counts, t), Cap(t)))
    requires forall i :: 0 <= i < |s.history| ==> s.history[i].turn < turn
    ensures ChecksTold(BeginTurn(s, turn))
  {
  }

  lemma {:induction false} RunTold(cfg: Config, script: seq<Response>)
    ensures var (s, flow) := Run(cfg, script); flow == Continue ==> ChecksTold(BeginTurn(s, |script|))
  {
    if script != [] {
      var init := script[..|script| - 1];
      RunTold(cfg, init);
      var (s, flow) := Run(cfg, init);
      if flow == Continue { TurnTold(cfg, s, |init|, Last(script)); }
    }
  }

  lemma TurnTold(cfg: Config, s: State, turn: nat, r: Response)
    requires ChecksTold(BeginTurn(s, turn))
    ensures var (s', flow) := ResponseStep(cfg, s, turn, r); flow == Continue ==> ChecksTold(BeginTurn(s', turn + 1))
  {
    if r.Response? { CallsTold(cfg, BeginTurn(s, turn), r.calls); }
    var (s', flow) := ResponseStep(cfg, s, turn, r);
    if flow == Continue { BeginTold(s', turn + 1); }
  }

  // ---- what lets a mutation through ----

  /** No oracle objects to the call, and it is a known mutation, prepared, that policy leaves to approval. */
  predicate Permitted(cfg: Config, c: Call) {
    && c.argsValid && !c.precondition && !c.policy && !c.breaker && c.known
    && Mutating(cfg, c.tool, c.args) && c.prepared.Some? && c.policyMode != Manual
  }

  /** The gate holds the permit, and it covers the prepared action at these times. */
  predicate Covered(cfg: Config, g: G.Gate, c: Call)
    requires c.prepared.Some?
  {
    && c.permit.Some? && c.permit.value.id in g.permits && g.permits[c.permit.value.id] == c.permit.value
    && c.permit.value.incident == cfg.incident && c.permit.value.digest == cfg.digest(c.prepared.value)
    && 0.0 <= c.first - c.permit.value.issuedAt <= g.timeout && c.second <= c.permit.value.expires
  }

  lemma ScreenPasses(cfg: Config, s: State, c: Call)
    requires Permitted(cfg, c) && !s.verifierResolved && !s.mutationInResponse && ActionIdentity(cfg, c.tool, c.args) !in s.terminal
    requires Count(s.seen, CallKey(cfg, c)) < MAX_SAME_CALL && Count(s.counts, c.tool) < Cap(c.tool)
    ensures var (s', passed) := Screen(cfg, s, c); passed && s' == s.(seen := s'.seen, counts := s'.counts)
  {
  }

  lemma GateGrants(cfg: Config, s: State, c: Call)
    requires cfg.operational && Permitted(cfg, c) && Covered(cfg, GateAfter(s.gate, c.gateEvents), c)
    ensures var (s', grant) := Authorise(cfg, s, c);
      && grant.Granted? && grant.mode == Approve && grant.action == c.prepared.value
      && s'.history == s.history && s'.turn == s.turn && s'.verifierResolved == s.verifierResolved
  {
  }

  /** The entry of the call that was executed. */
  predicate EntryOf(cfg: Config, turn: nat, c: Call, e: Entry) {
    && IsMutation(e) && e.turn == turn && e.tool == c.tool && e.callKey == CallKey(cfg, c)
    && e.key == ActionIdentity(cfg, c.tool, c.args) && e.mode == Approve && c.prepared == Some(e.action)
  }

  lemma GrantedRuns(cfg: Config, s: State, c: Call, g: Grant)
    requires cfg.operational && Permitted(cfg, c) && !s.verifierResolved
    requires g.Granted? && g.mode == Approve && g.action == c.prepared.value
    ensures var (s', flow) := Execute(cfg, s, c, g);
      match c.answer
      case RaisedBefore(_) => s'.history == s.history && flow == Raise
      case RaisedInside(_) => |s'.history| == |s.history| + 1 && s'.history[..|s.history|] == s.history
                              && EntryOf(cfg, s.turn, c, Last(s'.history)) && flow == Raise
      case Output(_, _, _) =>
        && |s'.history| == |s.history| + 1 && s'.history[..|s.history|] == s.history
        && EntryOf(cfg, s.turn, c, Last(s'.history)) && Last(s'.history).observation == c.observation
        && flow == (if c.observation == Observed(Bool(true), "passed") then Return("resolved")
                    else if c.observation == Observed(Bool(false), "failed") then Continue else Return("escalated"))
  {
  }

  /** The state in the middle of a response of a run that goes on. */
  ghost predicate Midway(cfg: Config, script: seq<Response>, calls: seq<Call>) {
    Run(cfg, script).1 == Continue && Calls(cfg, BeginTurn(Run(cfg, script).0, |script|), calls).1 == Continue
  }

  ghost function StateMidway(cfg: Config, script: seq<Response>, calls: seq<Call>): State {
    Calls(cfg, BeginTurn(Run(cfg, script).0, |script|), calls).0
  }

  lemma MidwayTold(cfg: Config, script: seq<Response>, calls: seq<Call>)
    requires Midway(cfg, script, calls)
    ensures var s := StateMidway(cfg, script, calls);
      ChecksTold(s) && !s.verifierResolved && s.turn == |script|
  {
    RunTold(cfg, script);
    RunTells(cfg, script);
    var begun := BeginTurn(Run(cfg, script).0, |script|);
    CallsTold(cfg, begun, calls);
    CallsEnd(cfg, begun, calls);
  }

  /** Nothing in the history speaks against the call: no mutation in this response yet, its identity
      never stopped, and its tool below its cap. */
  ghost predicate HistoryAllows(cfg: Config, h: seq<Entry>, turn: nat, c: Call) {
    && !MutatedIn(h, turn) && !Stops(h, ActionIdentity(cfg, c.tool, c.args)) && Executions(h, c.tool) < Cap(c.tool)
  }

  /** The positive half of the loop's rules, at every point of every run in operational mode: a mutation
      to which nothing objects, which the history allows and the gate holds a permit for, is executed,
      exactly as prepared; what follows is told by how it ends and what the verifier says. */
  lemma ApprovedMutationRuns(cfg: Config, script: seq<Response>, calls: seq<Call>, c: Call)
    requires cfg.operational && Midway(cfg, script, calls) && Permitted(cfg, c)
    requires var s := StateMidway(cfg, script, calls);
      && HistoryAllows(cfg, s.history, |script|, c) && Count(s.seen, CallKey(cfg, c)) < MAX_SAME_CALL
      && Covered(cfg, GateAfter(s.gate, c.gateEvents), c)
    ensures var s := StateMidway(cfg, script, calls); var (s', flow) := CallStep(cfg, s, c);
      match c.answer
      case RaisedBefore(_) => s'.history == s.history && flow == Raise
      case RaisedInside(_) => |s'.history| == |s.history| + 1 && s'.history[..|s.history|] == s.history
                              && EntryOf(cfg, |script|, c, Last(s'.history)) && flow == Raise
      case Output(_, _, _) =>
        && |s'.history| == |s.history| + 1 && s'.history[..|s.history|] == s.history
        && EntryOf(cfg, |script|, c, Last(s'.history)) && Last(s'.history).observation == c.observation
        && flow == (if c.observation == Observed(Bool(true), "passed") then Return("resolved")
                    else if c.observation == Observed(Bool(false), "failed") then Continue else Return("escalated"))
  {
    var s := StateMidway(cfg, script, calls);
    MidwayTold(cfg, script, calls);
    ScreenPasses(cfg, s, c);
    MutationStep(cfg, s, c);
    var screened := Screen(cfg, s, c).0;
    GateGrants(cfg, screened, c);
    var (asked, grant) := Authorise(cfg, screened, c);
    GrantedRuns(cfg, asked, c, grant);
  }

  lemma ForbiddenIsScreened(cfg: Config, s: State, c: Call)
    requires ChecksTold(s) && c.known && Mutating(cfg, c.tool, c.args) && !HistoryAllows(cfg, s.history, s.turn, c)
    ensures !Screen(cfg, s, c).1
  {
  }

  lemma ScreenedAddsNoMutation(cfg: Config, s: State, c: Call)
    ensures var h := Screen(cfg, s, c).0.history;
      |s.history| <= |h| <= |s.history| + 1 && h[..|s.history|] == s.history
      && forall i :: |s.history| <= i < |h| ==> !IsMutation(h[i])
  {
    ScreenCases(cfg, s, c);
    assert Charge(cfg, s, c).0.history == s.history;
  }

  /** And the other half: a mutation that the history speaks against is not executed. */
  lemma HistoryForbids(cfg: Config, script: seq<Response>, calls: seq<Call>, c: Call)
    requires Midway(cfg, script, calls) && c.known && Mutating(cfg, c.tool, c.args)
    requires !HistoryAllows(cfg, StateMidway(cfg, script, calls).history, |script|, c)
    ensures var s := StateMidway(cfg, script, calls); var (s', flow) := CallStep(cfg, s, c);
      && flow == Continue && |s.history| <= |s'.history| && s'.history[..|s.history|] == s.history
      && forall i :: |s.history| <= i < |s'.history| ==> !IsMutation(s'.history[i])
  {
    var s := StateMidway(cfg, script, calls);
    MidwayTold(cfg, script, calls);
    ForbiddenIsScreened(cfg, s, c);
    ScreenedAddsNoMutation(cfg, s, c);
    ScreenedEnds(cfg, s, c);
  }

  lemma ScreenedEnds(cfg: Config, s: State, c: Call)
    requires !Screen(cfg, s, c).1
    ensures CallStep(cfg, s, c) == (Screen(cfg, s, c).0, Continue)
  {
  }
}
