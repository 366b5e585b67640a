/** The remediation tool loop of agents/coordinator.py (`call_agent`). The model, the tools, the
    policy checks, the circuit breaker and the verifier are oracles: a script gives every response
    and every answer, so a statement for all scripts covers every model and environment. The
    approval gate is the one of module Approval; other clients may act on it at any time. */
module Remediation {
  import opened Basics
  import opened Evidence
  import G = Approval

  const CLUSTER_MUTATING_TOOLS: set<string> :=
    {"alertmanager_silence", "argocd_rollback", "chaos_stop_experiment", "kubectl_rollout", "kubectl_scale"}

  const TERMINAL_ERROR_CLASSES: set<string> := {
    "authorization_failed", "configuration_error", "evidence_precondition", "forbidden",
    "invalid_action_arguments", "invalid_arguments", "invalid_revision", "not_found", "safety_block",
    "target_conflict", "target_mismatch", "terminal_action_blocked"
  }

  const MAX_SAME_CALL: nat := 3

  function Cap(tool: string): nat {
    match tool
    case "promql_query" => 6
    case "promql_query_range" => 4
    case "kubectl_get" => 5
    case "kubectl_logs" => 4
    case _ => 8
  }

  /** Python's text functions, and the digest of an action for approval. */
  datatype Config = Config(
    incident: string, operational: bool, timeout: real,
    text: Json -> string, nonzero: string -> bool, strip: string -> string, fold: string -> string,
    dumps: Fields -> string, digest: Fields -> string)

  datatype Mode = Auto | Approve | Manual

  datatype Answer =
    | Output(success: Json, errorClass: Json, error: Json)
    | RaisedBefore(message: string)   // the breaker is open, or the start note fails
    | RaisedInside(message: string)   // the tool raises, reports an uncertain outcome, or the return note fails

  /** The verifier's answer after a mutation; `Missing` stands for no observer, an exception, or an
      answer that is no object. */
  datatype Observation = Missing | Observed(envResolved: Json, status: string)

  /** One tool call of a response, with what each oracle will answer if asked. */
  datatype Call = Call(
    tool: string, args: Fields, argsValid: bool,
    precondition: bool, policy: bool, breaker: bool,   // true: the check objects
    known: bool, policyMode: Mode, prepared: Option<Fields>,
    gateEvents: seq<G.Event>, permit: Option<G.Permit>, first: real, second: real,
    answer: Answer, observation: Observation)

  datatype Response = ProviderError | Response(calls: seq<Call>)

  type Key = (string, string)

  datatype Entry =
    | Blocked(key: Key, turn: nat)
    | Executed(turn: nat, tool: string, callKey: string, key: Key, mutates: bool, mode: Mode, action: Fields,
               use: Option<nat>, terminalError: Option<string>, observation: Observation)

  datatype Flow = Continue | Return(status: string) | Raise

  datatype State = State(
    turn: nat, terminal: map<Key, string>, mutationInResponse: bool, verifierResolved: bool,
    retryGiven: bool, mutationSucceeded: bool, seen: map<string, nat>, counts: map<string, nat>,
    // histories: the gate with the events on it, and what the loop blocked or executed
    gate: G.Gate, gateEvents: seq<G.Event>, history: seq<Entry>)

  // ---- pure helpers of the source ----

  predicate Mutating(cfg: Config, tool: string, args: Fields) {
    && tool in CLUSTER_MUTATING_TOOLS
    && (tool == "kubectl_rollout" ==> cfg.fold(cfg.strip(OrEmpty(cfg, Get(args, "action", Null)))) == "undo")
  }

  /** `str(value or "")`. */
  function OrEmpty(cfg: Config, value: Json): string {
    if Truthy(cfg.nonzero, value) then cfg.text(value) else ""
  }

  function Part(cfg: Config, args: Fields, name: string, default: string): string {
    cfg.text(Get(args, name, String(default)))
  }

  function ActionIdentity(cfg: Config, tool: string, args: Fields): Key {
    match tool
    case "argocd_rollback" => (tool, cfg.fold(cfg.strip(OrEmpty(cfg, Get(args, "app", Null)))))
    case "kubectl_rollout" => (tool, cfg.fold(Part(cfg, args, "namespace", "default") + ":" + Part(cfg, args, "resource", "")))
    case "kubectl_scale" => (tool, cfg.fold(Part(cfg, args, "namespace", "default") + ":" + Part(cfg, args, "deployment", "")))
    case "chaos_stop_experiment" =>
      (tool, cfg.fold(Part(cfg, args, "kind", "") + ":" + Part(cfg, args, "namespace", "chaos-mesh") + ":"
                      + Part(cfg, args, "name", "")))
    case _ => (tool, tool)
  }

  predicate Contains(s: string, part: string) {
    exists i :: 0 <= i <= |s| - |part| && part <= s[i..]
  }

  function TerminalErrorClass(cfg: Config, a: Answer): Option<string>
    requires a.Output?
  {
    var class_ := cfg.fold(cfg.strip(OrEmpty(cfg, a.errorClass)));
    var error := cfg.fold(OrEmpty(cfg, a.error));
    if a.success == Bool(true) then None
    else if class_ in TERMINAL_ERROR_CLASSES then Some(class_)
    else if Contains(error, "invalid revision") then Some("invalid_revision")
    else if Contains(error, "invalid rollout action") || Contains(error, "invalid namespace") then Some("invalid_action_arguments")
    else if Contains(error, "authorization") || Contains(error, "forbidden") then Some("authorization_failed")
    else if Contains(error, "not found") || Contains(error, "doesn't have a resource type") then Some("not_found")
    else None
  }

  predicate Resolved(o: Observation) {
    o == Observed(Bool(true), "passed")
  }

  predicate StillFailing(o: Observation) {
    o == Observed(Bool(false), "failed")
  }

  function CallKey(cfg: Config, c: Call): string {
    c.tool + ":" + cfg.dumps(c.args)
  }

  function Count(m: map<string, nat>, key: string): nat {
    if key in m then m[key] else 0
  }

  // ---- one tool call ----

  /** Everything up to the caps: the state after the checks, and whether the call goes on. */
  function Screen(cfg: Config, s: State, c: Call): (State, bool) {
    var mutates := Mutating(cfg, c.tool, c.args);
    var key := ActionIdentity(cfg, c.tool, c.args);
    if !c.argsValid || (mutates && (s.verifierResolved || s.mutationInResponse || key in s.terminal)) then (s, false)
    else if c.precondition || c.policy then
      (if mutates
       then s.(terminal := s.terminal[key := if c.precondition then "evidence_precondition" else "safety_block"],
               history := s.history + [Blocked(key, s.turn)])
       else s, false)
    else if c.breaker then (s, false)
    else Charge(cfg, s, c)
  }

  /** The two caps. */
  function Charge(cfg: Config, s: State, c: Call): (State, bool) {
    var k := CallKey(cfg, c);
    var seen := s.(seen := s.seen[k := Count(s.seen, k) + 1]);
    if Count(seen.seen, k) > MAX_SAME_CALL then (seen, false)
    else
      var counted := seen.(counts := s.counts[c.tool := Count(s.counts, c.tool) + 1]);
      (counted, Count(counted.counts, c.tool) <= Cap(c.tool))
  }

  function EffectiveMode(cfg: Config, c: Call): Mode {
    if cfg.operational && c.policyMode != Manual then Approve else c.policyMode
  }

  function PlainAction(c: Call): Fields {
    map["tool" := String(c.tool), "arguments" := Object(c.args)]
  }

  function GateAfter(g: G.Gate, events: seq<G.Event>): G.Gate {
    if events == [] then g else G.Step(GateAfter(g, events[..|events| - 1]), Last(events))
  }

  datatype Grant = Denied(status: string) | Granted(mode: Mode, action: Fields, use: Option<nat>)

  /** The gate is asked once to consume the permit, after what others do to it. */
  function AskGate(cfg: Config, s: State, c: Call, action: Fields): (State, bool) {
    var (after, reply) :=
      G.ConsumeStep(GateAfter(s.gate, c.gateEvents), c.permit, cfg.incident, cfg.digest(action), c.first, c.second);
    (s.(gate := after,
        gateEvents := s.gateEvents
          + (c.gateEvents + [G.Consume(c.permit, cfg.incident, cfg.digest(action), c.first, c.second)])),
     reply == G.Allowed(true))
  }

  /** Preparation and approval of a mutation. */
  function Authorise(cfg: Config, s: State, c: Call): (State, Grant) {
    if cfg.operational && c.prepared.None? then (s, Denied("action_preparation_failed"))
    else
      var action := if cfg.operational then c.prepared.value else PlainAction(c);
      match EffectiveMode(cfg, c)
      case Manual => (s, Denied("approval_manual_required"))
      case Auto => (s, Granted(Auto, action, None))
      case Approve =>
        var (s', ok) := AskGate(cfg, s, c, action);
        (s', if ok then Granted(Approve, action, Some(|GateAfter(s.gate, c.gateEvents).uses|)) else Denied("approval_denied"))
  }

  function NewEntry(cfg: Config, s: State, c: Call, g: Grant, terminalError: Option<string>, o: Observation): Entry
    requires g.Granted?
  {
    Executed(s.turn, c.tool, CallKey(cfg, c), ActionIdentity(cfg, c.tool, c.args),
             Mutating(cfg, c.tool, c.args) && c.known, g.mode, g.action, g.use, terminalError, o)
  }

  /** The tool answers; a mutation is then observed. */
  function Finish(cfg: Config, s: State, c: Call, g: Grant, answer: Answer): (State, Flow)
    requires g.Granted? && answer.Output?
  {
    var mutates := Mutating(cfg, c.tool, c.args);
    var terminalError := if mutates then TerminalErrorClass(cfg, answer) else None;
    var observed := mutates && c.known;
    var resolved := observed && Resolved(c.observation);
    var s' := s.(
      mutationSucceeded := s.mutationSucceeded || (mutates && Truthy(cfg.nonzero, answer.success)),
      terminal := if terminalError.Some?
                  then s.terminal[ActionIdentity(cfg, c.tool, c.args) := terminalError.value] else s.terminal,
      mutationInResponse := s.mutationInResponse || observed,
      verifierResolved := if observed then resolved else s.verifierResolved,
      history := s.history + [NewEntry(cfg, s, c, g, terminalError, if observed then c.observation else Missing)]);
    (s', if s'.verifierResolved then Return("resolved")
         else if observed && !StillFailing(c.observation) then Return("escalated")
         else Continue)
  }

  function UnknownTool(c: Call): Answer {
    Output(Null, Null, String("Unknown tool: " + c.tool))
  }

  function ToolFailed(message: string): Answer {
    Output(Null, Null, String("Tool execution failed: " + message))
  }

  /** The call of the tool. In operational mode every exception ends the run. */
  function Execute(cfg: Config, s: State, c: Call, g: Grant): (State, Flow)
    requires g.Granted?
  {
    if !c.known then Finish(cfg, s, c, g, UnknownTool(c))
    else match c.answer
      case Output(_, _, _) => Finish(cfg, s, c, g, c.answer)
      case RaisedBefore(message) => if cfg.operational then (s, Raise) else Finish(cfg, s, c, g, ToolFailed(message))
      case RaisedInside(message) =>
        if cfg.operational
        then (s.(history := s.history + [NewEntry(cfg, s, c, g, None, Missing)]), Raise)
        else Finish(cfg, s, c, g, ToolFailed(message))
  }

  function CallStep(cfg: Config, s: State, c: Call): (State, Flow) {
    var (screened, passed) := Screen(cfg, s, c);
    if !passed then (screened, Continue)
    else if !Mutating(cfg, c.tool, c.args) then Execute(cfg, screened, c, Granted(Auto, PlainAction(c), None))
    else
      var (asked, grant) := Authorise(cfg, screened, c);
      match grant
      case Denied(status) => (asked, Return(status))
      case Granted(_, _, _) => Execute(cfg, asked, c, grant)
  }

  // ---- one response, and the run ----

  function Calls(cfg: Config, s: State, calls: seq<Call>): (State, Flow) {
    if calls == [] then (s, Continue)
    else
      var (s', flow) := Calls(cfg, s, calls[..|calls| - 1]);
      if flow != Continue then (s', flow) else CallStep(cfg, s', Last(calls))
  }

  function BeginTurn(s: State, turn: nat): State {
    s.(turn := turn, mutationInResponse := false)
  }

  function ResponseStep(cfg: Config, s: State, turn: nat, r: Response): (State, Flow) {
    var begun := BeginTurn(s, turn);
    match r
    case ProviderError => (begun, Raise)
    case Response(calls) =>
      if calls != [] then Calls(cfg, begun, calls)
      else if !s.mutationSucceeded && !s.retryGiven && s.terminal == map[] then (begun.(retryGiven := true), Continue)
      else (begun, Return("conclusion"))
  }

  function Initial(cfg: Config): State {
    State(0, map[], false, false, false, false, map[], map[], G.Empty(cfg.timeout), [], [])
  }

  /** The run over the first responses; the source stops asking after `max_turns`. */
  function Run(cfg: Config, script: seq<Response>): (State, Flow) {
    if script == [] then (Initial(cfg), Continue)
    else
      var (s, flow) := Run(cfg, script[..|script| - 1]);
      if flow != Continue then (s, flow) else ResponseStep(cfg, s, |script| - 1, Last(script))
  }

  /** Once the flow leaves the loop, later calls and responses change nothing. */
  lemma {:induction false} StopsEarly(cfg: Config, s: State, calls: seq<Call>, i: nat)
    requires i <= |calls| && Calls(cfg, s, calls[..i]).1 != Continue
    ensures Calls(cfg, s, calls) == Calls(cfg, s, calls[..i])
  {
    if i == |calls| {
      assert calls[..i] == calls;
    } else {
      assert calls[..|calls| - 1][..i] == calls[..i];
      StopsEarly(cfg, s, calls[..|calls| - 1], i);
    }
  }

  lemma {:induction false} RunStopsEarly(cfg: Config, script: seq<Response>, i: nat)
    requires i <= |script| && Run(cfg, script[..i]).1 != Continue
    ensures Run(cfg, script) == Run(cfg, script[..i])
  {
    if i == |script| {
      assert script[..i] == script;
    } else {
      assert script[..|script| - 1][..i] == script[..i];
      RunStopsEarly(cfg, script[..|script| - 1], i);
    }
  }

  // ---- the loop as a program ----

  class RemediationLoop {
    const cfg: Config
    var turn: nat
    var terminal: map<Key, string>
    var mutationInResponse: bool
    var verifierResolved: bool
    var retryGiven: bool
    var mutationSucceeded: bool
    var seen: map<string, nat>
    var counts: map<string, nat>
    var gate: G.Gate   // shared with other clients; module Approval has the object behind it
    ghost var gateEvents: seq<G.Event>
    ghost var history: seq<Entry>

    ghost function View(): State
      reads this
    {
      State(turn, terminal, mutationInResponse, verifierResolved, retryGiven, mutationSucceeded, seen, counts,
            gate, gateEvents, history)
    }

    constructor (cfg: Config)
      ensures this.cfg == cfg && View() == Initial(cfg)
    {
      this.cfg := cfg;
      turn, terminal, mutationInResponse, verifierResolved := 0, map[], false, false;
      retryGiven, mutationSucceeded, seen, counts := false, false, map[], map[];
      gate, gateEvents, history := G.Empty(cfg.timeout), [], [];
    }

    method ScreenCall(c: Call) returns (passed: bool)
      modifies this
      ensures (View(), passed) == Screen(cfg, old(View()), c)
    {
      if !c.argsValid {
        return false;
      }
      var key := ActionIdentity(cfg, c.tool, c.args);
      var mutates := Mutating(cfg, c.tool, c.args);
      if mutates {
        if verifierResolved || mutationInResponse || key in terminal {
          return false;
        }
      }
      if c.precondition {
        if mutates {
          terminal := terminal[key := "evidence_precondition"];
          history := history + [Blocked(key, turn)];
        }
        return false;
      }
      if c.policy {
        if mutates {
          terminal := terminal[key := "safety_block"];
          history := history + [Blocked(key, turn)];
        }
        return false;
      }
      if c.breaker {
        return false;
      }
      var k := CallKey(cfg, c);
      seen := seen[k := Count(seen, k) + 1];
      if seen[k] > MAX_SAME_CALL {
        return false;
      }
      counts := counts[c.tool := Count(counts, c.tool) + 1];
      passed := counts[c.tool] <= Cap(c.tool);
    }

    method AuthoriseCall(c: Call) returns (grant: Grant)
      modifies this
      ensures (View(), grant) == Authorise(cfg, old(View()), c)
    {
      if cfg.operational && c.prepared.None? {
        return Denied("action_preparation_failed");
      }
      var action := if cfg.operational then c.prepared.value else PlainAction(c);
      var mode := c.policyMode;
      if cfg.operational && mode != Manual {
        mode := Approve;
      }
      if mode == Manual {
        return Denied("approval_manual_required");
      }
      if mode == Auto {
        return Granted(Auto, action, None);
      }
      gate := GateAfter(gate, c.gateEvents);
      var used := |gate.uses|;
      var reply := G.ConsumeStep(gate, c.permit, cfg.incident, cfg.digest(action), c.first, c.second);
      gate := reply.0;
      gateEvents := gateEvents
        + (c.gateEvents + [G.Consume(c.permit, cfg.incident, cfg.digest(action), c.first, c.second)]);
      grant := if reply.1 == G.Allowed(true) then Granted(Approve, action, Some(used)) else Denied("approval_denied");
    }

    /** What the answer to a mutation says of it. */
    method RecordAnswer(c: Call, answer: Answer) returns (terminalError: Option<string>)
      requires answer.Output?
      modifies this`mutationSucceeded, this`terminal
      ensures var mutates := Mutating(cfg, c.tool, c.args);
        && terminalError == (if mutates then TerminalErrorClass(cfg, answer) else None)
        && mutationSucceeded == (old(mutationSucceeded) || (mutates && Truthy(cfg.nonzero, answer.success)))
      ensures terminal == if terminalError.Some?
                          then old(terminal)[ActionIdentity(cfg, c.tool, c.args) := terminalError.value] else old(terminal)
    {
      terminalError := None;
      if Mutating(cfg, c.tool, c.args) {
        if Truthy(cfg.nonzero, answer.success) {
          mutationSucceeded := true;
        }
        terminalError := TerminalErrorClass(cfg, answer);
        if terminalError.Some? {
          terminal := terminal[ActionIdentity(cfg, c.tool, c.args) := terminalError.value];
        }
      }
    }

    method FinishCall(c: Call, g: Grant, answer: Answer) returns (flow: Flow)
      requires g.Granted? && answer.Output?
      modifies this
      ensures (View(), flow) == Finish(cfg, old(View()), c, g, answer)
    {
      var mutates := Mutating(cfg, c.tool, c.args);
      var terminalError := RecordAnswer(c, answer);
      var unknown := false;
      ghost var observation := Missing;
      if mutates && c.known {
        observation := c.observation;
        mutationInResponse := true;
        verifierResolved := Resolved(c.observation);
        unknown := !(verifierResolved || StillFailing(c.observation));
      }
      history := history + [NewEntry(cfg, old(View()), c, g, terminalError, observation)];
      flow := if verifierResolved then Return("resolved") else if unknown then Return("escalated") else Continue;
    }

    method ExecuteCall(c: Call, g: Grant) returns (flow: Flow)
      requires g.Granted?
      modifies this
      ensures (View(), flow) == Execute(cfg, old(View()), c, g)
    {
      var answer := c.answer;
      if !c.known {
        answer := UnknownTool(c);
      } else if !answer.Output? {
        if cfg.operational {
          if answer.RaisedInside? {
            history := history + [NewEntry(cfg, View(), c, g, None, Missing)];
          }
          return Raise;
        }
        answer := ToolFailed(answer.message);
      }
      flow := FinishCall(c, g, answer);
    }

    method HandleCall(c: Call) returns (flow: Flow)
      modifies this
      ensures (View(), flow) == CallStep(cfg, old(View()), c)
    {
      var passed := ScreenCall(c);
      if !passed {
        return Continue;
      }
      var grant := Granted(Auto, PlainAction(c), None);
      if Mutating(cfg, c.tool, c.args) {
        grant := AuthoriseCall(c);
        if grant.Denied? {
          return Return(grant.status);
        }
      }
      flow := ExecuteCall(c, grant);
    }

    method HandleCalls(calls: seq<Call>) returns (flow: Flow)
      modifies this
      ensures (View(), flow) == Calls(cfg, old(View()), calls)
    {
      flow := Continue;
      var i := 0;
      while i < |calls|
        invariant 0 <= i <= |calls| && flow == Continue
        invariant (View(), flow) == Calls(cfg, old(View()), calls[..i])
      {
        flow := HandleCall(calls[i]);
        i := i + 1;
        assert calls[..i][..i - 1] == calls[..i - 1];
        if flow != Continue {
          StopsEarly(cfg, old(View()), calls, i);
          return;
        }
      }
      assert calls[..i] == calls;
    }

    method HandleResponse(t: nat, r: Response) returns (flow: Flow)
      modifies this
      ensures (View(), flow) == ResponseStep(cfg, old(View()), t, r)
    {
      turn := t;
      mutationInResponse := false;
      if r.ProviderError? {
        return Raise;
      }
      if r.calls == [] {
        if !mutationSucceeded && !retryGiven && terminal == map[] {
          retryGiven := true;
          return Continue;
        }
        return Return("conclusion");
      }
      flow := HandleCalls(r.calls);
    }

    /** `call_agent`: one response for each turn, up to `max_turns`. */
    method CallAgent(script: seq<Response>, maxTurns: nat) returns (flow: Flow)
      requires |script| >= maxTurns && View() == Initial(cfg)
      modifies this
      ensures (View(), flow) == Run(cfg, script[..maxTurns])
    {
      flow := Continue;
      var t := 0;
      while t < maxTurns
        invariant 0 <= t <= maxTurns && flow == Continue
        invariant (View(), flow) == Run(cfg, script[..t])
      {
        flow := HandleResponse(t, script[t]);
        t := t + 1;
        assert script[..t][..t - 1] == script[..t - 1];
        if flow != Continue {
          assert script[..maxTurns][..t] == script[..t];
          RunStopsEarly(cfg, script[..maxTurns], t);
          return;
        }
      }
    }
  }
}
