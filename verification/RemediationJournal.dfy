/** The remediation loop and the journal together (agents/coordinator.py:1829-1861): the notes around
    each prepared mutation decide how its call answers, and the loop's record of what it executed
    agrees with what the journal shows, in every run and whatever happens afterwards. */
module RemediationJournal {
  import opened Basics
  import opened Evidence
  import opened Journal
  import S = JournalSafety
  import J = JournalHonesty
  import L = Remediation
  import LS = RemediationSafety

  // ---- the joint run ----

  /** What the tool does with a prepared action. */
  datatype Outcome = ToolRaised | Uncertain | Answered(success: Json, errorClass: Json, error: Json)

  /** What happens around one call: other steps before it, the breaker, and the notes. */
  datatype Around = Around(
    before: seq<J.Event>, breakerOpen: bool, started: Fields, start: Call,
    outcome: Outcome, reported: Fields, report: Call)

  datatype Exchange = ProviderError | Response(calls: seq<(L.Call, Around)>)

  datatype Joint = Joint(loop: L.State, journal: J.System)

  ghost function Steps(env: Env, s: J.System, es: seq<J.Event>): J.System {
    if es == [] then s else J.Step(env, Steps(env, s, es[..|es| - 1]), Last(es))
  }

  /** The call of the prepared action between its two notes. */
  ghost function Mutate(env: Env, s: J.System, id: string, a: Around): (J.System, L.Answer) {
    if a.breakerOpen then (J.Step(env, s, J.Interrupt(id, false)), L.RaisedBefore("circuit breaker open"))
    else
      var begun := J.Step(env, s, J.StartMutation(id, a.started, a.start));
      if J.At(begun, id, J.Mutating) then FinishMutation(env, begun, id, a) else (begun, L.RaisedBefore("note"))
  }

  /** The rest of the call, once its start is in the journal. */
  ghost function FinishMutation(env: Env, begun: J.System, id: string, a: Around): (J.System, L.Answer) {
    match a.outcome
    case ToolRaised => (J.Step(env, begun, J.Interrupt(id, false)), L.RaisedInside("tool"))
    case Uncertain => (J.Step(env, begun, J.ReportUncertain(id, a.reported, a.report)), L.RaisedInside("uncertain"))
    case Answered(success, errorClass, error) =>
      var ended := J.Step(env, begun, J.ReturnMutation(id, a.reported, a.report));
      (ended, if J.At(ended, id, J.Running) then L.Output(success, errorClass, error) else L.RaisedInside("note"))
  }
  /** The call gets as far as executing a prepared action. */
  predicate Reaches(cfg: L.Config, s: L.State, c: L.Call) {
    && cfg.operational && c.known && L.Mutating(cfg, c.tool, c.args) && L.Screen(cfg, s, c).1
    && L.Authorise(cfg, L.Screen(cfg, s, c).0, c).1.Granted?
  }

  ghost function CallStep(cfg: L.Config, env: Env, id: string, x: Joint, c: L.Call, a: Around): (Joint, L.Flow) {
    var s := Steps(env, x.journal, a.before);
    if !J.At(s, id, J.Running) then (Joint(x.loop, s), L.Raise)
    else
      var (s', answer) := if Reaches(cfg, x.loop, c) then Mutate(env, s, id, a) else (s, c.answer);
      var (loop, flow) := L.CallStep(cfg, x.loop, c.(answer := answer));
      (Joint(loop, s'), flow)
  }

  ghost function Calls(cfg: L.Config, env: Env, id: string, x: Joint, calls: seq<(L.Call, Around)>): (Joint, L.Flow) {
    if calls == [] then (x, L.Continue)
    else
      var (x', flow) := Calls(cfg, env, id, x, calls[..|calls| - 1]);
      if flow != L.Continue then (x', flow) else CallStep(cfg, env, id, x', Last(calls).0, Last(calls).1)
  }

  ghost function TurnStep(cfg: L.Config, env: Env, id: string, x: Joint, turn: nat, t: Exchange): (Joint, L.Flow) {
    if t.Response? && t.calls != [] then Calls(cfg, env, id, x.(loop := L.BeginTurn(x.loop, turn)), t.calls)
    else
      var (loop, flow) := L.ResponseStep(cfg, x.loop, turn, if t.ProviderError? then L.ProviderError else L.Response([]));
      (x.(loop := loop), flow)
  }

  ghost function Run(cfg: L.Config, env: Env, id: string, s: J.System, script: seq<Exchange>): (Joint, L.Flow) {
    if script == [] then (Joint(L.Initial(cfg), s), L.Continue)
    else
      var (x, flow) := Run(cfg, env, id, s, script[..|script| - 1]);
      if flow != L.Continue then (x, flow) else TurnStep(cfg, env, id, x, |script| - 1, Last(script))
  }

  /** Only the loop itself notes the start and the return of a mutation of its execution. */
  predicate Others(es: seq<J.Event>, id: string) {
    forall e :: e in es ==> Other(e, id)
  }

  predicate Other(e: J.Event, id: string) {
    (e.StartMutation? || e.ReturnMutation?) ==> e.id != id
  }

  predicate CallsOk(calls: seq<(L.Call, Around)>, id: string) {
    forall c :: c in calls ==> Others(c.1.before, id)
  }

  predicate ScriptOk(script: seq<Exchange>, id: string) {
    forall t :: t in script && t.Response? ==> CallsOk(t.calls, id)
  }

  // ---- what the two records show ----

  /** The mutations that the loop executed. */
  function Mutations(h: seq<L.Entry>): nat {
    if h == [] then 0 else Mutations(h[..|h| - 1]) + if LS.IsMutation(Last(h)) then 1 else 0
  }

  /** The starts and returns that the journal shows, and whether a start is open. */
  datatype Marks = Marks(begun: nat, ended: nat, open: bool)

  function Occurrences(names: seq<Json>, name: Json): nat {
    if names == [] then 0 else Occurrences(names[..|names| - 1], name) + if Last(names) == name then 1 else 0
  }

  function MarksOf(names: seq<Json>): Marks {
    Marks(Occurrences(names, J.STARTED), Occurrences(names, J.RETURNED), J.Open(names))
  }

  function Marked(m: Marks, name: Json): Marks {
    if name == J.STARTED then Marks(m.begun + 1, m.ended, true)
    else if name == J.RETURNED then Marks(m.begun, m.ended + 1, false)
    else m
  }

  lemma MarksSnoc(names: seq<Json>, name: Json)
    ensures MarksOf(names + [name]) == Marked(MarksOf(names), name)
  {
    assert (names + [name])[..|names|] == names;
    J.OpenSnoc(names, name);
  }

  ghost function MarksAt(env: Env, s: J.System, id: string): Marks
    requires id in s.world.files.db
  {
    MarksOf(J.Names(env.codec, s.world.files.db[id]))
  }

  // ---- what other steps leave alone ----

  /** The execution is still there and shows the same marks. */
  ghost predicate SameMarks(env: Env, db: Database, db': Database, id: string) {
    id in db && id in db' && MarksOf(J.Names(env.codec, db'[id])) == MarksOf(J.Names(env.codec, db[id]))
  }

  lemma NoteMarks(env: Env, w: S.World, i: string, n: Note, call: Call, id: string)
    requires SoundEnv(env) && id in w.files.db
    requires i == id ==> String(n.event) != J.STARTED && String(n.event) != J.RETURNED
    ensures SameMarks(env, w.files.db, J.WithNote(env, w, i, n, call).0.files.db, id)
  {
    J.WithNoteEffect(env, w, i, n, call);
    MarksSnoc(J.Names(env.codec, w.files.db[id]), String(n.event));
  }

  /** A note on `id` that is no start or return of a mutation. */
  predicate Harmless(e: S.Event, id: string) {
    e.NoteCall? && e.id == id ==> String(e.note.event) != J.STARTED && String(e.note.event) != J.RETURNED
  }

  lemma JournalMarks(env: Env, w: S.World, e: S.Event, id: string)
    requires SoundEnv(env) && id in w.files.db && Harmless(e, id)
    ensures SameMarks(env, w.files.db, S.Step(env, w, e).files.db, id)
  {
    match e {
      case Begin(incident, i, about, call) =>
        if i !in w.files.db { J.BeginFrame(env, w, incident, i, about, call); } else { S.StepFrame(env, w, e, id); }
      case NoteCall(i, n, call) => NoteMarks(env, w, i, n, call, id);
      case _ =>
    }
  }

  lemma OtherIsHarmless(env: Env, s: J.System, e: J.Event, id: string)
    requires Other(e, id) && (e.Progress? ==> String(e.event) != J.STARTED && String(e.event) != J.RETURNED)
    ensures Harmless(J.JournalEvent(env, s, e), id)
  {
  }

  lemma RowMarks(env: Env, db: Database, w: S.World, row: Selected, call: Call, id: string)
    requires SoundEnv(env) && SameMarks(env, db, w.files.db, id)
    ensures SameMarks(env, db, J.RowPass(env, w, row, call).0.files.db, id)
  {
    NoteMarks(env, w, row.id, ReconcileNote(row.phase), call, id);
  }

  lemma RestartMarks(env: Env, s: J.System, rows: seq<Selected>, calls: seq<Call>, id: string)
    requires SoundEnv(env) && id in s.world.files.db
    ensures SameMarks(env, s.world.files.db, J.RestartStep(env, s, rows, calls).world.files.db, id)
  {
    if |calls| == |rows| { PassMarks(env, s.world, rows, calls, id, |rows|); }
  }

  lemma {:induction false} PassMarks(env: Env, w: S.World, rows: seq<Selected>, calls: seq<Call>, id: string, k: nat)
    requires SoundEnv(env) && id in w.files.db && |calls| == |rows| && k <= |rows|
    ensures SameMarks(env, w.files.db, Loop(J.Restarter(env, rows, calls), w, k).0.files.db, id)
  {
    if k > 0 {
      PassMarks(env, w, rows, calls, id, k - 1);
      RowMarks(env, w.files.db, Loop(J.Restarter(env, rows, calls), w, k - 1).0, rows[k - 1], calls[k - 1], id);
    }
  }

  lemma MutationNameIsRefused(env: Env, s: J.System, e: J.Event)
    requires e.Progress? && (String(e.event) == J.STARTED || String(e.event) == J.RETURNED)
    ensures J.Step(env, s, e) == s
  {
  }

  /** A step that is no start or return of a mutation of `id` leaves its marks as they are. */
  lemma OtherMarks(env: Env, s: J.System, e: J.Event, id: string)
    requires SoundEnv(env) && id in s.world.files.db && Other(e, id)
    ensures SameMarks(env, s.world.files.db, J.Step(env, s, e).world.files.db, id)
  {
    if e.Restart? {
      RestartMarks(env, s, e.rows, e.calls, id);
    } else if e.Progress? && (String(e.event) == J.STARTED || String(e.event) == J.RETURNED) {
      MutationNameIsRefused(env, s, e);
    } else {
      J.StepIsJournalled(env, s, e);
      OtherIsHarmless(env, s, e, id);
      JournalMarks(env, s.world, J.JournalEvent(env, s, e), id);
    }
  }

  lemma {:induction false} OthersKeep(env: Env, s: J.System, es: seq<J.Event>, id: string)
    requires SoundEnv(env) && J.Inv(env, s) && id in s.world.files.db && Others(es, id)
    ensures J.Inv(env, Steps(env, s, es))
    ensures SameMarks(env, s.world.files.db, Steps(env, s, es).world.files.db, id)
  {
    if es != [] {
      var init := es[..|es| - 1];
      OthersKeep(env, s, init, id);
      OtherMarks(env, Steps(env, s, init), Last(es), id);
      J.StepKeeps(env, Steps(env, s, init), Last(es));
    }
  }

  // ---- one mutation ----

  /** A note of the coordinator's own: its name is added exactly when the program goes on. */
  lemma OwnNote(env: Env, s: J.System, id: string, n: Note, call: Call, next: J.Program)
    requires SoundEnv(env) && id in s.world.files.db && !next.Raised?
    ensures var s' := J.NoteOrRaise(env, s, id, n, call, next);
      && id in s'.world.files.db
      && (J.At(s', id, next) ==> MarksAt(env, s', id) == Marked(MarksAt(env, s, id), String(n.event)))
      && (!J.At(s', id, next) ==> MarksAt(env, s', id) == MarksAt(env, s, id) && J.At(s', id, J.Raised(false)))
  {
    J.WithNoteEffect(env, s.world, id, n, call);
    MarksSnoc(J.Names(env.codec, s.world.files.db[id]), String(n.event));
  }

  lemma StartIsNote(env: Env, s: J.System, id: string, patch: Fields, call: Call)
    requires J.At(s, id, J.Running)
    ensures J.Step(env, s, J.StartMutation(id, patch, call))
            == J.NoteOrRaise(env, s, id, Note("applying", "mutation_started", patch, "running"), call, J.Mutating)
  {
  }

  lemma ReturnIsNote(env: Env, s: J.System, id: string, patch: Fields, call: Call)
    requires J.At(s, id, J.Mutating)
    ensures J.Step(env, s, J.ReturnMutation(id, patch, call))
            == J.NoteOrRaise(env, s, id, Note("verification", "mutation_returned", patch, "running"), call, J.Running)
  {
  }

  lemma StartMarks(env: Env, s: J.System, id: string, patch: Fields, call: Call)
    requires SoundEnv(env) && J.Inv(env, s) && J.At(s, id, J.Running)
    ensures var s' := J.Step(env, s, J.StartMutation(id, patch, call));
      && J.Inv(env, s') && id in s.world.files.db && id in s'.world.files.db
      && (J.At(s', id, J.Mutating) ==> MarksAt(env, s', id) == Marked(MarksAt(env, s, id), J.STARTED))
      && (!J.At(s', id, J.Mutating) ==> MarksAt(env, s', id) == MarksAt(env, s, id) && !J.At(s', id, J.Running))
  {
    StartIsNote(env, s, id, patch, call);
    J.StartKeeps(env, s, id, patch, call);
    OwnNote(env, s, id, Note("applying", "mutation_started", patch, "running"), call, J.Mutating);
  }

  lemma ReturnMarks(env: Env, s: J.System, id: string, patch: Fields, call: Call)
    requires SoundEnv(env) && J.Inv(env, s) && J.At(s, id, J.Mutating)
    ensures var s' := J.Step(env, s, J.ReturnMutation(id, patch, call));
      && J.Inv(env, s') && id in s.world.files.db && id in s'.world.files.db
      && (J.At(s', id, J.Running) ==> MarksAt(env, s', id) == Marked(MarksAt(env, s, id), J.RETURNED))
      && (!J.At(s', id, J.Running) ==> MarksAt(env, s', id) == MarksAt(env, s, id))
  {
    ReturnIsNote(env, s, id, patch, call);
    J.ReturnKeeps(env, s, id, patch, call);
    OwnNote(env, s, id, Note("verification", "mutation_returned", patch, "running"), call, J.Running);
  }

  /** A step of the coordinator's own that makes no mutation note, after which it is over. */
  lemma EndMarks(env: Env, s: J.System, id: string, e: J.Event)
    requires SoundEnv(env) && J.Inv(env, s) && (J.At(s, id, J.Mutating) || J.At(s, id, J.Running))
    requires e == J.Interrupt(id, false) || (e.ReportUncertain? && e.id == id && J.At(s, id, J.Mutating))
    ensures var s' := J.Step(env, s, e);
      && J.Inv(env, s') && id in s.world.files.db && id in s'.world.files.db
      && MarksAt(env, s', id) == MarksAt(env, s, id) && !J.At(s', id, J.Running)
  {
    J.StepKeeps(env, s, e);
    OtherMarks(env, s, e, id);
  }

  /** The answer tells what the journal shows: an output both notes, an exception inside only the
      start, an exception before neither. */
  ghost predicate AnswerTells(env: Env, s: J.System, s': J.System, id: string, answer: L.Answer) {
    && J.Inv(env, s') && id in s.world.files.db && id in s'.world.files.db
    && (J.At(s', id, J.Running) <==> answer.Output?)
    && var m, m' := MarksAt(env, s, id), MarksAt(env, s', id);
       match answer
       case Output(_, _, _) => m' == Marks(m.begun + 1, m.ended + 1, false)
       case RaisedInside(_) => m' == Marks(m.begun + 1, m.ended, true)
       case RaisedBefore(_) => m' == m
  }

  lemma MutateTells(env: Env, s: J.System, id: string, a: Around)
    requires SoundEnv(env) && J.Inv(env, s) && J.At(s, id, J.Running)
    ensures var (s', answer) := Mutate(env, s, id, a); AnswerTells(env, s, s', id, answer)
  {
    if a.breakerOpen {
      EndMarks(env, s, id, J.Interrupt(id, false));
    } else {
      StartMarks(env, s, id, a.started, a.start);
      var begun := J.Step(env, s, J.StartMutation(id, a.started, a.start));
      if J.At(begun, id, J.Mutating) { BegunTells(env, s, begun, id, a); }
    }
  }

  lemma BegunTells(env: Env, s: J.System, begun: J.System, id: string, a: Around)
    requires SoundEnv(env) && J.Inv(env, begun) && J.At(begun, id, J.Mutating)
    requires id in s.world.files.db && id in begun.world.files.db
    requires MarksAt(env, begun, id) == Marked(MarksAt(env, s, id), J.STARTED)
    ensures var (s', answer) := FinishMutation(env, begun, id, a); AnswerTells(env, s, s', id, answer)
  {
    match a.outcome {
      case ToolRaised => EndMarks(env, begun, id, J.Interrupt(id, false));
      case Uncertain => EndMarks(env, begun, id, J.ReportUncertain(id, a.reported, a.report));
      case Answered(_, _, _) => ReturnMarks(env, begun, id, a.reported, a.report);
    }
  }

  // ---- one call of the loop ----

  lemma MutationsSnoc(h: seq<L.Entry>, e: L.Entry)
    ensures Mutations(h + [e]) == Mutations(h) + if LS.IsMutation(e) then 1 else 0
  {
    assert (h + [e])[..|h|] == h;
  }

  lemma ExecuteCounts(cfg: L.Config, s: L.State, c: L.Call, g: L.Grant)
    requires g.Granted? && cfg.operational
    ensures var (s', flow) := L.Execute(cfg, s, c, g);
      && Mutations(s'.history) == Mutations(s.history)
           + (if c.known && L.Mutating(cfg, c.tool, c.args) && !c.answer.RaisedBefore? then 1 else 0)
      && (c.known && !c.answer.Output? ==> flow == L.Raise)
  {
    LS.ExecuteCases(cfg, s, c, g);
    var o := if L.Mutating(cfg, c.tool, c.args) && c.known then c.observation else L.Missing;
    var terminalError := if L.Mutating(cfg, c.tool, c.args) then L.TerminalErrorClass(cfg, LS.AnswerTo(c)) else None;
    MutationsSnoc(s.history, L.NewEntry(cfg, s, c, g, terminalError, o));
    MutationsSnoc(s.history, L.NewEntry(cfg, s, c, g, None, L.Missing));
  }

  lemma ScreenCounts(cfg: L.Config, s: L.State, c: L.Call)
    ensures Mutations(L.Screen(cfg, s, c).0.history) == Mutations(s.history)
  {
    var key := L.ActionIdentity(cfg, c.tool, c.args);
    LS.ScreenCases(cfg, s, c);
    MutationsSnoc(s.history, L.Blocked(key, s.turn));
    if L.Screen(cfg, s, c) == L.Charge(cfg, s, c) { assert L.Charge(cfg, s, c).0.history == s.history; }
  }

  /** A mutation is recorded exactly when a prepared action was reached and did not fail before. */
  lemma CallCounts(cfg: L.Config, s: L.State, c: L.Call)
    requires cfg.operational
    ensures var (s', flow) := L.CallStep(cfg, s, c);
      && Mutations(s'.history) == Mutations(s.history) + (if Reaches(cfg, s, c) && !c.answer.RaisedBefore? then 1 else 0)
      && (Reaches(cfg, s, c) && !c.answer.Output? ==> flow == L.Raise)
  {
    var (screened, passed) := L.Screen(cfg, s, c);
    ScreenCounts(cfg, s, c);
    if passed {
      if L.Mutating(cfg, c.tool, c.args) {
        LS.MutationStep(cfg, s, c);
        LS.AuthoriseEffect(cfg, screened, c);
        var (asked, grant) := L.Authorise(cfg, screened, c);
        if grant.Granted? { ExecuteCounts(cfg, asked, c, grant); }
      } else {
        ExecuteCounts(cfg, screened, c, L.Granted(L.Auto, L.PlainAction(c), None));
      }
    }
  }

  /** The tool's answer plays no part before the tool is called. */
  lemma SameReach(cfg: L.Config, s: L.State, c: L.Call, answer: L.Answer)
    ensures Reaches(cfg, s, c.(answer := answer)) == Reaches(cfg, s, c)
  {
    SameScreen(cfg, s, c, answer);
    SameAuthorise(cfg, L.Screen(cfg, s, c).0, c, answer);
  }

  lemma SameScreen(cfg: L.Config, s: L.State, c: L.Call, answer: L.Answer)
    ensures L.Screen(cfg, s, c.(answer := answer)) == L.Screen(cfg, s, c)
  {
  }

  lemma SameAuthorise(cfg: L.Config, s: L.State, c: L.Call, answer: L.Answer)
    ensures L.Authorise(cfg, s, c.(answer := answer)) == L.Authorise(cfg, s, c)
  {
  }

  // ---- the joint invariant ----

  /** The journal shows a start for each executed mutation, and a return for each but one that is
      open; it is open only once the loop is over. */
  ghost predicate Agrees(env: Env, id: string, x: Joint, flow: L.Flow) {
    && J.Inv(env, x.journal) && id in x.journal.world.files.db
    && var m := MarksAt(env, x.journal, id);
    && m.begun == Mutations(x.loop.history) && m.ended == m.begun - (if m.open then 1 else 0)
    && (flow != L.Raise ==> J.At(x.journal, id, J.Running))
  }

  lemma RunningIsClosed(env: Env, s: J.System, id: string)
    requires J.Inv(env, s) && J.At(s, id, J.Running)
    ensures id in s.world.files.db && !MarksAt(env, s, id).open
  {
    assert J.Honest(env.codec, s.world.files.db[id]) && J.ProgramOk(s.world.files.db[id], J.Running);
  }

  /** A mutation moves both records on alike. */
  lemma ReachedAgrees(cfg: L.Config, env: Env, id: string, loop: L.State, s: J.System, c: L.Call, a: Around)
    requires cfg.operational && SoundEnv(env) && Agrees(env, id, Joint(loop, s), L.Continue) && Reaches(cfg, loop, c)
    ensures var (s', answer) := Mutate(env, s, id, a); var (loop', flow) := L.CallStep(cfg, loop, c.(answer := answer));
      Agrees(env, id, Joint(loop', s'), flow)
  {
    var (s', answer) := Mutate(env, s, id, a);
    RunningIsClosed(env, s, id);
    MutateTells(env, s, id, a);
    SameReach(cfg, loop, c, answer);
    CallCounts(cfg, loop, c.(answer := answer));
    var (loop', flow) := L.CallStep(cfg, loop, c.(answer := answer));
    MoveAlike(env, id, loop, s, loop', s', answer, flow);
  }

  lemma MoveAlike(env: Env, id: string, loop: L.State, s: J.System, loop': L.State, s': J.System, answer: L.Answer, flow: L.Flow)
    requires Agrees(env, id, Joint(loop, s), L.Continue) && !MarksAt(env, s, id).open && AnswerTells(env, s, s', id, answer)
    requires Mutations(loop'.history) == Mutations(loop.history) + if answer.RaisedBefore? then 0 else 1
    requires !answer.Output? ==> flow == L.Raise
    ensures Agrees(env, id, Joint(loop', s'), flow)
  {
  }

  /** The loop records no mutation and the journal stays. */
  lemma SameRecord(env: Env, id: string, x: Joint, loop: L.State, flow: L.Flow)
    requires Agrees(env, id, x, L.Continue) && Mutations(loop.history) == Mutations(x.loop.history)
    ensures Agrees(env, id, Joint(loop, x.journal), flow)
  {
  }

  lemma UnreachedAgrees(cfg: L.Config, env: Env, id: string, x: Joint, c: L.Call)
    requires cfg.operational && Agrees(env, id, x, L.Continue) && !Reaches(cfg, x.loop, c)
    ensures var (loop, flow) := L.CallStep(cfg, x.loop, c); Agrees(env, id, Joint(loop, x.journal), flow)
  {
    var (loop, flow) := L.CallStep(cfg, x.loop, c);
    CallCounts(cfg, x.loop, c);
    SameRecord(env, id, x, loop, flow);
  }

  lemma CallAgrees(cfg: L.Config, env: Env, id: string, x: Joint, c: L.Call, a: Around)
    requires cfg.operational && SoundEnv(env) && Agrees(env, id, x, L.Continue) && Others(a.before, id)
    ensures var (x', flow) := CallStep(cfg, env, id, x, c, a); Agrees(env, id, x', flow)
  {
    var s := Steps(env, x.journal, a.before);
    OthersKeep(env, x.journal, a.before, id);
    if J.At(s, id, J.Running) {
      assert c.(answer := c.answer) == c;
      if Reaches(cfg, x.loop, c) {
        ReachedAgrees(cfg, env, id, x.loop, s, c, a);
      } else {
        UnreachedAgrees(cfg, env, id, Joint(x.loop, s), c);
      }
    }
  }

  lemma {:induction false} CallsAgree(cfg: L.Config, env: Env, id: string, x: Joint, calls: seq<(L.Call, Around)>)
    requires cfg.operational && SoundEnv(env) && Agrees(env, id, x, L.Continue) && CallsOk(calls, id)
    ensures var (x', flow) := Calls(cfg, env, id, x, calls); Agrees(env, id, x', flow)
  {
    if calls != [] {
      var init := calls[..|calls| - 1];
      CallsAgree(cfg, env, id, x, init);
      var (x', flow) := Calls(cfg, env, id, x, init);
      if flow == L.Continue { CallAgrees(cfg, env, id, x', Last(calls).0, Last(calls).1); }
    }
  }

  lemma TurnAgrees(cfg: L.Config, env: Env, id: string, x: Joint, turn: nat, t: Exchange)
    requires cfg.operational && SoundEnv(env) && Agrees(env, id, x, L.Continue) && (t.Response? ==> CallsOk(t.calls, id))
    ensures var (x', flow) := TurnStep(cfg, env, id, x, turn, t); Agrees(env, id, x', flow)
  {
    if t.Response? && t.calls != [] {
      SameRecord(env, id, x, L.BeginTurn(x.loop, turn), L.Continue);
      CallsAgree(cfg, env, id, x.(loop := L.BeginTurn(x.loop, turn)), t.calls);
    } else {
      var r := if t.ProviderError? then L.ProviderError else L.Response([]);
      IdleTurn(cfg, x.loop, turn, r);
      var (loop, flow) := L.ResponseStep(cfg, x.loop, turn, r);
      SameRecord(env, id, x, loop, flow);
    }
  }

  lemma IdleTurn(cfg: L.Config, s: L.State, turn: nat, r: L.Response)
    requires r == L.ProviderError || r == L.Response([])
    ensures L.ResponseStep(cfg, s, turn, r).0.history == s.history
  {
  }

  /** The execution runs and its journal shows no mutation yet. */
  ghost predicate Fresh(env: Env, s: J.System, id: string) {
    J.At(s, id, J.Running) && id in s.world.files.db && MarksAt(env, s, id) == Marks(0, 0, false)
  }

  lemma {:induction false} RunAgrees(cfg: L.Config, env: Env, id: string, s: J.System, script: seq<Exchange>)
    requires cfg.operational && SoundEnv(env) && J.Inv(env, s) && Fresh(env, s, id) && ScriptOk(script, id)
    ensures var (x, flow) := Run(cfg, env, id, s, script); Agrees(env, id, x, flow)
  {
    if script != [] {
      var init := script[..|script| - 1];
      RunAgrees(cfg, env, id, s, init);
      var (x, flow) := Run(cfg, env, id, s, init);
      if flow == L.Continue { TurnAgrees(cfg, env, id, x, |script| - 1, Last(script)); }
    }
  }

  // ---- main results ----

  /** The execution shows a start for each of the `executed` mutations, and at most one of them has no
      return; once closed, it is uncertain exactly if one has none. */
  ghost predicate Accounted(env: Env, s: J.System, id: string, executed: nat) {
    && id in s.world.files.db
    && var m, state := MarksAt(env, s, id), s.world.files.db[id].state;
       && m.begun == executed && executed - 1 <= m.ended <= executed
       && (state in TERMINAL ==> (state == "uncertain" <==> m.ended < executed))
  }

  lemma StaysAccounted(env: Env, id: string, x: Joint, flow: L.Flow, more: seq<J.Event>)
    requires SoundEnv(env) && Agrees(env, id, x, flow) && Others(more, id)
    ensures Accounted(env, Steps(env, x.journal, more), id, Mutations(x.loop.history))
  {
    OthersKeep(env, x.journal, more, id);
    HonestIsAccounted(env, Steps(env, x.journal, more), id, Mutations(x.loop.history));
  }

  lemma HonestIsAccounted(env: Env, s: J.System, id: string, executed: nat)
    requires J.Inv(env, s) && id in s.world.files.db
    requires var m := MarksAt(env, s, id); m.begun == executed && m.ended == m.begun - (if m.open then 1 else 0)
    ensures Accounted(env, s, id, executed)
  {
    assert J.Honest(env.codec, s.world.files.db[id]);
  }

  /** After any run of the loop and whatever follows it (handlers, crashes, restarts, other
      executions), the journal shows exactly one start for each mutation that the loop executed. The
      execution, once closed, is uncertain if and only if it shows fewer returns than that. */
  lemma UncertainIffUnreturned(cfg: L.Config, env: Env, id: string, events: seq<J.Event>, script: seq<Exchange>, more: seq<J.Event>)
    requires cfg.operational && SoundEnv(env) && Fresh(env, J.Run(env, events), id)
    requires ScriptOk(script, id) && Others(more, id)
    ensures var x := Run(cfg, env, id, J.Run(env, events), script).0;
      Accounted(env, Steps(env, x.journal, more), id, Mutations(x.loop.history))
  {
    J.RunKeeps(env, events);
    RunAgrees(cfg, env, id, J.Run(env, events), script);
    var (x, flow) := Run(cfg, env, id, J.Run(env, events), script);
    StaysAccounted(env, id, x, flow, more);
  }

  // ---- the loop's part is a run of the loop ----

  /** The call with the answer that it gets. */
  ghost function Settled(cfg: L.Config, env: Env, id: string, x: Joint, c: L.Call, a: Around): L.Call {
    if Reaches(cfg, x.loop, c) then c.(answer := Mutate(env, Steps(env, x.journal, a.before), id, a).1) else c
  }

  lemma CallIsCall(cfg: L.Config, env: Env, id: string, x: Joint, c: L.Call, a: Around)
    ensures var (x', flow) := CallStep(cfg, env, id, x, c, a);
      || (x'.loop == x.loop && flow == L.Raise)
      || (x'.loop, flow) == L.CallStep(cfg, x.loop, Settled(cfg, env, id, x, c, a))
  {
  }

  lemma CallsSnoc(cfg: L.Config, s: L.State, done: seq<L.Call>, c: L.Call)
    requires L.Calls(cfg, s, done).1 == L.Continue
    ensures L.Calls(cfg, s, done + [c]) == L.CallStep(cfg, L.Calls(cfg, s, done).0, c)
  {
    assert (done + [c])[..|done|] == done;
  }

  lemma {:induction false} CallsAreCalls(cfg: L.Config, env: Env, id: string, x: Joint, calls: seq<(L.Call, Around)>)
    returns (done: seq<L.Call>)
    ensures var (x', flow) := Calls(cfg, env, id, x, calls);
      L.Calls(cfg, x.loop, done).0 == x'.loop && (flow != L.Raise ==> L.Calls(cfg, x.loop, done).1 == flow)
      && (calls != [] && done == [] ==> flow == L.Raise)
  {
    done := [];
    if calls != [] {
      var init := calls[..|calls| - 1];
      done := CallsAreCalls(cfg, env, id, x, init);
      var (x', flow) := Calls(cfg, env, id, x, init);
      if flow == L.Continue {
        var c := Settled(cfg, env, id, x', Last(calls).0, Last(calls).1);
        var (y, next) := CallStep(cfg, env, id, x', Last(calls).0, Last(calls).1);
        CallIsCall(cfg, env, id, x', Last(calls).0, Last(calls).1);
        CallsSnoc(cfg, x.loop, done, c);
        if (y.loop, next) == L.CallStep(cfg, x'.loop, c) { done := done + [c]; }
      }
    }
  }

  lemma TurnIsTurn(cfg: L.Config, env: Env, id: string, x: Joint, turn: nat, t: Exchange) returns (r: L.Response)
    ensures var (x', flow) := TurnStep(cfg, env, id, x, turn, t);
      L.ResponseStep(cfg, x.loop, turn, r).0 == x'.loop && (flow != L.Raise ==> L.ResponseStep(cfg, x.loop, turn, r).1 == flow)
  {
    if t.Response? && t.calls != [] {
      var done := CallsAreCalls(cfg, env, id, x.(loop := L.BeginTurn(x.loop, turn)), t.calls);
      r := if done == [] then L.ProviderError else L.Response(done);
    } else {
      r := if t.ProviderError? then L.ProviderError else L.Response([]);
    }
  }

  /** The loop's state is that of a run of the loop alone, with the answers that the journal led to;
      so everything proved of its runs holds here. */
  lemma {:induction false} LoopIsRun(cfg: L.Config, env: Env, id: string, s: J.System, script: seq<Exchange>)
    returns (done: seq<L.Response>)
    ensures var (x, flow) := Run(cfg, env, id, s, script);
      L.Run(cfg, done).0 == x.loop && (flow == L.Continue ==> |done| == |script| && L.Run(cfg, done).1 == flow)
  {
    done := [];
    if script != [] {
      var init := script[..|script| - 1];
      done := LoopIsRun(cfg, env, id, s, init);
      var (x, flow) := Run(cfg, env, id, s, init);
      if flow == L.Continue {
        var r := TurnIsTurn(cfg, env, id, x, |script| - 1, Last(script));
        assert (done + [r])[..|done|] == done;
        done := done + [r];
      }
    }
  }
}
