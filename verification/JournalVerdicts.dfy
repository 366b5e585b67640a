/** How executions end (agents/coordinator.py:2593-2620, 3360-3452): the state of a closed execution
    is told by its last event and by whether a mutation was open, in every run. */
module JournalVerdicts {
  import opened Basics
  import opened Evidence
  import opened Journal
  import opened JournalHonesty
  import R = JournalRestart
  import S = JournalSafety

  /** The state that belongs to a closing event, outside and inside a mutation. */
  function Verdict(last: Json, open: bool): string {
    if last == String("incident_completed") then "completed"
    else if last == String("admission_blocked") then "failed"
    else if open then "uncertain"
    else if last == String("execution_cancelled") then "cancelled"
    else if last == String("execution_failed") then "failed"
    else if last == String("restart_reconciled") then "interrupted"
    else ""
  }

  ghost predicate EndsWell(c: Codec, x: Execution) {
    x.state in TERMINAL ==>
      && x.events != [] && x.state == Verdict(Last(Names(c, x)), Open(Names(c, x)))
  }

  ghost predicate AllEndWell(c: Codec, db: Database) {
    forall id :: id in db ==> EndsWell(c, db[id])
  }

  /** A closing note whose state belongs to its event. */
  ghost predicate ClosesWell(c: Codec, x: Execution, n: Note) {
    n.state in TERMINAL ==>
      && String(n.event) != STARTED && String(n.event) != RETURNED
      && n.state == Verdict(String(n.event), Open(Names(c, x)))
  }

  lemma NoteEndsWell(env: Env, w: S.World, id: string, n: Note, call: Call)
    requires SoundEnv(env) && AllEndWell(env.codec, w.files.db)
    requires id in w.files.db && NoteStep(env, w.files, id, n, call).1 ==> ClosesWell(env.codec, w.files.db[id], n)
    ensures AllEndWell(env.codec, WithNote(env, w, id, n, call).0.files.db)
  {
    WithNoteEffect(env, w, id, n, call);
    if id in w.files.db { OpenSnoc(Names(env.codec, w.files.db[id]), String(n.event)); }
  }

  lemma BeginEndsWell(env: Env, w: S.World, incident: string, id: string, about: Fields, call: Call)
    requires SoundEnv(env) && AllEndWell(env.codec, w.files.db)
    ensures AllEndWell(env.codec, S.Step(env, w, S.Begin(incident, id, about, call)).files.db)
  {
    if id !in w.files.db { BeginFrame(env, w, incident, id, about, call); } else { S.BeginStepFrame(env, w.files, incident, id, about, call); }
  }

  lemma HandlerClosesWell(c: Codec, x: Execution, cancelled: bool)
    requires Honest(c, x) && x.state !in TERMINAL
    ensures ClosesWell(c, x, HandlerNote(x, cancelled))
  {
  }

  /** The closing notes of the coordinator have the state that belongs to their event. */
  lemma CoordinatorClosesWell(env: Env, s: System, e: Event)
    requires Inv(env, s) && JournalEvent(env, s, e).NoteCall? && JournalEvent(env, s, e).id in s.world.files.db
    requires s.world.files.db[JournalEvent(env, s, e).id].state !in TERMINAL
    ensures ClosesWell(env.codec, s.world.files.db[JournalEvent(env, s, e).id], JournalEvent(env, s, e).note)
  {
    if e.Handle? {
      var x := s.world.files.db[e.id];
      assert Honest(env.codec, x);
      HandlerClosesWell(env.codec, x, s.programs[e.id].cancelled);
    }
  }

  lemma JournalEndsWell(env: Env, s: System, e: Event)
    requires SoundEnv(env) && Inv(env, s) && AllEndWell(env.codec, s.world.files.db) && !e.Restart?
    ensures AllEndWell(env.codec, S.Step(env, s.world, JournalEvent(env, s, e)).files.db)
  {
    match JournalEvent(env, s, e) {
      case Begin(incident, id, about, call) => BeginEndsWell(env, s.world, incident, id, about, call);
      case NoteCall(id, n, call) =>
        S.NoteStepFrame(env, s.world.files, id, n, call);
        if NoteStep(env, s.world.files, id, n, call).1 { CoordinatorClosesWell(env, s, e); }
        NoteEndsWell(env, s.world, id, n, call);
      case _ =>
    }
  }

  lemma ClosedEndsWell(env: Env, x: Execution, x': Execution)
    requires Honest(env.codec, x) && x.state == "running" && R.ClosedByRestart(env, x, x')
    ensures EndsWell(env.codec, x')
  {
    OpenSnoc(Names(env.codec, x), String("restart_reconciled"));
  }

  lemma RestartEndsWell(env: Env, s: System, rows: seq<Selected>, calls: seq<Call>)
    requires SoundEnv(env) && Inv(env, s) && AllEndWell(env.codec, s.world.files.db)
    ensures AllEndWell(env.codec, RestartStep(env, s, rows, calls).world.files.db)
  {
    var db, db' := s.world.files.db, RestartStep(env, s, rows, calls).world.files.db;
    if s.programs == map[] && |calls| == |rows| && Selects(db, rows) {
      R.PassOnlyCloses(env, s.world, rows, calls);
      forall id | id in db' ensures EndsWell(env.codec, db'[id]) {
        R.RestartVerdict(env, s, rows, calls, id);
        if db'[id] != db[id] { ClosedEndsWell(env, db[id], db'[id]); }
      }
    }
  }

  lemma StepEndsWell(env: Env, s: System, e: Event)
    requires SoundEnv(env) && Inv(env, s) && AllEndWell(env.codec, s.world.files.db)
    ensures AllEndWell(env.codec, Step(env, s, e).world.files.db)
  {
    if e.Restart? {
      RestartEndsWell(env, s, e.rows, e.calls);
    } else {
      StepIsJournalled(env, s, e);
      JournalEndsWell(env, s, e);
    }
  }

  lemma {:induction false} RunEndsWell(env: Env, events: seq<Event>)
    requires SoundEnv(env)
    ensures AllEndWell(env.codec, Run(env, events).world.files.db)
  {
    if events != [] {
      var init, e := events[..|events| - 1], Last(events);
      RunEndsWell(env, init);
      RunKeeps(env, init);
      StepEndsWell(env, Run(env, init), e);
    }
  }

  // ---- main results ----

  /** In every run the state of a closed execution is told by its last event: completed and blocked
      admissions by themselves, and cancellation, failure and restart outside a mutation; inside one
      these three leave it uncertain. So it is completed only if its last event says so. */
  lemma StateToldByLastEvent(env: Env, events: seq<Event>, id: string)
    requires SoundEnv(env) && id in Run(env, events).world.files.db
    requires Run(env, events).world.files.db[id].state in TERMINAL
    ensures var x := Run(env, events).world.files.db[id]; var names := Names(env.codec, x);
      && names != [] && x.state == Verdict(Last(names), Open(names))
      && (x.state == "completed" <==> Last(names) == String("incident_completed"))
      && (x.state == "interrupted" <==> Last(names) == String("restart_reconciled") && !Open(names))
      && (x.state == "cancelled" <==> Last(names) == String("execution_cancelled") && !Open(names))
  {
    RunEndsWell(env, events);
    assert EndsWell(env.codec, Run(env, events).world.files.db[id]);
  }

  /** The execution closed by the coordinator's handler for a cancellation, or for another exception. */
  ghost predicate ClosedByHandler(env: Env, x: Execution, x': Execution, cancelled: bool) {
    && Names(env.codec, x') == Names(env.codec, x) + [String(if cancelled then "execution_cancelled" else "execution_failed")]
    && x'.phase == "finished"
    && x'.state == if Open(Names(env.codec, x)) then "uncertain" else if cancelled then "cancelled" else "failed"
  }

  lemma HandlerNoteCloses(env: Env, w: S.World, id: string, cancelled: bool, call: Call)
    requires SoundEnv(env) && id in w.files.db && Honest(env.codec, w.files.db[id]) && w.files.db[id].state == "running"
    ensures var (w', ok) := WithNote(env, w, id, HandlerNote(w.files.db[id], cancelled), call);
      && id in w'.files.db
      && if ok then ClosedByHandler(env, w.files.db[id], w'.files.db[id], cancelled) else w'.files.db[id] == w.files.db[id]
  {
    WithNoteEffect(env, w, id, HandlerNote(w.files.db[id], cancelled), call);
  }

  /** A coordinator at work on a readable execution. */
  ghost predicate AtWork(env: Env, s: System, id: string) {
    && (At(s, id, Running) || At(s, id, Mutating)) && Readable(env.codec, s.world.files.db, id)
    && id in s.world.files.db && s.world.files.db[id].state == "running"
  }

  lemma InterruptedIsRaised(env: Env, s: System, id: string, cancelled: bool)
    requires AtWork(env, s, id)
    ensures Step(env, s, Interrupt(id, cancelled)) == s.(programs := s.programs[id := Raised(cancelled)])
  {
  }

  lemma RaisedIsHandled(env: Env, s: System, id: string, cancelled: bool, call: Call)
    requires At(s, id, Raised(cancelled)) && Readable(env.codec, s.world.files.db, id)
    requires id in s.world.files.db && s.world.files.db[id].state == "running"
    ensures Step(env, s, Handle(id, call))
            == NoteAndEnd(env, s, id, HandlerNote(s.world.files.db[id], cancelled), call)
  {
  }

  /** The state once the coordinator was interrupted and its handler has run. */
  ghost function Handled(env: Env, s: System, id: string, cancelled: bool, call: Call): System {
    Step(env, Step(env, s, Interrupt(id, cancelled)), Handle(id, call))
  }

  lemma HandledByNote(env: Env, s: System, id: string, cancelled: bool, call: Call)
    requires AtWork(env, s, id)
    ensures Handled(env, s, id, cancelled, call)
            == System(WithNote(env, s.world, id, HandlerNote(s.world.files.db[id], cancelled), call).0, s.programs - {id})
  {
    InterruptedIsRaised(env, s, id, cancelled);
    RaisedIsHandled(env, s.(programs := s.programs[id := Raised(cancelled)]), id, cancelled, call);
    assert s.programs[id := Raised(cancelled)] - {id} == s.programs - {id};
  }

  lemma RunAtWork(env: Env, events: seq<Event>, id: string)
    requires SoundEnv(env) && (At(Run(env, events), id, Running) || At(Run(env, events), id, Mutating))
    requires Readable(env.codec, Run(env, events).world.files.db, id)
    ensures var s := Run(env, events); AtWork(env, s, id) && Honest(env.codec, s.world.files.db[id])
  {
    var s := Run(env, events);
    RunKeeps(env, events);
    assert Honest(env.codec, s.world.files.db[id]) && ProgramOk(s.world.files.db[id], s.programs[id]);
  }

  /** The coordinator is over, and its execution closed if the handler's note got through. */
  ghost predicate HandlerResult(env: Env, s: System, s': System, id: string, cancelled: bool, closed: bool) {
    && id in s.world.files.db && id in s'.world.files.db && id !in s'.programs
    && var x, x' := s.world.files.db[id], s'.world.files.db[id];
       if closed then ClosedByHandler(env, x, x', cancelled) else x' == x
  }

  lemma HandledVerdict(env: Env, s: System, id: string, cancelled: bool, call: Call)
    requires SoundEnv(env) && AtWork(env, s, id) && Honest(env.codec, s.world.files.db[id])
    ensures HandlerResult(env, s, Handled(env, s, id, cancelled, call), id, cancelled,
                          NoteStep(env, s.world.files, id, HandlerNote(s.world.files.db[id], cancelled), call).1)
  {
    HandledByNote(env, s, id, cancelled, call);
    HandlerNoteCloses(env, s.world, id, cancelled, call);
  }

  lemma HandlerNoteCommits(env: Env, events: seq<Event>, id: string, cancelled: bool, call: Call)
    requires SoundEnv(env) && AtWork(env, Run(env, events), id) && R.AllFinite(env) && call.fate == Commits
    ensures var w := Run(env, events).world; NoteStep(env, w.files, id, HandlerNote(w.files.db[id], cancelled), call).1
  {
    var w := Run(env, events).world;
    R.Parses(env, events, id);
    R.NoteCommits(env, w.files, id, HandlerNote(w.files.db[id], cancelled), call);
  }

  /** When a coordinator at work on a readable execution is cancelled, or fails otherwise, and its
      handler runs, the execution is closed as cancelled, or failed, outside a mutation and as
      uncertain inside one; unless the handler's note fails, which leaves it as it was. */
  lemma HandlerVerdict(env: Env, events: seq<Event>, id: string, cancelled: bool, call: Call)
    requires SoundEnv(env) && (At(Run(env, events), id, Running) || At(Run(env, events), id, Mutating))
    requires Readable(env.codec, Run(env, events).world.files.db, id)
    ensures var s := Run(env, events); var s' := Handled(env, s, id, cancelled, call);
      && (HandlerResult(env, s, s', id, cancelled, true) || HandlerResult(env, s, s', id, cancelled, false))
      && (R.AllFinite(env) && call.fate == Commits ==> HandlerResult(env, s, s', id, cancelled, true))
  {
    RunAtWork(env, events, id);
    HandledVerdict(env, Run(env, events), id, cancelled, call);
    if R.AllFinite(env) && call.fate == Commits { HandlerNoteCommits(env, events, id, cancelled, call); }
  }
}
