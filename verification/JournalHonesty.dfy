/** The coordinator's use of the journal (agents/coordinator.py: `handle_incident`, and the mutation
    branch of `call_agent`): which notes each execution makes, which exceptions end it, and what a
    restart reconciles. Any call can fail, be cancelled, or be cut off by a crash at any point. */
module JournalHonesty {
  import opened Basics
  import opened Evidence
  import opened Journal
  import A = Audit
  import S = JournalSafety

  const STARTED := String("mutation_started")
  const RETURNED := String("mutation_returned")

  /** Where a live coordinator is: between mutations, inside one, past its completion note, or on
      its way to an exception handler. A coordinator that is over has no program. */
  datatype Program = Running | Mutating | Completed | Raised(cancelled: bool)

  datatype System = System(world: S.World, programs: map<string, Program>)

  datatype Event =
    | Admit(incident: string, id: string, about: Fields, call: Call)
    | Blocked(id: string, call: Call)
    | Progress(id: string, phase: string, event: string, patch: Fields, call: Call)
    | StartMutation(id: string, patch: Fields, call: Call)
    | ReturnMutation(id: string, patch: Fields, call: Call)
    | ReportUncertain(id: string, patch: Fields, call: Call)
    | Complete(id: string, record: Fields, call: Call)
    | Interrupt(id: string, cancelled: bool)
    | Handle(id: string, call: Call)
    | Restart(rows: seq<Selected>, calls: seq<Call>)
    | OtherAudit(input: A.Input)
    | Crash

  const EMPTY := System(S.EMPTY, map[])

  // ---- the steps ----

  function WithNote(env: Env, w: S.World, id: string, n: Note, call: Call): (S.World, bool) {
    (S.Step(env, w, S.NoteCall(id, n, call)), NoteStep(env, w.files, id, n, call).1)
  }

  /** A note by a live coordinator: `next` when it commits, the exception handler when not. */
  function NoteOrRaise(env: Env, s: System, id: string, n: Note, call: Call, next: Program): System {
    var (w, ok) := WithNote(env, s.world, id, n, call);
    System(w, s.programs[id := if ok then next else Raised(false)])
  }

  /** A note between mutations. The one that records a post-action observation is made inside the
      mutation observer, whose caller swallows exceptions and goes on. */
  function ProgressStep(env: Env, s: System, id: string, n: Note, call: Call): System {
    if n.event == "post_action_observed" then s.(world := WithNote(env, s.world, id, n, call).0)
    else NoteOrRaise(env, s, id, n, call, Running)
  }

  /** A note after which the coordinator is over, whether or not it commits. */
  function NoteAndEnd(env: Env, s: System, id: string, n: Note, call: Call): System {
    System(WithNote(env, s.world, id, n, call).0, s.programs - {id})
  }

  function AdmitStep(env: Env, s: System, incident: string, id: string, about: Fields, call: Call): System {
    if id in s.programs then s
    else if id !in s.world.files.db then
      var ok := BeginStep(env, s.world.files, incident, id, about, call).1;
      var w := S.Step(env, s.world, S.Begin(incident, id, about, call));
      if ok then System(w, s.programs[id := Running]) else s.(world := w)
    else
      var x := s.world.files.db[id];
      if x.incident == incident && x.phase == "queued" && x.state == "running"
      then s.(programs := s.programs[id := Running]) else s
  }

  function HandlerNote(x: Execution, cancelled: bool): Note {
    if cancelled then Note("finished", "execution_cancelled", CLOSING["replay_allowed" := Bool(false)], ClosingState(x.phase, "cancelled"))
    else Note("finished", "execution_failed", CLOSING, ClosingState(x.phase, "failed"))
  }

  ghost function HandleStep(env: Env, s: System, id: string, cancelled: bool, call: Call): System {
    if !Readable(env.codec, s.world.files.db, id) || (!cancelled && s.world.files.db[id].state != "running")
    then s.(programs := s.programs - {id})
    else NoteAndEnd(env, s, id, HandlerNote(s.world.files.db[id], cancelled), call)
  }

  /** One row of `reconcile_restart`, with the histories kept of the two logs. */
  ghost function RowPass(env: Env, w: S.World, row: Selected, call: Call): (S.World, bool) {
    if Readable(env.codec, w.files.db, row.id) then WithNote(env, w, row.id, ReconcileNote(row.phase), call) else (w, false)
  }

  ghost function Restarter(env: Env, rows: seq<Selected>, calls: seq<Call>): (S.World, nat) -> (S.World, bool)
    requires |calls| == |rows|
  {
    (w: S.World, j: nat) => if j < |rows| && j < |calls| then RowPass(env, w, rows[j], calls[j]) else (w, false)
  }

  /** It runs when the application starts, before any coordinator does. */
  ghost function RestartStep(env: Env, s: System, rows: seq<Selected>, calls: seq<Call>): System {
    if s.programs != map[] || |calls| != |rows| || !Selects(s.world.files.db, rows) then s
    else s.(world := Loop(Restarter(env, rows, calls), s.world, |rows|).0)
  }

  predicate At(s: System, id: string, p: Program) {
    id in s.programs && s.programs[id] == p
  }

  ghost function Step(env: Env, s: System, e: Event): System {
    match e
    case Admit(incident, id, about, call) => AdmitStep(env, s, incident, id, about, call)
    case Blocked(id, call) =>
      if At(s, id, Running) then NoteAndEnd(env, s, id, Note("finished", "admission_blocked", map[], "failed"), call) else s
    case Progress(id, phase, event, patch, call) =>
      if At(s, id, Running) && phase != "applying" && String(event) != STARTED && String(event) != RETURNED
      then ProgressStep(env, s, id, Note(phase, event, patch, "running"), call) else s
    case StartMutation(id, patch, call) =>
      if At(s, id, Running)
      then NoteOrRaise(env, s, id, Note("applying", "mutation_started", patch, "running"), call, Mutating) else s
    case ReturnMutation(id, patch, call) =>
      if At(s, id, Mutating)
      then NoteOrRaise(env, s, id, Note("verification", "mutation_returned", patch, "running"), call, Running) else s
    case ReportUncertain(id, patch, call) =>
      if At(s, id, Mutating)
      then NoteOrRaise(env, s, id, Note("applying", "mutation_uncertain", patch, "running"), call, Raised(false)) else s
    case Complete(id, record, call) =>
      if At(s, id, Running)
      then NoteOrRaise(env, s, id, Note("finished", "incident_completed", record, "completed"), call, Completed) else s
    case Interrupt(id, cancelled) =>
      if id in s.programs && !s.programs[id].Raised? then s.(programs := s.programs[id := Raised(cancelled)]) else s
    case Handle(id, call) =>
      if id in s.programs && s.programs[id].Raised? then HandleStep(env, s, id, s.programs[id].cancelled, call) else s
    case Restart(rows, calls) => RestartStep(env, s, rows, calls)
    case OtherAudit(input) => s.(world := S.Step(env, s.world, S.OtherAudit(input)))
    case Crash => System(S.Step(env, s.world, S.Reopen), map[])
  }

  ghost function Run(env: Env, events: seq<Event>): System {
    if events == [] then EMPTY else Step(env, Run(env, events[..|events| - 1]), Last(events))
  }

  // ---- what the journal says happened ----

  function Names(c: Codec, x: Execution): (r: seq<Json>)
    ensures |r| == |x.events| && forall i :: 0 <= i < |x.events| ==> r[i] == Get(S.EventAt(c, x, i), "event", Null)
  {
    seq(|x.events|, i requires 0 <= i < |x.events| => Get(S.EventAt(c, x, i), "event", Null))
  }

  /** A mutation start is journalled with no journalled return after it. */
  predicate Open(names: seq<Json>) {
    exists i :: 0 <= i < |names| && names[i] == STARTED && RETURNED !in names[i + 1..]
  }

  lemma SuffixSnoc<T>(xs: seq<T>, x: T, i: nat)
    requires i <= |xs|
    ensures (xs + [x])[i..] == xs[i..] + [x]
  {
  }

  lemma OpenSnoc(names: seq<Json>, name: Json)
    ensures Open(names + [name]) <==> name == STARTED || (name != RETURNED && Open(names))
  {
    var more := names + [name];
    if Open(names) && name != RETURNED {
      var i :| 0 <= i < |names| && names[i] == STARTED && RETURNED !in names[i + 1..];
      SuffixSnoc(names, name, i + 1);
      assert more[i] == STARTED;
    }
    if name == STARTED { assert more[|names|] == STARTED && more[|names| + 1..] == []; }
    if Open(more) {
      var i :| 0 <= i < |more| && more[i] == STARTED && RETURNED !in more[i + 1..];
      if i < |names| {
        SuffixSnoc(names, name, i + 1);
        var after := names[i + 1..];
        assert forall x :: x in after ==> x in after + [name];
        assert name in after + [name] && names[i] == STARTED;
      }
    }
  }

  // ---- the invariant ----

  ghost predicate Honest(c: Codec, x: Execution) {
    if x.state == "running" then x.phase == "applying" <==> Open(Names(c, x))
    else x.state in TERMINAL && (x.state == "uncertain" <==> Open(Names(c, x)))
  }

  ghost predicate ProgramOk(x: Execution, p: Program) {
    match p
    case Running => x.state == "running" && x.phase != "applying"
    case Mutating => x.state == "running" && x.phase == "applying"
    case Completed => x.state == "completed"
    case Raised(_) => true
  }

  ghost predicate DatabaseOk(c: Codec, db: Database, programs: map<string, Program>) {
    && (forall id :: id in db ==> Honest(c, db[id]))
    && (forall id :: id in programs ==> id in db && ProgramOk(db[id], programs[id]))
  }

  ghost predicate Inv(env: Env, s: System) {
    DatabaseOk(env.codec, s.world.files.db, s.programs)
  }

  /** What a note on `id` does to the executions: nothing when it does not commit; otherwise the
      execution was not terminal, takes the note's phase and state, and gains its event. */
  ghost predicate NoteEffect(c: Codec, db: Database, db': Database, id: string, n: Note, ok: bool) {
    && (forall i :: i in db' <==> i in db)
    && (forall i :: i in db && (i != id || !ok) ==> db'[i] == db[i])
    && (ok ==> id in db && db[id].state !in TERMINAL && db'[id].phase == n.phase && db'[id].state == n.state
               && Names(c, db'[id]) == Names(c, db[id]) + [String(n.event)])
  }

  lemma CommittedNames(env: Env, log: A.Log, id: string, x: Execution, n: Note, record: Fields, call: Call)
    requires SoundEnv(env)
    ensures Names(env.codec, Committed(env, log, id, x, n, record, call).1) == Names(env.codec, x) + [String(n.event)]
  {
    var x' := Committed(env, log, id, x, n, record, call).1;
    S.CommittedText(env, log, id, x, n, record, call);
    var names := Names(env.codec, x');
    forall i | 0 <= i < |x.events| ensures names[i] == Names(env.codec, x)[i] {
      assert x'.events[i] == x.events[i];
    }
  }

  lemma NoteShows(env: Env, f: Files, id: string, x: Execution, n: Note, call: Call)
    requires SoundEnv(env) && NoteRow(env, f, id, x, n, call).1
    ensures var f' := NoteRow(env, f, id, x, n, call).0;
      && x.state !in TERMINAL && id in f'.db && f'.db == f.db[id := f'.db[id]]
      && f'.db[id].phase == n.phase && f'.db[id].state == n.state
      && Names(env.codec, f'.db[id]) == Names(env.codec, x) + [String(n.event)]
  {
    CommittedNames(env, f.log, id, x, n, A.RecordAt(env.codec, x.record) + env.safe(n.patch), call);
  }

  lemma WithNoteEffect(env: Env, w: S.World, id: string, n: Note, call: Call)
    requires SoundEnv(env)
    ensures var (w', ok) := WithNote(env, w, id, n, call);
      NoteEffect(env.codec, w.files.db, w'.files.db, id, n, ok)
  {
    assert WithNote(env, w, id, n, call).0.files == NoteStep(env, w.files, id, n, call).0;
    S.NoteStepFrame(env, w.files, id, n, call);
    if NoteStep(env, w.files, id, n, call).1 {
      NoteShows(env, w.files, id, w.files.db[id], n, call);
    }
  }

  /** The note of an execution that stays honest: a start or a report made inside a mutation, a
      return, a progress note outside one, or a closing note with the honest state. */
  ghost predicate HonestNote(x: Execution, n: Note) {
    if n.state == "running" then
      if String(n.event) == STARTED then n.phase == "applying"
      else if String(n.event) == RETURNED then n.phase != "applying"
      else n.phase == "applying" <==> x.phase == "applying"
    else
      && n.state in TERMINAL && String(n.event) != STARTED && String(n.event) != RETURNED
      && (n.state == "uncertain" <==> x.phase == "applying")
  }

  /** The program the coordinator goes on with fits the note. */
  ghost predicate Fits(n: Note, p: Program) {
    match p
    case Running => n.state == "running" && n.phase != "applying"
    case Mutating => n.state == "running" && n.phase == "applying"
    case Completed => n.state == "completed"
    case Raised(_) => true
  }

  lemma HonestNoteIsHonest(c: Codec, x: Execution, x': Execution, n: Note)
    requires Honest(c, x) && x.state !in TERMINAL && HonestNote(x, n)
    requires x'.phase == n.phase && x'.state == n.state && Names(c, x') == Names(c, x) + [String(n.event)]
    ensures Honest(c, x')
  {
    OpenSnoc(Names(c, x), String(n.event));
  }

  /** An honest note by, or on behalf of, the coordinator of `id` keeps the invariant. */
  lemma NoteKeeps(c: Codec, db: Database, db': Database, id: string, n: Note, ok: bool,
                  before: map<string, Program>, programs: map<string, Program>)
    requires NoteEffect(c, db, db', id, n, ok) && DatabaseOk(c, db, before) && id in db && HonestNote(db[id], n)
    requires forall i :: i in programs && i != id ==> i in before && programs[i] == before[i]
    requires id in programs ==>
      if ok then Fits(n, programs[id]) else programs[id].Raised? || (id in before && programs[id] == before[id])
    ensures DatabaseOk(c, db', programs)
  {
    forall i | i in db' ensures Honest(c, db'[i]) {
      assert Honest(c, db[i]);
      if i == id && ok { HonestNoteIsHonest(c, db[id], db'[id], n); }
    }
  }

  lemma BeginFrame(env: Env, w: S.World, incident: string, id: string, about: Fields, call: Call)
    requires SoundEnv(env) && id !in w.files.db
    ensures var db' := S.Step(env, w, S.Begin(incident, id, about, call)).files.db;
      if BeginStep(env, w.files, incident, id, about, call).1
      then id in db' && db' == w.files.db[id := db'[id]] && db'[id].state == "running" && db'[id].phase == "queued"
           && Honest(env.codec, db'[id])
      else db' == w.files.db
  {
    var record := InitialRecord(env, incident, id, about);
    var x := Execution(incident, "queued", "running", env.codec.compact(record), call.ts, []);
    if BeginStep(env, w.files, incident, id, about, call).1 {
      NoteShows(env, w.files, id, x, ADMITTED, call);
      OpenSnoc([], String("admitted"));
      assert Names(env.codec, x) == [];
    } else {
      S.NoteRowFails(env, w.files, id, x, ADMITTED, call);
    }
  }

  lemma AdmittedOk(c: Codec, db: Database, db': Database, id: string, programs: map<string, Program>)
    requires DatabaseOk(c, db, programs) && id !in db && id in db' && db' == db[id := db'[id]]
    requires db'[id].state == "running" && db'[id].phase == "queued" && Honest(c, db'[id])
    ensures DatabaseOk(c, db', programs[id := Running])
  {
  }

  lemma AdmitNewKeeps(env: Env, s: System, incident: string, id: string, about: Fields, call: Call)
    requires SoundEnv(env) && Inv(env, s) && id !in s.programs && id !in s.world.files.db
    ensures Inv(env, AdmitStep(env, s, incident, id, about, call))
  {
    var w := S.Step(env, s.world, S.Begin(incident, id, about, call));
    BeginFrame(env, s.world, incident, id, about, call);
    if BeginStep(env, s.world.files, incident, id, about, call).1 {
      AdmittedOk(env.codec, s.world.files.db, w.files.db, id, s.programs);
      assert AdmitStep(env, s, incident, id, about, call) == System(w, s.programs[id := Running]);
    } else {
      assert AdmitStep(env, s, incident, id, about, call) == s.(world := w);
    }
  }

  lemma AdmitKeeps(env: Env, s: System, incident: string, id: string, about: Fields, call: Call)
    requires SoundEnv(env) && Inv(env, s)
    ensures Inv(env, AdmitStep(env, s, incident, id, about, call))
  {
    if id in s.world.files.db {
      OpenWhenQueued(env, s, id);
    } else if id !in s.programs {
      AdmitNewKeeps(env, s, incident, id, about, call);
    }
  }

  lemma OpenWhenQueued(env: Env, s: System, id: string)
    requires Inv(env, s) && id in s.world.files.db
    ensures s.world.files.db[id].phase == "queued" && s.world.files.db[id].state == "running" ==>
      ProgramOk(s.world.files.db[id], Running)
  {
  }

  /** A note after which the coordinator is over, or made when there is none. */
  lemma LastNoteKeeps(env: Env, s: System, id: string, n: Note, call: Call)
    requires SoundEnv(env) && Inv(env, s) && id in s.world.files.db && HonestNote(s.world.files.db[id], n)
    ensures Inv(env, System(WithNote(env, s.world, id, n, call).0, s.programs - {id}))
  {
    var (w, ok) := WithNote(env, s.world, id, n, call);
    WithNoteEffect(env, s.world, id, n, call);
    NoteKeeps(env.codec, s.world.files.db, w.files.db, id, n, ok, s.programs, s.programs - {id});
  }

  lemma CoordinatorNoteKeeps(env: Env, s: System, id: string, n: Note, call: Call, next: Program)
    requires SoundEnv(env) && Inv(env, s) && id in s.programs && HonestNote(s.world.files.db[id], n) && Fits(n, next)
    ensures Inv(env, NoteOrRaise(env, s, id, n, call, next))
  {
    var (w, ok) := WithNote(env, s.world, id, n, call);
    WithNoteEffect(env, s.world, id, n, call);
    ProgramMovesOn(env.codec, s.world.files.db, w.files.db, id, n, ok, s.programs, next);
  }

  /** The coordinator goes on when its note commits, and raises when it does not. */
  lemma ProgramMovesOn(c: Codec, db: Database, db': Database, id: string, n: Note, ok: bool,
                       programs: map<string, Program>, next: Program)
    requires NoteEffect(c, db, db', id, n, ok) && DatabaseOk(c, db, programs) && id in db && HonestNote(db[id], n)
    requires id in programs && Fits(n, next)
    ensures DatabaseOk(c, db', programs[id := if ok then next else Raised(false)])
  {
    NoteKeeps(c, db, db', id, n, ok, programs, programs[id := if ok then next else Raised(false)]);
  }

  lemma HandleKeeps(env: Env, s: System, id: string, call: Call)
    requires SoundEnv(env) && Inv(env, s) && id in s.programs && s.programs[id].Raised?
    ensures Inv(env, HandleStep(env, s, id, s.programs[id].cancelled, call))
  {
    LastNoteKeeps(env, s, id, HandlerNote(s.world.files.db[id], s.programs[id].cancelled), call);
  }

  /** A row of the pass: nothing, or a note that changes at most its own execution and closes it. */
  ghost predicate RowStep(db: Database, db': Database, id: string, closed: bool) {
    && (forall i :: i in db' <==> i in db) && (forall i :: i in db && i != id ==> db'[i] == db[i])
    && id in db && (db'[id].state in TERMINAL <==> closed)
  }

  /** The row is as it was selected, so its closing note is honest. */
  lemma RowKeeps(env: Env, w: S.World, row: Selected, call: Call)
    requires SoundEnv(env) && DatabaseOk(env.codec, w.files.db, map[]) && row.id in w.files.db
    requires w.files.db[row.id].phase == row.phase && w.files.db[row.id].state == "running"
    ensures var (w', ok) := RowPass(env, w, row, call);
      DatabaseOk(env.codec, w'.files.db, map[]) && RowStep(w.files.db, w'.files.db, row.id, ok)
  {
    if Readable(env.codec, w.files.db, row.id) {
      var (w', ok) := WithNote(env, w, row.id, ReconcileNote(row.phase), call);
      WithNoteEffect(env, w, row.id, ReconcileNote(row.phase), call);
      NoteKeeps(env.codec, w.files.db, w'.files.db, row.id, ReconcileNote(row.phase), ok, map[], map[]);
    }
  }

  /** What a step does to a row whose execution is still as it was selected. */
  ghost predicate StepsRows(good: Database -> bool, db: Database, rows: seq<Selected>, step: (S.World, nat) -> (S.World, bool)) {
    forall v: S.World, j: nat {:trigger step(v, j)} :: j < |rows| && Fresh(good, db, v.files.db, rows[j].id) ==>
      good(step(v, j).0.files.db) && RowStep(v.files.db, step(v, j).0.files.db, rows[j].id, step(v, j).1)
  }

  ghost predicate Fresh(good: Database -> bool, db: Database, db': Database, id: string) {
    good(db') && id in db && id in db' && db'[id] == db[id]
  }

  ghost function HonestDatabase(c: Codec): Database -> bool {
    (db: Database) => DatabaseOk(c, db, map[])
  }

  lemma RestarterSteps(env: Env, db: Database, rows: seq<Selected>, calls: seq<Call>)
    requires SoundEnv(env) && |calls| == |rows| && SelectsSome(db, rows)
    ensures StepsRows(HonestDatabase(env.codec), db, rows, Restarter(env, rows, calls))
  {
    var good := HonestDatabase(env.codec);
    forall v: S.World, j: nat | j < |rows| && Fresh(good, db, v.files.db, rows[j].id)
      ensures var (v', ok) := Restarter(env, rows, calls)(v, j);
        good(v'.files.db) && RowStep(v.files.db, v'.files.db, rows[j].id, ok)
    {
      RowKeeps(env, v, rows[j], calls[j]);
    }
  }

  /** After `k` rows: honest, and every other execution as it was. */
  ghost predicate PassOk(good: Database -> bool, db: Database, db': Database, rows: seq<Selected>, k: nat)
    requires k <= |rows|
  {
    && good(db') && (forall id :: id in db' <==> id in db)
    && forall id :: id in db && (forall j :: 0 <= j < k ==> rows[j].id != id) ==> db'[id] == db[id]
  }

  lemma StillFresh(good: Database -> bool, db: Database, v: Database, rows: seq<Selected>, k: nat)
    requires SelectsSome(db, rows) && k < |rows| && PassOk(good, db, v, rows, k)
    ensures Fresh(good, db, v, rows[k].id)
  {
  }

  lemma StepOf(good: Database -> bool, db: Database, rows: seq<Selected>, step: (S.World, nat) -> (S.World, bool), v: S.World, k: nat)
    requires StepsRows(good, db, rows, step) && k < |rows| && Fresh(good, db, v.files.db, rows[k].id)
    ensures var (v', ok) := step(v, k);
      good(v'.files.db) && RowStep(v.files.db, v'.files.db, rows[k].id, ok)
  {
  }

  lemma PassOnce(good: Database -> bool, db: Database, rows: seq<Selected>, step: (S.World, nat) -> (S.World, bool), v: S.World, k: nat)
    requires SelectsSome(db, rows) && StepsRows(good, db, rows, step) && k < |rows| && PassOk(good, db, v.files.db, rows, k)
    ensures PassOk(good, db, step(v, k).0.files.db, rows, k + 1)
    ensures RowStep(v.files.db, step(v, k).0.files.db, rows[k].id, step(v, k).1)
  {
    StillFresh(good, db, v.files.db, rows, k);
    StepOf(good, db, rows, step, v, k);
    PassOkNext(good, db, v.files.db, step(v, k).0.files.db, rows, k, step(v, k).1);
  }

  lemma {:induction false} PassKeeps(good: Database -> bool, w: S.World, rows: seq<Selected>, step: (S.World, nat) -> (S.World, bool), k: nat)
    requires good(w.files.db) && SelectsSome(w.files.db, rows) && StepsRows(good, w.files.db, rows, step)
    requires k <= |rows|
    ensures PassOk(good, w.files.db, Loop(step, w, k).0.files.db, rows, k)
  {
    if k > 0 {
      PassKeeps(good, w, rows, step, k - 1);
      PassOnce(good, w.files.db, rows, step, Loop(step, w, k - 1).0, k - 1);
    }
  }

  lemma PassOkNext(good: Database -> bool, db: Database, v: Database, v': Database, rows: seq<Selected>, k: nat, closed: bool)
    requires k < |rows| && PassOk(good, db, v, rows, k) && good(v') && RowStep(v, v', rows[k].id, closed)
    ensures PassOk(good, db, v', rows, k + 1)
  {
  }

  lemma RestartKeeps(env: Env, s: System, rows: seq<Selected>, calls: seq<Call>)
    requires SoundEnv(env) && Inv(env, s)
    ensures Inv(env, RestartStep(env, s, rows, calls))
  {
    if s.programs == map[] && |calls| == |rows| && Selects(s.world.files.db, rows) {
      RestarterSteps(env, s.world.files.db, rows, calls);
      PassKeeps(HonestDatabase(env.codec), s.world, rows, Restarter(env, rows, calls), |rows|);
    }
  }

  lemma ProgressKeeps(env: Env, s: System, id: string, phase: string, event: string, patch: Fields, call: Call)
    requires SoundEnv(env) && Inv(env, s) && At(s, id, Running)
    requires phase != "applying" && String(event) != STARTED && String(event) != RETURNED
    ensures Inv(env, ProgressStep(env, s, id, Note(phase, event, patch, "running"), call))
  {
    var n := Note(phase, event, patch, "running");
    assert ProgramOk(s.world.files.db[id], Running);
    if event == "post_action_observed" {
      var (w, ok) := WithNote(env, s.world, id, n, call);
      WithNoteEffect(env, s.world, id, n, call);
      NoteKeeps(env.codec, s.world.files.db, w.files.db, id, n, ok, s.programs, s.programs);
    } else {
      CoordinatorNoteKeeps(env, s, id, n, call, Running);
    }
  }

  lemma StartKeeps(env: Env, s: System, id: string, patch: Fields, call: Call)
    requires SoundEnv(env) && Inv(env, s) && At(s, id, Running)
    ensures Inv(env, NoteOrRaise(env, s, id, Note("applying", "mutation_started", patch, "running"), call, Mutating))
  {
    CoordinatorNoteKeeps(env, s, id, Note("applying", "mutation_started", patch, "running"), call, Mutating);
  }

  lemma ReturnKeeps(env: Env, s: System, id: string, patch: Fields, call: Call)
    requires SoundEnv(env) && Inv(env, s) && At(s, id, Mutating)
    ensures Inv(env, NoteOrRaise(env, s, id, Note("verification", "mutation_returned", patch, "running"), call, Running))
  {
    CoordinatorNoteKeeps(env, s, id, Note("verification", "mutation_returned", patch, "running"), call, Running);
  }

  lemma ReportKeeps(env: Env, s: System, id: string, patch: Fields, call: Call)
    requires SoundEnv(env) && Inv(env, s) && At(s, id, Mutating)
    ensures Inv(env, NoteOrRaise(env, s, id, Note("applying", "mutation_uncertain", patch, "running"), call, Raised(false)))
  {
    assert ProgramOk(s.world.files.db[id], Mutating);
    CoordinatorNoteKeeps(env, s, id, Note("applying", "mutation_uncertain", patch, "running"), call, Raised(false));
  }

  lemma CompleteKeeps(env: Env, s: System, id: string, record: Fields, call: Call)
    requires SoundEnv(env) && Inv(env, s) && At(s, id, Running)
    ensures Inv(env, NoteOrRaise(env, s, id, Note("finished", "incident_completed", record, "completed"), call, Completed))
  {
    assert ProgramOk(s.world.files.db[id], Running);
    CoordinatorNoteKeeps(env, s, id, Note("finished", "incident_completed", record, "completed"), call, Completed);
  }

  lemma BlockedKeeps(env: Env, s: System, id: string, call: Call)
    requires SoundEnv(env) && Inv(env, s) && At(s, id, Running)
    ensures Inv(env, NoteAndEnd(env, s, id, Note("finished", "admission_blocked", map[], "failed"), call))
  {
    assert ProgramOk(s.world.files.db[id], Running);
    LastNoteKeeps(env, s, id, Note("finished", "admission_blocked", map[], "failed"), call);
  }

  lemma StepKeeps(env: Env, s: System, e: Event)
    requires SoundEnv(env) && Inv(env, s)
    ensures Inv(env, Step(env, s, e))
  {
    if Step(env, s, e) != s {
      match e {
        case Admit(incident, id, about, call) => AdmitKeeps(env, s, incident, id, about, call);
        case Blocked(id, call) => BlockedKeeps(env, s, id, call);
        case Progress(id, phase, event, patch, call) => ProgressKeeps(env, s, id, phase, event, patch, call);
        case StartMutation(id, patch, call) => StartKeeps(env, s, id, patch, call);
        case ReturnMutation(id, patch, call) => ReturnKeeps(env, s, id, patch, call);
        case ReportUncertain(id, patch, call) => ReportKeeps(env, s, id, patch, call);
        case Complete(id, record, call) => CompleteKeeps(env, s, id, record, call);
        case Handle(id, call) => HandleKeeps(env, s, id, call);
        case Restart(rows, calls) => RestartKeeps(env, s, rows, calls);
        case _ => OtherEventKeeps(env, s, e);
      }
    }
  }

  lemma OtherEventKeeps(env: Env, s: System, e: Event)
    requires Inv(env, s) && (e.Interrupt? || e.OtherAudit? || e.Crash?)
    ensures Inv(env, Step(env, s, e))
  {
  }

  lemma {:induction false} RunKeeps(env: Env, events: seq<Event>)
    requires SoundEnv(env)
    ensures Inv(env, Run(env, events))
  {
    if events != [] {
      RunKeeps(env, events[..|events| - 1]);
      StepKeeps(env, Run(env, events[..|events| - 1]), Last(events));
    }
  }

  /** The journal event, if any, behind a step. */
  ghost function JournalEvent(env: Env, s: System, e: Event): S.Event {
    match e
    case Admit(incident, id, about, call) => S.Begin(incident, id, about, call)
    case Blocked(id, call) => S.NoteCall(id, Note("finished", "admission_blocked", map[], "failed"), call)
    case Progress(id, phase, event, patch, call) => S.NoteCall(id, Note(phase, event, patch, "running"), call)
    case StartMutation(id, patch, call) => S.NoteCall(id, Note("applying", "mutation_started", patch, "running"), call)
    case ReturnMutation(id, patch, call) => S.NoteCall(id, Note("verification", "mutation_returned", patch, "running"), call)
    case ReportUncertain(id, patch, call) => S.NoteCall(id, Note("applying", "mutation_uncertain", patch, "running"), call)
    case Complete(id, record, call) => S.NoteCall(id, Note("finished", "incident_completed", record, "completed"), call)
    case Handle(id, call) =>
      if id in s.world.files.db && id in s.programs && s.programs[id].Raised?
      then S.NoteCall(id, HandlerNote(s.world.files.db[id], s.programs[id].cancelled), call) else S.Reopen
    case OtherAudit(input) => S.OtherAudit(input)
    case _ => S.Reopen
  }

  lemma StepIsJournalled(env: Env, s: System, e: Event)
    requires !e.Restart?
    ensures Step(env, s, e).world == s.world || Step(env, s, e).world == S.Step(env, s.world, JournalEvent(env, s, e))
  {
  }

  ghost predicate Journalled(env: Env, w: S.World) {
    exists es :: w == S.Run(env, es)
  }

  lemma OneMore(env: Env, w: S.World, e: S.Event)
    requires Journalled(env, w)
    ensures Journalled(env, S.Step(env, w, e))
  {
    var es :| w == S.Run(env, es);
    assert (es + [e])[..|es|] == es;
    assert S.Run(env, es + [e]) == S.Step(env, w, e);
  }

  lemma {:induction false} PassIsJournalled(env: Env, w: S.World, rows: seq<Selected>, calls: seq<Call>, k: nat)
    requires |calls| == |rows| && k <= |rows| && Journalled(env, w)
    ensures Journalled(env, Loop(Restarter(env, rows, calls), w, k).0)
  {
    if k > 0 {
      PassIsJournalled(env, w, rows, calls, k - 1);
      var v, row := Loop(Restarter(env, rows, calls), w, k - 1).0, rows[k - 1];
      OneMore(env, v, S.NoteCall(row.id, ReconcileNote(row.phase), calls[k - 1]));
    }
  }

  lemma StepKeepsJournalled(env: Env, s: System, e: Event)
    requires Journalled(env, s.world)
    ensures Journalled(env, Step(env, s, e).world)
  {
    if e.Restart? {
      if |e.calls| == |e.rows| { PassIsJournalled(env, s.world, e.rows, e.calls, |e.rows|); }
    } else {
      StepIsJournalled(env, s, e);
      OneMore(env, s.world, JournalEvent(env, s, e));
    }
  }

  /** So everything proved of the two logs holds of the coordinator's runs too. */
  lemma {:induction false} RunIsJournalled(env: Env, events: seq<Event>)
    ensures Journalled(env, Run(env, events).world)
  {
    if events == [] {
      assert EMPTY.world == S.Run(env, []);
    } else {
      RunIsJournalled(env, events[..|events| - 1]);
      StepKeepsJournalled(env, Run(env, events[..|events| - 1]), Last(events));
    }
  }

  // ---- main results ----

  /** Crash and exception honesty: a closed execution is `uncertain` exactly when its journal shows
      a mutation start with no return after it; while it runs, `applying` says the same. */
  lemma ClosedIsUncertainIffOpen(env: Env, events: seq<Event>, id: string)
    requires SoundEnv(env) && id in Run(env, events).world.files.db
    ensures var x := Run(env, events).world.files.db[id];
      && (x.state in TERMINAL ==> (x.state == "uncertain" <==> Open(Names(env.codec, x))))
      && (x.state !in TERMINAL ==> x.state == "running" && (x.phase == "applying" <==> Open(Names(env.codec, x))))
  {
    RunKeeps(env, events);
    assert Honest(env.codec, Run(env, events).world.files.db[id]);
  }

  /** The journal shows the start of every mutation while it is in progress, before any effect. */
  lemma MutatingIsJournalled(env: Env, events: seq<Event>, id: string)
    requires SoundEnv(env) && At(Run(env, events), id, Mutating)
    ensures var db := Run(env, events).world.files.db; id in db && Open(Names(env.codec, db[id]))
  {
    RunKeeps(env, events);
    assert Honest(env.codec, Run(env, events).world.files.db[id]);
  }

  lemma RunReadable(env: Env, events: seq<Event>, id: string)
    requires SoundEnv(env) && id in Run(env, events).world.files.db
    ensures var db := Run(env, events).world.files.db; Readable(env.codec, db, id) <==> |db[id].events| <= MAX_EVENTS
  {
    RunIsJournalled(env, events);
    var es :| Run(env, events).world == S.Run(env, es);
    S.ReadAccepts(env, es, id);
  }
}
