/** Which notes and admissions the execution journal takes, and what one that is taken leaves behind
    (agents/execution_journal.py:86-166), told from the events committed so far. */
module JournalAnswers {
  import opened Evidence
  import opened Journal
  import opened JournalSafety
  import A = Audit
  import R = RecordIdentity

  // ---- what a note leaves ----

  /** The event tells the note, the record after it, and the time. */
  ghost predicate Tells(event: Fields, id: string, n: Note, record: Fields, ts: string) {
    && Get(event, "execution_id", Null) == String(id) && Get(event, "event", Null) == String(n.event)
    && Get(event, "phase", Null) == String(n.phase) && Get(event, "state", Null) == String(n.state)
    && Get(event, "record", Null) == Object(record) && Get(event, "ts", Null) == Number(ts)
  }

  /** The events of the execution are followed by one that tells the note; its incident stays, and no
      other execution is touched. */
  ghost predicate Adds(c: Codec, db: Database, db': Database, id: string, x: Execution, n: Note, record: Fields, ts: string) {
    && id in db' && db' == db[id := db'[id]]
    && var x' := db'[id];
       && x'.incident == x.incident && |x'.events| == |x.events| + 1 && x'.events[..|x.events|] == x.events
       && Tells(EventAt(c, x', |x.events|), id, n, record, ts)
  }

  predicate KeepsIdentity(record: Fields, patch: Fields) {
    forall key :: key in {"incident_id", "execution_id", "source_sha"} && key in patch ==> patch[key] == Get(record, key, Null)
  }

  ghost predicate Printable(env: Env, id: string, x: Execution, n: Note, record: Fields, ts: string) {
    env.codec.finite(Transition(id, n, record, ts, PrevHash(x.events, |x.events|)))
  }

  lemma CommittedTells(env: Env, log: A.Log, id: string, x: Execution, n: Note, record: Fields, call: Call)
    requires SoundEnv(env)
    ensures var (log', x') := Committed(env, log, id, x, n, record, call);
      && x'.incident == x.incident && |x'.events| == |x.events| + 1 && x'.events[..|x.events|] == x.events
      && Tells(EventAt(env.codec, x', |x.events|), id, n, record, call.ts) && |log'.lines| == |log.lines| + 1
  {
    CommittedText(env, log, id, x, n, record, call);
    NewEventTells(env, log, id, x, n, record, call);
  }

  lemma NewEventTells(env: Env, log: A.Log, id: string, x: Execution, n: Note, record: Fields, call: Call)
    ensures Tells(NewEvent(env, log, id, x, n, record, call), id, n, record, call.ts)
  {
  }

  /** The audit line is written, whether or not the transaction then commits. */
  function LinesAdded(takes: bool, fate: Fate): nat {
    if takes && fate != NotAudited then 1 else 0
  }

  /** The note commits exactly if it is taken and nothing fails; it then leaves one event that tells it.
      Otherwise the executions are as they were, and the audit log has its line if only the commit failed. */
  ghost predicate Answered(c: Codec, f: Files, f': Files, ok: bool, takes: bool, id: string, x: Execution, n: Note,
                           record: Fields, call: Call) {
    && (ok <==> takes && call.fate == Commits)
    && (ok ==> Adds(c, f.db, f'.db, id, x, n, record, call.ts)) && (!ok ==> f'.db == f.db)
    && |f'.log.lines| == |f.log.lines| + LinesAdded(takes, call.fate)
  }

  ghost predicate RowTakes(env: Env, id: string, x: Execution, current: Fields, n: Note, ts: string) {
    x.state !in TERMINAL && KeepsIdentity(current, n.patch) && Printable(env, id, x, n, current + env.safe(n.patch), ts)
  }

  lemma SameKeepsIdentity(current: Fields, patch: Fields)
    ensures KeepsIdentity(current, patch) <==> !ChangesIdentity(current, patch)
  {
  }

  lemma RowEffect(env: Env, f: Files, id: string, x: Execution, current: Fields, n: Note, call: Call)
    requires env.codec.loads(x.record) == Record(current)
    ensures var (f', ok) := NoteRow(env, f, id, x, n, call);
      var (log, x') := Committed(env, f.log, id, x, n, current + env.safe(n.patch), call);
      var takes := RowTakes(env, id, x, current, n, call.ts);
      && (ok <==> takes && call.fate == Commits)
      && f' == (if !takes || call.fate == NotAudited then f
                else if call.fate == NotCommitted then f.(log := log) else Files(f.db[id := x'], log))
  {
    SameKeepsIdentity(current, n.patch);
  }

  lemma RowAnswered(env: Env, f: Files, id: string, x: Execution, current: Fields, n: Note, call: Call)
    requires SoundEnv(env) && env.codec.loads(x.record) == Record(current)
    ensures var (f', ok) := NoteRow(env, f, id, x, n, call);
      Answered(env.codec, f, f', ok, RowTakes(env, id, x, current, n, call.ts), id, x, n, current + env.safe(n.patch), call)
  {
    var record := current + env.safe(n.patch);
    RowEffect(env, f, id, x, current, n, call);
    CommittedTells(env, f.log, id, x, n, record, call);
    var (f', ok) := NoteRow(env, f, id, x, n, call);
    var (log, x') := Committed(env, f.log, id, x, n, record, call);
    EffectAnswers(env.codec, f, f', ok, RowTakes(env, id, x, current, n, call.ts), log, x', id, x, n, record, call);
  }

  lemma EffectAnswers(c: Codec, f: Files, f': Files, ok: bool, takes: bool, log: A.Log, x': Execution, id: string,
                      x: Execution, n: Note, record: Fields, call: Call)
    requires x'.incident == x.incident && |x'.events| == |x.events| + 1 && x'.events[..|x.events|] == x.events
    requires Tells(EventAt(c, x', |x.events|), id, n, record, call.ts) && |log.lines| == |f.log.lines| + 1
    requires ok <==> takes && call.fate == Commits
    requires f' == (if !takes || call.fate == NotAudited then f
                    else if call.fate == NotCommitted then f.(log := log) else Files(f.db[id := x'], log))
    ensures Answered(c, f, f', ok, takes, id, x, n, record, call)
  {
  }

  // ---- notes ----

  predicate KnownPhase(phase: string) {
    phase in {"queued", "triage", "diagnosis", "remediation", "approval", "applying", "verification", "comms", "finished"}
  }

  predicate KnownState(state: string) {
    state in {"running", "completed", "failed", "cancelled", "interrupted", "uncertain"}
  }

  /** The last event says that the execution runs. */
  ghost predicate Running(c: Codec, x: Execution) {
    x.events != [] && Get(EventAt(c, x, |x.events| - 1), "state", Null) == String("running")
  }

  /** The note is proper, and its execution was admitted, runs, and keeps its identity. */
  ghost predicate Takes(env: Env, w: World, id: string, n: Note, ts: string) {
    && KnownPhase(n.phase) && KnownState(n.state)
    && id in w.files.db && Running(env.codec, w.files.db[id]) && id in w.initial && id in w.patches
    && var current := Folded(env, w.initial[id], w.patches[id]);
       KeepsIdentity(current, n.patch) && Printable(env, id, w.files.db[id], n, current + env.safe(n.patch), ts)
  }

  lemma RunningIsState(env: Env, w: World, id: string)
    requires id in w.files.db && ExecutionInv(env, w, id)
    ensures Running(env.codec, w.files.db[id]) <==> w.files.db[id].state !in TERMINAL
  {
    var x := w.files.db[id];
    assert EventOk(env, w.files.log.lines, x, w.initial[id], w.patches[id], |x.events| - 1);
  }

  /** After any run a note is answered so: taken if it is proper and its execution was admitted, runs
      and keeps its identity, with the record of all notes so far. */
  lemma NoteAnswered(env: Env, run: seq<Event>, id: string, n: Note, call: Call)
    requires SoundEnv(env)
    ensures var w := Run(env, run); var (f, ok) := NoteStep(env, w.files, id, n, call);
      if id !in w.files.db then !ok && f == w.files
      else id in w.initial && id in w.patches
           && Answered(env.codec, w.files, f, ok, Takes(env, w, id, n, call.ts), id, w.files.db[id], n,
                       Folded(env, w.initial[id], w.patches[id]) + env.safe(n.patch), call)
  {
    RunInv(env, run);
    StepAnswered(env, Run(env, run), id, n, call);
  }

  lemma ProperIsValid(n: Note)
    ensures KnownPhase(n.phase) && KnownState(n.state) <==> ValidNote(n)
  {
  }

  lemma StepAnswered(env: Env, w: World, id: string, n: Note, call: Call)
    requires SoundEnv(env) && Inv(env, w)
    ensures var (f, ok) := NoteStep(env, w.files, id, n, call);
      if id !in w.files.db then !ok && f == w.files
      else id in w.initial && id in w.patches
           && Answered(env.codec, w.files, f, ok, Takes(env, w, id, n, call.ts), id, w.files.db[id], n,
                       Folded(env, w.initial[id], w.patches[id]) + env.safe(n.patch), call)
  {
    if id in w.files.db {
      assert ExecutionInv(env, w, id);
      RunningIsState(env, w, id);
      ProperIsValid(n);
      if ValidNote(n) {
        ValidStep(env, w.files, id, n, call);
        RowAnswered(env, w.files, id, w.files.db[id], Folded(env, w.initial[id], w.patches[id]), n, call);
      } else {
        InvalidStep(env, w.files, id, n, call);
      }
    }
  }

  lemma ValidStep(env: Env, f: Files, id: string, n: Note, call: Call)
    requires ValidNote(n) && id in f.db
    ensures NoteStep(env, f, id, n, call) == NoteRow(env, f, id, f.db[id], n, call)
  {
  }

  lemma InvalidStep(env: Env, f: Files, id: string, n: Note, call: Call)
    requires !ValidNote(n)
    ensures NoteStep(env, f, id, n, call) == (f, false)
  {
  }

  // ---- admission ----

  const ADMISSION: Note := Note("queued", "admitted", map[], "running")

  /** The record names the execution and its incident, unless the sanitiser drops the names. */
  predicate Names(record: Fields, incident: string, id: string) {
    Get(record, "incident_id", Null) in {Null, String(incident)} && Get(record, "execution_id", Null) in {Null, String(id)}
  }

  lemma InitialNames(env: Env, incident: string, id: string, about: Fields)
    requires SoundEnv(env)
    ensures Names(InitialRecord(env, incident, id, about), incident, id)
  {
    var f := about["incident_id" := String(incident)]["execution_id" := String(id)];
    assert "incident_id" in IDENTITY && "execution_id" in IDENTITY;
    assert "incident_id" in env.safe(f) ==> env.safe(f)["incident_id"] == f["incident_id"];
    assert "execution_id" in env.safe(f) ==> env.safe(f)["execution_id"] == f["execution_id"];
  }

  /** An admission commits exactly for new and valid ids, a record that can be printed, and if nothing
      fails on the way. It then leaves one event, "admitted" in phase "queued" and state "running", with
      a record that names the two ids. */
  lemma AdmissionAnswered(env: Env, f: Files, incident: string, id: string, about: Fields, call: Call)
    requires SoundEnv(env)
    ensures var record := InitialRecord(env, incident, id, about); var (f', ok) := BeginStep(env, f, incident, id, about, call);
      && (ok <==> R.ValidIncident(incident) && R.ValidExecution(id) && id !in f.db && env.codec.finite(record)
                  && env.codec.finite(Transition(id, ADMISSION, record + env.safe(map[]), call.ts, "")) && call.fate == Commits)
      && (ok ==> id in f'.db && f'.db == f.db[id := f'.db[id]] && f'.db[id].incident == incident && |f'.db[id].events| == 1
                 && Tells(EventAt(env.codec, f'.db[id], 0), id, ADMISSION, record + env.safe(map[]), call.ts)
                 && Names(record + env.safe(map[]), incident, id))
      && (!ok ==> f'.db == f.db)
  {
    var record := InitialRecord(env, incident, id, about);
    var x := Execution(incident, "queued", "running", env.codec.compact(record), call.ts, []);
    InitialNames(env, incident, id, about);
    assert env.codec.loads(x.record) == Record(record);
    RowAnswered(env, f, id, x, record, ADMISSION, call);
    forall k | k in IDENTITY ensures k !in env.safe(map[]) {}
  }
}
