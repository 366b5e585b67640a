/** Which executions a restart closes (agents/execution_journal.py, `reconcile_restart`): the loop
    over the running executions ends at the first one that it cannot read or note. */
module JournalRestart {
  import opened Basics
  import opened Evidence
  import opened Journal
  import opened JournalHonesty
  import A = Audit
  import R = RecordIdentity
  import S = JournalSafety

  /** What decides whether the pass gets past a row, on the state in which it starts. */
  ghost predicate Closes(env: Env, w: S.World, row: Selected, call: Call) {
    row.id in w.files.db && |w.files.db[row.id].events| <= MAX_EVENTS
    && NoteStep(env, w.files, row.id, ReconcileNote(row.phase), call).1
  }

  /** Whether a note commits depends on its own execution only, and so does what `read` accepts. */
  lemma RowDecides(env: Env, f: Files, g: Files, id: string, n: Note, call: Call)
    requires id in f.db && id in g.db && f.db[id] == g.db[id]
    ensures NoteStep(env, f, id, n, call).1 == NoteStep(env, g, id, n, call).1
    ensures Readable(env.codec, f.db, id) <==> Readable(env.codec, g.db, id)
  {
  }

  predicate AllUpTo(closes: seq<bool>, k: nat)
    requires k <= |closes|
  {
    forall j :: 0 <= j < k ==> closes[j]
  }

  ghost function Closable(env: Env, w: S.World, rows: seq<Selected>, calls: seq<Call>): (r: seq<bool>)
    requires |calls| == |rows|
    ensures |r| == |rows| && forall j :: 0 <= j < |rows| ==> r[j] == Closes(env, w, rows[j], calls[j])
  {
    seq(|rows|, j requires 0 <= j < |rows| => Closes(env, w, rows[j], calls[j]))
  }

  /** After `k` rows the pass goes on exactly if all of them closed, and has closed those before the
      first that did not. */
  ghost predicate PassCloses(db: Database, rows: seq<Selected>, closes: seq<bool>, k: nat, ok: bool)
    requires |closes| == |rows| && k <= |rows|
  {
    && (ok <==> AllUpTo(closes, k))
    && (forall j :: 0 <= j < k ==> RowCloses(db, rows, closes, j))
  }

  /** Row `j` is closed exactly when it and every row before it could be. */
  ghost predicate RowCloses(db: Database, rows: seq<Selected>, closes: seq<bool>, j: nat)
    requires |closes| == |rows| && j < |rows|
  {
    rows[j].id in db && (db[rows[j].id].state in TERMINAL <==> AllUpTo(closes, j + 1))
  }

  /** What decides that the step of a row succeeds. */
  ghost predicate StepsDecide(good: Database -> bool, db: Database, rows: seq<Selected>, closes: seq<bool>, step: (S.World, nat) -> (S.World, bool))
    requires |closes| == |rows|
  {
    forall v: S.World, j: nat {:trigger step(v, j)} :: j < |rows| && Fresh(good, db, v.files.db, rows[j].id) ==> (step(v, j).1 <==> closes[j])
  }

  /** Both facts about the pass after `k` rows. */
  ghost predicate PassFacts(good: Database -> bool, db: Database, rows: seq<Selected>, closes: seq<bool>, v: Database, k: nat, ok: bool)
    requires |closes| == |rows| && k <= |rows|
  {
    PassOk(good, db, v, rows, k) && PassCloses(v, rows, closes, k, ok)
  }

  lemma CloseOnce(good: Database -> bool, db: Database, rows: seq<Selected>, closes: seq<bool>,
                  step: (S.World, nat) -> (S.World, bool), v: S.World, k: nat, ok: bool)
    requires SelectsSome(db, rows) && StepsRows(good, db, rows, step) && k < |rows|
    requires |closes| == |rows| && StepsDecide(good, db, rows, closes, step) && PassFacts(good, db, rows, closes, v.files.db, k, ok)
    ensures PassFacts(good, db, rows, closes, if ok then step(v, k).0.files.db else v.files.db, k + 1, ok && step(v, k).1)
  {
    StillFresh(good, db, v.files.db, rows, k);
    PassOnce(good, db, rows, step, v, k);
    PassClosesNext(v.files.db, if ok then step(v, k).0.files.db else v.files.db, rows, closes, k, ok);
  }

  lemma LoopCloses(good: Database -> bool, w: S.World, rows: seq<Selected>, closes: seq<bool>, step: (S.World, nat) -> (S.World, bool))
    requires good(w.files.db) && SelectsSome(w.files.db, rows) && StepsRows(good, w.files.db, rows, step)
    requires |closes| == |rows| && StepsDecide(good, w.files.db, rows, closes, step)
    ensures PassFacts(good, w.files.db, rows, closes, Loop(step, w, |rows|).0.files.db, |rows|, Loop(step, w, |rows|).1)
  {
    var keeps := (v: S.World, j: nat, ok: bool) => j <= |rows| && |closes| == |rows| && PassFacts(good, w.files.db, rows, closes, v.files.db, j, ok);
    forall v: S.World, j: nat, ok: bool | j < |rows| && keeps(v, j, ok)
      ensures keeps(Turn(step, v, ok, j).0, j + 1, Turn(step, v, ok, j).1)
    {
      CloseOnce(good, w.files.db, rows, closes, step, v, j, ok);
    }
    LoopInvariant(step, w, keeps, |rows|, |rows|);
  }

  /** One more row, when the pass still goes on; nothing, when it stopped. */
  lemma PassClosesNext(v: Database, v': Database, rows: seq<Selected>, closes: seq<bool>, k: nat, ok: bool)
    requires |closes| == |rows| && k < |rows| && (forall i, j :: 0 <= i < j < |rows| ==> rows[i].id != rows[j].id)
    requires PassCloses(v, rows, closes, k, ok)
    requires if ok then RowStep(v, v', rows[k].id, closes[k]) else v' == v && rows[k].id in v && v[rows[k].id].state !in TERMINAL
    ensures PassCloses(v', rows, closes, k + 1, ok && closes[k])
  {
    forall j | 0 <= j < k + 1 ensures RowCloses(v', rows, closes, j) {
      if j < k { assert RowCloses(v, rows, closes, j); }
    }
  }

  lemma RestarterDecides(env: Env, w: S.World, rows: seq<Selected>, calls: seq<Call>)
    requires |calls| == |rows|
    requires forall id :: id in w.files.db ==> (Readable(env.codec, w.files.db, id) <==> |w.files.db[id].events| <= MAX_EVENTS)
    ensures StepsDecide(HonestDatabase(env.codec), w.files.db, rows, Closable(env, w, rows, calls), Restarter(env, rows, calls))
  {
    var good := HonestDatabase(env.codec);
    forall v: S.World, j: nat | j < |rows| && Fresh(good, w.files.db, v.files.db, rows[j].id)
      ensures Restarter(env, rows, calls)(v, j).1 <==> Closes(env, w, rows[j], calls[j])
    {
      RowDecides(env, w.files, v.files, rows[j].id, ReconcileNote(rows[j].phase), calls[j]);
    }
  }

  ghost predicate ReadableInLimit(env: Env, w: S.World) {
    forall id :: id in w.files.db ==> (Readable(env.codec, w.files.db, id) <==> |w.files.db[id].events| <= MAX_EVENTS)
  }

  lemma RestartPasses(env: Env, s: System, rows: seq<Selected>, calls: seq<Call>)
    requires SoundEnv(env) && Inv(env, s) && s.programs == map[] && ReadableInLimit(env, s.world)
    requires |calls| == |rows| && Selects(s.world.files.db, rows)
    ensures var (w, ok) := Loop(Restarter(env, rows, calls), s.world, |rows|);
      PassCloses(w.files.db, rows, Closable(env, s.world, rows, calls), |rows|, ok)
  {
    RestarterSteps(env, s.world.files.db, rows, calls);
    RestarterDecides(env, s.world, rows, calls);
    LoopCloses(HonestDatabase(env.codec), s.world, rows, Closable(env, s.world, rows, calls), Restarter(env, rows, calls));
  }

  /** The state of an execution after the restart. */
  ghost function StateAfter(env: Env, s: System, rows: seq<Selected>, calls: seq<Call>, id: string): string
    requires |calls| == |rows|
  {
    var db := RestartStep(env, s, rows, calls).world.files.db;
    if id in db then db[id].state else ""
  }

  ghost predicate Returns(env: Env, s: System, rows: seq<Selected>, calls: seq<Call>)
    requires |calls| == |rows|
  {
    Loop(Restarter(env, rows, calls), s.world, |rows|).1
  }

  lemma RestartFrom(env: Env, s: System, rows: seq<Selected>, calls: seq<Call>, k: nat)
    requires SoundEnv(env) && Inv(env, s) && s.programs == map[] && ReadableInLimit(env, s.world)
    requires |calls| == |rows| && Selects(s.world.files.db, rows) && k < |rows|
    ensures StateAfter(env, s, rows, calls, rows[k].id) in TERMINAL <==> AllUpTo(Closable(env, s.world, rows, calls), k + 1)
    ensures StateAfter(env, s, rows, calls, rows[k].id) in TERMINAL || StateAfter(env, s, rows, calls, rows[k].id) == "running"
    ensures Returns(env, s, rows, calls) <==> AllUpTo(Closable(env, s.world, rows, calls), |rows|)
  {
    RestartPasses(env, s, rows, calls);
    var w := Loop(Restarter(env, rows, calls), s.world, |rows|).0;
    assert RowCloses(w.files.db, rows, Closable(env, s.world, rows, calls), k);
    RestartKeeps(env, s, rows, calls);
    assert Honest(env.codec, w.files.db[rows[k].id]);
  }

  /** A restart closes row `k` of its query if and only if that row and every row before it has a
      history within the limit and its closing note gets through, and leaves it running otherwise;
      a closed row is uncertain if its journal shows a mutation start with no return after it, and
      interrupted if not. It returns without raising if and only if all rows are closed. */
  lemma RestartClosesIff(env: Env, events: seq<Event>, rows: seq<Selected>, calls: seq<Call>, k: nat)
    requires SoundEnv(env) && |calls| == |rows| && k < |rows|
    requires var s := Run(env, events); s.programs == map[] && Selects(s.world.files.db, rows)
    ensures var s := Run(env, events); var state := StateAfter(env, s, rows, calls, rows[k].id);
      && (state in TERMINAL <==> forall j :: 0 <= j <= k ==> Closes(env, s.world, rows[j], calls[j]))
      && (state !in TERMINAL ==> state == "running")
      && (state in TERMINAL ==>
            state == if Open(Names(env.codec, s.world.files.db[rows[k].id])) then "uncertain" else "interrupted")
      && (Returns(env, s, rows, calls) <==> forall j :: 0 <= j < |rows| ==> Closes(env, s.world, rows[j], calls[j]))
  {
    var s := Run(env, events);
    RunKeeps(env, events);
    RunIsReadable(env, events);
    RestartFrom(env, s, rows, calls, k);
    RestartVerdict(env, s, rows, calls, rows[k].id);
    UpToMeans(env, s.world, rows, calls, k + 1);
    UpToMeans(env, s.world, rows, calls, |rows|);
  }

  // ---- what a closed row says ----

  /** The execution after a restart closed it. */
  ghost predicate ClosedByRestart(env: Env, x: Execution, x': Execution) {
    && x'.phase == "finished" && x'.state == (if x.phase == "applying" then "uncertain" else "interrupted")
    && Names(env.codec, x') == Names(env.codec, x) + [String("restart_reconciled")]
    && A.RecordAt(env.codec, x'.record) == A.RecordAt(env.codec, x.record) + env.safe(
         map["resolved" := Bool(false), "replay_allowed" := Bool(false), "interrupted_phase" := String(x.phase)])
  }

  /** After `k` rows every execution is as it was, or was closed with its row. */
  ghost predicate OnlyClosed(env: Env, db: Database, v: Database, rows: seq<Selected>, k: nat)
    requires k <= |rows|
  {
    && v.Keys == db.Keys
    && forall id :: id in db ==> v[id] == db[id] || (ClosedByRestart(env, db[id], v[id]) && exists j :: 0 <= j < k && rows[j].id == id)
  }

  lemma NoteRecord(env: Env, f: Files, id: string, x: Execution, n: Note, call: Call)
    requires SoundEnv(env) && NoteRow(env, f, id, x, n, call).1
    ensures var f' := NoteRow(env, f, id, x, n, call).0;
      id in f'.db && A.RecordAt(env.codec, f'.db[id].record) == A.RecordAt(env.codec, x.record) + env.safe(n.patch)
  {
    S.NoteRowShape(env, f, id, x, n, call);
    var record := A.RecordAt(env.codec, x.record) + env.safe(n.patch);
    assert env.codec.loads(env.codec.compact(record)) == Record(record);
  }

  lemma ReconcilePatch(phase: string)
    ensures ReconcileNote(phase).patch
            == map["resolved" := Bool(false), "replay_allowed" := Bool(false), "interrupted_phase" := String(phase)]
  {
  }

  lemma RowVerdict(env: Env, w: S.World, row: Selected, call: Call)
    requires SoundEnv(env) && row.id in w.files.db && w.files.db[row.id].phase == row.phase
    ensures var v := RowPass(env, w, row, call).0.files.db;
      && v.Keys == w.files.db.Keys && (forall id :: id in v && id != row.id ==> v[id] == w.files.db[id])
      && (v[row.id] == w.files.db[row.id] || ClosedByRestart(env, w.files.db[row.id], v[row.id]))
  {
    var n := ReconcileNote(row.phase);
    ReconcilePatch(row.phase);
    WithNoteEffect(env, w, row.id, n, call);
    if NoteStep(env, w.files, row.id, n, call).1 { NoteRecord(env, w.files, row.id, w.files.db[row.id], n, call); }
  }

  lemma RowOnlyCloses(env: Env, db: Database, w: S.World, rows: seq<Selected>, k: nat, call: Call)
    requires SoundEnv(env) && SelectsSome(db, rows) && k < |rows| && OnlyClosed(env, db, w.files.db, rows, k)
    ensures OnlyClosed(env, db, RowPass(env, w, rows[k], call).0.files.db, rows, k + 1)
  {
    assert w.files.db[rows[k].id] == db[rows[k].id];
    RowVerdict(env, w, rows[k], call);
  }

  lemma OnlyClosedLater(env: Env, db: Database, v: Database, rows: seq<Selected>, k: nat)
    requires k < |rows| && OnlyClosed(env, db, v, rows, k)
    ensures OnlyClosed(env, db, v, rows, k + 1)
  {
  }

  lemma PassOnlyCloses(env: Env, w: S.World, rows: seq<Selected>, calls: seq<Call>)
    requires SoundEnv(env) && |calls| == |rows| && SelectsSome(w.files.db, rows)
    ensures OnlyClosed(env, w.files.db, Loop(Restarter(env, rows, calls), w, |rows|).0.files.db, rows, |rows|)
  {
    var step := Restarter(env, rows, calls);
    var keeps := (v: S.World, j: nat, ok: bool) => j <= |rows| && OnlyClosed(env, w.files.db, v.files.db, rows, j);
    forall v: S.World, j: nat, ok: bool | j < |rows| && keeps(v, j, ok)
      ensures keeps(Turn(step, v, ok, j).0, j + 1, Turn(step, v, ok, j).1)
    {
      TurnOnlyCloses(env, w.files.db, v, ok, rows, calls, j);
    }
    LoopInvariant(step, w, keeps, |rows|, |rows|);
  }

  lemma TurnOnlyCloses(env: Env, db: Database, v: S.World, ok: bool, rows: seq<Selected>, calls: seq<Call>, k: nat)
    requires SoundEnv(env) && |calls| == |rows| && SelectsSome(db, rows) && k < |rows| && OnlyClosed(env, db, v.files.db, rows, k)
    ensures OnlyClosed(env, db, Turn(Restarter(env, rows, calls), v, ok, k).0.files.db, rows, k + 1)
  {
    if ok { RowOnlyCloses(env, db, v, rows, k, calls[k]); } else { OnlyClosedLater(env, db, v.files.db, rows, k); }
  }

  /** A restart changes executions only by closing them: as uncertain inside a mutation, as interrupted
      outside one, with the note that says so. */
  lemma RestartVerdict(env: Env, s: System, rows: seq<Selected>, calls: seq<Call>, id: string)
    requires SoundEnv(env) && Inv(env, s) && s.programs == map[] && |calls| == |rows| && Selects(s.world.files.db, rows)
    requires id in s.world.files.db
    ensures var x := s.world.files.db[id]; var db := RestartStep(env, s, rows, calls).world.files.db;
      && id in db && (db[id] == x || ClosedByRestart(env, x, db[id]))
      && (db[id] != x ==> x.state == "running" && db[id].state == if Open(Names(env.codec, x)) then "uncertain" else "interrupted")
  {
    PassOnlyCloses(env, s.world, rows, calls);
    assert Honest(env.codec, s.world.files.db[id]);
  }

  lemma RunIsReadable(env: Env, events: seq<Event>)
    requires SoundEnv(env)
    ensures ReadableInLimit(env, Run(env, events).world)
  {
    forall id | id in Run(env, events).world.files.db
      ensures var db := Run(env, events).world.files.db; Readable(env.codec, db, id) <==> |db[id].events| <= MAX_EVENTS
    {
      RunReadable(env, events, id);
    }
  }

  lemma UpToMeans(env: Env, w: S.World, rows: seq<Selected>, calls: seq<Call>, k: nat)
    requires |calls| == |rows| && k <= |rows|
    ensures AllUpTo(Closable(env, w, rows, calls), k) <==> forall j :: 0 <= j < k ==> Closes(env, w, rows[j], calls[j])
  {
    var closes := Closable(env, w, rows, calls);
    if AllUpTo(closes, k) {
      forall j | 0 <= j < k ensures Closes(env, w, rows[j], calls[j]) { assert closes[j]; }
    }
  }

  /** The pass with histories is the journal's own pass. */
  lemma {:induction false} RestartIsReconcile(env: Env, w: S.World, rows: seq<Selected>, calls: seq<Call>, k: nat)
    requires |calls| == |rows| && k <= |rows|
    ensures var (w', ok) := Loop(Restarter(env, rows, calls), w, k);
      (w'.files, ok) == Loop(Reconciler(env, rows, calls), w.files, k)
  {
    if k > 0 {
      RestartIsReconcile(env, w, rows, calls, k - 1);
      SameRow(env, Loop(Restarter(env, rows, calls), w, k - 1).0, rows[k - 1], calls[k - 1]);
    }
  }

  lemma SameRow(env: Env, w: S.World, row: Selected, call: Call)
    ensures var (w', ok) := RowPass(env, w, row, call); (w'.files, ok) == ReconcileRow(env, w.files, row, call)
  {
  }

  // ---- one long history in the way of the rest ----

  ghost predicate AllFinite(env: Env) {
    forall f :: env.codec.finite(f)
  }

  /** A note commits when nothing fails on the way and it leaves the identity alone. */
  lemma NoteCommits(env: Env, f: Files, id: string, n: Note, call: Call)
    requires AllFinite(env) && call.fate == Commits && S.ValidNote(n)
    requires id in f.db && f.db[id].state == "running" && env.codec.loads(f.db[id].record).Record?
    requires forall k :: k in IDENTITY ==> k !in n.patch
    ensures NoteStep(env, f, id, n, call).1
  {
  }

  lemma NoteAdds(env: Env, f: Files, id: string, n: Note, call: Call)
    requires NoteStep(env, f, id, n, call).1
    ensures var g := NoteStep(env, f, id, n, call).0;
      && id in f.db && id in g.db && g.db == f.db[id := g.db[id]]
      && |g.db[id].events| == |f.db[id].events| + 1 && g.db[id].state == n.state && g.db[id].phase == n.phase
  {
  }

  lemma Parses(env: Env, events: seq<Event>, id: string)
    requires SoundEnv(env) && id in Run(env, events).world.files.db
    ensures env.codec.loads(Run(env, events).world.files.db[id].record).Record?
  {
    RunIsJournalled(env, events);
    var es :| Run(env, events).world == S.Run(env, es);
    S.RunInv(env, es);
    assert S.ExecutionInv(env, S.Run(env, es), id);
  }

  const STEP := Note("triage", "step", map[], "running")

  /** One execution is admitted and makes `n` notes. */
  function LongRun(incident: string, id: string, call: Call, n: nat): seq<Event> {
    if n == 0 then [Admit(incident, id, map[], call)]
    else LongRun(incident, id, call, n - 1) + [Progress(id, "triage", "step", map[], call)]
  }

  lemma AdmitAdds(env: Env, s: System, incident: string, id: string, call: Call)
    requires SoundEnv(env) && AllFinite(env) && call.fate == Commits && R.ValidIncident(incident) && R.ValidExecution(id)
    requires id !in s.programs && id !in s.world.files.db
    ensures var s' := Step(env, s, Admit(incident, id, map[], call)); var db := s'.world.files.db;
      && s'.programs == s.programs[id := Running] && id in db && db == s.world.files.db[id := db[id]]
      && |db[id].events| == 1 && db[id].state == "running" && db[id].phase == "queued"
  {
    var record := InitialRecord(env, incident, id, map[]);
    assert env.codec.loads(env.codec.compact(record)) == Record(record);
  }

  lemma RunSnoc(env: Env, events: seq<Event>, e: Event)
    ensures Run(env, events + [e]) == Step(env, Run(env, events), e)
  {
    assert (events + [e])[..|events|] == events;
  }

  /** One execution, running, with `n` events and its coordinator. */
  ghost predicate Alone(s: System, id: string, n: nat) {
    s.programs == map[id := Running] && s.world.files.db.Keys == {id}
    && s.world.files.db[id].state == "running" && |s.world.files.db[id].events| == n
  }

  lemma {:induction false} LongHistory(env: Env, incident: string, id: string, call: Call, n: nat)
    requires SoundEnv(env) && AllFinite(env) && call.fate == Commits && R.ValidIncident(incident) && R.ValidExecution(id)
    ensures Alone(Run(env, LongRun(incident, id, call, n)), id, n + 1)
  {
    if n == 0 {
      RunSnoc(env, [], Admit(incident, id, map[], call));
      AdmitAdds(env, EMPTY, incident, id, call);
    } else {
      LongHistory(env, incident, id, call, n - 1);
      OneMoreNote(env, LongRun(incident, id, call, n - 1), id, call, n);
    }
  }

  lemma OneMoreNote(env: Env, events: seq<Event>, id: string, call: Call, n: nat)
    requires SoundEnv(env) && AllFinite(env) && call.fate == Commits && Alone(Run(env, events), id, n)
    ensures Alone(Run(env, events + [Progress(id, "triage", "step", map[], call)]), id, n + 1)
  {
    Parses(env, events, id);
    RunSnoc(env, events, Progress(id, "triage", "step", map[], call));
    StepAdds(env, Run(env, events), id, call);
  }

  lemma ProgressIsNote(env: Env, s: System, id: string, call: Call)
    requires At(s, id, Running)
    ensures Step(env, s, Progress(id, "triage", "step", map[], call)) == NoteOrRaise(env, s, id, STEP, call, Running)
  {
  }

  lemma StepAdds(env: Env, s: System, id: string, call: Call)
    requires AllFinite(env) && call.fate == Commits && At(s, id, Running)
    requires id in s.world.files.db && s.world.files.db[id].state == "running"
    requires env.codec.loads(s.world.files.db[id].record).Record?
    ensures var s' := Step(env, s, Progress(id, "triage", "step", map[], call)); var db := s'.world.files.db;
      && s'.programs == s.programs[id := Running] && id in db && db == s.world.files.db[id := db[id]]
      && db[id].state == "running" && |db[id].events| == |s.world.files.db[id].events| + 1
  {
    ProgressIsNote(env, s, id, call);
    NoteCommits(env, s.world.files, id, STEP, call);
    NoteAdds(env, s.world.files, id, STEP, call);
    assert WithNote(env, s.world, id, STEP, call).0.files == NoteStep(env, s.world.files, id, STEP, call).0;
  }

  /** An execution that makes `n` notes, then one without any, then a crash. */
  function TwoAndCrash(incident: string, a: string, b: string, call: Call, n: nat): seq<Event> {
    LongRun(incident, a, call, n) + [Admit(incident, b, map[], call)] + [Crash]
  }

  /** Two running executions and no coordinator; the first has `n` more events than the second. */
  ghost predicate Left(s: System, a: string, b: string, n: nat) {
    && s.programs == map[] && s.world.files.db.Keys == {a, b}
    && s.world.files.db[a].state == "running" && s.world.files.db[b].state == "running"
    && |s.world.files.db[a].events| == n + 1 && |s.world.files.db[b].events| == 1
  }

  lemma AdmitAndCrash(env: Env, s: System, incident: string, a: string, b: string, call: Call, n: nat)
    requires SoundEnv(env) && AllFinite(env) && call.fate == Commits && R.ValidIncident(incident) && R.ValidExecution(b)
    requires Alone(s, a, n + 1) && a != b
    ensures Left(Step(env, Step(env, s, Admit(incident, b, map[], call)), Crash), a, b, n)
  {
    AdmitAdds(env, s, incident, b, call);
    CrashKeeps(env, Step(env, s, Admit(incident, b, map[], call)));
  }

  lemma CrashKeeps(env: Env, s: System)
    ensures Step(env, s, Crash).programs == map[] && Step(env, s, Crash).world.files.db == s.world.files.db
  {
  }

  lemma TwoAreLeft(env: Env, incident: string, a: string, b: string, call: Call, n: nat)
    requires SoundEnv(env) && AllFinite(env) && call.fate == Commits && R.ValidIncident(incident)
    requires R.ValidExecution(a) && R.ValidExecution(b) && a != b
    ensures Left(Run(env, TwoAndCrash(incident, a, b, call, n)), a, b, n)
  {
    var long := LongRun(incident, a, call, n);
    LongHistory(env, incident, a, call, n);
    RunSnoc(env, long, Admit(incident, b, map[], call));
    RunSnoc(env, long + [Admit(incident, b, map[], call)], Crash);
    AdmitAndCrash(env, Run(env, long), incident, a, b, call, n);
  }

  /** After such a run the restart finds both executions, and could close the second one. */
  ghost predicate SecondCanClose(env: Env, s: System, a: string, b: string, n: nat, call: Call) {
    && Left(s, a, b, n)
    && Selects(s.world.files.db, Rows(s, a, b)) && Selects(s.world.files.db, Rows(s, b, a))
    && Closes(env, s.world, Rows(s, a, b)[1], call)
  }

  lemma SecondAloneCloses(env: Env, incident: string, a: string, b: string, call: Call, n: nat)
    requires SoundEnv(env) && AllFinite(env) && call.fate == Commits && R.ValidIncident(incident)
    requires R.ValidExecution(a) && R.ValidExecution(b) && a != b
    ensures SecondCanClose(env, Run(env, TwoAndCrash(incident, a, b, call, n)), a, b, n, call)
  {
    var events := TwoAndCrash(incident, a, b, call, n);
    TwoAreLeft(env, incident, a, b, call, n);
    SelectsBoth(Run(env, events), a, b);
    SelectsBoth(Run(env, events), b, a);
    ShortCloses(env, events, b, call);
  }

  /** Two executions are admitted and the process crashes. If the closing note of the first one fails
      on the restart, before or after its audit line, the second one stays running although its own
      note would get through; met in the other order, it is closed. */
  lemma FailedNoteBlocksTheRest(env: Env, incident: string, a: string, b: string, call: Call, failing: Call)
    requires SoundEnv(env) && AllFinite(env) && call.fate == Commits && failing.fate != Commits
    requires R.ValidIncident(incident) && R.ValidExecution(a) && R.ValidExecution(b) && a != b
    ensures var s := Run(env, TwoAndCrash(incident, a, b, call, 0));
      && SecondCanClose(env, s, a, b, 0, call)
      && StateAfter(env, s, Rows(s, a, b), [failing, call], b) == "running"
      && StateAfter(env, s, Rows(s, b, a), [call, failing], b) in TERMINAL
  {
    var events := TwoAndCrash(incident, a, b, call, 0);
    SecondAloneCloses(env, incident, a, b, call, 0);
    SecondIsBlocked(env, events, a, b, 0, call, failing);
    FirstCloses(env, events, a, b, 0, call, failing);
  }

  /** The same with a history over the limit, which cannot be read, before the short one. */
  lemma LongHistoryBlocksTheRest(env: Env, incident: string, a: string, b: string, call: Call)
    requires SoundEnv(env) && AllFinite(env) && call.fate == Commits && R.ValidIncident(incident)
    requires R.ValidExecution(a) && R.ValidExecution(b) && a != b
    ensures var s := Run(env, TwoAndCrash(incident, a, b, call, MAX_EVENTS)); var calls := [call, call];
      && SecondCanClose(env, s, a, b, MAX_EVENTS, call)
      && StateAfter(env, s, Rows(s, a, b), calls, b) == "running" && StateAfter(env, s, Rows(s, b, a), calls, b) in TERMINAL
  {
    var events := TwoAndCrash(incident, a, b, call, MAX_EVENTS);
    SecondAloneCloses(env, incident, a, b, call, MAX_EVENTS);
    SecondIsBlocked(env, events, a, b, MAX_EVENTS, call, call);
    FirstCloses(env, events, a, b, MAX_EVENTS, call, call);
  }

  /** The first row cannot be read or its note fails. */
  lemma SecondIsBlocked(env: Env, events: seq<Event>, a: string, b: string, n: nat, call: Call, first: Call)
    requires SoundEnv(env) && SecondCanClose(env, Run(env, events), a, b, n, call) && (n >= MAX_EVENTS || first.fate != Commits)
    ensures var s := Run(env, events); StateAfter(env, s, Rows(s, a, b), [first, call], b) == "running"
  {
    var s := Run(env, events);
    RestartClosesIff(env, events, Rows(s, a, b), [first, call], 1);
    assert !Closes(env, s.world, Rows(s, a, b)[0], [first, call][0]) by {
      if first.fate != Commits { FailingNote(env, s.world.files, a, ReconcileNote(Rows(s, a, b)[0].phase), first); }
    }
  }

  lemma FirstCloses(env: Env, events: seq<Event>, a: string, b: string, n: nat, call: Call, second: Call)
    requires SoundEnv(env) && SecondCanClose(env, Run(env, events), a, b, n, call)
    ensures var s := Run(env, events); StateAfter(env, s, Rows(s, b, a), [call, second], b) in TERMINAL
  {
    var s := Run(env, events);
    RestartClosesIff(env, events, Rows(s, b, a), [call, second], 0);
    assert Closes(env, s.world, Rows(s, b, a)[0], [call, second][0]);
  }

  lemma FailingNote(env: Env, f: Files, id: string, n: Note, call: Call)
    requires call.fate != Commits
    ensures !NoteStep(env, f, id, n, call).1
  {
  }

  lemma ShortCloses(env: Env, events: seq<Event>, b: string, call: Call)
    requires SoundEnv(env) && AllFinite(env) && call.fate == Commits
    requires var db := Run(env, events).world.files.db; b in db && db[b].state == "running" && |db[b].events| == 1
    ensures var w := Run(env, events).world; Closes(env, w, Selected(b, w.files.db[b].phase), call)
  {
    var w := Run(env, events).world;
    Parses(env, events, b);
    NoteCommits(env, w.files, b, ReconcileNote(w.files.db[b].phase), call);
  }

  /** The rows for two executions, in this order. */
  ghost function Rows(s: System, first: string, second: string): (r: seq<Selected>)
    requires first in s.world.files.db && second in s.world.files.db
    ensures |r| == 2
  {
    [Selected(first, s.world.files.db[first].phase), Selected(second, s.world.files.db[second].phase)]
  }

  lemma SelectsBoth(s: System, a: string, b: string)
    requires s.world.files.db.Keys == {a, b} && a != b
    requires s.world.files.db[a].state == "running" && s.world.files.db[b].state == "running"
    ensures Selects(s.world.files.db, Rows(s, a, b))
  {
    assert Rows(s, a, b)[0].id == a && Rows(s, a, b)[1].id == b;
  }
}
