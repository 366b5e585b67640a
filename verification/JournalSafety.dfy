/** What holds of the journal and the audit log after any interleaving of executions, other audit
    calls, restarts, and failures or crashes between the audit line and the journal commit. */
module JournalSafety {
  import opened Basics
  import opened Evidence
  import opened Journal
  import A = Audit
  import R = RecordIdentity

  /** `initial` and `patches` are histories: the sanitised first record and the committed patches. */
  datatype World = World(files: Files, initial: map<string, Fields>, patches: map<string, seq<Fields>>)

  datatype Event =
    | Begin(incident: string, id: string, about: Fields, call: Call)
    | NoteCall(id: string, note: Note, call: Call)
    | OtherAudit(input: A.Input)
    | Reopen

  const EMPTY := World(Files(map[], A.Log([], "")), map[], map[])

  function Step(env: Env, w: World, e: Event): World {
    match e
    case Begin(incident, id, about, call) =>
      var (f, ok) := BeginStep(env, w.files, incident, id, about, call);
      if ok then World(f, w.initial[id := InitialRecord(env, incident, id, about)], w.patches[id := [map[]]])
      else w.(files := f)
    case NoteCall(id, n, call) =>
      var (f, ok) := NoteStep(env, w.files, id, n, call);
      if ok && id in w.patches then w.(files := f, patches := w.patches[id := w.patches[id] + [n.patch]])
      else w.(files := f)
    case OtherAudit(input) => w.(files := w.files.(log := A.RecordStep(env.codec, w.files.log, input)))
    case Reopen => w.(files := w.files.(log := A.Step(env.codec, w.files.log, A.Restart)))
  }

  function Run(env: Env, events: seq<Event>): World {
    if events == [] then EMPTY else Step(env, Run(env, events[..|events| - 1]), Last(events))
  }

  /** The first record with every patch applied, each after sanitising. */
  function Folded(env: Env, initial: Fields, patches: seq<Fields>): Fields {
    if patches == [] then initial else Folded(env, initial, patches[..|patches| - 1]) + env.safe(Last(patches))
  }

  // ---- the invariant ----

  function EventAt(c: Codec, x: Execution, i: nat): Fields
    requires i < |x.events|
  {
    A.RecordAt(c, x.events[i].event)
  }

  /** Some audit line carries the hash the event names and stands for the event. */
  ghost predicate Witnessed(c: Codec, lines: seq<string>, incident: string, event: Fields) {
    exists j :: 0 <= j < |lines| && WitnessedBy(c, lines[j], incident, event)
  }

  ghost predicate WitnessedBy(c: Codec, line: string, incident: string, event: Fields) {
    && Get(A.RecordAt(c, line), A.ENTRY_HASH, Null) == Get(event, AUDIT_HASH, Null)
    && Vouches(c, A.RecordAt(c, line), incident, event)
  }

  ghost predicate EventOk(env: Env, lines: seq<string>, x: Execution, initial: Fields, patches: seq<Fields>, i: nat)
    requires i < |x.events| == |patches|
  {
    var t := EventAt(env.codec, x, i);
    && Witnessed(env.codec, lines, x.incident, t)
    && Get(t, "record", Null) == Object(Folded(env, initial, patches[..i + 1]))
    && Get(t, "state", Null) == String(if i + 1 == |x.events| then x.state else "running")
  }

  ghost predicate HistoryOk(env: Env, lines: seq<string>, x: Execution, initial: Fields, patches: seq<Fields>) {
    && |x.events| == |patches|
    && forall i :: 0 <= i < |patches| ==> EventOk(env, lines, x, initial, patches, i)
  }

  ghost predicate ExecutionOk(env: Env, lines: seq<string>, id: string, x: Execution, initial: Fields, patches: seq<Fields>) {
    && RowsOk(env.codec, id, x.events)
    && HistoryOk(env, lines, x, initial, patches)
    && env.codec.loads(x.record) == Record(Folded(env, initial, patches))
    && (x.state == "running" || x.state in TERMINAL)
    && (x.events != [] ==> SnapshotOk(env.codec, x))
  }

  ghost predicate ExecutionInv(env: Env, w: World, id: string)
    requires id in w.files.db
  {
    && id in w.initial && id in w.patches && R.ValidExecution(id)
    && w.files.db[id].events != []
    && ExecutionOk(env, w.files.log.lines, id, w.files.db[id], w.initial[id], w.patches[id])
  }

  ghost predicate Inv(env: Env, w: World) {
    && A.Current(env.codec, w.files.log)
    && forall id :: id in w.files.db ==> ExecutionInv(env, w, id)
  }

  // ---- one note ----

  lemma EntryReadsBack(c: Codec, body: Fields)
    requires Sound(c)
    ensures A.RecordAt(c, c.line(A.Entry(c, body))) == A.Entry(c, body)
  {
    assert c.loads(c.line(A.Entry(c, body))) == Record(A.Entry(c, body));
  }

  /** The entry for a transition stands for the event made from it. */
  lemma EntryVouches(c: Codec, input: A.Input, prev: string, hash: Json)
    requires input.role == "coordinator" && input.action == "execution_progress" && AUDIT_HASH !in input.args
    ensures Vouches(c, A.Entry(c, A.Body(c, input, prev)), input.incident, input.args[AUDIT_HASH := hash])
  {
    assert input.args[AUDIT_HASH := hash] - {AUDIT_HASH} == input.args;
  }

  /** The audit entry that `_note` writes for the transition it commits. */
  lemma NoteIsWitnessed(env: Env, log: A.Log, incident: string, transition: Fields, n: Note, call: Call, line: string)
    requires SoundEnv(env) && AUDIT_HASH !in transition
    requires line == env.codec.line(A.Entry(env.codec, AuditBody(env, log, incident, transition, n, call)))
    ensures WitnessedBy(env.codec, line, incident,
      transition[AUDIT_HASH := String(A.EntryHash(env.codec, AuditBody(env, log, incident, transition, n, call)))])
  {
    var body := AuditBody(env, log, incident, transition, n, call);
    EntryReadsBack(env.codec, body);
    EntryVouches(env.codec, AuditInput(incident, transition, n, call), log.last, String(A.EntryHash(env.codec, body)));
  }

  lemma {:induction false} MoreLines(env: Env, lines: seq<string>, more: seq<string>, x: Execution, initial: Fields, patches: seq<Fields>)
    requires HistoryOk(env, lines, x, initial, patches)
    ensures HistoryOk(env, lines + more, x, initial, patches)
  {
    forall i | 0 <= i < |patches| ensures EventOk(env, lines + more, x, initial, patches, i) {
      assert EventOk(env, lines, x, initial, patches, i);
      var j :| 0 <= j < |lines| && WitnessedBy(env.codec, lines[j], x.incident, EventAt(env.codec, x, i));
      assert (lines + more)[j] == lines[j];
    }
  }

  /** The event that a committed note appends, as its text reads back. */
  ghost function NewEvent(env: Env, log: A.Log, id: string, x: Execution, n: Note, record: Fields, call: Call): Fields {
    var transition := Transition(id, n, record, call.ts, PrevHash(x.events, |x.events|));
    transition[AUDIT_HASH := String(A.EntryHash(env.codec, AuditBody(env, log, x.incident, transition, n, call)))]
  }

  lemma CommittedText(env: Env, log: A.Log, id: string, x: Execution, n: Note, record: Fields, call: Call)
    requires SoundEnv(env)
    ensures var (log', x') := Committed(env, log, id, x, n, record, call);
      && |x'.events| == |x.events| + 1
      && env.codec.loads(x'.events[|x.events|].event) == Record(NewEvent(env, log, id, x, n, record, call))
  {
  }

  /** The appended event carries record and state, is chained, and the snapshot repeats it. */
  lemma CommittedEvent(env: Env, log: A.Log, id: string, x: Execution, n: Note, record: Fields, call: Call)
    requires SoundEnv(env)
    ensures var (log', x') := Committed(env, log, id, x, n, record, call);
      && |x'.events| == |x.events| + 1
      && Get(EventAt(env.codec, x', |x.events|), "record", Null) == Object(record)
      && Get(EventAt(env.codec, x', |x.events|), "state", Null) == String(n.state)
      && SnapshotOk(env.codec, x')
  {
    CommittedText(env, log, id, x, n, record, call);
    assert env.codec.loads(env.codec.compact(record)) == Record(record);
  }

  lemma CommittedRow(env: Env, log: A.Log, id: string, x: Execution, n: Note, record: Fields, call: Call)
    requires SoundEnv(env)
    ensures var (log', x') := Committed(env, log, id, x, n, record, call);
      |x'.events| == |x.events| + 1 && RowOkAt(env.codec, id, x'.events, |x.events|)
  {
    CommittedText(env, log, id, x, n, record, call);
  }

  lemma CommittedIsWitnessed(env: Env, log: A.Log, id: string, x: Execution, n: Note, record: Fields, call: Call)
    requires SoundEnv(env)
    ensures var (log', x') := Committed(env, log, id, x, n, record, call);
      && |x'.events| == |x.events| + 1
      && log'.lines == log.lines + [Last(log'.lines)]
      && WitnessedBy(env.codec, Last(log'.lines), x.incident, EventAt(env.codec, x', |x.events|))
  {
    var (log', x') := Committed(env, log, id, x, n, record, call);
    var transition := Transition(id, n, record, call.ts, PrevHash(x.events, |x.events|));
    CommittedText(env, log, id, x, n, record, call);
    NoteIsWitnessed(env, log, x.incident, transition, n, call, Last(log'.lines));
  }

  lemma RowsOkSnoc(c: Codec, id: string, rows: seq<Row>, row: Row)
    requires RowsOk(c, id, rows) && RowOkAt(c, id, rows + [row], |rows|)
    ensures RowsOk(c, id, rows + [row])
  {
    forall i | 0 <= i < |rows + [row]| ensures RowOkAt(c, id, rows + [row], i) {
      if i < |rows| {
        assert RowOkAt(c, id, rows, i);
        assert PrevHash(rows + [row], i) == PrevHash(rows, i);
      }
    }
  }

  lemma HistorySnoc(env: Env, lines: seq<string>, x: Execution, x': Execution, initial: Fields, patches: seq<Fields>, patch: Fields)
    requires HistoryOk(env, lines, x, initial, patches) && x.state == "running"
    requires |x'.events| == |x.events| + 1 && x'.events[..|x.events|] == x.events && x'.incident == x.incident
    requires EventOk(env, lines, x', initial, patches + [patch], |x.events|)
    ensures HistoryOk(env, lines, x', initial, patches + [patch])
  {
    forall i | 0 <= i < |patches| + 1 ensures EventOk(env, lines, x', initial, patches + [patch], i) {
      if i < |patches| {
        assert EventOk(env, lines, x, initial, patches, i);
        assert x'.events[i] == x.events[i];
        assert (patches + [patch])[..i + 1] == patches[..i + 1];
      }
    }
  }

  lemma CommittedEventOk(env: Env, log: A.Log, id: string, x: Execution, initial: Fields, patches: seq<Fields>, n: Note, call: Call)
    requires SoundEnv(env) && |x.events| == |patches|
    ensures var record := Folded(env, initial, patches) + env.safe(n.patch);
      var (log', x') := Committed(env, log, id, x, n, record, call);
      |x'.events| == |x.events| + 1 && EventOk(env, log'.lines, x', initial, patches + [n.patch], |x.events|)
  {
    var record := Folded(env, initial, patches) + env.safe(n.patch);
    var (log', x') := Committed(env, log, id, x, n, record, call);
    CommittedEvent(env, log, id, x, n, record, call);
    CommittedIsWitnessed(env, log, id, x, n, record, call);
    assert log'.lines[|log'.lines| - 1] == Last(log'.lines);
    FoldedSnoc(env, initial, patches, n.patch);
  }

  lemma FoldedSnoc(env: Env, initial: Fields, patches: seq<Fields>, patch: Fields)
    ensures Folded(env, initial, patches + [patch]) == Folded(env, initial, patches) + env.safe(patch)
    ensures (patches + [patch])[..|patches| + 1] == patches + [patch]
  {
    assert (patches + [patch])[..|patches|] == patches;
  }

  lemma CommittedHistory(env: Env, log: A.Log, id: string, x: Execution, initial: Fields, patches: seq<Fields>, n: Note, call: Call)
    requires SoundEnv(env) && HistoryOk(env, log.lines, x, initial, patches) && x.state == "running"
    ensures var record := Folded(env, initial, patches) + env.safe(n.patch);
      var (log', x') := Committed(env, log, id, x, n, record, call);
      HistoryOk(env, log'.lines, x', initial, patches + [n.patch])
  {
    var record := Folded(env, initial, patches) + env.safe(n.patch);
    var (log', x') := Committed(env, log, id, x, n, record, call);
    CommittedIsWitnessed(env, log, id, x, n, record, call);
    CommittedEventOk(env, log, id, x, initial, patches, n, call);
    MoreLines(env, log.lines, [Last(log'.lines)], x, initial, patches);
    HistorySnoc(env, log'.lines, x, x', initial, patches, n.patch);
  }

  /** A committed note leaves a sound execution whose record is the fold with one more patch. */
  lemma CommittedOk(env: Env, log: A.Log, id: string, x: Execution, initial: Fields, patches: seq<Fields>, n: Note, call: Call)
    requires SoundEnv(env) && (n.state == "running" || n.state in TERMINAL)
    requires ExecutionOk(env, log.lines, id, x, initial, patches) && x.state == "running"
    ensures var record := Folded(env, initial, patches) + env.safe(n.patch);
      var (log', x') := Committed(env, log, id, x, n, record, call);
      x'.events != [] && ExecutionOk(env, log'.lines, id, x', initial, patches + [n.patch])
  {
    var record := Folded(env, initial, patches) + env.safe(n.patch);
    var (log', x') := Committed(env, log, id, x, n, record, call);
    CommittedHistory(env, log, id, x, initial, patches, n, call);
    CommittedEvent(env, log, id, x, n, record, call);
    CommittedRow(env, log, id, x, n, record, call);
    assert x'.events == x.events + [Last(x'.events)];
    RowsOkSnoc(env.codec, id, x.events, Last(x'.events));
    assert (patches + [n.patch])[..|patches|] == patches;
    assert env.codec.loads(env.codec.compact(record)) == Record(record);
  }

  // ---- every step ----

  lemma LogGrows(env: Env, w: World, w': World, id: string, more: seq<string>)
    requires id in w.files.db && ExecutionInv(env, w, id) && id in w'.files.db
    requires w'.files.log.lines == w.files.log.lines + more
    requires w'.files.db[id] == w.files.db[id] && id in w'.initial && id in w'.patches
    requires w'.initial[id] == w.initial[id] && w'.patches[id] == w.patches[id]
    ensures ExecutionInv(env, w', id)
  {
    MoreLines(env, w.files.log.lines, more, w.files.db[id], w.initial[id], w.patches[id]);
  }

  lemma AllGrow(env: Env, w: World, w': World, except: set<string>, more: seq<string>)
    requires Inv(env, w) && w'.files.log.lines == w.files.log.lines + more
    requires forall id :: id in w'.files.db && id !in except ==>
      && id in w.files.db && w'.files.db[id] == w.files.db[id] && id in w'.initial && id in w'.patches
      && w'.initial[id] == w.initial[id] && w'.patches[id] == w.patches[id]
    ensures forall id :: id in w'.files.db && id !in except ==> ExecutionInv(env, w', id)
  {
    forall id | id in w'.files.db && id !in except ensures ExecutionInv(env, w', id) {
      LogGrows(env, w, w', id, more);
    }
  }

  /** The audit log after `_note`: longer by at most the line it writes, and still accepted. */
  lemma NoteRowLog(env: Env, f: Files, id: string, x: Execution, n: Note, call: Call)
    requires SoundEnv(env) && A.Current(env.codec, f.log)
    ensures var f' := NoteRow(env, f, id, x, n, call).0;
      A.Current(env.codec, f'.log) && exists more :: f'.log.lines == f.log.lines + more
  {
    var f' := NoteRow(env, f, id, x, n, call).0;
    if f'.log == f.log {
      assert f'.log.lines == f.log.lines + [];
    } else {
      var record := A.RecordAt(env.codec, x.record) + env.safe(n.patch);
      var transition := Transition(id, n, record, call.ts, PrevHash(x.events, |x.events|));
      var input := AuditInput(x.incident, transition, n, call);
      assert f'.log == A.RecordStep(env.codec, f.log, input);
      A.RecordIsAccepted(env.codec, f.log, input);
      assert f'.log.lines == f.log.lines + [Last(f'.log.lines)];
    }
  }

  /** What a note that commits makes of the files. */
  lemma NoteRowShape(env: Env, f: Files, id: string, x: Execution, n: Note, call: Call)
    requires NoteRow(env, f, id, x, n, call).1
    ensures var (log, x') := Committed(env, f.log, id, x, n, A.RecordAt(env.codec, x.record) + env.safe(n.patch), call);
      x.state !in TERMINAL && NoteRow(env, f, id, x, n, call).0 == Files(f.db[id := x'], log)
  {
  }

  /** The execution after `_note`, when it commits. */
  lemma NoteRowCommits(env: Env, f: Files, id: string, x: Execution, initial: Fields, patches: seq<Fields>, n: Note, call: Call)
    requires SoundEnv(env) && (n.state == "running" || n.state in TERMINAL)
    requires ExecutionOk(env, f.log.lines, id, x, initial, patches) && NoteRow(env, f, id, x, n, call).1
    ensures var f' := NoteRow(env, f, id, x, n, call).0;
      && id in f'.db && f'.db == f.db[id := f'.db[id]] && f'.db[id].events != []
      && ExecutionOk(env, f'.log.lines, id, f'.db[id], initial, patches + [n.patch])
  {
    NoteRowShape(env, f, id, x, n, call);
    CommittedOk(env, f.log, id, x, initial, patches, n, call);
  }

  lemma NoteRowFails(env: Env, f: Files, id: string, x: Execution, n: Note, call: Call)
    ensures var (f', ok) := NoteRow(env, f, id, x, n, call); !ok ==> f'.db == f.db
  {
  }

  /** One execution moves on and the log grows. */
  lemma CommitInv(env: Env, w: World, f: Files, id: string, initial: Fields, patches: seq<Fields>, more: seq<string>)
    requires Inv(env, w) && R.ValidExecution(id) && A.Current(env.codec, f.log)
    requires f.log.lines == w.files.log.lines + more
    requires id in f.db && f.db == w.files.db[id := f.db[id]] && f.db[id].events != []
    requires ExecutionOk(env, f.log.lines, id, f.db[id], initial, patches)
    ensures Inv(env, World(f, w.initial[id := initial], w.patches[id := patches]))
  {
    var w' := World(f, w.initial[id := initial], w.patches[id := patches]);
    AllGrow(env, w, w', {id}, more);
    forall i | i in w'.files.db ensures ExecutionInv(env, w', i) {}
  }

  /** Only the log grows. */
  lemma LogOnlyInv(env: Env, w: World, f: Files, more: seq<string>)
    requires Inv(env, w) && A.Current(env.codec, f.log)
    requires f.log.lines == w.files.log.lines + more && f.db == w.files.db
    ensures Inv(env, w.(files := f))
  {
    AllGrow(env, w, w.(files := f), {}, more);
  }

  /** `_note` on a row keeps the invariant; it commits one more patch or none. */
  lemma NoteRowInv(env: Env, w: World, id: string, x: Execution, initial: Fields, patches: seq<Fields>, n: Note, call: Call)
    requires SoundEnv(env) && Inv(env, w) && R.ValidExecution(id) && (n.state == "running" || n.state in TERMINAL)
    requires ExecutionOk(env, w.files.log.lines, id, x, initial, patches)
    ensures var (f, ok) := NoteRow(env, w.files, id, x, n, call);
      Inv(env, if ok then World(f, w.initial[id := initial], w.patches[id := patches + [n.patch]]) else w.(files := f))
  {
    var (f, ok) := NoteRow(env, w.files, id, x, n, call);
    NoteRowLog(env, w.files, id, x, n, call);
    var more :| f.log.lines == w.files.log.lines + more;
    if ok {
      NoteRowCommits(env, w.files, id, x, initial, patches, n, call);
      CommitInv(env, w, f, id, initial, patches + [n.patch], more);
    } else {
      NoteRowFails(env, w.files, id, x, n, call);
      LogOnlyInv(env, w, f, more);
    }
  }

  lemma FreshRowOk(env: Env, lines: seq<string>, incident: string, id: string, record: Fields, ts: string)
    requires SoundEnv(env)
    ensures ExecutionOk(env, lines, id, Execution(incident, "queued", "running", env.codec.compact(record), ts, []), record, [])
  {
  }

  lemma BeginInv(env: Env, w: World, incident: string, id: string, about: Fields, call: Call)
    requires SoundEnv(env) && Inv(env, w)
    ensures Inv(env, Step(env, w, Begin(incident, id, about, call)))
  {
    var record := InitialRecord(env, incident, id, about);
    if R.ValidIncident(incident) && R.ValidExecution(id) && id !in w.files.db && env.codec.finite(record) {
      FreshRowOk(env, w.files.log.lines, incident, id, record, call.ts);
      var x := Execution(incident, "queued", "running", env.codec.compact(record), call.ts, []);
      NoteRowInv(env, w, id, x, record, [], ADMITTED, call);
      assert [] + [ADMITTED.patch] == [map[]];
      var (f, ok) := NoteRow(env, w.files, id, x, ADMITTED, call);
      assert Step(env, w, Begin(incident, id, about, call))
             == if ok then World(f, w.initial[id := record], w.patches[id := [map[]]]) else w.(files := f);
    } else {
      assert Step(env, w, Begin(incident, id, about, call)) == w;
    }
  }

  predicate ValidNote(n: Note) {
    n.phase in PHASES && (n.state == "running" || n.state in TERMINAL)
  }

  lemma NoteCallStep(env: Env, w: World, id: string, n: Note, call: Call)
    requires ValidNote(n) && id in w.files.db && id in w.initial && id in w.patches
    ensures var (f, ok) := NoteRow(env, w.files, id, w.files.db[id], n, call);
      Step(env, w, NoteCall(id, n, call))
      == if ok then World(f, w.initial[id := w.initial[id]], w.patches[id := w.patches[id] + [n.patch]]) else w.(files := f)
  {
  }

  lemma NoteInv(env: Env, w: World, id: string, n: Note, call: Call)
    requires SoundEnv(env) && Inv(env, w)
    ensures Inv(env, Step(env, w, NoteCall(id, n, call)))
  {
    if ValidNote(n) && id in w.files.db {
      assert ExecutionInv(env, w, id);
      NoteRowInv(env, w, id, w.files.db[id], w.initial[id], w.patches[id], n, call);
      NoteCallStep(env, w, id, n, call);
    } else {
      assert Step(env, w, NoteCall(id, n, call)) == w;
    }
  }

  lemma StepInv(env: Env, w: World, e: Event)
    requires SoundEnv(env) && Inv(env, w)
    ensures Inv(env, Step(env, w, e))
  {
    match e {
      case Begin(incident, id, about, call) => BeginInv(env, w, incident, id, about, call);
      case NoteCall(id, n, call) => NoteInv(env, w, id, n, call);
      case OtherAudit(input) =>
        A.RecordIsAccepted(env.codec, w.files.log, input);
        AllGrow(env, w, Step(env, w, e), {}, [Last(Step(env, w, e).files.log.lines)]);
      case Reopen => A.RestartIsCurrent(env.codec, w.files.log);
    }
  }

  lemma {:induction false} RunInv(env: Env, events: seq<Event>)
    requires SoundEnv(env)
    ensures Inv(env, Run(env, events))
  {
    if events != [] {
      RunInv(env, events[..|events| - 1]);
      StepInv(env, Run(env, events[..|events| - 1]), Last(events));
    }
  }

  // ---- main results ----

  /** `read` accepts exactly the committed executions within the event limit. */
  lemma ReadAccepts(env: Env, events: seq<Event>, id: string)
    requires SoundEnv(env)
    ensures var db := Run(env, events).files.db;
      Readable(env.codec, db, id) <==> id in db && |db[id].events| <= MAX_EVENTS
  {
    RunInv(env, events);
    var w := Run(env, events);
    if id in w.files.db { assert ExecutionInv(env, w, id); }
  }

  /** Every event's record is the fold of the sanitised patches committed up to it, one event for
      each, and so is the record that `read` reports. */
  lemma ReadReportsTheFold(env: Env, events: seq<Event>, id: string)
    requires SoundEnv(env) && id in Run(env, events).files.db
    ensures var w := Run(env, events);
      && id in w.initial && id in w.patches && w.files.db[id].events != []
      && var r := ReadingOf(env.codec, w.files.db[id]);
         && r.record == Folded(env, w.initial[id], w.patches[id])
         && |r.events| == |w.patches[id]|
         && forall i :: 0 <= i < |w.patches[id]| ==>
              Get(r.events[i], "record", Null) == Object(Folded(env, w.initial[id], w.patches[id][..i + 1]))
  {
    RunInv(env, events);
    var w := Run(env, events);
    var x := w.files.db[id];
    assert ExecutionInv(env, w, id);
    var r := ReadingOf(env.codec, x);
    forall i | 0 <= i < |w.patches[id]|
      ensures Get(r.events[i], "record", Null) == Object(Folded(env, w.initial[id], w.patches[id][..i + 1]))
    {
      assert EventOk(env, w.files.log.lines, x, w.initial[id], w.patches[id], i);
      assert r.events[i] == EventAt(env.codec, x, i);
    }
  }

  /** The audit log verifies, and unless two of its own hash inputs collide every journalled event
      passes the audit check of its execution; the audit log may hold rows without an event. */
  lemma EveryEventIsAudited(env: Env, events: seq<Event>, id: string)
    requires SoundEnv(env)
    requires var w := Run(env, events);
      id in w.files.db && CollisionFree(env.codec, A.HashInputs(env.codec, w.files.log.lines))
    ensures var w := Run(env, events); var x := w.files.db[id];
      && A.Accepted(env.codec, w.files.log.lines)
      && Audited(env.codec, A.Records(env.codec, w.files.log.lines), x.incident, Transitions(env.codec, x.events))
  {
    RunInv(env, events);
    var w := Run(env, events);
    var x := w.files.db[id];
    var c := env.codec;
    assert ExecutionInv(env, w, id);
    var records := A.Records(c, w.files.log.lines);
    var transitions := Transitions(c, x.events);
    forall i | 0 <= i < |transitions| ensures EventAudited(c, records, x.incident, transitions[i]) {
      assert EventOk(env, w.files.log.lines, x, w.initial[id], w.patches[id], i);
      WitnessIsIndexed(c, w.files.log.lines, x.incident, EventAt(c, x, i));
    }
  }

  lemma WitnessIsIndexed(c: Codec, lines: seq<string>, incident: string, event: Fields)
    requires Sound(c) && A.Accepted(c, lines) && CollisionFree(c, A.HashInputs(c, lines))
    requires Witnessed(c, lines, incident, event)
    ensures EventAudited(c, A.Records(c, lines), incident, event)
  {
    var records := A.Records(c, lines);
    var hash := Get(event, AUDIT_HASH, Null);
    var j :| 0 <= j < |lines| && WitnessedBy(c, lines[j], incident, event);
    var k := LastIndexed(records, hash, j);
    assert records[j] == A.RecordAt(c, lines[j]) && records[k] == A.RecordAt(c, lines[k]);
    SameHashField(c, lines, j, k);
    SameBodyVouches(c, records[j], records[k], incident, event);
  }

  /** Both rows carry the hash field (an accepted row always has one), so their hashes are equal. */
  lemma SameHashField(c: Codec, lines: seq<string>, j: nat, k: nat)
    requires Sound(c) && j < |lines| && k < |lines|
    requires A.Accepted(c, lines) && CollisionFree(c, A.HashInputs(c, lines))
    requires Get(A.RecordAt(c, lines[j]), A.ENTRY_HASH, Null) == Get(A.RecordAt(c, lines[k]), A.ENTRY_HASH, Null)
    ensures A.Unsealed(A.RecordAt(c, lines[j])) == A.Unsealed(A.RecordAt(c, lines[k]))
  {
    assert A.FaultAt(c, lines, j) == None && A.FaultAt(c, lines, k) == None;
    assert A.HashInput(c, lines[j]) in A.HashInputs(c, lines) && A.HashInput(c, lines[k]) in A.HashInputs(c, lines);
    HasHashField(c, lines[j], A.HashBefore(c, lines, j));
    HasHashField(c, lines[k], A.HashBefore(c, lines, k));
    A.SameHashSameSeal(c, lines[j], lines[k], A.HashBefore(c, lines, j), A.HashBefore(c, lines, k));
  }

  lemma HasHashField(c: Codec, line: string, prev: string)
    requires Sound(c) && A.FaultOf(c, line, prev) == None
    ensures A.ENTRY_HASH in A.RecordAt(c, line)
  {
  }

  lemma SameBodyVouches(c: Codec, a: Fields, b: Fields, incident: string, event: Fields)
    requires A.Unsealed(a) == A.Unsealed(b) && Vouches(c, a, incident, event)
    ensures Vouches(c, b, incident, event)
  {
    forall key | key in {"incident_id", "agent_role", "action_type", "tool_args_hash"}
      ensures Get(a, key, Null) == Get(b, key, Null)
    {
      assert Get(a, key, Null) == Get(A.Unsealed(a), key, Null);
      assert Get(b, key, Null) == Get(A.Unsealed(b), key, Null);
    }
  }

  /** The last record with the hash, at or after one that has it. */
  ghost function LastIndexed(records: seq<Fields>, hash: Json, j: nat): (k: nat)
    requires j < |records| && Get(records[j], A.ENTRY_HASH, Null) == hash
    ensures j <= k && Indexed(records, hash, k)
    decreases |records| - j
  {
    if m: nat :| j < m < |records| && Get(records[m], A.ENTRY_HASH, Null) == hash
    then LastIndexed(records, hash, m) else j
  }

  /** Once terminal, an execution is never changed again by anything. */
  lemma {:induction false} TerminalIsFinal(env: Env, events: seq<Event>, more: seq<Event>, id: string)
    requires var db := Run(env, events).files.db; id in db && db[id].state in TERMINAL
    ensures var db := Run(env, events + more).files.db; id in db && db[id] == Run(env, events).files.db[id]
  {
    if more == [] {
      assert events + more == events;
    } else {
      TerminalIsFinal(env, events, more[..|more| - 1], id);
      var w := Run(env, events + more[..|more| - 1]);
      assert (events + more)[..|events + more| - 1] == events + more[..|more| - 1] && Last(events + more) == Last(more);
      TerminalStep(env, w, Last(more), id);
    }
  }

  /** A note touches one execution, which is not terminal, and only when it commits. */
  lemma NoteStepFrame(env: Env, f: Files, id: string, n: Note, call: Call)
    ensures var (f', ok) := NoteStep(env, f, id, n, call);
      if ok then id in f.db && f.db[id].state !in TERMINAL && id in f'.db && f'.db == f.db[id := f'.db[id]] else f'.db == f.db
  {
    if NoteStep(env, f, id, n, call).1 {
      NoteRowShape(env, f, id, f.db[id], n, call);
    } else if id in f.db {
      NoteRowFails(env, f, id, f.db[id], n, call);
    }
  }

  lemma BeginStepFrame(env: Env, f: Files, incident: string, id: string, about: Fields, call: Call)
    ensures var (f', ok) := BeginStep(env, f, incident, id, about, call);
      if ok then id !in f.db && id in f'.db && f'.db == f.db[id := f'.db[id]] else f'.db == f.db
  {
    var x := Execution(incident, "queued", "running", env.codec.compact(InitialRecord(env, incident, id, about)), call.ts, []);
    if BeginStep(env, f, incident, id, about, call).1 {
      NoteRowShape(env, f, id, x, ADMITTED, call);
    } else {
      NoteRowFails(env, f, id, x, ADMITTED, call);
    }
  }

  /** Only a committed note on `id` changes its execution, and only before it is terminal. */
  lemma StepFrame(env: Env, w: World, e: Event, id: string)
    requires id in w.files.db
    ensures id in Step(env, w, e).files.db
    ensures Step(env, w, e).files.db[id] == w.files.db[id] || (w.files.db[id].state !in TERMINAL && NoteCommitted(env, w, e, id))
  {
    match e {
      case Begin(incident, other, about, call) => BeginStepFrame(env, w.files, incident, other, about, call);
      case NoteCall(other, n, call) => NoteStepFrame(env, w.files, other, n, call);
      case _ =>
    }
  }

  predicate NoteCommitted(env: Env, w: World, e: Event, id: string) {
    e.NoteCall? && e.id == id && NoteStep(env, w.files, id, e.note, e.call).1
  }

  lemma TerminalStep(env: Env, w: World, e: Event, id: string)
    requires id in w.files.db && w.files.db[id].state in TERMINAL
    ensures id in Step(env, w, e).files.db && Step(env, w, e).files.db[id] == w.files.db[id]
  {
    StepFrame(env, w, e, id);
  }

  lemma IdentityIsFixed(env: Env, f: Files, id: string, x: Execution, n: Note, call: Call, key: string)
    requires SoundEnv(env) && key in IDENTITY && NoteRow(env, f, id, x, n, call).1
    ensures var f' := NoteRow(env, f, id, x, n, call).0;
      id in f'.db && Get(A.RecordAt(env.codec, f'.db[id].record), key, Null) == Get(A.RecordAt(env.codec, x.record), key, Null)
  {
    var record := A.RecordAt(env.codec, x.record);
    var safe := env.safe(n.patch);
    assert env.codec.loads(env.codec.compact(record + safe)) == Record(record + safe);
    assert key in safe ==> safe[key] == n.patch[key];
  }

  ghost predicate SameIdentity(env: Env, a: Database, b: Database, id: string, key: string)
    requires id in a
  {
    id in b && Get(A.RecordAt(env.codec, b[id].record), key, Null) == Get(A.RecordAt(env.codec, a[id].record), key, Null)
  }

  lemma NoteKeepsIdentity(env: Env, w: World, id: string, n: Note, call: Call, key: string)
    requires SoundEnv(env) && key in IDENTITY && id in w.files.db && NoteStep(env, w.files, id, n, call).1
    ensures SameIdentity(env, w.files.db, Step(env, w, NoteCall(id, n, call)).files.db, id, key)
  {
    IdentityIsFixed(env, w.files, id, w.files.db[id], n, call, key);
  }

  lemma IdentityStep(env: Env, w: World, e: Event, id: string, key: string)
    requires SoundEnv(env) && key in IDENTITY && id in w.files.db
    ensures SameIdentity(env, w.files.db, Step(env, w, e).files.db, id, key)
  {
    if NoteCommitted(env, w, e, id) {
      NoteKeepsIdentity(env, w, id, e.note, e.call, key);
    } else {
      StepFrame(env, w, e, id);
    }
  }

  /** No later event changes the incident, execution or source that a record names. */
  lemma {:induction false} IdentityNeverChanges(env: Env, events: seq<Event>, more: seq<Event>, id: string, key: string)
    requires SoundEnv(env) && key in IDENTITY && id in Run(env, events).files.db
    ensures SameIdentity(env, Run(env, events).files.db, Run(env, events + more).files.db, id, key)
  {
    if more == [] {
      assert events + more == events;
    } else {
      IdentityNeverChanges(env, events, more[..|more| - 1], id, key);
      assert (events + more)[..|events + more| - 1] == events + more[..|more| - 1] && Last(events + more) == Last(more);
      IdentityStep(env, Run(env, events + more[..|more| - 1]), Last(more), id, key);
    }
  }

  ghost function ChainInputs(rows: seq<Row>): iset<string> {
    iset i | 0 <= i < |rows| :: rows[i].prev + rows[i].event
  }

  lemma RowPrefix(c: Codec, id: string, rows: seq<Row>)
    requires RowsOk(c, id, rows) && rows != []
    ensures RowsOk(c, id, rows[..|rows| - 1])
  {
    var init := rows[..|rows| - 1];
    forall i | 0 <= i < |init| ensures RowOkAt(c, id, init, i) {
      assert RowOkAt(c, id, rows, i) && PrevHash(init, i) == PrevHash(rows, i);
    }
  }

  lemma LastHashIsDigest(c: Codec, id: string, rows: seq<Row>)
    requires Sound(c) && RowsOk(c, id, rows)
    ensures rows != [] ==> Digest(PrevHash(rows, |rows|))
  {
    if rows != [] { assert RowOkAt(c, id, rows, |rows| - 1); }
  }

  lemma LastRowsAgree(c: Codec, id: string, a: seq<Row>, id': string, b: seq<Row>)
    requires Sound(c) && RowsOk(c, id, a) && RowsOk(c, id', b) && a != [] && b != []
    requires PrevHash(a, |a|) == PrevHash(b, |b|)
    requires CollisionFree(c, ChainInputs(a) + ChainInputs(b))
    ensures Last(a) == Last(b) && PrevHash(a, |a| - 1) == PrevHash(b, |b| - 1)
  {
    var m, n := |a| - 1, |b| - 1;
    assert RowOkAt(c, id, a, m) && RowOkAt(c, id', b, n);
    RowPrefix(c, id, a);
    RowPrefix(c, id', b);
    LastHashIsDigest(c, id, a[..m]);
    LastHashIsDigest(c, id', b[..n]);
    assert PrevHash(a, m) == PrevHash(a[..m], m) && PrevHash(b, n) == PrevHash(b[..n], n);
    assert a[m].prev + a[m].event in ChainInputs(a) && b[n].prev + b[n].event in ChainInputs(b);
    assert c.loads(a[m].event).Record? && c.loads(b[n].event).Record?;
    LinkedTextDecodes(a[m].prev, a[m].event, b[n].prev, b[n].event);
  }

  /** Two event histories that the chain check accepts and that end in the same hash are the same
      rows, unless two of their own hash inputs collide. */
  lemma {:induction false} LastHashBindsEvents(c: Codec, id: string, a: seq<Row>, id': string, b: seq<Row>)
    requires Sound(c) && RowsOk(c, id, a) && RowsOk(c, id', b)
    requires PrevHash(a, |a|) == PrevHash(b, |b|)
    requires CollisionFree(c, ChainInputs(a) + ChainInputs(b))
    ensures a == b
  {
    LastHashIsDigest(c, id, a);
    LastHashIsDigest(c, id', b);
    if a != [] && b != [] {
      var m, n := |a| - 1, |b| - 1;
      LastRowsAgree(c, id, a, id', b);
      RowPrefix(c, id, a);
      RowPrefix(c, id', b);
      assert PrevHash(a, m) == PrevHash(a[..m], m) && PrevHash(b, n) == PrevHash(b[..n], n);
      FewerChainInputs(a);
      FewerChainInputs(b);
      LastHashBindsEvents(c, id, a[..m], id', b[..n]);
      assert a == a[..m] + [a[m]] && b == b[..n] + [b[n]];
    }
  }

  lemma FewerChainInputs(rows: seq<Row>)
    requires rows != []
    ensures ChainInputs(rows[..|rows| - 1]) <= ChainInputs(rows)
  {
  }
}
