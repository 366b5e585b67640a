/** The per-execution event log of agents/execution_journal.py beside the audit log it leans on.
    The two tables are kept as one map: an execution with its events in sequence order. A database
    transaction commits or leaves no trace; the audit line written inside it stays either way. */
module Journal {
  import opened Basics
  import opened Evidence
  import A = Audit
  import R = RecordIdentity

  const TERMINAL: set<string> := {"completed", "failed", "cancelled", "interrupted", "uncertain"}
  const PHASES: set<string> := {
    "queued", "triage", "diagnosis", "remediation", "approval", "applying", "verification", "comms", "finished"
  }
  const IDENTITY: set<string> := {"incident_id", "execution_id", "source_sha"}
  const MAX_EVENTS: nat := 10_000
  const AUDIT_HASH := "audit_entry_hash"

  datatype Row = Row(event: string, prev: string, hash: string)

  datatype Execution = Execution(
    incident: string, phase: string, state: string, record: string, updatedAt: string, events: seq<Row>)

  type Database = map<string, Execution>

  /** What a caller of `note` supplies. */
  datatype Note = Note(phase: string, event: string, patch: Fields, state: string)

  /** What the environment supplies: the clock for the journal and for the audit, the redacted audit
      summary, and how far the call gets. `NotAudited` is any failure before the audit line is
      written, `NotCommitted` any failure or crash between that line and the commit. */
  datatype Fate = Commits | NotAudited | NotCommitted
  datatype Call = Call(ts: string, auditTs: string, summary: string, fate: Fate)

  /** `safe` is the sanitiser of evidence. */
  datatype Env = Env(codec: Codec, safe: Fields -> Fields)

  ghost predicate SoundEnv(env: Env) {
    && Sound(env.codec)
    && forall f, k :: k in IDENTITY && k in env.safe(f) ==> k in f && env.safe(f)[k] == f[k]
  }

  datatype Files = Files(db: Database, log: A.Log)

  // ---- writing ----

  function PrevHash(rows: seq<Row>, i: nat): string
    requires i <= |rows|
  {
    if i == 0 then "" else rows[i - 1].hash
  }

  function Transition(id: string, n: Note, record: Fields, ts: string, prev: string): Fields {
    map[
      "execution_id" := String(id),
      "event" := String(n.event),
      "phase" := String(n.phase),
      "state" := String(n.state),
      "record" := Object(record),
      "ts" := Number(ts),
      "prev_hash" := String(prev)
    ]
  }

  function AuditInput(incident: string, transition: Fields, n: Note, call: Call): A.Input {
    A.Input(call.auditTs, incident, "coordinator", "execution_progress", "", transition, call.summary, "", n.state)
  }

  function AuditBody(env: Env, log: A.Log, incident: string, transition: Fields, n: Note, call: Call): Fields {
    A.Body(env.codec, AuditInput(incident, transition, n, call), log.last)
  }

  function Payload(env: Env, transition: Fields, auditHash: string): string {
    env.codec.compact(transition[AUDIT_HASH := String(auditHash)])
  }

  /** The patch names another identity than the record's. */
  predicate ChangesIdentity(record: Fields, patch: Fields) {
    exists k :: k in IDENTITY && k in patch && patch[k] != Get(record, k, Null)
  }

  /** The execution after `n` is committed with the given audit hash. */
  function Advanced(env: Env, x: Execution, id: string, n: Note, record: Fields, ts: string, auditHash: string): Execution {
    var prev := PrevHash(x.events, |x.events|);
    var payload := Payload(env, Transition(id, n, record, ts, prev), auditHash);
    Execution(x.incident, n.phase, n.state, env.codec.compact(record), ts,
              x.events + [Row(payload, prev, env.codec.sha(prev + payload))])
  }

  /** The audit log and the execution after a note with the updated record goes through. */
  function Committed(env: Env, log: A.Log, id: string, x: Execution, n: Note, record: Fields, call: Call): (A.Log, Execution) {
    var transition := Transition(id, n, record, call.ts, PrevHash(x.events, |x.events|));
    (A.RecordStep(env.codec, log, AuditInput(x.incident, transition, n, call)),
     Advanced(env, x, id, n, record, call.ts,
              A.EntryHash(env.codec, AuditBody(env, log, x.incident, transition, n, call))))
  }

  /** `_note` on a row read in the same transaction: the new files and whether it committed. */
  function NoteRow(env: Env, f: Files, id: string, x: Execution, n: Note, call: Call): (Files, bool) {
    var parsed := env.codec.loads(x.record);
    if x.state in TERMINAL || !parsed.Record? || ChangesIdentity(parsed.fields, n.patch) then (f, false)
    else
      var record := parsed.fields + env.safe(n.patch);
      var transition := Transition(id, n, record, call.ts, PrevHash(x.events, |x.events|));
      if !env.codec.finite(transition) || call.fate == NotAudited then (f, false)
      else
        var (log, x') := Committed(env, f.log, id, x, n, record, call);
        if call.fate == NotCommitted then (f.(log := log), false) else (Files(f.db[id := x'], log), true)
  }

  function NoteStep(env: Env, f: Files, id: string, n: Note, call: Call): (Files, bool) {
    if n.phase !in PHASES || (n.state != "running" && n.state !in TERMINAL) || id !in f.db then (f, false)
    else NoteRow(env, f, id, f.db[id], n, call)
  }

  function InitialRecord(env: Env, incident: string, id: string, about: Fields): Fields {
    env.safe(about["incident_id" := String(incident)]["execution_id" := String(id)])
  }

  const ADMITTED := Note("queued", "admitted", map[], "running")

  function BeginStep(env: Env, f: Files, incident: string, id: string, about: Fields, call: Call): (Files, bool) {
    var record := InitialRecord(env, incident, id, about);
    if !R.ValidIncident(incident) || !R.ValidExecution(id) || id in f.db || !env.codec.finite(record) then (f, false)
    else NoteRow(env, f, id, Execution(incident, "queued", "running", env.codec.compact(record), call.ts, []), ADMITTED, call)
  }

  // ---- reading ----

  predicate RowOk(c: Codec, id: string, row: Row, prev: string) {
    && row.prev == prev && row.hash == c.sha(prev + row.event)
    && match c.loads(row.event)
       case Record(t) =>
         Get(t, "execution_id", Null) == String(id) && ("prev_hash" in t ==> t["prev_hash"] == String(prev))
       case _ => false
  }

  predicate RowOkAt(c: Codec, id: string, rows: seq<Row>, i: nat)
    requires i < |rows|
  {
    RowOk(c, id, rows[i], PrevHash(rows, i))
  }

  ghost predicate RowsOk(c: Codec, id: string, rows: seq<Row>) {
    forall i :: 0 <= i < |rows| ==> RowOkAt(c, id, rows, i)
  }

  /** The snapshot columns repeat the last event. */
  predicate SnapshotOk(c: Codec, x: Execution)
    requires x.events != []
  {
    match (c.loads(Last(x.events).event), c.loads(x.record))
    case (Record(t), Record(record)) =>
      && "record" in t && t["record"] == Object(record)
      && "phase" in t && t["phase"] == String(x.phase)
      && "state" in t && t["state"] == String(x.state)
      && ("prev_hash" in t ==> "ts" in t && t["ts"] == Number(x.updatedAt))
    case _ => false
  }

  ghost predicate Readable(c: Codec, db: Database, id: string) {
    && R.ValidExecution(id) && id in db && 0 < |db[id].events| <= MAX_EVENTS
    && RowsOk(c, id, db[id].events) && SnapshotOk(c, db[id])
  }

  datatype Reading = Reading(
    incident: string, phase: string, state: string, updatedAt: string, record: Fields, events: seq<Fields>,
    lastHash: string)

  function Transitions(c: Codec, rows: seq<Row>): (r: seq<Fields>)
    ensures |r| == |rows| && forall i :: 0 <= i < |rows| ==> r[i] == A.RecordAt(c, rows[i].event)
  {
    seq(|rows|, i requires 0 <= i < |rows| => A.RecordAt(c, rows[i].event))
  }

  function ReadingOf(c: Codec, x: Execution): Reading
    requires x.events != []
  {
    Reading(x.incident, x.phase, x.state, x.updatedAt, A.RecordAt(c, x.record), Transitions(c, x.events),
            Last(x.events).hash)
  }

  // ---- reconciling after a restart ----

  const CLOSING: Fields := map["resolved" := Bool(false)]

  function ClosingState(phase: string, otherwise: string): string {
    if phase == "applying" then "uncertain" else otherwise
  }

  function ReconcileNote(phase: string): Note {
    Note("finished", "restart_reconciled",
         CLOSING["replay_allowed" := Bool(false)]["interrupted_phase" := String(phase)], ClosingState(phase, "interrupted"))
  }

  /** A row of the query for running executions. */
  datatype Selected = Selected(id: string, phase: string)

  ghost predicate SelectsSome(db: Database, rows: seq<Selected>) {
    && (forall j, k :: 0 <= j < k < |rows| ==> rows[j].id != rows[k].id)
    && (forall k :: 0 <= k < |rows| ==>
          rows[k].id in db && db[rows[k].id].state == "running" && db[rows[k].id].phase == rows[k].phase)
  }

  /** The rows are the running executions, each once, in whatever order the database gives. */
  ghost predicate Selects(db: Database, rows: seq<Selected>) {
    && SelectsSome(db, rows)
    && (forall id :: id in db && db[id].state == "running" ==> exists k :: 0 <= k < |rows| && rows[k].id == id)
  }

  ghost function ReconcileRow(env: Env, f: Files, row: Selected, call: Call): (Files, bool) {
    if !Readable(env.codec, f.db, row.id) then (f, false) else NoteStep(env, f, row.id, ReconcileNote(row.phase), call)
  }

  ghost function Reconciler(env: Env, rows: seq<Selected>, calls: seq<Call>): (Files, nat) -> (Files, bool)
    requires |calls| == |rows|
  {
    (f: Files, j: nat) => if j < |rows| && j < |calls| then ReconcileRow(env, f, rows[j], calls[j]) else (f, false)
  }

  /** `reconcile_restart`: one row after the other, up to the first whose read or note raises. */
  ghost function ReconcilePass(env: Env, f: Files, rows: seq<Selected>, calls: seq<Call>): (Files, bool)
    requires |calls| == |rows|
  {
    Loop(Reconciler(env, rows, calls), f, |rows|)
  }

  // ---- the check that ties events to audit rows (agents/operations_api.py) ----

  /** The audit row stands for this event of an execution of `incident`. */
  predicate Vouches(c: Codec, row: Fields, incident: string, event: Fields) {
    && Get(row, "incident_id", Null) == String(incident)
    && Get(row, "agent_role", Null) == String("coordinator")
    && Get(row, "action_type", Null) == String("execution_progress")
    && Get(row, "tool_args_hash", Null) == String(c.sha(c.canonical(event - {AUDIT_HASH})))
  }

  /** Row `k` is the one an index by entry hash keeps for `hash`: the last with that hash. */
  ghost predicate Indexed(records: seq<Fields>, hash: Json, k: int) {
    && 0 <= k < |records| && Get(records[k], A.ENTRY_HASH, Null) == hash
    && forall j :: k < j < |records| ==> Get(records[j], A.ENTRY_HASH, Null) != hash
  }

  ghost predicate EventAudited(c: Codec, records: seq<Fields>, incident: string, event: Fields) {
    exists k :: Indexed(records, Get(event, AUDIT_HASH, Null), k) && Vouches(c, records[k], incident, event)
  }

  ghost predicate Audited(c: Codec, records: seq<Fields>, incident: string, events: seq<Fields>) {
    forall i :: 0 <= i < |events| ==> EventAudited(c, records, incident, events[i])
  }

  /** `{row["entry_hash"]: row for row in records}`. */
  method IndexByHash(records: seq<Fields>) returns (index: map<Json, Fields>)
    ensures forall h, k :: Indexed(records, h, k) ==> h in index && index[h] == records[k]
    ensures forall h :: h in index ==> exists k :: Indexed(records, h, k)
  {
    index := map[];
    var i := 0;
    while i < |records|
      invariant 0 <= i <= |records|
      invariant forall h, k :: Indexed(records[..i], h, k) ==> h in index && index[h] == records[k]
      invariant forall h :: h in index ==> exists k :: Indexed(records[..i], h, k)
    {
      var hash := Get(records[i], A.ENTRY_HASH, Null);
      ghost var before := index;
      index := index[hash := records[i]];
      IndexedSnoc(records, i);
      i := i + 1;
    }
    assert records[..i] == records;
  }

  lemma IndexedSnoc(records: seq<Fields>, i: nat)
    requires i < |records|
    ensures var hash := Get(records[i], A.ENTRY_HASH, Null); var more := records[..i + 1];
      && Indexed(more, hash, i)
      && (forall k :: Indexed(more, hash, k) ==> k == i)
      && forall h, k :: h != hash ==> (Indexed(more, h, k) <==> Indexed(records[..i], h, k))
  {
  }

  /** `require_execution_audit`. */
  method RequireExecutionAudit(c: Codec, records: seq<Fields>, incident: string, events: seq<Fields>) returns (ok: bool)
    ensures ok <==> Audited(c, records, incident, events)
  {
    var index := IndexByHash(records);
    var i := 0;
    while i < |events|
      invariant 0 <= i <= |events|
      invariant forall j :: 0 <= j < i ==> EventAudited(c, records, incident, events[j])
    {
      var hash := Get(events[i], AUDIT_HASH, Null);
      if hash !in index || !Vouches(c, index[hash], incident, events[i]) {
        OnlyIndexed(c, records, index, incident, events[i]);
        return false;
      }
      ghost var k :| Indexed(records, hash, k);
      assert Indexed(records, hash, k) && Vouches(c, records[k], incident, events[i]);
      i := i + 1;
    }
    ok := true;
  }

  lemma OnlyIndexed(c: Codec, records: seq<Fields>, index: map<Json, Fields>, incident: string, event: Fields)
    requires forall h, k :: Indexed(records, h, k) ==> h in index && index[h] == records[k]
    requires var hash := Get(event, AUDIT_HASH, Null); hash !in index || !Vouches(c, index[hash], incident, event)
    ensures !EventAudited(c, records, incident, event)
  {
  }

  // ---- the journal as an object ----

  class ExecutionJournal {
    const env: Env
    const audit: A.AuditLog
    var db: Database

    ghost function View(): Files
      reads this, audit, audit.file
    {
      Files(db, audit.View())
    }

    constructor (env: Env, audit: A.AuditLog)
      requires audit.codec == env.codec
      ensures this.env == env && this.audit == audit && db == map[]
    {
      this.env, this.audit, this.db := env, audit, map[];
    }

    method Begin(incident: string, id: string, about: Fields, call: Call) returns (ok: bool)
      requires audit.codec == env.codec
      modifies this, audit, audit.file
      ensures (View(), ok) == BeginStep(env, old(View()), incident, id, about, call)
    {
      if !R.ValidIncident(incident) || !R.ValidExecution(id) {
        return false;
      }
      var record := InitialRecord(env, incident, id, about);
      if id in db || !env.codec.finite(record) {
        return false;
      }
      var row := Execution(incident, "queued", "running", env.codec.compact(record), call.ts, []);
      ok := NoteInTransaction(id, row, ADMITTED, call);
    }

    method AppendNote(id: string, n: Note, call: Call) returns (ok: bool)
      requires audit.codec == env.codec
      modifies this, audit, audit.file
      ensures (View(), ok) == NoteStep(env, old(View()), id, n, call)
    {
      if n.phase !in PHASES || (n.state != "running" && n.state !in TERMINAL) {
        return false;
      }
      if id !in db {
        return false;
      }
      ok := NoteInTransaction(id, db[id], n, call);
    }

    method NoteInTransaction(id: string, x: Execution, n: Note, call: Call) returns (ok: bool)
      requires audit.codec == env.codec
      modifies this, audit, audit.file
      ensures (View(), ok) == NoteRow(env, old(View()), id, x, n, call)
    {
      var parsed := env.codec.loads(x.record);
      if x.state in TERMINAL || !parsed.Record? {
        return false;
      }
      if exists k :: k in IDENTITY && k in n.patch && n.patch[k] != Get(parsed.fields, k, Null) {
        return false;
      }
      var record := parsed.fields + env.safe(n.patch);
      var prev := if x.events == [] then "" else Last(x.events).hash;
      var transition := Transition(id, n, record, call.ts, prev);
      if !env.codec.finite(transition) || call.fate == NotAudited {
        return false;
      }
      ghost var before := audit.View();
      var entry := audit.Record(AuditInput(x.incident, transition, n, call));
      assert Get(entry, A.ENTRY_HASH, Null)
             == String(A.EntryHash(env.codec, A.Body(env.codec, AuditInput(x.incident, transition, n, call), before.last)));
      if call.fate == NotCommitted {
        return false;
      }
      var payload := env.codec.compact(transition[AUDIT_HASH := Get(entry, A.ENTRY_HASH, Null)]);
      var digest := env.codec.sha(prev + payload);
      db := db[id := Execution(x.incident, n.phase, n.state, env.codec.compact(record), call.ts,
                               x.events + [Row(payload, prev, digest)])];
      ok := true;
    }

    method Read(id: string) returns (r: Option<Reading>)
      ensures r.Some? <==> Readable(env.codec, db, id)
      ensures r.Some? ==> r.value == ReadingOf(env.codec, db[id])
    {
      var c := env.codec;
      if !R.ValidExecution(id) || id !in db {
        return None;
      }
      var x := db[id];
      if x.events == [] || |x.events| > MAX_EVENTS {
        return None;
      }
      var last := CheckRows(id, x.events);
      if last.None? || !SnapshotOk(c, x) {
        return None;
      }
      r := Some(Reading(x.incident, x.phase, x.state, x.updatedAt, A.RecordAt(c, x.record), Transitions(c, x.events), last.value));
    }

    /** `reconcile_restart`, on the rows its query gave; `calls` supplies each note's environment.
        False stands for the exception that ends the loop. */
    method ReconcileRestart(rows: seq<Selected>, calls: seq<Call>) returns (ok: bool)
      requires audit.codec == env.codec && |calls| == |rows|
      modifies this, audit, audit.file
      ensures (View(), ok) == ReconcilePass(env, old(View()), rows, calls)
    {
      ghost var before, step := View(), Reconciler(env, rows, calls);
      var i := 0;
      while i < |rows|
        invariant 0 <= i <= |rows|
        invariant (View(), true) == Loop(step, before, i)
      {
        LoopNext(step, before, i, View());
        ok := ReconcileOne(rows[i], calls[i]);
        i := i + 1;
        if !ok {
          LoopStops(step, before, i, |rows|);
          return;
        }
      }
      ok := true;
    }

    method ReconcileOne(row: Selected, call: Call) returns (ok: bool)
      requires audit.codec == env.codec
      modifies this, audit, audit.file
      ensures (View(), ok) == ReconcileRow(env, old(View()), row, call)
    {
      var reading := Read(row.id);
      if reading.None? {
        return false;
      }
      ok := AppendNote(row.id, ReconcileNote(row.phase), call);
    }

    /** The loop of `read`: follows the chain and returns its last hash. */
    method CheckRows(id: string, rows: seq<Row>) returns (last: Option<string>)
      ensures last.Some? <==> RowsOk(env.codec, id, rows)
      ensures last.Some? ==> last.value == PrevHash(rows, |rows|)
    {
      var previous := "";
      var i := 0;
      while i < |rows|
        invariant 0 <= i <= |rows|
        invariant previous == PrevHash(rows, i)
        invariant forall j :: 0 <= j < i ==> RowOkAt(env.codec, id, rows, j)
      {
        var ok := CheckRow(id, rows[i], previous);
        if !ok {
          assert !RowOkAt(env.codec, id, rows, i);
          return None;
        }
        previous := rows[i].hash;
        i := i + 1;
      }
      last := Some(previous);
    }

    method CheckRow(id: string, row: Row, previous: string) returns (ok: bool)
      ensures ok <==> RowOk(env.codec, id, row, previous)
    {
      var parsed := env.codec.loads(row.event);
      if !parsed.Record? || Get(parsed.fields, "execution_id", Null) != String(id)
         || ("prev_hash" in parsed.fields && parsed.fields["prev_hash"] != String(previous)) {
        return false;
      }
      var expected := env.codec.sha(previous + row.event);
      ok := row.prev == previous && row.hash == expected;
    }
  }
}
