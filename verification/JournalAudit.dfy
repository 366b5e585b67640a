/** What the audit check of an execution refuses (agents/operations_api.py): the row that an event
    names fixes the whole transition, so a changed event is not accepted under the same row. */
module JournalAudit {
  import opened Basics
  import opened Evidence
  import opened Journal
  import A = Audit
  import S = JournalSafety

  /** An event without the hash of its audit row. */
  function Bare(event: Fields): Fields {
    event - {AUDIT_HASH}
  }

  ghost predicate TextsApart(c: Codec, a: Fields, b: Fields) {
    CollisionFree(c, iset{c.canonical(a), c.canonical(b)})
  }

  /** The audit row that an accepted event names carries the hash of its transition, the incident, and
      the marks of the coordinator's progress notes. */
  lemma AcceptedEventIsHashed(c: Codec, records: seq<Fields>, incident: string, events: seq<Fields>, i: nat) returns (k: nat)
    requires Audited(c, records, incident, events) && i < |events|
    ensures k < |records| && Get(records[k], A.ENTRY_HASH, Null) == Get(events[i], AUDIT_HASH, Null)
    ensures forall j :: k < j < |records| ==> Get(records[j], A.ENTRY_HASH, Null) != Get(events[i], AUDIT_HASH, Null)
    ensures Get(records[k], "tool_args_hash", Null) == String(c.sha(c.canonical(Bare(events[i]))))
    ensures Get(records[k], "incident_id", Null) == String(incident)
    ensures Get(records[k], "agent_role", Null) == String("coordinator")
    ensures Get(records[k], "action_type", Null) == String("execution_progress")
  {
    assert EventAudited(c, records, incident, events[i]);
    k :| Indexed(records, Get(events[i], AUDIT_HASH, Null), k) && Vouches(c, records[k], incident, events[i]);
  }

  /** Two histories that the check accepts against the same log have the same transition, and belong
      to the same incident, wherever they name the same audit row, unless the texts of those two
      transitions collide. */
  lemma AcceptedEventsAgree(c: Codec, records: seq<Fields>, incident: string, events: seq<Fields>,
                            incident': string, events': seq<Fields>, i: nat, i': nat)
    requires Sound(c) && Audited(c, records, incident, events) && Audited(c, records, incident', events')
    requires i < |events| && i' < |events'| && Get(events[i], AUDIT_HASH, Null) == Get(events'[i'], AUDIT_HASH, Null)
    requires TextsApart(c, Bare(events[i]), Bare(events'[i']))
    ensures Bare(events[i]) == Bare(events'[i']) && incident == incident'
  {
    var k := AcceptedEventIsHashed(c, records, incident, events, i);
    var k' := AcceptedEventIsHashed(c, records, incident', events', i');
    assert k == k';
    CanonicalDecodes(c, Bare(events[i]), Bare(events'[i']));
  }

  lemma CanonicalDecodes(c: Codec, a: Fields, b: Fields)
    requires Sound(c) && c.canonical(a) == c.canonical(b)
    ensures a == b
  {
    assert c.loads(c.canonical(a)) == Record(a) && c.loads(c.canonical(b)) == Record(b);
  }

  /** After any run, a history that the check accepts has the committed transition wherever it names
      the audit row of a committed event; a changed record, state or phase is refused. */
  lemma OnlyCommittedIsAccepted(env: Env, run: seq<S.Event>, id: string, i: nat,
                                incident: string, events: seq<Fields>, j: nat)
    requires var w := S.Run(env, run); SoundEnv(env) && id in w.files.db && i < |w.files.db[id].events|
    requires j < |events|
    requires var w := S.Run(env, run); var event := S.EventAt(env.codec, w.files.db[id], i);
      && CollisionFree(env.codec, A.HashInputs(env.codec, w.files.log.lines))
      && Audited(env.codec, A.Records(env.codec, w.files.log.lines), incident, events)
      && Get(events[j], AUDIT_HASH, Null) == Get(event, AUDIT_HASH, Null)
      && TextsApart(env.codec, Bare(event), Bare(events[j]))
    ensures var w := S.Run(env, run);
      && Bare(events[j]) == Bare(S.EventAt(env.codec, w.files.db[id], i))
      && incident == w.files.db[id].incident
  {
    var w := S.Run(env, run);
    var x := w.files.db[id];
    S.EveryEventIsAudited(env, run, id);
    AcceptedEventsAgree(env.codec, A.Records(env.codec, w.files.log.lines), x.incident, Transitions(env.codec, x.events),
                        incident, events, i, j);
  }

  /** So a journal row rewritten after the fact, under the same audit row, makes the check fail. */
  lemma RewrittenEventIsRefused(env: Env, run: seq<S.Event>, id: string, i: nat, forged: Fields)
    requires var w := S.Run(env, run); SoundEnv(env) && id in w.files.db && i < |w.files.db[id].events|
    requires var w := S.Run(env, run); var x := w.files.db[id]; var event := S.EventAt(env.codec, x, i);
      && CollisionFree(env.codec, A.HashInputs(env.codec, w.files.log.lines))
      && Get(forged, AUDIT_HASH, Null) == Get(event, AUDIT_HASH, Null) && Bare(forged) != Bare(event)
      && TextsApart(env.codec, Bare(event), Bare(forged))
    ensures var w := S.Run(env, run); var x := w.files.db[id];
      !Audited(env.codec, A.Records(env.codec, w.files.log.lines), x.incident, Transitions(env.codec, x.events)[i := forged])
  {
    var w := S.Run(env, run);
    var x := w.files.db[id];
    var events := Transitions(env.codec, x.events)[i := forged];
    if Audited(env.codec, A.Records(env.codec, w.files.log.lines), x.incident, events) {
      OnlyCommittedIsAccepted(env, run, id, i, x.incident, events, i);
    }
  }

  // ---- what a read is bound by ----

  /** The event says when it was written (events of older journals were not linked, and do not bind it). */
  predicate Linked(event: Fields) {
    "prev_hash" in event
  }

  /** Every event of an accepted read is of that execution and, if it says what it follows, follows the
      event before it. */
  lemma EventsAreLinked(c: Codec, db: Database, id: string, i: nat)
    requires Readable(c, db, id) && i < |db[id].events|
    ensures var r := ReadingOf(c, db[id]);
      && Get(r.events[i], "execution_id", Null) == String(id)
      && (Linked(r.events[i]) ==> r.events[i]["prev_hash"] == String(if i == 0 then "" else db[id].events[i - 1].hash))
  {
    assert RowOkAt(c, id, db[id].events, i);
  }

  lemma SnapshotIsLast(c: Codec, x: Execution)
    requires x.events != [] && SnapshotOk(c, x)
    ensures var last := Last(Transitions(c, x.events)); var r := ReadingOf(c, x);
      && Get(last, "record", Null) == Object(r.record) && Get(last, "phase", Null) == String(r.phase)
      && Get(last, "state", Null) == String(r.state)
      && (Linked(last) ==> Get(last, "ts", Null) == Number(r.updatedAt))
  {
    assert Last(Transitions(c, x.events)) == A.RecordAt(c, Last(x.events).event);
  }

  /** Two reads that give the same last hash report the same execution, with the same events, record,
      phase and state, and the same time if the last event tells it: everything but the incident,
      which the audit check binds. Unless two of the hash inputs at hand collide. */
  lemma LastHashBindsReading(c: Codec, db: Database, id: string, db': Database, id': string)
    requires Sound(c) && Readable(c, db, id) && Readable(c, db', id')
    requires CollisionFree(c, S.ChainInputs(db[id].events) + S.ChainInputs(db'[id'].events))
    requires ReadingOf(c, db[id]).lastHash == ReadingOf(c, db'[id']).lastHash
    ensures var r, r' := ReadingOf(c, db[id]), ReadingOf(c, db'[id']);
      && id == id' && r.events == r'.events && r.record == r'.record && r.phase == r'.phase && r.state == r'.state
      && (Linked(Last(r.events)) ==> r.updatedAt == r'.updatedAt)
  {
    S.LastHashBindsEvents(c, id, db[id].events, id', db'[id'].events);
    SnapshotIsLast(c, db[id]);
    SnapshotIsLast(c, db'[id']);
    assert RowOkAt(c, id, db[id].events, 0) && RowOkAt(c, id', db'[id'].events, 0);
  }
}
