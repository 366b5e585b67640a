/** What a submit answers (agents/incident_dispatch.py:80-209), told from the occurrences of the batch,
    the admission table and the registered queues before it, in every reachable state. */
module DispatchReplies {
  import opened Basics
  import opened Admission
  import opened Correlator
  import opened Dispatch
  import opened DispatchInvariant
  import opened DispatchSteps
  import opened DispatchDraining

  /** Every occurrence was admitted before, for incident `i`. */
  ghost predicate HeldBy(t: Table, refs: seq<Ref>, i: string) {
    forall r :: r in refs ==> r.key in t && t[r.key].incident == i
  }

  /** Every occurrence was admitted before, for more than one incident. */
  ghost predicate HeldApart(t: Table, refs: seq<Ref>) {
    && (forall r :: r in refs ==> r.key in t)
    && exists r, s :: r in refs && s in refs && t[r.key].incident != t[s.key].incident
  }

  ghost predicate New(t: Table, refs: seq<Ref>, key: string) {
    key !in t && exists r :: r in refs && r.key == key
  }

  ghost predicate SomeNew(t: Table, refs: seq<Ref>) {
    exists r :: r in refs && r.key !in t
  }

  lemma KeysAreRefs(refs: seq<Ref>)
    ensures forall k :: k in KeysOf(refs) <==> exists r :: r in refs && r.key == k
    ensures KeysOf(refs) == [] <==> refs == []
  {
    forall k | k in KeysOf(refs) ensures exists r :: r in refs && r.key == k {
      var i :| 0 <= i < |refs| && KeysOf(refs)[i] == k;
      assert refs[i] in refs;
    }
    forall r | r in refs ensures r.key in KeysOf(refs) {
      var i :| 0 <= i < |refs| && refs[i] == r;
      assert KeysOf(refs)[i] == r.key;
    }
  }

  lemma AdmissionKeysAreRefs(batch: Batch)
    ensures forall k :: k in AdmissionKeys(batch) <==> exists r :: r in batch.refs && r.key == k
    ensures AdmissionKeys(batch) == [] <==> batch.refs == []
  {
    KeysAreRefs(batch.refs);
    if batch.refs != [] { assert batch.refs[0] in batch.refs && batch.refs[0].key in AdmissionKeys(batch); }
    if AdmissionKeys(batch) != [] { assert AdmissionKeys(batch)[0] in KeysOf(batch.refs); }
  }

  lemma FreshAreNew(t: Table, batch: Batch)
    ensures forall k :: k in FreshKeys(t, AdmissionKeys(batch)) <==> New(t, batch.refs, k)
    ensures FreshKeys(t, AdmissionKeys(batch)) != [] <==> SomeNew(t, batch.refs)
  {
    var news := FreshKeys(t, AdmissionKeys(batch));
    AdmissionKeysAreRefs(batch);
    if news != [] { assert news[0] in news; }
    if r :| r in batch.refs && r.key !in t { assert r.key in news; }
  }

  /** A duplicate names the one incident that holds all occurrences, if there is just one. */
  lemma SoleHolder(t: Table, batch: Batch)
    requires batch.refs != [] && !SomeNew(t, batch.refs)
    ensures var sole := SoleIncident(DuplicatesOf(t, AdmissionKeys(batch)));
      && (forall i :: sole == Some(i) <==> HeldBy(t, batch.refs, i))
      && (sole == None <==> HeldApart(t, batch.refs))
  {
    var duplicates := DuplicatesOf(t, AdmissionKeys(batch));
    AdmissionKeysAreRefs(batch);
    forall r | r in batch.refs ensures r.key in t && (r.key, t[r.key].incident) in duplicates { assert r.key in AdmissionKeys(batch); }
    var first := batch.refs[0];
    assert first in batch.refs;
    assert duplicates != [] && duplicates[0] in duplicates;
    var s :| s in batch.refs && s.key == duplicates[0].0;
    if SoleIncident(duplicates).None? {
      var d :| d in duplicates && d.1 != duplicates[0].1;
      var r :| r in batch.refs && r.key == d.0;
      assert t[r.key].incident != t[s.key].incident;
    }
  }

  /** The exact reply to every submit, on whatever faults. */
  ghost predicate ReplyTells(n: Node, batch: Batch, faults: Faults, reply: Reply) {
    var t, refs, served := n.shared.table, batch.refs, batch.incident in n.local.queues;
    if refs == [] then reply == Duplicate(None)
    else
      var refused := faults.admit || (SomeNew(t, refs) && (faults.prepare || (faults.start && !served)));
      && (reply == Raised <==> refused)
      && (forall i :: reply == Duplicate(Some(i)) <==> !faults.admit && HeldBy(t, refs, i))
      && (reply == Duplicate(None) <==> !faults.admit && HeldApart(t, refs))
      && (reply.Started? || reply.QueuedBehind? <==> SomeNew(t, refs) && !refused)
      && (reply.Started? ==> !served && reply.token == n.shared.clock)
      && (reply.QueuedBehind? ==> served && reply.token == n.shared.clock)
  }

  lemma ReplyIsTold(n: Node, batch: Batch, faults: Faults)
    requires SharedInv(n.shared) && Linked(n.local)
    ensures ReplyTells(n, batch, faults, SubmitReply(n, batch, faults))
  {
    AdmissionKeysAreRefs(batch);
    FreshAreNew(n.shared.table, batch);
    if batch.refs != [] && !SomeNew(n.shared.table, batch.refs) { SoleHolder(n.shared.table, batch); }
    if batch.incident in n.local.queues { assert HasWorker(n.local, batch.incident); }
    if batch.refs != [] { assert batch.refs[0] in batch.refs; }
  }

  // ---- what the reply stands for ----

  /** The job of an accepted submit: new token, exactly the new occurrences, and their part of the payload. */
  ghost predicate AcceptedJob(n: Node, batch: Batch, job: Job) {
    && job.incident == batch.incident && job.token == n.shared.clock
    && (forall k :: k in job.keys <==> New(n.shared.table, batch.refs, k))
    && job.payload == FilteredPayload(batch.payload, batch.refs, set k | k in job.keys)
  }

  /** An accepted submit leaves its job waiting, undecided, and its occurrences queued under its token. */
  ghost predicate Accepted(n: Node, m: Node, batch: Batch, token: Token) {
    && token !in n.shared.issued && token in m.local.undecided
    && batch.incident in m.local.queues && HasWorker(m.local, batch.incident)
    && (exists job :: job in Waiting(m.local, batch.incident) && job.token == token && AcceptedJob(n, batch, job))
    && (forall k :: k in m.shared.table && k !in n.shared.table <==> New(n.shared.table, batch.refs, k))
    && (forall k :: New(n.shared.table, batch.refs, k) ==> m.shared.table[k] == Row(batch.incident, false, token))
  }

  /** A refused submit leaves queues and completions as they were, and the table unless its rollback fails. */
  ghost predicate NothingDone(n: Node, m: Node, faults: Faults) {
    && m.local.queues == n.local.queues && m.local.undecided == n.local.undecided && m.local.workers == n.local.workers
    && (!faults.rollback ==> m.shared.table == n.shared.table)
    && (forall k :: k in n.shared.table ==> k in m.shared.table && m.shared.table[k] == n.shared.table[k])
    && m.shared.starts == n.shared.starts
  }

  lemma JobForIsAccepted(n: Node, batch: Batch)
    ensures AcceptedJob(n, batch, JobFor(n.shared.table, n.shared.clock, batch))
  {
    FreshAreNew(n.shared.table, batch);
  }

  lemma RowsOfAdmission(n: Node, batch: Batch)
    ensures var t := Admitted(n.me, n.shared, batch).table;
      && (forall k :: k in t && k !in n.shared.table <==> New(n.shared.table, batch.refs, k))
      && (forall k :: New(n.shared.table, batch.refs, k) ==> t[k] == Row(batch.incident, false, n.shared.clock))
      && (forall k :: k in n.shared.table ==> k in t && t[k] == n.shared.table[k])
  {
    AdmissionKeysAreRefs(batch);
  }

  lemma UndoneIsBefore(n: Node, batch: Batch)
    requires SharedInv(n.shared)
    ensures Undone(n.me, n.shared, batch).table == n.shared.table
  {
    forall k | k in n.shared.table ensures n.shared.table[k].token != n.shared.clock {
      assert n.shared.table[k].token in n.shared.issued;
    }
    RollbackUndoesAdmit(n.shared.table, batch.incident, AdmissionKeys(batch), n.shared.clock);
  }

  /** Only the shared part moved: to the undone admission, or to the admission when the rollback fails. */
  lemma UndoneDoesNothing(n: Node, m: Node, batch: Batch, faults: Faults)
    requires SharedInv(n.shared) && m.local.queues == n.local.queues && m.local.undecided == n.local.undecided
    requires m.local.workers == n.local.workers
    requires m.shared == if faults.rollback then Admitted(n.me, n.shared, batch) else Undone(n.me, n.shared, batch)
    ensures NothingDone(n, m, faults)
  {
    UndoneIsBefore(n, batch);
    RowsOfAdmission(n, batch);
  }

  lemma RefusalDoesNothing(n: Node, batch: Batch, faults: Faults)
    requires SharedInv(n.shared) && Linked(n.local)
    requires SubmitReply(n, batch, faults).Raised? || SubmitReply(n, batch, faults).Duplicate?
    ensures NothingDone(n, SubmitStep(n, batch, faults), faults)
  {
    var m := SubmitStep(n, batch, faults);
    SubmitCases(n, batch, faults);
    if AdmissionKeys(batch) != [] && !faults.admit && FreshKeys(n.shared.table, AdmissionKeys(batch)) != [] {
      if batch.incident in n.local.queues { assert HasWorker(n.local, batch.incident); }
      UndoneDoesNothing(n, m, batch, faults);
    }
  }

  lemma AcceptanceQueues(n: Node, batch: Batch, faults: Faults)
    requires NodeInv(n)
    requires SubmitReply(n, batch, faults).Started? || SubmitReply(n, batch, faults).QueuedBehind?
    ensures Accepted(n, SubmitStep(n, batch, faults), batch, n.shared.clock)
  {
    var job := JobFor(n.shared.table, n.shared.clock, batch);
    SubmitCases(n, batch, faults);
    RowsOfAdmission(n, batch);
    JobForIsAccepted(n, batch);
    if batch.incident in n.local.queues {
      assert HasWorker(n.local, batch.incident);
      AppendLinked(n.local, QueueFor(n.local, batch.incident).worker.value, job);
    } else {
      OpenLinked(n.local, job);
    }
  }

  // ---- main result ----

  /** In every reachable state, on whatever faults: the reply is told by the occurrences and the table,
      an accepted batch is queued under the token that the reply names, and a refused one leaves no trace. */
  lemma SubmitIsAnswered(actions: seq<Action>, me: nat, batch: Batch, faults: Faults)
    ensures var n := NodeAt(actions, me); var m := NodeAt(actions + [Act(me, Submit(batch, faults))], me);
      var reply := SubmitReply(n, batch, faults);
      && ReplyTells(n, batch, faults, reply)
      && match reply
         case Started(token) => Accepted(n, m, batch, token)
         case QueuedBehind(token) => Accepted(n, m, batch, token)
         case _ => NothingDone(n, m, faults)
  {
    var n := NodeAt(actions, me);
    NodeAtInv(actions, me);
    NodeAtSnoc(actions, me, Submit(batch, faults));
    ReplyIsTold(n, batch, faults);
    match SubmitReply(n, batch, faults) {
      case Started(_) => AcceptanceQueues(n, batch, faults);
      case QueuedBehind(_) => AcceptanceQueues(n, batch, faults);
      case _ => RefusalDoesNothing(n, batch, faults);
    }
  }
}
