/** Every event keeps the dispatcher's invariant. */
module DispatchSteps {
  import opened Basics
  import opened Admission
  import opened Correlator
  import opened Dispatch
  import opened DispatchInvariant

  lemma ReadyIsBound(l: Local, w: WorkerId)
    requires Linked(l) && Known(l, w) && l.workers[w].phase != Ended
    ensures Bound(l, w) && l.workers[w].incident in l.queues
    ensures QueueFor(l, l.workers[w].incident) == QueueOf(l, w) && WorkerFor(l, l.workers[w].incident) == l.workers[w]
  {
  }

  lemma EvolvesTrans(a: Shared, b: Shared, c: Shared, origin: Origin)
    requires Evolves(a, b, origin) && Evolves(b, c, origin)
    ensures Evolves(a, c, origin)
  {
  }

  lemma SettledInv(n: Node, w: WorkerId)
    requires NodeInv(n) && Known(n.local, w) && n.local.workers[w].phase.Handling?
    ensures NodeInv(Settled(n, w)) && Bound(Settled(n, w).local, w)
  {
    var l := n.local;
    var i := l.workers[w].incident;
    var job := l.workers[w].phase.job;
    ReadyIsBound(l, w);
    RewriteLinked(l, w, QueueOf(l, w), Ready, {job.token});
    var l' := Settled(n, w).local;
    assert Items(l, i) == [job] + Waiting(l, i) && Waiting(l', i) == Waiting(l, i);
    DropHead(n.me, n.shared, l, l', i);
  }

  /** The first of the held and waiting jobs is settled; the rest stay as they are. */
  lemma DropHead(me: nat, sh: Shared, l: Local, l': Local, i: string)
    requires SharedInv(sh) && LocalInv(me, sh, l) && Linked(l') && i in l.queues && i in l'.queues
    requires forall j :: j in l.queues && j != i ==> SameQueue(l, l', j)
    requires l'.queues == l.queues
    requires Items(l, i) != [] && l'.undecided == l.undecided - {Items(l, i)[0].token}
    requires Held(l', i) == [] && Waiting(l', i) == Items(l, i)[1..]
    requires forall x :: x in Waiting(l', i) ==> x in Waiting(l, i)
    ensures LocalInv(me, sh, l')
  {
    assert JobsOk(sh, Origin(me, i), Held(l, i), Waiting(l, i));
    Tail(Items(l, i));
    assert Items(l', i) == Items(l, i)[1..];
    EvolvesRefl(sh, Origin(me, i));
    Assemble(me, sh, sh, l, l', i);
  }

  /** Dropping the head keeps the tokens distinct, and loses only the head's token. */
  lemma Tail(jobs: seq<Job>)
    requires jobs != [] && DistinctTokens(jobs)
    ensures DistinctTokens(jobs[1..])
    ensures Tokens(jobs[1..]) == Tokens(jobs) - {jobs[0].token}
  {
  }

  /** The local state after the head of the pending jobs could not be marked. */
  ghost function Skipped(l: Local, w: WorkerId): Local
    requires Known(l, w) && QueueOf(l, w).pending != []
  {
    var q := QueueOf(l, w);
    Decide(Touch(l, w, q.(pending := q.pending[1..]), Ready), {q.pending[0].token})
  }

  lemma SkippedLinked(l: Local, w: WorkerId)
    requires Linked(l) && Known(l, w) && l.workers[w].phase == Ready && QueueOf(l, w).pending != []
    ensures var i, q, l' := l.workers[w].incident, QueueOf(l, w), Skipped(l, w);
      && Linked(l') && l'.queues == l.queues && i in l.queues
      && QueueFor(l, i) == q && QueueFor(l', i) == q.(pending := q.pending[1..])
      && WorkerFor(l, i) == WorkerFor(l', i) == l.workers[w]
      && forall j :: j in l.queues && j != i ==> SameQueue(l, l', j)
  {
    var q := QueueOf(l, w);
    ReadyIsBound(l, w);
    RewriteLinked(l, w, q.(pending := q.pending[1..]), Ready, {q.pending[0].token});
  }

  /** The jobs of the incident lose their head. */
  lemma SkippedItems(l: Local, l': Local, i: string)
    requires Linked(l) && Linked(l') && i in l.queues && i in l'.queues
    requires Held(l, i) == Held(l', i) == [] && QueueFor(l, i).pending != []
    requires QueueFor(l', i) == QueueFor(l, i).(pending := QueueFor(l, i).pending[1..])
    ensures Items(l, i) == Waiting(l, i) == [QueueFor(l, i).pending[0]] + Waiting(l', i)
    ensures Items(l', i) == Waiting(l', i)
  {
    HeadAndRest(QueueFor(l, i).pending, QueueFor(l, i).deferred);
    NothingBefore(Waiting(l, i));
    NothingBefore(Waiting(l', i));
  }

  lemma HeadAndRest(pending: seq<Job>, deferred: seq<Job>)
    requires pending != []
    ensures pending + deferred == [pending[0]] + (pending[1..] + deferred)
  {
  }

  lemma NothingBefore(jobs: seq<Job>)
    ensures [] + jobs == jobs
  {
  }

  lemma PopFailInv(n: Node, w: WorkerId)
    requires NodeInv(n) && Known(n.local, w) && n.local.workers[w].phase == Ready
    requires QueueOf(n.local, w).pending != []
    ensures NodeInv(n.(local := Skipped(n.local, w)))
  {
    var i, l' := n.local.workers[w].incident, Skipped(n.local, w);
    SkippedLinked(n.local, w);
    SkippedItems(n.local, l', i);
    DropHead(n.me, n.shared, n.local, l', i);
  }

  /** The shared part after a job starts. */
  ghost function AfterStart(me: nat, sh: Shared, job: Job): Shared {
    sh.(table := Mark(sh.table, job.token, job.keys), starts := sh.starts + [Start(me, job)])
  }

  lemma StartShared(me: nat, i: string, sh: Shared, job: Job)
    requires SharedInv(sh) && JobOk(sh, Origin(me, i), job) && Startable(sh, job)
    ensures SharedInv(AfterStart(me, sh, job))
    ensures Evolves(sh, AfterStart(me, sh, job), Origin(me, i))
  {
    var sh' := AfterStart(me, sh, job);
    TransactionsKeepAttempted(sh.table, i, job.keys, job.token);
    forall s | s in sh'.starts ensures StartOk(sh', s) {
      if s in sh.starts {
        assert StartOk(sh, s);
      } else {
        assert s == Start(me, job);
      }
    }
    forall a, b | 0 <= a < b < |sh'.starts|
      ensures DisjointKeys(sh'.starts[a].job, sh'.starts[b].job)
    {
      if b == |sh.starts| {
        assert StartOk(sh, sh.starts[a]);
      }
    }
    forall k | k in sh.table && sh.table[k].token in sh.issued && sh.issued[sh.table[k].token] != Origin(me, i)
      ensures k in sh'.table && sh'.table[k] == sh.table[k]
    {
    }
  }

  /** The jobs of the same incident that keep waiting can still start afterwards. */
  lemma StartOthers(me: nat, sh: Shared, job: Job, rest: seq<Job>, origin: Origin)
    requires forall x :: x in rest ==> JobOk(sh, origin, x) && Startable(sh, x)
    requires forall x :: x in rest ==> x.token != job.token
    ensures forall x :: x in rest ==> JobOk(AfterStart(me, sh, job), origin, x) && Startable(AfterStart(me, sh, job), x)
  {
  }

  lemma PopStartInv(n: Node, w: WorkerId)
    requires NodeInv(n) && Known(n.local, w) && n.local.workers[w].phase == Ready
    requires QueueOf(n.local, w).pending != []
    ensures var q := QueueOf(n.local, w);
      var m := n.(shared := AfterStart(n.me, n.shared, q.pending[0]),
                  local := Touch(n.local, w, q.(pending := q.pending[1..]), Handling(q.pending[0])));
      NodeInv(m) && Evolves(n.shared, m.shared, Origin(n.me, n.local.workers[w].incident))
  {
    var l := n.local;
    var i := l.workers[w].incident;
    ReadyIsBound(l, w);
    var q := QueueOf(l, w);
    var job := q.pending[0];
    var rest := q.(pending := q.pending[1..]);
    RewriteLinked(l, w, rest, Handling(job), {});
    var l' := Touch(l, w, rest, Handling(job));
    assert Decide(l', {}) == l';
    assert Waiting(l, i) == q.pending + q.deferred == [job] + Waiting(l', i);
    HoldHead(n.me, n.shared, l, l', i);
  }

  /** The first waiting job becomes the held one, and its handler call is recorded. */
  lemma HoldHead(me: nat, sh: Shared, l: Local, l': Local, i: string)
    requires SharedInv(sh) && LocalInv(me, sh, l) && Linked(l') && i in l.queues && i in l'.queues
    requires forall j :: j in l.queues && j != i ==> SameQueue(l, l', j)
    requires l'.queues == l.queues && l'.undecided == l.undecided
    requires Held(l, i) == [] && Waiting(l, i) == Held(l', i) + Waiting(l', i) && |Held(l', i)| == 1
    ensures SharedInv(AfterStart(me, sh, Held(l', i)[0]))
    ensures LocalInv(me, AfterStart(me, sh, Held(l', i)[0]), l')
    ensures Evolves(sh, AfterStart(me, sh, Held(l', i)[0]), Origin(me, i))
  {
    var job := Held(l', i)[0];
    var origin := Origin(me, i);
    assert JobsOk(sh, origin, Held(l, i), Waiting(l, i));
    assert Items(l, i) == Waiting(l, i) == Items(l', i);
    assert Waiting(l, i)[0] == job;
    StartShared(me, i, sh, job);
    Tail(Items(l, i));
    assert Waiting(l', i) == Items(l, i)[1..];
    forall x | x in Waiting(l', i) ensures x in Waiting(l, i) && x.token != job.token {
      assert x.token in Tokens(Items(l, i)[1..]);
    }
    StartOthers(me, sh, job, Waiting(l', i), origin);
    Assemble(me, sh, AfterStart(me, sh, job), l, l', i);
  }

  /** A startable job passes `mark_attempted`. */
  lemma StartableCanMark(sh: Shared, job: Job)
    requires Startable(sh, job)
    ensures CanMark(sh.table, job.token, job.keys)
  {
  }

  lemma EndTaskInv(n: Node, w: WorkerId)
    requires NodeInv(n) && Known(n.local, w) && n.local.workers[w].phase == Ready
    ensures NodeInv(EndTask(n, w)) && EndTask(n, w).shared == n.shared
  {
    ReadyIsBound(n.local, w);
    if QueueOf(n.local, w).deferred != [] {
      EndEarlyInv(n, w);
    } else {
      EndIdleInv(n, w);
    }
  }

  /** The early return of `_finish_worker`: deferred jobs wait for the done callback. */
  ghost function EndedEarly(l: Local, w: WorkerId): Local
    requires Known(l, w)
  {
    Touch(l, w, QueueOf(l, w), Ended)
  }

  lemma EndEarlyStep(n: Node, w: WorkerId)
    requires Bound(n.local, w) && QueueOf(n.local, w).deferred != []
    ensures EndTask(n, w) == n.(local := EndedEarly(n.local, w))
  {
  }

  lemma EndedEarlyLinked(l: Local, w: WorkerId)
    requires Linked(l) && Bound(l, w) && l.workers[w].phase == Ready
    ensures var i, l' := l.workers[w].incident, EndedEarly(l, w);
      && Linked(l') && l'.queues == l.queues && l'.undecided == l.undecided && i in l.queues
      && QueueFor(l', i) == QueueFor(l, i) == QueueOf(l, w) && Held(l', i) == Held(l, i) == []
      && WorkerFor(l', i).phase == Ended && forall j :: j in l.queues && j != i ==> SameQueue(l, l', j)
  {
    ReadyIsBound(l, w);
    TouchLinked(l, w, QueueOf(l, w), Ended);
  }

  lemma EndEarlyInv(n: Node, w: WorkerId)
    requires NodeInv(n) && Bound(n.local, w) && n.local.workers[w].phase == Ready
    requires QueueOf(n.local, w).deferred != []
    ensures NodeInv(EndTask(n, w)) && EndTask(n, w).shared == n.shared
  {
    var l', i := EndedEarly(n.local, w), n.local.workers[w].incident;
    EndEarlyStep(n, w);
    EndedEarlyLinked(n.local, w);
    assert Waiting(n.local, i) == [] + Waiting(l', i);
    KeepSuffix(n.me, n.shared, n.local, l', i, []);
  }

  /** Nothing is deferred: the queue is unregistered and the task is done. */
  ghost function EndedIdle(l: Local, w: WorkerId): Local
    requires Bound(l, w)
  {
    var u := Unregister(Decide(l, Tokens(QueueOf(l, w).pending)), l.workers[w].incident, l.workers[w].queue);
    u.(workers := u.workers[w := l.workers[w].(phase := Ended)])
  }

  lemma EndIdleStep(n: Node, w: WorkerId)
    requires Bound(n.local, w) && QueueOf(n.local, w).deferred == []
    ensures EndTask(n, w) == n.(local := EndedIdle(n.local, w))
  {
  }

  lemma EndedIdleLinked(l: Local, w: WorkerId)
    requires Linked(l) && Bound(l, w) && l.workers[w].phase == Ready && QueueOf(l, w).deferred == []
    ensures var i, l' := l.workers[w].incident, EndedIdle(l, w);
      && Linked(l') && i in l.queues && l'.queues == l.queues - {i}
      && Items(l, i) == QueueOf(l, w).pending && l'.undecided == l.undecided - Tokens(Items(l, i))
      && forall j :: j in l.queues && j != i ==> SameQueue(l, l', j)
  {
    var d := Decide(l, Tokens(QueueOf(l, w).pending));
    ReadyIsBound(l, w);
    DecideLinked(l, Tokens(QueueOf(l, w).pending));
    UnregisterLinked(d, w);
    forall j | j in l.queues && j != l.workers[w].incident ensures SameQueue(l, EndedIdle(l, w), j) {
      assert SameQueue(l, d, j) && SameQueue(d, EndedIdle(l, w), j);
    }
  }

  lemma EndIdleInv(n: Node, w: WorkerId)
    requires NodeInv(n) && Bound(n.local, w) && n.local.workers[w].phase == Ready
    requires QueueOf(n.local, w).deferred == []
    ensures NodeInv(EndTask(n, w)) && EndTask(n, w).shared == n.shared
  {
    EndIdleStep(n, w);
    EndedIdleLinked(n.local, w);
    assert n.shared.(table := RollbackAll(n.shared.table, [], {})) == n.shared;
    ReleaseAll(n.me, n.shared, n.local, EndedIdle(n.local, w), n.local.workers[w].incident, [], {});
  }

  lemma {:induction false} DrainInv(n: Node, w: WorkerId, markFails: set<Token>)
    requires NodeInv(n) && Known(n.local, w) && n.local.workers[w].phase == Ready
    ensures NodeInv(Drain(n, w, markFails)) && Drain(n, w, markFails).me == n.me
    ensures Evolves(n.shared, Drain(n, w, markFails).shared, Origin(n.me, n.local.workers[w].incident))
    decreases |QueueOf(n.local, w).pending|
  {
    var origin := Origin(n.me, n.local.workers[w].incident);
    var q := QueueOf(n.local, w);
    ReadyIsBound(n.local, w);
    if q.pending == [] {
      EndTaskInv(n, w);
      EvolvesRefl(n.shared, origin);
    } else {
      var job := q.pending[0];
      if job.token in markFails || !CanMark(n.shared.table, job.token, job.keys) {
        PopFailInv(n, w);
        DrainInv(n.(local := Skipped(n.local, w)), w, markFails);
      } else {
        PopStartInv(n, w);
      }
    }
  }

  // ---- the done callback ----

  lemma {:induction false} RollbackAllShared(sh: Shared, jobs: seq<Job>, failing: set<Token>, origin: Origin)
    requires SharedInv(sh)
    requires forall x :: x in jobs ==> JobOk(sh, origin, x)
    ensures var sh' := sh.(table := RollbackAll(sh.table, jobs, failing));
      SharedInv(sh') && Evolves(sh, sh', origin)
  {
    if jobs == [] {
    } else {
      var init := jobs[..|jobs| - 1];
      assert Last(jobs) in jobs;
      RollbackAllShared(sh, init, failing, origin);
      var mid := sh.(table := RollbackAll(sh.table, init, failing));
      var sh' := sh.(table := RollbackAll(sh.table, jobs, failing));
      TransactionsKeepAttempted(mid.table, "", [], Last(jobs).token);
      forall s | s in sh'.starts ensures StartOk(sh', s) { assert StartOk(mid, s); }
      assert Evolves(mid, sh', origin);
      EvolvesTrans(sh, mid, sh', origin);
    }
  }

  lemma DoneCallbackInv(n: Node, w: WorkerId, startFails: bool, rollbackFails: set<Token>)
    requires NodeInv(n) && Known(n.local, w) && n.local.workers[w].phase == Ended
    ensures var m := Step(n, DoneCallback(w, startFails, rollbackFails));
      NodeInv(m) && m.me == n.me && Evolves(n.shared, m.shared, Origin(n.me, n.local.workers[w].incident))
  {
    EvolvesRefl(n.shared, Origin(n.me, n.local.workers[w].incident));
    if QueueOf(n.local, w).worker != Some(w) {
      ForgetStep(n, w, startFails, rollbackFails);
      ForgottenInv(n, w);
    } else {
      assert WorkerOk(n.local, w);
      if QueueOf(n.local, w).deferred != [] && !startFails {
        RestartStep(n, w, rollbackFails);
        RestartInv(n, w);
      } else {
        ReleaseInv(n, w, startFails, rollbackFails);
      }
    }
  }

  /** A worker that its queue no longer names is only forgotten. */
  ghost function Forgotten(l: Local, w: WorkerId): Local {
    l.(workers := l.workers - {w})
  }

  lemma ForgetStep(n: Node, w: WorkerId, startFails: bool, rollbackFails: set<Token>)
    requires Known(n.local, w) && n.local.workers[w].phase == Ended && QueueOf(n.local, w).worker != Some(w)
    ensures Step(n, DoneCallback(w, startFails, rollbackFails)) == n.(local := Forgotten(n.local, w))
  {
  }

  lemma ForgottenLinked(l: Local, w: WorkerId)
    requires Linked(l) && Known(l, w) && QueueOf(l, w).worker != Some(w)
    ensures Linked(Forgotten(l, w)) && forall j :: j in l.queues ==> SameQueue(l, Forgotten(l, w), j)
  {
    var l' := Forgotten(l, w);
    forall j | j in l.queues ensures SameQueue(l, l', j) { assert HasWorker(l, j); }
    forall v | v in l'.workers ensures WorkerOk(l', v) { assert WorkerOk(l, v); }
  }

  lemma ForgottenInv(n: Node, w: WorkerId)
    requires NodeInv(n) && Known(n.local, w) && QueueOf(n.local, w).worker != Some(w)
    ensures NodeInv(n.(local := Forgotten(n.local, w)))
  {
    var l, l' := n.local, Forgotten(n.local, w);
    ForgottenLinked(l, w);
    forall j | j in l.queues ensures JobsOk(n.shared, Origin(n.me, j), Held(l', j), Waiting(l', j)) {
      assert SameQueue(l, l', j);
    }
    forall t | t in l'.undecided ensures Placed(n.me, n.shared, l', t) {
      assert Placed(n.me, n.shared, l, t);
      assert SameQueue(l, l', n.shared.issued[t].incident);
    }
  }

  /** The local state once an ended worker's queue is relaunched for its deferred jobs. */
  ghost function Restarted(l: Local, w: WorkerId): Local
    requires Bound(l, w)
  {
    var q := QueueOf(l, w);
    var r := Launch(Decide(l, Tokens(q.pending)), l.workers[w].incident, l.workers[w].queue, q.deferred);
    r.(workers := r.workers - {w})
  }

  lemma RestartedLinked(l: Local, w: WorkerId)
    requires Linked(l) && Bound(l, w)
    ensures var i, q, l' := l.workers[w].incident, QueueOf(l, w), Restarted(l, w);
      && Linked(l') && l'.queues == l.queues && i in l.queues
      && l'.undecided == l.undecided - Tokens(q.pending)
      && QueueFor(l', i) == Queue(q.deferred, [], Some(l.next))
      && WorkerFor(l', i) == Worker(i, l.queues[i], Ready, false)
      && Held(l', i) == [] && Waiting(l', i) == Items(l', i) == q.deferred
      && forall j :: j in l.queues && j != i ==> SameQueue(l, l', j)
  {
    var d := Decide(l, Tokens(QueueOf(l, w).pending));
    DecideLinked(l, Tokens(QueueOf(l, w).pending));
    RelaunchLinked(d, w, QueueOf(l, w).deferred);
    forall j | j in l.queues && j != l.workers[w].incident ensures SameQueue(l, Restarted(l, w), j) {
      assert SameQueue(l, d, j) && SameQueue(d, Restarted(l, w), j);
    }
  }

  lemma RestartStep(n: Node, w: WorkerId, rollbackFails: set<Token>)
    requires Bound(n.local, w) && n.local.workers[w].phase == Ended && QueueOf(n.local, w).deferred != []
    ensures Step(n, DoneCallback(w, false, rollbackFails)) == n.(local := Restarted(n.local, w))
  {
  }

  lemma RestartInv(n: Node, w: WorkerId)
    requires NodeInv(n) && Bound(n.local, w) && n.local.workers[w].phase == Ended
    ensures NodeInv(n.(local := Restarted(n.local, w)))
  {
    ItemsOfEnded(n.local, w);
    RestartedLinked(n.local, w);
    KeepSuffix(n.me, n.shared, n.local, Restarted(n.local, w), n.local.workers[w].incident, QueueOf(n.local, w).pending);
  }

  lemma SuffixDistinct(a: seq<Job>, b: seq<Job>)
    requires DistinctTokens(a + b)
    ensures DistinctTokens(b)
  {
    forall i, j | 0 <= i < j < |b| ensures b[i].token != b[j].token {
      assert (a + b)[|a| + i] == b[i] && (a + b)[|a| + j] == b[j];
    }
  }

  /** The jobs before a suffix are settled; the suffix keeps waiting. */
  lemma KeepSuffix(me: nat, sh: Shared, l: Local, l': Local, i: string, settled: seq<Job>)
    requires SharedInv(sh) && LocalInv(me, sh, l) && Linked(l') && i in l.queues && i in l'.queues
    requires forall j :: j in l.queues && j != i ==> SameQueue(l, l', j)
    requires l'.queues == l.queues && l'.undecided == l.undecided - Tokens(settled)
    requires Held(l, i) == [] && Held(l', i) == []
    requires Waiting(l, i) == settled + Waiting(l', i)
    ensures LocalInv(me, sh, l')
  {
    var rest := Waiting(l', i);
    assert JobsOk(sh, Origin(me, i), Held(l, i), Waiting(l, i));
    assert Items(l, i) == settled + rest && Items(l', i) == rest;
    SuffixDistinct(settled, rest);
    EvolvesRefl(sh, Origin(me, i));
    Assemble(me, sh, sh, l, l', i);
  }

  /** The local state once the queue of worker `w` is closed; its deferred jobs are rolled back. */
  ghost function Released(l: Local, w: WorkerId): Local
    requires Bound(l, w)
  {
    var c := Closed(l, w);
    var q := QueueOf(l, w);
    if q.deferred == [] then c else Decide(c, Tokens(q.deferred))
  }

  lemma ReleaseStep(n: Node, w: WorkerId, startFails: bool, rollbackFails: set<Token>)
    requires NodeInv(n) && Bound(n.local, w) && n.local.workers[w].phase == Ended
    requires QueueOf(n.local, w).deferred == [] || startFails
    ensures var deferred := QueueOf(n.local, w).deferred;
      Step(n, DoneCallback(w, startFails, rollbackFails))
      == Node(n.me, n.shared.(table := RollbackAll(n.shared.table, deferred, rollbackFails)), Released(n.local, w))
  {
  }

  /** The worker's queue is closed, with its waiting jobs still undecided. */
  ghost function Closed(l: Local, w: WorkerId): Local
    requires Bound(l, w)
  {
    var u := Unregister(Decide(l, Tokens(QueueOf(l, w).pending)), l.workers[w].incident, l.workers[w].queue);
    u.(workers := u.workers - {w})
  }

  lemma ClosedLinked(l: Local, w: WorkerId)
    requires Linked(l) && Bound(l, w)
    ensures var c := Closed(l, w); var i := l.workers[w].incident;
      && Linked(c) && c.queues == l.queues - {i}
      && c.undecided == l.undecided - Tokens(QueueOf(l, w).pending)
      && forall j :: j in l.queues && j != i ==> SameQueue(l, c, j)
  {
    var d := Decide(l, Tokens(QueueOf(l, w).pending));
    DecideLinked(l, Tokens(QueueOf(l, w).pending));
    UnregisterLinked(d, w);
    forall j | j in l.queues && j != l.workers[w].incident ensures SameQueue(l, Closed(l, w), j) {
      assert SameQueue(l, d, j) && SameQueue(d, Closed(l, w), j);
    }
  }

  lemma ReleasedLinked(l: Local, w: WorkerId)
    requires Linked(l) && Bound(l, w)
    ensures var l' := Released(l, w); var i := l.workers[w].incident; var q := QueueOf(l, w);
      && Linked(l') && l'.queues == l.queues - {i}
      && l'.undecided == l.undecided - Tokens(q.pending) - Tokens(q.deferred)
      && forall j :: j in l.queues && j != i ==> SameQueue(l, l', j)
  {
    var c := Closed(l, w);
    ClosedLinked(l, w);
    DecideLinked(c, Tokens(QueueOf(l, w).deferred));
    forall j | j in l.queues && j != l.workers[w].incident ensures SameQueue(l, Released(l, w), j) {
      assert SameQueue(l, c, j);
    }
  }

  lemma ItemsOfEnded(l: Local, w: WorkerId)
    requires Linked(l) && Bound(l, w) && l.workers[w].phase == Ended
    ensures var i := l.workers[w].incident; var q := QueueOf(l, w);
      && HasWorker(l, i) && QueueFor(l, i) == q && WorkerFor(l, i) == l.workers[w]
      && Items(l, i) == q.pending + q.deferred
      && Tokens(Items(l, i)) == Tokens(q.pending) + Tokens(q.deferred)
  {
  }

  lemma ReleaseInv(n: Node, w: WorkerId, startFails: bool, rollbackFails: set<Token>)
    requires NodeInv(n) && Bound(n.local, w) && n.local.workers[w].phase == Ended
    requires QueueOf(n.local, w).deferred == [] || startFails
    ensures var m := Step(n, DoneCallback(w, startFails, rollbackFails));
      NodeInv(m) && Evolves(n.shared, m.shared, Origin(n.me, n.local.workers[w].incident))
  {
    var i := n.local.workers[w].incident;
    ItemsOfEnded(n.local, w);
    ReleaseStep(n, w, startFails, rollbackFails);
    ReleasedLinked(n.local, w);
    ReleaseAll(n.me, n.shared, n.local, Released(n.local, w), i, QueueOf(n.local, w).deferred, rollbackFails);
  }

  /** All jobs of the incident are settled and its queue is gone. */
  lemma ReleaseAll(me: nat, sh: Shared, l: Local, l': Local, i: string, failed: seq<Job>, rollbackFails: set<Token>)
    requires SharedInv(sh) && LocalInv(me, sh, l) && Linked(l') && i in l.queues
    requires forall j :: j in l.queues && j != i ==> SameQueue(l, l', j)
    requires l'.queues == l.queues - {i} && l'.undecided == l.undecided - Tokens(Items(l, i))
    requires forall x :: x in failed ==> x in Waiting(l, i)
    ensures var sh' := sh.(table := RollbackAll(sh.table, failed, rollbackFails));
      SharedInv(sh') && LocalInv(me, sh', l') && Evolves(sh, sh', Origin(me, i))
  {
    assert JobsOk(sh, Origin(me, i), Held(l, i), Waiting(l, i));
    RollbackAllShared(sh, failed, rollbackFails, Origin(me, i));
    Assemble(me, sh, sh.(table := RollbackAll(sh.table, failed, rollbackFails)), l, l', i);
  }

  // ---- submit ----

  /** The next token is drawn; existing rows stay, new rows carry the new token. */
  lemma SharedGrows(sh: Shared, sh': Shared, origin: Origin)
    requires SharedInv(sh) && sh'.starts == sh.starts && sh'.clock == sh.clock + 1
    requires sh'.issued == sh.issued || sh'.issued == sh.issued[sh.clock := origin]
    requires forall k :: k in sh.table ==> k in sh'.table && sh'.table[k] == sh.table[k]
    requires forall k :: k in sh'.table && k !in sh.table ==> sh'.table[k].token == sh.clock && sh.clock in sh'.issued
    ensures SharedInv(sh') && Evolves(sh, sh', origin)
  {
  }

  ghost function Admitted(me: nat, sh: Shared, batch: Batch): Shared {
    sh.(clock := sh.clock + 1, table := Admit(sh.table, batch.incident, AdmissionKeys(batch), sh.clock),
        issued := sh.issued[sh.clock := Origin(me, batch.incident)])
  }

  ghost function Undone(me: nat, sh: Shared, batch: Batch): Shared {
    Admitted(me, sh, batch).(table := Rollback(Admitted(me, sh, batch).table, sh.clock))
  }

  ghost predicate Grown(sh: Shared, sh': Shared, origin: Origin) {
    && SharedInv(sh') && Evolves(sh, sh', origin) && sh'.starts == sh.starts
    && forall k :: k in sh.table ==> k in sh'.table && sh'.table[k] == sh.table[k]
  }

  lemma AdmitShared(me: nat, sh: Shared, batch: Batch)
    requires SharedInv(sh)
    ensures Grown(sh, Admitted(me, sh, batch), Origin(me, batch.incident))
    ensures Grown(sh, Undone(me, sh, batch), Origin(me, batch.incident))
    ensures Grown(sh, sh.(clock := sh.clock + 1), Origin(me, batch.incident))
  {
    var origin := Origin(me, batch.incident);
    SharedGrows(sh, Admitted(me, sh, batch), origin);
    forall k | k in sh.table
      ensures k in Undone(me, sh, batch).table && Undone(me, sh, batch).table[k] == sh.table[k]
    {
      assert sh.table[k].token in sh.issued;
    }
    SharedGrows(sh, Undone(me, sh, batch), origin);
    SharedGrows(sh, sh.(clock := sh.clock + 1), origin);
  }

  /** The job built by submit belongs to this admission and can be started. */
  lemma JobForOk(me: nat, sh: Shared, batch: Batch)
    requires SharedInv(sh) && FreshKeys(sh.table, AdmissionKeys(batch)) != []
    ensures var job := JobFor(sh.table, sh.clock, batch); var admitted := Admitted(me, sh, batch);
      && JobOk(admitted, Origin(me, batch.incident), job) && Startable(admitted, job)
      && job.token == sh.clock && job.incident == batch.incident
  {
  }

  /** Waiting jobs of the same incident are not disturbed by an admission. */
  lemma OldJobsStay(sh: Shared, sh': Shared, origin: Origin, held: seq<Job>, waiting: seq<Job>)
    requires SharedInv(sh) && JobsOk(sh, origin, held, waiting)
    requires sh'.starts == sh.starts
    requires forall k :: k in sh.table ==> k in sh'.table && sh'.table[k] == sh.table[k]
    requires forall t :: t in sh.issued ==> t in sh'.issued && sh'.issued[t] == sh.issued[t]
    ensures JobsOk(sh', origin, held, waiting)
    ensures forall x :: x in held + waiting ==> x.token < sh.clock
  {
  }

  /** One more job at the end of the waiting jobs, or between pending and deferred. */
  lemma InsertJob(sh: Shared, origin: Origin, held: seq<Job>, front: seq<Job>, back: seq<Job>, job: Job)
    requires JobsOk(sh, origin, held, front + back)
    requires JobOk(sh, origin, job) && Startable(sh, job)
    requires forall x :: x in held + (front + back) ==> x.token != job.token
    ensures JobsOk(sh, origin, held, front + [job] + back)
  {
    var was := held + (front + back);
    var now := held + (front + [job] + back);
    var at := |held| + |front|;
    forall a | 0 <= a < |now| ensures now[a] == if a < at then was[a] else if a == at then job else was[a - 1] {
    }
    forall x | x in front + [job] + back ensures x == job || x in front + back {
    }
    forall a, b | 0 <= a < b < |now| ensures now[a].token != now[b].token {
      if a == at {
        assert was[b - 1] in was;
      } else if b == at {
        assert was[a] in was;
      } else {
        var a', b' := if a < at then a else a - 1, if b < at then b else b - 1;
        assert now[a] == was[a'] && now[b] == was[b'];
        assert was[a'].token != was[b'].token;
      }
    }
  }

  /** The job joins the queue of an incident that is already being handled. */
  lemma AppendInv(n: Node, sh: Shared, job: Job)
    requires SharedInv(n.shared) && LocalInv(n.me, n.shared, n.local) && job.incident in n.local.queues
    requires Grown(n.shared, sh, Origin(n.me, job.incident))
    requires JobOk(sh, Origin(n.me, job.incident), job) && Startable(sh, job) && job.token == n.shared.clock
    ensures HasWorker(n.local, job.incident)
    ensures LocalInv(n.me, sh, Append(n.local, n.local.queues[job.incident], job))
  {
    var l := n.local;
    var i := job.incident;
    assert HasWorker(l, i);
    var q := QueueFor(l, i);
    AppendLinked(l, q.worker.value, job);
    var l' := Append(l, l.queues[i], job);
    JoinedAt(q.pending, q.deferred, job);
    if DoneOrCancelling(l, q.worker.value) {
      InsertInv(n, sh, job, l', Waiting(l, i), []);
    } else {
      InsertInv(n, sh, job, l', q.pending, q.deferred);
    }
  }

  /** Behind the deferred jobs is behind all of them. */
  lemma JoinedAt(pending: seq<Job>, deferred: seq<Job>, job: Job)
    ensures pending + deferred == pending + deferred + []
    ensures pending + (deferred + [job]) == pending + deferred + [job] + []
  {
  }

  lemma InsertInv(n: Node, sh: Shared, job: Job, l': Local, front: seq<Job>, back: seq<Job>)
    requires SharedInv(n.shared) && LocalInv(n.me, n.shared, n.local) && job.incident in n.local.queues
    requires Grown(n.shared, sh, Origin(n.me, job.incident))
    requires JobOk(sh, Origin(n.me, job.incident), job) && Startable(sh, job) && job.token == n.shared.clock
    requires Linked(l') && l'.queues == n.local.queues && l'.undecided == n.local.undecided + {job.token}
    requires forall j :: j in n.local.queues && j != job.incident ==> SameQueue(n.local, l', j)
    requires Held(l', job.incident) == Held(n.local, job.incident)
    requires Waiting(n.local, job.incident) == front + back
    requires Waiting(l', job.incident) == front + [job] + back
    ensures LocalInv(n.me, sh, l')
  {
    var l := n.local;
    var i := job.incident;
    assert JobsOk(n.shared, Origin(n.me, i), Held(l, i), Waiting(l, i));
    OldJobsStay(n.shared, sh, Origin(n.me, i), Held(l, i), Waiting(l, i));
    InsertJob(sh, Origin(n.me, i), Held(l, i), front, back, job);
    assert job in Items(l', i);
    forall x | x in Items(l, i) ensures x in Items(l', i) {
    }
    Assemble(n.me, n.shared, sh, l, l', i);
  }

  lemma AppendLinked(l: Local, w: WorkerId, job: Job)
    requires Linked(l) && job.incident in l.queues && HasWorker(l, job.incident)
    requires w == QueueFor(l, job.incident).worker.value
    ensures var i := job.incident; var l' := Append(l, l.queues[i], job);
      && Linked(l') && l'.queues == l.queues && HasWorker(l', i)
      && Held(l', i) == Held(l, i)
      && QueueFor(l', i) == (if DoneOrCancelling(l, w) then QueueFor(l, i).(deferred := QueueFor(l, i).deferred + [job])
                             else QueueFor(l, i).(pending := QueueFor(l, i).pending + [job]))
      && forall j :: j in l.queues && j != i ==> SameQueue(l, l', j)
  {
    var i := job.incident;
    var l' := Append(l, l.queues[i], job);
    forall j | j in l.queues && j != i ensures SameQueue(l, l', j) {
      DistinctQueues(l, i, j);
      assert HasWorker(l, j);
    }
    forall v | v in l'.workers ensures WorkerOk(l', v) {
      assert WorkerOk(l, v);
    }
  }

  lemma OpenInv(n: Node, sh: Shared, job: Job)
    requires SharedInv(n.shared) && LocalInv(n.me, n.shared, n.local) && job.incident !in n.local.queues
    requires Evolves(n.shared, sh, Origin(n.me, job.incident)) && SharedInv(sh)
    requires JobOk(sh, Origin(n.me, job.incident), job) && Startable(sh, job)
    ensures LocalInv(n.me, sh, Open(n.local, job))
  {
    var l' := Open(n.local, job);
    OpenLinked(n.local, job);
    assert Held(l', job.incident) == [] && Waiting(l', job.incident) == [job];
    Assemble(n.me, n.shared, sh, n.local, l', job.incident);
  }

  lemma FailedOpenInv(n: Node, sh: Shared, job: Job)
    requires SharedInv(n.shared) && LocalInv(n.me, n.shared, n.local) && job.incident !in n.local.queues
    requires Evolves(n.shared, sh, Origin(n.me, job.incident)) && SharedInv(sh)
    ensures LocalInv(n.me, sh, FailedOpen(n.local, job))
  {
    FailedOpenLinked(n.local, job);
    Assemble(n.me, n.shared, sh, n.local, FailedOpen(n.local, job), job.incident);
  }

  lemma EnqueueInv(n: Node, sh: Shared, undone: Shared, job: Job, startFails: bool)
    requires SharedInv(n.shared) && LocalInv(n.me, n.shared, n.local)
    requires Grown(n.shared, sh, Origin(n.me, job.incident)) && Grown(n.shared, undone, Origin(n.me, job.incident))
    requires JobOk(sh, Origin(n.me, job.incident), job) && Startable(sh, job) && job.token == n.shared.clock
    ensures var m := EnqueueStep(n.(shared := sh), undone, job, startFails);
      NodeInv(m) && m.me == n.me && Evolves(n.shared, m.shared, Origin(n.me, job.incident))
  {
    if job.incident in n.local.queues {
      AppendInv(n, sh, job);
    } else if startFails {
      FailedOpenInv(n, undone, job);
    } else {
      OpenInv(n, sh, job);
    }
  }

  /** The five ways through `submit`. */
  ghost predicate SubmitOutcome(n: Node, batch: Batch, faults: Faults, m: Node) {
    var sh := n.shared;
    var undone := if faults.rollback then Admitted(n.me, sh, batch) else Undone(n.me, sh, batch);
    if AdmissionKeys(batch) == [] then m == n
    else if faults.admit || FreshKeys(sh.table, AdmissionKeys(batch)) == [] then
      m == n.(shared := sh.(clock := sh.clock + 1))
    else if faults.prepare then m == n.(shared := undone)
    else m == EnqueueStep(n.(shared := Admitted(n.me, sh, batch)), undone,
                          JobFor(sh.table, sh.clock, batch), faults.start)
  }

  lemma SubmitCases(n: Node, batch: Batch, faults: Faults)
    ensures SubmitOutcome(n, batch, faults, SubmitStep(n, batch, faults))
  {
  }

  ghost predicate StepOk(n: Node, m: Node, i: string) {
    NodeInv(m) && m.me == n.me && Evolves(n.shared, m.shared, Origin(n.me, i))
  }

  lemma SubmitNothing(n: Node, batch: Batch, faults: Faults)
    requires NodeInv(n)
    ensures StepOk(n, n, batch.incident)
    ensures StepOk(n, n.(shared := n.shared.(clock := n.shared.clock + 1)), batch.incident)
  {
  }

  lemma SubmitUnprepared(n: Node, batch: Batch, rolledBack: bool)
    requires NodeInv(n)
    ensures StepOk(n, n.(shared := if rolledBack then Undone(n.me, n.shared, batch) else Admitted(n.me, n.shared, batch)),
                   batch.incident)
  {
    AdmitShared(n.me, n.shared, batch);
    if rolledBack {
      SameLocal(n, Undone(n.me, n.shared, batch), batch.incident);
    } else {
      SameLocal(n, Admitted(n.me, n.shared, batch), batch.incident);
    }
  }

  lemma SubmitEnqueues(n: Node, batch: Batch, faults: Faults)
    requires NodeInv(n) && FreshKeys(n.shared.table, AdmissionKeys(batch)) != []
    ensures var undone := if faults.rollback then Admitted(n.me, n.shared, batch) else Undone(n.me, n.shared, batch);
      StepOk(n, EnqueueStep(n.(shared := Admitted(n.me, n.shared, batch)), undone,
                            JobFor(n.shared.table, n.shared.clock, batch), faults.start), batch.incident)
  {
    AdmitShared(n.me, n.shared, batch);
    JobForOk(n.me, n.shared, batch);
    var undone := if faults.rollback then Admitted(n.me, n.shared, batch) else Undone(n.me, n.shared, batch);
    EnqueueInv(n, Admitted(n.me, n.shared, batch), undone, JobFor(n.shared.table, n.shared.clock, batch), faults.start);
  }

  lemma SubmitOutcomeInv(n: Node, batch: Batch, faults: Faults, m: Node)
    requires NodeInv(n) && SubmitOutcome(n, batch, faults, m)
    ensures StepOk(n, m, batch.incident)
  {
    SubmitNothing(n, batch, faults);
    SubmitUnprepared(n, batch, !faults.rollback);
    if FreshKeys(n.shared.table, AdmissionKeys(batch)) != [] {
      SubmitEnqueues(n, batch, faults);
    }
  }

  lemma SubmitInv(n: Node, batch: Batch, faults: Faults)
    requires NodeInv(n)
    ensures StepOk(n, SubmitStep(n, batch, faults), batch.incident)
  {
    SubmitCases(n, batch, faults);
    SubmitOutcomeInv(n, batch, faults, SubmitStep(n, batch, faults));
  }

  lemma SameLocal(n: Node, sh: Shared, i: string)
    requires NodeInv(n) && Grown(n.shared, sh, Origin(n.me, i))
    ensures NodeInv(n.(shared := sh))
  {
    var l := n.local;
    forall j | j in l.queues ensures JobsOk(sh, Origin(n.me, j), Held(l, j), Waiting(l, j)) {
      OldJobsStay(n.shared, sh, Origin(n.me, j), Held(l, j), Waiting(l, j));
    }
    forall t | t in l.undecided ensures Placed(n.me, sh, l, t) {
      assert Placed(n.me, n.shared, l, t);
    }
  }
}
