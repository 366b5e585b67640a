/** What every event of the dispatcher keeps. */
module DispatchInvariant {
  import opened Basics
  import opened Admission
  import opened Dispatch

  // ---- the invariant ----

  /** The worker is the one its queue names, and the queue is the one its incident names. */
  ghost predicate Bound(l: Local, w: WorkerId) {
    Known(l, w) && Registered(l, w) && QueueOf(l, w).worker == Some(w)
  }

  ghost predicate HasWorker(l: Local, i: string)
    requires i in l.queues
  {
    && l.queues[i] in l.heap
    && l.heap[l.queues[i]].worker.Some?
    && var w := l.heap[l.queues[i]].worker.value;
       w in l.workers && l.workers[w].incident == i && l.workers[w].queue == l.queues[i]
  }

  ghost predicate WorkerOk(l: Local, w: WorkerId)
    requires w in l.workers
  {
    && w < l.next
    && l.workers[w].queue in l.heap
    && (l.workers[w].phase != Ended || QueueOf(l, w).worker == Some(w) ==> Bound(l, w))
  }

  ghost predicate Linked(l: Local) {
    && (forall i :: i in l.queues ==> HasWorker(l, i))
    && (forall w :: w in l.workers ==> WorkerOk(l, w))
    && (forall q :: q in l.heap ==> q < l.next)
    && (forall i :: i in l.active ==> (l.active[i] <==> i in l.queues))
  }

  /** The queue registered for `i`, the worker draining it, and what that worker holds. */
  ghost function QueueFor(l: Local, i: string): Queue
    requires i in l.queues && HasWorker(l, i)
  {
    l.heap[l.queues[i]]
  }

  ghost function WorkerFor(l: Local, i: string): Worker
    requires i in l.queues && HasWorker(l, i)
  {
    l.workers[QueueFor(l, i).worker.value]
  }

  ghost function Held(l: Local, i: string): seq<Job>
    requires i in l.queues && HasWorker(l, i)
  {
    if WorkerFor(l, i).phase.Handling? then [WorkerFor(l, i).phase.job] else []
  }

  ghost function Waiting(l: Local, i: string): seq<Job>
    requires i in l.queues && HasWorker(l, i)
  {
    QueueFor(l, i).pending + QueueFor(l, i).deferred
  }

  ghost function Items(l: Local, i: string): seq<Job>
    requires i in l.queues && HasWorker(l, i)
  {
    Held(l, i) + Waiting(l, i)
  }

  ghost predicate DistinctTokens(jobs: seq<Job>) {
    forall a, b :: 0 <= a < b < |jobs| ==> jobs[a].token != jobs[b].token
  }

  ghost predicate JobOk(sh: Shared, origin: Origin, job: Job) {
    && job.token in sh.issued && sh.issued[job.token] == origin
    && job.incident == origin.incident
    && job.keys != []
  }

  /** A waiting job can still be started: its rows are queued under its token, and it never started. */
  ghost predicate Startable(sh: Shared, job: Job) {
    && (forall k :: k in job.keys ==> k in sh.table && sh.table[k] == Row(job.incident, false, job.token))
    && (forall s :: s in sh.starts ==> s.job.token != job.token)
  }

  ghost predicate JobsOk(sh: Shared, origin: Origin, held: seq<Job>, waiting: seq<Job>) {
    && (forall x :: x in held ==> JobOk(sh, origin, x))
    && (forall x :: x in waiting ==> JobOk(sh, origin, x) && Startable(sh, x))
    && DistinctTokens(held + waiting)
  }

  ghost predicate QueuesOk(me: nat, sh: Shared, l: Local)
    requires Linked(l)
  {
    forall i :: i in l.queues ==> JobsOk(sh, Origin(me, i), Held(l, i), Waiting(l, i))
  }

  /** No orphans: an undecided completion is held by, or waits in, its incident's registered queue. */
  ghost predicate Placed(me: nat, sh: Shared, l: Local, t: Token)
    requires Linked(l)
  {
    && t in sh.issued && sh.issued[t].owner == me
    && sh.issued[t].incident in l.queues
    && t in Tokens(Items(l, sh.issued[t].incident))
  }

  ghost predicate NoOrphans(me: nat, sh: Shared, l: Local)
    requires Linked(l)
  {
    forall t :: t in l.undecided ==> Placed(me, sh, l, t)
  }

  ghost predicate LocalInv(me: nat, sh: Shared, l: Local) {
    Linked(l) && QueuesOk(me, sh, l) && NoOrphans(me, sh, l)
  }

  ghost predicate StartOk(sh: Shared, s: Start) {
    && JobOk(sh, Origin(s.owner, s.job.incident), s.job)
    && forall k :: k in s.job.keys ==> k in sh.table && sh.table[k] == Row(s.job.incident, true, s.job.token)
  }

  ghost predicate DisjointKeys(a: Job, b: Job) {
    forall k :: k in a.keys ==> k !in b.keys
  }

  ghost predicate SharedInv(sh: Shared) {
    && sh.clock >= 1
    && (forall t :: t in sh.issued ==> 1 <= t < sh.clock)
    && (forall k :: k in sh.table ==> sh.table[k].token in sh.issued)
    && (forall s :: s in sh.starts ==> StartOk(sh, s))
    && (forall a, b :: 0 <= a < b < |sh.starts| ==> DisjointKeys(sh.starts[a].job, sh.starts[b].job))
  }

  ghost predicate NodeInv(n: Node) {
    SharedInv(n.shared) && LocalInv(n.me, n.shared, n.local)
  }

  // ---- how the shared part may change, seen by everyone else ----

  /** Rows, tokens and handler calls of other origins than `origin` are untouched. */
  ghost predicate Evolves(sh: Shared, sh': Shared, origin: Origin) {
    && sh.clock <= sh'.clock
    && (forall t :: t in sh.issued ==> t in sh'.issued && sh'.issued[t] == sh.issued[t])
    && (forall k :: k in sh.table && sh.table[k].token in sh.issued && sh.issued[sh.table[k].token] != origin ==>
          k in sh'.table && sh'.table[k] == sh.table[k])
    && (forall s :: s in sh'.starts && s !in sh.starts ==>
          s.job.token in sh'.issued && sh'.issued[s.job.token] == origin)
    && KeepsAttempted(sh.table, sh'.table)
  }

  lemma JobsOkFrame(sh: Shared, sh': Shared, origin: Origin, other: Origin, held: seq<Job>, waiting: seq<Job>)
    requires Evolves(sh, sh', origin) && other != origin
    requires JobsOk(sh, other, held, waiting)
    ensures JobsOk(sh', other, held, waiting)
  {
  }

  /** Another dispatcher's step keeps this dispatcher's invariant. */
  lemma OtherDispatcherFrame(me: nat, sh: Shared, sh': Shared, l: Local, origin: Origin)
    requires LocalInv(me, sh, l) && Evolves(sh, sh', origin) && origin.owner != me
    ensures LocalInv(me, sh', l)
  {
    forall i | i in l.queues ensures JobsOk(sh', Origin(me, i), Held(l, i), Waiting(l, i)) {
      JobsOkFrame(sh, sh', origin, Origin(me, i), Held(l, i), Waiting(l, i));
    }
    forall t | t in l.undecided ensures Placed(me, sh', l, t) {
      assert Placed(me, sh, l, t);
    }
  }

  // ---- the local building blocks ----

  lemma DistinctQueues(l: Local, i: string, j: string)
    requires Linked(l) && i in l.queues && j in l.queues && i != j
    ensures l.queues[i] != l.queues[j]
  {
  }

  /** Incidents whose queue and worker did not change. */
  ghost predicate SameQueue(l: Local, l': Local, j: string) {
    && j in l.queues && j in l'.queues && HasWorker(l, j) && HasWorker(l', j)
    && QueueFor(l', j) == QueueFor(l, j) && WorkerFor(l', j) == WorkerFor(l, j)
  }

  /** Changing one bound worker's phase and queue contents (the queue keeps its worker). */
  lemma TouchLinked(l: Local, w: WorkerId, queue: Queue, phase: Phase)
    requires Linked(l) && Bound(l, w) && queue.worker == Some(w)
    ensures var l' := Touch(l, w, queue, phase); var i := l.workers[w].incident;
      && Linked(l') && Bound(l', w) && l'.queues == l.queues && l'.undecided == l.undecided
      && i in l'.queues && QueueFor(l', i) == queue && WorkerFor(l', i) == l.workers[w].(phase := phase)
      && forall j :: j in l.queues && j != i ==> SameQueue(l, l', j)
  {
  }

  /** TouchLinked, with some completions decided at the same time. */
  lemma RewriteLinked(l: Local, w: WorkerId, queue: Queue, phase: Phase, tokens: set<Token>)
    requires Linked(l) && Bound(l, w) && queue.worker == Some(w)
    ensures var l' := Decide(Touch(l, w, queue, phase), tokens); var i := l.workers[w].incident;
      && Linked(l') && Bound(l', w) && l'.queues == l.queues
      && i in l.queues && i in l'.queues
      && QueueFor(l', i) == queue && WorkerFor(l', i) == l.workers[w].(phase := phase)
      && Held(l', i) == (if phase.Handling? then [phase.job] else [])
      && Waiting(l', i) == queue.pending + queue.deferred
      && forall j :: j in l.queues && j != i ==> SameQueue(l, l', j)
  {
    TouchLinked(l, w, queue, phase);
    DecideLinked(Touch(l, w, queue, phase), tokens);
    var t := Touch(l, w, queue, phase);
    var l' := Decide(t, tokens);
    var i := l.workers[w].incident;
    assert SameQueue(t, l', i);
    forall j | j in l.queues && j != i ensures SameQueue(l, l', j) {
      assert SameQueue(l, t, j) && SameQueue(t, l', j);
    }
  }

  lemma DecideLinked(l: Local, tokens: set<Token>)
    requires Linked(l)
    ensures Linked(Decide(l, tokens))
    ensures forall j :: j in l.queues ==> SameQueue(l, Decide(l, tokens), j)
    ensures forall w :: Bound(l, w) ==> Bound(Decide(l, tokens), w)
  {
  }

  /** Unregistering the queue of a bound worker, which is done or about to be. */
  lemma UnregisterLinked(l: Local, w: WorkerId)
    requires Linked(l) && Bound(l, w)
    ensures var i := l.workers[w].incident; var u := Unregister(l, i, l.workers[w].queue);
      var ended := u.(workers := u.workers[w := l.workers[w].(phase := Ended)]);
      var gone := u.(workers := u.workers - {w});
      && Linked(ended) && Linked(gone)
      && ended.queues == gone.queues == l.queues - {i}
      && forall j :: j in l.queues && j != i ==> SameQueue(l, ended, j) && SameQueue(l, gone, j)
  {
    var u := Unregister(l, l.workers[w].incident, l.workers[w].queue);
    WithoutQueue(l, w, u.(workers := u.workers[w := l.workers[w].(phase := Ended)]));
    WithoutQueue(l, w, u.(workers := u.workers - {w}));
  }

  /** The queue is unregistered, and its worker has ended or is gone. */
  lemma WithoutQueue(l: Local, w: WorkerId, l': Local)
    requires Linked(l) && Bound(l, w)
    requires l' == Unregister(l, l.workers[w].incident, l.workers[w].queue).(workers := l'.workers)
    requires l'.workers - {w} == l.workers - {w}
    requires w in l'.workers ==> l'.workers[w] == l.workers[w].(phase := Ended)
    ensures Linked(l') && forall j :: j in l.queues && j != l.workers[w].incident ==> SameQueue(l, l', j)
  {
    var i := l.workers[w].incident;
    forall v | v in l.workers && v != w ensures v in l'.workers && l'.workers[v] == l.workers[v] {
      assert v in l.workers - {w} && (l'.workers - {w})[v] == (l.workers - {w})[v];
    }
    forall j | j in l.queues && j != i ensures SameQueue(l, l', j) {
      DistinctQueues(l, i, j);
      assert HasWorker(l, j);
    }
    forall v | v in l'.workers ensures WorkerOk(l', v) {
      assert v in l.workers by { if v != w { assert v in l'.workers - {w}; } }
      assert WorkerOk(l, v);
      if v != w && Bound(l, v) {
        assert l.workers[v].incident != i;
        DistinctQueues(l, i, l.workers[v].incident);
      }
    }
  }

  /** Restarting a queue with a new worker once the old one is done. */
  lemma RelaunchLinked(l: Local, w: WorkerId, jobs: seq<Job>)
    requires Linked(l) && Bound(l, w)
    ensures var i := l.workers[w].incident; var r := Launch(l, i, l.workers[w].queue, jobs);
      var l' := r.(workers := r.workers - {w});
      && Linked(l') && l'.queues == l.queues && l'.undecided == l.undecided
      && i in l'.queues && QueueFor(l', i) == Queue(jobs, [], Some(l.next))
      && WorkerFor(l', i) == Worker(i, l.queues[i], Ready, false)
      && forall j :: j in l.queues && j != i ==> SameQueue(l, l', j)
  {
    var i := l.workers[w].incident;
    var r := Launch(l, i, l.workers[w].queue, jobs);
    var l' := r.(workers := r.workers - {w});
    assert WorkerOk(l, w);
    forall j | j in l.queues && j != i ensures SameQueue(l, l', j) {
      DistinctQueues(l, i, j);
      assert HasWorker(l, j);
    }
    forall v | v in l'.workers ensures WorkerOk(l', v) {
      if v != l.next {
        assert WorkerOk(l, v);
        if Bound(l, v) {
          assert l.workers[v].incident != i;
          DistinctQueues(l, i, l.workers[v].incident);
        }
      }
    }
    assert HasWorker(l', i);
  }

  /** Registering a new queue for an incident that has none. */
  lemma OpenLinked(l: Local, job: Job)
    requires Linked(l) && job.incident !in l.queues
    ensures var l' := Open(l, job); var i := job.incident;
      && Linked(l') && l'.queues == l.queues[i := l.next]
      && QueueFor(l', i) == Queue([job], [], Some(l.next + 1))
      && WorkerFor(l', i) == Worker(i, l.next, Ready, false)
      && forall j :: j in l.queues ==> SameQueue(l, l', j)
  {
    var l' := Open(l, job);
    var i := job.incident;
    forall v | v in l.workers ensures v in l'.workers && WorkerOk(l', v) {
      assert WorkerOk(l, v);
    }
    forall j | j in l.queues ensures SameQueue(l, l', j) {
      assert HasWorker(l, j);
    }
    assert HasWorker(l', i);
  }

  lemma FailedOpenLinked(l: Local, job: Job)
    requires Linked(l) && job.incident !in l.queues
    ensures var l' := FailedOpen(l, job);
      Linked(l') && l'.queues == l.queues && l'.undecided == l.undecided
      && forall j :: j in l.queues ==> SameQueue(l, l', j)
  {
    var l' := FailedOpen(l, job);
    assert l'.queues == l.queues;
    forall v | v in l.workers ensures WorkerOk(l', v) {
      assert WorkerOk(l, v);
    }
    forall j | j in l.queues ensures SameQueue(l, l', j) {
      assert HasWorker(l, j);
    }
  }

  // ---- putting a changed incident back together with the unchanged ones ----

  /** The invariant after a change to incident `i` only. */
  lemma Assemble(me: nat, sh: Shared, sh': Shared, l: Local, l': Local, i: string)
    requires LocalInv(me, sh, l) && Linked(l') && Evolves(sh, sh', Origin(me, i))
    requires forall j :: j in l.queues && j != i ==> SameQueue(l, l', j)
    requires forall j :: j in l'.queues && j != i ==> j in l.queues
    requires i in l'.queues ==> JobsOk(sh', Origin(me, i), Held(l', i), Waiting(l', i))
    requires forall t :: t in l'.undecided && t !in l.undecided ==>
      t in sh'.issued && sh'.issued[t] == Origin(me, i) && i in l'.queues && t in Tokens(Items(l', i))
    requires i in l.queues ==> forall t :: t in Tokens(Items(l, i)) && t in l'.undecided ==>
      i in l'.queues && t in Tokens(Items(l', i))
    ensures LocalInv(me, sh', l')
  {
    forall j | j in l'.queues ensures JobsOk(sh', Origin(me, j), Held(l', j), Waiting(l', j)) {
      if j != i {
        assert SameQueue(l, l', j);
        JobsOkFrame(sh, sh', Origin(me, i), Origin(me, j), Held(l, j), Waiting(l, j));
      }
    }
    forall t | t in l'.undecided ensures Placed(me, sh', l', t) {
      if t in l.undecided {
        assert Placed(me, sh, l, t);
        var j := sh.issued[t].incident;
        if j != i { assert SameQueue(l, l', j); }
      }
    }
  }

  lemma EvolvesRefl(sh: Shared, origin: Origin)
    ensures Evolves(sh, sh, origin)
  {
  }
}
