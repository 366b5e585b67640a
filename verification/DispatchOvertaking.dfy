/** What a cancellation that is taken back can do: a job deferred before, a later job that overtakes
    it, and a whole run from the start whose handler calls are out of admission order. */
module DispatchOvertaking {
  import opened Basics
  import opened Admission
  import opened Correlator
  import opened Dispatch
  import opened DispatchInvariant
  import opened DispatchSteps
  import opened DispatchSafety
  import opened DispatchOrder
  import opened DispatchDraining

  const NO_FAULTS: Faults := Faults(false, false, false, false)

  /** A fault-free submit to an incident whose worker is handling a job. */
  lemma BusySubmit(n: Node, w: WorkerId, batch: Batch)
    requires NodeInv(n) && Known(n.local, w) && n.local.workers[w].phase.Handling?
    requires batch.incident == n.local.workers[w].incident
    requires FreshKeys(n.shared.table, AdmissionKeys(batch)) != []
    ensures var m := Step(n, Submit(batch, NO_FAULTS));
      var job := JobFor(n.shared.table, n.shared.clock, batch); var q := QueueOf(n.local, w);
      && NodeInv(m) && m.me == n.me && m.shared.starts == n.shared.starts
      && m.shared.clock == n.shared.clock + 1
      && Known(m.local, w) && m.local.workers[w] == n.local.workers[w]
      && QueueOf(m.local, w) == (if n.local.workers[w].cancelling then q.(deferred := q.deferred + [job])
                                 else q.(pending := q.pending + [job]))
  {
    ReadyIsBound(n.local, w);
    StepInv(n, Submit(batch, NO_FAULTS));
    SubmitCases(n, batch, NO_FAULTS);
  }

  lemma SetCancelling(n: Node, w: WorkerId, on: bool)
    requires NodeInv(n) && Known(n.local, w) && n.local.workers[w].phase.Handling?
    ensures var m := Step(n, if on then CancelTask(w) else Uncancel(w));
      && NodeInv(m) && m.me == n.me && m.shared == n.shared && Known(m.local, w)
      && m.local.workers[w] == n.local.workers[w].(cancelling := on)
      && QueueOf(m.local, w) == QueueOf(n.local, w)
  {
    StepInv(n, if on then CancelTask(w) else Uncancel(w));
  }

  /** Cancel, submit, take the cancellation back. */
  ghost function Deferring(n: Node, w: WorkerId, batch: Batch): Node {
    Step(Step(Step(n, CancelTask(w)), Submit(batch, NO_FAULTS)), Uncancel(w))
  }

  lemma DeferringDefers(n: Node, w: WorkerId, batch: Batch)
    requires NodeInv(n) && Known(n.local, w) && n.local.workers[w].phase.Handling?
    requires QueueOf(n.local, w).pending == [] && batch.incident == n.local.workers[w].incident
    requires FreshKeys(n.shared.table, AdmissionKeys(batch)) != []
    ensures var m := Deferring(n, w, batch); var job := JobFor(n.shared.table, n.shared.clock, batch);
      && NodeInv(m) && m.me == n.me && m.shared.starts == n.shared.starts && m.shared.clock == n.shared.clock + 1
      && Known(m.local, w) && m.local.workers[w] == n.local.workers[w].(cancelling := false)
      && QueueOf(m.local, w).pending == [] && job in QueueOf(m.local, w).deferred
  {
    SetCancelling(n, w, true);
    BusySubmit(Step(n, CancelTask(w)), w, batch);
    SetCancelling(Step(Step(n, CancelTask(w)), Submit(batch, NO_FAULTS)), w, false);
  }

  /** After that, a second submit overtakes: whenever a handler is running with nothing pending
      and `waiting` deferred, the later job starts while the earlier one still waits. */
  lemma LaterSubmitOvertakes(m: Node, w: WorkerId, later: Batch, waiting: Job)
    requires NodeInv(m) && Known(m.local, w) && m.local.workers[w].phase.Handling?
    requires !m.local.workers[w].cancelling && later.incident == m.local.workers[w].incident
    requires QueueOf(m.local, w).pending == [] && waiting in QueueOf(m.local, w).deferred
    requires FreshKeys(m.shared.table, AdmissionKeys(later)) != []
    ensures var end := Step(Step(m, Submit(later, NO_FAULTS)), HandlerReturned(w, {}));
      var job := JobFor(m.shared.table, m.shared.clock, later);
      && end.shared.starts == m.shared.starts + [Start(m.me, job)]
      && Known(end.local, w) && waiting in QueueOf(end.local, w).deferred && waiting.token < job.token
  {
    BusySubmit(m, w, later);
    NextStarts(Step(m, Submit(later, NO_FAULTS)), w);
    WaitingIsOlder(m, w, waiting);
  }

  lemma WaitingIsOlder(m: Node, w: WorkerId, waiting: Job)
    requires NodeInv(m) && Known(m.local, w) && m.local.workers[w].phase.Handling?
    requires waiting in QueueOf(m.local, w).deferred
    ensures waiting.token < m.shared.clock
  {
    var i := m.local.workers[w].incident;
    ReadyIsBound(m.local, w);
    assert JobsOk(m.shared, Origin(m.me, i), Held(m.local, i), Waiting(m.local, i));
    assert waiting in Waiting(m.local, i);
  }

  // ---- a whole run ----

  /** The parts of a state that a run keeps track of, around one worker. */
  ghost predicate Scene(n: Node, w: WorkerId, worker: Worker, queue: Queue, next: nat, keys: set<string>) {
    && n.me == 0 && Known(n.local, w) && n.local.workers[w] == worker && QueueOf(n.local, w) == queue
    && n.local.next == next && n.shared.table.Keys == keys
  }

  function One(i: string, key: string, p: Payload): Batch {
    Batch(i, p, [Ref(key, None)])
  }

  lemma OneFresh(t: Table, i: string, key: string, p: Payload)
    requires key !in t
    ensures AdmissionKeys(One(i, key, p)) == [key] && FreshKeys(t, [key]) == [key]
  {
    assert KeysOf([Ref(key, None)]) == [key];
    assert [key][..0] == [] && Dedup([key][..0]) == [] && FreshKeys(t, [key][..0]) == [];
  }

  lemma OneKey(t: Table, token: Token, i: string, key: string, p: Payload)
    requires key !in t
    ensures var b := One(i, key, p);
      && AdmissionKeys(b) == [key] && FreshKeys(t, AdmissionKeys(b)) == [key]
      && JobFor(t, token, b) == Job(i, token, [key], p)
      && Admit(t, i, [key], token).Keys == t.Keys + {key}
  {
    OneFresh(t, i, key, p);
  }

  lemma OpenShows(m: Node, l: Local, job: Job)
    requires m.me == 0 && m.local == Open(l, job)
    ensures var w := l.next + 1;
      Scene(m, w, Worker(job.incident, l.next, Ready, false), Queue([job], [], Some(w)), l.next + 2, m.shared.table.Keys)
  {
  }

  /** The first submit of an incident starts a worker for it. */
  lemma OpeningStep(n: Node, i: string, key: string, p: Payload)
    requires i !in n.local.queues && key !in n.shared.table
    ensures var m := Step(n, Submit(One(i, key, p), NO_FAULTS));
      && m.me == n.me && m.local == Open(n.local, Job(i, n.shared.clock, [key], p))
      && m.shared.table == Admit(n.shared.table, i, [key], n.shared.clock)
      && m.shared.table.Keys == n.shared.table.Keys + {key}
      && m.shared.starts == n.shared.starts && m.shared.clock == n.shared.clock + 1
  {
    OneKey(n.shared.table, n.shared.clock, i, key, p);
    SubmitCases(n, One(i, key, p), NO_FAULTS);
  }

  /** The worker starts its only pending job, on its first step or when a handler returns. */
  lemma SceneStarts(n: Node, w: WorkerId, worker: Worker, job: Job, next: nat, keys: set<string>, q: Queue)
    requires Serving(n, w) && Scene(n, w, worker, q, next, keys) && q.pending == [job]
    ensures var m := Step(n, NextEvent(n, w));
      && Scene(m, w, worker.(phase := Handling(job)), q.(pending := []), next, keys)
      && m.shared.starts == n.shared.starts + [Start(0, job)] && m.shared.clock == n.shared.clock
  {
    NextStarts(n, w);
  }

  lemma SceneSubmit(n: Node, w: WorkerId, worker: Worker, q: Queue, next: nat, keys: set<string>, key: string, p: Payload)
    requires NodeInv(n) && Scene(n, w, worker, q, next, keys) && worker.phase.Handling? && key !in keys
    ensures var m := Step(n, Submit(One(worker.incident, key, p), NO_FAULTS));
      var job := Job(worker.incident, n.shared.clock, [key], p);
      && Scene(m, w, worker, if worker.cancelling then q.(deferred := q.deferred + [job]) else q.(pending := q.pending + [job]),
               next, keys + {key})
      && m.shared.starts == n.shared.starts && m.shared.clock == n.shared.clock + 1
  {
    var batch := One(worker.incident, key, p);
    OneKey(n.shared.table, n.shared.clock, worker.incident, key, p);
    BusySubmit(n, w, batch);
    SubmitTables(n, w, batch);
  }

  lemma SubmitTables(n: Node, w: WorkerId, batch: Batch)
    requires NodeInv(n) && Known(n.local, w) && n.local.workers[w].phase.Handling?
    requires batch.incident == n.local.workers[w].incident && FreshKeys(n.shared.table, AdmissionKeys(batch)) != []
    ensures var m := Step(n, Submit(batch, NO_FAULTS));
      m.local.next == n.local.next
      && m.shared.table == Admit(n.shared.table, batch.incident, AdmissionKeys(batch), n.shared.clock)
  {
    ReadyIsBound(n.local, w);
    SubmitCases(n, batch, NO_FAULTS);
  }

  lemma SceneFlag(n: Node, w: WorkerId, worker: Worker, q: Queue, next: nat, keys: set<string>, on: bool)
    requires NodeInv(n) && Scene(n, w, worker, q, next, keys) && worker.phase.Handling?
    ensures var m := Step(n, if on then CancelTask(w) else Uncancel(w));
      Scene(m, w, worker.(cancelling := on), q, next, keys) && m.shared == n.shared
  {
    SetCancelling(n, w, on);
  }

  lemma SceneEnds(n: Node, w: WorkerId, worker: Worker, q: Queue, next: nat, keys: set<string>)
    requires NodeInv(n) && Scene(n, w, worker, q, next, keys) && worker.phase.Handling? && q.pending == [] && q.deferred != []
    ensures var m := Step(n, HandlerReturned(w, {}));
      && Scene(m, w, worker.(phase := Ended), q, next, keys) && Bound(m.local, w)
      && m.shared == n.shared
  {
    ReturnEnds(n, w);
  }

  lemma SceneRestarts(n: Node, w: WorkerId, worker: Worker, q: Queue, next: nat, keys: set<string>)
    requires NodeInv(n) && Scene(n, w, worker, q, next, keys) && worker.phase.Ended? && Bound(n.local, w) && q.deferred != []
    ensures var m := Step(n, DoneCallback(w, false, {}));
      && Scene(m, next, Worker(worker.incident, worker.queue, Ready, false), Queue(q.deferred, [], Some(next)), next + 1, keys)
      && m.shared == n.shared
  {
    DoneRestarts(n, w);
  }

  /** An incident, a payload, and three occurrence keys. */
  datatype Story = Story(incident: string, payload: Payload, a: string, b: string, c: string)

  predicate Distinct(t: Story) {
    t.a != t.b && t.a != t.c && t.b != t.c
  }

  function BatchOf(t: Story, key: string): Batch {
    One(t.incident, key, t.payload)
  }

  function JobOf(t: Story, token: Token, key: string): Job {
    Job(t.incident, token, [key], t.payload)
  }

  /** A handler is called; its worker is cancelled, a second occurrence submitted, the cancellation
      taken back; a third is submitted, and the handler returns. Then the third's handler returns,
      and the end of that worker starts another for what it left behind. */
  function EventAt(t: Story, k: nat): Event
    requires k < 10
  {
    match k
    case 0 => Submit(BatchOf(t, t.a), NO_FAULTS)
    case 1 => FirstStep(1, {})
    case 2 => CancelTask(1)
    case 3 => Submit(BatchOf(t, t.b), NO_FAULTS)
    case 4 => Uncancel(1)
    case 5 => Submit(BatchOf(t, t.c), NO_FAULTS)
    case 6 => HandlerReturned(1, {})
    case 7 => HandlerReturned(1, {})
    case 8 => DoneCallback(1, false, {})
    case _ => FirstStep(2, {})
  }

  function Overtaking(t: Story): (r: seq<Action>)
    ensures |r| == 10 && forall k :: 0 <= k < 10 ==> r[k] == Act(0, EventAt(t, k))
  {
    seq(10, k requires 0 <= k < 10 => Act(0, EventAt(t, k)))
  }

  /** What the run shows after `k` events. */
  datatype Shot = Shot(w: WorkerId, worker: Worker, queue: Queue, next: nat, keys: set<string>, clock: Token, starts: seq<Start>)

  ghost predicate Shows(n: Node, s: Shot) {
    Scene(n, s.w, s.worker, s.queue, s.next, s.keys) && n.shared.clock == s.clock && n.shared.starts == s.starts
  }

  function ShotAt(t: Story, k: nat): Shot
    requires 1 <= k <= 10
  {
    var j1, j2, j3 := JobOf(t, 1, t.a), JobOf(t, 2, t.b), JobOf(t, 3, t.c);
    var s1, s2, s3 := [Start(0, j1)], [Start(0, j1), Start(0, j3)], [Start(0, j1), Start(0, j3), Start(0, j2)];
    var i, all := t.incident, {t.a, t.b, t.c};
    match k
    case 1 => Shot(1, Worker(i, 0, Ready, false), Queue([j1], [], Some(1)), 2, {t.a}, 2, [])
    case 2 => Shot(1, Worker(i, 0, Handling(j1), false), Queue([], [], Some(1)), 2, {t.a}, 2, s1)
    case 3 => Shot(1, Worker(i, 0, Handling(j1), true), Queue([], [], Some(1)), 2, {t.a}, 2, s1)
    case 4 => Shot(1, Worker(i, 0, Handling(j1), true), Queue([], [j2], Some(1)), 2, {t.a, t.b}, 3, s1)
    case 5 => Shot(1, Worker(i, 0, Handling(j1), false), Queue([], [j2], Some(1)), 2, {t.a, t.b}, 3, s1)
    case 6 => Shot(1, Worker(i, 0, Handling(j1), false), Queue([j3], [j2], Some(1)), 2, all, 4, s1)
    case 7 => Shot(1, Worker(i, 0, Handling(j3), false), Queue([], [j2], Some(1)), 2, all, 4, s2)
    case 8 => Shot(1, Worker(i, 0, Ended, false), Queue([], [j2], Some(1)), 2, all, 4, s2)
    case 9 => Shot(2, Worker(i, 0, Ready, false), Queue([j2], [], Some(2)), 3, all, 4, s2)
    case _ => Shot(2, Worker(i, 0, Handling(j2), false), Queue([], [], Some(2)), 3, all, 4, s3)
  }

  lemma StartEvent(t: Story, n: Node)
    requires NodeInv(n) && Shows(n, ShotAt(t, 1))
    ensures Shows(Step(n, EventAt(t, 1)), ShotAt(t, 2))
  {
    var s := ShotAt(t, 1);
    SceneStarts(n, 1, s.worker, JobOf(t, 1, t.a), s.next, s.keys, s.queue);
  }

  lemma FlagEvent(t: Story, n: Node, k: nat)
    requires (k == 2 || k == 4) && NodeInv(n) && Shows(n, ShotAt(t, k))
    ensures Shows(Step(n, EventAt(t, k)), ShotAt(t, k + 1))
  {
    var s := ShotAt(t, k);
    SceneFlag(n, 1, s.worker, s.queue, s.next, s.keys, k == 2);
  }

  ghost function Submitted(s: Shot, key: string, p: Payload): Shot {
    var job := Job(s.worker.incident, s.clock, [key], p);
    s.(queue := if s.worker.cancelling then s.queue.(deferred := s.queue.deferred + [job])
                else s.queue.(pending := s.queue.pending + [job]),
       keys := s.keys + {key}, clock := s.clock + 1)
  }

  lemma SubmitEvent(n: Node, s: Shot, key: string, p: Payload)
    requires NodeInv(n) && Shows(n, s) && s.worker.phase.Handling? && key !in s.keys
    ensures Shows(Step(n, Submit(One(s.worker.incident, key, p), NO_FAULTS)), Submitted(s, key, p))
  {
    SceneSubmit(n, s.w, s.worker, s.queue, s.next, s.keys, key, p);
  }

  lemma SubmitShots(t: Story)
    ensures Submitted(ShotAt(t, 3), t.b, t.payload) == ShotAt(t, 4)
    ensures Submitted(ShotAt(t, 5), t.c, t.payload) == ShotAt(t, 6)
  {
    assert {t.a} + {t.b} == {t.a, t.b} && {t.a, t.b} + {t.c} == {t.a, t.b, t.c};
  }

  lemma SecondSubmit(t: Story, n: Node)
    requires Distinct(t) && NodeInv(n) && Shows(n, ShotAt(t, 3))
    ensures Shows(Step(n, EventAt(t, 3)), ShotAt(t, 4))
  {
    SubmitShots(t);
    SubmitEvent(n, ShotAt(t, 3), t.b, t.payload);
  }

  lemma ThirdSubmit(t: Story, n: Node)
    requires Distinct(t) && NodeInv(n) && Shows(n, ShotAt(t, 5))
    ensures Shows(Step(n, EventAt(t, 5)), ShotAt(t, 6))
  {
    SubmitShots(t);
    SubmitEvent(n, ShotAt(t, 5), t.c, t.payload);
  }

  lemma ReturnEvent(t: Story, n: Node)
    requires NodeInv(n) && Shows(n, ShotAt(t, 6))
    ensures Shows(Step(n, EventAt(t, 6)), ShotAt(t, 7))
  {
    var s := ShotAt(t, 6);
    SceneStarts(n, 1, s.worker, JobOf(t, 3, t.c), s.next, s.keys, s.queue);
  }

  lemma FirstEvents(t: Story, n: Node, k: nat)
    requires Distinct(t) && 1 <= k <= 6 && NodeInv(n) && Shows(n, ShotAt(t, k))
    ensures Shows(Step(n, EventAt(t, k)), ShotAt(t, k + 1))
  {
    match k {
      case 1 => StartEvent(t, n);
      case 3 => SecondSubmit(t, n);
      case 5 => ThirdSubmit(t, n);
      case 6 => ReturnEvent(t, n);
      case _ => FlagEvent(t, n, k);
    }
  }

  lemma LastEvents(t: Story, n: Node, k: nat)
    requires 7 <= k <= 9 && NodeInv(n) && Shows(n, ShotAt(t, k)) && (k == 8 ==> Bound(n.local, 1))
    ensures Shows(Step(n, EventAt(t, k)), ShotAt(t, k + 1))
    ensures k == 7 ==> Bound(Step(n, EventAt(t, k)).local, 1)
  {
    var s := ShotAt(t, k);
    if k == 7 {
      SceneEnds(n, 1, s.worker, s.queue, s.next, s.keys);
    } else if k == 8 {
      SceneRestarts(n, 1, s.worker, s.queue, s.next, s.keys);
    } else {
      SceneStarts(n, 2, s.worker, JobOf(t, 2, t.b), s.next, s.keys, s.queue);
    }
  }

  lemma AtNext(t: Story, k: nat)
    requires k < 10
    ensures NodeAt(Overtaking(t)[..k + 1], 0) == Step(NodeAt(Overtaking(t)[..k], 0), EventAt(t, k))
  {
    assert Overtaking(t)[..k + 1] == Overtaking(t)[..k] + [Act(0, EventAt(t, k))];
    NodeAtSnoc(Overtaking(t)[..k], 0, EventAt(t, k));
  }

  lemma FirstShot(t: Story)
    requires Distinct(t)
    ensures Shows(NodeAt(Overtaking(t)[..1], 0), ShotAt(t, 1))
  {
    AtNext(t, 0);
    assert Overtaking(t)[..0] == [];
    OpeningStep(NodeAt([], 0), t.incident, t.a, t.payload);
    OpenShows(NodeAt(Overtaking(t)[..1], 0), NodeAt([], 0).local, JobOf(t, 1, t.a));
  }

  lemma {:induction false} RunShows(t: Story, k: nat)
    requires Distinct(t) && 1 <= k <= 10
    ensures Shows(NodeAt(Overtaking(t)[..k], 0), ShotAt(t, k))
    ensures k == 8 ==> Bound(NodeAt(Overtaking(t)[..k], 0).local, 1)
  {
    if k == 1 {
      FirstShot(t);
    } else {
      AtNext(t, k - 1);
      NodeAtInv(Overtaking(t)[..k - 1], 0);
      RunShows(t, k - 1);
      var n := NodeAt(Overtaking(t)[..k - 1], 0);
      if k <= 7 { FirstEvents(t, n, k - 1); } else { LastEvents(t, n, k - 1); }
    }
  }

  /** From the start, for any incident, payload and three keys: after seven events the third job's
      handler was called while the second still waits; after ten, the three handlers were called in
      the order first, third, second. The sixth event is the submit that finds a deferred job behind
      a worker that is not stopping. */
  lemma HandlersOutOfOrder(t: Story)
    requires Distinct(t)
    ensures var run := Overtaking(t); var j1, j2, j3 := JobOf(t, 1, t.a), JobOf(t, 2, t.b), JobOf(t, 3, t.c);
      && Run(run[..7]).shared.starts == [Start(0, j1), Start(0, j3)]
      && Run(run).shared.starts == [Start(0, j1), Start(0, j3), Start(0, j2)]
      && !StartsOrdered(Run(run).shared.starts)
      && !GuardAt(Run(run[..5]), run[5]) && !Guarded(run)
  {
    var run := Overtaking(t);
    RunShows(t, 7);
    RunShows(t, 10);
    assert run[..10] == run;
    var starts := Run(run).shared.starts;
    assert starts[1].job.token == 3 && starts[2].job.token == 2;
    RunShows(t, 5);
    NodeAtInv(run[..5], 0);
    UnguardedSubmit(t, NodeAt(run[..5], 0));
    assert run[5] == Act(0, EventAt(t, 5));
  }

  lemma UnguardedSubmit(t: Story, n: Node)
    requires Distinct(t) && NodeInv(n) && Shows(n, ShotAt(t, 5))
    ensures !EventGuard(n, EventAt(t, 5))
  {
    var s := ShotAt(t, 5);
    SubmitBehindDeferred(n, 1, s.worker, s.queue, s.next, s.keys, t.c, t.payload);
  }

  /** A submit behind a deferred job of a worker that is not stopping breaks the guard. */
  lemma SubmitBehindDeferred(n: Node, w: WorkerId, worker: Worker, queue: Queue, next: nat, keys: set<string>, key: string, p: Payload)
    requires NodeInv(n) && Scene(n, w, worker, queue, next, keys) && key !in keys
    requires worker.phase.Handling? && !worker.cancelling && queue.deferred != []
    ensures !EventGuard(n, Submit(One(worker.incident, key, p), NO_FAULTS))
  {
    OneFresh(n.shared.table, worker.incident, key, p);
    BusyRegistered(n.local, w);
  }

  lemma BusyRegistered(l: Local, w: WorkerId)
    requires Linked(l) && Known(l, w) && l.workers[w].phase.Handling?
    ensures var i := l.workers[w].incident; i in l.queues && l.heap[l.queues[i]] == QueueOf(l, w)
  {
    ReadyIsBound(l, w);
  }
}
