/** The order that every run keeps, with or without cancellations taken back: each queue is first in,
    first out, within `pending` and within `deferred`. Nothing of the invariant is needed for it. */
module DispatchFifo {
  import opened Basics
  import opened Admission
  import opened Correlator
  import opened Dispatch
  import opened DispatchSteps
  import opened DispatchOrder

  ghost predicate Older(jobs: seq<Job>, clock: Token) {
    forall x :: x in jobs ==> x.token < clock
  }

  /** Within `pending` and within `deferred`, jobs stand in admission order. */
  ghost predicate Fifo(q: Queue, clock: Token) {
    Increasing(q.pending) && Increasing(q.deferred) && Older(q.pending, clock) && Older(q.deferred, clock)
  }

  ghost predicate AllFifo(l: Local, clock: Token) {
    forall q :: q in l.heap ==> Fifo(l.heap[q], clock)
  }

  lemma FinishFifo(n: Node, w: WorkerId, done: bool, startFails: bool, rollbackFails: set<Token>)
    requires Known(n.local, w) && AllFifo(n.local, n.shared.clock)
    ensures var m := FinishWorker(n, w, done, startFails, rollbackFails);
      m.shared.clock == n.shared.clock && AllFifo(m.local, m.shared.clock)
  {
    assert Fifo(QueueOf(n.local, w), n.shared.clock);
  }

  lemma EndFifo(n: Node, w: WorkerId)
    requires Known(n.local, w) && AllFifo(n.local, n.shared.clock)
    ensures EndTask(n, w).shared.clock == n.shared.clock && AllFifo(EndTask(n, w).local, n.shared.clock)
  {
    FinishFifo(n, w, false, false, {});
  }

  lemma TailFifo(q: Queue, clock: Token)
    requires Fifo(q, clock) && q.pending != []
    ensures Fifo(q.(pending := q.pending[1..]), clock)
  {
  }

  lemma {:induction false} DrainFifo(n: Node, w: WorkerId, markFails: set<Token>)
    requires Known(n.local, w) && AllFifo(n.local, n.shared.clock)
    ensures Drain(n, w, markFails).shared.clock == n.shared.clock
    ensures AllFifo(Drain(n, w, markFails).local, n.shared.clock)
    decreases |QueueOf(n.local, w).pending|
  {
    var q := QueueOf(n.local, w);
    if !Registered(n.local, w) || q.pending == [] {
      EndFifo(n, w);
    } else {
      TailFifo(q, n.shared.clock);
      var rest := q.(pending := q.pending[1..]);
      if q.pending[0].token in markFails || !CanMark(n.shared.table, q.pending[0].token, q.pending[0].keys) {
        DrainFifo(n.(local := Decide(Touch(n.local, w, rest, Ready), {q.pending[0].token})), w, markFails);
      }
    }
  }

  lemma LaterFifo(l: Local, clock: Token, clock': Token)
    requires AllFifo(l, clock) && clock <= clock'
    ensures AllFifo(l, clock')
  {
    forall q | q in l.heap ensures Fifo(l.heap[q], clock') { assert Fifo(l.heap[q], clock); }
  }

  lemma AppendFifo(l: Local, q: QueueId, job: Job)
    requires q in l.heap && l.heap[q].worker.Some? && AllFifo(l, job.token)
    ensures AllFifo(Append(l, q, job), job.token + 1)
  {
    assert Fifo(l.heap[q], job.token);
    IncreasingSnoc(l.heap[q].pending, job);
    IncreasingSnoc(l.heap[q].deferred, job);
    LaterFifo(l, job.token, job.token + 1);
  }

  lemma EnqueueFifo(n: Node, undone: Shared, job: Job, startFails: bool)
    requires AllFifo(n.local, job.token)
    ensures AllFifo(EnqueueStep(n, undone, job, startFails).local, job.token + 1)
  {
    var l := n.local;
    LaterFifo(l, job.token, job.token + 1);
    if job.incident in l.queues && l.queues[job.incident] in l.heap && l.heap[l.queues[job.incident]].worker.Some? {
      AppendFifo(l, l.queues[job.incident], job);
    } else {
      assert Fifo(Queue([job], [], Some(l.next + 1)), job.token + 1);
    }
  }

  lemma SubmitFifo(n: Node, batch: Batch, faults: Faults)
    requires AllFifo(n.local, n.shared.clock)
    ensures var m := SubmitStep(n, batch, faults);
      n.shared.clock <= m.shared.clock && AllFifo(m.local, m.shared.clock)
  {
    var sh := n.shared;
    LaterFifo(n.local, sh.clock, sh.clock + 1);
    SubmitCases(n, batch, faults);
    var undone := if faults.rollback then Admitted(n.me, sh, batch) else Undone(n.me, sh, batch);
    EnqueueFifo(n.(shared := Admitted(n.me, sh, batch)), undone, JobFor(sh.table, sh.clock, batch), faults.start);
  }

  lemma StepFifo(n: Node, e: Event)
    requires AllFifo(n.local, n.shared.clock)
    ensures n.shared.clock <= Step(n, e).shared.clock && AllFifo(Step(n, e).local, Step(n, e).shared.clock)
  {
    match e {
      case Submit(batch, faults) => SubmitFifo(n, batch, faults);
      case FirstStep(w, markFails) => if Known(n.local, w) { DrainFifo(n, w, markFails); }
      case HandlerReturned(w, markFails) =>
        if Known(n.local, w) && n.local.workers[w].phase.Handling? { DrainFifo(Settled(n, w), w, markFails); }
      case HandlerAborted(w) =>
        if Known(n.local, w) && n.local.workers[w].phase.Handling? { EndFifo(Settled(n, w), w); }
      case DoneCallback(w, startFails, rollbackFails) =>
        if Known(n.local, w) { FinishFifo(n, w, true, startFails, rollbackFails); }
      case _ =>
    }
  }

  ghost predicate SystemFifo(s: System) {
    forall me :: me in s.locals ==> AllFifo(s.locals[me], s.shared.clock)
  }

  lemma ApplyFifo(s: System, a: Action)
    requires SystemFifo(s)
    ensures SystemFifo(Apply(s, a))
  {
    if a.Act? {
      var l := LocalOf(s, a.me);
      assert AllFifo(l, s.shared.clock);
      StepFifo(Node(a.me, s.shared, l), a.event);
      forall other | other in s.locals ensures AllFifo(s.locals[other], Apply(s, a).shared.clock) {
        LaterFifo(s.locals[other], s.shared.clock, Apply(s, a).shared.clock);
      }
    }
  }

  /** In every run, also when cancellations are taken back, every queue of every dispatcher is in
      admission order within `pending` and within `deferred`. */
  lemma {:induction false} EachQueueIsFifo(actions: seq<Action>)
    ensures SystemFifo(Run(actions))
  {
    if actions != [] {
      EachQueueIsFifo(actions[..|actions| - 1]);
      ApplyFifo(Run(actions[..|actions| - 1]), Last(actions));
    }
  }
}
