/** The order of handler calls per incident. It is the admission order exactly as long as no submit
    joins `pending` behind the back of deferred jobs. That never happens while a worker that is
    cancelling stays cancelling; a handler that takes its cancellation back makes it possible. */
module DispatchOrder {
  import opened Basics
  import opened Admission
  import opened Correlator
  import opened Dispatch
  import opened DispatchInvariant
  import opened DispatchSteps
  import opened DispatchSafety

  ghost predicate Increasing(jobs: seq<Job>) {
    forall a, b :: 0 <= a < b < |jobs| ==> jobs[a].token < jobs[b].token
  }

  /** Handler calls already made for this origin were admitted before every one of `jobs`. */
  ghost predicate StartedBefore(starts: seq<Start>, origin: Origin, jobs: seq<Job>) {
    forall s, x :: s in starts && Origin(s.owner, s.job.incident) == origin && x in jobs ==>
      s.job.token < x.token
  }

  ghost predicate Stopping(w: Worker) {
    w.phase == Ended || w.cancelling
  }

  /** The jobs of incident `i` are in admission order, after those already started. Where no
      cancellation is taken back (`strict`), jobs are deferred only behind a stopping worker. */
  ghost predicate OrderOk(strict: bool, me: nat, starts: seq<Start>, l: Local, i: string)
    requires i in l.queues && HasWorker(l, i)
  {
    && Increasing(Items(l, i))
    && (strict && QueueFor(l, i).deferred != [] ==> Stopping(WorkerFor(l, i)))
    && StartedBefore(starts, Origin(me, i), Waiting(l, i))
  }

  ghost predicate AllOrdered(strict: bool, me: nat, starts: seq<Start>, l: Local)
    requires Linked(l)
  {
    forall i :: i in l.queues ==> OrderOk(strict, me, starts, l, i)
  }

  ghost predicate StartsOrdered(starts: seq<Start>) {
    forall a, b :: 0 <= a < b < |starts| && starts[a].owner == starts[b].owner
                   && starts[a].job.incident == starts[b].job.incident
                   ==> starts[a].job.token < starts[b].job.token
  }

  ghost predicate NodeOrdered(strict: bool, n: Node)
    requires NodeInv(n)
  {
    AllOrdered(strict, n.me, n.shared.starts, n.local) && StartsOrdered(n.shared.starts)
  }

  // ---- changes to one incident ----

  /** The remaining jobs of incident `i` are a suffix of what they were. */
  lemma SuffixOrder(strict: bool, me: nat, starts: seq<Start>, l: Local, l': Local, i: string, settled: seq<Job>)
    requires Linked(l) && Linked(l') && AllOrdered(strict, me, starts, l)
    requires i in l.queues && l'.queues == l.queues
    requires forall j :: j in l.queues && j != i ==> SameQueue(l, l', j)
    requires Items(l, i) == settled + Items(l', i)
    requires forall x :: x in Waiting(l', i) ==> x in Waiting(l, i)
    requires strict && QueueFor(l', i).deferred != [] ==> Stopping(WorkerFor(l', i))
    ensures AllOrdered(strict, me, starts, l')
  {
    assert OrderOk(strict, me, starts, l, i);
    var now := Items(l', i);
    forall a, b | 0 <= a < b < |now| ensures now[a].token < now[b].token {
      assert Items(l, i)[|settled| + a] == now[a] && Items(l, i)[|settled| + b] == now[b];
    }
    OthersOrder(strict, me, starts, starts, l, l', i);
  }

  /** The other incidents keep their order when the new handler calls are of incident `i`. */
  lemma OthersOrder(strict: bool, me: nat, starts: seq<Start>, starts': seq<Start>, l: Local, l': Local, i: string)
    requires Linked(l) && Linked(l') && AllOrdered(strict, me, starts, l)
    requires forall j :: j in l.queues && j != i ==> SameQueue(l, l', j)
    requires forall j :: j in l'.queues && j != i ==> j in l.queues
    requires forall s :: s in starts' && s !in starts ==> s.job.incident == i
    requires i in l'.queues ==> OrderOk(strict, me, starts', l', i)
    ensures AllOrdered(strict, me, starts', l')
  {
  }

  lemma SettledOrder(strict: bool, n: Node, w: WorkerId)
    requires NodeInv(n) && NodeOrdered(strict, n) && Known(n.local, w) && n.local.workers[w].phase.Handling?
    ensures NodeInv(Settled(n, w)) && NodeOrdered(strict, Settled(n, w))
  {
    SettledInv(n, w);
    var l := n.local;
    var i := l.workers[w].incident;
    var job := l.workers[w].phase.job;
    ReadyIsBound(l, w);
    RewriteLinked(l, w, QueueOf(l, w), Ready, {job.token});
    var l' := Settled(n, w).local;
    assert OrderOk(strict, n.me, n.shared.starts, l, i);
    assert Items(l, i) == [job] + Items(l', i);
    SuffixOrder(strict, n.me, n.shared.starts, l, l', i, [job]);
  }

  lemma PopFailOrder(strict: bool, n: Node, w: WorkerId)
    requires NodeInv(n) && NodeOrdered(strict, n) && Known(n.local, w) && n.local.workers[w].phase == Ready
    requires QueueOf(n.local, w).pending != []
    ensures var m := n.(local := Skipped(n.local, w)); NodeInv(m) && NodeOrdered(strict, m)
  {
    var i, l' := n.local.workers[w].incident, Skipped(n.local, w);
    PopFailInv(n, w);
    SkippedLinked(n.local, w);
    SkippedItems(n.local, l', i);
    assert OrderOk(strict, n.me, n.shared.starts, n.local, i);
    SuffixOrder(strict, n.me, n.shared.starts, n.local, l', i, [QueueOf(n.local, w).pending[0]]);
  }

  lemma PopStartOrder(strict: bool, n: Node, w: WorkerId)
    requires NodeInv(n) && NodeOrdered(strict, n) && Known(n.local, w) && n.local.workers[w].phase == Ready
    requires QueueOf(n.local, w).pending != []
    ensures var q := QueueOf(n.local, w);
      var l' := Touch(n.local, w, q.(pending := q.pending[1..]), Handling(q.pending[0]));
      && Linked(l') && AllOrdered(strict, n.me, n.shared.starts + [Start(n.me, q.pending[0])], l')
      && StartsOrdered(n.shared.starts + [Start(n.me, q.pending[0])])
  {
    var l := n.local;
    var i := l.workers[w].incident;
    ReadyIsBound(l, w);
    var q := QueueOf(l, w);
    var job := q.pending[0];
    var rest := q.(pending := q.pending[1..]);
    RewriteLinked(l, w, rest, Handling(job), {});
    var l' := Touch(l, w, rest, Handling(job));
    assert Decide(l', {}) == l';
    assert JobsOk(n.shared, Origin(n.me, i), Held(l, i), Waiting(l, i));
    assert Waiting(l, i) == [job] + Waiting(l', i);
    assert job in Waiting(l, i);
    StartOrder(strict, n.me, n.shared.starts, l, l', i, job);
  }

  lemma StartedBeforeSnoc(starts: seq<Start>, me: nat, job: Job, rest: seq<Job>)
    requires StartsOrdered(starts) && StartedBefore(starts, Origin(me, job.incident), [job] + rest)
    requires Increasing([job] + rest)
    ensures StartsOrdered(starts + [Start(me, job)])
    ensures StartedBefore(starts + [Start(me, job)], Origin(me, job.incident), rest)
  {
    var starts' := starts + [Start(me, job)];
    var all := [job] + rest;
    assert all[0] == job;
    forall s, x | s in starts' && Origin(s.owner, s.job.incident) == Origin(me, job.incident) && x in rest
      ensures s.job.token < x.token
    {
      var a :| 0 <= a < |rest| && rest[a] == x;
      assert all[a + 1] == x && x in all;
    }
    forall a, b | 0 <= a < b < |starts'| && starts'[a].owner == starts'[b].owner
                  && starts'[a].job.incident == starts'[b].job.incident
      ensures starts'[a].job.token < starts'[b].job.token
    {
      if b == |starts| { assert starts[a] in starts && job in all; }
    }
  }

  lemma StartOrder(strict: bool, me: nat, starts: seq<Start>, l: Local, l': Local, i: string, job: Job)
    requires Linked(l) && Linked(l') && AllOrdered(strict, me, starts, l) && StartsOrdered(starts)
    requires i in l.queues && l'.queues == l.queues && job.incident == i
    requires forall j :: j in l.queues && j != i ==> SameQueue(l, l', j)
    requires Held(l, i) == [] && Held(l', i) == [job] && Waiting(l, i) == [job] + Waiting(l', i)
    requires QueueFor(l', i).deferred == QueueFor(l, i).deferred && !WorkerFor(l, i).phase.Ended?
    requires WorkerFor(l', i).cancelling == WorkerFor(l, i).cancelling
    ensures AllOrdered(strict, me, starts + [Start(me, job)], l') && StartsOrdered(starts + [Start(me, job)])
  {
    assert OrderOk(strict, me, starts, l, i);
    assert Items(l, i) == Items(l', i) == [job] + Waiting(l', i);
    StartedBeforeSnoc(starts, me, job, Waiting(l', i));
    OthersOrder(strict, me, starts, starts + [Start(me, job)], l, l', i);
  }

  lemma EndTaskOrder(strict: bool, n: Node, w: WorkerId)
    requires NodeInv(n) && NodeOrdered(strict, n) && Known(n.local, w) && n.local.workers[w].phase == Ready
    ensures NodeInv(EndTask(n, w)) && NodeOrdered(strict, EndTask(n, w))
  {
    EndTaskInv(n, w);
    ReadyIsBound(n.local, w);
    if QueueOf(n.local, w).deferred != [] {
      EndEarlyStep(n, w);
      EndEarlyOrder(strict, n.me, n.shared.starts, n.local, w);
    } else {
      EndIdleStep(n, w);
      EndIdleOrder(strict, n.me, n.shared.starts, n.local, w);
    }
  }

  lemma EndEarlyOrder(strict: bool, me: nat, starts: seq<Start>, l: Local, w: WorkerId)
    requires Linked(l) && AllOrdered(strict, me, starts, l) && Bound(l, w) && l.workers[w].phase == Ready
    ensures Linked(EndedEarly(l, w)) && AllOrdered(strict, me, starts, EndedEarly(l, w))
  {
    var i, l' := l.workers[w].incident, EndedEarly(l, w);
    EndedEarlyLinked(l, w);
    assert Items(l, i) == [] + Items(l', i);
    SuffixOrder(strict, me, starts, l, l', i, []);
  }

  lemma EndIdleOrder(strict: bool, me: nat, starts: seq<Start>, l: Local, w: WorkerId)
    requires Linked(l) && AllOrdered(strict, me, starts, l) && Bound(l, w) && l.workers[w].phase == Ready
    requires QueueOf(l, w).deferred == []
    ensures Linked(EndedIdle(l, w)) && AllOrdered(strict, me, starts, EndedIdle(l, w))
  {
    EndedIdleLinked(l, w);
    OthersOrder(strict, me, starts, starts, l, EndedIdle(l, w), l.workers[w].incident);
  }

  lemma {:induction false} DrainOrder(strict: bool, n: Node, w: WorkerId, markFails: set<Token>)
    requires NodeInv(n) && NodeOrdered(strict, n) && Known(n.local, w) && n.local.workers[w].phase == Ready
    ensures NodeInv(Drain(n, w, markFails)) && NodeOrdered(strict, Drain(n, w, markFails))
    decreases |QueueOf(n.local, w).pending|
  {
    var q := QueueOf(n.local, w);
    ReadyIsBound(n.local, w);
    if q.pending == [] {
      EndTaskOrder(strict, n, w);
    } else if q.pending[0].token in markFails || !CanMark(n.shared.table, q.pending[0].token, q.pending[0].keys) {
      PopFailOrder(strict, n, w);
      DrainOrder(strict, n.(local := Skipped(n.local, w)), w, markFails);
    } else {
      PopStartInv(n, w);
      PopStartOrder(strict, n, w);
    }
  }

  lemma DoneCallbackOrder(strict: bool, n: Node, w: WorkerId, startFails: bool, rollbackFails: set<Token>)
    requires NodeInv(n) && NodeOrdered(strict, n) && Known(n.local, w) && n.local.workers[w].phase == Ended
    ensures var m := Step(n, DoneCallback(w, startFails, rollbackFails)); NodeInv(m) && NodeOrdered(strict, m)
  {
    DoneCallbackInv(n, w, startFails, rollbackFails);
    assert WorkerOk(n.local, w);
    if QueueOf(n.local, w).worker != Some(w) {
      ForgetStep(n, w, startFails, rollbackFails);
      ForgetOrder(strict, n.me, n.shared.starts, n.local, w);
    } else if QueueOf(n.local, w).deferred != [] && !startFails {
      RestartStep(n, w, rollbackFails);
      RestartedOrder(strict, n.me, n.shared.starts, n.local, w);
    } else {
      ReleaseStep(n, w, startFails, rollbackFails);
      ReleasedOrder(strict, n.me, n.shared.starts, n.local, w);
    }
  }

  lemma ForgetOrder(strict: bool, me: nat, starts: seq<Start>, l: Local, w: WorkerId)
    requires Linked(l) && AllOrdered(strict, me, starts, l) && Known(l, w) && QueueOf(l, w).worker != Some(w)
    ensures Linked(Forgotten(l, w)) && AllOrdered(strict, me, starts, Forgotten(l, w))
  {
    ForgottenLinked(l, w);
    forall i | i in l.queues ensures OrderOk(strict, me, starts, Forgotten(l, w), i) {
      assert SameQueue(l, Forgotten(l, w), i);
    }
  }

  lemma RestartedOrder(strict: bool, me: nat, starts: seq<Start>, l: Local, w: WorkerId)
    requires Linked(l) && AllOrdered(strict, me, starts, l) && Bound(l, w) && l.workers[w].phase == Ended
    ensures Linked(Restarted(l, w)) && AllOrdered(strict, me, starts, Restarted(l, w))
  {
    ItemsOfEnded(l, w);
    RestartedLinked(l, w);
    SuffixOrder(strict, me, starts, l, Restarted(l, w), l.workers[w].incident, QueueOf(l, w).pending);
  }

  lemma ReleasedOrder(strict: bool, me: nat, starts: seq<Start>, l: Local, w: WorkerId)
    requires Linked(l) && AllOrdered(strict, me, starts, l) && Bound(l, w)
    ensures Linked(Released(l, w)) && AllOrdered(strict, me, starts, Released(l, w))
  {
    ReleasedLinked(l, w);
    OthersOrder(strict, me, starts, starts, l, Released(l, w), l.workers[w].incident);
  }

  // ---- submits ----

  /** What a caller can check before a submit: nothing is deferred for the incident, or its worker
      is done or stopping, so that the job is deferred too. */
  predicate SubmitGuard(l: Local, i: string) {
    i in l.queues && l.queues[i] in l.heap && l.heap[l.queues[i]].worker.Some? ==>
      var q := l.heap[l.queues[i]];
      q.deferred == [] || DoneOrCancelling(l, q.worker.value)
  }

  /** The submit reaches the queues: something is admitted and the job is prepared. */
  predicate Enqueues(sh: Shared, batch: Batch, faults: Faults) {
    && AdmissionKeys(batch) != [] && FreshKeys(sh.table, AdmissionKeys(batch)) != []
    && !faults.admit && !faults.prepare
  }

  predicate EventGuard(n: Node, e: Event) {
    e.Submit? && Enqueues(n.shared, e.batch, e.faults) ==> SubmitGuard(n.local, e.batch.incident)
  }

  /** Exactly when a submit keeps the queue in admission order: it must not join `pending`
      while earlier jobs are deferred. */
  lemma SubmitKeepsOrderIff(n: Node, job: Job)
    requires NodeInv(n) && job.incident in n.local.queues && HasWorker(n.local, job.incident)
    requires job.token == n.shared.clock
    requires Increasing(Items(n.local, job.incident))
    ensures var l := n.local; var i := job.incident; var l' := Append(l, l.queues[i], job);
      && Linked(l') && i in l'.queues
      && (Increasing(Items(l', i)) <==> QueueFor(l, i).deferred == [] || Stopping(WorkerFor(l, i)))
  {
    var l := n.local;
    var i := job.incident;
    var q := QueueFor(l, i);
    AppendLinked(l, q.worker.value, job);
    var l' := Append(l, l.queues[i], job);
    assert JobsOk(n.shared, Origin(n.me, i), Held(l, i), Waiting(l, i));
    forall x | x in Items(l, i) ensures x.token < job.token {
      assert JobOk(n.shared, Origin(n.me, i), x);
    }
    JoinOrder(Held(l, i), q.pending, q.deferred, job);
  }

  /** A job behind the deferred ones keeps the order; one behind the pending ones keeps it exactly
      when nothing is deferred. */
  lemma JoinOrder(held: seq<Job>, pending: seq<Job>, deferred: seq<Job>, job: Job)
    requires Increasing(held + (pending + deferred))
    requires forall x :: x in held + (pending + deferred) ==> x.token < job.token
    ensures Increasing(held + (pending + (deferred + [job])))
    ensures Increasing(held + ((pending + [job]) + deferred)) <==> deferred == []
  {
    var all := held + (pending + deferred);
    assert held + (pending + (deferred + [job])) == all + [job];
    IncreasingSnoc(all, job);
    if deferred == [] {
      assert held + ((pending + [job]) + deferred) == all + [job];
    } else {
      assert held + ((pending + [job]) + deferred) == (held + pending) + [job] + deferred;
      assert deferred[0] in all;
      JumpAhead(held + pending, job, deferred);
    }
  }

  lemma IncreasingSnoc(jobs: seq<Job>, job: Job)
    requires Increasing(jobs) && forall x :: x in jobs ==> x.token < job.token
    ensures Increasing(jobs + [job])
  {
  }

  lemma JumpAhead(front: seq<Job>, job: Job, back: seq<Job>)
    requires back != [] && back[0].token < job.token
    ensures !Increasing(front + [job] + back)
  {
    var all := front + [job] + back;
    assert all[|front|] == job && all[|front| + 1] == back[0];
  }

  lemma AppendOrder(strict: bool, n: Node, job: Job)
    requires NodeInv(n) && NodeOrdered(strict, n) && job.incident in n.local.queues && HasWorker(n.local, job.incident)
    requires job.token == n.shared.clock && (strict || SubmitGuard(n.local, job.incident))
    ensures Linked(Append(n.local, n.local.queues[job.incident], job))
    ensures AllOrdered(strict, n.me, n.shared.starts, Append(n.local, n.local.queues[job.incident], job))
  {
    var l := n.local;
    var i := job.incident;
    assert OrderOk(strict, n.me, n.shared.starts, l, i);
    SubmitKeepsOrderIff(n, job);
    AppendLinked(l, QueueFor(l, i).worker.value, job);
    var l' := Append(l, l.queues[i], job);
    forall s, x | s in n.shared.starts && Origin(s.owner, s.job.incident) == Origin(n.me, i) && x in Waiting(l', i)
      ensures s.job.token < x.token
    {
      assert x == job || x in Waiting(l, i);
      assert StartOk(n.shared, s);
    }
    OthersOrder(strict, n.me, n.shared.starts, n.shared.starts, l, l', i);
  }

  lemma OpenOrder(strict: bool, n: Node, job: Job)
    requires NodeInv(n) && NodeOrdered(strict, n) && job.incident !in n.local.queues
    requires job.token == n.shared.clock
    ensures Linked(Open(n.local, job)) && AllOrdered(strict, n.me, n.shared.starts, Open(n.local, job))
    ensures Linked(FailedOpen(n.local, job)) && AllOrdered(strict, n.me, n.shared.starts, FailedOpen(n.local, job))
  {
    var l' := Open(n.local, job);
    OpenLinked(n.local, job);
    FailedOpenLinked(n.local, job);
    forall s | s in n.shared.starts ensures s.job.token < job.token { assert StartOk(n.shared, s); }
    OthersOrder(strict, n.me, n.shared.starts, n.shared.starts, n.local, l', job.incident);
    OthersOrder(strict, n.me, n.shared.starts, n.shared.starts, n.local, FailedOpen(n.local, job), job.incident);
  }

  lemma SubmitOrder(strict: bool, n: Node, batch: Batch, faults: Faults)
    requires NodeInv(n) && NodeOrdered(strict, n) && NodeInv(SubmitStep(n, batch, faults))
    requires strict || EventGuard(n, Submit(batch, faults))
    ensures NodeOrdered(strict, SubmitStep(n, batch, faults))
  {
    SubmitCases(n, batch, faults);
    var job := JobFor(n.shared.table, n.shared.clock, batch);
    if job.incident in n.local.queues {
      if Enqueues(n.shared, batch, faults) { AppendOrder(strict, n, job); }
    } else {
      OpenOrder(strict, n, job);
    }
  }

  // ---- flags ----

  /** No job moves, and a stopping worker goes on only where that is allowed. */
  lemma FlagsKeepOrder(strict: bool, me: nat, starts: seq<Start>, l: Local, l': Local)
    requires Linked(l) && Linked(l') && AllOrdered(strict, me, starts, l)
    requires l'.queues == l.queues && l'.heap == l.heap && l'.workers.Keys == l.workers.Keys
    requires forall w :: w in l.workers ==> SameTask(strict, l.workers[w], l'.workers[w])
    ensures AllOrdered(strict, me, starts, l')
  {
    forall j | j in l'.queues ensures OrderOk(strict, me, starts, l', j) {
      assert OrderOk(strict, me, starts, l, j) && HasWorker(l, j) && HasWorker(l', j);
      assert SameTask(strict, WorkerFor(l, j), WorkerFor(l', j));
      assert Items(l', j) == Items(l, j);
    }
  }

  ghost predicate SameTask(strict: bool, w: Worker, w': Worker) {
    w' == w.(cancelling := w'.cancelling) && (strict && w.cancelling ==> w'.cancelling)
  }

  lemma FlagShape(strict: bool, n: Node, e: Event)
    requires e.CancelTask? || e.CallerCancels? || e.Track? || e.Expire? || (e.Uncancel? && !strict)
    ensures var m := Step(n, e); var l, l' := n.local, m.local;
      && m.me == n.me && m.shared.starts == n.shared.starts
      && l'.queues == l.queues && l'.heap == l.heap && l'.workers.Keys == l.workers.Keys
      && forall w :: w in l.workers ==> SameTask(strict, l.workers[w], l'.workers[w])
  {
  }

  lemma FlagOrder(strict: bool, n: Node, e: Event)
    requires NodeInv(n) && NodeOrdered(strict, n) && NodeInv(Step(n, e))
    requires e.CancelTask? || e.CallerCancels? || e.Track? || e.Expire? || (e.Uncancel? && !strict)
    ensures NodeOrdered(strict, Step(n, e))
  {
    FlagShape(strict, n, e);
    FlagsKeepOrder(strict, n.me, n.shared.starts, n.local, Step(n, e).local);
  }

  lemma CancelledFirstStepOrder(strict: bool, n: Node, w: WorkerId)
    requires NodeInv(n) && NodeOrdered(strict, n) && Known(n.local, w) && n.local.workers[w].phase == Ready
    requires NodeInv(n.(local := Touch(n.local, w, QueueOf(n.local, w), Ended)))
    ensures NodeOrdered(strict, n.(local := Touch(n.local, w, QueueOf(n.local, w), Ended)))
  {
  }

  lemma StepOrder(strict: bool, n: Node, e: Event)
    requires NodeInv(n) && NodeOrdered(strict, n) && if strict then !e.Uncancel? else EventGuard(n, e)
    ensures NodeInv(Step(n, e)) && NodeOrdered(strict, Step(n, e))
  {
    StepInv(n, e);
    var l := n.local;
    match e {
      case Submit(batch, faults) => SubmitOrder(strict, n, batch, faults);
      case FirstStep(w, markFails) =>
        if Known(l, w) && l.workers[w].phase == Ready {
          if l.workers[w].cancelling { CancelledFirstStepOrder(strict, n, w); } else { DrainOrder(strict, n, w, markFails); }
        }
      case HandlerReturned(w, markFails) =>
        if Known(l, w) && l.workers[w].phase.Handling? {
          SettledOrder(strict, n, w);
          DrainOrder(strict, Settled(n, w), w, markFails);
        }
      case HandlerAborted(w) =>
        if Known(l, w) && l.workers[w].phase.Handling? {
          SettledOrder(strict, n, w);
          EndTaskOrder(strict, Settled(n, w), w);
        }
      case DoneCallback(w, startFails, rollbackFails) =>
        if Known(l, w) && l.workers[w].phase == Ended { DoneCallbackOrder(strict, n, w, startFails, rollbackFails); }
      case _ => FlagOrder(strict, n, e);
    }
  }

  // ---- all runs ----

  ghost predicate SystemOrdered(strict: bool, s: System)
    requires SystemInv(s)
  {
    StartsOrdered(s.shared.starts) && forall me :: me in s.locals ==> AllOrdered(strict, me, s.shared.starts, s.locals[me])
  }

  predicate GuardAt(s: System, a: Action) {
    a.Act? ==> EventGuard(Node(a.me, s.shared, LocalOf(s, a.me)), a.event)
  }

  /** Every submit of the run finds nothing deferred for its incident, or a stopping worker. */
  ghost predicate Guarded(actions: seq<Action>) {
    forall k :: 0 <= k < |actions| ==> GuardAt(Run(actions[..k]), actions[k])
  }

  ghost predicate NoUncancel(actions: seq<Action>) {
    forall a :: a in actions && a.Act? ==> !a.event.Uncancel?
  }

  lemma ApplyOrder(strict: bool, s: System, a: Action)
    requires SystemInv(s) && SystemOrdered(strict, s)
    requires if strict then a.Act? ==> !a.event.Uncancel? else GuardAt(s, a)
    ensures SystemInv(Apply(s, a)) && SystemOrdered(strict, Apply(s, a))
  {
    ApplyInv(s, a);
    EmptyLocalInv(a.me, s.shared);
    if a.Act? {
      var n := Node(a.me, s.shared, LocalOf(s, a.me));
      StepOrder(strict, n, a.event);
      StepInv(n, a.event);
      var s' := Apply(s, a);
      forall other | other in s'.locals ensures AllOrdered(strict, other, s'.shared.starts, s'.locals[other]) {
        if other != a.me {
          var l := s.locals[other];
          forall i | i in l.queues ensures OrderOk(strict, other, s'.shared.starts, l, i) {
            assert OrderOk(strict, other, s.shared.starts, l, i);
            forall st | st in s'.shared.starts && st.owner == other ensures st in s.shared.starts {
              assert StartOk(s'.shared, st);
            }
          }
        }
      }
    }
  }

  lemma ExtendOrder(actions: seq<Action>, k: nat)
    requires Guarded(actions) && k < |actions|
    requires SystemInv(Run(actions[..k])) && SystemOrdered(false, Run(actions[..k]))
    ensures SystemInv(Run(actions[..k + 1])) && SystemOrdered(false, Run(actions[..k + 1]))
  {
    assert actions[..k + 1][..k] == actions[..k] && Last(actions[..k + 1]) == actions[k];
    assert GuardAt(Run(actions[..k]), actions[k]);
    ApplyOrder(false, Run(actions[..k]), actions[k]);
  }

  lemma {:induction false} GuardedOrder(actions: seq<Action>, k: nat)
    requires Guarded(actions) && k <= |actions|
    ensures SystemInv(Run(actions[..k])) && SystemOrdered(false, Run(actions[..k]))
  {
    if k > 0 {
      GuardedOrder(actions, k - 1);
      ExtendOrder(actions, k - 1);
    }
  }

  /** While every submit finds nothing deferred or a stopping worker, the handler calls of each
      incident, and the jobs that wait for one, come in the order in which the jobs were admitted,
      over every interleaving and crash. */
  lemma HandlerCallsInAdmissionOrder(actions: seq<Action>)
    requires Guarded(actions)
    ensures SystemInv(Run(actions)) && SystemOrdered(false, Run(actions))
  {
    GuardedOrder(actions, |actions|);
    assert actions[..|actions|] == actions;
  }

  lemma {:induction false} DeferredBehindStopping(actions: seq<Action>)
    requires NoUncancel(actions)
    ensures SystemInv(Run(actions)) && SystemOrdered(true, Run(actions))
  {
    if actions != [] {
      DeferredBehindStopping(actions[..|actions| - 1]);
      ApplyOrder(true, Run(actions[..|actions| - 1]), Last(actions));
    }
  }

  /** Every run in which no worker takes a cancellation back is such a run. */
  lemma NoUncancelIsGuarded(actions: seq<Action>)
    requires NoUncancel(actions)
    ensures Guarded(actions)
  {
    forall k | 0 <= k < |actions| ensures GuardAt(Run(actions[..k]), actions[k]) {
      DeferredBehindStopping(actions[..k]);
      if actions[k].Act? && actions[k].event.Submit? {
        StrictGuard(Run(actions[..k]), actions[k].me, actions[k].event.batch.incident);
      }
    }
  }

  lemma StrictGuard(s: System, me: nat, i: string)
    requires SystemInv(s) && SystemOrdered(true, s)
    ensures SubmitGuard(LocalOf(s, me), i)
  {
    if me in s.locals && i in s.locals[me].queues {
      assert OrderOk(true, me, s.shared.starts, s.locals[me], i);
      assert HasWorker(s.locals[me], i);
    }
  }

  /** In every dispatcher, what is held or waits for each incident is in admission order. */
  ghost predicate QueuesOrdered(s: System) {
    forall me, i :: me in s.locals && i in s.locals[me].queues && HasWorker(s.locals[me], i) ==>
      Increasing(Items(s.locals[me], i))
  }

  ghost predicate OrderedAfter(actions: seq<Action>, k: nat)
    requires k <= |actions|
  {
    QueuesOrdered(Run(actions[..k]))
  }

  /** The condition is exact: the queues are in admission order all along a run if and only if every
      submit of the run finds nothing deferred for its incident, or a stopping worker. */
  lemma QueuesOrderedIffGuarded(actions: seq<Action>)
    ensures (forall k :: 0 <= k <= |actions| ==> OrderedAfter(actions, k)) <==> Guarded(actions)
  {
    if Guarded(actions) {
      forall k | 0 <= k <= |actions| ensures OrderedAfter(actions, k) {
        GuardedOrder(actions, k);
        OrderedQueues(Run(actions[..k]));
      }
    }
    if forall k :: 0 <= k <= |actions| ==> OrderedAfter(actions, k) {
      forall k | 0 <= k < |actions| ensures GuardAt(Run(actions[..k]), actions[k]) {
        assert actions[..k + 1][..k] == actions[..k] && Last(actions[..k + 1]) == actions[k];
        assert OrderedAfter(actions, k) && OrderedAfter(actions, k + 1);
        RunInv(actions[..k]);
        OrderNeedsGuard(Run(actions[..k]), actions[k]);
      }
    }
  }

  lemma OrderedQueues(s: System)
    requires SystemInv(s) && SystemOrdered(false, s)
    ensures QueuesOrdered(s)
  {
    forall me, i | me in s.locals && i in s.locals[me].queues && HasWorker(s.locals[me], i)
      ensures Increasing(Items(s.locals[me], i))
    {
      assert OrderOk(false, me, s.shared.starts, s.locals[me], i);
    }
  }

  /** A submit that finds deferred jobs behind a worker that is not stopping breaks the order. */
  lemma OrderNeedsGuard(s: System, a: Action)
    requires SystemInv(s) && QueuesOrdered(s) && QueuesOrdered(Apply(s, a))
    ensures GuardAt(s, a)
  {
    if a.Act? && a.event.Submit? && Enqueues(s.shared, a.event.batch, a.event.faults) {
      var l, i := LocalOf(s, a.me), a.event.batch.incident;
      if i in l.queues {
        var n := Node(a.me, s.shared, l);
        SubmitAppends(n, a.event.batch, a.event.faults);
        SubmitKeepsOrderIff(n, JobFor(s.shared.table, s.shared.clock, a.event.batch));
        assert Apply(s, a).locals[a.me] == Step(n, a.event).local;
      }
    }
  }

  lemma SubmitAppends(n: Node, batch: Batch, faults: Faults)
    requires NodeInv(n) && batch.incident in n.local.queues && Enqueues(n.shared, batch, faults)
    ensures HasWorker(n.local, batch.incident)
    ensures var job := JobFor(n.shared.table, n.shared.clock, batch);
      var l' := Append(n.local, n.local.queues[batch.incident], job);
      && job.incident == batch.incident && Step(n, Submit(batch, faults)).local == l'
      && batch.incident in l'.queues && HasWorker(l', batch.incident)
  {
    var job := JobFor(n.shared.table, n.shared.clock, batch);
    assert HasWorker(n.local, batch.incident);
    AppendLinked(n.local, QueueFor(n.local, batch.incident).worker.value, job);
    SubmitCases(n, batch, faults);
  }
}
