/** The dispatcher of agents/incident_dispatch.py as an object whose methods change its maps in
    place. Each method is one event of module Dispatch: the view afterwards is the event's
    result on the view before. */
module Dispatcher {
  import opened Basics
  import opened Admission
  import opened Correlator
  import D = Dispatch
  import I = DispatchInvariant
  import S = DispatchSafety
  import T = DispatchSteps

  class IncidentDispatcher {
    const me: nat
    const correlator: IncidentCorrelator
    const store: IncidentAdmissionStore
    var queues: map<string, D.QueueId>
    var heap: map<D.QueueId, D.Queue>
    var workers: map<D.WorkerId, D.Worker>
    var undecided: set<Token>
    var next: nat
    var clock: Token                        // the uuid source
    ghost var issued: map<Token, D.Origin>  // tokens that admitted something
    ghost var starts: seq<D.Start>          // handler calls made

    ghost function Memory(): D.Local
      reads this, correlator
    {
      D.Local(queues, heap, workers, undecided, correlator.Active(), next)
    }

    ghost function View(): D.Node
      reads this, correlator, store
    {
      D.Node(me, D.Shared(store.table, clock, issued, starts), Memory())
    }

    ghost predicate Valid()
      reads this, correlator, store
    {
      I.NodeInv(View())
    }

    /** A dispatcher with an empty memory over a table that may have survived earlier ones;
        `history` is what they issued and started, and a clock whose tokens are new. */
    constructor (me: nat, correlator: IncidentCorrelator, store: IncidentAdmissionStore, clock: Token, ghost history: D.Shared)
      requires correlator.incidents == map[]
      requires I.SharedInv(history) && history.table == store.table && history.clock == clock
      ensures Valid() && this.me == me && this.correlator == correlator && this.store == store
      ensures View() == D.Node(me, history, D.EMPTY)
    {
      this.me, this.correlator, this.store := me, correlator, store;
      queues, heap, workers, undecided, next := map[], map[], map[], {}, 0;
      this.clock, issued, starts := clock, history.issued, history.starts;
      new;
      S.EmptyLocalInv(me, history);
    }

    method MarkProcessing(incident: string, on: bool)
      modifies correlator
      ensures correlator.Active() == D.SetActive(old(correlator.Active()), incident, on)
    {
      correlator.MarkProcessing(incident, on);
    }

    /** `_start_worker`: a new task drains the queue. */
    method StartWorker(incident: string, q: D.QueueId)
      requires q in heap
      modifies this`heap, this`workers, this`next
      ensures next == old(next) + 1
      ensures heap == old(heap)[q := old(heap)[q].(worker := Some(old(next)))]
      ensures workers == old(workers)[old(next) := D.Worker(incident, q, D.Ready, false)]
    {
      heap := heap[q := heap[q].(worker := Some(next))];
      workers := workers[next := D.Worker(incident, q, D.Ready, false)];
      next := next + 1;
    }

    /** `_finish_worker`. */
    method FinishWorker(w: D.WorkerId, done: bool, startFails: bool, rollbackFails: set<Token>)
      requires D.Known(Memory(), w)
      modifies this`queues, this`heap, this`workers, this`undecided, this`next, correlator, store
      ensures View() == D.FinishWorker(old(View()), w, done, startFails, rollbackFails)
    {
      var q, incident := workers[w].queue, workers[w].incident;
      if heap[q].worker != Some(w) {
        return;
      }
      if heap[q].deferred != [] && !done {
        return;
      }
      undecided := undecided - D.Tokens(heap[q].pending);
      heap := heap[q := D.Queue([], heap[q].deferred, None)];
      if incident !in queues || queues[incident] != q {
        return;
      }
      if heap[q].deferred != [] {
        Relaunch(incident, q, startFails, rollbackFails);
        return;
      }
      queues := queues - {incident};
      MarkProcessing(incident, false);
    }

    /** Restarts a registered queue for its deferred jobs, or closes it and rolls them back. */
    method Relaunch(incident: string, q: D.QueueId, startFails: bool, rollbackFails: set<Token>)
      requires incident in queues && queues[incident] == q && q in heap
      modifies this`queues, this`heap, this`workers, this`undecided, this`next, correlator, store
      ensures var n := old(View()); var deferred := n.local.heap[q].deferred;
        View() == if !startFails then n.(local := D.Launch(n.local, incident, q, deferred))
                  else n.(shared := n.shared.(table := D.RollbackAll(n.shared.table, deferred, rollbackFails)),
                          local := D.Decide(D.Unregister(n.local, incident, q), D.Tokens(deferred)))
    {
      var failed := heap[q].deferred;
      heap := heap[q := D.Queue(failed, [], None)];
      if startFails {
        heap := heap[q := D.Queue([], [], None)];
        queues := queues - {incident};
        MarkProcessing(incident, false);
        RollbackEach(failed, rollbackFails);
        undecided := undecided - D.Tokens(failed);
        Overwritten(old(heap), q, D.Queue(failed, [], None), D.Queue([], [], None));
      } else {
        StartWorker(incident, q);
        Overwritten(old(heap), q, D.Queue(failed, [], None), D.Queue(failed, [], Some(old(next))));
      }
    }

    method RollbackEach(failed: seq<D.Job>, rollbackFails: set<Token>)
      modifies store
      ensures store.table == D.RollbackAll(old(store.table), failed, rollbackFails)
    {
      var i := 0;
      while i < |failed|
        invariant 0 <= i <= |failed|
        invariant store.table == D.RollbackAll(old(store.table), failed[..i], rollbackFails)
      {
        assert failed[..i + 1][..i] == failed[..i] && Last(failed[..i + 1]) == failed[i];
        if failed[i].token !in rollbackFails {
          store.RollbackQueued(failed[i].token);
        }
        i := i + 1;
      }
      assert failed[..i] == failed;
    }

    /** One turn of the loop of `_drain`: take the next job and try to mark it attempted. */
    method TakeNext(w: D.WorkerId, markFails: set<Token>) returns (started: bool)
      requires D.Known(Memory(), w) && workers[w].phase == D.Ready
      requires D.QueueOf(Memory(), w).pending != []
      modifies this`heap, this`workers, this`undecided, this`starts, store
      ensures var n := old(View()); var q := D.QueueOf(n.local, w); var job := q.pending[0];
        var rest := q.(pending := q.pending[1..]);
        && started == !(job.token in markFails || !CanMark(n.shared.table, job.token, job.keys))
        && View() == if started
           then n.(shared := T.AfterStart(me, n.shared, job), local := D.Touch(n.local, w, rest, D.Handling(job)))
           else n.(local := D.Decide(D.Touch(n.local, w, rest, D.Ready), {job.token}))
    {
      var q := workers[w].queue;
      var job := heap[q].pending[0];
      heap := heap[q := heap[q].(pending := heap[q].pending[1..])];
      started := false;
      if job.token !in markFails {
        started := store.MarkAttempted(job.token, job.keys);
      }
      if started {
        workers := workers[w := workers[w].(phase := D.Handling(job))];
        starts := starts + [D.Start(me, job)];
      } else {
        undecided := undecided - {job.token};
        assert workers[w := workers[w].(phase := D.Ready)] == workers;
      }
    }

    /** `_drain`, from the top of its loop to the next handler call or the end of the task. */
    method Drain(w: D.WorkerId, markFails: set<Token>)
      requires D.Known(Memory(), w) && workers[w].phase == D.Ready
      modifies this, correlator, store
      ensures View() == D.Drain(old(View()), w, markFails)
    {
      var started := false;
      while !started && workers[w].incident in queues && queues[workers[w].incident] == workers[w].queue
            && heap[workers[w].queue].pending != []
        invariant D.Known(Memory(), w) && (!started ==> workers[w].phase == D.Ready)
        invariant !started ==> D.Drain(View(), w, markFails) == D.Drain(old(View()), w, markFails)
        invariant started ==> View() == D.Drain(old(View()), w, markFails)
        decreases !started, |D.QueueOf(Memory(), w).pending|
      {
        started := TakeNext(w, markFails);
      }
      if !started {
        EndTask(w);
      }
    }

    /** The `finally` of `_drain`. */
    method EndTask(w: D.WorkerId)
      requires D.Known(Memory(), w)
      modifies this, correlator, store
      ensures View() == D.EndTask(old(View()), w)
    {
      var worker := workers[w];
      FinishWorker(w, false, false, {});
      workers := workers[w := worker.(phase := D.Ended)];
    }

    // ---- the events ----

    method FirstStep(w: D.WorkerId, markFails: set<Token>)
      requires Valid() && w in workers && workers[w].phase == D.Ready
      modifies this, correlator, store
      ensures Valid() && View() == D.Step(old(View()), D.FirstStep(w, markFails))
    {
      FirstStepEffect(View(), w, markFails);
      if workers[w].cancelling {
        workers := workers[w := workers[w].(phase := D.Ended)];
        assert heap[workers[w].queue := heap[workers[w].queue]] == heap;
      } else {
        Drain(w, markFails);
      }
    }

    /** The handler's coroutine returned or raised an ordinary exception. */
    method HandlerReturned(w: D.WorkerId, markFails: set<Token>)
      requires Valid() && w in workers && workers[w].phase.Handling?
      modifies this, correlator, store
      ensures Valid() && View() == D.Step(old(View()), D.HandlerReturned(w, markFails))
    {
      ReturnEffect(View(), w, markFails);
      Settle(w);
      Drain(w, markFails);
    }

    /** The handler's coroutine was cancelled. */
    method HandlerAborted(w: D.WorkerId)
      requires Valid() && w in workers && workers[w].phase.Handling?
      modifies this, correlator, store
      ensures Valid() && View() == D.Step(old(View()), D.HandlerAborted(w))
    {
      AbortEffect(View(), w);
      Settle(w);
      EndTask(w);
    }

    method Settle(w: D.WorkerId)
      requires D.Known(Memory(), w) && workers[w].phase.Handling?
      modifies this`undecided, this`workers
      ensures View() == D.Settled(old(View()), w)
    {
      undecided := undecided - {workers[w].phase.job.token};
      workers := workers[w := workers[w].(phase := D.Ready)];
      assert heap[workers[w].queue := heap[workers[w].queue]] == heap;
    }

    method DoneCallback(w: D.WorkerId, startFails: bool, rollbackFails: set<Token>)
      requires Valid() && w in workers && workers[w].phase == D.Ended
      modifies this, correlator, store
      ensures Valid() && View() == D.Step(old(View()), D.DoneCallback(w, startFails, rollbackFails))
    {
      DoneEffect(View(), w, startFails, rollbackFails);
      FinishWorker(w, true, startFails, rollbackFails);
      workers := workers - {w};
    }

    method CancelTask(w: D.WorkerId)
      requires Valid() && w in workers && workers[w].phase != D.Ended
      modifies this`workers
      ensures Valid() && View() == D.Step(old(View()), D.CancelTask(w))
    {
      CancelEffect(View(), w);
      workers := workers[w := workers[w].(cancelling := true)];
    }

    /** The running handler takes a cancellation back. */
    method Uncancel(w: D.WorkerId)
      requires Valid() && w in workers && workers[w].phase.Handling?
      modifies this`workers
      ensures Valid() && View() == D.Step(old(View()), D.Uncancel(w))
    {
      UncancelEffect(View(), w);
      workers := workers[w := workers[w].(cancelling := false)];
    }

    /** The caller that waits for a completion is cancelled. */
    method CallerCancels(token: Token)
      requires Valid()
      modifies this`undecided
      ensures Valid() && View() == D.Step(old(View()), D.CallerCancels(token))
    {
      S.CallerCancelsInv(View(), token);
      undecided := undecided - {token};
    }

    /** The correlator takes up a new incident, under an id that is not in use. */
    method Track(incident: string, now: real)
      requires Valid() && incident !in correlator.incidents && incident !in queues
      modifies correlator
      ensures Valid() && View() == D.Step(old(View()), D.Track(incident))
    {
      TrackEffect(View(), incident);
      correlator.Track(incident, now);
      Tracked(old(correlator.incidents), incident, now);
    }

    /** The correlator drops idle incidents outside its window. */
    method Expire(now: real)
      modifies correlator
      ensures View() == D.Step(old(View()), D.Expire(Stale(old(correlator.incidents), now)))
    {
      correlator.ExpireOld(now);
    }

    static ghost function Stale(incidents: map<string, Incident>, now: real): set<string> {
      set i | i in incidents && now - incidents[i].lastAlertAt > CORRELATION_WINDOW_S
    }

    /** `submit`. */
    method Submit(batch: Batch, faults: D.Faults) returns (reply: D.Reply)
      requires Valid()
      modifies this, correlator, store
      ensures View() == D.Step(old(View()), D.Submit(batch, faults))
      ensures reply == D.SubmitReply(old(View()), batch, faults)
      ensures Valid()
    {
      ghost var before := View();
      S.StepInv(before, D.Submit(batch, faults));
      var keys := Dedup(KeysOf(batch.refs));
      if keys == [] {
        return D.Duplicate(None);
      }
      DedupTwice(KeysOf(batch.refs));
      reply := SubmitKeys(batch, keys, faults);
      KeysOutcome(before, batch, faults);
      T.SubmitCases(before, batch, faults);
    }

    method SubmitKeys(batch: Batch, keys: seq<string>, faults: D.Faults) returns (reply: D.Reply)
      requires I.Linked(Memory()) && keys == D.AdmissionKeys(batch) && keys != [] && Dedup(keys) == keys
      modifies this, correlator, store
      ensures View() == AfterKeys(old(View()), batch, faults)
      ensures reply == D.SubmitReply(old(View()), batch, faults)
    {
      ghost var before := View();
      var admission := DrawAndAdmit(batch.incident, keys, faults.admit);
      if admission.None? || admission.value.admitted == [] {
        NothingQueued(before, batch, faults);
        return if admission.None? then D.Raised else D.Duplicate(D.SoleIncident(admission.value.duplicates));
      }
      RepliesAgree(before, batch, faults);
      reply := AfterAdmission(batch, admission.value.admitted, faults, before);
    }

    /** Draws a token and admits the keys under it; None when the transaction fails. */
    method DrawAndAdmit(incident: string, keys: seq<string>, fails: bool) returns (r: Option<AdmissionResult>)
      requires Dedup(keys) == keys
      modifies this`clock, store
      ensures r.None? <==> fails
      ensures r.Some? ==> r.value.admitted == FreshKeys(old(store.table), keys)
                          && r.value.duplicates == DuplicatesOf(old(store.table), keys)
      ensures View() == Drawn(old(View()), incident, if r.None? || r.value.admitted == [] then [] else keys)
    {
      var token := clock;
      clock := clock + 1;
      AdmitNothing(store.table, incident, token);
      if fails {
        return None;
      }
      var admission := Admit(incident, keys, token);
      r := Some(admission);
    }

    /** The admission is committed under the token just drawn. */
    method AfterAdmission(batch: Batch, admitted: seq<string>, faults: D.Faults, ghost before: D.Node)
      returns (reply: D.Reply)
      requires admitted == FreshKeys(before.shared.table, D.AdmissionKeys(batch))
      requires before.me == me && I.Linked(before.local) && clock == before.shared.clock + 1
      requires View() == Drawn(before, batch.incident, D.AdmissionKeys(batch))
      modifies this, correlator, store
      ensures View() == AfterSubmit(before, batch, faults)
      ensures reply == ReplyAfterSubmit(before, batch, faults)
    {
      var token := clock - 1;
      issued := issued[token := D.Origin(me, batch.incident)];
      PreparedSubmit(before, batch, faults);
      reply := Prepare(batch, token, admitted, faults);
    }

    method Admit(incident: string, keys: seq<string>, token: Token) returns (r: AdmissionResult)
      requires Dedup(keys) == keys
      modifies store
      ensures r.admitted == FreshKeys(old(store.table), keys) && r.duplicates == DuplicatesOf(old(store.table), keys)
      ensures store.table == Admission.Admit(old(store.table), incident, keys, token)
      ensures r.admitted == [] ==> store.table == old(store.table)
    {
      r := store.AdmitKeys(incident, keys, token);
      if r.admitted == [] {
        NothingAdmitted(old(store.table), incident, keys, token);
      }
    }

    /** From a successful admission to the queue; a failed preparation rolls the admission back. */
    method Prepare(batch: Batch, token: Token, admitted: seq<string>, faults: D.Faults) returns (reply: D.Reply)
      requires I.Linked(Memory())
      modifies this, correlator, store
      ensures View() == Prepared(old(View()), batch, token, admitted, faults)
      ensures reply == PreparedReply(old(queues), batch, token, faults)
    {
      if faults.prepare {
        if !faults.rollback {
          store.RollbackQueued(token);
        }
        return D.Raised;
      }
      var keys := set k | k in admitted;
      var job := D.Job(batch.incident, token, admitted, FilteredPayload(batch.payload, batch.refs, keys));
      reply := Enqueue(job, faults);
    }

    /** The second half of `submit`: the job joins a served queue, or a queue is opened for it. */
    method Enqueue(job: D.Job, faults: D.Faults) returns (reply: D.Reply)
      requires I.Linked(Memory())
      modifies this, correlator, store
      ensures var n := old(View());
        View() == D.EnqueueStep(n, if faults.rollback then n.shared
                                   else n.shared.(table := Rollback(n.shared.table, job.token)), job, faults.start)
      ensures reply == if job.incident in old(queues) then D.QueuedBehind(job.token)
                       else if faults.start then D.Raised else D.Started(job.token)
    {
      if job.incident in queues {
        assert I.HasWorker(Memory(), job.incident);
        Join(job);
        reply := D.QueuedBehind(job.token);
      } else {
        reply := OpenQueue(job, faults);
      }
    }

    method Join(job: D.Job)
      requires job.incident in queues && I.HasWorker(Memory(), job.incident)
      modifies this`heap, this`undecided
      ensures Memory() == D.Append(old(Memory()), old(queues)[job.incident], job)
    {
      var q := queues[job.incident];
      if Stopping(heap[q].worker.value) {
        heap := heap[q := heap[q].(deferred := heap[q].deferred + [job])];
      } else {
        heap := heap[q := heap[q].(pending := heap[q].pending + [job])];
      }
      undecided := undecided + {job.token};
    }

    /** A queue for an incident that has none; a worker that cannot be started undoes it. */
    method OpenQueue(job: D.Job, faults: D.Faults) returns (reply: D.Reply)
      requires job.incident !in queues
      modifies this`heap, this`queues, this`next, this`undecided, this`workers, correlator, store
      ensures Memory() == if faults.start then D.FailedOpen(old(Memory()), job) else D.Open(old(Memory()), job)
      ensures store.table == if faults.start && !faults.rollback then Rollback(old(store.table), job.token)
                             else old(store.table)
      ensures reply == if faults.start then D.Raised else D.Started(job.token)
    {
      if faults.start {
        FailToOpen(job);
        if !faults.rollback {
          store.RollbackQueued(job.token);
        }
        reply := D.Raised;
      } else {
        OpenAndStart(job);
        reply := D.Started(job.token);
      }
    }

    method FailToOpen(job: D.Job)
      requires job.incident !in queues
      modifies this`heap, this`queues, this`next, correlator
      ensures Memory() == D.FailedOpen(old(Memory()), job)
    {
      var q := next;
      Register(job);
      UndoOpen(job, q);
      OpenUndone(old(queues), old(heap), old(correlator.Active()), job.incident, q, D.Queue([job], [], None));
    }

    method OpenAndStart(job: D.Job)
      modifies this`heap, this`queues, this`next, this`undecided, this`workers, correlator
      ensures Memory() == D.Open(old(Memory()), job)
    {
      var q := next;
      Register(job);
      undecided := undecided + {job.token};
      StartWorker(job.incident, q);
      assert heap == old(heap)[q := D.Queue([job], [], Some(old(next) + 1))];
    }

    method Register(job: D.Job)
      modifies this`heap, this`queues, this`next, correlator
      ensures heap == old(heap)[old(next) := D.Queue([job], [], None)]
      ensures queues == old(queues)[job.incident := old(next)] && next == old(next) + 1
      ensures correlator.Active() == D.SetActive(old(correlator.Active()), job.incident, true)
    {
      var q := next;
      heap := heap[q := D.Queue([], [], None)];
      queues := queues[job.incident := q];
      next := next + 1;
      heap := heap[q := heap[q].(pending := heap[q].pending + [job])];
      assert [] + [job] == [job];
      MarkProcessing(job.incident, true);
    }

    method UndoOpen(job: D.Job, q: D.QueueId)
      requires q in heap && heap[q] == D.Queue([job], [], None)
      modifies this`heap, this`queues, correlator
      ensures heap == old(heap)[q := D.Queue([], [], None)] && queues == old(queues) - {job.incident}
      ensures correlator.Active() == D.SetActive(old(correlator.Active()), job.incident, false)
    {
      heap := heap[q := heap[q].(pending := [])];
      queues := queues - {job.incident};
      MarkProcessing(job.incident, false);
    }

    predicate Stopping(w: D.WorkerId)
      reads this
    {
      w !in workers || workers[w].phase == D.Ended || workers[w].cancelling
    }
  }

  /** A token is drawn and the keys are admitted under it. */
  ghost function Drawn(n: D.Node, incident: string, keys: seq<string>): D.Node {
    n.(shared := n.shared.(clock := n.shared.clock + 1, table := Admit(n.shared.table, incident, keys, n.shared.clock)))
  }

  /** The state after `Prepare`. */
  ghost function Prepared(n: D.Node, batch: Batch, token: Token, admitted: seq<string>, faults: D.Faults): D.Node {
    var undone := if faults.rollback then n.shared else n.shared.(table := Rollback(n.shared.table, token));
    var job := D.Job(batch.incident, token, admitted, FilteredPayload(batch.payload, batch.refs, set k | k in admitted));
    if faults.prepare then n.(shared := undone) else D.EnqueueStep(n, undone, job, faults.start)
  }

  ghost function PreparedReply(queues: map<string, D.QueueId>, batch: Batch, token: Token, faults: D.Faults): D.Reply {
    if faults.prepare then D.Raised
    else if batch.incident in queues then D.QueuedBehind(token)
    else if faults.start then D.Raised else D.Started(token)
  }

  lemma PreparedSubmit(n: D.Node, batch: Batch, faults: D.Faults)
    ensures var admitted := FreshKeys(n.shared.table, D.AdmissionKeys(batch));
      && Prepared(Recorded(n, batch), batch, n.shared.clock, admitted, faults)
         == AfterSubmit(n, batch, faults)
      && PreparedReply(n.local.queues, batch, n.shared.clock, faults) == ReplyAfterSubmit(n, batch, faults)
  {
    RecordedIsAdmitted(n, batch);
  }

  /** The token is recorded as issued. */
  ghost function Recorded(n: D.Node, batch: Batch): D.Node {
    var drawn := Drawn(n, batch.incident, D.AdmissionKeys(batch));
    drawn.(shared := drawn.shared.(issued := n.shared.issued[n.shared.clock := D.Origin(n.me, batch.incident)]))
  }

  lemma RecordedIsAdmitted(n: D.Node, batch: Batch)
    ensures Recorded(n, batch) == n.(shared := T.Admitted(n.me, n.shared, batch))
  {
  }

  ghost function ReplyAfterSubmit(n: D.Node, batch: Batch, faults: D.Faults): D.Reply {
    if faults.prepare then D.Raised
    else if batch.incident in n.local.queues then D.QueuedBehind(n.shared.clock)
    else if faults.start then D.Raised else D.Started(n.shared.clock)
  }

  // ---- what the events do, in the terms of the methods above ----

  lemma TaskIsKnown(n: D.Node, w: D.WorkerId)
    requires I.NodeInv(n) && w in n.local.workers
    ensures D.Known(n.local, w)
  {
    assert I.WorkerOk(n.local, w);
  }

  lemma Overwritten(heap: map<D.QueueId, D.Queue>, q: D.QueueId, a: D.Queue, b: D.Queue)
    ensures heap[q := a][q := b] == heap[q := b]
  {
  }

  ghost function WithFlag(n: D.Node, w: D.WorkerId, on: bool): D.Node
    requires w in n.local.workers
  {
    n.(local := n.local.(workers := n.local.workers[w := n.local.workers[w].(cancelling := on)]))
  }

  lemma CancelEffect(n: D.Node, w: D.WorkerId)
    requires I.NodeInv(n) && w in n.local.workers && n.local.workers[w].phase != D.Ended
    ensures D.Step(n, D.CancelTask(w)) == WithFlag(n, w, true) && I.NodeInv(WithFlag(n, w, true))
  {
    S.SetCancellingInv(n, w, true);
  }

  lemma UncancelEffect(n: D.Node, w: D.WorkerId)
    requires I.NodeInv(n) && w in n.local.workers && n.local.workers[w].phase.Handling?
    ensures D.Step(n, D.Uncancel(w)) == WithFlag(n, w, false) && I.NodeInv(WithFlag(n, w, false))
  {
    S.SetCancellingInv(n, w, false);
  }

  lemma Tracked(incidents: map<string, Incident>, incident: string, now: real)
    ensures Flags(incidents[incident := Incident(false, now)]) == Flags(incidents)[incident := false]
  {
  }

  lemma TrackEffect(n: D.Node, incident: string)
    requires I.NodeInv(n) && incident !in n.local.active && incident !in n.local.queues
    ensures D.Step(n, D.Track(incident)) == n.(local := n.local.(active := n.local.active[incident := false]))
    ensures I.NodeInv(D.Step(n, D.Track(incident)))
  {
    S.SetActiveInv(n, n.local.active[incident := false]);
  }

  lemma FirstStepEffect(n: D.Node, w: D.WorkerId, markFails: set<Token>)
    requires I.NodeInv(n) && w in n.local.workers && n.local.workers[w].phase == D.Ready
    ensures var m := D.Step(n, D.FirstStep(w, markFails));
      && I.NodeInv(m) && D.Known(n.local, w)
      && m == if n.local.workers[w].cancelling then n.(local := D.Touch(n.local, w, D.QueueOf(n.local, w), D.Ended))
              else D.Drain(n, w, markFails)
  {
    TaskIsKnown(n, w);
    S.StepInv(n, D.FirstStep(w, markFails));
  }

  lemma ReturnEffect(n: D.Node, w: D.WorkerId, markFails: set<Token>)
    requires I.NodeInv(n) && w in n.local.workers && n.local.workers[w].phase.Handling?
    ensures var m := D.Step(n, D.HandlerReturned(w, markFails));
      I.NodeInv(m) && D.Known(n.local, w) && m == D.Drain(D.Settled(n, w), w, markFails)
  {
    TaskIsKnown(n, w);
    S.StepInv(n, D.HandlerReturned(w, markFails));
  }

  lemma AbortEffect(n: D.Node, w: D.WorkerId)
    requires I.NodeInv(n) && w in n.local.workers && n.local.workers[w].phase.Handling?
    ensures var m := D.Step(n, D.HandlerAborted(w));
      I.NodeInv(m) && D.Known(n.local, w) && m == D.EndTask(D.Settled(n, w), w)
  {
    TaskIsKnown(n, w);
    S.StepInv(n, D.HandlerAborted(w));
  }

  lemma DoneEffect(n: D.Node, w: D.WorkerId, startFails: bool, rollbackFails: set<Token>)
    requires I.NodeInv(n) && w in n.local.workers && n.local.workers[w].phase == D.Ended
    ensures var m := D.Step(n, D.DoneCallback(w, startFails, rollbackFails));
      && I.NodeInv(m) && D.Known(n.local, w)
      && var f := D.FinishWorker(n, w, true, startFails, rollbackFails);
         m == f.(local := f.local.(workers := f.local.workers - {w}))
  {
    TaskIsKnown(n, w);
    T.DoneCallbackInv(n, w, startFails, rollbackFails);
  }

  /** Undoing a registration leaves only the detached queue behind. */
  lemma OpenUndone(queues: map<string, D.QueueId>, heap: map<D.QueueId, D.Queue>, active: map<string, bool>,
                   incident: string, q: D.QueueId, queue: D.Queue)
    requires incident !in queues
    ensures queues[incident := q] - {incident} == queues - {incident}
    ensures heap[q := queue][q := D.Queue([], [], None)] == heap[q := D.Queue([], [], None)]
    ensures D.SetActive(D.SetActive(active, incident, true), incident, false) == D.SetActive(active, incident, false)
  {
  }

  /** With every registered queue served, an accepted submit queues behind it or starts a worker. */
  lemma RepliesAgree(n: D.Node, batch: Batch, faults: D.Faults)
    requires I.Linked(n.local) && FreshKeys(n.shared.table, D.AdmissionKeys(batch)) != []
    requires !faults.admit && D.AdmissionKeys(batch) != []
    ensures D.SubmitReply(n, batch, faults) == ReplyAfterSubmit(n, batch, faults)
    ensures AfterKeys(n, batch, faults) == AfterSubmit(n, batch, faults)
  {
  }

  /** The state once something was admitted and the rest of submit has run. */
  ghost function AfterSubmit(n: D.Node, batch: Batch, faults: D.Faults): D.Node {
    var a := n.(shared := T.Admitted(n.me, n.shared, batch));
    var undone := if faults.rollback then a.shared
                  else a.shared.(table := Rollback(a.shared.table, n.shared.clock));
    if faults.prepare then n.(shared := undone)
    else D.EnqueueStep(a, undone, D.JobFor(n.shared.table, n.shared.clock, batch), faults.start)
  }

  /** The state after a submit that has keys. */
  ghost function AfterKeys(n: D.Node, batch: Batch, faults: D.Faults): D.Node {
    if faults.admit || FreshKeys(n.shared.table, D.AdmissionKeys(batch)) == []
    then n.(shared := n.shared.(clock := n.shared.clock + 1)) else AfterSubmit(n, batch, faults)
  }

  lemma NothingQueued(n: D.Node, batch: Batch, faults: D.Faults)
    requires D.AdmissionKeys(batch) != []
    requires faults.admit || FreshKeys(n.shared.table, D.AdmissionKeys(batch)) == []
    ensures AfterKeys(n, batch, faults) == Drawn(n, batch.incident, [])
    ensures D.SubmitReply(n, batch, faults) == if faults.admit then D.Raised
      else D.Duplicate(D.SoleIncident(DuplicatesOf(n.shared.table, D.AdmissionKeys(batch))))
  {
  }

  lemma KeysOutcome(n: D.Node, batch: Batch, faults: D.Faults)
    requires D.AdmissionKeys(batch) != []
    ensures T.SubmitOutcome(n, batch, faults, AfterKeys(n, batch, faults))
  {
  }

  lemma DedupTwice(xs: seq<string>)
    ensures Dedup(Dedup(xs)) == Dedup(xs)
  {
  }

  lemma AdmitNothing(t: Table, incident: string, token: Token)
    ensures Admit(t, incident, [], token) == t
  {
  }

  /** A fully duplicate admission leaves the table as it was. */
  lemma NothingAdmitted(t: Table, incident: string, keys: seq<string>, token: Token)
    requires FreshKeys(t, keys) == []
    ensures Admit(t, incident, keys, token) == t
  {
  }
}
