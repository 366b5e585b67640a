/** The per-incident queue and worker machine of agents/incident_dispatch.py, as functions on
    values. One event is the code between two awaits on a dispatcher's event loop; a database
    transaction is atomic; several dispatchers share one admission table; a crash drops a
    dispatcher's memory and keeps the table. Object identity (which queue, which task) is a number. */
module Dispatch {
  import opened Basics
  import opened Admission
  import opened Correlator

  type QueueId = nat
  type WorkerId = nat

  /** `_PendingDispatch`; its completion future is named by its admission token. */
  datatype Job = Job(incident: string, token: Token, keys: seq<string>, payload: Payload)

  /** A task: scheduled or between two jobs, awaiting a handler, or done with its done
      callback still to run (afterwards it is forgotten). */
  datatype Phase = Ready | Handling(job: Job) | Ended

  datatype Worker = Worker(incident: string, queue: QueueId, phase: Phase, cancelling: bool)

  /** `_IncidentQueue`. */
  datatype Queue = Queue(pending: seq<Job>, deferred: seq<Job>, worker: Option<WorkerId>)

  /** One dispatcher's memory: `queues` registers queue objects, `heap` holds them, `undecided`
      names the completions that are not done, `active` is the correlator's processing flag. */
  datatype Local = Local(
    queues: map<string, QueueId>,
    heap: map<QueueId, Queue>,
    workers: map<WorkerId, Worker>,
    undecided: set<Token>,
    active: map<string, bool>,
    next: nat)

  /** Which dispatcher admitted a token, and for which incident. */
  datatype Origin = Origin(owner: nat, incident: string)

  /** A handler call. */
  datatype Start = Start(owner: nat, job: Job)

  /** The durable table and the token source, with the history of issued tokens and handler calls. */
  datatype Shared = Shared(table: Table, clock: Token, issued: map<Token, Origin>, starts: seq<Start>)

  datatype Node = Node(me: nat, shared: Shared, local: Local)

  /** Which of the failures the source handles occur during a submit. */
  datatype Faults = Faults(admit: bool, prepare: bool, rollback: bool, start: bool)

  datatype Event =
    | Submit(batch: Batch, faults: Faults)
    | FirstStep(worker: WorkerId, markFails: set<Token>)
    | HandlerReturned(worker: WorkerId, markFails: set<Token>)
    | HandlerAborted(worker: WorkerId)
    | CancelTask(worker: WorkerId)
    | Uncancel(worker: WorkerId)
    | DoneCallback(worker: WorkerId, startFails: bool, rollbackFails: set<Token>)
    | CallerCancels(token: Token)
    | Track(incident: string)
    | Expire(incidents: set<string>)

  const EMPTY: Local := Local(map[], map[], map[], {}, map[], 0)

  function Tokens(jobs: seq<Job>): set<Token> {
    set j | j in jobs :: j.token
  }

  function SetActive(active: map<string, bool>, incident: string, on: bool): map<string, bool> {
    if incident in active then active[incident := on] else active
  }

  // ---- the pieces of the dispatcher ----

  predicate Known(l: Local, w: WorkerId) {
    w in l.workers && l.workers[w].queue in l.heap
  }

  function QueueOf(l: Local, w: WorkerId): Queue
    requires Known(l, w)
  {
    l.heap[l.workers[w].queue]
  }

  predicate Registered(l: Local, w: WorkerId)
    requires Known(l, w)
  {
    l.workers[w].incident in l.queues && l.queues[l.workers[w].incident] == l.workers[w].queue
  }

  /** Replace a worker's phase and its queue's contents. */
  function Touch(l: Local, w: WorkerId, queue: Queue, phase: Phase): Local
    requires Known(l, w)
  {
    l.(heap := l.heap[l.workers[w].queue := queue], workers := l.workers[w := l.workers[w].(phase := phase)])
  }

  function Decide(l: Local, tokens: set<Token>): Local {
    l.(undecided := l.undecided - tokens)
  }

  function Unregister(l: Local, incident: string, q: QueueId): Local {
    l.(queues := l.queues - {incident},
       heap := l.heap[q := Queue([], [], None)],
       active := SetActive(l.active, incident, false))
  }

  /** `_start_worker` on a queue whose pending jobs are `jobs`. */
  function Launch(l: Local, incident: string, q: QueueId, jobs: seq<Job>): Local {
    l.(heap := l.heap[q := Queue(jobs, [], Some(l.next))],
       workers := l.workers[l.next := Worker(incident, q, Ready, false)],
       next := l.next + 1)
  }

  function RollbackAll(t: Table, jobs: seq<Job>, failing: set<Token>): Table {
    if jobs == [] then t
    else
      var rest := RollbackAll(t, jobs[..|jobs| - 1], failing);
      if Last(jobs).token in failing then rest else Rollback(rest, Last(jobs).token)
  }

  /** `_finish_worker`; `done` is whether the task is done. */
  function FinishWorker(n: Node, w: WorkerId, done: bool, startFails: bool, rollbackFails: set<Token>): Node
    requires Known(n.local, w)
  {
    var wk := n.local.workers[w];
    var q := QueueOf(n.local, w);
    if q.worker != Some(w) || (q.deferred != [] && !done) then n
    else
      var l := Decide(n.local, Tokens(q.pending));
      if !Registered(n.local, w) then
        n.(local := l.(heap := l.heap[wk.queue := Queue([], q.deferred, None)]))
      else if q.deferred == [] then
        n.(local := Unregister(l, wk.incident, wk.queue))
      else if !startFails then
        n.(local := Launch(l, wk.incident, wk.queue, q.deferred))
      else
        n.(shared := n.shared.(table := RollbackAll(n.shared.table, q.deferred, rollbackFails)),
           local := Decide(Unregister(l, wk.incident, wk.queue), Tokens(q.deferred)))
  }

  /** The `finally` of `_drain`: `_finish_worker` while the task is not done, then the task is done. */
  function EndTask(n: Node, w: WorkerId): Node
    requires Known(n.local, w)
  {
    var m := FinishWorker(n, w, false, false, {});
    m.(local := m.local.(workers := m.local.workers[w := n.local.workers[w].(phase := Ended)]))
  }

  /** The loop of `_drain`, up to the next handler call or the end of the task. */
  function Drain(n: Node, w: WorkerId, markFails: set<Token>): Node
    requires Known(n.local, w)
    decreases |QueueOf(n.local, w).pending|
  {
    var q := QueueOf(n.local, w);
    if !Registered(n.local, w) || q.pending == [] then EndTask(n, w)
    else
      var job := q.pending[0];
      var rest := q.(pending := q.pending[1..]);
      if job.token in markFails || !CanMark(n.shared.table, job.token, job.keys) then
        Drain(n.(local := Decide(Touch(n.local, w, rest, Ready), {job.token})), w, markFails)
      else
        n.(shared := n.shared.(table := Mark(n.shared.table, job.token, job.keys),
                               starts := n.shared.starts + [Start(n.me, job)]),
           local := Touch(n.local, w, rest, Handling(job)))
  }

  predicate DoneOrCancelling(l: Local, w: WorkerId) {
    w !in l.workers || l.workers[w].phase == Ended || l.workers[w].cancelling
  }

  function AdmissionKeys(batch: Batch): seq<string> {
    Dedup(KeysOf(batch.refs))
  }

  function JobFor(table: Table, token: Token, batch: Batch): Job {
    var admitted := FreshKeys(table, AdmissionKeys(batch));
    Job(batch.incident, token, admitted,
        FilteredPayload(batch.payload, batch.refs, set k | k in admitted))
  }

  /** What `submit` answers; the completion is named by the token. */
  datatype Reply =
    | Started(token: Token) | QueuedBehind(token: Token) | Duplicate(incident: Option<string>) | Raised

  function SubmitReply(n: Node, batch: Batch, faults: Faults): Reply {
    var keys := AdmissionKeys(batch);
    var l := n.local;
    if keys == [] then Duplicate(None)
    else if faults.admit then Raised
    else if FreshKeys(n.shared.table, keys) == [] then
      Duplicate(SoleIncident(DuplicatesOf(n.shared.table, keys)))
    else if faults.prepare then Raised
    else if batch.incident in l.queues && l.queues[batch.incident] in l.heap
            && l.heap[l.queues[batch.incident]].worker.Some? then QueuedBehind(n.shared.clock)
    else if faults.start then Raised
    else Started(n.shared.clock)
  }

  /** The one incident that already holds all the keys, if there is just one. */
  function SoleIncident(duplicates: seq<(string, string)>): Option<string> {
    if duplicates != [] && forall d :: d in duplicates ==> d.1 == duplicates[0].1
    then Some(duplicates[0].1) else None
  }

  /** `submit`: durable admission, then the in-process queue. */
  function SubmitStep(n: Node, batch: Batch, faults: Faults): Node {
    var keys := AdmissionKeys(batch);
    var sh := n.shared;
    if keys == [] then n
    else
      var token := sh.clock;
      var drawn := sh.(clock := sh.clock + 1);
      var admitted := drawn.(table := Admit(sh.table, batch.incident, keys, token),
                             issued := sh.issued[token := Origin(n.me, batch.incident)]);
      var undone := if faults.rollback then admitted
                    else admitted.(table := Rollback(admitted.table, token));
      if faults.admit || FreshKeys(sh.table, keys) == [] then n.(shared := drawn)
      else if faults.prepare then n.(shared := undone)
      else EnqueueStep(n.(shared := admitted), undone, JobFor(sh.table, token, batch), faults.start)
  }

  /** The second half of `submit`: `n.shared` has the admission, `undone` has it rolled back. */
  function EnqueueStep(n: Node, undone: Shared, job: Job, startFails: bool): Node {
    var l := n.local;
    if job.incident in l.queues && l.queues[job.incident] in l.heap
       && l.heap[l.queues[job.incident]].worker.Some? then
      n.(local := Append(l, l.queues[job.incident], job))
    else if startFails then
      n.(shared := undone, local := FailedOpen(l, job))
    else
      n.(local := Open(l, job))
  }

  function Append(l: Local, q: QueueId, job: Job): Local
    requires q in l.heap && l.heap[q].worker.Some?
  {
    var queue := l.heap[q];
    l.(undecided := l.undecided + {job.token},
       heap := l.heap[q := if DoneOrCancelling(l, queue.worker.value)
                           then queue.(deferred := queue.deferred + [job])
                           else queue.(pending := queue.pending + [job])])
  }

  /** Register a queue, mark the incident processing, and start its worker. */
  function Open(l: Local, job: Job): Local {
    var q := l.next;
    Launch(l.(queues := l.queues[job.incident := q],
              undecided := l.undecided + {job.token},
              active := SetActive(l.active, job.incident, true),
              next := l.next + 1),
           job.incident, q, [job])
  }

  /** The worker task could not be created: the queue is unregistered again. */
  function FailedOpen(l: Local, job: Job): Local {
    l.(queues := l.queues - {job.incident},
       heap := l.heap[l.next := Queue([], [], None)],
       active := SetActive(l.active, job.incident, false),
       next := l.next + 1)
  }

  // ---- one event ----

  function Step(n: Node, e: Event): Node {
    var l := n.local;
    match e
    case Submit(batch, faults) => SubmitStep(n, batch, faults)
    case FirstStep(w, markFails) =>
      if Known(l, w) && l.workers[w].phase == Ready then
        // a task cancelled before its first step never enters `_drain`
        if l.workers[w].cancelling then n.(local := Touch(l, w, QueueOf(l, w), Ended))
        else Drain(n, w, markFails)
      else n
    case HandlerReturned(w, markFails) =>
      if Known(l, w) && l.workers[w].phase.Handling? then Drain(Settled(n, w), w, markFails) else n
    case HandlerAborted(w) =>
      if Known(l, w) && l.workers[w].phase.Handling? then EndTask(Settled(n, w), w) else n
    case CancelTask(w) =>
      if w in l.workers && l.workers[w].phase != Ended
      then n.(local := l.(workers := l.workers[w := l.workers[w].(cancelling := true)])) else n
    case Uncancel(w) =>
      if w in l.workers && l.workers[w].phase.Handling?
      then n.(local := l.(workers := l.workers[w := l.workers[w].(cancelling := false)])) else n
    case DoneCallback(w, startFails, rollbackFails) =>
      if Known(l, w) && l.workers[w].phase == Ended then
        var m := FinishWorker(n, w, true, startFails, rollbackFails);
        m.(local := m.local.(workers := m.local.workers - {w}))
      else n
    case CallerCancels(token) => n.(local := Decide(l, {token}))
    case Track(incident) =>
      if incident in l.active || incident in l.queues then n
      else n.(local := l.(active := l.active[incident := false]))
    case Expire(incidents) =>
      n.(local := l.(active := map i | i in l.active && !(i in incidents && !l.active[i]) :: l.active[i]))
  }

  /** A handler's result, exception or cancellation reaches the completion. */
  function Settled(n: Node, w: WorkerId): Node
    requires Known(n.local, w) && n.local.workers[w].phase.Handling?
  {
    n.(local := Decide(Touch(n.local, w, QueueOf(n.local, w), Ready), {n.local.workers[w].phase.job.token}))
  }

  // ---- several dispatchers over one table ----

  datatype System = System(shared: Shared, locals: map<nat, Local>)

  datatype Action = Act(me: nat, event: Event) | Crash(me: nat)

  function LocalOf(s: System, me: nat): Local {
    if me in s.locals then s.locals[me] else EMPTY
  }

  function Apply(s: System, a: Action): System {
    match a
    case Act(me, event) =>
      var n := Step(Node(me, s.shared, LocalOf(s, me)), event);
      System(n.shared, s.locals[me := n.local])
    case Crash(me) => s.(locals := s.locals[me := EMPTY])
  }

  const INITIAL: System := System(Shared(map[], 1, map[], []), map[])

  function Run(actions: seq<Action>): System {
    if actions == [] then INITIAL
    else Apply(Run(actions[..|actions| - 1]), Last(actions))
  }
}
