/** What moves the dispatcher on (agents/incident_dispatch.py:267-387): which handler is called next,
    which completions each event decides, and what a restart that fails takes back. */
module DispatchProgress {
  import opened Basics
  import opened Admission
  import opened Correlator
  import opened Dispatch
  import opened DispatchInvariant
  import opened DispatchSteps
  import opened DispatchDraining

  // ---- draining ----

  /** How many jobs at the head cannot be marked because the store fails. */
  function Skipped(jobs: seq<Job>, failing: set<Token>): (k: nat)
    ensures k <= |jobs| && (forall j :: 0 <= j < k ==> jobs[j].token in failing)
    ensures k < |jobs| ==> jobs[k].token !in failing
  {
    if jobs == [] || jobs[0].token !in failing then 0 else 1 + Skipped(jobs[1..], failing)
  }

  ghost predicate AllMarkable(t: Table, jobs: seq<Job>) {
    forall x :: x in jobs ==> CanMark(t, x.token, x.keys)
  }

  /** The handler of the job is called, under its rows. */
  ghost predicate Calls(n: Node, m: Node, w: WorkerId, job: Job) {
    && m.shared == n.shared.(table := Mark(n.shared.table, job.token, job.keys), starts := n.shared.starts + [Start(n.me, job)])
    && w in m.local.workers && m.local.workers[w].phase == Handling(job)
  }

  /** The first pending job whose store works has its handler called and the later ones stay; those
      before it are decided. If there is none, all are decided and the task ends. */
  ghost predicate Drained(n: Node, m: Node, w: WorkerId, failing: set<Token>)
    requires Known(n.local, w)
  {
    var q := QueueOf(n.local, w);
    var k := Skipped(q.pending, failing);
    && m.local.undecided == n.local.undecided - Tokens(q.pending[..k])
    && if k < |q.pending| then
         Calls(n, m, w, q.pending[k]) && Known(m.local, w) && QueueOf(m.local, w) == q.(pending := q.pending[k + 1..])
       else m.shared == n.shared && w in m.local.workers && m.local.workers[w].phase == Ended
  }

  lemma TokensCons(jobs: seq<Job>, k: nat)
    requires k < |jobs|
    ensures Tokens(jobs[..k + 1]) == {jobs[0].token} + Tokens(jobs[1..][..k])
  {
    var more, rest := jobs[..k + 1], jobs[1..][..k];
    assert more == [jobs[0]] + rest;
  }

  lemma EndIsDrained(n: Node, w: WorkerId, failing: set<Token>)
    requires Bound(n.local, w) && QueueOf(n.local, w).pending == []
    ensures Drained(n, EndTask(n, w), w, failing)
  {
    assert Tokens([]) == {};
  }

  lemma {:induction false} DrainIsTold(n: Node, w: WorkerId, failing: set<Token>)
    requires Bound(n.local, w) && AllMarkable(n.shared.table, QueueOf(n.local, w).pending)
    ensures Drained(n, Drain(n, w, failing), w, failing)
    decreases |QueueOf(n.local, w).pending|
  {
    var q := QueueOf(n.local, w);
    if q.pending == [] {
      EndIsDrained(n, w, failing);
    } else if q.pending[0].token in failing {
      var n' := Skip(n, w);
      DrainIsTold(n', w, failing);
      SkippedMore(n, Drain(n, w, failing), w, failing);
    } else {
      assert q.pending[0] in q.pending;
      assert q.pending[..0] == [] && Tokens([]) == {};
    }
  }

  /** The first pending job is dropped and decided. */
  function Skip(n: Node, w: WorkerId): Node
    requires Known(n.local, w) && QueueOf(n.local, w).pending != []
  {
    var q := QueueOf(n.local, w);
    n.(local := Decide(Touch(n.local, w, q.(pending := q.pending[1..]), Ready), {q.pending[0].token}))
  }

  lemma SkippedMore(n: Node, m: Node, w: WorkerId, failing: set<Token>)
    requires Bound(n.local, w) && QueueOf(n.local, w).pending != [] && QueueOf(n.local, w).pending[0].token in failing
    requires Bound(Skip(n, w).local, w) && Drained(Skip(n, w), m, w, failing)
    ensures Drained(n, m, w, failing)
  {
    var jobs := QueueOf(n.local, w).pending;
    var k := Skipped(jobs[1..], failing);
    assert QueueOf(Skip(n, w).local, w).pending == jobs[1..];
    TokensCons(jobs, k);
    assert Skipped(jobs, failing) == k + 1;
    if k < |jobs[1..]| { assert jobs[1..][k + 1..] == jobs[k + 2..]; }
  }

  // ---- which completions an event decides ----

  /** The completions that the event decides: of the call that ended, of the jobs whose rows could not be
      marked, of what a cancelled task leaves pending, of deferred work that could not be restarted, and
      of a caller that gave up. */
  function Decides(l: Local, e: Event): set<Token> {
    match e
    case FirstStep(w, failing) =>
      if Known(l, w) && l.workers[w].phase == Ready && !l.workers[w].cancelling
      then Tokens(QueueOf(l, w).pending[..Skipped(QueueOf(l, w).pending, failing)]) else {}
    case HandlerReturned(w, failing) =>
      if Known(l, w) && l.workers[w].phase.Handling?
      then {l.workers[w].phase.job.token} + Tokens(QueueOf(l, w).pending[..Skipped(QueueOf(l, w).pending, failing)]) else {}
    case HandlerAborted(w) =>
      if Known(l, w) && l.workers[w].phase.Handling?
      then {l.workers[w].phase.job.token} + (if QueueOf(l, w).deferred == [] then Tokens(QueueOf(l, w).pending) else {}) else {}
    case DoneCallback(w, startFails, _) =>
      if Known(l, w) && l.workers[w].phase == Ended && QueueOf(l, w).worker == Some(w)
      then Tokens(QueueOf(l, w).pending) + (if startFails then Tokens(QueueOf(l, w).deferred) else {}) else {}
    case CallerCancels(token) => {token}
    case _ => {}
  }

  /** The completion that an accepted submit adds. */
  function Adds(n: Node, e: Event): set<Token> {
    if e.Submit? then
      (match SubmitReply(n, e.batch, e.faults)
       case Started(token) => {token}
       case QueuedBehind(token) => {token}
       case _ => {})
    else {}
  }

  lemma PendingIsMarkable(n: Node, w: WorkerId)
    requires NodeInv(n) && Bound(n.local, w)
    ensures AllMarkable(n.shared.table, QueueOf(n.local, w).pending)
  {
    var i := n.local.workers[w].incident;
    assert JobsOk(n.shared, Origin(n.me, i), Held(n.local, i), Waiting(n.local, i));
    forall x | x in QueueOf(n.local, w).pending ensures CanMark(n.shared.table, x.token, x.keys) {
      assert x in Waiting(n.local, i);
      StartableCanMark(n.shared, x);
    }
  }

  lemma SettledKeepsBound(n: Node, w: WorkerId)
    requires Bound(n.local, w) && n.local.workers[w].phase.Handling?
    ensures var m := Settled(n, w);
      && Bound(m.local, w) && QueueOf(m.local, w) == QueueOf(n.local, w) && m.shared == n.shared
      && m.local.undecided == n.local.undecided - {n.local.workers[w].phase.job.token}
  {
  }

  lemma FirstStepDecides(n: Node, w: WorkerId, failing: set<Token>)
    requires NodeInv(n)
    ensures var e := FirstStep(w, failing); Step(n, e).local.undecided == n.local.undecided - Decides(n.local, e)
  {
    if Known(n.local, w) && n.local.workers[w].phase == Ready && !n.local.workers[w].cancelling {
      PendingIsMarkable(n, w);
      DrainIsTold(n, w, failing);
    }
  }

  lemma ReturnDecides(n: Node, w: WorkerId, failing: set<Token>)
    requires NodeInv(n)
    ensures var e := HandlerReturned(w, failing); Step(n, e).local.undecided == n.local.undecided - Decides(n.local, e)
  {
    if Known(n.local, w) && n.local.workers[w].phase.Handling? {
      PendingIsMarkable(n, w);
      SettledKeepsBound(n, w);
      DrainIsTold(Settled(n, w), w, failing);
    }
  }

  lemma AbortDecides(n: Node, w: WorkerId)
    requires NodeInv(n)
    ensures var e := HandlerAborted(w); Step(n, e).local.undecided == n.local.undecided - Decides(n.local, e)
  {
    if Known(n.local, w) && n.local.workers[w].phase.Handling? { SettledKeepsBound(n, w); }
  }

  lemma DoneDecides(n: Node, w: WorkerId, startFails: bool, failing: set<Token>)
    requires NodeInv(n)
    ensures var e := DoneCallback(w, startFails, failing); Step(n, e).local.undecided == n.local.undecided - Decides(n.local, e)
  {
    if Known(n.local, w) && n.local.workers[w].phase == Ended && QueueOf(n.local, w).worker == Some(w) {
      assert Bound(n.local, w);
      if QueueOf(n.local, w).deferred == [] { assert Tokens([]) == {}; }
    }
  }

  lemma EnqueueAdds(n: Node, undone: Shared, job: Job, startFails: bool)
    ensures EnqueueStep(n, undone, job, startFails).local.undecided == n.local.undecided +
      var l := n.local;
      var served := job.incident in l.queues && l.queues[job.incident] in l.heap && l.heap[l.queues[job.incident]].worker.Some?;
      if startFails && !served then {} else {job.token}
  {
  }

  lemma SubmitAdds(n: Node, batch: Batch, faults: Faults)
    ensures SubmitStep(n, batch, faults).local.undecided == n.local.undecided + Adds(n, Submit(batch, faults))
  {
    var sh := n.shared;
    var admitted := Admitted(n.me, sh, batch);
    var undone := if faults.rollback then admitted else Undone(n.me, sh, batch);
    EnqueueAdds(n.(shared := admitted), undone, JobFor(sh.table, sh.clock, batch), faults.start);
  }

  lemma StepDecides(n: Node, e: Event)
    requires NodeInv(n)
    ensures Step(n, e).local.undecided == n.local.undecided - Decides(n.local, e) + Adds(n, e)
  {
    match e {
      case Submit(batch, faults) => SubmitAdds(n, batch, faults);
      case FirstStep(w, failing) => FirstStepDecides(n, w, failing);
      case HandlerReturned(w, failing) => ReturnDecides(n, w, failing);
      case HandlerAborted(w) => AbortDecides(n, w);
      case DoneCallback(w, startFails, failing) => DoneDecides(n, w, startFails, failing);
      case _ =>
    }
  }

  // ---- main results ----

  /** In every reachable state: an event decides exactly those completions, and an accepted submit adds
      exactly its own. So a job that waits is decided only when its turn comes and its rows cannot be
      marked, when its task is cancelled or cannot be restarted, or when its caller gives up. */
  lemma CompletionsAreDecidedBy(actions: seq<Action>, me: nat, e: Event)
    ensures var n := NodeAt(actions, me); var m := NodeAt(actions + [Act(me, e)], me);
      m.local.undecided == n.local.undecided - Decides(n.local, e) + Adds(n, e)
  {
    NodeAtInv(actions, me);
    NodeAtSnoc(actions, me, e);
    StepDecides(NodeAt(actions, me), e);
  }

  /** In every reachable state: when a task starts, or its handler returns, the next handler call is that
      of its first pending job whose rows the store can mark; without one, the task ends. */
  lemma NextCallIsTold(actions: seq<Action>, me: nat, w: WorkerId, failing: set<Token>)
    requires var l := NodeAt(actions, me).local; w in l.workers && (l.workers[w].phase.Handling? || !l.workers[w].cancelling)
    requires NodeAt(actions, me).local.workers[w].phase != Ended
    ensures var n := NodeAt(actions, me); var returned := n.local.workers[w].phase.Handling?;
      && Known(n.local, w) && Registered(n.local, w)
      && Drained(if returned then Settled(n, w) else n,
                 NodeAt(actions + [Act(me, if returned then HandlerReturned(w, failing) else FirstStep(w, failing))], me), w, failing)
  {
    NodeAtInv(actions, me);
    var n := NodeAt(actions, me);
    PendingIsMarkable(n, w);
    if n.local.workers[w].phase.Handling? {
      NodeAtSnoc(actions, me, HandlerReturned(w, failing));
      SettledKeepsBound(n, w);
      DrainIsTold(Settled(n, w), w, failing);
    } else {
      NodeAtSnoc(actions, me, FirstStep(w, failing));
      DrainIsTold(n, w, failing);
    }
  }

  /** A row that a rollback of these jobs takes back. */
  predicate TakenBack(t: Table, jobs: seq<Job>, failing: set<Token>, key: string)
    requires key in t
  {
    !t[key].attempted && t[key].token != EMPTY_TOKEN && exists x :: x in jobs && x.token == t[key].token && x.token !in failing
  }

  lemma {:induction false} RollbackAllTakes(t: Table, jobs: seq<Job>, failing: set<Token>)
    ensures RollbackAll(t, jobs, failing) == map k | k in t && !TakenBack(t, jobs, failing, k) :: t[k]
  {
    if jobs != [] {
      var init := jobs[..|jobs| - 1];
      assert jobs == init + [Last(jobs)];
      RollbackAllTakes(t, init, failing);
    }
  }

  /** In every reachable state: if the task for deferred jobs cannot be created, their rows are deleted
      (where the store works), so that those occurrences can be submitted again; nothing else of the
      table changes, no handler is called, and the incident is free. */
  lemma FailedRestartTakesBack(actions: seq<Action>, me: nat, w: WorkerId, failing: set<Token>)
    requires var l := NodeAt(actions, me).local;
      Known(l, w) && l.workers[w].phase == Ended && QueueOf(l, w).worker == Some(w) && QueueOf(l, w).deferred != []
    ensures var n := NodeAt(actions, me); var m := NodeAt(actions + [Act(me, DoneCallback(w, true, failing))], me);
      var t, jobs := n.shared.table, QueueOf(n.local, w).deferred;
      && (forall x, k :: x in jobs && x.token !in failing && k in x.keys ==> k in t && k !in m.shared.table)
      && (forall k :: k in t && (t[k].attempted || !(exists x :: x in jobs && x.token !in failing && x.token == t[k].token))
            ==> k in m.shared.table && m.shared.table[k] == t[k])
      && (forall k :: k in m.shared.table ==> k in t)
      && m.shared.starts == n.shared.starts && n.local.workers[w].incident !in m.local.queues
  {
    NodeAtInv(actions, me);
    NodeAtSnoc(actions, me, DoneCallback(w, true, failing));
    var n := NodeAt(actions, me);
    RestartFails(n, w, failing);
    RowsAreTakenBack(n, w, failing);
  }

  lemma RestartFails(n: Node, w: WorkerId, failing: set<Token>)
    requires NodeInv(n) && Bound(n.local, w) && n.local.workers[w].phase == Ended && QueueOf(n.local, w).deferred != []
    ensures var m := Step(n, DoneCallback(w, true, failing));
      && m.shared == n.shared.(table := RollbackAll(n.shared.table, QueueOf(n.local, w).deferred, failing))
      && n.local.workers[w].incident !in m.local.queues
  {
  }

  lemma RowsAreTakenBack(n: Node, w: WorkerId, failing: set<Token>)
    requires NodeInv(n) && Bound(n.local, w)
    ensures var t, jobs := n.shared.table, QueueOf(n.local, w).deferred; var t' := RollbackAll(t, jobs, failing);
      && (forall x, k :: x in jobs && x.token !in failing && k in x.keys ==> k in t && k !in t')
      && (forall k :: k in t && (t[k].attempted || !(exists x :: x in jobs && x.token !in failing && x.token == t[k].token))
            ==> k in t' && t'[k] == t[k])
      && (forall k :: k in t' ==> k in t)
  {
    var jobs := QueueOf(n.local, w).deferred;
    RollbackAllTakes(n.shared.table, jobs, failing);
    forall x, k | x in jobs && x.token !in failing && k in x.keys
      ensures k in n.shared.table && TakenBack(n.shared.table, jobs, failing, k)
    {
      DeferredIsQueued(n, w, x);
    }
  }

  lemma DeferredIsQueued(n: Node, w: WorkerId, x: Job)
    requires NodeInv(n) && Bound(n.local, w) && x in QueueOf(n.local, w).deferred
    ensures x.token != EMPTY_TOKEN && Startable(n.shared, x)
  {
    var i := n.local.workers[w].incident;
    assert JobsOk(n.shared, Origin(n.me, i), Held(n.local, i), Waiting(n.local, i));
    assert x in Waiting(n.local, i);
  }
}
