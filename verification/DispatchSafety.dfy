/** What holds in every run of any number of dispatchers over one admission table. */
module DispatchSafety {
  import opened Basics
  import opened Admission
  import opened Correlator
  import opened Dispatch
  import opened DispatchInvariant
  import opened DispatchSteps

  /** The incident an event can affect. */
  ghost function Affected(n: Node, e: Event): string {
    match e
    case Submit(batch, _) => batch.incident
    case FirstStep(w, _) => if w in n.local.workers then n.local.workers[w].incident else ""
    case HandlerReturned(w, _) => if w in n.local.workers then n.local.workers[w].incident else ""
    case DoneCallback(w, _, _) => if w in n.local.workers then n.local.workers[w].incident else ""
    case _ => ""
  }

  /** Changing only flags that the placement of jobs does not depend on. */
  lemma SameJobs(n: Node, l': Local)
    requires NodeInv(n) && Linked(l') && l'.queues == n.local.queues && l'.undecided <= n.local.undecided
    requires forall j :: j in n.local.queues ==>
      QueueFor(l', j) == QueueFor(n.local, j) && Held(l', j) == Held(n.local, j)
    ensures NodeInv(n.(local := l'))
  {
  }

  lemma FlagLinked(l: Local, w: WorkerId, cancelling: bool)
    requires Linked(l) && w in l.workers
    ensures var l' := l.(workers := l.workers[w := l.workers[w].(cancelling := cancelling)]);
      Linked(l') && forall j :: j in l.queues ==>
        QueueFor(l', j) == QueueFor(l, j) && Held(l', j) == Held(l, j)
        && WorkerFor(l', j) == if QueueFor(l, j).worker == Some(w)
                               then WorkerFor(l, j).(cancelling := cancelling) else WorkerFor(l, j)
  {
  }

  lemma ActiveLinked(l: Local, active: map<string, bool>)
    requires Linked(l) && forall i :: i in active ==> (active[i] <==> i in l.queues)
    ensures var l' := l.(active := active);
      Linked(l') && forall j :: j in l.queues ==> SameQueue(l, l', j)
  {
  }

  lemma CancelledFirstStepInv(n: Node, w: WorkerId)
    requires NodeInv(n) && Known(n.local, w) && n.local.workers[w].phase == Ready
    ensures NodeInv(n.(local := Touch(n.local, w, QueueOf(n.local, w), Ended)))
  {
    var l := n.local;
    var i := l.workers[w].incident;
    ReadyIsBound(l, w);
    RewriteLinked(l, w, QueueOf(l, w), Ended, {});
    var l' := Touch(l, w, QueueOf(l, w), Ended);
    assert Decide(l', {}) == l';
    forall j | j in l.queues ensures QueueFor(l', j) == QueueFor(l, j) && Held(l', j) == Held(l, j) {
      if j != i { assert SameQueue(l, l', j); }
    }
    SameJobs(n, l');
  }

  lemma CancelTaskInv(n: Node, w: WorkerId)
    requires NodeInv(n)
    ensures var m := Step(n, CancelTask(w)); NodeInv(m) && m.me == n.me && m.shared == n.shared
  {
    if w in n.local.workers && n.local.workers[w].phase != Ended { SetCancellingInv(n, w, true); }
  }

  lemma UncancelInv(n: Node, w: WorkerId)
    requires NodeInv(n)
    ensures var m := Step(n, Uncancel(w)); NodeInv(m) && m.me == n.me && m.shared == n.shared
  {
    if w in n.local.workers && n.local.workers[w].phase.Handling? { SetCancellingInv(n, w, false); }
  }

  lemma SetCancellingInv(n: Node, w: WorkerId, on: bool)
    requires NodeInv(n) && w in n.local.workers
    ensures NodeInv(n.(local := n.local.(workers := n.local.workers[w := n.local.workers[w].(cancelling := on)])))
  {
    FlagLinked(n.local, w, on);
    SameJobs(n, n.local.(workers := n.local.workers[w := n.local.workers[w].(cancelling := on)]));
  }

  lemma CallerCancelsInv(n: Node, token: Token)
    requires NodeInv(n)
    ensures NodeInv(n.(local := Decide(n.local, {token})))
  {
    DecideLinked(n.local, {token});
    SameJobs(n, Decide(n.local, {token}));
  }

  lemma SetActiveInv(n: Node, active: map<string, bool>)
    requires NodeInv(n) && forall i :: i in active ==> (active[i] <==> i in n.local.queues)
    ensures NodeInv(n.(local := n.local.(active := active)))
  {
    ActiveLinked(n.local, active);
    SameJobs(n, n.local.(active := active));
  }

  lemma CorrelatorEventInv(n: Node, e: Event)
    requires NodeInv(n) && (e.Track? || e.Expire?)
    ensures NodeInv(Step(n, e)) && Step(n, e).me == n.me && Step(n, e).shared == n.shared
  {
    var l := n.local;
    match e {
      case Track(incident) =>
        if !(incident in l.active || incident in l.queues) { SetActiveInv(n, l.active[incident := false]); }
      case Expire(incidents) =>
        SetActiveInv(n, map i | i in l.active && !(i in incidents && !l.active[i]) :: l.active[i]);
    }
  }

  /** The events that only change flags. */
  lemma FlagEventInv(n: Node, e: Event)
    requires NodeInv(n) && (e.CancelTask? || e.Uncancel? || e.CallerCancels? || e.Track? || e.Expire?)
    ensures NodeInv(Step(n, e)) && Step(n, e).me == n.me && Step(n, e).shared == n.shared
  {
    match e {
      case CancelTask(w) => CancelTaskInv(n, w);
      case Uncancel(w) => UncancelInv(n, w);
      case CallerCancels(token) => CallerCancelsInv(n, token);
      case _ => CorrelatorEventInv(n, e);
    }
  }

  lemma HandlerInv(n: Node, e: Event)
    requires NodeInv(n) && (e.FirstStep? || e.HandlerReturned? || e.HandlerAborted?)
    ensures StepOk(n, Step(n, e), Affected(n, e))
  {
    var l := n.local;
    EvolvesRefl(n.shared, Origin(n.me, Affected(n, e)));
    match e {
      case FirstStep(w, markFails) =>
        if Known(l, w) && l.workers[w].phase == Ready {
          if l.workers[w].cancelling { CancelledFirstStepInv(n, w); } else { DrainInv(n, w, markFails); }
        }
      case HandlerReturned(w, markFails) =>
        if Known(l, w) && l.workers[w].phase.Handling? {
          SettledInv(n, w);
          DrainInv(Settled(n, w), w, markFails);
        }
      case HandlerAborted(w) =>
        if Known(l, w) && l.workers[w].phase.Handling? {
          SettledInv(n, w);
          EndTaskInv(Settled(n, w), w);
        }
    }
  }

  /** Every event of every kind keeps the invariant of its dispatcher. */
  lemma StepInv(n: Node, e: Event)
    requires NodeInv(n)
    ensures StepOk(n, Step(n, e), Affected(n, e))
  {
    match e {
      case Submit(batch, faults) => SubmitInv(n, batch, faults);
      case FirstStep(_, _) => HandlerInv(n, e);
      case HandlerReturned(_, _) => HandlerInv(n, e);
      case HandlerAborted(_) => HandlerInv(n, e);
      case DoneCallback(w, startFails, rollbackFails) =>
        if Known(n.local, w) && n.local.workers[w].phase == Ended {
          DoneCallbackInv(n, w, startFails, rollbackFails);
        } else {
          EvolvesRefl(n.shared, Origin(n.me, Affected(n, e)));
        }
      case _ =>
        FlagEventInv(n, e);
        EvolvesRefl(n.shared, Origin(n.me, Affected(n, e)));
    }
  }

  // ---- all runs ----

  ghost predicate SystemInv(s: System) {
    SharedInv(s.shared) && forall me :: me in s.locals ==> LocalInv(me, s.shared, s.locals[me])
  }

  lemma EmptyLocalInv(me: nat, sh: Shared)
    ensures LocalInv(me, sh, EMPTY)
  {
  }

  lemma ApplyInv(s: System, a: Action)
    requires SystemInv(s)
    ensures SystemInv(Apply(s, a)) && KeepsAttempted(s.shared.table, Apply(s, a).shared.table)
  {
    EmptyLocalInv(a.me, s.shared);
    match a {
      case Crash(me) =>
      case Act(me, event) =>
        var n := Node(me, s.shared, LocalOf(s, me));
        StepInv(n, event);
        var s' := Apply(s, a);
        forall other | other in s'.locals ensures LocalInv(other, s'.shared, s'.locals[other]) {
          if other != me {
            OtherDispatcherFrame(other, s.shared, s'.shared, s.locals[other], Origin(me, Affected(n, event)));
          }
        }
    }
  }

  /** The invariant holds in every reachable state. */
  lemma {:induction false} RunInv(actions: seq<Action>)
    ensures SystemInv(Run(actions))
  {
    if actions != [] {
      RunInv(actions[..|actions| - 1]);
      ApplyInv(Run(actions[..|actions| - 1]), Last(actions));
    }
  }

  /** No handler call shares an occurrence with any other, over every interleaving of
      submits, worker steps, cancellations, failures, rollbacks and crashes, with any number
      of dispatchers on one table. */
  lemma HandlerCallsAreDisjoint(actions: seq<Action>, a: nat, b: nat)
    requires a < b < |Run(actions).shared.starts|
    ensures DisjointKeys(Run(actions).shared.starts[a].job, Run(actions).shared.starts[b].job)
  {
    RunInv(actions);
  }

  /** Attempted rows are final: no later action changes or removes them. */
  lemma {:induction false} AttemptedIsFinal(actions: seq<Action>, more: seq<Action>)
    ensures KeepsAttempted(Run(actions).shared.table, Run(actions + more).shared.table)
  {
    if more == [] {
      assert actions + more == actions;
    } else {
      var init := actions + more[..|more| - 1];
      AttemptedIsFinal(actions, more[..|more| - 1]);
      assert (actions + more)[..|actions + more| - 1] == init && Last(actions + more) == Last(more);
      RunInv(init);
      ApplyInv(Run(init), Last(more));
    }
  }

  // ---- where undecided work is ----

  /** The completion `t` is the job held by the incident's live worker, or one position of its
      pending or deferred queue, and in no other registered queue. */
  ghost predicate InOnePlace(l: Local, i: string, t: Token) {
    && i in l.queues && HasWorker(l, i)
    && (exists a :: 0 <= a < |Items(l, i)| && Items(l, i)[a].token == t)
    && (forall a, b :: 0 <= a < |Items(l, i)| && 0 <= b < |Items(l, i)|
                       && Items(l, i)[a].token == t && Items(l, i)[b].token == t
                       ==> a == b)
    && (forall j :: j in l.queues && j != i ==> HasWorker(l, j) && t !in Tokens(Items(l, j)))
  }

  /** An undecided completion is in exactly one place, and that queue is registered. */
  lemma UndecidedIsInOnePlace(actions: seq<Action>, me: nat, t: Token)
    requires me in Run(actions).locals && t in Run(actions).locals[me].undecided
    ensures var s := Run(actions);
      && t in s.shared.issued && s.shared.issued[t].owner == me
      && InOnePlace(s.locals[me], s.shared.issued[t].incident, t)
  {
    RunInv(actions);
    var s := Run(actions);
    UndecidedPlace(me, s.shared, s.locals[me], t);
  }

  lemma UndecidedPlace(me: nat, sh: Shared, l: Local, t: Token)
    requires LocalInv(me, sh, l) && t in l.undecided
    ensures t in sh.issued && sh.issued[t].owner == me && InOnePlace(l, sh.issued[t].incident, t)
  {
    assert Placed(me, sh, l, t);
    var i := sh.issued[t].incident;
    assert JobsOk(sh, Origin(me, i), Held(l, i), Waiting(l, i));
    var job :| job in Items(l, i) && job.token == t;
    forall j | j in l.queues && j != i ensures t !in Tokens(Items(l, j)) {
      assert JobsOk(sh, Origin(me, j), Held(l, j), Waiting(l, j));
    }
  }

  /** Every registered queue has a task that still has an event to run, and an incident known
      to the correlator is marked processing exactly while its queue is registered. */
  lemma RegisteredQueuesAreServed(actions: seq<Action>, me: nat)
    requires me in Run(actions).locals
    ensures var l := Run(actions).locals[me];
      && (forall i :: i in l.queues ==> HasWorker(l, i))
      && (forall i :: i in l.active ==> (l.active[i] <==> i in l.queues))
  {
    RunInv(actions);
  }

  /** The correlator never expires an incident with undecided work. */
  lemma ExpiryKeepsBusyIncidents(actions: seq<Action>, me: nat, incidents: set<string>, t: Token)
    requires me in Run(actions).locals && t in Run(actions).locals[me].undecided
    ensures var s := Run(actions);
      && t in s.shared.issued
      && var i := s.shared.issued[t].incident;
         i in s.locals[me].active ==>
         i in Step(Node(me, s.shared, s.locals[me]), Expire(incidents)).local.active
  {
    RunInv(actions);
    assert Placed(me, Run(actions).shared, Run(actions).locals[me], t);
  }

  /** When every task of a dispatcher has run to its end, all its completions are decided,
      no queue is registered and no incident is marked processing. */
  lemma QuietMeansDone(actions: seq<Action>, me: nat)
    requires me in Run(actions).locals && Run(actions).locals[me].workers == map[]
    ensures var l := Run(actions).locals[me];
      l.undecided == {} && l.queues == map[] && forall i :: i in l.active ==> !l.active[i]
  {
    RunInv(actions);
    var l := Run(actions).locals[me];
    assert forall i :: i in l.queues ==> HasWorker(l, i);
    assert l.queues.Keys == {};
    assert forall t :: t in l.undecided ==> Placed(me, Run(actions).shared, l, t);
  }

  /** Within one dispatcher, at most one handler runs per incident at any time. */
  lemma OneHandlerPerIncident(actions: seq<Action>, me: nat, v: WorkerId, w: WorkerId)
    requires me in Run(actions).locals
    requires v in Run(actions).locals[me].workers && w in Run(actions).locals[me].workers
    requires Run(actions).locals[me].workers[v].phase.Handling? && Run(actions).locals[me].workers[w].phase.Handling?
    requires Run(actions).locals[me].workers[v].incident == Run(actions).locals[me].workers[w].incident
    ensures v == w
  {
    RunInv(actions);
    var l := Run(actions).locals[me];
    assert WorkerOk(l, v) && WorkerOk(l, w);
    assert Bound(l, v) && Bound(l, w);
  }

  /** A job at the head of a registered queue fails to start only when the store itself fails:
      its rows are always still queued under its own token. */
  lemma OnlyStoreFailuresSkipJobs(actions: seq<Action>, me: nat, i: string)
    requires me in Run(actions).locals && i in Run(actions).locals[me].queues
    ensures var s := Run(actions); var l := s.locals[me];
      HasWorker(l, i) && forall x :: x in Waiting(l, i) ==> CanMark(s.shared.table, x.token, x.keys)
  {
    RunInv(actions);
    var s := Run(actions);
    var l := s.locals[me];
    assert JobsOk(s.shared, Origin(me, i), Held(l, i), Waiting(l, i));
    forall x | x in Waiting(l, i) ensures CanMark(s.shared.table, x.token, x.keys) {
      StartableCanMark(s.shared, x);
    }
  }

  // ---- what is delivered ----

  /** Every job in memory and every handler call satisfies `p`. */
  ghost predicate AllJobs(p: Job -> bool, sh: Shared, l: Local) {
    && (forall q, x :: q in l.heap && x in l.heap[q].pending + l.heap[q].deferred ==> p(x))
    && (forall w :: w in l.workers && l.workers[w].phase.Handling? ==> p(l.workers[w].phase.job))
    && (forall s :: s in sh.starts ==> p(s.job))
  }

  lemma FinishJobs(p: Job -> bool, n: Node, w: WorkerId, done: bool, startFails: bool, rollbackFails: set<Token>)
    requires AllJobs(p, n.shared, n.local) && Known(n.local, w)
    ensures var m := FinishWorker(n, w, done, startFails, rollbackFails); AllJobs(p, m.shared, m.local)
  {
  }

  lemma {:induction false} DrainJobs(p: Job -> bool, n: Node, w: WorkerId, markFails: set<Token>)
    requires AllJobs(p, n.shared, n.local) && Known(n.local, w)
    ensures var m := Drain(n, w, markFails); AllJobs(p, m.shared, m.local)
    decreases |QueueOf(n.local, w).pending|
  {
    var q := QueueOf(n.local, w);
    if !Registered(n.local, w) || q.pending == [] {
      FinishJobs(p, n, w, false, false, {});
    } else {
      var job := q.pending[0];
      var rest := q.(pending := q.pending[1..]);
      assert job in q.pending + q.deferred;
      forall x | x in rest.pending + rest.deferred ensures x in q.pending + q.deferred { }
      if job.token in markFails || !CanMark(n.shared.table, job.token, job.keys) {
        var m := n.(local := Decide(Touch(n.local, w, rest, Ready), {job.token}));
        DrainJobs(p, m, w, markFails);
      }
    }
  }

  lemma EnqueueJobs(p: Job -> bool, n: Node, undone: Shared, job: Job, startFails: bool)
    requires AllJobs(p, n.shared, n.local) && p(job) && undone.starts == n.shared.starts
    ensures var m := EnqueueStep(n, undone, job, startFails); AllJobs(p, m.shared, m.local)
  {
  }

  lemma StepJobs(p: Job -> bool, n: Node, e: Event)
    requires AllJobs(p, n.shared, n.local)
    requires e.Submit? ==> p(JobFor(n.shared.table, n.shared.clock, e.batch))
                           || FreshKeys(n.shared.table, AdmissionKeys(e.batch)) == []
    ensures AllJobs(p, Step(n, e).shared, Step(n, e).local)
  {
    match e {
      case Submit(batch, faults) =>
        SubmitCases(n, batch, faults);
        if p(JobFor(n.shared.table, n.shared.clock, batch)) {
          var undone := if faults.rollback then Admitted(n.me, n.shared, batch) else Undone(n.me, n.shared, batch);
          EnqueueJobs(p, n.(shared := Admitted(n.me, n.shared, batch)), undone,
                      JobFor(n.shared.table, n.shared.clock, batch), faults.start);
        }
      case FirstStep(w, markFails) =>
        if Known(n.local, w) { DrainJobs(p, n, w, markFails); }
      case HandlerReturned(w, markFails) =>
        if Known(n.local, w) && n.local.workers[w].phase.Handling? { DrainJobs(p, Settled(n, w), w, markFails); }
      case HandlerAborted(w) =>
        if Known(n.local, w) && n.local.workers[w].phase.Handling? { FinishJobs(p, Settled(n, w), w, false, false, {}); }
      case DoneCallback(w, startFails, rollbackFails) =>
        if Known(n.local, w) { FinishJobs(p, n, w, true, startFails, rollbackFails); }
      case _ =>
    }
  }

  /** A job built by submit from a batch of the correlator. */
  ghost predicate Genuine(kf: Keying, job: Job) {
    job.keys != [] && exists p: Payload :: GenuineFrom(kf, p, job)
  }

  ghost predicate GenuineFrom(kf: Keying, p: Payload, job: Job) {
    && job.payload == FilteredPayload(p, OccurrenceRefs(kf, p), set k | k in job.keys)
    && forall k :: k in job.keys ==> k in KeysOf(OccurrenceRefs(kf, p))
  }

  /** Every submitted batch carries the references the correlator computes for its payload. */
  ghost predicate FromCorrelator(kf: Keying, actions: seq<Action>) {
    forall a :: a in actions && a.Act? && a.event.Submit? ==>
      a.event.batch.refs == OccurrenceRefs(kf, a.event.batch.payload)
  }

  lemma {:induction false} RunJobs(kf: Keying, actions: seq<Action>)
    requires FromCorrelator(kf, actions)
    ensures forall s :: s in Run(actions).shared.starts ==> Genuine(kf, s.job)
    ensures forall me :: me in Run(actions).locals ==>
      AllJobs(job => Genuine(kf, job), Run(actions).shared, Run(actions).locals[me])
  {
    var p := job => Genuine(kf, job);
    if actions != [] {
      var init := actions[..|actions| - 1];
      var a := Last(actions);
      RunJobs(kf, init);
      var s := Run(init);
      if a.Act? {
        var n := Node(a.me, s.shared, LocalOf(s, a.me));
        assert AllJobs(p, n.shared, n.local);
        if a.event.Submit? {
          var batch := a.event.batch;
          var job := JobFor(s.shared.table, s.shared.clock, batch);
          assert batch.refs == OccurrenceRefs(kf, batch.payload);
          assert GenuineFrom(kf, batch.payload, job);
        }
        StepJobs(p, n, a.event);
        assert AllJobs(p, Run(actions).shared, Run(actions).locals[a.me]);
        forall s | s in Run(actions).shared.starts ensures Genuine(kf, s.job) {
          assert p(s.job);
        }
        forall other | other in Run(actions).locals
          ensures AllJobs(p, Run(actions).shared, Run(actions).locals[other])
        {
        }
      }
    }
  }

  /** Main result: each occurrence is in the payload of at most one handler call. */
  lemma DeliveredAtMostOnce(kf: Keying, actions: seq<Action>, a: nat, b: nat, key: string)
    requires FromCorrelator(kf, actions)
    requires a < |Run(actions).shared.starts| && b < |Run(actions).shared.starts|
    requires key in KeysOf(OccurrenceRefs(kf, Run(actions).shared.starts[a].job.payload))
    requires key in KeysOf(OccurrenceRefs(kf, Run(actions).shared.starts[b].job.payload))
    ensures a == b
  {
    var starts := Run(actions).shared.starts;
    RunJobs(kf, actions);
    DeliveredKeys(kf, starts[a].job);
    DeliveredKeys(kf, starts[b].job);
    if a < b { HandlerCallsAreDisjoint(actions, a, b); }
    if b < a { HandlerCallsAreDisjoint(actions, b, a); }
  }

  /** The occurrences in a handler's payload are exactly the keys its job was admitted with. */
  lemma DeliveredKeys(kf: Keying, job: Job)
    requires Genuine(kf, job)
    ensures forall k :: k in KeysOf(OccurrenceRefs(kf, job.payload)) <==> k in job.keys
  {
    var p: Payload :| GenuineFrom(kf, p, job);
    var admitted := set k | k in job.keys;
    assert job.keys[0] in admitted;
    DeliveredKeysAreAdmittedKeys(kf, p, admitted);
  }
}
