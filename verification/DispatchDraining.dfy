/** What follows when nothing more is submitted: the jobs of a worker are started one after another,
    so the handler calls themselves are in admission order only if every submit was guarded. */
module DispatchDraining {
  import opened Basics
  import opened Dispatch
  import opened DispatchInvariant
  import opened DispatchSteps
  import opened DispatchSafety
  import opened DispatchOrder

  // ---- the next event of a worker ----

  /** The head of the pending jobs is marked and its handler is called. */
  ghost function Begun(n: Node, w: WorkerId): Node
    requires Known(n.local, w) && QueueOf(n.local, w).pending != []
  {
    var q := QueueOf(n.local, w);
    Node(n.me, AfterStart(n.me, n.shared, q.pending[0]),
         Touch(n.local, w, q.(pending := q.pending[1..]), Handling(q.pending[0])))
  }

  lemma DrainBegins(n: Node, w: WorkerId)
    requires NodeInv(n) && Known(n.local, w) && n.local.workers[w].phase == Ready && QueueOf(n.local, w).pending != []
    ensures Drain(n, w, {}) == Begun(n, w)
  {
    var i, job := n.local.workers[w].incident, QueueOf(n.local, w).pending[0];
    ReadyIsBound(n.local, w);
    assert JobsOk(n.shared, Origin(n.me, i), Held(n.local, i), Waiting(n.local, i));
    assert job in Waiting(n.local, i);
    StartableCanMark(n.shared, job);
  }

  /** A worker that has not ended and will run its loop once its task goes on. */
  ghost predicate Serving(n: Node, w: WorkerId) {
    && NodeInv(n) && Known(n.local, w)
    && (n.local.workers[w].phase.Handling? || (n.local.workers[w].phase == Ready && !n.local.workers[w].cancelling))
  }

  ghost function NextEvent(n: Node, w: WorkerId): Event
    requires w in n.local.workers
  {
    if n.local.workers[w].phase.Handling? then HandlerReturned(w, {}) else FirstStep(w, {})
  }

  lemma NextBegins(n: Node, w: WorkerId)
    requires Serving(n, w) && QueueOf(n.local, w).pending != []
    ensures Step(n, NextEvent(n, w))
            == if n.local.workers[w].phase.Handling? then Begun(Settled(n, w), w) else Begun(n, w)
  {
    if n.local.workers[w].phase.Handling? {
      SettledInv(n, w);
      DrainBegins(Settled(n, w), w);
    } else {
      DrainBegins(n, w);
    }
  }

  /** What a step leaves of a worker: its phase and pending jobs move on, and the rest stays. */
  ghost predicate Moves(n: Node, m: Node, w: WorkerId, phase: Phase, pending: seq<Job>, starts: seq<Start>)
    requires Known(n.local, w)
  {
    && m.me == n.me && m.local.next == n.local.next && Known(m.local, w)
    && m.local.workers[w] == n.local.workers[w].(phase := phase)
    && QueueOf(m.local, w) == QueueOf(n.local, w).(pending := pending)
    && m.shared.starts == n.shared.starts + starts && m.shared.clock == n.shared.clock
    && m.shared.table.Keys == n.shared.table.Keys
  }

  lemma BegunMoves(n: Node, w: WorkerId)
    requires Known(n.local, w) && QueueOf(n.local, w).pending != []
    ensures var pending := QueueOf(n.local, w).pending;
      Moves(n, Begun(n, w), w, Handling(pending[0]), pending[1..], [Start(n.me, pending[0])])
  {
  }

  lemma SettledMoves(n: Node, w: WorkerId)
    requires Known(n.local, w) && n.local.workers[w].phase.Handling?
    ensures Moves(n, Settled(n, w), w, Ready, QueueOf(n.local, w).pending, [])
  {
  }

  /** A serving worker with pending jobs calls the handler of the first one next. */
  lemma NextStarts(n: Node, w: WorkerId)
    requires Serving(n, w) && QueueOf(n.local, w).pending != []
    ensures var m := Step(n, NextEvent(n, w)); var pending := QueueOf(n.local, w).pending;
      NodeInv(m) && Moves(n, m, w, Handling(pending[0]), pending[1..], [Start(n.me, pending[0])])
  {
    StepInv(n, NextEvent(n, w));
    NextBegins(n, w);
    if n.local.workers[w].phase.Handling? {
      SettledMoves(n, w);
      BegunMoves(Settled(n, w), w);
    } else {
      BegunMoves(n, w);
    }
  }

  /** With nothing pending and jobs deferred, the task ends and leaves them to its done callback. */
  lemma ReturnEnds(n: Node, w: WorkerId)
    requires Serving(n, w) && n.local.workers[w].phase.Handling?
    requires QueueOf(n.local, w).pending == [] && QueueOf(n.local, w).deferred != []
    ensures var m := Step(n, HandlerReturned(w, {}));
      && NodeInv(m) && Moves(n, m, w, Ended, [], []) && Bound(m.local, w) && m.shared == n.shared
  {
    StepInv(n, HandlerReturned(w, {}));
    ReturnIsEnd(n, w);
    SettledMoves(n, w);
    EndedMoves(Settled(n, w), w);
  }

  lemma ReturnIsEnd(n: Node, w: WorkerId)
    requires Serving(n, w) && n.local.workers[w].phase.Handling?
    requires QueueOf(n.local, w).pending == [] && QueueOf(n.local, w).deferred != []
    ensures var t := Settled(n, w);
      Bound(t.local, w) && Step(n, HandlerReturned(w, {})) == t.(local := EndedEarly(t.local, w))
  {
    SettledInv(n, w);
    SettledMoves(n, w);
    EndEarlyStep(Settled(n, w), w);
  }

  lemma EndedMoves(n: Node, w: WorkerId)
    requires Bound(n.local, w)
    ensures var m := n.(local := EndedEarly(n.local, w));
      Moves(n, m, w, Ended, QueueOf(n.local, w).pending, []) && Bound(m.local, w)
  {
  }

  /** The done callback restarts the queue for its deferred jobs, under a new worker. */
  lemma DoneRestarts(n: Node, w: WorkerId)
    requires NodeInv(n) && Bound(n.local, w) && n.local.workers[w].phase == Ended && QueueOf(n.local, w).deferred != []
    ensures var m, v := Step(n, DoneCallback(w, false, {})), n.local.next;
      && NodeInv(m) && m.me == n.me && m.shared == n.shared && m.local.next == v + 1 && Known(m.local, v)
      && m.local.workers[v] == Worker(n.local.workers[w].incident, n.local.workers[w].queue, Ready, false)
      && QueueOf(m.local, v) == Queue(QueueOf(n.local, w).deferred, [], Some(v))
  {
    assert WorkerOk(n.local, w);
    RestartStep(n, w, {});
    RestartInv(n, w);
  }

  // ---- several events ----

  ghost function Steps(n: Node, es: seq<Event>): Node
    decreases |es|
  {
    if es == [] then n else Steps(Step(n, es[0]), es[1..])
  }

  lemma {:induction false} StepsConcat(n: Node, a: seq<Event>, b: seq<Event>)
    ensures Steps(n, a + b) == Steps(Steps(n, a), b)
    decreases |a|
  {
    if a == [] {
      assert a + b == b;
    } else {
      assert (a + b)[0] == a[0] && (a + b)[1..] == a[1..] + b;
      StepsConcat(Step(n, a[0]), a[1..], b);
    }
  }

  lemma StepsOne(n: Node, e: Event)
    ensures Steps(n, [e]) == Step(n, e)
  {
    assert [e][1..] == [];
  }

  lemma StepsThree(n: Node, a: Event, b: Event, c: Event)
    ensures Steps(n, [a, b, c]) == Step(Step(Step(n, a), b), c)
  {
    assert [a, b, c] == [a] + ([b] + [c]);
    StepsConcat(n, [a], [b] + [c]);
    StepsOne(n, a);
    StepsConcat(Step(n, a), [b], [c]);
    StepsOne(Step(n, a), b);
    StepsOne(Step(Step(n, a), b), c);
  }

  ghost predicate NoSubmit(es: seq<Event>) {
    forall e :: e in es ==> !e.Submit?
  }

  /** The worker has come to its pending job at position `p`, and left what is deferred alone. */
  ghost predicate Reached(n: Node, m: Node, w: WorkerId, p: nat)
    requires Known(n.local, w) && p < |QueueOf(n.local, w).pending|
  {
    var q := QueueOf(n.local, w);
    && Serving(m, w) && m.local.workers[w].phase.Handling? && m.me == n.me && m.local.next == n.local.next
    && QueueOf(m.local, w).pending == q.pending[p + 1..] && QueueOf(m.local, w).deferred == q.deferred
    && n.shared.starts <= m.shared.starts && Start(n.me, q.pending[p]) in m.shared.starts
  }

  lemma {:induction false} PendingStarts(n: Node, w: WorkerId, p: nat) returns (es: seq<Event>)
    requires Serving(n, w) && p < |QueueOf(n.local, w).pending|
    ensures NoSubmit(es) && Reached(n, Steps(n, es), w, p)
    decreases p
  {
    var e := NextEvent(n, w);
    NextStarts(n, w);
    var m := Step(n, e);
    StepsOne(n, e);
    es := [e];
    if p == 0 {
      ReachedFirst(n, m, w);
    } else {
      var rest := PendingStarts(m, w, p - 1);
      es := [e] + rest;
      StepsConcat(n, [e], rest);
      ReachedLater(n, m, Steps(m, rest), w, p);
    }
  }

  lemma ReachedFirst(n: Node, m: Node, w: WorkerId)
    requires Known(n.local, w) && QueueOf(n.local, w).pending != [] && NodeInv(m)
    requires var pending := QueueOf(n.local, w).pending;
      Moves(n, m, w, Handling(pending[0]), pending[1..], [Start(n.me, pending[0])])
    ensures Reached(n, m, w, 0)
  {
    assert Last(m.shared.starts) == Start(n.me, QueueOf(n.local, w).pending[0]);
  }

  lemma ReachedLater(n: Node, m: Node, end: Node, w: WorkerId, p: nat)
    requires Known(n.local, w) && 0 < p < |QueueOf(n.local, w).pending|
    requires var pending := QueueOf(n.local, w).pending;
      Moves(n, m, w, Handling(pending[0]), pending[1..], [Start(n.me, pending[0])])
    requires Reached(m, end, w, p - 1)
    ensures Reached(n, end, w, p)
  {
  }

  lemma EndsAndRestarts(n: Node, w: WorkerId)
    requires Serving(n, w) && n.local.workers[w].phase.Handling?
    requires QueueOf(n.local, w).pending == [] && QueueOf(n.local, w).deferred != []
    ensures var m, v := Step(Step(n, HandlerReturned(w, {})), DoneCallback(w, false, {})), n.local.next;
      && Serving(m, v) && m.local.workers[v].phase == Ready && m.me == n.me && m.shared == n.shared
      && QueueOf(m.local, v).pending == QueueOf(n.local, w).deferred
  {
    ReturnEnds(n, w);
    DoneRestarts(Step(n, HandlerReturned(w, {})), w);
  }

  /** Once nothing is pending, the first deferred job is started. */
  lemma DeferredStarts(n: Node, w: WorkerId) returns (es: seq<Event>)
    requires Serving(n, w) && n.local.workers[w].phase.Handling?
    requires QueueOf(n.local, w).pending == [] && QueueOf(n.local, w).deferred != []
    ensures NoSubmit(es)
    ensures Steps(n, es).shared.starts == n.shared.starts + [Start(n.me, QueueOf(n.local, w).deferred[0])]
  {
    var v := n.local.next;
    es := [HandlerReturned(w, {}), DoneCallback(w, false, {}), FirstStep(v, {})];
    EndsAndRestarts(n, w);
    StepsThree(n, HandlerReturned(w, {}), DoneCallback(w, false, {}), FirstStep(v, {}));
    NextStarts(Step(Step(n, HandlerReturned(w, {})), DoneCallback(w, false, {})), v);
  }

  /** So a pending job is started before a deferred one, whichever was admitted first. */
  lemma PendingBeforeDeferred(n: Node, w: WorkerId, p: nat) returns (es: seq<Event>)
    requires Serving(n, w) && p < |QueueOf(n.local, w).pending| && QueueOf(n.local, w).deferred != []
    ensures NoSubmit(es)
    ensures var starts, q := Steps(n, es).shared.starts, QueueOf(n.local, w);
      && starts != [] && Last(starts) == Start(n.me, q.deferred[0])
      && Start(n.me, q.pending[p]) in starts[..|starts| - 1]
  {
    var q := QueueOf(n.local, w);
    var first := PendingStarts(n, w, p);
    var rest := PendingEnds(Steps(n, first), w);
    es := first + rest;
    StepsConcat(n, first, rest);
  }

  lemma PendingEnds(n: Node, w: WorkerId) returns (es: seq<Event>)
    requires Serving(n, w) && n.local.workers[w].phase.Handling? && QueueOf(n.local, w).deferred != []
    ensures NoSubmit(es)
    ensures var starts := Steps(n, es).shared.starts;
      && |n.shared.starts| < |starts| && n.shared.starts <= starts
      && Last(starts) == Start(n.me, QueueOf(n.local, w).deferred[0])
  {
    if QueueOf(n.local, w).pending == [] {
      es := DeferredStarts(n, w);
    } else {
      var first := PendingStarts(n, w, |QueueOf(n.local, w).pending| - 1);
      var rest := DeferredStarts(Steps(n, first), w);
      es := first + rest;
      StepsConcat(n, first, rest);
    }
  }

  // ---- in a run ----

  ghost function NodeAt(actions: seq<Action>, me: nat): Node {
    Node(me, Run(actions).shared, LocalOf(Run(actions), me))
  }

  lemma NodeAtInv(actions: seq<Action>, me: nat)
    ensures NodeInv(NodeAt(actions, me))
  {
    RunInv(actions);
    EmptyLocalInv(me, Run(actions).shared);
  }

  lemma NodeAtSnoc(actions: seq<Action>, me: nat, e: Event)
    ensures NodeAt(actions + [Act(me, e)], me) == Step(NodeAt(actions, me), e)
  {
    assert (actions + [Act(me, e)])[..|actions|] == actions;
    NodeAtInv(actions, me);
    StepInv(NodeAt(actions, me), e);
  }

  function Acts(me: nat, es: seq<Event>): (r: seq<Action>)
    ensures |r| == |es| && forall k :: 0 <= k < |es| ==> r[k] == Act(me, es[k])
  {
    seq(|es|, k requires 0 <= k < |es| => Act(me, es[k]))
  }

  lemma {:induction false} RunSteps(actions: seq<Action>, me: nat, es: seq<Event>)
    ensures NodeAt(actions + Acts(me, es), me) == Steps(NodeAt(actions, me), es)
    decreases |es|
  {
    if es == [] {
      assert actions + Acts(me, es) == actions;
    } else {
      var more := actions + [Act(me, es[0])];
      assert actions + Acts(me, es) == more + Acts(me, es[1..]);
      NodeAtSnoc(actions, me, es[0]);
      RunSteps(more, me, es[1..]);
    }
  }

  // ---- the handler calls ----

  ghost predicate NoSubmits(more: seq<Action>) {
    forall a :: a in more && a.Act? ==> !a.event.Submit?
  }

  /** However the run goes on, as long as nothing more is submitted, its handler calls are in
      admission order. */
  ghost predicate CallsOrderedAfter(actions: seq<Action>) {
    forall more :: NoSubmits(more) ==> StartsOrdered(Run(actions + more).shared.starts)
  }

  /** The guard is exact for the handler calls too: they are in admission order from every point of a
      run on, however it goes on without further submits, if and only if every submit of the run
      finds nothing deferred for its incident, or a stopping worker. */
  lemma CallsOrderedIffGuarded(actions: seq<Action>)
    ensures (forall k :: 0 <= k <= |actions| ==> CallsOrderedAfter(actions[..k])) <==> Guarded(actions)
  {
    if Guarded(actions) {
      forall k | 0 <= k <= |actions| ensures CallsOrderedAfter(actions[..k]) {
        forall more | NoSubmits(more) ensures StartsOrdered(Run(actions[..k] + more).shared.starts) {
          StillGuarded(actions, k, more);
          HandlerCallsInAdmissionOrder(actions[..k] + more);
        }
      }
    }
    if forall k :: 0 <= k <= |actions| ==> CallsOrderedAfter(actions[..k]) {
      forall k | 0 <= k < |actions| ensures GuardAt(Run(actions[..k]), actions[k]) {
        if !GuardAt(Run(actions[..k]), actions[k]) {
          assert CallsOrderedAfter(actions[..k + 1]);
          UnguardedBreaksCalls(actions, k);
        }
      }
    }
  }

  lemma StillGuarded(actions: seq<Action>, k: nat, more: seq<Action>)
    requires Guarded(actions) && k <= |actions| && NoSubmits(more)
    ensures Guarded(actions[..k] + more)
  {
    var all := actions[..k] + more;
    forall j | 0 <= j < |all| ensures GuardAt(Run(all[..j]), all[j]) {
      if j < k {
        assert all[..j] == actions[..j] && all[j] == actions[j];
        assert GuardAt(Run(actions[..j]), actions[j]);
      } else {
        assert all[j] in more;
      }
    }
  }

  /** The unguarded submit puts its job before older ones, and its handler is called before theirs. */
  lemma UnguardedBreaksCalls(actions: seq<Action>, k: nat)
    requires k < |actions| && !GuardAt(Run(actions[..k]), actions[k])
    ensures !CallsOrderedAfter(actions[..k + 1])
  {
    var me, e := actions[k].me, actions[k].event;
    assert actions[..k + 1] == actions[..k] + [actions[k]];
    NodeAtInv(actions[..k], me);
    NodeAtSnoc(actions[..k], me, e);
    var es := UnguardedOvertakes(NodeAt(actions[..k], me), e);
    BreaksCalls(actions[..k + 1], me, es);
  }

  lemma BreaksCalls(actions: seq<Action>, me: nat, es: seq<Event>)
    requires NoSubmit(es) && !StartsOrdered(Steps(NodeAt(actions, me), es).shared.starts)
    ensures !CallsOrderedAfter(actions)
  {
    RunSteps(actions, me, es);
    forall a | a in Acts(me, es) ensures a.Act? && !a.event.Submit? {
      var j :| 0 <= j < |es| && Acts(me, es)[j] == a;
      assert es[j] in es;
    }
    assert NoSubmits(Acts(me, es)) && !StartsOrdered(Run(actions + Acts(me, es)).shared.starts);
  }

  lemma UnguardedOvertakes(n: Node, e: Event) returns (es: seq<Event>)
    requires NodeInv(n) && !EventGuard(n, e)
    ensures NoSubmit(es) && !StartsOrdered(Steps(Step(n, e), es).shared.starts)
  {
    var w, job := UnguardedJoins(n, e);
    es := OvertakesFrom(Step(n, e), w, job);
  }

  lemma OvertakesFrom(n: Node, w: WorkerId, job: Job) returns (es: seq<Event>)
    requires Serving(n, w) && Overtaking(QueueOf(n.local, w), job)
    ensures NoSubmit(es) && !StartsOrdered(Steps(n, es).shared.starts)
  {
    var q := QueueOf(n.local, w);
    es := PendingBeforeDeferred(n, w, |q.pending| - 1);
    LaterFirst(Steps(n, es).shared.starts, n.me, job, q.deferred[0]);
  }

  /** The job is the last pending one, with an older one deferred. */
  ghost predicate Overtaking(q: Queue, job: Job) {
    && q.pending != [] && Last(q.pending) == job && q.deferred != []
    && q.deferred[0].incident == job.incident && q.deferred[0].token < job.token
  }

  /** The job joins the pending ones, behind a serving worker with older jobs deferred. */
  lemma UnguardedJoins(n: Node, e: Event) returns (w: WorkerId, job: Job)
    requires NodeInv(n) && !EventGuard(n, e)
    ensures Serving(Step(n, e), w) && Overtaking(QueueOf(Step(n, e).local, w), job)
  {
    var l, i := n.local, e.batch.incident;
    job := JobFor(n.shared.table, n.shared.clock, e.batch);
    SubmitAppends(n, e.batch, e.faults);
    StepInv(n, e);
    w := QueueFor(l, i).worker.value;
    var d := QueueFor(l, i).deferred[0];
    assert JobsOk(n.shared, Origin(n.me, i), Held(l, i), Waiting(l, i));
    assert d in Waiting(l, i);
    assert JobOk(n.shared, Origin(n.me, i), d);
  }

  lemma LaterFirst(starts: seq<Start>, me: nat, job: Job, older: Job)
    requires starts != [] && Last(starts) == Start(me, older) && Start(me, job) in starts[..|starts| - 1]
    requires older.incident == job.incident && older.token < job.token
    ensures !StartsOrdered(starts)
  {
    var a :| 0 <= a < |starts| - 1 && starts[a] == Start(me, job);
    assert starts[|starts| - 1] == Start(me, older);
  }
}
