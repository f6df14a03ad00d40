/** Conservation, deadlock freedom, flag agreement and the flush law, for any number of threads. */
module ThreadTheorems {
  import opened Basics
  import opened MqttLinks
  import opened ThreadModel
  import opened ThreadInvariant

  // ----- No message is lost but by a failed flush -----

  // In every reachable state, every copy of every accepted message is delivered, pending, in some thread's
  // hands, or dropped.
  lemma {:induction false} MessagesConserved(cl: ClientKind, r: Run, k: nat, x: Message)
    requires IsRun(cl, r) && k <= |r.labels|
    ensures var b := r.states[k].shared.books;
      b.accepted[x] == b.delivered[x] + multiset(b.queue)[x] + InFlight(r.states[k].threads, x) + b.dropped[x]
  {
    if k > 0 {
      MessagesConserved(cl, r, k - 1, x);
      StepAt(cl, r, k - 1);
      SystemAlways(cl, r, k - 1);
      StepConserves(cl, r.states[k - 1], r.labels[k - 1], x);
    } else {
      NothingInFlightWhenIdle(r.states[0].threads, x);
    }
  }

  // Once all calls have returned, nothing is in flight.
  lemma NothingLostWhenQuiet(cl: ClientKind, r: Run, k: nat)
    requires IsRun(cl, r) && k <= |r.labels|
    requires forall t :: 0 <= t < |r.states[k].threads| ==> Idle(r.states[k].threads[t])
    ensures var b := r.states[k].shared.books; b.accepted == b.delivered + multiset(b.queue) + b.dropped
  {
    var b := r.states[k].shared.books;
    forall x: Message
      ensures b.accepted[x] == (b.delivered + multiset(b.queue) + b.dropped)[x]
    {
      MessagesConserved(cl, r, k, x);
      NothingInFlightWhenIdle(r.states[k].threads, x);
    }
  }

  // The thread is inside flushQueue and the publish it made has just come back with false.
  predicate FlushPublishFailed(th: Thread) {
    th.mgr.FlushSent? && th.cli.CIdle? && th.bck.BIdle? && !th.ret
  }

  // `dropped` grows exactly at those steps, by the one message popped before the publish.
  lemma DropsOnlyWhenFlushPublishFails(cl: ClientKind, r: Run, k: nat)
    requires IsRun(cl, r) && k < |r.labels|
    ensures r.labels[k].t < |r.states[k].threads|
    ensures var l, th := r.labels[k], r.states[k].threads[r.labels[k].t];
      r.states[k + 1].shared.books.dropped ==
        r.states[k].shared.books.dropped
        + if l.Step? && FlushPublishFailed(th) then multiset{th.msg} else multiset{}
  {
    StepAt(cl, r, k);
    var s, l := r.states[k], r.labels[k];
    DroppedByStep(cl, l.t, s.threads[l.t], s.shared, if l.Step? then l.a else Fails);
  }

  lemma DroppedByStep(cl: ClientKind, t: nat, th: Thread, sh: Shared, a: Answer)
    ensures StepThread(cl, t, th, sh, a).sh.books.dropped ==
            sh.books.dropped + if FlushPublishFailed(th) then multiset{th.msg} else multiset{}
  {
    ClientLeavesBooks(cl, t, th, sh);
    BackendDropsNothing(cl, t, th, sh, a);
  }

  lemma ClientLeavesBooks(cl: ClientKind, t: nat, th: Thread, sh: Shared)
    ensures ClientStep(cl, t, th, sh).sh.books == sh.books
  {
  }

  lemma BackendDropsNothing(cl: ClientKind, t: nat, th: Thread, sh: Shared, a: Answer)
    ensures BackendStep(cl, t, th, sh, a).sh.books.dropped == sh.books.dropped
  {
  }

  // ----- The exact flush law, with other threads running in between -----

  // A flush whose last publish failed took the queue it found apart into what it delivered, the one message it
  // lost, and what is left, in order.
  lemma FailedFlushLaw(cl: ClientKind, r: Run, k: nat, t: nat)
    requires IsRun(cl, r) && k <= |r.labels| && t < |r.states[k].threads|
    requires FlushPublishFailed(r.states[k].threads[t])
    ensures var th := r.states[k].threads[t];
      && th.taken == th.sent + [th.msg] + r.states[k].shared.books.queue
      && StepThread(cl, t, th, r.states[k].shared, Fails).sh.books
         == Drop(r.states[k].shared.books, th.msg)
  {
    SystemAlways(cl, r, k);
    assert ThreadFits(cl, r.states[k], t);
  }

  // A flush that returns true delivered the whole queue it found, and leaves an empty one.
  lemma FinishedFlushLaw(cl: ClientKind, r: Run, k: nat, t: nat)
    requires IsRun(cl, r) && k <= |r.labels| && t < |r.states[k].threads|
    requires var th := r.states[k].threads[t];
      th.mgr.FlushLoop? && r.states[k].shared.books.queue == []
    ensures var th := r.states[k].threads[t];
      && th.taken == th.sent
      && var m := StepThread(cl, t, th, r.states[k].shared, Fails);
         Idle(m.th) && m.th.ret && m.sh.books == r.states[k].shared.books && m.sh.log == r.states[k].shared.log
  {
    SystemAlways(cl, r, k);
    assert ThreadFits(cl, r.states[k], t);
  }

  // A flush that finds the client offline gives the queue back untouched.
  lemma OfflineFlushLaw(cl: ClientKind, r: Run, k: nat, t: nat)
    requires IsRun(cl, r) && k <= |r.labels| && t < |r.states[k].threads|
    requires var th := r.states[k].threads[t];
      th.bck.BIdle? && th.cli.CIdle? && ((th.mgr.FlushChecked? && !th.ret) || (th.mgr.FlushCheck? && cl.NoClient?))
    ensures var th := r.states[k].threads[t];
      && th.taken == r.states[k].shared.books.queue && th.sent == []
      && var m := StepThread(cl, t, th, r.states[k].shared, Fails);
         Idle(m.th) && !m.th.ret && m.sh.books == r.states[k].shared.books && m.sh.log == r.states[k].shared.log
  {
    SystemAlways(cl, r, k);
    assert ThreadFits(cl, r.states[k], t);
  }

  // ----- Locks -----

  // At most one thread is inside each object's critical section.
  lemma MutualExclusion(cl: ClientKind, r: Run, k: nat, t: nat, u: nat)
    requires IsRun(cl, r) && k <= |r.labels|
    requires t < |r.states[k].threads| && u < |r.states[k].threads|
    requires var a, b := r.states[k].threads[t], r.states[k].threads[u];
      || (HoldsManager(a) && HoldsManager(b)) || (HoldsClient(a) && HoldsClient(b))
      || (HoldsBackend(cl, a) && HoldsBackend(cl, b))
    ensures t == u
  {
    SystemAlways(cl, r, k);
    assert ThreadFits(cl, r.states[k], t) && ThreadFits(cl, r.states[k], u);
  }

  // Locks are taken downwards, manager before client before backend, and never twice.
  lemma LockOrder(cl: ClientKind, r: Run, k: nat, t: nat)
    requires IsRun(cl, r) && k <= |r.labels| && t < |r.states[k].threads|
    ensures var th := r.states[k].threads[t];
      && (WaitsForManager(th) ==> !HoldsManager(th) && !HoldsClient(th) && !HoldsBackend(cl, th))
      && (WaitsForClient(th) ==> !HoldsClient(th) && !HoldsBackend(cl, th))
      && (WaitsForBackend(th) ==> HoldsClient(th) && !HoldsBackend(cl, th))
  {
    SystemAlways(cl, r, k);
    assert ThreadFits(cl, r.states[k], t);
  }

  // In every reachable state with an unfinished call, some unfinished call can take a step, whatever the
  // backend library answers.
  lemma NoDeadlock(cl: ClientKind, r: Run, k: nat, t: nat) returns (u: nat)
    requires IsRun(cl, r) && k <= |r.labels|
    requires t < |r.states[k].threads| && !Idle(r.states[k].threads[t])
    ensures u < |r.states[k].threads| && !Idle(r.states[k].threads[u])
    ensures forall a :: Enabled(cl, r.states[k], Step(u, a))
  {
    var s := r.states[k];
    SystemAlways(cl, r, k);
    var locks := s.shared.locks;
    u := if locks.backend.Some? then locks.backend.value
         else if locks.client.Some? then locks.client.value
         else if locks.manager.Some? then locks.manager.value
         else t;
    assert ThreadFits(cl, s, u) && ThreadFits(cl, s, t);
  }

  // ----- And no livelock: what has been started finishes -----

  function BackendCost(bck: BackendPc): nat {
    match bck
    case BIdle => 0
    case BCall(_) => 1
    case BGuard(_) => 2
    case BEnter(_) => 3
  }

  // A reconnect still has a whole connect ahead of it.
  function ReconnectCost(op: ClientOp): nat {
    if op.CDisconnect? && op.thenConnect then 7 else 0
  }

  function ClientCost(cli: ClientPc, bck: BackendPc): nat {
    match cli
    case CIdle => BackendCost(bck)
    case CReturn(op) => 1 + BackendCost(bck) + ReconnectCost(op)
    case CGuard(op) => 5 + ReconnectCost(op)
    case CEnter(op) => 6 + ReconnectCost(op)
  }

  // Every message that may still enter the queue is charged for the flush iteration it may cost.
  function ManagerCost(mgr: ManagerPc): nat {
    match mgr
    case MIdle => 0
    case QueuePush => 9
    case QueueEnter => 10
    case SampleSent => 11
    case SampleChecked => 18
    case SampleCheck => 25
    case FlushLoop | CountRead => 1
    case FlushSent | FlushChecked | CountEnter => 2
    case FlushCheck => 9
    case FlushEnter => 10
  }

  function Cost(th: Thread): nat {
    ManagerCost(th.mgr) + ClientCost(th.cli, th.bck)
  }

  function TotalCost(threads: seq<Thread>): nat {
    if threads == [] then 0 else TotalCost(threads[..|threads| - 1]) + Cost(threads[|threads| - 1])
  }

  // The most steps that can still be taken before another call is begun.
  function Work(s: System): nat {
    8 * |s.shared.books.queue| + TotalCost(s.threads)
  }

  lemma {:induction false} TotalCostAfterMove(threads: seq<Thread>, t: nat, th: Thread)
    requires t < |threads|
    ensures TotalCost(threads[t := th]) + Cost(threads[t]) == TotalCost(threads) + Cost(th)
  {
    var n := |threads| - 1;
    if t == n {
      assert threads[t := th][..n] == threads[..n];
    } else {
      TotalCostAfterMove(threads[..n], t, th);
      assert threads[t := th][..n] == threads[..n][t := th];
    }
  }

  lemma StepCosts(cl: ClientKind, t: nat, th: Thread, sh: Shared, a: Answer)
    requires !Idle(th) && StackFits(cl, th)
    ensures var m := StepThread(cl, t, th, sh, a);
      8 * |m.sh.books.queue| + Cost(m.th) < 8 * |sh.books.queue| + Cost(th)
  {
    if !th.bck.BIdle? {
      BackendStepCosts(cl, t, th, sh, a);
    } else if !th.cli.CIdle? {
      ClientStepCosts(cl, t, th, sh);
    } else {
      ManagerStepCosts(cl, t, th, sh);
    }
  }

  lemma ManagerStepCosts(cl: ClientKind, t: nat, th: Thread, sh: Shared)
    requires !th.mgr.MIdle? && th.cli.CIdle? && th.bck.BIdle?
    ensures var m := ManagerStep(cl, t, th, sh);
      8 * |m.sh.books.queue| + Cost(m.th) < 8 * |sh.books.queue| + Cost(th)
  {
    var m := ManagerStep(cl, t, th, sh);
    if th.mgr.QueuePush? {
      assert |m.sh.books.queue| == |sh.books.queue| + 1;
    } else if th.mgr.FlushLoop? && sh.books.queue != [] {
      assert |m.sh.books.queue| == |sh.books.queue| - 1;
    } else {
      assert m.sh.books.queue == sh.books.queue;
    }
  }

  lemma ClientStepCosts(cl: ClientKind, t: nat, th: Thread, sh: Shared)
    requires !th.cli.CIdle? && th.bck.BIdle?
    ensures var m := ClientStep(cl, t, th, sh); m.sh.books == sh.books && Cost(m.th) < Cost(th)
  {
  }

  lemma BackendStepCosts(cl: ClientKind, t: nat, th: Thread, sh: Shared, a: Answer)
    requires !th.bck.BIdle? && th.cli.CReturn?
    ensures var m := BackendStep(cl, t, th, sh, a); m.sh.books.queue == sh.books.queue && Cost(m.th) < Cost(th)
  {
  }

  // However the threads are scheduled, no more than `Work` steps fit between one call's beginning and the
  // next: together with NoDeadlock, if only finitely many more calls begin, every call that was begun returns.
  lemma {:induction false} CallsFinish(cl: ClientKind, r: Run, i: nat, k: nat)
    requires IsRun(cl, r) && i <= k <= |r.labels|
    requires forall m :: i <= m < k ==> r.labels[m].Step?
    ensures (k - i) + Work(r.states[k]) <= Work(r.states[i])
    decreases k
  {
    if i < k {
      CallsFinish(cl, r, i, k - 1);
      StepAt(cl, r, k - 1);
      SystemAlways(cl, r, k - 1);
      var s, l := r.states[k - 1], r.labels[k - 1];
      assert ThreadFits(cl, s, l.t);
      StepCosts(cl, l.t, s.threads[l.t], s.shared, l.a);
      TotalCostAfterMove(s.threads, l.t, StepThread(cl, l.t, s.threads[l.t], s.shared, l.a).th);
    }
  }

  // ----- The duplicated connection flag -----

  // Whenever nobody is inside the client, the two flags agree and a connected backend has a client object.
  lemma FlagsAgreeOutside(cl: ClientKind, r: Run, k: nat)
    requires IsRun(cl, r) && k <= |r.labels| && r.states[k].shared.locks.client == None
    ensures var l := r.states[k].shared.link; l.client == l.backend && (l.backend ==> l.handle)
  {
    SystemAlways(cl, r, k);
  }

  // So a publish or subscribe that passed the client's guard is never turned away by the backend's.
  lemma BackendGuardNeverRejects(cl: ClientKind, r: Run, k: nat, t: nat, a: Answer)
    requires IsRun(cl, r) && k <= |r.labels| && t < |r.states[k].threads|
    requires var th := r.states[k].threads[t]; th.bck.BGuard? && (th.bck.op.BPublish? || th.bck.op.BSubscribe?)
    ensures var th := r.states[k].threads[t];
      StepThread(cl, t, th, r.states[k].shared, a).th.bck == BCall(th.bck.op)
  {
    SystemAlways(cl, r, k);
    assert ThreadFits(cl, r.states[k], t);
  }

  // And the client never asks a connected backend to connect.
  lemma BackendConnectAlwaysStartsDown(cl: ClientKind, r: Run, k: nat, t: nat)
    requires IsRun(cl, r) && k <= |r.labels| && t < |r.states[k].threads|
    requires r.states[k].threads[t].bck == BGuard(BConnect)
    ensures !r.states[k].shared.link.backend && !r.states[k].shared.link.client
  {
    SystemAlways(cl, r, k);
    assert ThreadFits(cl, r.states[k], t);
  }
}
