/** What every step of every thread keeps. */
module ThreadInvariant {
  import opened Basics
  import opened MqttLinks
  import opened ThreadModel

  // ----- One thread's call stack -----

  predicate HoldsManager(th: Thread) {
    th.mgr.QueuePush? || th.mgr.FlushCheck? || th.mgr.FlushChecked? || th.mgr.FlushLoop? || th.mgr.FlushSent?
    || th.mgr.CountRead?
  }

  predicate HoldsClient(th: Thread) {
    th.cli.CGuard? || th.cli.CReturn?
  }

  predicate HoldsBackend(cl: ClientKind, th: Thread) {
    !cl.SomeipClient? && (th.bck.BGuard? || th.bck.BCall?)
  }

  // Each frame on the stack was called by the frame above it.
  predicate StackFits(cl: ClientKind, th: Thread) {
    && (!th.bck.BIdle? ==> th.cli.CReturn? && th.bck.op == Below(th.cli.op))
    && (th.cli.CReturn? ==> !th.cli.op.CIsConnected?)
    && (cl.SomeipClient? ==> th.bck.BIdle? || th.bck.BCall?)
    && match th.mgr
       case MIdle => th.cli.CIdle? || !th.cli.op.CPublish?
       case SampleChecked | FlushChecked => th.cli.CIdle? || th.cli.op.CIsConnected?
       case SampleSent | FlushSent => th.cli.CIdle? || th.cli.op.CPublish?
       case _ => th.cli.CIdle?
  }

  // What each step does to a lock: taken on entering, released on leaving, untouched otherwise.
  predicate LockMoves(t: nat, before: Option<nat>, held: bool, after: Option<nat>, holds: bool) {
    && (held == holds ==> after == before)
    && (!held && holds ==> before.None? && after == Some(t))
    && (held && !holds ==> after.None?)
  }

  // What a step of one thread may change, seen from the others.
  predicate StepFrame(cl: ClientKind, t: nat, th: Thread, sh: Shared, m: Move) {
    && StackFits(cl, m.th)
    && LockMoves(t, sh.locks.manager, HoldsManager(th), m.sh.locks.manager, HoldsManager(m.th))
    && LockMoves(t, sh.locks.client, HoldsClient(th), m.sh.locks.client, HoldsClient(m.th))
    && LockMoves(t, sh.locks.backend, HoldsBackend(cl, th), m.sh.locks.backend, HoldsBackend(cl, m.th))
    && (!HoldsManager(th) ==> m.sh.books.queue == sh.books.queue)
    && (!HoldsClient(th) ==> m.sh.link == sh.link)
    && (sh.link.handle ==> m.sh.link.handle)
  }

  lemma ManagerStepFrame(cl: ClientKind, t: nat, th: Thread, sh: Shared)
    requires StackFits(cl, th) && th.bck.BIdle? && th.cli.CIdle? && !Blocked(th, sh)
    ensures StepFrame(cl, t, th, sh, ManagerStep(cl, t, th, sh))
  {
  }

  lemma ClientStepFrame(cl: ClientKind, t: nat, th: Thread, sh: Shared)
    requires StackFits(cl, th) && th.bck.BIdle? && !th.cli.CIdle? && !Blocked(th, sh)
    ensures StepFrame(cl, t, th, sh, ClientStep(cl, t, th, sh))
  {
  }

  lemma BackendGuardFrame(cl: ClientKind, t: nat, th: Thread, sh: Shared, a: Answer)
    requires StackFits(cl, th) && th.bck.BGuard?
    ensures StepFrame(cl, t, th, sh, BackendGuard(cl, th, sh, th.bck.op, a))
  {
  }

  lemma BackendCallFrame(cl: ClientKind, t: nat, th: Thread, sh: Shared, a: Answer)
    requires StackFits(cl, th) && th.bck.BCall?
    ensures StepFrame(cl, t, th, sh, BackendCall(cl, th, sh, th.bck.op, a))
  {
  }

  lemma BackendStepFrame(cl: ClientKind, t: nat, th: Thread, sh: Shared, a: Answer)
    requires StackFits(cl, th) && !th.bck.BIdle? && !Blocked(th, sh)
    ensures StepFrame(cl, t, th, sh, BackendStep(cl, t, th, sh, a))
  {
    if th.bck.BGuard? {
      BackendGuardFrame(cl, t, th, sh, a);
    } else if th.bck.BCall? {
      BackendCallFrame(cl, t, th, sh, a);
    }
  }

  lemma StepThreadFrame(cl: ClientKind, t: nat, th: Thread, sh: Shared, a: Answer)
    requires StackFits(cl, th) && !Blocked(th, sh)
    ensures StepFrame(cl, t, th, sh, StepThread(cl, t, th, sh, a))
  {
    if !th.bck.BIdle? {
      BackendStepFrame(cl, t, th, sh, a);
    } else if !th.cli.CIdle? {
      ClientStepFrame(cl, t, th, sh);
    } else {
      ManagerStepFrame(cl, t, th, sh);
    }
  }

  // ----- The two connection flags -----

  // What a thread inside the client's critical section knows of the flags.
  predicate FlagsKnown(th: Thread, l: Link) {
    match th.cli
    case CIdle => true
    case CEnter(_) => true
    case CGuard(_) => FlagsAgree(l)
    case CReturn(op) =>
      if op.CConnect? then
        && !l.client && (l.backend ==> l.handle)
        && (if th.bck.BIdle? then th.ret == l.backend else !l.backend)
        && (th.bck.BCall? ==> l.handle)
      else if op.CDisconnect? then
        && !l.client && (l.backend ==> l.handle)
        && (th.bck.BIdle? ==> !l.backend)
      else FlagsAgree(l) && (!th.bck.BIdle? ==> l.backend)
  }

  lemma ClientStepKnowsFlags(cl: ClientKind, t: nat, th: Thread, sh: Shared)
    requires StackFits(cl, th) && th.bck.BIdle? && !th.cli.CIdle? && (cl.SomeipClient? ==> sh.link.handle)
    requires if HoldsClient(th) then FlagsKnown(th, sh.link) && sh.locks.client.Some? else FlagsAgree(sh.link)
    ensures var m := ClientStep(cl, t, th, sh);
      FlagsKnown(m.th, m.sh.link) && (m.sh.locks.client.None? ==> FlagsAgree(m.sh.link))
  {
  }

  lemma BackendStepKnowsFlags(cl: ClientKind, t: nat, th: Thread, sh: Shared, a: Answer)
    requires StackFits(cl, th) && !th.bck.BIdle? && FlagsKnown(th, sh.link)
    ensures var m := BackendStep(cl, t, th, sh, a); FlagsKnown(m.th, m.sh.link)
  {
  }

  // ----- A flush in progress -----

  // The publish of `th.msg` has come back with success.
  predicate Confirmed(th: Thread) {
    th.bck.BIdle? && (th.cli.CIdle? || th.cli.CReturn?) && th.ret
  }

  predicate FlushKnown(th: Thread, sh: Shared) {
    match th.mgr
    case FlushCheck | FlushChecked => th.taken == sh.books.queue && th.sent == []
    case FlushLoop => th.taken == th.sent + sh.books.queue
    case FlushSent => th.taken == (if Confirmed(th) then th.sent else th.sent + [th.msg]) + sh.books.queue
    case _ => true
  }

  lemma ManagerStepKnowsFlush(cl: ClientKind, t: nat, th: Thread, sh: Shared)
    requires StackFits(cl, th) && th.bck.BIdle? && th.cli.CIdle? && FlushKnown(th, sh)
    ensures var m := ManagerStep(cl, t, th, sh); FlushKnown(m.th, m.sh)
  {
    if th.mgr.FlushLoop? && sh.books.queue != [] {
      assert sh.books.queue == [sh.books.queue[0]] + sh.books.queue[1..];
    }
  }

  lemma ClientStepKnowsFlush(cl: ClientKind, t: nat, th: Thread, sh: Shared)
    requires StackFits(cl, th) && th.bck.BIdle? && !th.cli.CIdle? && FlushKnown(th, sh)
    ensures var m := ClientStep(cl, t, th, sh); FlushKnown(m.th, m.sh)
  {
  }

  lemma BackendStepKnowsFlush(cl: ClientKind, t: nat, th: Thread, sh: Shared, a: Answer)
    requires StackFits(cl, th) && !th.bck.BIdle? && FlushKnown(th, sh)
    ensures var m := BackendStep(cl, t, th, sh, a); FlushKnown(m.th, m.sh)
  {
  }

  // ----- Where the messages are -----

  // The message a thread carries: accepted or popped, and not yet delivered, queued or dropped.
  function Carried(th: Thread): Option<Message> {
    match th.mgr
    case SampleCheck | SampleChecked | QueueEnter | QueuePush => Some(th.msg)
    case SampleSent | FlushSent => if Confirmed(th) then None else Some(th.msg)
    case _ => None
  }

  // What a step can do to the books: nothing, or move one message.
  predicate MovesMessages(before: Option<Message>, b: Books, after: Option<Message>, b': Books) {
    if before == after then b' == b
    else if before.None? then b.queue != [] && b' == Pop(b) && after == Some(b.queue[0])
    else after.None? && (b' == Push(b, before.value) || b' == Deliver(b, before.value) || b' == Drop(b, before.value))
  }

  lemma ManagerStepMovesMessages(cl: ClientKind, t: nat, th: Thread, sh: Shared)
    requires StackFits(cl, th) && th.bck.BIdle? && th.cli.CIdle?
    ensures var m := ManagerStep(cl, t, th, sh); MovesMessages(Carried(th), sh.books, Carried(m.th), m.sh.books)
  {
  }

  lemma ClientStepMovesMessages(cl: ClientKind, t: nat, th: Thread, sh: Shared)
    requires StackFits(cl, th) && th.bck.BIdle? && !th.cli.CIdle?
    ensures var m := ClientStep(cl, t, th, sh); MovesMessages(Carried(th), sh.books, Carried(m.th), m.sh.books)
  {
  }

  lemma BackendStepMovesMessages(cl: ClientKind, t: nat, th: Thread, sh: Shared, a: Answer)
    requires StackFits(cl, th) && !th.bck.BIdle?
    ensures var m := BackendStep(cl, t, th, sh, a); MovesMessages(Carried(th), sh.books, Carried(m.th), m.sh.books)
  {
  }

  // ----- The whole system -----

  predicate Owns(lock: Option<nat>, t: nat, holds: bool) {
    holds == (lock == Some(t))
  }

  predicate ThreadFits(cl: ClientKind, s: System, t: nat)
    requires t < |s.threads|
  {
    var th := s.threads[t];
    && StackFits(cl, th)
    && Owns(s.shared.locks.manager, t, HoldsManager(th))
    && Owns(s.shared.locks.client, t, HoldsClient(th))
    && Owns(s.shared.locks.backend, t, HoldsBackend(cl, th))
    && FlagsKnown(th, s.shared.link)
    && FlushKnown(th, s.shared)
  }

  predicate OwnersExist(s: System) {
    && (s.shared.locks.manager.Some? ==> s.shared.locks.manager.value < |s.threads|)
    && (s.shared.locks.client.Some? ==> s.shared.locks.client.value < |s.threads|)
    && (s.shared.locks.backend.Some? ==> s.shared.locks.backend.value < |s.threads|)
  }

  predicate SystemFits(cl: ClientKind, s: System) {
    && OwnersExist(s)
    && (s.shared.locks.client.None? ==> FlagsAgree(s.shared.link))
    && (cl.SomeipClient? ==> s.shared.link.handle)
    && forall t: nat :: t < |s.threads| ==> ThreadFits(cl, s, t)
  }

  // A step leaves what the other threads know intact.
  lemma OthersStillFit(cl: ClientKind, s: System, t: nat, m: Move, u: nat)
    requires t < |s.threads| && u < |s.threads| && u != t
    requires ThreadFits(cl, s, t) && ThreadFits(cl, s, u) && StepFrame(cl, t, s.threads[t], s.shared, m)
    ensures ThreadFits(cl, System(s.threads[t := m.th], m.sh), u)
  {
  }

  lemma MoverFits(cl: ClientKind, s: System, t: nat, m: Move)
    requires t < |s.threads| && SystemFits(cl, s) && StepFrame(cl, t, s.threads[t], s.shared, m)
    requires FlagsKnown(m.th, m.sh.link) && FlushKnown(m.th, m.sh)
    requires m.sh.locks.client.None? ==> FlagsAgree(m.sh.link)
    ensures SystemFits(cl, System(s.threads[t := m.th], m.sh))
  {
    var s' := System(s.threads[t := m.th], m.sh);
    assert ThreadFits(cl, s, t);
    forall u: nat | u < |s'.threads|
      ensures ThreadFits(cl, s', u)
    {
      if u != t {
        assert ThreadFits(cl, s, u);
        OthersStillFit(cl, s, t, m, u);
      }
    }
  }

  lemma BeginFrame(cl: ClientKind, t: nat, th: Thread, sh: Shared, op: Op)
    requires Idle(th)
    ensures var m := BeginCall(th, sh, op);
      && StepFrame(cl, t, th, sh, m) && m.sh.link == sh.link && m.sh.locks == sh.locks
      && FlagsKnown(m.th, m.sh.link) && FlushKnown(m.th, m.sh)
  {
  }

  lemma StepKnowsFlags(cl: ClientKind, t: nat, th: Thread, sh: Shared, a: Answer)
    requires StackFits(cl, th) && !Blocked(th, sh) && FlagsKnown(th, sh.link) && (cl.SomeipClient? ==> sh.link.handle)
    requires Owns(sh.locks.client, t, HoldsClient(th)) && (sh.locks.client.None? ==> FlagsAgree(sh.link))
    ensures var m := StepThread(cl, t, th, sh, a);
      FlagsKnown(m.th, m.sh.link) && (m.sh.locks.client.None? ==> FlagsAgree(m.sh.link))
  {
    if !th.bck.BIdle? {
      BackendStepKnowsFlags(cl, t, th, sh, a);
      BackendStepFrame(cl, t, th, sh, a);
    } else if !th.cli.CIdle? {
      ClientStepKnowsFlags(cl, t, th, sh);
    } else {
      ManagerStepLeavesLink(cl, t, th, sh);
    }
  }

  lemma ManagerStepLeavesLink(cl: ClientKind, t: nat, th: Thread, sh: Shared)
    ensures var m := ManagerStep(cl, t, th, sh);
      m.sh.link == sh.link && m.sh.locks.client == sh.locks.client && (m.th.cli == th.cli || m.th.cli.CEnter?)
  {
  }

  lemma StepKnowsFlush(cl: ClientKind, t: nat, th: Thread, sh: Shared, a: Answer)
    requires StackFits(cl, th) && FlushKnown(th, sh)
    ensures var m := StepThread(cl, t, th, sh, a); FlushKnown(m.th, m.sh)
  {
    if !th.bck.BIdle? {
      BackendStepKnowsFlush(cl, t, th, sh, a);
    } else if !th.cli.CIdle? {
      ClientStepKnowsFlush(cl, t, th, sh);
    } else {
      ManagerStepKnowsFlush(cl, t, th, sh);
    }
  }

  lemma StepKeepsSystem(cl: ClientKind, s: System, l: Label)
    requires SystemFits(cl, s) && Enabled(cl, s, l)
    ensures SystemFits(cl, Apply(cl, s, l))
  {
    assert ThreadFits(cl, s, l.t);
    var th := s.threads[l.t];
    match l
    case Begin(t, op) =>
      BeginFrame(cl, t, th, s.shared, op);
      MoverFits(cl, s, t, BeginCall(th, s.shared, op));
    case Step(t, a) =>
      StepThreadFrame(cl, t, th, s.shared, a);
      StepKnowsFlags(cl, t, th, s.shared, a);
      StepKnowsFlush(cl, t, th, s.shared, a);
      MoverFits(cl, s, t, StepThread(cl, t, th, s.shared, a));
  }

  // ----- Conservation -----

  // How many copies of `x` a thread, or all of them together, carry.
  function Copies(o: Option<Message>, x: Message): nat {
    if o == Some(x) then 1 else 0
  }

  function InFlight(threads: seq<Thread>, x: Message): nat {
    if threads == [] then 0
    else InFlight(threads[..|threads| - 1], x) + Copies(Carried(threads[|threads| - 1]), x)
  }

  lemma {:induction false} InFlightAfterMove(threads: seq<Thread>, t: nat, th: Thread, x: Message)
    requires t < |threads|
    ensures InFlight(threads[t := th], x) + Copies(Carried(threads[t]), x)
            == InFlight(threads, x) + Copies(Carried(th), x)
  {
    var n := |threads| - 1;
    if t == n {
      assert threads[t := th][..n] == threads[..n];
    } else {
      InFlightAfterMove(threads[..n], t, th, x);
      assert threads[t := th][..n] == threads[..n][t := th];
    }
  }

  lemma {:induction false} NothingInFlightWhenIdle(threads: seq<Thread>, x: Message)
    requires forall t :: 0 <= t < |threads| ==> Idle(threads[t])
    ensures InFlight(threads, x) == 0
  {
    if threads != [] {
      NothingInFlightWhenIdle(threads[..|threads| - 1], x);
    }
  }

  // Copies of `x` that are delivered, pending or dropped.
  function Placed(b: Books, x: Message): nat {
    b.delivered[x] + multiset(b.queue)[x] + b.dropped[x]
  }

  lemma PopPlaces(b: Books, x: Message)
    requires b.queue != []
    ensures Placed(Pop(b), x) + Copies(Some(b.queue[0]), x) == Placed(b, x)
  {
    assert b.queue == [b.queue[0]] + b.queue[1..];
  }

  lemma PushPlaces(b: Books, m: Message, x: Message)
    ensures Placed(Push(b, m), x) == Placed(b, x) + Copies(Some(m), x)
  {
  }

  lemma MovePlaces(before: Option<Message>, b: Books, after: Option<Message>, b': Books, x: Message)
    requires MovesMessages(before, b, after, b')
    ensures b'.accepted == b.accepted
    ensures Placed(b', x) + Copies(after, x) == Placed(b, x) + Copies(before, x)
  {
    if before != after {
      if before.None? {
        PopPlaces(b, x);
      } else if b' == Push(b, before.value) {
        PushPlaces(b, before.value, x);
      }
    }
  }

  lemma StepMovesMessages(cl: ClientKind, t: nat, th: Thread, sh: Shared, a: Answer)
    requires StackFits(cl, th)
    ensures var m := StepThread(cl, t, th, sh, a);
      MovesMessages(Carried(th), sh.books, Carried(m.th), m.sh.books)
  {
    if !th.bck.BIdle? {
      BackendStepMovesMessages(cl, t, th, sh, a);
    } else if !th.cli.CIdle? {
      ClientStepMovesMessages(cl, t, th, sh);
    } else {
      ManagerStepMovesMessages(cl, t, th, sh);
    }
  }

  lemma BeginAccepts(th: Thread, sh: Shared, op: Op, x: Message)
    requires Idle(th)
    ensures var m := BeginCall(th, sh, op);
      && Carried(th) == None
      && m.sh.books.accepted[x] == sh.books.accepted[x] + Copies(Carried(m.th), x)
      && Placed(m.sh.books, x) == Placed(sh.books, x)
  {
  }

  lemma StepConserves(cl: ClientKind, s: System, l: Label, x: Message)
    requires SystemFits(cl, s) && Enabled(cl, s, l)
    requires s.shared.books.accepted[x] == Placed(s.shared.books, x) + InFlight(s.threads, x)
    ensures var s' := Apply(cl, s, l);
      s'.shared.books.accepted[x] == Placed(s'.shared.books, x) + InFlight(s'.threads, x)
  {
    assert ThreadFits(cl, s, l.t);
    var th := s.threads[l.t];
    match l
    case Begin(t, op) =>
      BeginAccepts(th, s.shared, op, x);
      InFlightAfterMove(s.threads, t, BeginCall(th, s.shared, op).th, x);
    case Step(t, a) =>
      var m := StepThread(cl, t, th, s.shared, a);
      StepMovesMessages(cl, t, th, s.shared, a);
      MovePlaces(Carried(th), s.shared.books, Carried(m.th), m.sh.books, x);
      InFlightAfterMove(s.threads, t, m.th, x);
  }

  lemma StepAt(cl: ClientKind, r: Run, k: nat)
    requires IsRun(cl, r) && k < |r.labels|
    ensures Enabled(cl, r.states[k], r.labels[k])
    ensures r.states[k + 1] == Apply(cl, r.states[k], r.labels[k])
  {
    assert Next(cl, r.states[k], r.labels[k], r.states[k + 1]);
  }

  lemma {:induction false} SystemAlways(cl: ClientKind, r: Run, k: nat)
    requires IsRun(cl, r) && k <= |r.labels|
    ensures SystemFits(cl, r.states[k])
  {
    if k > 0 {
      SystemAlways(cl, r, k - 1);
      StepAt(cl, r, k - 1);
      StepKeepsSystem(cl, r.states[k - 1], r.labels[k - 1]);
    }
  }
}
