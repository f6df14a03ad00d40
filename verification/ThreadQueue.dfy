/** The order in which messages leave the queue, for any number of threads. */
module ThreadQueue {
  import opened Basics
  import opened MqttLinks
  import opened ThreadModel
  import opened ThreadInvariant

  // The message a flush is at work on: handed to the client, which has not answered yet (but the backend may have
  // published it already), or refused by the client, so that the flush is about to return false.
  datatype Hand = Empty | Asked(m: Message, published: bool) | Refused(m: Message)

  function HandOf(th: Thread): Hand {
    if !th.mgr.FlushSent? then Empty
    else if !th.cli.CIdle? then Asked(th.msg, Confirmed(th))
    else if th.ret then Empty
    else Refused(th.msg)
  }

  // Only a thread that holds the manager's mutex can be at work on one.
  function HandIn(s: System): Hand {
    match s.shared.locks.manager
    case None => Empty
    case Some(t) => if t < |s.threads| then HandOf(s.threads[t]) else Empty
  }

  // The messages whose publish came to `ok`, in order; and all of them.
  function Those(outcomes: seq<Outcome>, ok: bool): seq<Message> {
    if outcomes == [] then []
    else
      var last := outcomes[|outcomes| - 1];
      Those(outcomes[..|outcomes| - 1], ok) + if last.ok == ok then [last.msg] else []
  }

  function Messages(outcomes: seq<Outcome>): seq<Message> {
    if outcomes == [] then [] else Messages(outcomes[..|outcomes| - 1]) + [outcomes[|outcomes| - 1].msg]
  }

  lemma OneMore(outcomes: seq<Outcome>, o: Outcome, ok: bool)
    ensures Messages(outcomes + [o]) == Messages(outcomes) + [o.msg]
    ensures Those(outcomes + [o], ok) == Those(outcomes, ok) + if o.ok == ok then [o.msg] else []
  {
    assert (outcomes + [o])[..|outcomes|] == outcomes;
  }

  ghost predicate LogFits(sh: Shared, h: Hand) {
    var l := sh.log;
    && l.pushed == l.popped + sh.books.queue
    && l.popped == Messages(l.outcomes) + (if h.Asked? then [h.m] else [])
    && l.flushed == Those(l.outcomes, true) + (if h.Asked? && h.published then [h.m] else [])
    && multiset(Those(l.outcomes, false)) == sh.books.dropped + (if h.Refused? then multiset{h.m} else multiset{})
    && |Those(l.outcomes, false)| == l.failures + (if h.Refused? then 1 else 0)
  }

  // What a step of a thread does to the queue and its history, given what it had in hand before and after.
  predicate LogMoves(h: Hand, sh: Shared, h': Hand, sh': Shared, msg: Message) {
    var l, l', q, q' := sh.log, sh'.log, sh.books.queue, sh'.books.queue;
    && (!h.Refused? || h' == h ==> sh'.books.dropped == sh.books.dropped)
    && (h.Empty? || q' == q)
    && if h == h' then (l' == l && q' == q) || (h.Empty? && l' == l.(pushed := l.pushed + [msg]) && q' == q + [msg])
       else match h
         case Empty => q != [] && h' == Asked(q[0], false) && l' == l.(popped := l.popped + [q[0]]) && q' == q[1..]
         case Asked(m, published) =>
           if h'.Asked? then !published && h' == Asked(m, true) && l' == l.(flushed := l.flushed + [m])
           else h' == (if published then Empty else Refused(m))
                && l' == l.(outcomes := l.outcomes + [Outcome(m, published)])
         case Refused(m) =>
           h'.Empty? && l' == l.(failures := l.failures + 1) && sh'.books.dropped == sh.books.dropped + multiset{m}
  }

  lemma ManagerMovesLog(cl: ClientKind, t: nat, th: Thread, sh: Shared)
    requires StackFits(cl, th) && th.bck.BIdle? && th.cli.CIdle?
    ensures var m := ManagerStep(cl, t, th, sh); LogMoves(HandOf(th), sh, HandOf(m.th), m.sh, th.msg)
  {
  }

  lemma ClientMovesLog(cl: ClientKind, t: nat, th: Thread, sh: Shared)
    requires StackFits(cl, th) && th.bck.BIdle? && !th.cli.CIdle?
    ensures var m := ClientStep(cl, t, th, sh); LogMoves(HandOf(th), sh, HandOf(m.th), m.sh, th.msg)
  {
  }

  lemma BackendGuardMovesLog(cl: ClientKind, th: Thread, sh: Shared, a: Answer)
    requires StackFits(cl, th) && th.bck.BGuard?
    ensures var m := BackendGuard(cl, th, sh, th.bck.op, a); LogMoves(HandOf(th), sh, HandOf(m.th), m.sh, th.msg)
  {
  }

  lemma BackendCallMovesLog(cl: ClientKind, th: Thread, sh: Shared, a: Answer)
    requires StackFits(cl, th) && th.bck.BCall?
    ensures var m := BackendCall(cl, th, sh, th.bck.op, a); LogMoves(HandOf(th), sh, HandOf(m.th), m.sh, th.msg)
  {
  }

  lemma BackendMovesLog(cl: ClientKind, t: nat, th: Thread, sh: Shared, a: Answer)
    requires StackFits(cl, th) && !th.bck.BIdle?
    ensures var m := BackendStep(cl, t, th, sh, a); LogMoves(HandOf(th), sh, HandOf(m.th), m.sh, th.msg)
  {
    if th.bck.BGuard? {
      BackendGuardMovesLog(cl, th, sh, a);
    } else if th.bck.BCall? {
      BackendCallMovesLog(cl, th, sh, a);
    }
  }

  lemma StepMovesLog(cl: ClientKind, t: nat, th: Thread, sh: Shared, a: Answer)
    requires StackFits(cl, th)
    ensures var m := StepThread(cl, t, th, sh, a); LogMoves(HandOf(th), sh, HandOf(m.th), m.sh, th.msg)
  {
    if !th.bck.BIdle? {
      BackendMovesLog(cl, t, th, sh, a);
    } else if !th.cli.CIdle? {
      ClientMovesLog(cl, t, th, sh);
    } else {
      ManagerMovesLog(cl, t, th, sh);
    }
  }

  lemma PopKeepsLog(sh: Shared, h': Hand, sh': Shared, msg: Message)
    requires LogMoves(Empty, sh, h', sh', msg) && h'.Asked? && LogFits(sh, Empty)
    ensures LogFits(sh', h')
  {
    var q := sh.books.queue;
    assert sh.log.popped + q == (sh.log.popped + [q[0]]) + q[1..];
  }

  lemma AnswerKeepsLog(h: Hand, sh: Shared, h': Hand, sh': Shared, msg: Message)
    requires LogMoves(h, sh, h', sh', msg) && h.Asked? && !h'.Asked? && LogFits(sh, h)
    ensures LogFits(sh', h')
  {
    OneMore(sh.log.outcomes, Outcome(h.m, h.published), true);
    OneMore(sh.log.outcomes, Outcome(h.m, h.published), false);
  }

  lemma ReturnKeepsLog(h: Hand, sh: Shared, h': Hand, sh': Shared, msg: Message)
    requires LogMoves(h, sh, h', sh', msg) && h.Refused? && h' != h && LogFits(sh, h)
    ensures LogFits(sh', h')
  {
  }

  lemma PublishKeepsLog(h: Hand, sh: Shared, h': Hand, sh': Shared, msg: Message)
    requires LogMoves(h, sh, h', sh', msg) && h.Asked? && h'.Asked? && h' != h && LogFits(sh, h)
    ensures LogFits(sh', h')
  {
  }

  lemma PushKeepsLog(h: Hand, sh: Shared, sh': Shared, msg: Message)
    requires LogMoves(h, sh, h, sh', msg) && LogFits(sh, h)
    ensures LogFits(sh', h)
  {
    if sh'.books.queue != sh.books.queue {
      assert sh.log.pushed + [msg] == sh.log.popped + (sh.books.queue + [msg]);
    }
  }

  lemma MoveKeepsLog(h: Hand, sh: Shared, h': Hand, sh': Shared, msg: Message)
    requires LogMoves(h, sh, h', sh', msg) && LogFits(sh, h)
    ensures LogFits(sh', h')
  {
    if h == h' {
      PushKeepsLog(h, sh, sh', msg);
    } else if h.Empty? {
      PopKeepsLog(sh, h', sh', msg);
    } else if h.Refused? {
      ReturnKeepsLog(h, sh, h', sh', msg);
    } else if h'.Asked? {
      PublishKeepsLog(h, sh, h', sh', msg);
    } else {
      AnswerKeepsLog(h, sh, h', sh', msg);
    }
  }

  // A step that leaves the manager's mutex alone changes nothing in anybody's hand, its own being empty; for any
  // other, the hand in the system is the thread's own.
  lemma MoverHasTheHand(cl: ClientKind, s: System, t: nat, m: Move)
    requires t < |s.threads| && ThreadFits(cl, s, t) && StepFrame(cl, t, s.threads[t], s.shared, m)
    ensures var th, s' := s.threads[t], System(s.threads[t := m.th], m.sh);
      if HoldsManager(th) || HoldsManager(m.th) then HandIn(s) == HandOf(th) && HandIn(s') == HandOf(m.th)
      else HandOf(th) == Empty && HandOf(m.th) == Empty && HandIn(s') == HandIn(s)
  {
  }

  lemma StepKeepsLog(cl: ClientKind, s: System, l: Label)
    requires SystemFits(cl, s) && Enabled(cl, s, l) && LogFits(s.shared, HandIn(s))
    ensures LogFits(Apply(cl, s, l).shared, HandIn(Apply(cl, s, l)))
  {
    assert ThreadFits(cl, s, l.t);
    var th := s.threads[l.t];
    match l
    case Begin(t, op) =>
      BeginFrame(cl, t, th, s.shared, op);
      MoverHasTheHand(cl, s, t, BeginCall(th, s.shared, op));
      BeginLeavesLog(th, s.shared, op);
    case Step(t, a) =>
      var m := StepThread(cl, t, th, s.shared, a);
      StepThreadFrame(cl, t, th, s.shared, a);
      MoverHasTheHand(cl, s, t, m);
      StepMovesLog(cl, t, th, s.shared, a);
      if HoldsManager(th) || HoldsManager(m.th) {
        MoveKeepsLog(HandOf(th), s.shared, HandOf(m.th), m.sh, th.msg);
      }
  }

  lemma BeginLeavesLog(th: Thread, sh: Shared, op: Op)
    ensures var m := BeginCall(th, sh, op);
      m.sh.log == sh.log && m.sh.books.queue == sh.books.queue && m.sh.books.dropped == sh.books.dropped
  {
  }

  lemma {:induction false} LogAlways(cl: ClientKind, r: Run, k: nat)
    requires IsRun(cl, r) && k <= |r.labels|
    ensures LogFits(r.states[k].shared, HandIn(r.states[k]))
  {
    if k > 0 {
      LogAlways(cl, r, k - 1);
      StepAt(cl, r, k - 1);
      SystemAlways(cl, r, k - 1);
      StepKeepsLog(cl, r.states[k - 1], r.labels[k - 1]);
    }
  }

  // First in, first out, whatever threads push and flush at once: the publishes made by flushes were answered in the
  // order the messages entered the queue, none was left out or doubled, and those that the backend published are, in
  // that order, the ones answered with true.
  lemma QueueIsFifo(cl: ClientKind, r: Run, k: nat)
    requires IsRun(cl, r) && k <= |r.labels|
    ensures var s := r.states[k];
            var log, h := s.shared.log, HandIn(s);
      && log.pushed == Messages(log.outcomes) + (if h.Asked? then [h.m] else []) + s.shared.books.queue
      && log.flushed == Those(log.outcomes, true) + (if h.Asked? && h.published then [h.m] else [])
  {
    LogAlways(cl, r, k);
  }

  // The messages lost are those answered with false, and as many flushes returned false; but for the one flush
  // that has its answer and has not returned yet.
  lemma DropsCountFailedFlushes(cl: ClientKind, r: Run, k: nat)
    requires IsRun(cl, r) && k <= |r.labels|
    ensures var s := r.states[k];
            var lost, h := Those(s.shared.log.outcomes, false), HandIn(s);
      && multiset(lost) == s.shared.books.dropped + (if h.Refused? then multiset{h.m} else multiset{})
      && |lost| == s.shared.log.failures + (if h.Refused? then 1 else 0)
      && |s.shared.books.dropped| == s.shared.log.failures
  {
    LogAlways(cl, r, k);
    var s := r.states[k];
    var lost := Those(s.shared.log.outcomes, false);
    assert |multiset(lost)| == |lost|;
  }
}
