/** A call that no other thread interrupts ends, and does what the sequential client and manager do, given what the
    library (or the kernel) answered to it. */
module SoloCalls {
  import opened Basics
  import opened MqttLinks
  import opened ThreadModel
  import opened ThreadInvariant
  import opened ThreadTheorems
  import Telemetry

  // A thread is at work on its whole call, or, with `inner`, on the call of the client it is making.
  predicate Busy(inner: bool, th: Thread) {
    if inner then !th.cli.CIdle? || !th.bck.BIdle? else !Idle(th)
  }

  // Thread `t`, on its own, takes these steps from `m`, one for each answer, and has then finished at `end`.
  ghost predicate Runs(cl: ClientKind, t: nat, inner: bool, m: Move, answers: seq<Answer>, end: Move)
    decreases |answers|
  {
    if answers == [] then m == end && !Busy(inner, m.th)
    else
      && Busy(inner, m.th) && !Blocked(m.th, m.sh)
      && Runs(cl, t, inner, StepThread(cl, t, m.th, m.sh, answers[0]), answers[1..], end)
  }

  // Only some steps consult the library: those inside it, and the creation of the library's object.
  predicate Asks(m: Move) {
    m.th.bck.BCall? || (m.th.bck == BGuard(BConnect) && !m.sh.link.backend)
  }

  // What the library said in these steps.
  function Heard(cl: ClientKind, t: nat, m: Move, answers: seq<Answer>): seq<Answer>
    decreases |answers|
  {
    if answers == [] then []
    else
      (if Asks(m) then [answers[0]] else [])
      + Heard(cl, t, StepThread(cl, t, m.th, m.sh, answers[0]), answers[1..])
  }

  function Nth(heard: seq<Answer>, i: nat): Answer {
    if i < |heard| then heard[i] else Fails
  }

  // ----- Taking a run apart -----

  lemma Peel(cl: ClientKind, t: nat, inner: bool, m: Move, answers: seq<Answer>, end: Move)
    returns (next: Move, rest: seq<Answer>)
    requires Runs(cl, t, inner, m, answers, end) && Busy(inner, m.th)
    ensures answers != [] && next == StepThread(cl, t, m.th, m.sh, answers[0]) && rest == answers[1..]
    ensures Runs(cl, t, inner, next, rest, end) && !Blocked(m.th, m.sh)
    ensures Heard(cl, t, m, answers) == (if Asks(m) then [answers[0]] else []) + Heard(cl, t, next, rest)
  {
    next, rest := StepThread(cl, t, m.th, m.sh, answers[0]), answers[1..];
  }

  lemma PutBack(cl: ClientKind, t: nat, inner: bool, m: Move, a: Answer, rest: seq<Answer>, end: Move)
    requires Busy(inner, m.th) && !Blocked(m.th, m.sh)
    requires Runs(cl, t, inner, StepThread(cl, t, m.th, m.sh, a), rest, end)
    ensures Runs(cl, t, inner, m, [a] + rest, end)
    ensures Heard(cl, t, m, [a] + rest) ==
            (if Asks(m) then [a] else []) + Heard(cl, t, StepThread(cl, t, m.th, m.sh, a), rest)
  {
    assert ([a] + rest)[1..] == rest;
  }

  lemma Done(cl: ClientKind, t: nat, inner: bool, m: Move, answers: seq<Answer>, end: Move)
    requires Runs(cl, t, inner, m, answers, end) && !Busy(inner, m.th)
    ensures answers == [] && end == m && Heard(cl, t, m, answers) == []
  {
  }

  lemma Regroup(a: seq<Answer>, b: seq<Answer>, c: seq<Answer>)
    ensures a + (b + c) == (a + b) + c
  {
  }

  // The call of the client that is under way ends within the whole call.
  lemma {:induction false} Split(cl: ClientKind, t: nat, m: Move, answers: seq<Answer>, end: Move)
    returns (first: seq<Answer>, mid: Move, rest: seq<Answer>)
    requires Runs(cl, t, false, m, answers, end)
    ensures Runs(cl, t, true, m, first, mid) && Runs(cl, t, false, mid, rest, end)
    ensures Heard(cl, t, m, answers) == Heard(cl, t, m, first) + Heard(cl, t, mid, rest)
    decreases |answers|
  {
    if !Busy(true, m.th) {
      first, mid, rest := [], m, answers;
    } else {
      var next, others := Peel(cl, t, false, m, answers, end);
      var part: seq<Answer>;
      part, mid, rest := Split(cl, t, next, others, end);
      PutBack(cl, t, true, m, answers[0], part, mid);
      first := [answers[0]] + part;
      Regroup(if Asks(m) then [answers[0]] else [], Heard(cl, t, next, part), Heard(cl, t, mid, rest));
    }
  }

  // ----- A call on its own always ends -----

  predicate LockFits(lock: Option<nat>, t: nat, holds: bool) {
    lock == if holds then Some(t) else None
  }

  // Nobody but `t` holds a lock.
  predicate AloneFits(cl: ClientKind, t: nat, m: Move) {
    && StackFits(cl, m.th)
    && LockFits(m.sh.locks.manager, t, HoldsManager(m.th))
    && LockFits(m.sh.locks.client, t, HoldsClient(m.th))
    && LockFits(m.sh.locks.backend, t, HoldsBackend(cl, m.th))
  }

  // Whatever the library answers, the call ends, after no more steps than the cost charged for it.
  lemma {:induction false} AloneFinishes(cl: ClientKind, t: nat, m: Move, stream: nat -> Answer, k: nat)
    returns (answers: seq<Answer>, end: Move)
    requires AloneFits(cl, t, m)
    ensures Runs(cl, t, false, m, answers, end)
    ensures forall i :: 0 <= i < |answers| ==> answers[i] == stream(k + i)
    ensures |answers| <= 8 * |m.sh.books.queue| + Cost(m.th)
    decreases 8 * |m.sh.books.queue| + Cost(m.th)
  {
    if Idle(m.th) {
      answers, end := [], m;
    } else {
      var next := StepThread(cl, t, m.th, m.sh, stream(k));
      StepThreadFrame(cl, t, m.th, m.sh, stream(k));
      StepCosts(cl, t, m.th, m.sh, stream(k));
      var rest: seq<Answer>;
      rest, end := AloneFinishes(cl, t, next, stream, k + 1);
      PutBack(cl, t, false, m, stream(k), rest, end);
      answers := [stream(k)] + rest;
    }
  }

  // ----- The client's calls -----

  predicate AboutToCall(m: Move, op: ClientOp) {
    m.th.bck.BIdle? && m.th.cli == CEnter(op) && m.sh.locks.client.None? && m.sh.locks.backend.None?
    && (m.th.mgr.FlushSent? ==> op.CPublish?)
  }

  // The call is over; nothing else has changed but the flags.
  function Returned(m: Move, link: Link, ret: bool): Move {
    Move(m.th.(cli := CIdle, ret := ret), m.sh.(link := link))
  }

  // Past the client's guard, holding its mutex: in front of the backend's own checks, or inside the kernel.
  function AtBackend(cl: ClientKind, m: Move, t: nat, op: ClientOp, link: Link): Move {
    if cl.SomeipClient? then
      Move(m.th.(cli := CReturn(op), bck := BCall(Below(op))),
           m.sh.(locks := m.sh.locks.(client := Some(t)), link := link))
    else
      Move(m.th.(cli := CReturn(op), bck := BGuard(Below(op))),
           m.sh.(locks := m.sh.locks.(client := Some(t), backend := Some(t)), link := link))
  }

  // Back in the client, still holding its mutex.
  function BackInClient(m: Move, t: nat, op: ClientOp, link: Link, ret: bool): Move {
    Move(m.th.(cli := CReturn(op), ret := ret), m.sh.(locks := m.sh.locks.(client := Some(t)), link := link))
  }

  lemma DownToBackend(cl: ClientKind, t: nat, m: Move, op: ClientOp, answers: seq<Answer>, end: Move)
    returns (at: Move, rest: seq<Answer>)
    requires Runs(cl, t, true, m, answers, end) && AboutToCall(m, op) && !op.CIsConnected?
    requires op.CConnect? ==> !m.sh.link.client
    requires op.CPublish? || op.CSubscribe? ==> IsUp(cl, m.sh.link)
    requires op.CSubscribe? ==> !cl.SomeipClient?
    ensures at == AtBackend(cl, m, t, op, if op.CDisconnect? then m.sh.link.(client := false) else m.sh.link)
    ensures Runs(cl, t, true, at, rest, end) && Heard(cl, t, m, answers) == Heard(cl, t, at, rest)
  {
    at, rest := Peel(cl, t, true, m, answers, end);
    at, rest := Peel(cl, t, true, at, rest, end);
    if !cl.SomeipClient? {
      at, rest := Peel(cl, t, true, at, rest, end);
    }
  }

  // What a connect makes of the flags, given what the library or the kernel said to it.
  function Connected(cl: ClientKind, l: Link, heard: seq<Answer>): Link {
    if cl.SomeipClient? then
      if l.client then l else l.(client := Nth(heard, 0).Succeeds?, backend := Nth(heard, 0).Succeeds?)
    else AfterConnect(l, Dial(Nth(heard, 0), Nth(heard, 1)))
  }

  lemma BackendConnects(cl: ClientKind, t: nat, m: Move, answers: seq<Answer>, end: Move)
    returns (link: Link, rest: seq<Answer>)
    requires AboutToCall(m, CConnect) && !m.sh.link.client
    requires Runs(cl, t, true, AtBackend(cl, m, t, CConnect, m.sh.link), answers, end)
    ensures var back := BackInClient(m, t, CConnect, link, link.backend);
      && Runs(cl, t, true, back, rest, end)
      && (Heard(cl, t, back, rest) == [] ==>
            link.(client := link.backend) ==
              Connected(cl, m.sh.link, Heard(cl, t, AtBackend(cl, m, t, CConnect, m.sh.link), answers)))
  {
    var at := AtBackend(cl, m, t, CConnect, m.sh.link);
    if cl.SomeipClient? {
      at, rest := Peel(cl, t, true, at, answers, end);
      link := at.sh.link;
    } else {
      link, rest := PahoConnects(cl, t, m, answers, end);
    }
  }

  lemma PahoConnects(cl: ClientKind, t: nat, m: Move, answers: seq<Answer>, end: Move)
    returns (link: Link, rest: seq<Answer>)
    requires AboutToCall(m, CConnect) && !m.sh.link.client && !cl.SomeipClient?
    requires Runs(cl, t, true, AtBackend(cl, m, t, CConnect, m.sh.link), answers, end)
    ensures var back, heard := BackInClient(m, t, CConnect, link, link.backend),
                               Heard(cl, t, AtBackend(cl, m, t, CConnect, m.sh.link), answers);
      && Runs(cl, t, true, back, rest, end)
      && (Heard(cl, t, back, rest) == [] ==> link == AfterBackendConnect(m.sh.link, Dial(Nth(heard, 0), Nth(heard, 1))))
  {
    var at := AtBackend(cl, m, t, CConnect, m.sh.link);
    at, rest := Peel(cl, t, true, at, answers, end);
    if !at.th.bck.BIdle? {
      at, rest := Peel(cl, t, true, at, rest, end);
    }
    link := at.sh.link;
  }

  // The last step of a client's call.
  lemma LastStep(cl: ClientKind, t: nat, m: Move, answers: seq<Answer>, end: Move)
    requires Runs(cl, t, true, m, answers, end) && Busy(true, m.th) && !Asks(m)
    requires forall a :: !Busy(true, StepThread(cl, t, m.th, m.sh, a).th)
    ensures answers != [] && end == StepThread(cl, t, m.th, m.sh, answers[0]) && Heard(cl, t, m, answers) == []
  {
    var next, rest := Peel(cl, t, true, m, answers, end);
    Done(cl, t, true, next, rest, end);
  }

  lemma ConnectAlone(cl: ClientKind, t: nat, m: Move, answers: seq<Answer>, end: Move)
    requires AboutToCall(m, CConnect) && Runs(cl, t, true, m, answers, end)
    ensures var link := Connected(cl, m.sh.link, Heard(cl, t, m, answers)); end == Returned(m, link, link.client)
  {
    if m.sh.link.client {
      var m1, rest := Peel(cl, t, true, m, answers, end);
      LastStep(cl, t, m1, rest, end);
    } else {
      var at, rest := DownToBackend(cl, t, m, CConnect, answers, end);
      var link, others := BackendConnects(cl, t, m, rest, end);
      LastStep(cl, t, BackInClient(m, t, CConnect, link, link.backend), others, end);
    }
  }

  // What a disconnect returns, and how much of what was said was said to it.
  predicate DisconnectOk(cl: ClientKind, l: Link, heard: seq<Answer>) {
    cl.SomeipClient? || BackendDisconnectResult(l, Nth(heard, 0))
  }

  function SaidToDisconnect(cl: ClientKind, l: Link): nat {
    if cl.SomeipClient? || l.handle then 1 else 0
  }

  // As far as the client's return from its disconnect.
  lemma HangUpAlone(cl: ClientKind, t: nat, m: Move, op: ClientOp, answers: seq<Answer>, end: Move)
    returns (ok: bool, rest: seq<Answer>)
    requires AboutToCall(m, op) && op.CDisconnect? && Runs(cl, t, true, m, answers, end)
    ensures var back, heard := BackInClient(m, t, op, AfterDisconnect(m.sh.link), ok), Heard(cl, t, m, answers);
      && Runs(cl, t, true, back, rest, end)
      && |heard| >= SaidToDisconnect(cl, m.sh.link)
      && ok == DisconnectOk(cl, m.sh.link, heard)
      && Heard(cl, t, back, rest) == heard[SaidToDisconnect(cl, m.sh.link)..]
  {
    var at, others := DownToBackend(cl, t, m, op, answers, end);
    at, rest := Peel(cl, t, true, at, others, end);
    if !at.th.bck.BIdle? {
      at, rest := Peel(cl, t, true, at, rest, end);
    }
    ok := at.th.ret;
  }

  lemma DisconnectAlone(cl: ClientKind, t: nat, m: Move, answers: seq<Answer>, end: Move)
    requires AboutToCall(m, CDisconnect(false)) && Runs(cl, t, true, m, answers, end)
    ensures end == Returned(m, AfterDisconnect(m.sh.link), DisconnectOk(cl, m.sh.link, Heard(cl, t, m, answers)))
  {
    var ok, rest := HangUpAlone(cl, t, m, CDisconnect(false), answers, end);
    LastStep(cl, t, BackInClient(m, t, CDisconnect(false), AfterDisconnect(m.sh.link), ok), rest, end);
  }

  // What a reconnect makes of the flags: a connect follows if the disconnect returned true.
  function Reconnected(cl: ClientKind, l: Link, heard: seq<Answer>): Link {
    if DisconnectOk(cl, l, heard) && SaidToDisconnect(cl, l) <= |heard|
    then Connected(cl, AfterDisconnect(l), heard[SaidToDisconnect(cl, l)..])
    else AfterDisconnect(l)
  }

  // Reconnect gives up the client's mutex between its halves; if nobody takes it, the halves are one reconnect.
  lemma ReconnectAlone(cl: ClientKind, t: nat, m: Move, answers: seq<Answer>, end: Move)
    requires AboutToCall(m, CDisconnect(true)) && Runs(cl, t, true, m, answers, end)
    ensures |Heard(cl, t, m, answers)| >= SaidToDisconnect(cl, m.sh.link)
    ensures var link := Reconnected(cl, m.sh.link, Heard(cl, t, m, answers)); end == Returned(m, link, link.client)
  {
    var ok, rest := HangUpAlone(cl, t, m, CDisconnect(true), answers, end);
    var back := BackInClient(m, t, CDisconnect(true), AfterDisconnect(m.sh.link), ok);
    if ok {
      var again, others := Peel(cl, t, true, back, rest, end);
      ConnectAlone(cl, t, again, others, end);
    } else {
      LastStep(cl, t, back, rest, end);
    }
  }

  lemma AskAlone(cl: ClientKind, t: nat, m: Move, answers: seq<Answer>, end: Move)
    requires AboutToCall(m, CIsConnected) && Runs(cl, t, true, m, answers, end)
    ensures end == Returned(m, m.sh.link, IsUp(cl, m.sh.link)) && Heard(cl, t, m, answers) == []
  {
    var m1, rest := Peel(cl, t, true, m, answers, end);
    LastStep(cl, t, m1, rest, end);
  }

  // A subscription succeeds exactly if the client is connected and, over MQTT, the library says so; nothing else of it
  // shows.
  lemma SubscribeAlone(cl: ClientKind, t: nat, m: Move, answers: seq<Answer>, end: Move)
    requires AboutToCall(m, CSubscribe) && FlagsAgree(m.sh.link) && Runs(cl, t, true, m, answers, end)
    ensures var heard := Heard(cl, t, m, answers);
      && |heard| == (if m.sh.link.client && !cl.SomeipClient? then 1 else 0)
      && end == Returned(m, m.sh.link, m.sh.link.client && (cl.SomeipClient? || Nth(heard, 0).Succeeds?))
  {
    if m.sh.link.client && !cl.SomeipClient? {
      SubscribesAtBackend(cl, t, m, answers, end);
    } else {
      var m1, rest := Peel(cl, t, true, m, answers, end);
      LastStep(cl, t, m1, rest, end);
    }
  }

  lemma SubscribesAtBackend(cl: ClientKind, t: nat, m: Move, answers: seq<Answer>, end: Move)
    requires AboutToCall(m, CSubscribe) && FlagsAgree(m.sh.link) && Runs(cl, t, true, m, answers, end)
    requires m.sh.link.client && !cl.SomeipClient?
    ensures |Heard(cl, t, m, answers)| == 1
    ensures end == Returned(m, m.sh.link, Heard(cl, t, m, answers)[0].Succeeds?)
  {
    var at, rest := DownToBackend(cl, t, m, CSubscribe, answers, end);
    at, rest := Peel(cl, t, true, at, rest, end);
    at, rest := Peel(cl, t, true, at, rest, end);
    LastStep(cl, t, at, rest, end);
  }

  // A publish the client answers with `ok`: delivered if so, and noted if a flush made it.
  function Published(m: Move, ok: bool): Move {
    var flush := m.th.mgr.FlushSent?;
    Move(m.th.(cli := CIdle, ret := ok, sent := if ok && flush then m.th.sent + [m.th.msg] else m.th.sent),
         m.sh.(books := if ok then Deliver(m.sh.books, m.th.msg) else m.sh.books,
               log := if !flush then m.sh.log
                      else m.sh.log.(flushed := if ok then m.sh.log.flushed + [m.th.msg] else m.sh.log.flushed,
                                     outcomes := m.sh.log.outcomes + [Outcome(m.th.msg, ok)])))
  }

  // The same with the client still to return.
  function HandedOver(m: Move, t: nat, ok: bool): Move {
    var flush := m.th.mgr.FlushSent?;
    Move(m.th.(cli := CReturn(CPublish), ret := ok, sent := if ok && flush then m.th.sent + [m.th.msg] else m.th.sent),
         m.sh.(locks := m.sh.locks.(client := Some(t)),
               books := if ok then Deliver(m.sh.books, m.th.msg) else m.sh.books,
               log := if ok && flush then m.sh.log.(flushed := m.sh.log.flushed + [m.th.msg]) else m.sh.log))
  }

  lemma BackendPublishes(cl: ClientKind, t: nat, m: Move, answers: seq<Answer>, end: Move)
    returns (a: Answer, rest: seq<Answer>)
    requires AboutToCall(m, CPublish) && FlagsAgree(m.sh.link) && m.sh.link.client
    requires Runs(cl, t, true, AtBackend(cl, m, t, CPublish, m.sh.link), answers, end)
    ensures var back := HandedOver(m, t, a.Succeeds?);
      && Runs(cl, t, true, back, rest, end)
      && Heard(cl, t, AtBackend(cl, m, t, CPublish, m.sh.link), answers) == [a] + Heard(cl, t, back, rest)
  {
    var at := AtBackend(cl, m, t, CPublish, m.sh.link);
    rest := answers;
    if !cl.SomeipClient? {
      at, rest := Peel(cl, t, true, at, answers, end);
    }
    a := rest[0];
    at, rest := Peel(cl, t, true, at, rest, end);
  }

  // Delivered exactly if the client is connected and the one answer of the library is a success; offline the library
  // is not asked.
  lemma PublishAlone(cl: ClientKind, t: nat, m: Move, answers: seq<Answer>, end: Move)
    requires AboutToCall(m, CPublish) && FlagsAgree(m.sh.link) && Runs(cl, t, true, m, answers, end)
    ensures var heard := Heard(cl, t, m, answers);
      && |heard| == (if m.sh.link.client then 1 else 0)
      && end == Published(m, m.sh.link.client && Nth(heard, 0).Succeeds?)
  {
    if !m.sh.link.client {
      var m1, rest := Peel(cl, t, true, m, answers, end);
      LastStep(cl, t, m1, rest, end);
    } else {
      var at, rest := DownToBackend(cl, t, m, CPublish, answers, end);
      var a, others := BackendPublishes(cl, t, m, rest, end);
      LastStep(cl, t, HandedOver(m, t, a.Succeeds?), others, end);
    }
  }

  // ----- The manager's calls -----

  predicate InManager(m: Move, pc: ManagerPc) {
    m.th.bck.BIdle? && m.th.cli.CIdle? && m.th.mgr == pc && m.sh.locks.client.None? && m.sh.locks.backend.None?
    && FlagsAgree(m.sh.link)
  }

  // The call is over, and the locks and flags are as they were.
  predicate Over(m: Move, end: Move, ret: bool) {
    Idle(end.th) && end.th.ret == ret && end.sh.locks == m.sh.locks && end.sh.link == m.sh.link
  }

  lemma QueueAlone(cl: ClientKind, t: nat, m: Move, answers: seq<Answer>, end: Move)
    requires InManager(m, QueueEnter) && m.sh.locks.manager.None? && Runs(cl, t, false, m, answers, end)
    ensures Over(m, end, true) && end.sh.books == Push(m.sh.books, m.th.msg) && Heard(cl, t, m, answers) == []
  {
    var m1, rest := Peel(cl, t, false, m, answers, end);
    var m2, others := Peel(cl, t, false, m1, rest, end);
    Done(cl, t, false, m2, others, end);
  }

  // The manager's question whether the client is connected.
  lemma CheckAlone(cl: ClientKind, t: nat, m: Move, pc: ManagerPc, pc': ManagerPc, answers: seq<Answer>, end: Move)
    returns (rest: seq<Answer>)
    requires !cl.NoClient? && InManager(m, pc) && Runs(cl, t, false, m, answers, end)
    requires (pc.SampleCheck? && pc'.SampleChecked?) || (pc.FlushCheck? && pc'.FlushChecked?)
    ensures var checked := Move(m.th.(mgr := pc', ret := m.sh.link.client), m.sh);
      Runs(cl, t, false, checked, rest, end) && Heard(cl, t, m, answers) == Heard(cl, t, checked, rest)
  {
    var m1, others := Peel(cl, t, false, m, answers, end);
    var first, mid, last := Split(cl, t, m1, others, end);
    AskAlone(cl, t, m1, first, mid);
    rest := last;
  }

  // A publish made by the manager.
  lemma SendAlone(cl: ClientKind, t: nat, m: Move, answers: seq<Answer>, end: Move)
    returns (ok: bool, rest: seq<Answer>)
    requires AboutToCall(m, CPublish) && FlagsAgree(m.sh.link) && m.sh.link.client
    requires Runs(cl, t, false, m, answers, end)
    ensures var heard := Heard(cl, t, m, answers);
      && Runs(cl, t, false, Published(m, ok), rest, end)
      && |heard| > 0 && ok == heard[0].Succeeds? && Heard(cl, t, Published(m, ok), rest) == heard[1..]
  {
    var first, mid, last := Split(cl, t, m, answers, end);
    PublishAlone(cl, t, m, first, mid);
    ok, rest := Nth(Heard(cl, t, m, first), 0).Succeeds?, last;
  }

  // publishSample delivers the sample exactly if there is a client, it is connected, and the library's answer to its
  // publish is a success; otherwise it queues the sample last; and it returns true.
  lemma PublishSampleAlone(cl: ClientKind, t: nat, m: Move, answers: seq<Answer>, end: Move)
    requires InManager(m, SampleCheck) && m.sh.locks.manager.None? && Runs(cl, t, false, m, answers, end)
    ensures var heard := Heard(cl, t, m, answers);
      && Over(m, end, true)
      && |heard| == (if !cl.NoClient? && m.sh.link.client then 1 else 0)
      && end.sh.books == if heard != [] && heard[0].Succeeds? then Deliver(m.sh.books, m.th.msg)
                         else Push(m.sh.books, m.th.msg)
  {
    if cl.NoClient? {
      var next, rest := Peel(cl, t, false, m, answers, end);
      QueueAlone(cl, t, next, rest, end);
    } else {
      var rest := CheckAlone(cl, t, m, SampleCheck, SampleChecked, answers, end);
      var checked := Move(m.th.(mgr := SampleChecked, ret := m.sh.link.client), m.sh);
      var next, others := Peel(cl, t, false, checked, rest, end);
      if m.sh.link.client {
        SampleSentAlone(cl, t, next, others, end);
      } else {
        QueueAlone(cl, t, next, others, end);
      }
    }
  }

  lemma SampleSentAlone(cl: ClientKind, t: nat, m: Move, answers: seq<Answer>, end: Move)
    requires AboutToCall(m, CPublish) && m.th.mgr.SampleSent? && m.sh.locks.manager.None?
    requires FlagsAgree(m.sh.link) && m.sh.link.client && Runs(cl, t, false, m, answers, end)
    ensures var heard := Heard(cl, t, m, answers);
      && Over(m, end, true) && |heard| == 1
      && end.sh.books == if heard[0].Succeeds? then Deliver(m.sh.books, m.th.msg) else Push(m.sh.books, m.th.msg)
  {
    var ok, rest := SendAlone(cl, t, m, answers, end);
    var next, others := Peel(cl, t, false, Published(m, ok), rest, end);
    if ok {
      Done(cl, t, false, next, others, end);
    } else {
      QueueAlone(cl, t, next, others, end);
    }
  }

  // The results of a flush's publishes, read off what the library said.
  function Results(heard: seq<Answer>): Telemetry.Publishes {
    (k: nat) => Nth(heard, k).Succeeds?
  }

  lemma {:induction false} ResultsShift(queue: seq<Message>, heard: seq<Answer>, k: nat)
    requires heard != []
    ensures Telemetry.Flush(queue, Results(heard), k + 1) == Telemetry.Flush(queue, Results(heard[1..]), k)
  {
    if queue != [] {
      ResultsShift(queue[1..], heard, k + 1);
    }
  }

  // What a flush makes of the books.
  function AfterFlush(b: Books, f: Telemetry.Flushed): Books {
    Books(f.rest, b.accepted, b.delivered + multiset(f.delivered), b.dropped + multiset(f.lost))
  }

  lemma FlushFirst(queue: seq<Message>, heard: seq<Answer>)
    requires queue != [] && heard != []
    ensures Telemetry.Flush(queue, Results(heard), 0) ==
      if heard[0].Succeeds? then WithFirst(queue[0], Telemetry.Flush(queue[1..], Results(heard[1..]), 0))
      else Telemetry.Flushed([], [queue[0]], queue[1..], false)
  {
    ResultsShift(queue[1..], heard, 0);
  }

  function WithFirst(m: Message, f: Telemetry.Flushed): Telemetry.Flushed {
    f.(delivered := [m] + f.delivered)
  }

  lemma AfterFlushFirst(b: Books, f: Telemetry.Flushed)
    requires b.queue != []
    ensures AfterFlush(Deliver(Pop(b), b.queue[0]), f) == AfterFlush(b, WithFirst(b.queue[0], f))
  {
    assert multiset([b.queue[0]] + f.delivered) == multiset{b.queue[0]} + multiset(f.delivered);
  }

  lemma AfterFlushLast(b: Books)
    requires b.queue != []
    ensures Drop(Pop(b), b.queue[0]) == AfterFlush(b, Telemetry.Flushed([], [b.queue[0]], b.queue[1..], false))
  {
  }

  // One turn of the loop: pop, publish, and go on or give up.
  lemma FlushOneAlone(cl: ClientKind, t: nat, m: Move, answers: seq<Answer>, end: Move)
    returns (next: Move, rest: seq<Answer>)
    requires InManager(m, FlushLoop) && m.sh.locks.manager == Some(t) && m.sh.link.client && m.sh.books.queue != []
    requires Runs(cl, t, false, m, answers, end)
    ensures var heard, q := Heard(cl, t, m, answers), m.sh.books.queue;
      && Runs(cl, t, false, next, rest, end) && |heard| > 0 && Heard(cl, t, next, rest) == heard[1..]
      && next.sh.link == m.sh.link
      && if heard[0].Succeeds?
         then InManager(next, FlushLoop) && next.sh.locks == m.sh.locks
              && next.sh.books == Deliver(Pop(m.sh.books), q[0])
         else Idle(next.th) && !next.th.ret && next.sh.locks == m.sh.locks.(manager := None)
              && next.sh.books == Drop(Pop(m.sh.books), q[0])
  {
    var m1, others := Peel(cl, t, false, m, answers, end);
    var ok, last := SendAlone(cl, t, m1, others, end);
    next, rest := FlushAnswered(cl, t, Published(m1, ok), last, end);
  }

  lemma FlushAnswered(cl: ClientKind, t: nat, m: Move, answers: seq<Answer>, end: Move)
    returns (next: Move, rest: seq<Answer>)
    requires InManager(m, FlushSent) && m.sh.locks.manager == Some(t) && Runs(cl, t, false, m, answers, end)
    ensures Runs(cl, t, false, next, rest, end) && Heard(cl, t, next, rest) == Heard(cl, t, m, answers)
    ensures next.sh.link == m.sh.link
    ensures if m.th.ret then InManager(next, FlushLoop) && next.sh == m.sh
            else Idle(next.th) && !next.th.ret && next.sh.locks == m.sh.locks.(manager := None)
                 && next.sh.books == Drop(m.sh.books, m.th.msg)
  {
    next, rest := Peel(cl, t, false, m, answers, end);
  }

  lemma {:induction false} FlushLoopAlone(cl: ClientKind, t: nat, m: Move, answers: seq<Answer>, end: Move)
    requires InManager(m, FlushLoop) && m.sh.locks.manager == Some(t) && m.sh.link.client
    requires Runs(cl, t, false, m, answers, end)
    ensures var heard := Heard(cl, t, m, answers);
            var f := Telemetry.Flush(m.sh.books.queue, Results(heard), 0);
      && Idle(end.th) && end.th.ret == f.ok && end.sh.books == AfterFlush(m.sh.books, f)
      && |heard| == |f.delivered| + |f.lost|
      && end.sh.link == m.sh.link && end.sh.locks == m.sh.locks.(manager := None)
    decreases |m.sh.books.queue|
  {
    var q := m.sh.books.queue;
    if q == [] {
      var next, rest := Peel(cl, t, false, m, answers, end);
      Done(cl, t, false, next, rest, end);
    } else {
      var heard := Heard(cl, t, m, answers);
      var next, rest := FlushOneAlone(cl, t, m, answers, end);
      if heard[0].Succeeds? {
        FlushLoopAlone(cl, t, next, rest, end);
        AfterFlushFirst(m.sh.books, Telemetry.Flush(q[1..], Results(heard[1..]), 0));
      } else {
        Done(cl, t, false, next, rest, end);
        AfterFlushLast(m.sh.books);
      }
      FlushFirst(q, heard);
    }
  }

  // flushQueue computes what the sequential flush computes on the queue it finds and the library's answers, asking for
  // nothing beyond the first failure; offline it asks nothing and changes nothing.
  lemma FlushAlone(cl: ClientKind, t: nat, m: Move, answers: seq<Answer>, end: Move)
    requires InManager(m, FlushEnter) && m.sh.locks.manager.None? && Runs(cl, t, false, m, answers, end)
    ensures var heard := Heard(cl, t, m, answers);
            var f := Telemetry.Flush(m.sh.books.queue, Results(heard), 0);
      if !cl.NoClient? && m.sh.link.client
      then Over(m, end, f.ok) && end.sh.books == AfterFlush(m.sh.books, f) && |heard| == |f.delivered| + |f.lost|
      else Over(m, end, false) && end.sh.books == m.sh.books && heard == []
  {
    var m1, rest := Peel(cl, t, false, m, answers, end);
    if cl.NoClient? {
      var next, others := Peel(cl, t, false, m1, rest, end);
      Done(cl, t, false, next, others, end);
    } else {
      var others := CheckAlone(cl, t, m1, FlushCheck, FlushChecked, rest, end);
      var m2 := Move(m1.th.(mgr := FlushChecked, ret := m.sh.link.client), m1.sh);
      var next, last := Peel(cl, t, false, m2, others, end);
      if m.sh.link.client {
        FlushLoopAlone(cl, t, next, last, end);
        assert next.sh.books == m.sh.books;
        assert Heard(cl, t, next, last) == Heard(cl, t, m, answers);
        assert end.sh.link == m.sh.link;
        assert end.sh.locks == m.sh.locks;
      } else {
        Done(cl, t, false, next, last, end);
      }
    }
  }
}
