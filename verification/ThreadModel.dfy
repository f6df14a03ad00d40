/** Any number of threads calling the telemetry manager, src/TelemetryManager/telemetry_manager.cpp, and the client
    below it: src/MqttClient/mqtt_client.cpp with the Paho backend it owns, or src/SomeipClient/someip_client.cpp.
    Each object has its own mutex. Taking a mutex, each access to the shared fields, and each call down or return up is
    a step of its own. */
module ThreadModel {
  import opened Basics
  import opened MqttLinks

  // The client the manager was built with. The SOME/IP client has no backend object: it calls the kernel itself,
  // holding its own mutex.
  datatype ClientKind = NoClient | MqttClient | SomeipClient

  datatype Op =
    | PublishSample(m: Message) | QueueMessage(m: Message) | FlushQueue | PendingCount
    | Connect | Disconnect | Reconnect | Subscribe | IsConnected

  // Where a thread is inside TelemetryManager.
  datatype ManagerPc =
    | MIdle
    | SampleCheck | SampleChecked | SampleSent     // publishSample, around its two calls of the client
    | QueueEnter | QueuePush                       // queueMessage
    | FlushEnter | FlushCheck | FlushChecked | FlushLoop | FlushSent
    | CountEnter | CountRead                       // pendingCount

  datatype ClientOp = CConnect | CDisconnect(thenConnect: bool) | CPublish | CSubscribe | CIsConnected

  // Where it is inside MqttClient: before the lock, holding it, and back from the backend still holding it.
  datatype ClientPc = CIdle | CEnter(op: ClientOp) | CGuard(op: ClientOp) | CReturn(op: ClientOp)

  datatype BackendOp = BConnect | BDisconnect | BPublish | BSubscribe

  // Where it is inside PahoMqttBackend: before the lock, holding it, and inside the library. Over SOME/IP only the
  // last, inside the kernel.
  datatype BackendPc = BIdle | BEnter(op: BackendOp) | BGuard(op: BackendOp) | BCall(op: BackendOp)

  // `ret` is the result of the last call that returned. `taken` and `sent` record, for a flush, the queue it
  // found and what it has delivered.
  datatype Thread = Thread(mgr: ManagerPc, cli: ClientPc, bck: BackendPc, msg: Message, ret: bool,
                           taken: seq<Message>, sent: seq<Message>)

  datatype Locks = Locks(manager: Option<nat>, client: Option<nat>, backend: Option<nat>)

  // The pending queue, and what has happened to messages so far: handed to publishSample or queueMessage,
  // published with success, lost by a flush.
  datatype Books = Books(queue: seq<Message>, accepted: multiset<Message>, delivered: multiset<Message>,
                         dropped: multiset<Message>)

  function Accept(b: Books, m: Message): Books {
    b.(accepted := b.accepted + multiset{m})
  }

  function Push(b: Books, m: Message): Books {
    b.(queue := b.queue + [m])
  }

  function Pop(b: Books): Books
    requires b.queue != []
  {
    b.(queue := b.queue[1..])
  }

  function Deliver(b: Books, m: Message): Books {
    b.(delivered := b.delivered + multiset{m})
  }

  function Drop(b: Books, m: Message): Books {
    b.(dropped := b.dropped + multiset{m})
  }

  // What a publish made by a flush came to, as the client answered it.
  datatype Outcome = Outcome(msg: Message, ok: bool)

  // The history of the queue, each part noted by the code that sees it happen: what queueMessage put in and
  // flushQueue took out, what the client answered to the publishes of flushes, what the backend published for
  // them, and how many flushes returned false after a publish.
  datatype Log = Log(pushed: seq<Message>, popped: seq<Message>, outcomes: seq<Outcome>, flushed: seq<Message>,
                     failures: nat)

  datatype Shared = Shared(locks: Locks, link: Link, books: Books, log: Log)

  datatype System = System(threads: seq<Thread>, shared: Shared)

  datatype Label = Begin(t: nat, op: Op) | Step(t: nat, a: Answer)

  datatype Move = Move(th: Thread, sh: Shared)

  predicate Idle(th: Thread) {
    th.mgr.MIdle? && th.cli.CIdle? && th.bck.BIdle?
  }

  // ----- Locks -----

  predicate WaitsForManager(th: Thread) {
    th.bck.BIdle? && th.cli.CIdle? && (th.mgr.QueueEnter? || th.mgr.FlushEnter? || th.mgr.CountEnter?)
  }

  predicate WaitsForClient(th: Thread) {
    th.bck.BIdle? && th.cli.CEnter?
  }

  predicate WaitsForBackend(th: Thread) {
    th.bck.BEnter?
  }

  predicate Blocked(th: Thread, sh: Shared) {
    || (WaitsForManager(th) && sh.locks.manager.Some?)
    || (WaitsForClient(th) && sh.locks.client.Some?)
    || (WaitsForBackend(th) && sh.locks.backend.Some?)
  }

  // ----- Steps -----

  predicate Enabled(cl: ClientKind, s: System, l: Label) {
    match l
    case Begin(t, op) =>
      && t < |s.threads| && Idle(s.threads[t])
      && (op.PublishSample? || op.QueueMessage? || op.FlushQueue? || op.PendingCount? || !cl.NoClient?)
    case Step(t, _) => t < |s.threads| && !Idle(s.threads[t]) && !Blocked(s.threads[t], s.shared)
  }

  function Apply(cl: ClientKind, s: System, l: Label): System
    requires Enabled(cl, s, l)
  {
    var m := match l
      case Begin(t, op) => BeginCall(s.threads[t], s.shared, op)
      case Step(t, a) => StepThread(cl, t, s.threads[t], s.shared, a);
    System(s.threads[l.t := m.th], m.sh)
  }

  function BeginCall(th: Thread, sh: Shared, op: Op): Move {
    match op
    case PublishSample(m) => Move(th.(mgr := SampleCheck, msg := m), sh.(books := Accept(sh.books, m)))
    case QueueMessage(m) => Move(th.(mgr := QueueEnter, msg := m), sh.(books := Accept(sh.books, m)))
    case FlushQueue => Move(th.(mgr := FlushEnter), sh)
    case PendingCount => Move(th.(mgr := CountEnter), sh)
    case Connect => Move(th.(cli := CEnter(CConnect)), sh)
    case Disconnect => Move(th.(cli := CEnter(CDisconnect(false))), sh)
    case Reconnect => Move(th.(cli := CEnter(CDisconnect(true))), sh)
    case Subscribe => Move(th.(cli := CEnter(CSubscribe)), sh)
    case IsConnected => Move(th.(cli := CEnter(CIsConnected)), sh)
  }

  function StepThread(cl: ClientKind, t: nat, th: Thread, sh: Shared, a: Answer): Move {
    if !th.bck.BIdle? then BackendStep(cl, t, th, sh, a)
    else if !th.cli.CIdle? then ClientStep(cl, t, th, sh)
    else ManagerStep(cl, t, th, sh)
  }

  function Lock(sh: Shared, t: nat): Shared {
    sh.(locks := sh.locks.(manager := Some(t)))
  }

  function Unlock(sh: Shared): Shared {
    sh.(locks := sh.locks.(manager := None))
  }

  function ManagerStep(cl: ClientKind, t: nat, th: Thread, sh: Shared): Move {
    match th.mgr
    case MIdle => Move(th, sh)
    case SampleCheck =>
      if !cl.NoClient? then Move(th.(mgr := SampleChecked, cli := CEnter(CIsConnected)), sh)
      else Move(th.(mgr := QueueEnter), sh)
    case SampleChecked =>
      if th.ret then Move(th.(mgr := SampleSent, cli := CEnter(CPublish)), sh)
      else Move(th.(mgr := QueueEnter), sh)
    case SampleSent => Move(if th.ret then th.(mgr := MIdle) else th.(mgr := QueueEnter), sh)
    case QueueEnter => Move(th.(mgr := QueuePush), Lock(sh, t))
    case QueuePush =>
      Move(th.(mgr := MIdle, ret := true),
           Unlock(sh).(books := Push(sh.books, th.msg), log := sh.log.(pushed := sh.log.pushed + [th.msg])))
    case FlushEnter => Move(th.(mgr := FlushCheck, taken := sh.books.queue, sent := []), Lock(sh, t))
    case FlushCheck =>
      if !cl.NoClient? then Move(th.(mgr := FlushChecked, cli := CEnter(CIsConnected)), sh)
      else Move(th.(mgr := MIdle, ret := false), Unlock(sh))
    case FlushChecked =>
      if th.ret then Move(th.(mgr := FlushLoop), sh)
      else Move(th.(mgr := MIdle, ret := false), Unlock(sh))
    case FlushLoop =>
      if sh.books.queue == [] then Move(th.(mgr := MIdle, ret := true), Unlock(sh))
      else Move(th.(mgr := FlushSent, msg := sh.books.queue[0], cli := CEnter(CPublish)),
                sh.(books := Pop(sh.books), log := sh.log.(popped := sh.log.popped + [sh.books.queue[0]])))
    case FlushSent =>
      if th.ret then Move(th.(mgr := FlushLoop), sh)
      else Move(th.(mgr := MIdle, ret := false),
                Unlock(sh).(books := Drop(sh.books, th.msg), log := sh.log.(failures := sh.log.failures + 1)))
    case CountEnter => Move(th.(mgr := CountRead), Lock(sh, t))
    case CountRead => Move(th.(mgr := MIdle), Unlock(sh))
  }

  function Below(op: ClientOp): BackendOp {
    match op
    case CConnect => BConnect
    case CDisconnect(_) => BDisconnect
    case CPublish => BPublish
    case CSubscribe => BSubscribe
    case CIsConnected => BSubscribe
  }

  // The SOME/IP client looks at its descriptor as well: `backend` says that it holds one.
  predicate IsUp(cl: ClientKind, l: Link) {
    l.client && (cl.SomeipClient? ==> l.backend)
  }

  function ClientStep(cl: ClientKind, t: nat, th: Thread, sh: Shared): Move {
    match th.cli
    case CIdle => Move(th, sh)
    case CEnter(op) => Move(th.(cli := CGuard(op)), sh.(locks := sh.locks.(client := Some(t))))
    case CGuard(op) =>
      if op.CIsConnected? || (op.CSubscribe? && cl.SomeipClient?) then ClientReturn(th, sh, IsUp(cl, sh.link))
      else if op.CConnect? && sh.link.client then ClientReturn(th, sh, true)
      else if (op.CPublish? || op.CSubscribe?) && !IsUp(cl, sh.link) then ClientReturn(th, sh, false)
      else Move(th.(cli := CReturn(op), bck := if cl.SomeipClient? then BCall(Below(op)) else BEnter(Below(op))),
                if op.CDisconnect? then sh.(link := sh.link.(client := false)) else sh)
    case CReturn(op) =>
      if op.CConnect? then ClientReturn(th, sh.(link := sh.link.(client := th.ret)), th.ret)
      else if op.CDisconnect? && op.thenConnect && th.ret
      then Move(th.(cli := CEnter(CConnect)), sh.(locks := sh.locks.(client := None)))
      else ClientReturn(th, sh, th.ret)
  }

  function Answered(l: Log, m: Message, ok: bool): Log {
    l.(outcomes := l.outcomes + [Outcome(m, ok)])
  }

  function ClientReturn(th: Thread, sh: Shared, ret: bool): Move {
    Move(th.(cli := CIdle, ret := ret),
         sh.(locks := sh.locks.(client := None),
             log := if th.mgr.FlushSent? then Answered(sh.log, th.msg, ret) else sh.log))
  }

  function BackendStep(cl: ClientKind, t: nat, th: Thread, sh: Shared, a: Answer): Move {
    match th.bck
    case BIdle => Move(th, sh)
    case BEnter(op) => Move(th.(bck := BGuard(op)), sh.(locks := sh.locks.(backend := Some(t))))
    case BGuard(op) => BackendGuard(cl, th, sh, op, a)
    case BCall(op) => BackendCall(cl, th, sh, op, a)
  }

  function BackendReturn(cl: ClientKind, th: Thread, sh: Shared, link: Link, ret: bool): Move {
    Move(th.(bck := BIdle, ret := ret),
         sh.(link := link, locks := if cl.SomeipClient? then sh.locks else sh.locks.(backend := None)))
  }

  function Flushed(l: Log, m: Message): Log {
    l.(flushed := l.flushed + [m])
  }

  // The checks made before the library is called. For a connect, `a` is how creating the client object went.
  function BackendGuard(cl: ClientKind, th: Thread, sh: Shared, op: BackendOp, a: Answer): Move {
    match op
    case BConnect =>
      if sh.link.backend then BackendReturn(cl, th, sh, sh.link, true)
      else if a.Throws? then BackendReturn(cl, th, sh, sh.link.(backend := false), false)
      else Move(th.(bck := BCall(op)), sh.(link := sh.link.(handle := true)))
    case BDisconnect =>
      if sh.link.handle then Move(th.(bck := BCall(op)), sh)
      else BackendReturn(cl, th, sh, sh.link.(backend := false), true)
    case _ =>
      if !sh.link.handle || !sh.link.backend then BackendReturn(cl, th, sh, sh.link, false)
      else Move(th.(bck := BCall(op)), sh)
  }

  function BackendCall(cl: ClientKind, th: Thread, sh: Shared, op: BackendOp, a: Answer): Move {
    match op
    case BConnect => BackendReturn(cl, th, sh, sh.link.(backend := a.Succeeds?), a.Succeeds?)
    case BDisconnect => BackendReturn(cl, th, sh, sh.link.(backend := false), cl.SomeipClient? || !a.Throws?)
    case BPublish =>
      if a.Succeeds?
      then BackendReturn(cl, if th.mgr.FlushSent? then th.(sent := th.sent + [th.msg]) else th,
                         sh.(books := Deliver(sh.books, th.msg),
                             log := if th.mgr.FlushSent? then Flushed(sh.log, th.msg) else sh.log),
                         sh.link, true)
      else BackendReturn(cl, th, sh, sh.link, false)
    case BSubscribe => BackendReturn(cl, th, sh, sh.link, a.Succeeds?)
  }

  // ----- Runs -----

  // (The SOME/IP client needs no library object, so nothing is missing.)
  predicate Initial(cl: ClientKind, s: System) {
    && (forall t :: 0 <= t < |s.threads| ==> Idle(s.threads[t]))
    && s.shared == Shared(Locks(None, None, None), Link(false, false, cl.SomeipClient?),
                          Books([], multiset{}, multiset{}, multiset{}), Log([], [], [], [], 0))
  }

  datatype Run = Run(labels: seq<Label>, states: seq<System>)

  ghost predicate Next(cl: ClientKind, s: System, l: Label, s': System) {
    Enabled(cl, s, l) && s' == Apply(cl, s, l)
  }

  ghost predicate IsRun(cl: ClientKind, r: Run) {
    && |r.states| == |r.labels| + 1
    && Initial(cl, r.states[0])
    && (forall i :: 0 <= i < |r.labels| ==> Next(cl, r.states[i], r.labels[i], r.states[i + 1]))
  }
}
