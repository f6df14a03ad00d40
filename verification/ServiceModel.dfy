/** Steps of src/ConnectivityService/connectivity_service.cpp: one controller thread that calls `start` and
    `stop`, the worker threads it spawns, and the world around them. Every atomic store, every call and every
    sleep is one step, so the threads interleave at each of them. */
module ServiceModel {
  import opened Basics
  import opened AuthClients
  import T = Transports

  const RECONNECT_DELAY: int := 2 * SECOND
  const PUBLISH_INTERVAL: int := 5 * SECOND

  datatype ServiceState = Starting | Authenticating | Connected | Publishing | Disconnected | Reconnecting | Stopped

  // The transport the telemetry manager was built with: none, the one the service drives, or another one.
  datatype ManagerClient = NoClient | SharedClient | OtherClient

  // Which of the injected pointers are set.
  datatype Config = Config(hasAuth: bool, hasAuthBackend: bool, hasTransport: bool, kind: T.Kind,
                           hasTelemetry: bool, managerClient: ManagerClient)

  // Where the controller is inside `start` or `stop`.
  datatype ControlPc =
    | Idle
    | StartStoreStarting | StartAuthenticate | StartStoreAuthenticating | StartConnect | StartStoreConnected
    | StartSpawn | StartAssign | StartAssignJoin | StartStorePublishing | StartFailStore | StartFailClear
    | StopRequest | StopJoin | StopStore
    | Crashed  // join() on a thread object that holds no thread

  // Where a worker is inside `runLoop` (and inside `publishSample`, which it calls).
  datatype WorkerPc =
    | LoopHead | ReadValid | ReadEmpty | StoreAuthenticating | Refresh | ReadFresh | StorePublishing | StoreTokenFail
    | CheckLink | StoreReconnecting | ReconnectDisconnect | ReconnectConnect | StoreConnected | StoreLinkFail
    | Publish | PublishCheck | PublishSend | PublishQueue
    | Sleeping | FinalDisconnect | Exited

  datatype Worker = Worker(pc: WorkerPc, stop: bool, wakeAt: int)

  // Samples are numbered in the order the loop generates them.
  datatype Telemetry = Telemetry(generated: nat, delivered: seq<nat>, pending: seq<nat>)

  datatype Service = Service(
    state: ServiceState,
    running: bool,
    control: ControlPc,
    workers: seq<Worker>,      // every thread ever spawned, in spawn order
    handle: Option<nat>,       // the thread `worker_` holds, if it is joinable
    tokens: TokenState,
    connected: bool,           // what the transport's isConnected() reports
    now: int,
    telemetry: Telemetry)

  // What the outside world answers if the step makes a call: a boolean, or an authentication reply.
  datatype Answer = Answer(ok: bool, reply: AuthResponse)

  datatype Label =
    | Tick(d: nat)
    | ClearToken               // someone calls AuthClient::clearToken
    | DropLink                 // the transport gets disconnected from outside
    | ConnectOutside           // somebody else connects the transport, with success
    | AuthenticateOutside(reply: AuthResponse)  // somebody else authenticates the vehicle, or refreshes its token
    | CallStart
    | CallStop
    | Control(a: Answer)
    | Work(w: nat, a: Answer)

  predicate Outside(l: Label) {
    l.ConnectOutside? || l.AuthenticateOutside?
  }

  predicate Initial(s: Service) {
    && s.state == Stopped
    && !s.running
    && s.control == Idle
    && s.workers == []
    && s.handle == None
    && s.tokens == Cleared(s.now)
    && s.telemetry == Telemetry(0, [], [])
  }

  // A join waits for the thread to end.
  predicate Joining(s: Service) {
    s.control == StopJoin || s.control == StartAssignJoin
  }

  predicate Enabled(cfg: Config, s: Service, l: Label) {
    match l
    case Tick(_) => true
    case ClearToken => cfg.hasAuth
    case DropLink => cfg.hasTransport
    case ConnectOutside => cfg.hasTransport
    case AuthenticateOutside(_) => cfg.hasAuth
    case CallStart => s.control == Idle
    case CallStop => s.control == Idle
    case Control(_) =>
      && s.control != Idle && s.control != Crashed
      && (Joining(s) && s.handle.Some? && s.handle.value < |s.workers| ==> s.workers[s.handle.value].pc == Exited)
    case Work(w, _) =>
      && w < |s.workers|
      && s.workers[w].pc != Exited
      && (s.workers[w].pc == Sleeping ==> s.workers[w].wakeAt <= s.now)
  }

  function Apply(cfg: Config, s: Service, l: Label): Service
    requires Enabled(cfg, s, l)
  {
    match l
    case Tick(d) => s.(now := s.now + d)
    case ClearToken => s.(tokens := Cleared(s.now))
    case DropLink => s.(connected := false)
    case ConnectOutside => s.(connected := true)
    case AuthenticateOutside(reply) => s.(tokens := Authenticated(s.tokens, cfg.hasAuthBackend, reply, s.now))
    case CallStart => if s.running then s else s.(running := true, control := StartStoreStarting)
    case CallStop => if s.running then s.(running := false, control := StopRequest) else s
    case Control(a) => ControlStep(cfg, s, a)
    case Work(w, a) => WorkStep(cfg, s, w, a)
  }

  function RequestStop(s: Service): Service {
    if s.handle.Some? && s.handle.value < |s.workers|
    then s.(workers := s.workers[s.handle.value := s.workers[s.handle.value].(stop := true)])
    else s
  }

  function ControlStep(cfg: Config, s: Service, a: Answer): Service {
    match s.control
    case Idle => s
    case Crashed => s
    case StartStoreStarting => s.(state := Starting, control := StartAuthenticate)
    case StartAuthenticate =>
      if !cfg.hasAuth then s.(control := StartFailStore)
      else s.(tokens := Authenticated(s.tokens, cfg.hasAuthBackend, a.reply, s.now),
              control := if Accepted(cfg.hasAuthBackend, a.reply) then StartStoreAuthenticating else StartFailStore)
    case StartStoreAuthenticating => s.(state := Authenticating, control := StartConnect)
    case StartConnect =>
      if !cfg.hasTransport then s.(control := StartFailStore)
      else
        var up := T.ConnectResult(s.connected, a.ok);
        s.(connected := up, control := if up then StartStoreConnected else StartFailStore)
    case StartStoreConnected => s.(state := Connected, control := StartSpawn)
    case StartSpawn => s.(workers := s.workers + [Worker(LoopHead, false, s.now)], control := StartAssign)
    // Assigning to `worker_` first stops and joins a thread it still holds.
    case StartAssign =>
      if s.handle.Some? then RequestStop(s).(control := StartAssignJoin)
      else s.(handle := if s.workers == [] then None else Some(|s.workers| - 1), control := StartStorePublishing)
    case StartAssignJoin => s.(handle := None, control := StartAssign)
    case StartStorePublishing => s.(state := Publishing, control := Idle)
    case StartFailStore => s.(state := Disconnected, control := StartFailClear)
    case StartFailClear => s.(running := false, control := Idle)
    case StopRequest => RequestStop(s).(control := StopJoin)
    case StopJoin => if s.handle.Some? then s.(handle := None, control := StopStore) else s.(control := Crashed)
    case StopStore => s.(state := Stopped, control := Idle)
  }

  // One step of worker `w`: it changes the shared state, moves on, and notes when a sleep it enters may end.
  function WorkStep(cfg: Config, s: Service, w: nat, a: Answer): Service
    requires w < |s.workers|
  {
    var me := s.workers[w];
    var pc' := NextPc(cfg, s, me, a);
    var wakeAt' := if pc' == Sleeping then s.now + Pause(me.pc) else me.wakeAt;
    Effect(cfg, s, me.pc, a).(workers := s.workers[w := Worker(pc', me.stop, wakeAt')])
  }

  // How long the sleep after position `pc` lasts.
  function Pause(pc: WorkerPc): int {
    if pc.StoreTokenFail? || pc.StoreLinkFail? then RECONNECT_DELAY else PUBLISH_INTERVAL
  }

  // The control flow of `runLoop`.
  function NextPc(cfg: Config, s: Service, me: Worker, a: Answer): WorkerPc {
    match me.pc
    case LoopHead => if me.stop then FinalDisconnect else if cfg.hasAuth then ReadValid else CheckLink
    case ReadValid => if Valid(s.tokens, s.now) then ReadEmpty else StoreAuthenticating
    case ReadEmpty => if s.tokens.token == "" then StoreAuthenticating else CheckLink
    case StoreAuthenticating => Refresh
    case Refresh => if Accepted(cfg.hasAuthBackend, a.reply) then ReadFresh else StoreTokenFail
    case ReadFresh => if s.tokens.token == "" then StoreTokenFail else StorePublishing
    case StorePublishing => CheckLink
    case StoreTokenFail => Sleeping
    case CheckLink => if cfg.hasTransport && s.connected then Publish else StoreReconnecting
    case StoreReconnecting => if cfg.hasTransport then ReconnectDisconnect else StoreLinkFail
    case ReconnectDisconnect => if T.DisconnectResult(cfg.kind, a.ok) then ReconnectConnect else StoreLinkFail
    case ReconnectConnect => if T.ConnectResult(s.connected, a.ok) then StoreConnected else StoreLinkFail
    case StoreConnected => Publish
    case StoreLinkFail => Sleeping
    case Publish => if cfg.hasTelemetry then PublishCheck else Sleeping
    case PublishCheck => if ManagerOnline(cfg, s.connected, a) then PublishSend else PublishQueue
    case PublishSend => if Sent(cfg, s, a) then Sleeping else PublishQueue
    case PublishQueue => Sleeping
    case Sleeping => LoopHead
    case FinalDisconnect => Exited
    case Exited => Exited
  }

  // What the step taken at `pc` does to the state shared with the other threads.
  function Effect(cfg: Config, s: Service, pc: WorkerPc, a: Answer): Service {
    match pc
    case StoreAuthenticating => s.(state := Authenticating)
    case Refresh => s.(tokens := Authenticated(s.tokens, cfg.hasAuthBackend, a.reply, s.now))
    case StorePublishing => s.(state := Publishing)
    case StoreTokenFail => s.(state := Disconnected)
    case StoreReconnecting => s.(state := Reconnecting)
    case ReconnectDisconnect => s.(connected := false)
    case ReconnectConnect => s.(connected := T.ConnectResult(s.connected, a.ok))
    case StoreConnected => s.(state := Connected)
    case StoreLinkFail => s.(state := Disconnected)
    case Publish => if cfg.hasTelemetry then s.(telemetry := Generate(s.telemetry)) else s
    case PublishSend => if Sent(cfg, s, a) then s.(telemetry := Deliver(s.telemetry)) else s
    case PublishQueue => s.(telemetry := Enqueue(s.telemetry))
    case FinalDisconnect => if cfg.hasTransport then s.(connected := false) else s
    case _ => s
  }

  predicate WorksAt(s: Service, l: Label, pc: WorkerPc) {
    l.Work? && l.w < |s.workers| && s.workers[l.w].pc == pc
  }

  predicate LinkPhase(pc: WorkerPc) {
    pc.CheckLink? || pc.StoreReconnecting? || pc.ReconnectDisconnect? || pc.ReconnectConnect? || pc.StoreConnected?
    || pc.StoreLinkFail?
  }

  predicate PublishPhase(pc: WorkerPc) {
    pc.Publish? || pc.PublishCheck? || pc.PublishSend? || pc.PublishQueue?
  }

  predicate ManagerOnline(cfg: Config, connected: bool, a: Answer) {
    match cfg.managerClient
    case NoClient => false
    case SharedClient => connected
    case OtherClient => a.ok
  }

  predicate Sent(cfg: Config, s: Service, a: Answer) {
    ManagerOnline(cfg, s.connected, a) && a.ok
  }

  function Generate(t: Telemetry): Telemetry {
    t.(generated := t.generated + 1)
  }

  function Deliver(t: Telemetry): Telemetry {
    if t.generated == 0 then t else t.(delivered := t.delivered + [t.generated - 1])
  }

  function Enqueue(t: Telemetry): Telemetry {
    if t.generated == 0 then t else t.(pending := t.pending + [t.generated - 1])
  }

  // ----- Runs -----

  datatype Run = Run(labels: seq<Label>, states: seq<Service>)

  ghost predicate Next(cfg: Config, s: Service, l: Label, s': Service) {
    Enabled(cfg, s, l) && s' == Apply(cfg, s, l)
  }

  ghost predicate IsPath(cfg: Config, r: Run) {
    && |r.states| == |r.labels| + 1
    && (forall i :: 0 <= i < |r.labels| ==> Next(cfg, r.states[i], r.labels[i], r.states[i + 1]))
  }

  ghost predicate IsRun(cfg: Config, r: Run) {
    IsPath(cfg, r) && Initial(r.states[0])
  }

  // Step `i` of the run is taken by worker `w` while it is at `pc`.
  ghost predicate Acts(r: Run, i: nat, w: nat, pc: WorkerPc) {
    && i < |r.labels| && i < |r.states|
    && r.labels[i].Work?
    && r.labels[i].w == w
    && w < |r.states[i].workers|
    && r.states[i].workers[w].pc == pc
  }
}
