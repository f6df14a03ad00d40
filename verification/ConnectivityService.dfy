/** src/ConnectivityService/connectivity_service.cpp as the program it is: `start`, `stop` and `runLoop` with
    their statements in order. Each call, when nobody interferes, is shown to take exactly the steps that the
    step model allows to interleave. */
module Connectivity {
  import opened Basics
  import opened AuthClients
  import opened ServiceModel
  import opened ServiceInvariant
  import opened ServiceShutdown
  import opened ServiceStop
  import T = Transports

  function End(r: Run): Service
    requires |r.states| > 0
  {
    r.states[|r.states| - 1]
  }

  function Then(cfg: Config, r: Run, l: Label): Run
    requires |r.states| > 0 && Enabled(cfg, End(r), l)
  {
    Run(r.labels + [l], r.states + [Apply(cfg, End(r), l)])
  }

  ghost predicate PathFrom(cfg: Config, r: Run, from: Service) {
    IsPath(cfg, r) && r.states[0] == from
  }

  ghost predicate Takes(cfg: Config, r: Run, from: Service, to: Service) {
    PathFrom(cfg, r, from) && End(r) == to
  }

  lemma ThenTakes(cfg: Config, r: Run, from: Service, l: Label)
    requires IsPath(cfg, r) && r.states[0] == from && Enabled(cfg, End(r), l)
    ensures Takes(cfg, Then(cfg, r, l), from, Apply(cfg, End(r), l))
  {
    var q := Then(cfg, r, l);
    forall i | 0 <= i < |q.labels|
      ensures Next(cfg, q.states[i], q.labels[i], q.states[i + 1])
    {
      if i < |r.labels| {
        assert Next(cfg, r.states[i], r.labels[i], r.states[i + 1]);
      }
    }
  }

  lemma {:induction false} PathKeepsCore(cfg: Config, r: Run, k: nat)
    requires IsPath(cfg, r) && Core(cfg, r.states[0]) && k <= |r.labels|
    ensures Core(cfg, r.states[k])
  {
    if k > 0 {
      PathKeepsCore(cfg, r, k - 1);
      StepAt(cfg, r, k - 1);
      StepKeepsCore(cfg, r.states[k - 1], r.labels[k - 1]);
    }
  }

  // The store the controller is about to make, and where it is afterwards.
  predicate Stores(pc: ControlPc, st: ServiceState) {
    match pc
    case StartStoreStarting => st == Starting
    case StartStoreAuthenticating => st == Authenticating
    case StartStoreConnected => st == Connected
    case StartStorePublishing => st == Publishing
    case StartFailStore => st == Disconnected
    case StopStore => st == Stopped
    case _ => false
  }

  function AfterStore(pc: ControlPc): ControlPc {
    match pc
    case StartStoreStarting => StartAuthenticate
    case StartStoreAuthenticating => StartConnect
    case StartStoreConnected => StartSpawn
    case StartFailStore => StartFailClear
    case _ => Idle
  }

  predicate LoopStores(pc: WorkerPc, st: ServiceState) {
    match pc
    case StoreAuthenticating => st == Authenticating
    case StorePublishing => st == Publishing
    case StoreReconnecting => st == Reconnecting
    case StoreConnected => st == Connected
    case StoreTokenFail | StoreLinkFail => st == Disconnected
    case _ => false
  }

  function AfterLoopStore(pc: WorkerPc): WorkerPc {
    match pc
    case StoreAuthenticating => Refresh
    case StorePublishing => CheckLink
    case StoreReconnecting => ReconnectDisconnect
    case StoreConnected => Publish
    case _ => Sleeping
  }

  // What the outside world answers to the calls one iteration may make.
  datatype Round = Round(refresh: Answer, hangUp: Answer, dial: Answer, check: Answer, send: Answer)

  // What a `stop` finds when the service runs, and what it may conclude when its last store is made.
  lemma StopFinds(cfg: Config, s: Service)
    requires Core(cfg, s) && s.control == Idle && s.running
    ensures cfg.hasAuth && cfg.hasAuthBackend && cfg.hasTransport
    ensures |s.workers| > 0 && s.handle == Some(|s.workers| - 1)
    ensures StepsLeft(s.workers[|s.workers| - 1].pc) >= StepsLeft(LoopHead)
    ensures TimeLeft(s) == SleepLeft(s.workers[|s.workers| - 1], s.now)
  {
  }

  lemma StopLeaves(cfg: Config, path: Run, from: Service, s: Service)
    requires Core(cfg, from) && Takes(cfg, path, from, s)
    ensures Core(cfg, s)
    ensures s.control == Idle && s.handle == None && s.state == Stopped && |s.workers| > 0 ==> AtRest(s)
  {
    PathKeepsCore(cfg, path, |path.labels|);
  }

  // Whether publishSample gets its sample out, given what the client answers to its two questions: with the client
  // that the service drives exactly if that is connected and the publish succeeds; without a client never.
  predicate GetsOut(client: ManagerClient, connected: bool, online: bool, sent: bool): (out: bool)
    ensures client == NoClient ==> !out
    ensures client == SharedClient ==> out == (connected && sent)
    ensures client == OtherClient ==> out == (online && sent)
  {
    match client
    case NoClient => false
    case SharedClient => connected && sent
    case OtherClient => online && sent
  }

  // One more sample, delivered or queued last.
  function AfterSample(t: Telemetry, out: bool): (t': Telemetry)
    ensures t'.generated == t.generated + 1
    ensures t'.delivered == t.delivered + if out then [t.generated] else []
    ensures t'.pending == t.pending + if out then [] else [t.generated]
  {
    if out then Deliver(Generate(t)) else Enqueue(Generate(t))
  }

  // How long these iterations take, given which of them published.
  function Elapsed(published: seq<bool>): int {
    if published == [] then 0
    else Elapsed(published[..|published| - 1]) + IterationTime(published[|published| - 1])
  }

  function IterationTime(published: bool): (d: int)
    ensures published ==> d == 5_000_000_000
    ensures !published ==> d == 2_000_000_000
  {
    if published then 5_000_000_000 else 2_000_000_000
  }

  lemma OneMoreElapsed(published: seq<bool>, last: bool)
    ensures Elapsed(published + [last]) == Elapsed(published) + IterationTime(last)
  {
    assert (published + [last])[..|published|] == published;
  }

  class ConnectivityService {
    const cfg: Config
    var state: ServiceState
    var running: bool
    var threads: seq<Worker> // every worker spawned, and where it is
    var worker: Option<nat>
    var tokens: TokenState
    var connected: bool
    var now: int
    var telemetry: Telemetry
    var control: ControlPc   // where the controller is
    ghost var path: Run      // the steps taken by the present call

    function View(): Service
      reads this
    {
      Service(state, running, control, threads, worker, tokens, connected, now, telemetry)
    }

    constructor (cfg: Config, now: int, connected: bool)
      ensures this.cfg == cfg && Initial(View())
    {
      this.cfg := cfg;
      state, running, threads, worker, control := Stopped, false, [], None, Idle;
      tokens, telemetry := Cleared(now), Telemetry(0, [], []);
      this.now, this.connected := now, connected;
      path := Run([], []);
    }

    // The statements since `before` did what step `l` does; the controller moves on.
    method Mark(ghost from: Service, before: Service, l: Label)
      requires Takes(cfg, path, from, before) && Enabled(cfg, before, l)
      requires Apply(cfg, before, l) == View().(control := Apply(cfg, before, l).control)
      modifies this`path, this`control
      ensures Takes(cfg, path, from, View())
      ensures control == Apply(cfg, before, l).control
    {
      ThenTakes(cfg, path, from, l);
      control := Apply(cfg, before, l).control;
      path := Then(cfg, path, l);
    }

    // `state_.store(...)`, at each place where `start` and `stop` do it.
    method Store(ghost from: Service, a: Answer, st: ServiceState)
      requires Takes(cfg, path, from, View())
      requires Stores(control, st)
      modifies this`state, this`path, this`control
      ensures Takes(cfg, path, from, View())
      ensures state == st && control == AfterStore(old(control))
    {
      var before := View();
      state := st;
      Mark(from, before, Control(a));
    }

    // `running_.exchange(true)` and, when `start` gives up, `running_.store(false)`.
    method EnterStart(ghost from: Service) returns (wasRunning: bool)
      requires control == Idle && Takes(cfg, path, from, View())
      modifies this`running, this`path, this`control
      ensures Takes(cfg, path, from, View())
      ensures wasRunning == old(running) && running
      ensures control == if wasRunning then Idle else StartStoreStarting
    {
      var before := View();
      wasRunning := running;
      running := true;
      Mark(from, before, CallStart);
    }

    method LeaveStart(ghost from: Service, a: Answer)
      requires control == StartFailClear && Takes(cfg, path, from, View())
      modifies this`running, this`path, this`control
      ensures Takes(cfg, path, from, View())
      ensures !running && control == Idle
    {
      var before := View();
      running := false;
      Mark(from, before, Control(a));
    }

    // `worker_ = std::jthread(...)`: the thread exists, and can run, before `worker_` holds it.
    method Spawn(ghost from: Service, a: Answer)
      requires control == StartSpawn && worker == None && Takes(cfg, path, from, View())
      modifies this`threads, this`worker, this`path, this`control
      ensures Takes(cfg, path, from, View())
      ensures threads == old(threads) + [Worker(LoopHead, false, now)] && worker == Some(|old(threads)|)
      ensures control == StartStorePublishing
    {
      var before := View();
      threads := threads + [Worker(LoopHead, false, now)];
      Mark(from, before, Control(a));
      before := View();
      worker := Some(|threads| - 1);
      Mark(from, before, Control(a));
    }

    method Start(reply: AuthResponse, dialled: bool) returns (ok: bool)
      requires control == Idle && (worker.Some? ==> running)
      modifies this
      ensures control == Idle && Takes(cfg, path, old(View()), View())
      ensures ok == (old(running) || (cfg.hasAuth && cfg.hasAuthBackend && reply.accessToken != ""
                                      && cfg.hasTransport && (old(connected) || dialled)))
      ensures old(running) ==> View() == old(View())
      ensures !ok ==> state == Disconnected && !running && worker == None && threads == old(threads)
      ensures ok && !old(running) ==> tokens == TokenState(reply.accessToken, now + reply.expiresIn * 1_000_000_000)
      ensures ok && !old(running) ==> state == Publishing && running && connected
                                      && worker == Some(|old(threads)|)
                                      && threads == old(threads) + [Worker(LoopHead, false, now)]
    {
      ghost var from := View();
      var a := Answer(dialled, reply);
      path := Run([], [from]);
      var wasRunning := EnterStart(from);
      if wasRunning {
        return true;
      }
      ok := BringUp(from, a, reply, dialled);
    }

    method BringUp(ghost from: Service, a: Answer, reply: AuthResponse, dialled: bool) returns (ok: bool)
      requires control == StartStoreStarting && worker == None && running && Takes(cfg, path, from, View())
      requires a == Answer(dialled, reply)
      modifies this
      ensures Takes(cfg, path, from, View()) && control == Idle
      ensures ok == (cfg.hasAuth && Accepted(cfg.hasAuthBackend, reply)
                     && cfg.hasTransport && T.ConnectResult(old(connected), dialled))
      ensures !ok ==> state == Disconnected && !running && worker == None && threads == old(threads)
      ensures ok ==> state == Publishing && running && connected && worker == Some(|old(threads)|)
                     && threads == old(threads) + [Worker(LoopHead, false, now)]
      ensures ok ==> tokens == TokenState(reply.accessToken, now + reply.expiresIn * 1_000_000_000)
    {
      ok := LogIn(from, a, reply);
      if ok {
        ok := Connect(from, a, dialled);
      } else {
        GiveUp(from, a);
      }
    }

    // The first half of `start`.
    method LogIn(ghost from: Service, a: Answer, reply: AuthResponse) returns (ok: bool)
      requires control == StartStoreStarting && Takes(cfg, path, from, View()) && a.reply == reply
      modifies this`state, this`tokens, this`path, this`control
      ensures Takes(cfg, path, from, View()) && state == Starting
      ensures ok == (cfg.hasAuth && Accepted(cfg.hasAuthBackend, reply))
      ensures control == if ok then StartStoreAuthenticating else StartFailStore
      ensures ok ==> tokens == TokenState(reply.accessToken, now + reply.expiresIn * 1_000_000_000)
    {
      Store(from, a, Starting);
      ok := Authenticate(from, a, reply);
    }

    // The second half of `start`, once the vehicle is authenticated.
    method Connect(ghost from: Service, a: Answer, dialled: bool) returns (ok: bool)
      requires control == StartStoreAuthenticating && worker == None && Takes(cfg, path, from, View())
      requires a.ok == dialled
      modifies this`connected, this`state, this`running, this`threads, this`worker, this`path, this`control
      ensures Takes(cfg, path, from, View()) && control == Idle
      ensures ok == (cfg.hasTransport && T.ConnectResult(old(connected), dialled))
      ensures !ok ==> state == Disconnected && !running && worker == None && threads == old(threads)
      ensures ok ==> state == Publishing && running == old(running) && connected && worker == Some(|old(threads)|)
                     && threads == old(threads) + [Worker(LoopHead, false, now)]
    {
      Store(from, a, Authenticating);
      ok := Dial(from, a, dialled);
      if ok {
        SetOff(from, a);
      } else {
        GiveUp(from, a);
      }
    }

    method SetOff(ghost from: Service, a: Answer)
      requires control == StartStoreConnected && worker == None && Takes(cfg, path, from, View())
      modifies this`state, this`threads, this`worker, this`path, this`control
      ensures Takes(cfg, path, from, View()) && control == Idle && state == Publishing
      ensures threads == old(threads) + [Worker(LoopHead, false, now)] && worker == Some(|old(threads)|)
    {
      Store(from, a, Connected);
      Spawn(from, a);
      Store(from, a, Publishing);
    }

    method GiveUp(ghost from: Service, a: Answer)
      requires control == StartFailStore && Takes(cfg, path, from, View())
      modifies this`state, this`running, this`path, this`control
      ensures Takes(cfg, path, from, View())
      ensures state == Disconnected && !running && control == Idle
    {
      Store(from, a, Disconnected);
      LeaveStart(from, a);
    }

    method Authenticate(ghost from: Service, a: Answer, reply: AuthResponse) returns (ok: bool)
      requires control == StartAuthenticate && Takes(cfg, path, from, View()) && a.reply == reply
      modifies this`tokens, this`path, this`control
      ensures Takes(cfg, path, from, View())
      ensures ok == (cfg.hasAuth && Accepted(cfg.hasAuthBackend, reply))
      ensures control == if ok then StartStoreAuthenticating else StartFailStore
      ensures ok ==> tokens == TokenState(reply.accessToken, now + reply.expiresIn * 1_000_000_000)
    {
      var before := View();
      ok := false;
      if cfg.hasAuth {
        tokens := Authenticated(tokens, cfg.hasAuthBackend, reply, now);
        ok := Accepted(cfg.hasAuthBackend, reply);
      }
      Mark(from, before, Control(a));
    }

    method Dial(ghost from: Service, a: Answer, dialled: bool) returns (ok: bool)
      requires control == StartConnect && Takes(cfg, path, from, View()) && a.ok == dialled
      modifies this`connected, this`path, this`control
      ensures Takes(cfg, path, from, View())
      ensures ok == (cfg.hasTransport && T.ConnectResult(old(connected), dialled))
      ensures ok ==> connected
      ensures control == if ok then StartStoreConnected else StartFailStore
    {
      var before := View();
      ok := false;
      if cfg.hasTransport {
        connected := T.ConnectResult(connected, dialled);
        ok := connected;
      }
      Mark(from, before, Control(a));
    }

    // ----- runLoop, for a worker that no other thread interrupts -----

    // The statements since `before` did what the worker's next step does to the shared state; it moves on.
    method Advance(ghost from: Service, before: Service, w: nat, a: Answer)
      requires w < |threads| && threads == before.workers && before.now == now
      requires Takes(cfg, path, from, before) && Enabled(cfg, before, Work(w, a))
      requires View() == Effect(cfg, before, threads[w].pc, a)
      modifies this`threads, this`path
      ensures Takes(cfg, path, from, View())
      ensures |threads| == |before.workers| && threads == before.workers[w := threads[w]]
      ensures threads[w].stop == before.workers[w].stop
      ensures threads[w].pc == NextPc(cfg, before, before.workers[w], a)
      ensures threads[w].pc.Sleeping? ==> threads[w].wakeAt == now + Pause(before.workers[w].pc)
    {
      threads := Apply(cfg, before, Work(w, a)).workers;
      ThenTakes(cfg, path, from, Work(w, a));
      path := Then(cfg, path, Work(w, a));
      assert View() == Apply(cfg, before, Work(w, a));
    }

    predicate At(w: nat, pc: WorkerPc)
      reads this`threads
    {
      w < |threads| && threads[w].pc == pc
    }

    // `state_.store(...)` inside the loop; a failure store is followed by the retry sleep.
    method LoopStore(ghost from: Service, w: nat, a: Answer, st: ServiceState)
      requires w < |threads| && LoopStores(threads[w].pc, st) && cfg.hasTransport
      requires Takes(cfg, path, from, View())
      modifies this`state, this`threads, this`path
      ensures Takes(cfg, path, from, View()) && state == st
      ensures |threads| == |old(threads)| && threads == old(threads)[w := threads[w]]
      ensures threads[w].stop == old(threads)[w].stop
      ensures threads[w].pc == AfterLoopStore(old(threads)[w].pc)
      ensures threads[w].pc.Sleeping? ==> threads[w].wakeAt == now + 2_000_000_000
    {
      var before := View();
      state := st;
      Advance(from, before, w, a);
    }

    // The refresh, and the check that it left a token.
    method Refresh(ghost from: Service, w: nat, a: Answer) returns (ok: bool)
      requires At(w, WorkerPc.Refresh) && cfg.hasAuthBackend && Takes(cfg, path, from, View())
      modifies this`tokens, this`threads, this`path
      ensures Takes(cfg, path, from, View())
      ensures |threads| == |old(threads)| && threads == old(threads)[w := threads[w]]
      ensures threads[w].stop == old(threads)[w].stop
      ensures ok == Accepted(cfg.hasAuthBackend, a.reply)
      ensures tokens == Authenticated(old(tokens), cfg.hasAuthBackend, a.reply, now)
      ensures At(w, if ok then StorePublishing else StoreTokenFail)
    {
      var before := View();
      ok := Accepted(cfg.hasAuthBackend, a.reply);
      tokens := Authenticated(tokens, cfg.hasAuthBackend, a.reply, now);
      Advance(from, before, w, a);
      if ok {
        before := View();
        ok := tokens.token != "";
        Advance(from, before, w, a);
      }
    }

    // Whether the token is usable as it is: valid, and then still not empty.
    method CheckToken(ghost from: Service, w: nat, a: Answer) returns (ok: bool)
      requires At(w, ReadValid) && Takes(cfg, path, from, View())
      modifies this`threads, this`path
      ensures Takes(cfg, path, from, View())
      ensures |threads| == |old(threads)| && threads == old(threads)[w := threads[w]]
      ensures threads[w].stop == old(threads)[w].stop
      ensures ok == Valid(tokens, now)
      ensures At(w, if ok then CheckLink else WorkerPc.StoreAuthenticating)
    {
      var before := View();
      ok := Valid(tokens, now);
      Advance(from, before, w, a);
      if ok {
        before := View();
        ok := tokens.token != "";
        Advance(from, before, w, a);
      }
    }

    // The first `if` of the loop body.
    method EnsureToken(ghost from: Service, w: nat, a: Answer) returns (ok: bool)
      requires At(w, ReadValid) && cfg.hasAuthBackend && cfg.hasTransport && Takes(cfg, path, from, View())
      modifies this`state, this`tokens, this`threads, this`path
      ensures Takes(cfg, path, from, View())
      ensures |threads| == |old(threads)| && threads == old(threads)[w := threads[w]]
      ensures threads[w].stop == old(threads)[w].stop
      ensures ok == ((old(tokens).token != "" && now < old(tokens).expiresAt) || a.reply.accessToken != "")
      ensures old(tokens).token != "" && now < old(tokens).expiresAt ==> tokens == old(tokens)
      ensures ok && !(old(tokens).token != "" && now < old(tokens).expiresAt) ==>
                tokens == TokenState(a.reply.accessToken, now + a.reply.expiresIn * 1_000_000_000)
      ensures ok ==> At(w, CheckLink) && tokens.token != ""
      ensures !ok ==> At(w, Sleeping) && threads[w].wakeAt == now + 2_000_000_000
                      && state == Disconnected && tokens.token == ""
    {
      ok := CheckToken(from, w, a);
      if !ok {
        ok := RenewToken(from, w, a);
      }
    }

    method RenewToken(ghost from: Service, w: nat, a: Answer) returns (ok: bool)
      requires At(w, WorkerPc.StoreAuthenticating) && cfg.hasAuthBackend && cfg.hasTransport
      requires Takes(cfg, path, from, View())
      modifies this`state, this`tokens, this`threads, this`path
      ensures Takes(cfg, path, from, View())
      ensures |threads| == |old(threads)| && threads == old(threads)[w := threads[w]]
      ensures threads[w].stop == old(threads)[w].stop
      ensures ok == (a.reply.accessToken != "")
      ensures ok ==> tokens == TokenState(a.reply.accessToken, now + a.reply.expiresIn * 1_000_000_000)
      ensures ok ==> At(w, CheckLink) && tokens.token != ""
      ensures !ok ==> At(w, Sleeping) && threads[w].wakeAt == now + 2_000_000_000
                      && state == Disconnected && tokens.token == ""
    {
      LoopStore(from, w, a, Authenticating);
      ok := Refresh(from, w, a);
      LoopStore(from, w, a, if ok then Publishing else Disconnected);
    }

    // MqttClient or SomeipClient `reconnect`: its disconnect, and then perhaps its connect.
    method Reconnect(ghost from: Service, w: nat, hangUp: Answer, dial: Answer) returns (ok: bool)
      requires At(w, ReconnectDisconnect) && Takes(cfg, path, from, View())
      modifies this`connected, this`threads, this`path
      ensures Takes(cfg, path, from, View())
      ensures |threads| == |old(threads)| && threads == old(threads)[w := threads[w]]
      ensures threads[w].stop == old(threads)[w].stop
      ensures ok == connected == T.ReconnectResult(cfg.kind, hangUp.ok, dial.ok)
      ensures At(w, if ok then StoreConnected else StoreLinkFail)
    {
      ok := HangUp(from, w, hangUp);
      if ok {
        ok := Redial(from, w, dial);
      }
    }

    method HangUp(ghost from: Service, w: nat, a: Answer) returns (ok: bool)
      requires At(w, ReconnectDisconnect) && Takes(cfg, path, from, View())
      modifies this`connected, this`threads, this`path
      ensures Takes(cfg, path, from, View())
      ensures |threads| == |old(threads)| && threads == old(threads)[w := threads[w]]
      ensures threads[w].stop == old(threads)[w].stop
      ensures ok == T.DisconnectResult(cfg.kind, a.ok) && !connected
      ensures At(w, if ok then ReconnectConnect else StoreLinkFail)
    {
      var before := View();
      connected := false;
      ok := T.DisconnectResult(cfg.kind, a.ok);
      Advance(from, before, w, a);
    }

    method Redial(ghost from: Service, w: nat, a: Answer) returns (ok: bool)
      requires At(w, ReconnectConnect) && Takes(cfg, path, from, View())
      modifies this`connected, this`threads, this`path
      ensures Takes(cfg, path, from, View())
      ensures |threads| == |old(threads)| && threads == old(threads)[w := threads[w]]
      ensures threads[w].stop == old(threads)[w].stop
      ensures ok == connected == T.ConnectResult(old(connected), a.ok)
      ensures At(w, if ok then StoreConnected else StoreLinkFail)
    {
      var before := View();
      connected := T.ConnectResult(connected, a.ok);
      ok := connected;
      Advance(from, before, w, a);
    }

    // The second `if` of the loop body.
    method EnsureLink(ghost from: Service, w: nat, hangUp: Answer, dial: Answer) returns (ok: bool)
      requires At(w, CheckLink) && cfg.hasTransport && Takes(cfg, path, from, View())
      modifies this`state, this`connected, this`threads, this`path
      ensures Takes(cfg, path, from, View())
      ensures |threads| == |old(threads)| && threads == old(threads)[w := threads[w]]
      ensures threads[w].stop == old(threads)[w].stop
      ensures ok == connected == (old(connected) || ((cfg.kind.Someip? || hangUp.ok) && dial.ok))
      ensures ok ==> At(w, Publish)
      ensures !ok ==> At(w, Sleeping) && threads[w].wakeAt == now + 2_000_000_000 && state == Disconnected
    {
      var before := View();
      ok := connected;
      Advance(from, before, w, dial);
      if !ok {
        ok := RestoreLink(from, w, hangUp, dial);
      }
    }

    method RestoreLink(ghost from: Service, w: nat, hangUp: Answer, dial: Answer) returns (ok: bool)
      requires At(w, StoreReconnecting) && cfg.hasTransport && Takes(cfg, path, from, View())
      modifies this`state, this`connected, this`threads, this`path
      ensures Takes(cfg, path, from, View())
      ensures |threads| == |old(threads)| && threads == old(threads)[w := threads[w]]
      ensures threads[w].stop == old(threads)[w].stop
      ensures ok == connected == T.ReconnectResult(cfg.kind, hangUp.ok, dial.ok)
      ensures ok ==> At(w, Publish)
      ensures !ok ==> At(w, Sleeping) && threads[w].wakeAt == now + 2_000_000_000 && state == Disconnected
    {
      LoopStore(from, w, dial, Reconnecting);
      ok := Reconnect(from, w, hangUp, dial);
      LoopStore(from, w, dial, if ok then Connected else Disconnected);
    }

    // `publishTelemetry`, which comes down to the manager's `publishSample`, and the start of the long sleep.
    method PublishTelemetry(ghost from: Service, w: nat, check: Answer, send: Answer) returns (ok: bool)
      requires At(w, Publish) && Takes(cfg, path, from, View())
      modifies this`telemetry, this`threads, this`path
      ensures Takes(cfg, path, from, View())
      ensures |threads| == |old(threads)| && threads == old(threads)[w := threads[w]]
      ensures threads[w].stop == old(threads)[w].stop
      ensures At(w, Sleeping) && threads[w].wakeAt == now + 5_000_000_000
      ensures ok == cfg.hasTelemetry
      ensures telemetry ==
              if ok then AfterSample(old(telemetry), GetsOut(cfg.managerClient, connected, check.ok, send.ok))
              else old(telemetry)
    {
      ok := GenerateSample(from, w, check);
      if ok {
        PublishSample(from, w, check, send);
      }
    }

    method GenerateSample(ghost from: Service, w: nat, a: Answer) returns (ok: bool)
      requires At(w, Publish) && Takes(cfg, path, from, View())
      modifies this`telemetry, this`threads, this`path
      ensures Takes(cfg, path, from, View())
      ensures |threads| == |old(threads)| && threads == old(threads)[w := threads[w]]
      ensures threads[w].stop == old(threads)[w].stop
      ensures ok == cfg.hasTelemetry
      ensures telemetry == if ok then Generate(old(telemetry)) else old(telemetry)
      ensures At(w, if ok then PublishCheck else Sleeping)
      ensures !ok ==> threads[w].wakeAt == now + 5_000_000_000
    {
      var before := View();
      ok := cfg.hasTelemetry;
      if ok {
        telemetry := Generate(telemetry);
      }
      Advance(from, before, w, a);
    }

    // `publishSample`, after the sample has been generated.
    method PublishSample(ghost from: Service, w: nat, check: Answer, send: Answer)
      requires At(w, PublishCheck) && Takes(cfg, path, from, View())
      modifies this`telemetry, this`threads, this`path
      ensures Takes(cfg, path, from, View())
      ensures |threads| == |old(threads)| && threads == old(threads)[w := threads[w]]
      ensures threads[w].stop == old(threads)[w].stop
      ensures At(w, Sleeping) && threads[w].wakeAt == now + 5_000_000_000
      ensures telemetry == if GetsOut(cfg.managerClient, connected, check.ok, send.ok) then Deliver(old(telemetry))
                           else Enqueue(old(telemetry))
    {
      var online := AskOnline(from, w, check);
      if online {
        SendOrQueue(from, w, send);
      } else {
        QueueSample(from, w, send);
      }
    }

    method SendOrQueue(ghost from: Service, w: nat, a: Answer)
      requires At(w, PublishSend) && Takes(cfg, path, from, View())
      modifies this`telemetry, this`threads, this`path
      ensures Takes(cfg, path, from, View())
      ensures |threads| == |old(threads)| && threads == old(threads)[w := threads[w]]
      ensures threads[w].stop == old(threads)[w].stop
      ensures At(w, Sleeping) && threads[w].wakeAt == now + 5_000_000_000
      ensures telemetry == if ManagerOnline(cfg, connected, a) && a.ok then Deliver(old(telemetry))
                           else Enqueue(old(telemetry))
    {
      var sent := Send(from, w, a);
      if !sent {
        QueueSample(from, w, a);
      }
    }

    method AskOnline(ghost from: Service, w: nat, a: Answer) returns (online: bool)
      requires At(w, PublishCheck) && Takes(cfg, path, from, View())
      modifies this`threads, this`path
      ensures Takes(cfg, path, from, View())
      ensures |threads| == |old(threads)| && threads == old(threads)[w := threads[w]]
      ensures threads[w].stop == old(threads)[w].stop
      ensures online == ManagerOnline(cfg, connected, a)
      ensures At(w, if online then PublishSend else PublishQueue)
    {
      var before := View();
      online := ManagerOnline(cfg, connected, a);
      Advance(from, before, w, a);
    }

    method Send(ghost from: Service, w: nat, a: Answer) returns (sent: bool)
      requires At(w, PublishSend) && Takes(cfg, path, from, View())
      modifies this`telemetry, this`threads, this`path
      ensures Takes(cfg, path, from, View())
      ensures |threads| == |old(threads)| && threads == old(threads)[w := threads[w]]
      ensures threads[w].stop == old(threads)[w].stop
      ensures sent == (ManagerOnline(cfg, connected, a) && a.ok)
      ensures telemetry == if sent then Deliver(old(telemetry)) else old(telemetry)
      ensures At(w, if sent then Sleeping else PublishQueue)
      ensures sent ==> threads[w].wakeAt == now + 5_000_000_000
    {
      var before := View();
      sent := ManagerOnline(cfg, connected, a) && a.ok;
      if sent {
        telemetry := Deliver(telemetry);
      }
      Advance(from, before, w, a);
    }

    method QueueSample(ghost from: Service, w: nat, a: Answer)
      requires At(w, PublishQueue) && Takes(cfg, path, from, View())
      modifies this`telemetry, this`threads, this`path
      ensures Takes(cfg, path, from, View())
      ensures |threads| == |old(threads)| && threads == old(threads)[w := threads[w]]
      ensures threads[w].stop == old(threads)[w].stop
      ensures telemetry == Enqueue(old(telemetry))
      ensures At(w, Sleeping) && threads[w].wakeAt == now + 5_000_000_000
    {
      var before := View();
      telemetry := Enqueue(telemetry);
      Advance(from, before, w, a);
    }

    // `sleep_for`: the clock moves on to the end of the sleep, if that has not passed yet.
    method SleepOut(ghost from: Service, w: nat, a: Answer)
      requires At(w, Sleeping) && Takes(cfg, path, from, View())
      modifies this`now, this`threads, this`path, this`control
      ensures Takes(cfg, path, from, View()) && control == old(control)
      ensures |threads| == |old(threads)| && threads == old(threads)[w := threads[w]]
      ensures threads[w].stop == old(threads)[w].stop
      ensures At(w, LoopHead) && now == if old(now) < old(threads)[w].wakeAt then old(threads)[w].wakeAt else old(now)
    {
      if now < threads[w].wakeAt {
        Wait(from, threads[w].wakeAt - now);
      }
      var before := View();
      Advance(from, before, w, a);
    }

    method Wait(ghost from: Service, d: nat)
      requires Takes(cfg, path, from, View())
      modifies this`now, this`path, this`control
      ensures Takes(cfg, path, from, View()) && control == old(control) && now == old(now) + d
    {
      var before := View();
      now := now + d;
      Mark(from, before, Tick(d));
    }

    // One pass through the loop body.
    method Iterate(ghost from: Service, w: nat, r: Round) returns (published: bool)
      requires At(w, LoopHead) && !threads[w].stop && Takes(cfg, path, from, View())
      requires cfg.hasAuth && cfg.hasAuthBackend && cfg.hasTransport
      modifies this`state, this`tokens, this`connected, this`telemetry, this`now, this`threads, this`path, this`control
      ensures Takes(cfg, path, from, View()) && control == old(control)
      ensures |threads| == |old(threads)| && At(w, LoopHead) && !threads[w].stop
      ensures published ==
              (((old(tokens).token != "" && old(now) < old(tokens).expiresAt) || r.refresh.reply.accessToken != "")
               && (old(connected) || ((cfg.kind.Someip? || r.hangUp.ok) && r.dial.ok)))
      ensures telemetry ==
              if published && cfg.hasTelemetry
              then AfterSample(old(telemetry), GetsOut(cfg.managerClient, true, r.check.ok, r.send.ok))
              else old(telemetry)
      ensures now == old(now) + IterationTime(published)
    {
      var before := View();
      Advance(from, before, w, r.refresh);
      published := EnsureToken(from, w, r.refresh);
      if published {
        published := LinkAndPublish(from, w, r);
      }
      SleepOut(from, w, r.send);
    }

    method LinkAndPublish(ghost from: Service, w: nat, r: Round) returns (published: bool)
      requires At(w, CheckLink) && cfg.hasTransport && Takes(cfg, path, from, View())
      modifies this`state, this`connected, this`telemetry, this`threads, this`path
      ensures Takes(cfg, path, from, View())
      ensures |threads| == |old(threads)| && threads[w].stop == old(threads)[w].stop
      ensures published == connected == (old(connected) || ((cfg.kind.Someip? || r.hangUp.ok) && r.dial.ok))
      ensures telemetry ==
              if published && cfg.hasTelemetry
              then AfterSample(old(telemetry), GetsOut(cfg.managerClient, true, r.check.ok, r.send.ok))
              else old(telemetry)
      ensures At(w, Sleeping)
      ensures threads[w].wakeAt == now + IterationTime(published)
    {
      published := EnsureLink(from, w, r.hangUp, r.dial);
      if published {
        var _ := PublishTelemetry(from, w, r.check, r.send);
      }
    }

    // The whole of `runLoop`: iterations until the stop request is seen, then the last disconnect. The request comes
    // after `rounds`, from a `stop` that goes on to wait in its join.
    method RunLoop(ghost from: Service, w: nat, rounds: seq<Round>) returns (published: seq<bool>)
      requires control == Idle && running && worker == Some(w)
      requires At(w, LoopHead) && !threads[w].stop && Takes(cfg, path, from, View())
      requires cfg.hasAuth && cfg.hasAuthBackend && cfg.hasTransport
      modifies this`state, this`tokens, this`connected, this`telemetry, this`now, this`threads, this`path, this`control,
               this`running
      ensures Takes(cfg, path, from, View()) && control == StopJoin && !running
      ensures At(w, Exited) && !connected
      ensures |published| == |rounds| && now == old(now) + Elapsed(published)
    {
      published := [];
      while !threads[w].stop
        invariant Takes(cfg, path, from, View()) && At(w, LoopHead) && |published| <= |rounds|
        invariant threads[w].stop ==> |published| == |rounds| && control == StopJoin && !running
        invariant !threads[w].stop ==> control == Idle && running
        invariant now == old(now) + Elapsed(published)
        decreases |rounds| - |published|, if threads[w].stop then 0 else 1
      {
        if |published| == |rounds| {
          AskToStop(from, w);
        } else {
          var ok := Iterate(from, w, rounds[|published|]);
          OneMoreElapsed(published, ok);
          published := published + [ok];
        }
      }
      FinishLoop(from, w);
    }

    // The worker's next statement, wherever in an iteration it stands.
    method WorkOn(ghost from: Service, w: nat, r: Round)
      requires w < |threads| && StepsLeft(threads[w].pc) > StepsLeft(LoopHead) && Takes(cfg, path, from, View())
      requires cfg.hasAuth && cfg.hasAuthBackend && cfg.hasTransport
      modifies this`state, this`tokens, this`connected, this`telemetry, this`now, this`threads, this`path, this`control
      ensures Takes(cfg, path, from, View()) && control == old(control)
      ensures |threads| == |old(threads)| && threads == old(threads)[w := threads[w]]
      ensures threads[w].stop == old(threads)[w].stop
      ensures StepsLeft(LoopHead) <= StepsLeft(threads[w].pc) < StepsLeft(old(threads)[w].pc)
      ensures old(now) <= now && now + SleepLeft(threads[w], now) <= old(now) + SleepLeft(old(threads)[w], old(now))
    {
      var pc := threads[w].pc;
      if StepsLeft(pc) > StepsLeft(CheckLink) {
        WorkOnToken(from, w, r.refresh);
      } else if StepsLeft(pc) > StepsLeft(Publish) || pc.StoreTokenFail? || pc.StoreLinkFail? {
        WorkOnLink(from, w, r);
      } else if pc.Sleeping? {
        SleepOut(from, w, r.send);
      } else {
        WorkOnPublish(from, w, r);
      }
    }

    method WorkOnToken(ghost from: Service, w: nat, a: Answer)
      requires w < |threads| && StepsLeft(threads[w].pc) > StepsLeft(CheckLink) && Takes(cfg, path, from, View())
      requires cfg.hasAuth && cfg.hasAuthBackend && cfg.hasTransport
      modifies this`state, this`tokens, this`threads, this`path
      ensures Takes(cfg, path, from, View())
      ensures |threads| == |old(threads)| && threads == old(threads)[w := threads[w]]
      ensures threads[w].stop == old(threads)[w].stop
      ensures StepsLeft(Sleeping) < StepsLeft(threads[w].pc) < StepsLeft(old(threads)[w].pc)
    {
      var before := View();
      var pc := threads[w].pc;
      if pc.ReadValid? {
        var _ := CheckToken(from, w, a);
      } else if pc.StoreAuthenticating? {
        LoopStore(from, w, a, Authenticating);
      } else if pc.Refresh? {
        var _ := Refresh(from, w, a);
      } else if pc.StorePublishing? {
        LoopStore(from, w, a, Publishing);
      } else {
        Advance(from, before, w, a);
      }
    }

    method WorkOnLink(ghost from: Service, w: nat, r: Round)
      requires Takes(cfg, path, from, View()) && cfg.hasTransport
      requires w < |threads|
      requires var pc := threads[w].pc; LinkPhase(pc) || pc.StoreTokenFail?
      modifies this`state, this`connected, this`threads, this`path
      ensures Takes(cfg, path, from, View())
      ensures |threads| == |old(threads)| && threads == old(threads)[w := threads[w]]
      ensures threads[w].stop == old(threads)[w].stop
      ensures StepsLeft(Sleeping) <= StepsLeft(threads[w].pc) < StepsLeft(old(threads)[w].pc)
      ensures threads[w].pc.Sleeping? ==> threads[w].wakeAt == now + 2_000_000_000
    {
      var before := View();
      var pc := threads[w].pc;
      if pc.ReconnectDisconnect? {
        var _ := HangUp(from, w, r.hangUp);
      } else if pc.ReconnectConnect? {
        var _ := Redial(from, w, r.dial);
      } else if pc.CheckLink? {
        Advance(from, before, w, r.dial);
      } else {
        LoopStore(from, w, r.dial, if pc.StoreReconnecting? then Reconnecting
                                   else if pc.StoreConnected? then Connected else Disconnected);
      }
    }

    method WorkOnPublish(ghost from: Service, w: nat, r: Round)
      requires w < |threads| && PublishPhase(threads[w].pc) && Takes(cfg, path, from, View())
      modifies this`telemetry, this`threads, this`path
      ensures Takes(cfg, path, from, View())
      ensures |threads| == |old(threads)| && threads == old(threads)[w := threads[w]]
      ensures threads[w].stop == old(threads)[w].stop
      ensures StepsLeft(Sleeping) <= StepsLeft(threads[w].pc) < StepsLeft(old(threads)[w].pc)
      ensures threads[w].pc.Sleeping? ==> threads[w].wakeAt == now + 5_000_000_000
    {
      var pc := threads[w].pc;
      if pc.Publish? {
        var _ := GenerateSample(from, w, r.check);
      } else if pc.PublishCheck? {
        var _ := AskOnline(from, w, r.check);
      } else if pc.PublishSend? {
        var _ := Send(from, w, r.send);
      } else {
        QueueSample(from, w, r.send);
      }
    }

    // `stop`, wherever the worker stands: the join waits for it to finish its iteration and see the request, with
    // the answers of `r` to the calls it still makes. That takes no longer than one sleep.
    method Stop(r: Round) returns (ok: bool)
      requires control == Idle && Core(cfg, View())
      modifies this
      ensures Takes(cfg, path, old(View()), View()) && Core(cfg, View()) && ok
      ensures !old(running) ==> View() == old(View())
      ensures old(running) ==> AtRest(View()) && !connected && old(now) <= now <= old(now) + TimeLeft(old(View()))
    {
      ghost var from := View();
      path := Run([], [from]);
      if running {
        StopFinds(cfg, from);
      }
      ok := StopWorker(from, r);
      StopLeaves(cfg, path, from, View());
    }

    method StopWorker(ghost from: Service, r: Round) returns (ok: bool)
      requires control == Idle && Takes(cfg, path, from, View())
      requires running ==> worker.Some? && worker.value < |threads|
      requires running ==> cfg.hasAuth && cfg.hasAuthBackend && cfg.hasTransport
      requires running ==> StepsLeft(threads[worker.value].pc) >= StepsLeft(LoopHead)
      modifies this
      ensures Takes(cfg, path, from, View()) && ok
      ensures !old(running) ==> View() == old(View())
      ensures old(running) ==> control == Idle && state == Stopped && worker == None && |threads| > 0 && !connected
      ensures old(running) ==>
                old(now) <= now <= old(now) + SleepLeft(old(threads)[old(worker).value], old(now))
    {
      ok := true;
      var wasRunning := EnterStop(from);
      if wasRunning {
        ShutDown(from, worker.value, r);
      }
    }

    // What is left of the worker's iteration.
    method FinishIteration(ghost from: Service, w: nat, r: Round)
      requires w < |threads| && StepsLeft(threads[w].pc) >= StepsLeft(LoopHead) && Takes(cfg, path, from, View())
      requires cfg.hasAuth && cfg.hasAuthBackend && cfg.hasTransport
      modifies this`state, this`tokens, this`connected, this`telemetry, this`now, this`threads, this`path, this`control
      ensures Takes(cfg, path, from, View()) && control == old(control)
      ensures At(w, LoopHead) && threads[w].stop == old(threads)[w].stop
      ensures old(now) <= now <= old(now) + SleepLeft(old(threads)[w], old(now))
    {
      while StepsLeft(threads[w].pc) > StepsLeft(LoopHead)
        invariant Takes(cfg, path, from, View()) && control == old(control)
        invariant w < |threads| && threads[w].stop == old(threads)[w].stop
        invariant StepsLeft(threads[w].pc) >= StepsLeft(LoopHead)
        invariant old(now) <= now && now + SleepLeft(threads[w], now) <= old(now) + SleepLeft(old(threads)[w], old(now))
        decreases StepsLeft(threads[w].pc)
      {
        WorkOn(from, w, r);
      }
    }

    method ShutDown(ghost from: Service, w: nat, r: Round)
      requires control == ControlPc.StopRequest && Takes(cfg, path, from, View())
      requires worker == Some(w) && w < |threads| && StepsLeft(threads[w].pc) >= StepsLeft(LoopHead)
      requires cfg.hasAuth && cfg.hasAuthBackend && cfg.hasTransport
      modifies this`state, this`tokens, this`connected, this`telemetry, this`now, this`worker, this`threads, this`path,
               this`control
      ensures Takes(cfg, path, from, View())
      ensures control == Idle && state == Stopped && worker == None && !connected && At(w, Exited)
      ensures old(now) <= now <= old(now) + SleepLeft(old(threads)[w], old(now))
    {
      RequestStop(from, w);
      FinishIteration(from, w, r);
      FinishAndJoin(from, w);
    }

    method FinishAndJoin(ghost from: Service, w: nat)
      requires control == StopJoin && worker == Some(w) && At(w, LoopHead) && threads[w].stop && cfg.hasTransport
      requires Takes(cfg, path, from, View())
      modifies this`state, this`connected, this`worker, this`threads, this`path, this`control
      ensures Takes(cfg, path, from, View())
      ensures control == Idle && state == Stopped && worker == None && !connected && At(w, Exited)
    {
      FinishLoop(from, w);
      JoinWorker(from);
      Store(from, Answer(true, AuthResponse("", 0)), Stopped);
    }

    // The first half of a `stop` that finds the service running.
    method AskToStop(ghost from: Service, w: nat)
      requires control == Idle && running && worker == Some(w) && w < |threads| && Takes(cfg, path, from, View())
      modifies this`running, this`threads, this`path, this`control
      ensures Takes(cfg, path, from, View()) && !running && control == StopJoin
      ensures threads == old(threads)[w := old(threads)[w].(stop := true)]
    {
      var _ := EnterStop(from);
      RequestStop(from, w);
    }

    method EnterStop(ghost from: Service) returns (wasRunning: bool)
      requires control == Idle && Takes(cfg, path, from, View())
      modifies this`running, this`path, this`control
      ensures Takes(cfg, path, from, View())
      ensures wasRunning == old(running) && !running
      ensures control == if wasRunning then ControlPc.StopRequest else Idle
    {
      var before := View();
      wasRunning := running;
      running := false;
      Mark(from, before, CallStop);
    }

    method RequestStop(ghost from: Service, w: nat)
      requires control == ControlPc.StopRequest && worker == Some(w) && w < |threads| && Takes(cfg, path, from, View())
      modifies this`threads, this`path, this`control
      ensures Takes(cfg, path, from, View())
      ensures threads == old(threads)[w := old(threads)[w].(stop := true)] && control == StopJoin
    {
      var before := View();
      threads := threads[w := threads[w].(stop := true)];
      Mark(from, before, Control(Answer(true, AuthResponse("", 0))));
    }

    // What is left of `runLoop` once the stop request is seen.
    method FinishLoop(ghost from: Service, w: nat)
      requires At(w, LoopHead) && threads[w].stop && cfg.hasTransport && Takes(cfg, path, from, View())
      modifies this`connected, this`threads, this`path
      ensures Takes(cfg, path, from, View())
      ensures At(w, Exited) && !connected
    {
      var a := Answer(true, AuthResponse("", 0));
      var before := View();
      Advance(from, before, w, a);
      before := View();
      connected := false;
      Advance(from, before, w, a);
    }

    method JoinWorker(ghost from: Service)
      requires control == StopJoin && worker.Some? && At(worker.value, Exited) && Takes(cfg, path, from, View())
      modifies this`worker, this`path, this`control
      ensures Takes(cfg, path, from, View())
      ensures worker == None && control == StopStore
    {
      var before := View();
      worker := None;
      Mark(from, before, Control(Answer(true, AuthResponse("", 0))));
    }
  }
}
