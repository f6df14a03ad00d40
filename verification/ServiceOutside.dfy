/** What others who use the same transport or client can bring about: a publish in state `Disconnected`. */
module ServiceOutside {
  import opened Basics
  import opened AuthClients
  import opened ServiceModel
  import opened ServiceInvariant
  import opened ServiceGate
  import opened ServiceStatus
  import opened ServiceLink
  import opened Connectivity

  // Answers to the worker's calls: a token for 100 seconds, or none; and connects that fail.
  const GRANTED: Answer := Answer(false, AuthResponse("token", 100))

  // The only worker stands at `pc`, between two calls of the controller.
  predicate Here(s: Service, pc: WorkerPc, connected: bool) {
    s.control == Idle && |s.workers| == 1 && s.workers[0].pc == pc && !s.workers[0].stop && s.connected == connected
  }

  // Whom the run shows at work: nobody else connects the transport, or nobody else authenticates.
  ghost predicate Without(r: Run, outsider: bool) {
    forall m :: 0 <= m < |r.labels| ==>
      if outsider then !r.labels[m].ConnectOutside? else !r.labels[m].AuthenticateOutside?
  }

  // A run so far: it goes on from `from` and has its worker at `pc`.
  ghost predicate GotTo(cfg: Config, r: Run, from: Service, pc: WorkerPc, connected: bool, outsider: bool) {
    PathFrom(cfg, r, from) && Here(End(r), pc, connected) && Without(r, outsider)
  }

  lemma Goes(cfg: Config, r: Run, from: Service, pc: WorkerPc, connected: bool, outsider: bool, a: Answer)
    returns (q: Run)
    requires GotTo(cfg, r, from, pc, connected, outsider) && pc != Exited && pc != FinalDisconnect
    requires pc == Sleeping ==> End(r).workers[0].wakeAt <= End(r).now
    ensures PathFrom(cfg, q, from) && Without(q, outsider)
    ensures |q.labels| > 0 && Acts(q, |q.labels| - 1, 0, pc) && q.states[|q.labels| - 1] == End(r)
    ensures var s, e := End(r), End(q);
            var f := Effect(cfg, s, pc, a);
      && Here(e, NextPc(cfg, s, s.workers[0], a), f.connected)
      && e.state == f.state && e.tokens == f.tokens && e.now == s.now
      && (e.workers[0].pc == Sleeping ==> e.workers[0].wakeAt == s.now + Pause(pc))
  {
    EffectFrame(cfg, End(r), pc, a);
    q := Grow(cfg, r, from, Work(0, a));
  }

  lemma Starts(cfg: Config, s: Service, outsider: bool) returns (r: Run)
    requires Initial(s) && Full(cfg)
    ensures GotTo(cfg, r, s, LoopHead, true, outsider) && End(r).tokens == TokenState("token", End(r).now)
  {
    r := StartsUp(cfg, s);
  }

  // The worker finds its token expired and asks for another.
  lemma AsksForToken(cfg: Config, path: Run, from: Service, connected: bool, outsider: bool) returns (r: Run)
    requires Full(cfg) && GotTo(cfg, path, from, LoopHead, connected, outsider)
    requires !Valid(End(path).tokens, End(path).now)
    ensures GotTo(cfg, r, from, Refresh, connected, outsider) && End(r).now == End(path).now
  {
    r := Goes(cfg, path, from, LoopHead, connected, outsider, GRANTED);
    r := Goes(cfg, r, from, ReadValid, connected, outsider, GRANTED);
    r := Goes(cfg, r, from, StoreAuthenticating, connected, outsider, GRANTED);
  }

  // It gets one, but the link is down and stays down.
  lemma GetsTokenButNoLink(cfg: Config, path: Run, from: Service) returns (r: Run)
    requires Full(cfg) && GotTo(cfg, path, from, Refresh, false, false)
    ensures GotTo(cfg, r, from, ReconnectDisconnect, false, false)
    ensures End(r).now == End(path).now && End(r).tokens == TokenState("token", End(r).now + 100 * SECOND)
  {
    r := GetsToken(cfg, path, from);
    r := Goes(cfg, r, from, CheckLink, false, false, GRANTED);
    r := Goes(cfg, r, from, StoreReconnecting, false, false, GRANTED);
  }

  lemma GetsToken(cfg: Config, path: Run, from: Service) returns (r: Run)
    requires Full(cfg) && GotTo(cfg, path, from, Refresh, false, false)
    ensures GotTo(cfg, r, from, CheckLink, false, false)
    ensures End(r).now == End(path).now && End(r).tokens == TokenState("token", End(r).now + 100 * SECOND)
  {
    r := Goes(cfg, path, from, Refresh, false, false, GRANTED);
    r := ReadsToken(cfg, r, from);
  }

  lemma ReadsToken(cfg: Config, path: Run, from: Service) returns (r: Run)
    requires Full(cfg) && GotTo(cfg, path, from, ReadFresh, false, false) && End(path).tokens.token != ""
    ensures GotTo(cfg, r, from, CheckLink, false, false)
    ensures End(r).now == End(path).now && End(r).tokens == End(path).tokens
  {
    r := Goes(cfg, path, from, ReadFresh, false, false, GRANTED);
    r := Goes(cfg, r, from, StorePublishing, false, false, GRANTED);
  }

  lemma FailsToReconnect(cfg: Config, path: Run, from: Service) returns (r: Run)
    requires Full(cfg) && GotTo(cfg, path, from, ReconnectDisconnect, false, false)
    ensures GotTo(cfg, r, from, Sleeping, false, false) && End(r).state == Disconnected
    ensures End(r).now == End(path).now && End(r).tokens == End(path).tokens
    ensures End(r).workers[0].wakeAt == End(r).now + RECONNECT_DELAY
  {
    r := AttemptFails(cfg, path, from);
    r := Goes(cfg, r, from, StoreLinkFail, false, false, GRANTED);
  }

  lemma AttemptFails(cfg: Config, path: Run, from: Service) returns (r: Run)
    requires Full(cfg) && GotTo(cfg, path, from, ReconnectDisconnect, false, false)
    ensures GotTo(cfg, r, from, StoreLinkFail, false, false)
    ensures End(r).now == End(path).now && End(r).tokens == End(path).tokens
  {
    r := Goes(cfg, path, from, ReconnectDisconnect, false, false, GRANTED);
    if cfg.kind.Someip? {
      r := Goes(cfg, r, from, ReconnectConnect, false, false, GRANTED);
    }
  }

  lemma FailsToRefresh(cfg: Config, path: Run, from: Service) returns (r: Run)
    requires Full(cfg) && GotTo(cfg, path, from, Refresh, true, true)
    ensures GotTo(cfg, r, from, Sleeping, true, true) && End(r).state == Disconnected
    ensures End(r).workers[0].wakeAt == End(r).now + RECONNECT_DELAY
  {
    r := Goes(cfg, path, from, Refresh, true, true, NO);
    r := Goes(cfg, r, from, StoreTokenFail, true, true, NO);
  }

  // Its sleep over, the worker finds everything in order and publishes.
  lemma PublishesAsItIs(cfg: Config, path: Run, from: Service, outsider: bool) returns (r: Run, k: nat)
    requires Full(cfg) && GotTo(cfg, path, from, Sleeping, true, outsider) && End(path).state == Disconnected
    requires End(path).workers[0].wakeAt == End(path).now + RECONNECT_DELAY
    requires Valid(End(path).tokens, End(path).now + RECONNECT_DELAY)
    ensures PathFrom(cfg, r, from) && Without(r, outsider)
    ensures Acts(r, k, 0, Publish) && r.states[k].state == Disconnected
  {
    r := WakesUp(cfg, path, from, outsider);
    r := ChecksAndPublishes(cfg, r, from, outsider);
    k := |r.labels| - 1;
  }

  lemma WakesUp(cfg: Config, path: Run, from: Service, outsider: bool) returns (r: Run)
    requires Full(cfg) && GotTo(cfg, path, from, Sleeping, true, outsider) && End(path).state == Disconnected
    requires End(path).workers[0].wakeAt == End(path).now + RECONNECT_DELAY
    ensures GotTo(cfg, r, from, ReadValid, true, outsider) && End(r).state == Disconnected
    ensures End(r).tokens == End(path).tokens && End(r).now == End(path).now + RECONNECT_DELAY
  {
    r := Grow(cfg, path, from, Tick(RECONNECT_DELAY));
    r := Goes(cfg, r, from, Sleeping, true, outsider, GRANTED);
    r := Goes(cfg, r, from, LoopHead, true, outsider, GRANTED);
  }

  lemma ChecksAndPublishes(cfg: Config, path: Run, from: Service, outsider: bool) returns (r: Run)
    requires Full(cfg) && GotTo(cfg, path, from, ReadValid, true, outsider) && End(path).state == Disconnected
    requires Valid(End(path).tokens, End(path).now)
    ensures PathFrom(cfg, r, from) && Without(r, outsider) && |r.labels| > 0
    ensures Acts(r, |r.labels| - 1, 0, Publish) && r.states[|r.labels| - 1].state == Disconnected
  {
    r := KeepsToken(cfg, path, from, outsider);
    r := Goes(cfg, r, from, CheckLink, true, outsider, GRANTED);
    r := Goes(cfg, r, from, Publish, true, outsider, GRANTED);
  }

  lemma KeepsToken(cfg: Config, path: Run, from: Service, outsider: bool) returns (r: Run)
    requires Full(cfg) && GotTo(cfg, path, from, ReadValid, true, outsider) && End(path).state == Disconnected
    requires Valid(End(path).tokens, End(path).now)
    ensures GotTo(cfg, r, from, CheckLink, true, outsider) && End(r).state == Disconnected
  {
    r := Goes(cfg, path, from, ReadValid, true, outsider, GRANTED);
    r := Goes(cfg, r, from, ReadEmpty, true, outsider, GRANTED);
  }

  // Somebody connects the transport while the loop waits to try again: it publishes in state `Disconnected`.
  lemma PublishesDisconnectedAfterOutsideConnect(cfg: Config, s: Service) returns (r: Run, k: nat)
    requires Initial(s) && Full(cfg)
    ensures IsRun(cfg, r) && r.states[0] == s
    ensures Acts(r, k, 0, Publish) && r.states[k].state == Disconnected && LinkHelped(r, k) && !TokenHelped(r, k)
  {
    r := Starts(cfg, s, false);
    r := Grow(cfg, r, s, DropLink);
    r := AsksForToken(cfg, r, s, false, false);
    r := GetsTokenButNoLink(cfg, r, s);
    r := FailsToReconnect(cfg, r, s);
    r := Grow(cfg, r, s, ConnectOutside);
    r, k := PublishesAsItIs(cfg, r, s, false);
    PublishGate(cfg, r, k, 0, Publish);
  }

  // And so it does if somebody authenticates the vehicle meanwhile.
  lemma PublishesDisconnectedAfterOutsideLogin(cfg: Config, s: Service) returns (r: Run, k: nat)
    requires Initial(s) && Full(cfg)
    ensures IsRun(cfg, r) && r.states[0] == s
    ensures Acts(r, k, 0, Publish) && r.states[k].state == Disconnected && TokenHelped(r, k) && !LinkHelped(r, k)
  {
    r := Starts(cfg, s, true);
    r := AsksForToken(cfg, r, s, true, true);
    r := FailsToRefresh(cfg, r, s);
    r := Grow(cfg, r, s, AuthenticateOutside(AuthResponse("token", 100)));
    r, k := PublishesAsItIs(cfg, r, s, true);
    PublishGate(cfg, r, k, 0, Publish);
  }
}
