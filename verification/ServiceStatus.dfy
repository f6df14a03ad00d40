/** How far `state()` can be believed: what the late store of `start` may hide. */
module ServiceStatus {
  import opened Basics
  import opened AuthClients
  import opened ServiceModel
  import opened ServiceInvariant
  import opened ServiceRuns
  import opened Connectivity

  ghost predicate Failed(r: Run, m: nat, w: nat) {
    Acts(r, m, w, StoreTokenFail) || Acts(r, m, w, StoreLinkFail)
  }

  // Step `j` is the last store of `start`, made after it has spawned the worker.
  ghost predicate LateStore(r: Run, j: nat) {
    j < |r.labels| && j < |r.states| && r.labels[j].Control? && r.states[j].control == StartStorePublishing
  }

  lemma FailureIsStored(cfg: Config, r: Run, m: nat, w: nat)
    requires IsRun(cfg, r) && Failed(r, m, w)
    ensures r.states[m + 1].state == Disconnected
    ensures w < |r.states[m + 1].workers| && r.states[m + 1].workers[w].pc == Sleeping
  {
    StepAt(cfg, r, m);
  }

  // While worker `w` sleeps, nobody stores to the state but the late store.
  lemma OnlyTheLateStoreWrites(cfg: Config, s: Service, l: Label, w: nat)
    requires Lifecycle(s) && Enabled(cfg, s, l) && !StepOf(l, w)
    requires w < |s.workers| && s.workers[w].pc == Sleeping
    ensures var s' := Apply(cfg, s, l);
      s'.state == if l.Control? && s.control == StartStorePublishing then Publishing else s.state
  {
    match l
    case Work(v, a) => OnlyTheLastWorks(cfg, s, v, a);
    case Control(a) => ControlWritesLittle(cfg, s, a);
    case _ =>
  }

  lemma ControlWritesLittle(cfg: Config, s: Service, a: Answer)
    requires Lifecycle(s) && !AllExited(s)
    ensures ControlStep(cfg, s, a).state == if s.control == StartStorePublishing then Publishing else s.state
  {
  }

  lemma SleepGoesOn(cfg: Config, r: Run, k: nat, w: nat)
    requires IsRun(cfg, r) && k < |r.labels| && !StepOf(r.labels[k], w)
    requires w < |r.states[k].workers| && r.states[k].workers[w].pc == Sleeping
    ensures w < |r.states[k + 1].workers| && r.states[k + 1].workers[w].pc == Sleeping
    ensures r.states[k + 1].state == if LateStore(r, k) then Publishing else r.states[k].state
  {
    StayOrStep(cfg, r, k, w);
    StepAt(cfg, r, k);
    LifecycleAt(cfg, r, k);
    OnlyTheLateStoreWrites(cfg, r.states[k], r.labels[k], w);
  }

  // During the sleep after a failed refresh or reconnect `state()` says `Disconnected` if and only if the late
  // store of `start` has not come in between; if it has, it says `Publishing`.
  lemma {:induction false} FailureShowsIffNoLateStore(cfg: Config, r: Run, m: nat, k: nat, w: nat)
    requires IsRun(cfg, r) && Failed(r, m, w) && m < k <= |r.labels|
    requires forall j :: m < j < k ==> !StepOf(r.labels[j], w)
    ensures w < |r.states[k].workers| && r.states[k].workers[w].pc == Sleeping
    ensures r.states[k].state == Disconnected || r.states[k].state == Publishing
    ensures r.states[k].state == Disconnected <==> forall j: nat :: m < j < k ==> !LateStore(r, j)
  {
    if m + 1 == k {
      FailureIsStored(cfg, r, m, w);
    } else {
      FailureShowsIffNoLateStore(cfg, r, m, k - 1, w);
      SleepGoesOn(cfg, r, k - 1, w);
    }
  }

  // ----- What each store shows, and for how long -----

  predicate IsStore(pc: WorkerPc) {
    pc.StoreAuthenticating? || pc.StorePublishing? || pc.StoreTokenFail? || pc.StoreReconnecting? || pc.StoreConnected?
    || pc.StoreLinkFail?
  }

  // Worker `w` makes no further store in these steps.
  ghost predicate NoStore(r: Run, j: nat, k: nat, w: nat) {
    forall m: nat, pc :: j <= m < k && Acts(r, m, w, pc) ==> !IsStore(pc)
  }

  // The last store of `start` is one of these steps.
  ghost predicate LateBetween(r: Run, j: nat, k: nat) {
    j < k && (LateBetween(r, j, k - 1) || LateStore(r, k - 1))
  }

  // While a worker lives, only its own stores and the late store of `start` touch the state.
  lemma NobodyElseStores(cfg: Config, s: Service, l: Label, w: nat)
    requires Lifecycle(s) && Enabled(cfg, s, l) && w < |s.workers| && s.workers[w].pc != Exited
    requires l.Work? ==> !IsStore(s.workers[l.w].pc)
    ensures Apply(cfg, s, l).state == if l.Control? && s.control == StartStorePublishing then Publishing else s.state
  {
    match l
    case Control(a) => ControlWritesLittle(cfg, s, a);
    case _ =>
  }

  lemma StateStays(cfg: Config, r: Run, k: nat, w: nat)
    requires IsRun(cfg, r) && k < |r.labels| && NoStore(r, k, k + 1, w)
    requires w < |r.states[k].workers| && r.states[k].workers[w].pc != Exited
    ensures r.states[k + 1].state == if LateStore(r, k) then Publishing else r.states[k].state
  {
    StepAt(cfg, r, k);
    LifecycleAt(cfg, r, k);
    if r.labels[k].Work? {
      OnlyTheLastWorks(cfg, r.states[k], r.labels[k].w, r.labels[k].a);
      assert Acts(r, k, w, r.states[k].workers[w].pc);
    }
    NobodyElseStores(cfg, r.states[k], r.labels[k], w);
  }

  lemma LivesOn(cfg: Config, r: Run, k: nat, w: nat)
    requires IsRun(cfg, r) && k < |r.labels| && w < |r.states[k].workers|
    requires w < |r.states[k + 1].workers| ==> r.states[k + 1].workers[w].pc != Exited
    ensures r.states[k].workers[w].pc != Exited
  {
    StayOrStep(cfg, r, k, w);
  }

  lemma {:induction false} StateSince(cfg: Config, r: Run, j: nat, k: nat, w: nat)
    requires IsRun(cfg, r) && j <= k <= |r.labels| && w < |r.states[j].workers| && NoStore(r, j, k, w)
    requires w < |r.states[k].workers| ==> r.states[k].workers[w].pc != Exited
    ensures w < |r.states[k].workers|
    ensures r.states[k].state == if LateBetween(r, j, k) then Publishing else r.states[j].state
    decreases k
  {
    if j < k {
      NoStoreParts(r, j, k, w);
      WorkersStay(cfg, r, j, k - 1, w);
      StateLast(cfg, r, k, w);
      StateSince(cfg, r, j, k - 1, w);
    }
  }

  lemma NoStoreParts(r: Run, j: nat, k: nat, w: nat)
    requires j < k && NoStore(r, j, k, w)
    ensures NoStore(r, j, k - 1, w) && NoStore(r, k - 1, k, w)
  {
  }

  // One step of it.
  lemma StateLast(cfg: Config, r: Run, k: nat, w: nat)
    requires IsRun(cfg, r) && 0 < k <= |r.labels| && w < |r.states[k - 1].workers| && NoStore(r, k - 1, k, w)
    requires w < |r.states[k].workers| ==> r.states[k].workers[w].pc != Exited
    ensures r.states[k - 1].workers[w].pc != Exited && w < |r.states[k].workers|
    ensures r.states[k].state == if LateStore(r, k - 1) then Publishing else r.states[k - 1].state
  {
    LivesOn(cfg, r, k - 1, w);
    StateStays(cfg, r, k - 1, w);
    StayOrStep(cfg, r, k - 1, w);
  }

  lemma {:induction false} WorkersStay(cfg: Config, r: Run, j: nat, k: nat, w: nat)
    requires IsRun(cfg, r) && j <= k <= |r.labels| && w < |r.states[j].workers|
    ensures w < |r.states[k].workers|
    decreases k
  {
    if j < k {
      WorkersStay(cfg, r, j, k - 1, w);
      StayOrStep(cfg, r, k - 1, w);
    }
  }

  // From a store of the loop to its next one `state()` tells what was stored: `Authenticating` before a refresh,
  // `Publishing` after it, `Reconnecting` before a reconnect, `Connected` after it, and `Disconnected` after either
  // failed; unless the last store of `start` has come in between, and then it says `Publishing`.
  lemma LoopShowsWhereItIs(cfg: Config, r: Run, m: nat, k: nat, w: nat, pc: WorkerPc)
    requires IsRun(cfg, r) && Acts(r, m, w, pc) && IsStore(pc) && m < k <= |r.labels| && NoStore(r, m + 1, k, w)
    requires w < |r.states[k].workers| ==> r.states[k].workers[w].pc != Exited
    ensures LateBetween(r, m + 1, k) ==> r.states[k].state == Publishing
    ensures !LateBetween(r, m + 1, k) ==>
      r.states[k].state ==
        match pc
        case StoreAuthenticating => Authenticating
        case StorePublishing => Publishing
        case StoreReconnecting => Reconnecting
        case StoreConnected => Connected
        case _ => Disconnected
  {
    WorkersStay(cfg, r, m, m + 1, w);
    StoreShows(cfg, r, m, w, pc);
    StateSince(cfg, r, m + 1, k, w);
  }

  lemma StoreShows(cfg: Config, r: Run, m: nat, w: nat, pc: WorkerPc)
    requires IsRun(cfg, r) && Acts(r, m, w, pc) && IsStore(pc)
    ensures
      r.states[m + 1].state ==
        match pc
        case StoreAuthenticating => Authenticating
        case StorePublishing => Publishing
        case StoreReconnecting => Reconnecting
        case StoreConnected => Connected
        case _ => Disconnected
  {
    StepAt(cfg, r, m);
  }

  // And during `start` it tells how far that has come: `Starting` until the vehicle is authenticated,
  // `Authenticating` until the transport is connected, then `Connected`; `Disconnected` if it gives up.
  lemma {:induction false} StartShowsWhereItIs(cfg: Config, r: Run, k: nat)
    requires IsRun(cfg, r) && k <= |r.labels|
    ensures StartShown(r.states[k])
    ensures var s := r.states[k];
      match s.control
      case StartAuthenticate | StartStoreAuthenticating => s.state == Starting
      case StartConnect | StartStoreConnected => s.state == Authenticating
      case StartSpawn => s.state == Connected
      case StartFailClear => s.state == Disconnected
      case _ => true
  {
    if k > 0 {
      StartShowsWhereItIs(cfg, r, k - 1);
      StepAt(cfg, r, k - 1);
      LifecycleAt(cfg, r, k - 1);
      StepKeepsStartShown(cfg, r.states[k - 1], r.labels[k - 1]);
    }
  }

  predicate StartShown(s: Service) {
    match s.control
    case StartAuthenticate | StartStoreAuthenticating => s.state == Starting
    case StartConnect | StartStoreConnected => s.state == Authenticating
    case StartSpawn => s.state == Connected
    case StartFailClear => s.state == Disconnected
    case _ => true
  }

  lemma StepKeepsStartShown(cfg: Config, s: Service, l: Label)
    requires Lifecycle(s) && Enabled(cfg, s, l) && StartShown(s)
    ensures StartShown(Apply(cfg, s, l))
  {
    match l
    case Work(w, a) => WorkFrames(cfg, s, w, a);
    case Control(a) => ControlKeepsStartShown(cfg, s, a);
    case _ =>
  }

  lemma ControlKeepsStartShown(cfg: Config, s: Service, a: Answer)
    requires StartShown(s)
    ensures StartShown(ControlStep(cfg, s, a))
  {
  }

  // ----- And it can happen -----

  const OK: Answer := Answer(true, AuthResponse("token", 0))
  const NO: Answer := Answer(false, AuthResponse("", 0))

  lemma Grow(cfg: Config, r: Run, from: Service, l: Label) returns (q: Run)
    requires IsPath(cfg, r) && r.states[0] == from && Enabled(cfg, End(r), l)
    ensures q == Then(cfg, r, l) && Takes(cfg, q, from, Apply(cfg, End(r), l))
  {
    ThenTakes(cfg, r, from, l);
    q := Then(cfg, r, l);
  }

  // `start` as far as its authentication and its connect: both succeed, with a token that expires at once.
  lemma StartGetsThrough(cfg: Config, s: Service) returns (r: Run)
    requires Initial(s) && cfg.hasAuth && cfg.hasAuthBackend && cfg.hasTransport
    ensures Takes(cfg, r, s, s.(state := Authenticating, running := true, control := StartStoreConnected,
                                tokens := TokenState("token", s.now), connected := true))
    ensures forall m :: 0 <= m < |r.labels| ==> r.labels[m].CallStart? || r.labels[m].Control?
  {
    r := Run([], [s]);
    r := Grow(cfg, r, s, CallStart);
    r := Grow(cfg, r, s, Control(OK));
    r := Grow(cfg, r, s, Control(OK));
    assert End(r) == s.(state := Starting, running := true, control := StartStoreAuthenticating,
                        tokens := TokenState("token", s.now));
    r := Grow(cfg, r, s, Control(OK));
    r := Grow(cfg, r, s, Control(OK));
  }

  // It spawns the worker, which runs at once and is refused a new token.
  lemma WorkerFailsAtOnce(cfg: Config, from: Service, s: Service, path: Run) returns (r: Run)
    requires cfg.hasAuth && cfg.hasAuthBackend && s.control == StartStoreConnected && s.workers == []
    requires s.tokens == TokenState("token", s.now) && Takes(cfg, path, from, s)
    ensures PathFrom(cfg, r, from) && End(r).control == StartAssign && End(r).handle == s.handle
    ensures |End(r).workers| == 1 && End(r).workers[0].pc == StoreTokenFail && End(r).tokens.token == ""
  {
    r := Grow(cfg, path, from, Control(OK));
    r := Grow(cfg, r, from, Control(OK));
    assert End(r).workers == [Worker(LoopHead, false, s.now)] && End(r).tokens == s.tokens && End(r).now == s.now;
    r := Grow(cfg, r, from, Work(0, NO));
    assert End(r).workers[0].pc == ReadValid && End(r).tokens == s.tokens && End(r).now == s.now;
    r := Grow(cfg, r, from, Work(0, NO));
    r := RefreshRefused(cfg, from, r);
  }

  lemma RefreshRefused(cfg: Config, from: Service, path: Run) returns (r: Run)
    requires PathFrom(cfg, path, from) && cfg.hasAuthBackend
    requires |End(path).workers| == 1 && End(path).workers[0].pc == StoreAuthenticating
    ensures PathFrom(cfg, r, from)
    ensures End(r).control == End(path).control && End(r).handle == End(path).handle
    ensures |End(r).workers| == 1 && End(r).workers[0].pc == StoreTokenFail && End(r).tokens.token == ""
  {
    r := Grow(cfg, path, from, Work(0, NO));
    r := Grow(cfg, r, from, Work(0, NO));
  }

  // So `state()` can say `Publishing` while there is no token at all and the worker is waiting to try again.
  lemma LateStoreCanHideFailure(cfg: Config, s: Service) returns (r: Run)
    requires Initial(s) && cfg.hasAuth && cfg.hasAuthBackend && cfg.hasTransport
    ensures IsRun(cfg, r) && r.states[0] == s
    ensures var end := End(r);
      && end.state == Publishing && end.control == Idle && end.tokens.token == ""
      && |end.workers| == 1 && end.workers[0].pc == Sleeping
  {
    r := StartGetsThrough(cfg, s);
    r := WorkerFailsAtOnce(cfg, s, End(r), r);
    r := Grow(cfg, r, s, Work(0, NO));
    r := LateStoreFollows(cfg, s, r);
  }

  lemma LateStoreFollows(cfg: Config, from: Service, path: Run) returns (r: Run)
    requires PathFrom(cfg, path, from) && End(path).control == StartAssign && End(path).handle == None
    requires |End(path).workers| == 1 && End(path).workers[0].pc == Sleeping
    ensures PathFrom(cfg, r, from)
    ensures End(r) == End(path).(handle := End(r).handle, state := Publishing, control := Idle)
  {
    r := Grow(cfg, path, from, Control(OK));
    r := Grow(cfg, r, from, Control(OK));
  }
}
