/** What every step of the service keeps, whatever the interleaving. */
module ServiceInvariant {
  import opened ServiceModel

  predicate AllExited(s: Service) {
    forall i :: 0 <= i < |s.workers| ==> s.workers[i].pc == Exited
  }

  predicate AtMostOneAlive(s: Service) {
    forall i :: 0 <= i < |s.workers| - 1 ==> s.workers[i].pc == Exited
  }

  predicate LastRunsOn(s: Service) {
    |s.workers| > 0 && !s.workers[|s.workers| - 1].stop
  }

  predicate HandleInStep(s: Service) {
    match s.control
    case Idle => s.running == s.handle.Some? && (s.handle.Some? ==> LastRunsOn(s)) && (s.handle.None? ==> AllExited(s))
    case StartStoreStarting | StartAuthenticate | StartStoreAuthenticating | StartConnect | StartStoreConnected
       | StartSpawn | StartFailStore | StartFailClear => s.running && s.handle.None? && AllExited(s)
    case StartAssign => s.running && s.handle.None? && LastRunsOn(s)
    case StartStorePublishing => s.running && s.handle.Some? && LastRunsOn(s)
    case StopRequest => !s.running && s.handle.Some? && LastRunsOn(s)
    case StopJoin => !s.running && s.handle.Some? && |s.workers| > 0 && s.workers[|s.workers| - 1].stop
    case StopStore => !s.running && s.handle.None? && |s.workers| > 0 && AllExited(s)
    case StartAssignJoin | Crashed => false
  }

  predicate Lifecycle(s: Service) {
    && AtMostOneAlive(s)
    && (s.handle.Some? ==> |s.workers| > 0 && s.handle.value == |s.workers| - 1)
    && (forall i :: 0 <= i < |s.workers| && (s.workers[i].pc == FinalDisconnect || s.workers[i].pc == Exited) ==>
          s.workers[i].stop)
    && HandleInStep(s)
  }

  // A worker, or a `start` that got past the call, exists only when the pointer that call needs is set.
  predicate Wired(cfg: Config, s: Service) {
    && (PastAuthenticate(s) ==> cfg.hasAuth && cfg.hasAuthBackend)
    && (PastConnect(s) ==> cfg.hasTransport)
  }

  predicate PastAuthenticate(s: Service) {
    PastConnect(s) || s.control == StartStoreAuthenticating || s.control == StartConnect
  }

  predicate PastConnect(s: Service) {
    |s.workers| > 0 || s.control == StartStoreConnected || s.control == StartSpawn || s.control == StartAssign
  }

  // The worker has generated a sample and not yet delivered or queued it.
  predicate Holding(pc: WorkerPc) {
    pc.PublishCheck? || pc.PublishSend? || pc.PublishQueue?
  }

  // What a worker step does to the books.
  predicate BooksMove(before: Telemetry, hand: bool, after: Telemetry, hand': bool) {
    if hand == hand' then before == after
    else if hand' then after == Generate(before)
    else after == Deliver(before) || after == Enqueue(before)
  }

  // What a worker step can touch: its own position, and never the controller's side.
  predicate WorkFrame(s: Service, w: nat, s': Service) {
    && w < |s.workers| == |s'.workers|
    && s'.workers == s.workers[w := s'.workers[w]]
    && s'.workers[w].stop == s.workers[w].stop
    && s'.running == s.running && s'.control == s.control && s'.handle == s.handle && s'.now == s.now
    && (s'.workers[w].pc == Exited <==> s.workers[w].pc == FinalDisconnect)
    && (s'.workers[w].pc == FinalDisconnect ==> s.workers[w].pc == LoopHead && s.workers[w].stop)
    && BooksMove(s.telemetry, Holding(s.workers[w].pc), s'.telemetry, Holding(s'.workers[w].pc))
  }

  lemma EffectFrame(cfg: Config, s: Service, pc: WorkerPc, a: Answer)
    ensures var s' := Effect(cfg, s, pc, a);
      && s'.workers == s.workers && s'.running == s.running && s'.control == s.control && s'.handle == s.handle
      && s'.now == s.now
  {
  }

  lemma EffectMovesBooks(cfg: Config, s: Service, me: Worker, a: Answer)
    ensures BooksMove(s.telemetry, Holding(me.pc), Effect(cfg, s, me.pc, a).telemetry, Holding(NextPc(cfg, s, me, a)))
  {
  }

  lemma WorkFrames(cfg: Config, s: Service, w: nat, a: Answer)
    requires w < |s.workers| && s.workers[w].pc != Exited
    ensures WorkFrame(s, w, WorkStep(cfg, s, w, a))
  {
    EffectFrame(cfg, s, s.workers[w].pc, a);
    EffectMovesBooks(cfg, s, s.workers[w], a);
  }

  lemma FrameKeepsLifecycle(s: Service, w: nat, s': Service)
    requires Lifecycle(s) && WorkFrame(s, w, s') && s.workers[w].pc != Exited
    ensures Lifecycle(s')
    ensures w == |s.workers| - 1
  {
  }

  // The controller steps that spawn, hand over, stop or join a thread.
  predicate TouchesWorkers(s: Service) {
    s.control in {StartSpawn, StartAssign, StartAssignJoin, StopRequest, StopJoin}
  }

  // Where the other controller steps lead, with the thread bookkeeping unchanged.
  predicate StoreFrame(s: Service, s': Service) {
    && s'.workers == s.workers && s'.handle == s.handle
    && match s.control
       case StopStore => s'.control.Idle? && s'.running == s.running
       case StartStorePublishing => s'.control.Idle? && s'.running == s.running
       case StartFailStore => s'.control.StartFailClear? && s'.running == s.running && s'.state == Disconnected
       case StartStoreConnected => s'.control.StartSpawn? && s'.running == s.running && s'.state == Connected
       case StartFailClear => s'.control.Idle? && !s'.running
       case _ =>
         && (s'.control.StartAuthenticate? || s'.control.StartStoreAuthenticating? || s'.control.StartConnect?
             || s'.control.StartStoreConnected? || s'.control.StartFailStore?)
         && s'.running == s.running
  }

  lemma StoresFrame(cfg: Config, s: Service, a: Answer)
    requires !s.control.Idle? && !s.control.Crashed? && !TouchesWorkers(s)
    ensures StoreFrame(s, ControlStep(cfg, s, a))
  {
  }

  lemma StoresKeepLifecycle(cfg: Config, s: Service, a: Answer)
    requires Lifecycle(s) && Enabled(cfg, s, Control(a)) && !TouchesWorkers(s)
    ensures Lifecycle(ControlStep(cfg, s, a))
  {
    StoresFrame(cfg, s, a);
  }

  lemma SpawnKeepsLifecycle(cfg: Config, s: Service, a: Answer)
    requires Lifecycle(s) && s.control == StartSpawn
    ensures Lifecycle(ControlStep(cfg, s, a))
  {
    var s' := ControlStep(cfg, s, a);
    assert AtMostOneAlive(s') by {
      assert AllExited(s);
    }
  }

  lemma HandOverKeepsLifecycle(cfg: Config, s: Service, a: Answer)
    requires Lifecycle(s) && Enabled(cfg, s, Control(a)) && TouchesWorkers(s) && s.control != StartSpawn
    ensures Lifecycle(ControlStep(cfg, s, a))
  {
    if s.control == StopRequest {
      StopRequestKeepsLifecycle(cfg, s, a);
    } else if s.control == StopJoin {
      JoinKeepsLifecycle(cfg, s, a);
    } else {
      AssignKeepsLifecycle(cfg, s, a);
    }
  }

  lemma JoinKeepsLifecycle(cfg: Config, s: Service, a: Answer)
    requires Lifecycle(s) && Enabled(cfg, s, Control(a)) && s.control == StopJoin
    ensures Lifecycle(ControlStep(cfg, s, a))
  {
    assert s.workers[|s.workers| - 1].pc == Exited;
  }

  lemma AssignKeepsLifecycle(cfg: Config, s: Service, a: Answer)
    requires Lifecycle(s) && s.control in {StartAssign, StartAssignJoin}
    ensures Lifecycle(ControlStep(cfg, s, a))
  {
  }

  lemma StopRequestKeepsLifecycle(cfg: Config, s: Service, a: Answer)
    requires Lifecycle(s) && s.control == StopRequest
    ensures Lifecycle(ControlStep(cfg, s, a))
  {
  }

  lemma OnlyTheLastWorks(cfg: Config, s: Service, w: nat, a: Answer)
    requires Lifecycle(s) && Enabled(cfg, s, Work(w, a))
    ensures w == |s.workers| - 1
  {
  }

  lemma ControlKeepsLifecycle(cfg: Config, s: Service, a: Answer)
    requires Lifecycle(s) && Enabled(cfg, s, Control(a))
    ensures Lifecycle(ControlStep(cfg, s, a))
  {
    if !TouchesWorkers(s) {
      StoresKeepLifecycle(cfg, s, a);
    } else if s.control == StartSpawn {
      SpawnKeepsLifecycle(cfg, s, a);
    } else {
      HandOverKeepsLifecycle(cfg, s, a);
    }
  }

  lemma StepKeepsLifecycle(cfg: Config, s: Service, l: Label)
    requires Lifecycle(s) && Enabled(cfg, s, l)
    ensures Lifecycle(Apply(cfg, s, l))
  {
    match l
    case Control(a) => ControlKeepsLifecycle(cfg, s, a);
    case Work(w, a) =>
      WorkFrames(cfg, s, w, a);
      FrameKeepsLifecycle(s, w, WorkStep(cfg, s, w, a));
    case _ =>
  }

  lemma StepKeepsWired(cfg: Config, s: Service, l: Label)
    requires Lifecycle(s) && Wired(cfg, s) && Enabled(cfg, s, l)
    ensures Wired(cfg, Apply(cfg, s, l))
  {
  }

  // ----- Help from outside -----

  // What somebody else has done that the loop has not superseded since: connected the transport, with no disconnect or
  // reconnect by the loop after it; and authenticated, with no refresh by the loop after it.
  datatype Help = Help(link: bool, token: bool)

  predicate Relinks(s: Service, l: Label) {
    WorksAt(s, l, ReconnectDisconnect) || WorksAt(s, l, ReconnectConnect) || WorksAt(s, l, FinalDisconnect)
  }

  function HelpAfter(s: Service, l: Label, h: Help): Help {
    Help(l.ConnectOutside? || (h.link && !Relinks(s, l)),
         l.AuthenticateOutside? || (h.token && !WorksAt(s, l, Refresh)))
  }

  ghost function HelpAt(r: Run, k: nat): Help
    requires k <= |r.labels| && k <= |r.states|
  {
    if k == 0 then Help(false, false) else HelpAfter(r.states[k - 1], r.labels[k - 1], HelpAt(r, k - 1))
  }

  // ----- The transport is down whenever no worker runs and no `start` has just connected it -----

  // Or somebody else has connected it: `helped`.
  predicate DownBetweenWorkers(s: Service, helped: bool) {
    |s.workers| > 0 && AllExited(s) && !s.control.StartStoreConnected? && !s.control.StartSpawn? && s.connected
    ==> helped
  }

  lemma WorkKeepsDown(cfg: Config, s: Service, w: nat, a: Answer)
    requires Lifecycle(s) && Wired(cfg, s) && Enabled(cfg, s, Work(w, a))
    ensures DownBetweenWorkers(WorkStep(cfg, s, w, a), false)
  {
    var s' := WorkStep(cfg, s, w, a);
    WorkFrames(cfg, s, w, a);
    if s'.workers[w].pc == Exited {
      assert s.workers[w].pc == FinalDisconnect;
    }
  }

  lemma ControlKeepsDown(cfg: Config, s: Service, a: Answer)
    requires Lifecycle(s) && Enabled(cfg, s, Control(a))
    ensures DownBetweenWorkers(ControlStep(cfg, s, a), s.connected)
  {
    if !TouchesWorkers(s) {
      StoresFrame(cfg, s, a);
    }
  }

  // The controller leaves a dead worker dead, and a live one alive.
  lemma ControlKeepsExited(cfg: Config, s: Service, a: Answer)
    requires Lifecycle(s) && Enabled(cfg, s, Control(a)) && s.control != StartSpawn
    ensures var s' := ControlStep(cfg, s, a); |s'.workers| == |s.workers| && (AllExited(s') ==> AllExited(s))
  {
    var s' := ControlStep(cfg, s, a);
    if !TouchesWorkers(s) {
      StoresFrame(cfg, s, a);
    } else if |s.workers| > 0 {
      assert s'.workers[|s.workers| - 1].pc == s.workers[|s.workers| - 1].pc;
    }
  }

  lemma StepKeepsDown(cfg: Config, s: Service, l: Label, helped: bool)
    requires Lifecycle(s) && Wired(cfg, s) && DownBetweenWorkers(s, helped) && Enabled(cfg, s, l)
    ensures DownBetweenWorkers(Apply(cfg, s, l), l.ConnectOutside? || (helped && !Relinks(s, l)))
  {
    match l
    case Work(w, a) => WorkKeepsDown(cfg, s, w, a);
    case Control(a) =>
      ControlKeepsDown(cfg, s, a);
      if s.control == StartSpawn {
        assert ControlStep(cfg, s, a).workers[|s.workers|].pc == LoopHead;
      } else {
        ControlKeepsExited(cfg, s, a);
      }
    case _ => assert AllExited(Apply(cfg, s, l)) ==> AllExited(s);
  }

  // ----- Why a loop publish never happens in a bad state -----

  predicate Trusted(state: ServiceState) {
    state == Connected || state == Publishing
  }

  // A `Disconnected` left behind by a failed attempt is explained by an empty token or a dead link, unless somebody
  // else has mended that.
  predicate Explained(s: Service, h: Help) {
    Trusted(s.state) || (s.state == Disconnected && (s.tokens.token == "" || !s.connected || h.link || h.token))
  }

  predicate StateFits(s: Service, pc: WorkerPc, h: Help) {
    match pc
    case LoopHead | ReadValid | ReadEmpty | Sleeping => Explained(s, h)
    case StoreTokenFail => s.tokens.token == "" || h.token
    case CheckLink => Trusted(s.state) || (s.state == Disconnected && (!s.connected || h.link || h.token))
    case StoreLinkFail => !s.connected || h.link
    case Publish | PublishCheck | PublishSend | PublishQueue =>
      Trusted(s.state) || (s.state == Disconnected && (h.link || h.token))
    case _ => true
  }

  predicate Gated(s: Service, h: Help) {
    && (s.control.StartSpawn? ==> s.state == Connected)
    && (s.control.StartFailClear? ==> s.state == Disconnected)
    && (|s.workers| > 0 ==> StateFits(s, s.workers[|s.workers| - 1].pc, h))
  }

  // What a worker's step at `pc` leaves of the help.
  function HelpPast(pc: WorkerPc, h: Help): Help {
    Help(h.link && !pc.ReconnectDisconnect? && !pc.ReconnectConnect? && !pc.FinalDisconnect?, h.token && !pc.Refresh?)
  }

  lemma StepFits(cfg: Config, s: Service, me: Worker, a: Answer, h: Help)
    requires StateFits(s, me.pc, h) && cfg.hasAuth && cfg.hasAuthBackend && cfg.hasTransport
    ensures StateFits(Effect(cfg, s, me.pc, a), NextPc(cfg, s, me, a), HelpPast(me.pc, h))
  {
  }

  lemma WorkKeepsGated(cfg: Config, s: Service, w: nat, a: Answer, h: Help)
    requires Lifecycle(s) && Wired(cfg, s) && Gated(s, h) && Enabled(cfg, s, Work(w, a))
    ensures Gated(WorkStep(cfg, s, w, a), HelpPast(s.workers[w].pc, h))
  {
    WorkFrames(cfg, s, w, a);
    FrameKeepsLifecycle(s, w, WorkStep(cfg, s, w, a));
    StepFits(cfg, s, s.workers[w], a, h);
  }

  lemma ControlKeepsGated(cfg: Config, s: Service, a: Answer, h: Help)
    requires Lifecycle(s) && Gated(s, h) && Enabled(cfg, s, Control(a))
    ensures Gated(ControlStep(cfg, s, a), h)
  {
    if TouchesWorkers(s) {
      HandOverKeepsGated(cfg, s, a, h);
    } else {
      StoresFrame(cfg, s, a);
    }
  }

  lemma HandOverKeepsGated(cfg: Config, s: Service, a: Answer, h: Help)
    requires Lifecycle(s) && Gated(s, h) && TouchesWorkers(s)
    ensures Gated(ControlStep(cfg, s, a), h)
  {
  }

  lemma OutsideKeepsGated(cfg: Config, s: Service, l: Label, h: Help)
    requires Gated(s, h) && Enabled(cfg, s, l) && !l.Work? && !l.Control?
    ensures Gated(Apply(cfg, s, l), HelpAfter(s, l, h))
  {
  }

  lemma StepKeepsGated(cfg: Config, s: Service, l: Label, h: Help)
    requires Lifecycle(s) && Wired(cfg, s) && Gated(s, h) && Enabled(cfg, s, l)
    ensures Gated(Apply(cfg, s, l), HelpAfter(s, l, h))
  {
    match l
    case Work(w, a) => WorkKeepsGated(cfg, s, w, a, h);
    case Control(a) => ControlKeepsGated(cfg, s, a, h);
    case _ => OutsideKeepsGated(cfg, s, l, h);
  }

  // ----- The backlog: every sample is delivered, pending, or the one in the worker's hands -----

  ghost predicate Increasing(q: seq<nat>) {
    forall i, j :: 0 <= i < j < |q| ==> q[i] < q[j]
  }

  predicate InHand(s: Service) {
    |s.workers| > 0 && Holding(s.workers[|s.workers| - 1].pc)
  }

  // How many of the generated samples have left the worker's hands.
  function Settled(s: Service): int {
    s.telemetry.generated - if InHand(s) then 1 else 0
  }

  // The first `settled` samples are split between the two books, each in generation order.
  ghost predicate Split(t: Telemetry, settled: int) {
    && 0 <= settled
    && Increasing(t.delivered) && Increasing(t.pending)
    && (forall x :: x in t.delivered ==> x < settled && x !in t.pending)
    && (forall x :: x in t.pending ==> x < settled)
    && (forall x: nat :: x < settled ==> x in t.delivered || x in t.pending)
    && |t.delivered| + |t.pending| == settled
  }

  ghost predicate Booked(s: Service) {
    Split(s.telemetry, Settled(s))
  }

  lemma AppendKeepsIncreasing(q: seq<nat>, x: nat)
    requires Increasing(q) && forall y :: y in q ==> y < x
    ensures Increasing(q + [x])
    ensures forall y :: y in q + [x] <==> y in q || y == x
  {
    forall i, j | 0 <= i < j < |q + [x]|
      ensures (q + [x])[i] < (q + [x])[j]
    {
      assert q[i] in q;
    }
  }

  lemma DeliverKeepsSplit(t: Telemetry)
    requires t.generated > 0 && Split(t, t.generated - 1)
    ensures Split(Deliver(t), t.generated)
  {
    AppendKeepsIncreasing(t.delivered, t.generated - 1);
  }

  lemma EnqueueKeepsSplit(t: Telemetry)
    requires t.generated > 0 && Split(t, t.generated - 1)
    ensures Split(Enqueue(t), t.generated)
  {
    AppendKeepsIncreasing(t.pending, t.generated - 1);
  }

  lemma MoveKeepsBooked(s: Service, s': Service)
    requires Booked(s) && BooksMove(s.telemetry, InHand(s), s'.telemetry, InHand(s'))
    ensures Booked(s')
  {
    if InHand(s) && !InHand(s') {
      DeliverKeepsSplit(s.telemetry);
      EnqueueKeepsSplit(s.telemetry);
    }
  }

  lemma WorkKeepsBooked(cfg: Config, s: Service, w: nat, a: Answer)
    requires Lifecycle(s) && Booked(s) && Enabled(cfg, s, Work(w, a))
    ensures Booked(WorkStep(cfg, s, w, a))
  {
    WorkFrames(cfg, s, w, a);
    FrameKeepsLifecycle(s, w, WorkStep(cfg, s, w, a));
    MoveKeepsBooked(s, WorkStep(cfg, s, w, a));
  }

  lemma ControlKeepsBooked(cfg: Config, s: Service, a: Answer)
    requires Lifecycle(s) && Booked(s) && Enabled(cfg, s, Control(a))
    ensures Booked(ControlStep(cfg, s, a))
  {
    if !TouchesWorkers(s) {
      StoresFrame(cfg, s, a);
    }
    assert ControlStep(cfg, s, a).telemetry == s.telemetry;
    assert InHand(ControlStep(cfg, s, a)) == InHand(s);
  }

  lemma StepKeepsBooked(cfg: Config, s: Service, l: Label)
    requires Lifecycle(s) && Booked(s) && Enabled(cfg, s, l)
    ensures Booked(Apply(cfg, s, l))
  {
    match l
    case Work(w, a) => WorkKeepsBooked(cfg, s, w, a);
    case Control(a) => ControlKeepsBooked(cfg, s, a);
    case _ => assert InHand(Apply(cfg, s, l)) == InHand(s);
  }

  // ----- All of it together, in every state of every run -----

  ghost predicate Core(cfg: Config, s: Service) {
    Lifecycle(s) && Wired(cfg, s) && Booked(s)
  }

  ghost predicate Inv(cfg: Config, s: Service, h: Help) {
    Core(cfg, s) && DownBetweenWorkers(s, h.link) && Gated(s, h)
  }

  lemma StepKeepsCore(cfg: Config, s: Service, l: Label)
    requires Core(cfg, s) && Enabled(cfg, s, l)
    ensures Core(cfg, Apply(cfg, s, l))
  {
    StepKeepsLifecycle(cfg, s, l);
    StepKeepsWired(cfg, s, l);
    StepKeepsBooked(cfg, s, l);
  }

  lemma StepKeepsInv(cfg: Config, s: Service, l: Label, h: Help)
    requires Inv(cfg, s, h) && Enabled(cfg, s, l)
    ensures Inv(cfg, Apply(cfg, s, l), HelpAfter(s, l, h))
  {
    StepKeepsCore(cfg, s, l);
    StepKeepsDown(cfg, s, l, h.link);
    StepKeepsGated(cfg, s, l, h);
  }

  lemma {:induction false} InvAlways(cfg: Config, r: Run, k: nat)
    requires IsRun(cfg, r) && k <= |r.labels|
    ensures Inv(cfg, r.states[k], HelpAt(r, k))
  {
    if k > 0 {
      InvAlways(cfg, r, k - 1);
      StepAt(cfg, r, k - 1);
      StepKeepsInv(cfg, r.states[k - 1], r.labels[k - 1], HelpAt(r, k - 1));
    }
  }

  // What that help is, read off the run.
  ghost predicate LinkHelped(r: Run, k: nat) {
    exists j: nat :: j < k && j < |r.labels| && r.labels[j].ConnectOutside? && NoRelink(r, j + 1, k)
  }

  ghost predicate NoRelink(r: Run, j: nat, k: nat) {
    forall m :: j <= m < k && m < |r.labels| && m < |r.states| ==> !Relinks(r.states[m], r.labels[m])
  }

  ghost predicate TokenHelped(r: Run, k: nat) {
    exists j: nat :: j < k && j < |r.labels| && r.labels[j].AuthenticateOutside? && NoRefresh(r, j + 1, k)
  }

  ghost predicate NoRefresh(r: Run, j: nat, k: nat) {
    forall m :: j <= m < k && m < |r.labels| && m < |r.states| ==> !WorksAt(r.states[m], r.labels[m], Refresh)
  }

  lemma {:induction false} HelpIsHelped(r: Run, k: nat)
    requires k <= |r.labels| && k <= |r.states|
    ensures HelpAt(r, k).link <==> LinkHelped(r, k)
    ensures HelpAt(r, k).token <==> TokenHelped(r, k)
  {
    if k > 0 {
      HelpIsHelped(r, k - 1);
      LinkHelpOneMore(r, k - 1);
      TokenHelpOneMore(r, k - 1);
    }
  }

  lemma LinkHelpOneMore(r: Run, k: nat)
    requires k < |r.labels| && k < |r.states|
    ensures LinkHelped(r, k + 1) <==>
            r.labels[k].ConnectOutside? || (LinkHelped(r, k) && !Relinks(r.states[k], r.labels[k]))
  {
    if r.labels[k].ConnectOutside? {
      assert NoRelink(r, k + 1, k + 1);
    } else if LinkHelped(r, k) && !Relinks(r.states[k], r.labels[k]) {
      var j: nat :| j < k && r.labels[j].ConnectOutside? && NoRelink(r, j + 1, k);
      assert NoRelink(r, j + 1, k + 1);
    }
  }

  lemma TokenHelpOneMore(r: Run, k: nat)
    requires k < |r.labels| && k < |r.states|
    ensures TokenHelped(r, k + 1) <==>
            r.labels[k].AuthenticateOutside? || (TokenHelped(r, k) && !WorksAt(r.states[k], r.labels[k], Refresh))
  {
    if r.labels[k].AuthenticateOutside? {
      assert NoRefresh(r, k + 1, k + 1);
    } else if TokenHelped(r, k) && !WorksAt(r.states[k], r.labels[k], Refresh) {
      var j: nat :| j < k && r.labels[j].AuthenticateOutside? && NoRefresh(r, j + 1, k);
      assert NoRefresh(r, j + 1, k + 1);
    }
  }

  lemma LifecycleAt(cfg: Config, r: Run, k: nat)
    requires IsRun(cfg, r) && k <= |r.labels|
    ensures Lifecycle(r.states[k])
  {
    InvAlways(cfg, r, k);
  }

  lemma WiredAt(cfg: Config, r: Run, k: nat)
    requires IsRun(cfg, r) && k <= |r.labels| && |r.states[k].workers| > 0
    ensures cfg.hasAuth && cfg.hasAuthBackend && cfg.hasTransport
  {
    InvAlways(cfg, r, k);
  }

  lemma StepAt(cfg: Config, r: Run, k: nat)
    requires IsPath(cfg, r) && k < |r.labels|
    ensures Enabled(cfg, r.states[k], r.labels[k])
    ensures r.states[k + 1] == Apply(cfg, r.states[k], r.labels[k])
  {
    assert Next(cfg, r.states[k], r.labels[k], r.states[k + 1]);
  }
}
