/** When the loop reconnects at all, and runs that show how far it can go without. */
module ServiceLink {
  import opened Basics
  import opened AuthClients
  import opened ServiceModel
  import opened ServiceInvariant
  import opened ServiceRuns
  import opened ServiceStop
  import opened ServiceRecovery
  import opened ServiceStatus
  import opened Connectivity

  // ----- The reconnect branch, exactly -----

  // A connect that succeeds: the one `start` makes, the one inside the loop's reconnect, or somebody else's.
  predicate Dials(cfg: Config, s: Service, l: Label) {
    || (l.Control? && s.control == StartConnect && cfg.hasTransport && l.a.ok)
    || (WorksAt(s, l, ReconnectConnect) && l.a.ok)
    || l.ConnectOutside?
  }

  // A disconnect, by the loop or by somebody else, whatever it returns.
  predicate HangsUp(cfg: Config, s: Service, l: Label) {
    || l.DropLink?
    || WorksAt(s, l, ReconnectDisconnect)
    || (WorksAt(s, l, FinalDisconnect) && cfg.hasTransport)
  }

  lemma StepMovesLink(cfg: Config, s: Service, l: Label)
    requires Enabled(cfg, s, l)
    ensures Apply(cfg, s, l).connected ==
            if Dials(cfg, s, l) then true else if HangsUp(cfg, s, l) then false else s.connected
  {
    match l
    case Control(a) => ControlMovesLink(cfg, s, a);
    case _ =>
  }

  lemma ControlMovesLink(cfg: Config, s: Service, a: Answer)
    ensures ControlStep(cfg, s, a).connected == (s.connected || Dials(cfg, s, Control(a)))
  {
  }

  // Nobody has disconnected the transport since before step `i`.
  ghost predicate NotHungUp(cfg: Config, r: Run, i: nat, k: nat) {
    forall j :: i <= j < k && j < |r.labels| && j < |r.states| ==> !HangsUp(cfg, r.states[j], r.labels[j])
  }

  ghost predicate DialledAt(cfg: Config, r: Run, i: nat) {
    i < |r.labels| && i < |r.states| && Dials(cfg, r.states[i], r.labels[i])
  }

  // Some connect succeeded, or the transport was handed in connected, and it was not disconnected since.
  ghost predicate LinkStanding(cfg: Config, r: Run, k: nat)
    requires |r.states| > 0
  {
    || (r.states[0].connected && NotHungUp(cfg, r, 0, k))
    || (exists i: nat :: i < k && DialledAt(cfg, r, i) && NotHungUp(cfg, r, i + 1, k))
  }

  lemma {:induction false} ConnectedIffStanding(cfg: Config, r: Run, k: nat)
    requires IsPath(cfg, r) && k <= |r.labels|
    ensures r.states[k].connected <==> LinkStanding(cfg, r, k)
  {
    if k > 0 {
      ConnectedIffStanding(cfg, r, k - 1);
      StepAt(cfg, r, k - 1);
      StepMovesLink(cfg, r.states[k - 1], r.labels[k - 1]);
      StandingOneMore(cfg, r, k - 1);
    }
  }

  lemma StandingOneMore(cfg: Config, r: Run, k: nat)
    requires k < |r.labels| && |r.states| == |r.labels| + 1
    ensures LinkStanding(cfg, r, k + 1) <==>
            DialledAt(cfg, r, k) || (LinkStanding(cfg, r, k) && !HangsUp(cfg, r.states[k], r.labels[k]))
  {
    if DialledAt(cfg, r, k) {
      assert NotHungUp(cfg, r, k + 1, k + 1);
    } else if LinkStanding(cfg, r, k) && !HangsUp(cfg, r.states[k], r.labels[k]) {
      if !(r.states[0].connected && NotHungUp(cfg, r, 0, k)) {
        var i: nat :| i < k && DialledAt(cfg, r, i) && NotHungUp(cfg, r, i + 1, k);
        assert NotHungUp(cfg, r, i + 1, k + 1);
      }
    }
  }

  // The loop tries to reconnect exactly when no successful connect is still standing: what became of the
  // connection since, and of the publishes over it, plays no part.
  lemma ReconnectsIffNoLinkStands(cfg: Config, r: Run, k: nat, w: nat)
    requires IsRun(cfg, r) && Acts(r, k, w, CheckLink)
    ensures w < |r.states[k + 1].workers|
    ensures r.states[k + 1].workers[w].pc == StoreReconnecting <==> !LinkStanding(cfg, r, k)
    ensures r.states[k + 1].workers[w].pc == Publish <==> LinkStanding(cfg, r, k)
  {
    WiredAt(cfg, r, k);
    StayOrStep(cfg, r, k, w);
    ConnectedIffStanding(cfg, r, k);
  }

  // ----- Runs in which it never helps -----

  predicate Full(cfg: Config) {
    cfg.hasAuth && cfg.hasAuthBackend && cfg.hasTransport && cfg.hasTelemetry && cfg.managerClient == SharedClient
  }

  // The backend grants every token; every disconnect, connect and send fails.
  const REFUSED: Answer := Answer(false, AuthResponse("token", 0))

  // One worker in its loop, with the transport up all the time or down all the time.
  predicate Looping(s: Service, up: bool) {
    && s.control == Idle && |s.workers| == 1 && !s.workers[0].stop && s.connected == up
    && var pc := s.workers[0].pc;
       && pc != FinalDisconnect && pc != Exited
       && (if up then !LinkAttempt(pc) else NotPast(pc))
       && (pc == ReadFresh ==> s.tokens.token != "")
  }

  function Drive(s: Service): Label
    requires |s.workers| == 1
  {
    var me := s.workers[0];
    if me.pc == Sleeping && me.wakeAt > s.now then Tick(me.wakeAt - s.now) else Work(0, REFUSED)
  }

  // Where each iteration comes by.
  function Goal(up: bool): WorkerPc {
    if up then PublishSend else ReconnectDisconnect
  }

  function ToGoal(s: Service, up: bool): nat
    requires |s.workers| == 1
  {
    var me := s.workers[0];
    var here, there := StepsLeft(me.pc), StepsLeft(Goal(up));
    2 * (if here >= there then here - there else here + 18) + if me.pc == Sleeping && me.wakeAt > s.now then 1 else 0
  }

  // The next step of the worker: what it does to shared state, and where it leads.
  lemma RefusedStep(cfg: Config, s: Service, up: bool)
    requires Full(cfg) && Looping(s, up) && (!up ==> cfg.kind.Mqtt?)
    ensures var me := s.workers[0];
            var e, pc' := Effect(cfg, s, me.pc, REFUSED), NextPc(cfg, s, me, REFUSED);
      && e.connected == up && (pc' == ReadFresh ==> e.tokens.token != "")
      && pc' != FinalDisconnect && pc' != Exited
      && (if up then !LinkAttempt(pc') else NotPast(pc'))
  {
  }

  lemma RefusedStepIsCloser(cfg: Config, s: Service, up: bool)
    requires Full(cfg) && Looping(s, up) && (!up ==> cfg.kind.Mqtt?)
    requires s.workers[0].pc != Goal(up)
    ensures var pc, pc' := s.workers[0].pc, NextPc(cfg, s, s.workers[0], REFUSED);
            var there := StepsLeft(Goal(up));
      if StepsLeft(pc) >= there then there <= StepsLeft(pc') < StepsLeft(pc)
      else StepsLeft(pc') < StepsLeft(pc) || pc == LoopHead
  {
  }

  lemma DriveKeepsLooping(cfg: Config, s: Service, up: bool)
    requires Full(cfg) && Looping(s, up) && (!up ==> cfg.kind.Mqtt?)
    ensures Enabled(cfg, s, Drive(s))
    ensures Looping(Apply(cfg, s, Drive(s)), up)
    ensures s.workers[0].pc == Goal(up) || ToGoal(Apply(cfg, s, Drive(s)), up) < ToGoal(s, up)
  {
    if Drive(s).Work? {
      EffectFrame(cfg, s, s.workers[0].pc, REFUSED);
      RefusedStep(cfg, s, up);
      if s.workers[0].pc != Goal(up) {
        RefusedStepIsCloser(cfg, s, up);
      }
    }
  }

  // How often worker `w` acts at `pc` in the first `k` steps.
  ghost function Visits(r: Run, k: nat, w: nat, pc: WorkerPc): nat {
    if k == 0 then 0 else Visits(r, k - 1, w, pc) + if Acts(r, k - 1, w, pc) then 1 else 0
  }

  lemma {:induction false} VisitsOfPrefix(r: Run, q: Run, k: nat, w: nat, pc: WorkerPc)
    requires r.labels <= q.labels && r.states <= q.states && k <= |r.labels| && k <= |r.states|
    ensures Visits(q, k, w, pc) == Visits(r, k, w, pc)
  {
    if k > 0 {
      VisitsOfPrefix(r, q, k - 1, w, pc);
    }
  }

  // From step `i` on the run is `Drive`n.
  ghost predicate DrivenFrom(r: Run, i: nat) {
    forall m :: i <= m < |r.labels| ==> r.labels[m].Tick? || r.labels[m] == Work(0, REFUSED)
  }

  ghost predicate Extends(r: Run, q: Run) {
    r.labels <= q.labels && r.states <= q.states
  }

  lemma OneMoreVisit(path: Run, l: Label, s': Service, w: nat, pc: WorkerPc)
    requires |path.states| == |path.labels| + 1
    ensures var q := Run(path.labels + [l], path.states + [s']);
      && Extends(path, q)
      && Visits(q, |q.labels|, w, pc) == Visits(path, |path.labels|, w, pc) +
           if l.Work? && l.w == w && w < |End(path).workers| && End(path).workers[w].pc == pc then 1 else 0
  {
    var q := Run(path.labels + [l], path.states + [s']);
    VisitsOfPrefix(path, q, |path.labels|, w, pc);
    assert q.labels[|path.labels|] == l && q.states[|path.labels|] == End(path);
  }

  lemma DriveOnce(cfg: Config, path: Run, up: bool, i: nat) returns (q: Run)
    requires Full(cfg) && (!up ==> cfg.kind.Mqtt?)
    requires IsPath(cfg, path) && Looping(End(path), up) && DrivenFrom(path, i)
    requires Enabled(cfg, End(path), Drive(End(path)))
    ensures IsPath(cfg, q) && DrivenFrom(q, i) && Extends(path, q)
    ensures End(q) == Apply(cfg, End(path), Drive(End(path)))
    ensures Visits(q, |q.labels|, 0, Goal(up)) ==
            Visits(path, |path.labels|, 0, Goal(up)) + if End(path).workers[0].pc == Goal(up) then 1 else 0
  {
    var l := Drive(End(path));
    ThenTakes(cfg, path, path.states[0], l);
    q := Then(cfg, path, l);
    OneMoreVisit(path, l, Apply(cfg, End(path), l), 0, Goal(up));
  }

  lemma {:induction false} DriveOn(cfg: Config, path: Run, up: bool, i: nat, n: nat) returns (r: Run)
    requires Full(cfg) && (!up ==> cfg.kind.Mqtt?)
    requires IsPath(cfg, path) && Looping(End(path), up) && DrivenFrom(path, i)
    ensures IsPath(cfg, r) && Looping(End(r), up) && DrivenFrom(r, i) && Extends(path, r)
    ensures Visits(r, |r.labels|, 0, Goal(up)) == Visits(path, |path.labels|, 0, Goal(up)) + n
    decreases n, ToGoal(End(path), up)
  {
    r := path;
    if n > 0 {
      DriveKeepsLooping(cfg, End(path), up);
      var q := DriveOnce(cfg, path, up, i);
      r := DriveOn(cfg, q, up, i, if End(path).workers[0].pc == Goal(up) then n - 1 else n);
    }
  }

  // `start` succeeds at once, and its worker is about to run.
  lemma StartsUp(cfg: Config, s: Service) returns (r: Run)
    requires Initial(s) && Full(cfg)
    ensures IsRun(cfg, r) && r.states[0] == s && Looping(End(r), true) && End(r).workers[0].pc == LoopHead
    ensures End(r).running && End(r).tokens == TokenState("token", s.now) && End(r).now == s.now
    ensures forall m :: 0 <= m < |r.labels| ==> r.labels[m].CallStart? || r.labels[m].Control?
  {
    r := Spawns(cfg, s);
    r := Grow(cfg, r, s, Control(OK));
    r := Grow(cfg, r, s, Control(OK));
  }

  lemma Spawns(cfg: Config, s: Service) returns (r: Run)
    requires Initial(s) && Full(cfg)
    ensures PathFrom(cfg, r, s) && End(r).control == StartAssign && End(r).handle == None
    ensures End(r).workers == [Worker(LoopHead, false, s.now)] && End(r).connected && End(r).running
    ensures End(r).tokens == TokenState("token", s.now) && End(r).now == s.now
    ensures forall m :: 0 <= m < |r.labels| ==> r.labels[m].CallStart? || r.labels[m].Control?
  {
    r := StartGetsThrough(cfg, s);
    r := Grow(cfg, r, s, Control(OK));
    r := Grow(cfg, r, s, Control(OK));
  }

  lemma StartsUpAndDrops(cfg: Config, s: Service) returns (r: Run)
    requires Initial(s) && Full(cfg)
    ensures IsRun(cfg, r) && r.states[0] == s
    ensures Looping(End(r), false) && Wedged(End(r)) && End(r).workers[0].pc == LoopHead
    ensures forall m :: 0 <= m < |r.labels| ==> !r.labels[m].Work?
  {
    r := StartsUp(cfg, s);
    r := Grow(cfg, r, s, DropLink);
  }

  // However many publishes in a row fail, the loop may go on publishing and never try to reconnect.
  lemma SendsCanFailForEver(cfg: Config, s: Service, n: nat) returns (r: Run)
    requires Initial(s) && Full(cfg)
    ensures IsRun(cfg, r) && r.states[0] == s
    ensures Visits(r, |r.labels|, 0, PublishSend) == n
    ensures forall m: nat :: Acts(r, m, 0, PublishSend) ==> !r.labels[m].a.ok
    ensures forall m: nat, w: nat, pc :: Acts(r, m, w, pc) ==> !LinkAttempt(pc)
  {
    var start := StartsUp(cfg, s);
    NoVisitsWithoutWork(start, |start.labels|, 0, PublishSend);
    r := DriveOn(cfg, start, true, |start.labels|, n);
    forall m: nat, w: nat, pc | Acts(r, m, w, pc)
      ensures !LinkAttempt(pc)
    {
      assert forall i :: 0 <= i < |start.labels| ==> r.labels[i] == start.labels[i];
      NoReconnectUnlessDroppedFromOutside(cfg, r, m, w, pc);
    }
  }

  lemma {:induction false} NoVisitsWithoutWork(r: Run, k: nat, w: nat, pc: WorkerPc)
    requires k <= |r.labels| && forall m :: 0 <= m < k ==> !r.labels[m].Work?
    ensures Visits(r, k, w, pc) == 0
  {
    if k > 0 {
      NoVisitsWithoutWork(r, k - 1, w, pc);
    }
  }

  lemma DrivenGetsNoHelp(r: Run, i: nat)
    requires DrivenFrom(r, i) && |r.states| == |r.labels| + 1
    ensures forall m: nat :: i <= m < |r.labels| ==> NoHelp(r, m)
  {
  }

  // Over MQTT one disconnect from outside can wedge a running loop: from step `i` on it asks for `n` reconnects, and
  // all of them end at their failing disconnect, with nothing tried and nothing published.
  lemma LoopCanStayWedged(cfg: Config, s: Service, n: nat) returns (r: Run, i: nat)
    requires Initial(s) && Full(cfg) && cfg.kind.Mqtt?
    ensures IsRun(cfg, r) && r.states[0] == s && i <= |r.labels|
    ensures Wedged(r.states[i]) && |r.states[i].workers| == 1 && r.states[i].workers[0].pc == LoopHead
    ensures Wedged(End(r)) && |End(r).workers| == 1 && End(r).workers[0].pc != Exited
    ensures Visits(r, |r.labels|, 0, ReconnectDisconnect) == n
    ensures forall m: nat :: i <= m < |r.labels| ==> NoHelp(r, m) && NothingTried(r, m)
  {
    var drop := StartsUpAndDrops(cfg, s);
    i := |drop.labels|;
    NoVisitsWithoutWork(drop, i, 0, ReconnectDisconnect);
    r := DriveOn(cfg, drop, false, i, n);
    DrivenGetsNoHelp(r, i);
    assert r.states[i] == End(drop);
    FailingDisconnectWedgesMqtt(cfg, r, i, |r.labels|);
  }
}
