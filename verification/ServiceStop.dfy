/** How soon a worker ends once it has been asked to stop. */
module ServiceStop {
  import opened AuthClients
  import opened ServiceModel
  import opened ServiceInvariant
  import opened ServiceRuns
  import opened ServiceShutdown

  // The most steps a worker at `pc` can still take once its stop token is set.
  function StepsLeft(pc: WorkerPc): nat {
    match pc
    case Exited => 0
    case FinalDisconnect => 1
    case LoopHead => 2
    case Sleeping => 3
    case StoreTokenFail | StoreLinkFail | PublishQueue => 4
    case PublishSend => 5
    case PublishCheck => 6
    case Publish => 7
    case StoreConnected => 8
    case ReconnectConnect => 9
    case ReconnectDisconnect => 10
    case StoreReconnecting => 11
    case CheckLink => 12
    case StorePublishing => 13
    case ReadFresh => 14
    case Refresh => 15
    case StoreAuthenticating => 16
    case ReadEmpty => 17
    case ReadValid => 18
  }

  // Every step goes forward, unless a worker that was not asked to stop begins another iteration.
  lemma StepsForward(cfg: Config, s: Service, me: Worker, a: Answer)
    requires me.pc != Exited && (me.pc == LoopHead ==> me.stop)
    ensures StepsLeft(NextPc(cfg, s, me, a)) < StepsLeft(me.pc)
  {
  }

  ghost function StepsTaken(r: Run, i: nat, k: nat, w: nat): nat
    requires i <= k <= |r.labels|
    decreases k - i
  {
    if i == k then 0 else StepsTaken(r, i, k - 1, w) + if StepOf(r.labels[k - 1], w) then 1 else 0
  }

  // From any position, at most `StepsLeft` steps (18 at worst) remain after the stop request.
  lemma {:induction false} StopLatency(cfg: Config, r: Run, i: nat, k: nat, w: nat)
    requires IsPath(cfg, r) && i <= k <= |r.labels|
    requires w < |r.states[i].workers| && r.states[i].workers[w].stop
    ensures w < |r.states[k].workers| && r.states[k].workers[w].stop
    ensures StepsTaken(r, i, k, w) + StepsLeft(r.states[k].workers[w].pc) <= StepsLeft(r.states[i].workers[w].pc)
    decreases k - i
  {
    if i < k {
      StopLatency(cfg, r, i, k - 1, w);
      StayOrStep(cfg, r, k - 1, w);
      if StepOf(r.labels[k - 1], w) {
        StepsForward(cfg, r.states[k - 1], r.states[k - 1].workers[w], r.labels[k - 1].a);
      }
    }
  }

  lemma StopTakesAtMost18Steps(cfg: Config, r: Run, i: nat, k: nat, w: nat)
    requires IsPath(cfg, r) && i <= k <= |r.labels|
    requires w < |r.states[i].workers| && r.states[i].workers[w].stop
    ensures StepsTaken(r, i, k, w) <= 18
  {
    StopLatency(cfg, r, i, k, w);
    NoneTakesMore(r.states[i].workers[w].pc);
  }

  lemma NoneTakesMore(pc: WorkerPc)
    ensures StepsLeft(pc) <= 18
  {
  }

  // So after the request no position is visited twice: at most one refresh, one reconnect, one publish, one sleep.
  lemma NothingTwiceAfterStop(cfg: Config, r: Run, a: nat, b: nat, w: nat, pc: WorkerPc)
    requires IsPath(cfg, r) && a < b && Acts(r, a, w, pc) && r.states[a].workers[w].stop
    ensures !Acts(r, b, w, pc)
  {
    if Acts(r, b, w, pc) {
      StopLatency(cfg, r, a, b, w);
      CountsItsOwnStep(r, a, b, w);
    }
  }

  lemma {:induction false} CountsItsOwnStep(r: Run, a: nat, b: nat, w: nat)
    requires a < b <= |r.labels| && StepOf(r.labels[a], w)
    ensures StepsTaken(r, a, b, w) >= 1
    decreases b - a
  {
    if a + 1 < b {
      CountsItsOwnStep(r, a, b - 1, w);
    }
  }

  // ----- Sleeps are short -----

  predicate SleepsShort(s: Service) {
    forall w :: 0 <= w < |s.workers| && s.workers[w].pc == Sleeping ==> s.workers[w].wakeAt <= s.now + PUBLISH_INTERVAL
  }

  lemma {:induction false} SleepsAlwaysShort(cfg: Config, r: Run, k: nat)
    requires IsRun(cfg, r) && k <= |r.labels|
    ensures SleepsShort(r.states[k])
    ensures forall w :: 0 <= w < |r.states[k].workers| && r.states[k].workers[w].pc == Sleeping ==>
              r.states[k].workers[w].wakeAt <= r.states[k].now + 5_000_000_000
  {
    if k > 0 {
      SleepsAlwaysShort(cfg, r, k - 1);
      StepAt(cfg, r, k - 1);
      StepKeepsSleepsShort(cfg, r.states[k - 1], r.labels[k - 1]);
    }
  }

  lemma StepKeepsSleepsShort(cfg: Config, s: Service, l: Label)
    requires SleepsShort(s) && Enabled(cfg, s, l)
    ensures SleepsShort(Apply(cfg, s, l))
  {
    match l
    case Control(a) =>
      if s.control != StartSpawn {
        ControlKeepsPositions(cfg, s, a);
      }
      ControlKeepsClock(cfg, s, a);
    case Work(w, a) => WorkFrames(cfg, s, w, a);
    case _ =>
  }

  lemma ControlKeepsClock(cfg: Config, s: Service, a: Answer)
    ensures ControlStep(cfg, s, a).now == s.now
  {
  }

  // ----- A pending `stop` can always be completed -----

  // How much clock time the stopping worker may still have to sleep.
  function TimeLeft(s: Service): int {
    if s.workers == [] then 0 else SleepLeft(s.workers[|s.workers| - 1], s.now)
  }

  function SleepLeft(me: Worker, now: int): int {
    if me.pc == Sleeping then (if me.wakeAt > now then me.wakeAt - now else 0)
    else if StepsLeft(me.pc) > StepsLeft(Sleeping) then PUBLISH_INTERVAL
    else 0
  }

  // `helped` says whether somebody else has connected the transport behind the worker's back.
  ghost predicate StopFinished(r: Run, from: Service, helped: bool) {
    && |r.states| > 0
    && r.states[0] == from
    && var end := r.states[|r.states| - 1];
    && AtRest(end) && (end.connected ==> helped)
    && end.now <= from.now + TimeLeft(from)
  }

  lemma ConsPath(cfg: Config, s: Service, l: Label, r: Run)
    requires IsPath(cfg, r) && Next(cfg, s, l, r.states[0])
    ensures IsPath(cfg, Run([l] + r.labels, [s] + r.states))
  {
    var q := Run([l] + r.labels, [s] + r.states);
    forall i | 0 <= i < |q.labels|
      ensures Next(cfg, q.states[i], q.labels[i], q.states[i + 1])
    {
      if i > 0 {
        assert q.states[i + 1] == r.states[i - 1 + 1];
        assert Next(cfg, r.states[i - 1], r.labels[i - 1], r.states[i - 1 + 1]);
      }
    }
  }

  lemma JoinedStopFinishes(cfg: Config, s: Service, helped: bool) returns (r: Run)
    requires Lifecycle(s) && DownBetweenWorkers(s, helped)
    requires s.control == StopJoin && s.workers[|s.workers| - 1].pc == Exited
    ensures IsPath(cfg, r) && StopFinished(r, s, helped)
  {
    var go := Control(Answer(true, AuthResponse("", 0)));
    var s1 := Apply(cfg, s, go);
    StepKeepsLifecycle(cfg, s, go);
    assert s1.workers == s.workers && s1.control == StopStore && s1.now == s.now;
    var s2 := Apply(cfg, s1, go);
    StepKeepsLifecycle(cfg, s1, go);
    assert s2.control == Idle && s2.state == Stopped && s2.now == s.now && s2.workers == s.workers;
    r := Run([go, go], [s, s1, s2]);
    assert Next(cfg, r.states[0], r.labels[0], r.states[0 + 1]);
    assert Next(cfg, r.states[1], r.labels[1], r.states[1 + 1]);
  }

  // The step that brings a stopping worker closer to its end: sleep out the clock, or move on.
  function Onward(s: Service): Label
    requires |s.workers| > 0
  {
    var me := s.workers[|s.workers| - 1];
    if me.pc == Sleeping && me.wakeAt > s.now then Tick(me.wakeAt - s.now)
    else Work(|s.workers| - 1, Answer(true, AuthResponse("", 0)))
  }

  function Distance(s: Service): nat
    requires |s.workers| > 0
  {
    var me := s.workers[|s.workers| - 1];
    2 * StepsLeft(me.pc) + if me.pc == Sleeping && me.wakeAt > s.now then 1 else 0
  }

  lemma OnwardIsCloser(cfg: Config, s: Service)
    requires Lifecycle(s) && s.control == StopJoin && s.workers[|s.workers| - 1].pc != Exited
    ensures Enabled(cfg, s, Onward(s))
    ensures var s' := Apply(cfg, s, Onward(s));
      && |s'.workers| > 0 && s'.control == StopJoin
      && Distance(s') < Distance(s)
      && s'.now + TimeLeft(s') <= s.now + TimeLeft(s)
  {
    if Onward(s).Work? {
      WorkIsCloser(cfg, s, Onward(s).a);
    }
  }

  lemma WorkIsCloser(cfg: Config, s: Service, a: Answer)
    requires Lifecycle(s) && s.control == StopJoin && Enabled(cfg, s, Work(|s.workers| - 1, a))
    ensures var s' := WorkStep(cfg, s, |s.workers| - 1, a);
      && |s'.workers| > 0 && s'.control == StopJoin
      && Distance(s') < Distance(s)
      && s'.now + TimeLeft(s') <= s.now + TimeLeft(s)
  {
    var w := |s.workers| - 1;
    EffectFrame(cfg, s, s.workers[w].pc, a);
    StepsForward(cfg, s, s.workers[w], a);
    SleepsOnce(cfg, s, s.workers[w], a);
  }

  // A step of a worker that is not asleep adds no sleep beyond the one it may have had ahead of it.
  lemma SleepsOnce(cfg: Config, s: Service, me: Worker, a: Answer)
    requires me.pc != Exited && (me.pc == LoopHead ==> me.stop) && (me.pc == Sleeping ==> me.wakeAt <= s.now)
    ensures var pc' := NextPc(cfg, s, me, a);
      SleepLeft(Worker(pc', me.stop, if pc' == Sleeping then s.now + Pause(me.pc) else me.wakeAt), s.now)
        <= SleepLeft(me, s.now)
  {
    StepsForward(cfg, s, me, a);
  }

  // A `stop` waiting to join returns at rest after finitely many steps in which the clock need not pass
  // more than the rest of one sleep, 5 seconds at worst, whatever the worker was doing.
  lemma {:induction false} PendingStopCanFinish(cfg: Config, s: Service, helped: bool) returns (r: Run)
    requires Core(cfg, s) && DownBetweenWorkers(s, helped) && s.control == StopJoin
    ensures IsPath(cfg, r) && StopFinished(r, s, helped)
    decreases if |s.workers| > 0 then Distance(s) else 0
  {
    if s.workers[|s.workers| - 1].pc == Exited {
      r := JoinedStopFinishes(cfg, s, helped);
    } else {
      var s' := Apply(cfg, s, Onward(s));
      OnwardIsCloser(cfg, s);
      StepKeepsCore(cfg, s, Onward(s));
      StepKeepsDown(cfg, s, Onward(s), helped);
      var q := PendingStopCanFinish(cfg, s', helped);
      ConsPath(cfg, s, Onward(s), q);
      r := Run([Onward(s)] + q.labels, [s] + q.states);
      assert r.states[|r.states| - 1] == q.states[|q.states| - 1];
    }
  }

  lemma EveryStopCanFinish(cfg: Config, r: Run, k: nat)
    requires IsRun(cfg, r) && k <= |r.labels| && r.states[k].control == StopJoin
    ensures exists q: Run ::
              && IsPath(cfg, q) && StopFinished(q, r.states[k], LinkHelped(r, k))
              && q.states[|q.states| - 1].now <= r.states[k].now + 5_000_000_000
  {
    InvAlways(cfg, r, k);
    SleepsAlwaysShort(cfg, r, k);
    HelpIsHelped(r, k);
    var q := PendingStopCanFinish(cfg, r.states[k], LinkHelped(r, k));
  }
}
