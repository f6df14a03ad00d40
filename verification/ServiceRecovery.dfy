/** When an iteration gets through to publish, when it never can, and what piles up. */
module ServiceRecovery {
  import opened AuthClients
  import opened ServiceModel
  import opened ServiceInvariant
  import opened ServiceRuns
  import opened ServiceGate
  import opened ServiceStop
  import T = Transports

  // ----- An iteration publishes exactly when nothing it called failed -----

  // Step `p` of worker `w` made a call that failed, or found the token it had just refreshed cleared again.
  ghost predicate FailedCall(cfg: Config, r: Run, w: nat, p: nat) {
    || (Acts(r, p, w, Refresh) && !Accepted(cfg.hasAuthBackend, r.labels[p].a.reply))
    || (Acts(r, p, w, ReadFresh) && r.states[p].tokens.token == "")
    || (Acts(r, p, w, ReconnectDisconnect) && !T.DisconnectResult(cfg.kind, r.labels[p].a.ok))
    || (Acts(r, p, w, ReconnectConnect) && !T.ConnectResult(r.states[p].connected, r.labels[p].a.ok))
  }

  // Within one iteration a worker only moves forward.
  lemma {:induction false} ForwardWithinIteration(cfg: Config, r: Run, w: nat, i: nat, k: nat)
    requires IsPath(cfg, r) && i <= k <= |r.labels| && w < |r.states[i].workers|
    requires forall m: nat :: i <= m < k ==> !Acts(r, m, w, LoopHead)
    ensures w < |r.states[k].workers|
    ensures StepsLeft(r.states[k].workers[w].pc) <= StepsLeft(r.states[i].workers[w].pc)
    decreases k - i
  {
    if i < k {
      ForwardWithinIteration(cfg, r, w, i, k - 1);
      StayOrStep(cfg, r, k - 1, w);
      assert !Acts(r, k - 1, w, LoopHead);
      if StepOf(r.labels[k - 1], w) {
        StepsForward(cfg, r.states[k - 1], r.states[k - 1].workers[w], r.labels[k - 1].a);
      }
    }
  }

  // A sleep has either a publish or a failed call behind it.
  lemma OutcomeBehindSleep(cfg: Config, r: Run, k: nat, w: nat) returns (p: nat)
    requires IsRun(cfg, r) && Acts(r, k, w, Sleeping)
    ensures p < k && (Acts(r, p, w, Publish) || FailedCall(cfg, r, w, p))
    ensures forall m: nat :: p < m < k ==> !Acts(r, m, w, LoopHead)
  {
    WiredAt(cfg, r, k);
    p := Origin(cfg, r, k, w);
    var pc := r.states[p].workers[w].pc;
    if pc.StoreTokenFail? || pc.StoreLinkFail? {
      p := Origin(cfg, r, p, w);
    } else if Holding(pc) {
      p := PublishBegun(cfg, r, p, w, pc);
    }
  }

  // After a failed call only the failure is left of the iteration; after a publish, only the way to its sleep.
  lemma AfterFailure(cfg: Config, r: Run, w: nat, q: nat)
    requires IsRun(cfg, r) && q < |r.labels| && FailedCall(cfg, r, w, q)
    ensures w < |r.states[q].workers| && StepsLeft(r.states[q].workers[w].pc) > StepsLeft(Publish)
    ensures w < |r.states[q + 1].workers| && StepsLeft(r.states[q + 1].workers[w].pc) < StepsLeft(Publish)
  {
    StayOrStep(cfg, r, q, w);
  }

  lemma AfterPublish(cfg: Config, r: Run, w: nat, p: nat)
    requires IsRun(cfg, r) && Acts(r, p, w, Publish)
    ensures w < |r.states[p + 1].workers| && StepsLeft(r.states[p + 1].workers[w].pc) < StepsLeft(Publish)
  {
    StayOrStep(cfg, r, p, w);
  }

  // So no iteration has both.
  lemma FailureAndPublishExclude(cfg: Config, r: Run, w: nat, p: nat, q: nat, s: nat, k: nat)
    requires IsRun(cfg, r) && k <= |r.labels| && IterationBegins(r, w, s, k) && s < p < k && s < q < k
    requires Acts(r, p, w, Publish)
    ensures !FailedCall(cfg, r, w, q)
  {
    if q < p {
      NoPublishAfterFailure(cfg, r, w, q, p);
    } else if p < q {
      NoFailureAfterPublish(cfg, r, w, p, q);
    }
  }

  lemma NoPublishAfterFailure(cfg: Config, r: Run, w: nat, q: nat, p: nat)
    requires IsRun(cfg, r) && q < p && Acts(r, p, w, Publish)
    requires forall m: nat :: q <= m < p ==> !Acts(r, m, w, LoopHead)
    ensures !FailedCall(cfg, r, w, q)
  {
    if FailedCall(cfg, r, w, q) {
      AfterFailure(cfg, r, w, q);
      ForwardWithinIteration(cfg, r, w, q + 1, p);
    }
  }

  lemma NoFailureAfterPublish(cfg: Config, r: Run, w: nat, p: nat, q: nat)
    requires IsRun(cfg, r) && p < q < |r.labels| && Acts(r, p, w, Publish)
    requires forall m: nat :: p <= m < q ==> !Acts(r, m, w, LoopHead)
    ensures !FailedCall(cfg, r, w, q)
  {
    if FailedCall(cfg, r, w, q) {
      AfterFailure(cfg, r, w, q);
      AfterPublish(cfg, r, w, p);
      ForwardWithinIteration(cfg, r, w, p + 1, q);
    }
  }

  // An iteration that has come to its sleep published if and only if none of its calls failed: a needed
  // refresh and a needed reconnect that succeed always lead to a publish.
  lemma PublishesIffNoCallFailed(cfg: Config, r: Run, w: nat, s: nat, k: nat)
    requires IsRun(cfg, r) && Acts(r, k, w, Sleeping) && IterationBegins(r, w, s, k)
    ensures (exists p: nat :: s < p < k && Acts(r, p, w, Publish))
            <==> (forall q: nat :: s < q < k ==> !FailedCall(cfg, r, w, q))
  {
    var o := OutcomeBehindSleep(cfg, r, k, w);
    assert s < o by {
      assert !Acts(r, o, w, LoopHead);
      assert s != o;
    }
    forall p: nat, q: nat | s < p < k && s < q < k && Acts(r, p, w, Publish)
      ensures !FailedCall(cfg, r, w, q)
    {
      FailureAndPublishExclude(cfg, r, w, p, q, s, k);
    }
  }

  // ----- The transport's flag is all the loop ever looks at -----

  predicate LinkAttempt(pc: WorkerPc) {
    pc.StoreReconnecting? || pc.ReconnectDisconnect? || pc.ReconnectConnect? || pc.StoreConnected? || pc.StoreLinkFail?
  }

  // The flag `start` raised is still up and nobody is reconnecting.
  predicate FlagUp(s: Service) {
    && (s.control.StartStoreConnected? || s.control.StartSpawn? ==> s.connected)
    && (|s.workers| > 0 && s.workers[|s.workers| - 1].pc != Exited ==>
          s.connected && !LinkAttempt(s.workers[|s.workers| - 1].pc))
  }

  lemma WorkKeepsFlagUp(cfg: Config, s: Service, w: nat, a: Answer)
    requires Lifecycle(s) && FlagUp(s) && Enabled(cfg, s, Work(w, a)) && cfg.hasTransport
    ensures FlagUp(WorkStep(cfg, s, w, a))
  {
    WorkFrames(cfg, s, w, a);
    FrameKeepsLifecycle(s, w, WorkStep(cfg, s, w, a));
  }

  lemma ControlKeepsFlagUp(cfg: Config, s: Service, a: Answer)
    requires Lifecycle(s) && FlagUp(s) && Enabled(cfg, s, Control(a))
    ensures FlagUp(ControlStep(cfg, s, a))
  {
    if !TouchesWorkers(s) {
      StoresFrame(cfg, s, a);
    }
  }

  lemma StepKeepsFlagUp(cfg: Config, s: Service, l: Label)
    requires Lifecycle(s) && FlagUp(s) && Enabled(cfg, s, l) && l != DropLink
    requires |s.workers| > 0 ==> cfg.hasTransport
    ensures FlagUp(Apply(cfg, s, l))
  {
    match l
    case Work(w, a) => WorkKeepsFlagUp(cfg, s, w, a);
    case Control(a) => ControlKeepsFlagUp(cfg, s, a);
    case _ =>
  }

  lemma {:induction false} FlagUpWithoutDrops(cfg: Config, r: Run, k: nat)
    requires IsRun(cfg, r) && k <= |r.labels|
    requires forall i :: 0 <= i < k ==> r.labels[i] != DropLink
    ensures FlagUp(r.states[k])
  {
    if k > 0 {
      FlagUpWithoutDrops(cfg, r, k - 1);
      StepAt(cfg, r, k - 1);
      LifecycleAt(cfg, r, k - 1);
      if |r.states[k - 1].workers| > 0 {
        WiredAt(cfg, r, k - 1);
      }
      StepKeepsFlagUp(cfg, r.states[k - 1], r.labels[k - 1]);
    }
  }

  // Unless somebody else disconnects the transport object, the loop never tries to reconnect: failed
  // publishes, however many, do not make it look again.
  lemma NoReconnectUnlessDroppedFromOutside(cfg: Config, r: Run, k: nat, w: nat, pc: WorkerPc)
    requires IsRun(cfg, r) && Acts(r, k, w, pc)
    requires forall i :: 0 <= i < k ==> r.labels[i] != DropLink
    ensures !LinkAttempt(pc)
  {
    StepAt(cfg, r, k);
    LifecycleAt(cfg, r, k);
    FlagUpWithoutDrops(cfg, r, k);
  }

  // ----- A disconnect that keeps failing wedges the loop over MQTT -----

  // Down, and not already past the check.
  predicate Wedged(s: Service) {
    && !s.connected
    && !s.control.StartStoreStarting? && !s.control.StartAuthenticate? && !s.control.StartStoreAuthenticating?
    && !s.control.StartConnect? && !s.control.StartStoreConnected? && !s.control.StartSpawn?
    && (|s.workers| > 0 ==> NotPast(s.workers[|s.workers| - 1].pc))
  }

  lemma StepKeepsWedged(cfg: Config, s: Service, l: Label)
    requires Lifecycle(s) && Wedged(s) && Enabled(cfg, s, l) && cfg.kind.Mqtt?
    requires !l.ConnectOutside? && (l.CallStart? ==> s.running)
    requires l.Work? && l.w < |s.workers| && s.workers[l.w].pc == ReconnectDisconnect ==> !l.a.ok
    ensures Wedged(Apply(cfg, s, l))
  {
    match l
    case Work(w, a) => WorkKeepsWedged(cfg, s, w, a);
    case Control(a) => ControlKeepsWedged(cfg, s, a);
    case _ =>
  }

  lemma WorkKeepsWedged(cfg: Config, s: Service, w: nat, a: Answer)
    requires Lifecycle(s) && Wedged(s) && Enabled(cfg, s, Work(w, a)) && cfg.kind.Mqtt?
    requires s.workers[w].pc == ReconnectDisconnect ==> !a.ok
    ensures Wedged(WorkStep(cfg, s, w, a))
  {
    OnlyTheLastWorks(cfg, s, w, a);
    EffectFrame(cfg, s, s.workers[w].pc, a);
    EffectCannotConnect(cfg, s, s.workers[w].pc, a);
    NoWayToPublish(cfg, s, s.workers[w], a);
  }

  // Down and not past the check, a worker cannot get past it.
  predicate NotPast(pc: WorkerPc) {
    !PublishPhase(pc) && !pc.StoreConnected? && !pc.ReconnectConnect?
  }

  lemma NoWayToPublish(cfg: Config, s: Service, me: Worker, a: Answer)
    requires !s.connected && NotPast(me.pc) && cfg.kind.Mqtt? && (me.pc == ReconnectDisconnect ==> !a.ok)
    ensures NotPast(NextPc(cfg, s, me, a))
  {
  }

  lemma EffectCannotConnect(cfg: Config, s: Service, pc: WorkerPc, a: Answer)
    requires !s.connected && pc != ReconnectConnect
    ensures !Effect(cfg, s, pc, a).connected
  {
  }

  lemma ControlKeepsWedged(cfg: Config, s: Service, a: Answer)
    requires Lifecycle(s) && Wedged(s) && Enabled(cfg, s, Control(a))
    ensures Wedged(ControlStep(cfg, s, a))
  {
    if !TouchesWorkers(s) {
      StoresFrame(cfg, s, a);
    }
  }

  // Step `m` does not start the service again, nor connect the transport from outside, and if it is a reconnect's
  // disconnect, that fails.
  ghost predicate NoHelp(r: Run, m: nat)
    requires m < |r.labels| && m < |r.states|
  {
    && !r.labels[m].ConnectOutside?
    && (r.labels[m] == CallStart ==> r.states[m].running)
    && (forall w: nat :: Acts(r, m, w, ReconnectDisconnect) ==> !r.labels[m].a.ok)
  }

  // No worker attempts a connect or publishes at step `m`.
  ghost predicate NothingTried(r: Run, m: nat) {
    forall w: nat :: !Acts(r, m, w, ReconnectConnect) && !Acts(r, m, w, Publish)
  }

  // Once the MqttClient is flagged down, as long as every disconnect the loop makes answers false and `start`
  // is not run again, no connect is attempted and nothing is published, for ever.
  lemma {:induction false} FailingDisconnectWedgesMqtt(cfg: Config, r: Run, i: nat, k: nat)
    requires IsRun(cfg, r) && i <= k <= |r.labels| && cfg.kind.Mqtt?
    requires Wedged(r.states[i])
    requires forall m :: i <= m < k ==> NoHelp(r, m)
    ensures Wedged(r.states[k])
    ensures forall m: nat :: i <= m < k ==> NothingTried(r, m)
    decreases k
  {
    if i < k {
      FailingDisconnectWedgesMqtt(cfg, r, i, k - 1);
      assert NoHelp(r, k - 1);
      WedgeGoesOn(cfg, r, k - 1);
    }
  }

  lemma WorkerStepActs(cfg: Config, r: Run, k: nat)
    requires IsPath(cfg, r) && k < |r.labels| && r.labels[k].Work?
    ensures var w := r.labels[k].w; w < |r.states[k].workers| && Acts(r, k, w, r.states[k].workers[w].pc)
  {
    StepAt(cfg, r, k);
  }

  lemma WedgeGoesOn(cfg: Config, r: Run, k: nat)
    requires IsRun(cfg, r) && k < |r.labels| && cfg.kind.Mqtt? && Wedged(r.states[k]) && NoHelp(r, k)
    ensures Wedged(r.states[k + 1]) && NothingTried(r, k)
  {
    StepAt(cfg, r, k);
    LifecycleAt(cfg, r, k);
    if r.labels[k].Work? {
      WorkerStepActs(cfg, r, k);
    }
    StepKeepsWedged(cfg, r.states[k], r.labels[k]);
  }

  // SomeipClient ignores what its disconnect says. So over SOME/IP, in every run, the loop never gives up on the
  // link without having attempted a connect in the same iteration and failed.
  lemma SomeipAlwaysAttemptsConnect(cfg: Config, r: Run, k: nat, w: nat) returns (c: nat)
    requires IsRun(cfg, r) && cfg.kind.Someip? && Acts(r, k, w, StoreLinkFail)
    ensures c < k && Acts(r, c, w, ReconnectConnect) && !r.states[c].connected && !r.labels[c].a.ok
    ensures forall j: nat :: c < j < k ==> !Acts(r, j, w, LoopHead)
  {
    WiredAt(cfg, r, k);
    c := Origin(cfg, r, k, w);
  }

  // ----- What piles up -----

  lemma StepOnlyAppends(cfg: Config, s: Service, l: Label)
    requires Enabled(cfg, s, l)
    ensures s.telemetry.pending <= Apply(cfg, s, l).telemetry.pending
    ensures s.telemetry.delivered <= Apply(cfg, s, l).telemetry.delivered
    ensures s.telemetry.generated <= Apply(cfg, s, l).telemetry.generated
  {
    match l
    case Work(w, a) => WorkFrames(cfg, s, w, a);
    case Control(a) => ControlLeavesBooks(cfg, s, a);
    case _ =>
  }

  lemma ControlLeavesBooks(cfg: Config, s: Service, a: Answer)
    ensures ControlStep(cfg, s, a).telemetry == s.telemetry
  {
  }

  // The loop never flushes: the pending queue only ever grows, at its end.
  lemma {:induction false} BacklogOnlyGrows(cfg: Config, r: Run, i: nat, k: nat)
    requires IsRun(cfg, r) && i <= k <= |r.labels|
    ensures r.states[i].telemetry.pending <= r.states[k].telemetry.pending
    ensures r.states[i].telemetry.delivered <= r.states[k].telemetry.delivered
    decreases k
  {
    if i < k {
      BacklogOnlyGrows(cfg, r, i, k - 1);
      StepAt(cfg, r, k - 1);
      StepOnlyAppends(cfg, r.states[k - 1], r.labels[k - 1]);
    }
  }

  // And it holds exactly the samples that were not delivered, each once, in the order they were generated.
  lemma BacklogIsWhatWasNotDelivered(cfg: Config, r: Run, k: nat)
    requires IsRun(cfg, r) && k <= |r.labels| && !InHand(r.states[k])
    ensures var t := r.states[k].telemetry;
      && |t.pending| == t.generated - |t.delivered|
      && (forall x: nat :: x < t.generated ==> (x in t.pending <==> x !in t.delivered))
      && (forall x :: x in t.pending || x in t.delivered ==> x < t.generated)
      && Increasing(t.pending) && Increasing(t.delivered)
  {
    InvAlways(cfg, r, k);
  }
}
