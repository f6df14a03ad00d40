/** How often the loop may call out, and how much it sleeps, over every run and across restarts. */
module ServicePacing {
  import opened AuthClients
  import opened ServiceModel
  import opened ServiceInvariant
  import opened ServiceRuns
  import T = Transports

  datatype Call = LoopPublish | TokenRefresh

  function Position(c: Call): (pc: WorkerPc)
    ensures c.LoopPublish? ==> pc == Publish
    ensures c.TokenRefresh? ==> pc == Refresh
  {
    if c.LoopPublish? then Publish else Refresh
  }

  function Gap(c: Call): (d: int)
    ensures c.LoopPublish? ==> d == 5_000_000_000
    ensures c.TokenRefresh? ==> d == 2_000_000_000
  {
    if c.LoopPublish? then PUBLISH_INTERVAL else RECONNECT_DELAY
  }

  // Positions between the call and the sleep that ends the iteration.
  predicate Following(c: Call, pc: WorkerPc) {
    match c
    case LoopPublish => Holding(pc)
    case TokenRefresh =>
      pc.ReadFresh? || pc.StorePublishing? || pc.StoreTokenFail? || LinkPhase(pc) || PublishPhase(pc)
  }

  // Until the gap after `since` is over, the caller is still on its way to, or in, a sleep that covers it.
  predicate Held(c: Call, s: Service, w: nat, since: int) {
    && since <= s.now
    && (|| since + Gap(c) <= s.now
        || (&& w == |s.workers| - 1
            && var me := s.workers[w];
            (Following(c, me.pc) || (me.pc == Sleeping && since + Gap(c) <= me.wakeAt))))
  }

  lemma CallBeginsHold(cfg: Config, c: Call, s: Service, w: nat, a: Answer)
    requires w == |s.workers| - 1 && s.workers[w].pc == Position(c)
    ensures Held(c, WorkStep(cfg, s, w, a), w, s.now)
  {
    EffectFrame(cfg, s, s.workers[w].pc, a);
  }

  lemma HolderKeepsHold(cfg: Config, c: Call, s: Service, w: nat, a: Answer, since: int)
    requires Enabled(cfg, s, Work(w, a)) && Held(c, s, w, since)
    ensures Held(c, WorkStep(cfg, s, w, a), w, since)
  {
    WorkFrames(cfg, s, w, a);
  }

  lemma OthersKeepHold(cfg: Config, c: Call, s: Service, l: Label, w: nat, since: int)
    requires Lifecycle(s) && Enabled(cfg, s, l) && Held(c, s, w, since) && !StepOf(l, w)
    ensures Held(c, Apply(cfg, s, l), w, since)
  {
    ClockNeverGoesBack(cfg, s, l);
    if s.now < since + Gap(c) {
      OthersKeepPosition(cfg, s, l, w);
      NoSpawnWhileAlive(cfg, s, l, w);
    }
  }

  lemma ClockNeverGoesBack(cfg: Config, s: Service, l: Label)
    requires Enabled(cfg, s, l)
    ensures s.now <= Apply(cfg, s, l).now
    ensures !l.Tick? ==> s.now == Apply(cfg, s, l).now
  {
    match l
    case Work(w, a) => WorkFrames(cfg, s, w, a);
    case _ =>
  }

  lemma NoSpawnWhileAlive(cfg: Config, s: Service, l: Label, w: nat)
    requires Lifecycle(s) && Enabled(cfg, s, l) && w < |s.workers| && s.workers[w].pc != Exited
    ensures |Apply(cfg, s, l).workers| == |s.workers|
  {
    match l
    case Control(a) => ControlKeepsPositions(cfg, s, a);
    case Work(v, a) => WorkFrames(cfg, s, v, a);
    case _ =>
  }

  lemma StepKeepsHold(cfg: Config, c: Call, s: Service, l: Label, w: nat, since: int)
    requires Lifecycle(s) && Enabled(cfg, s, l) && Held(c, s, w, since)
    ensures Held(c, Apply(cfg, s, l), w, since)
  {
    if StepOf(l, w) {
      HolderKeepsHold(cfg, c, s, w, l.a, since);
    } else {
      OthersKeepHold(cfg, c, s, l, w, since);
    }
  }

  lemma {:induction false} HeldUntil(cfg: Config, r: Run, c: Call, i: nat, k: nat, w: nat)
    requires IsRun(cfg, r) && i < k <= |r.labels| && Acts(r, i, w, Position(c))
    ensures Held(c, r.states[k], w, r.states[i].now)
  {
    if i + 1 == k {
      HoldBegins(cfg, r, c, i, w);
    } else {
      HeldUntil(cfg, r, c, i, k - 1, w);
      HoldGoesOn(cfg, r, c, k - 1, w, r.states[i].now);
    }
  }

  lemma HoldBegins(cfg: Config, r: Run, c: Call, i: nat, w: nat)
    requires IsRun(cfg, r) && Acts(r, i, w, Position(c))
    ensures Held(c, r.states[i + 1], w, r.states[i].now)
  {
    OnlyTheLastMoves(cfg, r, i, w);
    StepAt(cfg, r, i);
    CallBeginsHold(cfg, c, r.states[i], w, r.labels[i].a);
  }

  lemma HoldGoesOn(cfg: Config, r: Run, c: Call, k: nat, w: nat, since: int)
    requires IsRun(cfg, r) && k < |r.labels| && Held(c, r.states[k], w, since)
    ensures Held(c, r.states[k + 1], w, since)
  {
    StepAt(cfg, r, k);
    LifecycleAt(cfg, r, k);
    StepKeepsHold(cfg, c, r.states[k], r.labels[k], w, since);
  }

  lemma OnlyTheLastMoves(cfg: Config, r: Run, i: nat, w: nat)
    requires IsRun(cfg, r) && i < |r.labels| && StepOf(r.labels[i], w)
    ensures w == |r.states[i].workers| - 1
  {
    StepAt(cfg, r, i);
    LifecycleAt(cfg, r, i);
  }

  // Two loop publishes are at least 5 seconds apart and two refreshes at least 2, even when they come from
  // different workers with a `stop` and a `start` in between.
  lemma CallsAreSpaced(cfg: Config, r: Run, c: Call, i: nat, j: nat, w: nat, v: nat)
    requires IsRun(cfg, r) && i < j
    requires Acts(r, i, w, if c.LoopPublish? then Publish else Refresh)
    requires Acts(r, j, v, if c.LoopPublish? then Publish else Refresh)
    ensures r.states[i].now + (if c.LoopPublish? then 5_000_000_000 else 2_000_000_000) <= r.states[j].now
  {
    HeldUntil(cfg, r, c, i, j, w);
    OnlyTheLastMoves(cfg, r, j, v);
  }

  ghost predicate IsCall(r: Run, c: Call, i: nat) {
    exists w: nat :: Acts(r, i, w, Position(c))
  }

  // `at` lists steps, in order, at which some worker makes the call.
  ghost predicate CallSteps(r: Run, c: Call, at: seq<nat>) {
    && (forall n :: 0 <= n < |at| ==> IsCall(r, c, at[n]))
    && (forall m, n :: 0 <= m < n < |at| ==> at[m] < at[n])
  }

  lemma {:induction false} CallsTakeTime(cfg: Config, r: Run, c: Call, at: seq<nat>)
    requires IsRun(cfg, r) && CallSteps(r, c, at) && |at| > 0
    ensures r.states[at[0]].now + (|at| - 1) * Gap(c) <= r.states[at[|at| - 1]].now
  {
    if |at| > 1 {
      var n := |at| - 1;
      CallsTakeTime(cfg, r, c, at[..n]);
      assert IsCall(r, c, at[n - 1]) && IsCall(r, c, at[n]);
      var w: nat :| Acts(r, at[n - 1], w, Position(c));
      var v: nat :| Acts(r, at[n], v, Position(c));
      CallsAreSpaced(cfg, r, c, at[n - 1], at[n], w, v);
      assert (n - 1) * Gap(c) + Gap(c) == n * Gap(c);
    }
  }

  // At most T / 5 + 1 loop publishes, and T / 2 + 1 refreshes, fit in any window of T.
  lemma CallsInWindow(cfg: Config, r: Run, c: Call, at: seq<nat>, window: nat)
    requires IsRun(cfg, r) && CallSteps(r, c, at) && |at| > 0
    requires r.states[at[|at| - 1]].now <= r.states[at[0]].now + window
    ensures |at| <= window / (if c.LoopPublish? then 5_000_000_000 else 2_000_000_000) + 1
  {
    CallsTakeTime(cfg, r, c, at);
    assert Gap(c) == if c.LoopPublish? then 5_000_000_000 else 2_000_000_000;
  }

  // ----- The sleep ledger -----

  predicate FailedRefresh(cfg: Config, s: Service, l: Label) {
    && l.Work? && l.w < |s.workers|
    && var pc := s.workers[l.w].pc;
    || (pc == Refresh && !Accepted(cfg.hasAuthBackend, l.a.reply))
    || (pc == ReadFresh && s.tokens.token == "")
  }

  predicate FailedReconnect(cfg: Config, s: Service, l: Label) {
    && l.Work? && l.w < |s.workers|
    && var pc := s.workers[l.w].pc;
    || (pc == ReconnectDisconnect && !T.DisconnectResult(cfg.kind, l.a.ok))
    || (pc == ReconnectConnect && !T.ConnectResult(s.connected, l.a.ok))
  }

  predicate ReachedPublish(s: Service, l: Label) {
    l.Work? && l.w < |s.workers| && s.workers[l.w].pc == Publish
  }

  // How long the sleep entered by this step is going to last.
  function SleepEntered(s: Service, l: Label, s': Service): int {
    if l.Work? && l.w < |s.workers| && l.w < |s'.workers|
       && s.workers[l.w].pc != Sleeping && s'.workers[l.w].pc == Sleeping
    then s'.workers[l.w].wakeAt - s'.now
    else 0
  }

  ghost function Slept(r: Run, k: nat): int
    requires k < |r.states| && k <= |r.labels|
  {
    if k == 0 then 0 else Slept(r, k - 1) + SleepEntered(r.states[k - 1], r.labels[k - 1], r.states[k])
  }

  function One(b: bool): nat {
    if b then 1 else 0
  }

  ghost function FailedAttempts(cfg: Config, r: Run, k: nat): nat
    requires k < |r.states| && k <= |r.labels|
  {
    if k == 0 then 0
    else FailedAttempts(cfg, r, k - 1) + One(FailedRefresh(cfg, r.states[k - 1], r.labels[k - 1]))
         + One(FailedReconnect(cfg, r.states[k - 1], r.labels[k - 1]))
  }

  ghost function IterationsPublishing(r: Run, k: nat): nat
    requires k < |r.states| && k <= |r.labels|
  {
    if k == 0 then 0 else IterationsPublishing(r, k - 1) + One(ReachedPublish(r.states[k - 1], r.labels[k - 1]))
  }

  function OwedAt(pc: WorkerPc): int {
    if pc.StoreTokenFail? || pc.StoreLinkFail? then RECONNECT_DELAY
    else if Holding(pc) then PUBLISH_INTERVAL
    else 0
  }

  // The sleep that the iteration under way has earned but not entered.
  function Owed(s: Service): int {
    if |s.workers| > 0 then OwedAt(s.workers[|s.workers| - 1].pc) else 0
  }

  // What a step adds to the sleep the loop has earned.
  function Charge(cfg: Config, s: Service, l: Label): int {
    if FailedRefresh(cfg, s, l) || FailedReconnect(cfg, s, l) then RECONNECT_DELAY
    else if ReachedPublish(s, l) then PUBLISH_INTERVAL
    else 0
  }

  lemma PositionOwes(cfg: Config, s: Service, w: nat, a: Answer)
    requires w < |s.workers| && cfg.hasTransport
    ensures var pc, pc' := s.workers[w].pc, NextPc(cfg, s, s.workers[w], a);
      (if pc != Sleeping && pc' == Sleeping then Pause(pc) else 0) + OwedAt(pc')
      == OwedAt(pc) + Charge(cfg, s, Work(w, a))
  {
  }

  lemma SleepEnteredByWork(cfg: Config, s: Service, w: nat, a: Answer)
    requires w < |s.workers|
    ensures var pc, pc' := s.workers[w].pc, NextPc(cfg, s, s.workers[w], a);
      && SleepEntered(s, Work(w, a), WorkStep(cfg, s, w, a))
         == (if pc != Sleeping && pc' == Sleeping then Pause(pc) else 0)
      && |WorkStep(cfg, s, w, a).workers| == |s.workers|
      && WorkStep(cfg, s, w, a).workers[w].pc == pc'
  {
    EffectFrame(cfg, s, s.workers[w].pc, a);
  }

  lemma OthersOweTheSame(cfg: Config, s: Service, l: Label)
    requires Lifecycle(s) && Enabled(cfg, s, l) && !l.Work?
    ensures Owed(Apply(cfg, s, l)) == Owed(s)
  {
    NewWorkersStartAtHead(cfg, s, l);
    if |s.workers| > 0 {
      OthersKeepPosition(cfg, s, l, |s.workers| - 1);
    }
    if |Apply(cfg, s, l).workers| > |s.workers| && |s.workers| > 0 {
      assert s.workers[|s.workers| - 1].pc == Exited by {
        if s.workers[|s.workers| - 1].pc != Exited {
          NoSpawnWhileAlive(cfg, s, l, |s.workers| - 1);
        }
      }
    }
  }

  lemma WorkOwes(cfg: Config, s: Service, w: nat, a: Answer)
    requires w == |s.workers| - 1 && cfg.hasTransport
    ensures var l, s' := Work(w, a), WorkStep(cfg, s, w, a);
      SleepEntered(s, l, s') + Owed(s') == Owed(s) + Charge(cfg, s, l)
  {
    SleepEnteredByWork(cfg, s, w, a);
    PositionOwes(cfg, s, w, a);
  }

  lemma StepOwes(cfg: Config, s: Service, l: Label)
    requires Lifecycle(s) && Enabled(cfg, s, l) && (|s.workers| > 0 ==> cfg.hasTransport)
    ensures SleepEntered(s, l, Apply(cfg, s, l)) + Owed(Apply(cfg, s, l)) == Owed(s) + Charge(cfg, s, l)
  {
    if l.Work? {
      OnlyTheLastWorks(cfg, s, l.w, l.a);
      WorkOwes(cfg, s, l.w, l.a);
    } else {
      OthersOweTheSame(cfg, s, l);
    }
  }

  ghost function Charged(cfg: Config, r: Run, k: nat): int
    requires k < |r.states| && k <= |r.labels|
  {
    if k == 0 then 0 else Charged(cfg, r, k - 1) + Charge(cfg, r.states[k - 1], r.labels[k - 1])
  }

  lemma {:induction false} ChargedByKind(cfg: Config, r: Run, k: nat)
    requires k < |r.states| && k <= |r.labels|
    ensures Charged(cfg, r, k)
            == RECONNECT_DELAY * FailedAttempts(cfg, r, k) + PUBLISH_INTERVAL * IterationsPublishing(r, k)
  {
    if k > 0 {
      ChargedByKind(cfg, r, k - 1);
      var s, l := r.states[k - 1], r.labels[k - 1];
      var n := FailedAttempts(cfg, r, k - 1);
      assert !(FailedRefresh(cfg, s, l) && FailedReconnect(cfg, s, l));
      assert RECONNECT_DELAY * (n + 1) == RECONNECT_DELAY * n + RECONNECT_DELAY;
    }
  }

  lemma {:induction false} SleptWhatWasCharged(cfg: Config, r: Run, k: nat)
    requires IsRun(cfg, r) && k <= |r.labels|
    ensures Slept(r, k) + Owed(r.states[k]) == Charged(cfg, r, k)
  {
    if k > 0 {
      SleptWhatWasCharged(cfg, r, k - 1);
      StepAt(cfg, r, k - 1);
      LifecycleAt(cfg, r, k - 1);
      if |r.states[k - 1].workers| > 0 {
        WiredAt(cfg, r, k - 1);
      }
      StepOwes(cfg, r.states[k - 1], r.labels[k - 1]);
    }
  }

  // A worker on its way from a failed attempt to its sleep still owes 2 seconds, one from its publish 5.
  function StillOwed(pc: WorkerPc): (d: int)
    ensures pc in {StoreTokenFail, StoreLinkFail} ==> d == 2_000_000_000
    ensures pc in {PublishCheck, PublishSend, PublishQueue} ==> d == 5_000_000_000
    ensures pc !in {StoreTokenFail, StoreLinkFail, PublishCheck, PublishSend, PublishQueue} ==> d == 0
  {
    OwedAt(pc)
  }

  // In every run the sleeps entered are exactly 2 seconds for each failed refresh or reconnect and 5 for each
  // iteration that reached publish, up to what the current iteration still owes.
  lemma SleepLedger(cfg: Config, r: Run, k: nat)
    requires IsRun(cfg, r) && k <= |r.labels|
    ensures var workers := r.states[k].workers;
      Slept(r, k) + (if workers == [] then 0 else StillOwed(workers[|workers| - 1].pc))
            == 2_000_000_000 * FailedAttempts(cfg, r, k) + 5_000_000_000 * IterationsPublishing(r, k)
  {
    SleptWhatWasCharged(cfg, r, k);
    ChargedByKind(cfg, r, k);
  }

  // What is left of a sleep under way.
  function Unslept(s: Service): int {
    if |s.workers| > 0 && s.workers[|s.workers| - 1].pc == Sleeping && s.now < s.workers[|s.workers| - 1].wakeAt
    then s.workers[|s.workers| - 1].wakeAt - s.now
    else 0
  }

  lemma StepSleepsInTime(cfg: Config, s: Service, l: Label)
    requires Lifecycle(s) && Enabled(cfg, s, l)
    ensures var s' := Apply(cfg, s, l);
      SleepEntered(s, l, s') + Unslept(s) <= s'.now - s.now + Unslept(s')
  {
    ClockNeverGoesBack(cfg, s, l);
    if l.Work? {
      OnlyTheLastWorks(cfg, s, l.w, l.a);
      WorkSleepsInTime(cfg, s, l.w, l.a);
    } else if |s.workers| > 0 {
      OthersKeepPosition(cfg, s, l, |s.workers| - 1);
      if s.workers[|s.workers| - 1].pc != Exited {
        NoSpawnWhileAlive(cfg, s, l, |s.workers| - 1);
      }
    }
  }

  lemma WorkSleepsInTime(cfg: Config, s: Service, w: nat, a: Answer)
    requires w == |s.workers| - 1 && (s.workers[w].pc == Sleeping ==> s.workers[w].wakeAt <= s.now)
    ensures var s' := WorkStep(cfg, s, w, a);
      SleepEntered(s, Work(w, a), s') + Unslept(s) <= s'.now - s.now + Unslept(s')
  {
    EffectFrame(cfg, s, s.workers[w].pc, a);
  }

  // Sleeps never overlap: the clock has covered all of them but the rest of the current one.
  lemma {:induction false} ClockCoversSleeps(cfg: Config, r: Run, k: nat)
    requires IsRun(cfg, r) && k <= |r.labels|
    ensures Slept(r, k) <= r.states[k].now - r.states[0].now + Unslept(r.states[k])
  {
    if k > 0 {
      ClockCoversSleeps(cfg, r, k - 1);
      StepAt(cfg, r, k - 1);
      LifecycleAt(cfg, r, k - 1);
      StepSleepsInTime(cfg, r.states[k - 1], r.labels[k - 1]);
    }
  }
}
