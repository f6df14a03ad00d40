/** Looking back along a run: which step brought a worker to where it is. */
module ServiceRuns {
  import opened ServiceModel
  import opened ServiceInvariant

  // The controller never moves a worker; only spawning adds one.
  lemma ControlKeepsPositions(cfg: Config, s: Service, a: Answer)
    requires s.control != StartSpawn
    ensures var s' := ControlStep(cfg, s, a);
      && |s'.workers| == |s.workers|
      && forall w :: 0 <= w < |s.workers| ==>
           s'.workers[w].pc == s.workers[w].pc && s'.workers[w].wakeAt == s.workers[w].wakeAt
           && (s.workers[w].stop ==> s'.workers[w].stop)
  {
    if !TouchesWorkers(s) && s.control != Idle && s.control != Crashed {
      StoresFrame(cfg, s, a);
    }
  }

  lemma OthersKeepPosition(cfg: Config, s: Service, l: Label, w: nat)
    requires Enabled(cfg, s, l) && w < |s.workers| && !(l.Work? && l.w == w)
    ensures var s' := Apply(cfg, s, l);
      && |s'.workers| >= |s.workers|
      && s'.workers[w].pc == s.workers[w].pc && s'.workers[w].wakeAt == s.workers[w].wakeAt
      && (s.workers[w].stop ==> s'.workers[w].stop)
  {
    match l
    case Control(a) =>
      if s.control != StartSpawn {
        ControlKeepsPositions(cfg, s, a);
      }
    case Work(v, a) => WorkFrames(cfg, s, v, a);
    case _ =>
  }

  // Only a spawn adds a worker, and it starts at the loop head.
  lemma NewWorkersStartAtHead(cfg: Config, s: Service, l: Label)
    requires Enabled(cfg, s, l)
    ensures var s' := Apply(cfg, s, l);
      && |s.workers| <= |s'.workers| <= |s.workers| + 1
      && (|s'.workers| > |s.workers| ==> s'.workers[|s.workers|].pc == LoopHead)
  {
    match l
    case Control(a) =>
      if s.control != StartSpawn {
        ControlKeepsPositions(cfg, s, a);
      }
    case Work(v, a) => WorkFrames(cfg, s, v, a);
    case _ =>
  }

  predicate StepOf(l: Label, w: nat) {
    l.Work? && l.w == w
  }

  // Between two states of a run a worker has made its own next step, stayed where it was, or been spawned.
  lemma StayOrStep(cfg: Config, r: Run, k: nat, w: nat)
    requires IsPath(cfg, r) && k < |r.labels| && w < |r.states[k].workers|
    ensures w < |r.states[k + 1].workers|
    ensures var me, me' := r.states[k].workers[w], r.states[k + 1].workers[w];
      && me'.pc == (if StepOf(r.labels[k], w) then NextPc(cfg, r.states[k], me, r.labels[k].a) else me.pc)
      && (me.stop ==> me'.stop)
      && (StepOf(r.labels[k], w) ==> me.pc != Exited)
  {
    StepAt(cfg, r, k);
    if StepOf(r.labels[k], w) {
      WorkFrames(cfg, r.states[k], w, r.labels[k].a);
    } else {
      OthersKeepPosition(cfg, r.states[k], r.labels[k], w);
    }
  }

  lemma SpawnedAtHead(cfg: Config, r: Run, k: nat, w: nat)
    requires IsPath(cfg, r) && k < |r.labels| && w < |r.states[k + 1].workers|
    requires r.states[k + 1].workers[w].pc != LoopHead
    ensures w < |r.states[k].workers|
  {
    StepAt(cfg, r, k);
    NewWorkersStartAtHead(cfg, r.states[k], r.labels[k]);
  }

  lemma BackOne(cfg: Config, r: Run, k: nat, w: nat)
    requires IsRun(cfg, r) && k <= |r.labels|
    requires w < |r.states[k].workers| && r.states[k].workers[w].pc != LoopHead
    ensures k > 0 && w < |r.states[k - 1].workers|
    ensures StepOf(r.labels[k - 1], w) ==>
              r.states[k].workers[w].pc == NextPc(cfg, r.states[k - 1], r.states[k - 1].workers[w], r.labels[k - 1].a)
    ensures !StepOf(r.labels[k - 1], w) ==> r.states[k].workers[w].pc == r.states[k - 1].workers[w].pc
  {
    SpawnedAtHead(cfg, r, k - 1, w);
    StayOrStep(cfg, r, k - 1, w);
  }

  // The last step worker `w` took before state `k`, if it is no longer where it was spawned.
  lemma {:induction false} Origin(cfg: Config, r: Run, k: nat, w: nat) returns (m: nat)
    requires IsRun(cfg, r) && k <= |r.labels|
    requires w < |r.states[k].workers| && r.states[k].workers[w].pc != LoopHead
    ensures m < k && StepOf(r.labels[m], w)
    ensures w < |r.states[m].workers| && Acts(r, m, w, r.states[m].workers[w].pc)
    ensures r.states[k].workers[w].pc == NextPc(cfg, r.states[m], r.states[m].workers[w], r.labels[m].a)
    ensures forall j :: m < j < k ==> !StepOf(r.labels[j], w)
  {
    BackOne(cfg, r, k, w);
    if StepOf(r.labels[k - 1], w) {
      m := k - 1;
    } else {
      m := Origin(cfg, r, k - 1, w);
    }
  }
}
