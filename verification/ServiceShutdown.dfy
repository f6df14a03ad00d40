/** Lifecycle and shutdown, over every run. */
module ServiceShutdown {
  import opened Basics
  import opened ServiceModel
  import opened ServiceInvariant
  import opened ServiceRuns

  predicate Alive(s: Service, w: nat) {
    w < |s.workers| && s.workers[w].pc != Exited
  }

  // Between calls `running_` says whether `worker_` holds a thread; no thread is ever joined twice, dropped
  // while it runs, or doubled.
  lemma LifecycleAlways(cfg: Config, r: Run, k: nat)
    requires IsRun(cfg, r) && k <= |r.labels|
    ensures var s := r.states[k];
      && (s.control == Idle ==> s.running == s.handle.Some?)
      && (forall i: nat, j: nat :: Alive(s, i) && Alive(s, j) ==> i == j)
      && (s.control == Idle && s.handle == None ==> forall i: nat :: !Alive(s, i))
      && (s.control == StopJoin ==> s.handle == Some(|s.workers| - 1))
      && (s.control == StartAssign ==> s.handle == None)
      && s.control != Crashed && s.control != StartAssignJoin
  {
    InvAlways(cfg, r, k);
  }

  // A `start` that returns false leaves no thread behind, and the next `start` runs again from the beginning.
  lemma FailedStartCanBeRetried(cfg: Config, r: Run, k: nat)
    requires IsRun(cfg, r) && k < |r.labels|
    requires r.labels[k].Control? && r.states[k].control == StartFailClear
    ensures var s := r.states[k + 1];
      && s.control == Idle && !s.running && s.handle == None && AllExited(s)
      && s.state == Disconnected
      && Enabled(cfg, s, CallStart) && Apply(cfg, s, CallStart).control == StartStoreStarting
  {
    InvAlways(cfg, r, k);
    InvAlways(cfg, r, k + 1);
    StepAt(cfg, r, k);
  }

  // Step `i` is the last one of a `stop` that found the service running.
  ghost predicate StopReturns(r: Run, i: nat) {
    i < |r.labels| && i < |r.states| && r.labels[i].Control? && r.states[i].control == StopStore
  }

  ghost predicate Spawns(r: Run, i: nat) {
    i < |r.labels| && i < |r.states| && r.labels[i].Control? && r.states[i].control == StartSpawn
  }

  // The service is fully at rest.
  predicate AtRest(s: Service) {
    s.control == Idle && !s.running && s.handle == None && AllExited(s) && s.state == Stopped
  }

  lemma LastStoreRests(cfg: Config, s: Service, a: Answer)
    requires Lifecycle(s) && s.control == StopStore
    ensures AtRest(ControlStep(cfg, s, a)) && |s.workers| > 0
  {
  }

  lemma RestStays(cfg: Config, s: Service, l: Label)
    requires AtRest(s) && Enabled(cfg, s, l) && l != CallStart
    ensures AtRest(Apply(cfg, s, l)) && |Apply(cfg, s, l).workers| == |s.workers|
  {
  }

  lemma DownAtRest(cfg: Config, r: Run, k: nat)
    requires IsRun(cfg, r) && k <= |r.labels| && AtRest(r.states[k]) && |r.states[k].workers| > 0
    ensures r.states[k].connected ==> LinkHelped(r, k)
  {
    InvAlways(cfg, r, k);
    HelpIsHelped(r, k);
  }

  // After `stop` returned and until `start` is called again: `Stopped`, every thread gone, and the transport
  // disconnected, unless somebody else has connected it after the worker's last disconnect.
  lemma StoppedMeansStopped(cfg: Config, r: Run, i: nat, k: nat)
    requires IsRun(cfg, r) && StopReturns(r, i) && i < k <= |r.labels|
    requires forall m :: i < m < k ==> r.labels[m] != CallStart
    ensures AtRest(r.states[k])
    ensures r.states[k].connected ==> LinkHelped(r, k)
  {
    RestsSinceStop(cfg, r, i, k);
    DownAtRest(cfg, r, k);
  }

  lemma {:induction false} RestsSinceStop(cfg: Config, r: Run, i: nat, k: nat)
    requires IsRun(cfg, r) && StopReturns(r, i) && i < k <= |r.labels|
    requires forall m :: i < m < k ==> r.labels[m] != CallStart
    ensures AtRest(r.states[k]) && |r.states[k].workers| > 0
  {
    if i + 1 == k {
      RestsAfterStop(cfg, r, i);
    } else {
      RestsSinceStop(cfg, r, i, k - 1);
      StepAt(cfg, r, k - 1);
      RestStays(cfg, r.states[k - 1], r.labels[k - 1]);
    }
  }

  lemma RestsAfterStop(cfg: Config, r: Run, i: nat)
    requires IsRun(cfg, r) && StopReturns(r, i)
    ensures AtRest(r.states[i + 1]) && |r.states[i + 1].workers| > 0
  {
    StepAt(cfg, r, i);
    LifecycleAt(cfg, r, i);
    LastStoreRests(cfg, r.states[i], r.labels[i].a);
  }

  // No thread takes any step, so none publishes or stores to `state_`, from the return of `stop` to the next
  // spawn, even if calls of `start` fail in between.
  lemma {:induction false} NoWorkerStepUntilNextSpawn(cfg: Config, r: Run, i: nat, k: nat)
    requires IsRun(cfg, r) && StopReturns(r, i) && i < k <= |r.labels|
    requires forall m :: i < m < k ==> !Spawns(r, m)
    ensures AllExited(r.states[k])
    ensures k < |r.labels| ==> !r.labels[k].Work?
  {
    if i + 1 == k {
      InvAlways(cfg, r, i);
    } else {
      NoWorkerStepUntilNextSpawn(cfg, r, i, k - 1);
      assert !Spawns(r, k - 1);
    }
    StepAt(cfg, r, k - 1);
    ExitedStaysExited(cfg, r.states[k - 1], r.labels[k - 1]);
    if k < |r.labels| {
      StepAt(cfg, r, k);
    }
  }

  lemma ExitedStaysExited(cfg: Config, s: Service, l: Label)
    requires AllExited(s) && Enabled(cfg, s, l) && !(l.Control? && s.control == StartSpawn)
    ensures AllExited(Apply(cfg, s, l))
  {
    match l
    case Control(a) => ControlKeepsPositions(cfg, s, a);
    case _ =>
  }
}
