/** What becomes of the lifecycle if a call made by `start` throws. Nothing in `start` catches it. */
module ServiceThrows {
  import opened Basics
  import opened ServiceModel
  import opened ServiceInvariant

  // The calls of `start` an exception can come out of: the authentication backend and the transport that were handed
  // in, and the creation of the thread.
  predicate CanThrow(cfg: Config, s: Service) {
    || (s.control == StartAuthenticate && cfg.hasAuth)
    || (s.control == StartConnect && cfg.hasTransport)
    || s.control == StartSpawn
  }

  datatype Step = Ordinary(l: Label) | StartThrows

  // The exception leaves `start` at once, past the statements that would have cleaned up.
  ghost predicate Goes(cfg: Config, s: Service, step: Step, s': Service) {
    match step
    case Ordinary(l) => Next(cfg, s, l, s')
    case StartThrows => CanThrow(cfg, s) && s' == s.(control := Idle)
  }

  datatype ThrowingRun = ThrowingRun(steps: seq<Step>, states: seq<Service>)

  ghost predicate IsThrowingRun(cfg: Config, r: ThrowingRun) {
    && |r.states| == |r.steps| + 1
    && Initial(r.states[0])
    && (forall i :: 0 <= i < |r.steps| ==> Goes(cfg, r.states[i], r.steps[i], r.states[i + 1]))
  }

  // `running_` is set, or a `stop` has found it set, and there is no thread.
  predicate Stranded(s: Service) {
    && s.handle == None && AllExited(s)
    && ((s.control == Idle && s.running) || s.control == StopRequest || s.control == StopJoin || s.control == Crashed)
  }

  ghost predicate Threw(r: ThrowingRun, k: nat) {
    exists i :: 0 <= i < k && i < |r.steps| && r.steps[i].StartThrows?
  }

  lemma ThrowStrands(cfg: Config, s: Service)
    requires Lifecycle(s) && CanThrow(cfg, s)
    ensures Stranded(s.(control := Idle))
  {
  }

  lemma StaysStranded(cfg: Config, s: Service, l: Label)
    requires Stranded(s) && Enabled(cfg, s, l)
    ensures Stranded(Apply(cfg, s, l)) && Apply(cfg, s, l).workers == s.workers
    ensures l == CallStart ==> Apply(cfg, s, l) == s
  {
  }

  lemma NeverBoth(s: Service)
    requires Lifecycle(s)
    ensures !Stranded(s)
  {
  }

  // Everything said about threads holds of the states of any run if and only if no call of `start` has thrown so far;
  // once one has, the service is stranded for good.
  lemma {:induction false} LifecycleIffNothingThrew(cfg: Config, r: ThrowingRun, k: nat)
    requires IsThrowingRun(cfg, r) && k <= |r.steps|
    ensures Lifecycle(r.states[k]) <==> !Threw(r, k)
    ensures Stranded(r.states[k]) <==> Threw(r, k)
  {
    if k > 0 {
      LifecycleIffNothingThrew(cfg, r, k - 1);
      assert Goes(cfg, r.states[k - 1], r.steps[k - 1], r.states[k - 1 + 1]);
      OneStepOn(cfg, r.states[k - 1], r.steps[k - 1], r.states[k]);
      assert Threw(r, k) <==> Threw(r, k - 1) || r.steps[k - 1].StartThrows?;
    }
  }

  lemma OneStepOn(cfg: Config, s: Service, step: Step, s': Service)
    requires Goes(cfg, s, step, s') && (Lifecycle(s) || Stranded(s))
    ensures if Stranded(s) || step.StartThrows? then Stranded(s') && !Lifecycle(s') else Lifecycle(s') && !Stranded(s')
  {
    match step
    case StartThrows =>
      if Lifecycle(s) {
        ThrowStrands(cfg, s);
      }
    case Ordinary(l) =>
      if Stranded(s) {
        StaysStranded(cfg, s, l);
      } else {
        StepKeepsLifecycle(cfg, s, l);
        NeverBoth(s');
      }
    if Lifecycle(s') {
      NeverBoth(s');
    }
  }

  // After a throw every `start` reports success and does nothing, and the next `stop` joins a thread that does not
  // exist.
  lemma NextStopJoinsNothing(cfg: Config, r: ThrowingRun, k: nat, a: Answer, b: Answer)
    requires IsThrowingRun(cfg, r) && k <= |r.steps| && Threw(r, k) && r.states[k].control == Idle
    ensures var s := r.states[k];
      Enabled(cfg, s, CallStart) && Apply(cfg, s, CallStart) == s && Enabled(cfg, s, CallStop)
    ensures var s1 := Apply(cfg, r.states[k], CallStop);
      && Enabled(cfg, s1, Control(a)) && Enabled(cfg, Apply(cfg, s1, Control(a)), Control(b))
      && Apply(cfg, Apply(cfg, s1, Control(a)), Control(b)).control == Crashed
  {
    LifecycleIffNothingThrew(cfg, r, k);
  }

  // And only then does a `stop` do that.
  lemma OnlyThrowsLeadToCrash(cfg: Config, r: ThrowingRun, k: nat)
    requires IsThrowingRun(cfg, r) && k <= |r.steps| && r.states[k].control == Crashed
    ensures Threw(r, k)
  {
    LifecycleIffNothingThrew(cfg, r, k);
  }
}
