/** What becomes of each telemetry sample the loop generates. */
module ServiceBooks {
  import opened ServiceModel
  import opened ServiceInvariant
  import opened ServiceRuns

  // A worker holding a sample has generated one.
  lemma HoldsASample(cfg: Config, r: Run, k: nat, w: nat, pc: WorkerPc)
    requires IsRun(cfg, r) && Acts(r, k, w, pc) && Holding(pc)
    ensures r.states[k].telemetry.generated > 0
  {
    InvAlways(cfg, r, k);
    StepAt(cfg, r, k);
    OnlyTheLastWorks(cfg, r.states[k], w, r.labels[k].a);
  }

  // publishSample asks the client whether it is connected, and goes on to publish exactly if there is one and it is.
  lemma PublishesIfOnline(cfg: Config, r: Run, k: nat, w: nat)
    requires IsRun(cfg, r) && Acts(r, k, w, PublishCheck)
    ensures w < |r.states[k + 1].workers|
    ensures r.states[k + 1].workers[w].pc ==
      match cfg.managerClient
      case NoClient => PublishQueue
      case SharedClient => if r.states[k].connected then PublishSend else PublishQueue
      case OtherClient => if r.labels[k].a.ok then PublishSend else PublishQueue
  {
    StayOrStep(cfg, r, k, w);
  }

  // Without a client no worker comes to publish.
  lemma SendsOnlyThroughAClient(cfg: Config, r: Run, k: nat, w: nat)
    requires IsRun(cfg, r) && Acts(r, k, w, PublishSend)
    ensures cfg.managerClient != NoClient
  {
    var m := Origin(cfg, r, k, w);
  }

  // The publish of the sample in hand at step `k` goes through: the client says so, and if it is the client that the
  // service drives, it is connected then.
  ghost predicate GoesThrough(cfg: Config, r: Run, k: nat) {
    && k < |r.labels| && k < |r.states|
    && WorksAt(r.states[k], r.labels[k], PublishSend)
    && r.labels[k].a.ok
    && (cfg.managerClient == SharedClient ==> r.states[k].connected)
  }

  lemma StepBooks(cfg: Config, s: Service, l: Label)
    requires Enabled(cfg, s, l)
    requires l.Work? && l.w < |s.workers| && Holding(s.workers[l.w].pc) ==> s.telemetry.generated > 0
    requires WorksAt(s, l, PublishSend) ==> cfg.managerClient != NoClient
    ensures var t, t' := s.telemetry, Apply(cfg, s, l).telemetry;
      && t'.generated == t.generated + (if WorksAt(s, l, Publish) && cfg.hasTelemetry then 1 else 0)
      && t'.pending == t.pending + (if WorksAt(s, l, PublishQueue) then [t.generated - 1] else [])
      && t'.delivered == t.delivered +
           (if WorksAt(s, l, PublishSend) && l.a.ok && (cfg.managerClient == SharedClient ==> s.connected)
            then [t.generated - 1] else [])
  {
    match l
    case Control(a) => ControlKeepsBooks(cfg, s, a);
    case _ =>
  }

  lemma ControlKeepsBooks(cfg: Config, s: Service, a: Answer)
    ensures ControlStep(cfg, s, a).telemetry == s.telemetry
  {
  }

  // In every run: a sample joins the delivered ones exactly when its publish goes through, and joins the queue exactly
  // when the loop queues it; it is the sample last generated, and one is generated by each publish of the loop.
  lemma SampleGoesWhere(cfg: Config, r: Run, k: nat)
    requires IsRun(cfg, r) && k < |r.labels|
    ensures var s, t, t' := r.states[k], r.states[k].telemetry, r.states[k + 1].telemetry;
      && (GoesThrough(cfg, r, k) || WorksAt(s, r.labels[k], PublishQueue) ==> t.generated > 0)
      && t'.delivered == t.delivered + (if GoesThrough(cfg, r, k) then [t.generated - 1] else [])
      && t'.pending == t.pending + (if WorksAt(s, r.labels[k], PublishQueue) then [t.generated - 1] else [])
      && t'.generated == t.generated + (if WorksAt(s, r.labels[k], Publish) && cfg.hasTelemetry then 1 else 0)
  {
    StepAt(cfg, r, k);
    var s, l := r.states[k], r.labels[k];
    if l.Work? {
      var pc := s.workers[l.w].pc;
      if Holding(pc) {
        HoldsASample(cfg, r, k, l.w, pc);
      }
      if pc == PublishSend {
        SendsOnlyThroughAClient(cfg, r, k, l.w);
      }
    }
    StepBooks(cfg, s, l);
  }

  // The loop queues a sample exactly if it cannot be published or its publish does not go through.
  lemma QueuesIfNotThrough(cfg: Config, r: Run, k: nat, w: nat)
    requires IsRun(cfg, r) && Acts(r, k, w, PublishSend)
    ensures w < |r.states[k + 1].workers|
    ensures r.states[k + 1].workers[w].pc == if GoesThrough(cfg, r, k) then Sleeping else PublishQueue
  {
    StayOrStep(cfg, r, k, w);
    SendsOnlyThroughAClient(cfg, r, k, w);
  }

  // Without a client nothing is ever delivered.
  lemma {:induction false} NothingDeliveredWithoutClient(cfg: Config, r: Run, k: nat)
    requires IsRun(cfg, r) && k <= |r.labels| && cfg.managerClient == NoClient
    ensures r.states[k].telemetry.delivered == []
  {
    if k > 0 {
      NothingDeliveredWithoutClient(cfg, r, k - 1);
      SampleGoesWhere(cfg, r, k - 1);
      if GoesThrough(cfg, r, k - 1) {
        SendsOnlyThroughAClient(cfg, r, k - 1, r.labels[k - 1].w);
      }
    }
  }
}
