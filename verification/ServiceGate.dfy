/** What every loop publish can rely on, over every run and interleaving. */
module ServiceGate {
  import opened AuthClients
  import opened ServiceModel
  import opened ServiceInvariant
  import opened ServiceRuns
  import T = Transports

  // Step `s` begins the loop iteration of worker `w` that is still going on at step `k`.
  ghost predicate IterationBegins(r: Run, w: nat, s: nat, k: nat) {
    && s < k
    && Acts(r, s, w, LoopHead) && !r.states[s].workers[w].stop
    && forall m: nat :: s < m < k ==> !Acts(r, m, w, LoopHead)
  }

  // Steps `a` and `b` of worker `w` read a token that was valid and then not empty, or refreshed it and then
  // read it as not empty.
  ghost predicate TokenSeen(cfg: Config, r: Run, w: nat, a: nat, b: nat) {
    && a < b
    && (|| (Acts(r, a, w, ReadValid) && Valid(r.states[a].tokens, r.states[a].now) && Acts(r, b, w, ReadEmpty))
        || (Acts(r, a, w, Refresh) && Accepted(cfg.hasAuthBackend, r.labels[a].a.reply) && Acts(r, b, w, ReadFresh)))
    && r.states[b].tokens.token != ""
  }

  // Step `c` of worker `w` found the transport connected, or reconnected it.
  ghost predicate LinkSeen(r: Run, w: nat, c: nat) {
    || (Acts(r, c, w, CheckLink) && r.states[c].connected)
    || (Acts(r, c, w, ReconnectConnect) && T.ConnectResult(r.states[c].connected, r.labels[c].a.ok))
  }

  predicate PastToken(pc: WorkerPc) {
    LinkPhase(pc) || PublishPhase(pc)
  }

  // Every position past the loop head lies in an iteration.
  lemma {:induction false} IterationOf(cfg: Config, r: Run, k: nat, w: nat) returns (s: nat)
    requires IsRun(cfg, r) && k <= |r.labels|
    requires w < |r.states[k].workers|
    requires var pc := r.states[k].workers[w].pc; !pc.LoopHead? && !pc.FinalDisconnect? && !pc.Exited?
    ensures IterationBegins(r, w, s, k)
  {
    var m := Origin(cfg, r, k, w);
    if r.states[m].workers[w].pc == LoopHead {
      s := m;
    } else {
      s := IterationOf(cfg, r, m, w);
    }
  }

  // What the step into a position past the loop head must have been.
  lemma Before(cfg: Config, s: Service, me: Worker, a: Answer)
    requires cfg.hasAuth
    ensures var pc, pc' := me.pc, NextPc(cfg, s, me, a);
      && (pc' == ReadEmpty ==> pc == ReadValid && Valid(s.tokens, s.now))
      && (pc' == ReadFresh ==> pc == Refresh && Accepted(cfg.hasAuthBackend, a.reply))
      && (pc' == StorePublishing ==> pc == ReadFresh && s.tokens.token != "")
      && (pc' == CheckLink ==> pc == StorePublishing || (pc == ReadEmpty && s.tokens.token != ""))
      && (PastToken(pc') && pc' != CheckLink ==> PastToken(pc))
      && (pc' == StoreConnected ==> pc == ReconnectConnect && T.ConnectResult(s.connected, a.ok))
      && (pc' == Publish ==> pc == StoreConnected || (pc == CheckLink && s.connected))
  {
  }

  // From the call of `publishTelemetry` to its end, the call of the transport included. The state is Connected or
  // Publishing, unless somebody else has mended the link or the token that a failed attempt left behind.
  lemma TrustedWhilePublishing(cfg: Config, r: Run, k: nat, w: nat, pc: WorkerPc)
    requires IsRun(cfg, r) && Acts(r, k, w, pc) && PublishPhase(pc)
    ensures Trusted(r.states[k].state) || (r.states[k].state == Disconnected && (LinkHelped(r, k) || TokenHelped(r, k)))
  {
    InvAlways(cfg, r, k);
    HelpIsHelped(r, k);
    assert w == |r.states[k].workers| - 1;
  }

  // The step that began the publish worker `w` is in.
  lemma {:induction false} PublishBegun(cfg: Config, r: Run, k: nat, w: nat, pc: WorkerPc) returns (p: nat)
    requires IsRun(cfg, r) && Acts(r, k, w, pc) && PublishPhase(pc)
    ensures p <= k && Acts(r, p, w, Publish)
    ensures forall m: nat :: p <= m <= k ==> !Acts(r, m, w, LoopHead)
  {
    if pc == Publish {
      p := k;
    } else {
      var m := Origin(cfg, r, k, w);
      p := PublishBegun(cfg, r, m, w, r.states[m].workers[w].pc);
    }
  }

  // A worker past the token check has evidence from its current iteration.
  lemma {:induction false} TokenEvidence(cfg: Config, r: Run, k: nat, w: nat, s: nat) returns (a: nat, b: nat)
    requires IsRun(cfg, r) && k <= |r.labels|
    requires w < |r.states[k].workers| && PastToken(r.states[k].workers[w].pc)
    requires IterationBegins(r, w, s, k)
    ensures TokenSeen(cfg, r, w, a, b) && s < a && b < k
  {
    WiredAt(cfg, r, k);
    var m := Origin(cfg, r, k, w);
    Before(cfg, r.states[m], r.states[m].workers[w], r.labels[m].a);
    if PastToken(r.states[m].workers[w].pc) {
      a, b := TokenEvidence(cfg, r, m, w, s);
    } else {
      var n := m;
      if r.states[m].workers[w].pc == StorePublishing {
        n := Origin(cfg, r, m, w);
        Before(cfg, r.states[n], r.states[n].workers[w], r.labels[n].a);
      }
      b := n;
      a := Origin(cfg, r, n, w);
      Before(cfg, r.states[a], r.states[a].workers[w], r.labels[a].a);
    }
  }

  // A worker about to publish found the link up, or just brought it up.
  lemma LinkEvidence(cfg: Config, r: Run, k: nat, w: nat) returns (c: nat)
    requires IsRun(cfg, r) && Acts(r, k, w, Publish)
    ensures LinkSeen(r, w, c) && c < k
    ensures PastToken(r.states[c].workers[w].pc)
    ensures forall j: nat :: c < j < k ==> !Acts(r, j, w, LoopHead)
  {
    WiredAt(cfg, r, k);
    c := Origin(cfg, r, k, w);
    Before(cfg, r.states[c], r.states[c].workers[w], r.labels[c].a);
    if r.states[c].workers[w].pc == StoreConnected {
      var d := c;
      c := Origin(cfg, r, d, w);
      Before(cfg, r.states[c], r.states[c].workers[w], r.labels[c].a);
    }
  }

  lemma PublishEvidence(cfg: Config, r: Run, k: nat, w: nat) returns (s: nat, a: nat, b: nat, c: nat)
    requires IsRun(cfg, r) && Acts(r, k, w, Publish)
    ensures IterationBegins(r, w, s, k) && s < a && TokenSeen(cfg, r, w, a, b) && b < c && LinkSeen(r, w, c) && c < k
  {
    c := LinkEvidence(cfg, r, k, w);
    s := IterationOf(cfg, r, c, w);
    a, b := TokenEvidence(cfg, r, c, w, s);
    StillTheSameIteration(r, w, s, c, k);
  }

  lemma StillTheSameIteration(r: Run, w: nat, s: nat, c: nat, k: nat)
    requires IterationBegins(r, w, s, c) && c < k && !Acts(r, c, w, LoopHead)
    requires forall j: nat :: c < j < k ==> !Acts(r, j, w, LoopHead)
    ensures IterationBegins(r, w, s, k)
  {
  }

  // The publish gate: whatever start's late store, cleared tokens, ticks and link drops do in between, every step
  // of a loop publish, the one that calls the transport included, is taken after the same iteration saw a usable token
  // and then a usable transport, and in state Connected or Publishing. It can be Disconnected only if somebody outside
  // has connected the transport, and the loop has not reconnected since, or has authenticated, and the loop has not
  // refreshed since.
  lemma PublishGate(cfg: Config, r: Run, k: nat, w: nat, pc: WorkerPc)
    requires IsRun(cfg, r) && Acts(r, k, w, pc) && PublishPhase(pc)
    ensures Trusted(r.states[k].state) || (r.states[k].state == Disconnected && (LinkHelped(r, k) || TokenHelped(r, k)))
    ensures (forall j :: 0 <= j < k ==> !Outside(r.labels[j])) ==> Trusted(r.states[k].state)
    ensures exists s: nat, a: nat, b: nat, c: nat ::
              IterationBegins(r, w, s, k) && s < a && TokenSeen(cfg, r, w, a, b) && b < c && LinkSeen(r, w, c) && c < k
  {
    TrustedWhilePublishing(cfg, r, k, w, pc);
    var p := PublishBegun(cfg, r, k, w, pc);
    var s, a, b, c := PublishEvidence(cfg, r, p, w);
    assert IterationBegins(r, w, s, k);
  }
}
