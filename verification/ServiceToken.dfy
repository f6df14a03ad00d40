/** Which token the service holds: over every run, that of the last event. */
module ServiceToken {
  import opened AuthClients
  import opened ServiceModel
  import opened ServiceInvariant

  // The backend answers: to `start`, to the loop's refresh, or to somebody else.
  predicate Answers(cfg: Config, s: Service, l: Label) {
    && cfg.hasAuth && cfg.hasAuthBackend
    && ((l.Control? && s.control == StartAuthenticate) || WorksAt(s, l, Refresh) || l.AuthenticateOutside?)
  }

  function ReplyOf(l: Label): AuthResponse
    requires l.Control? || l.Work? || l.AuthenticateOutside?
  {
    if l.AuthenticateOutside? then l.reply else l.a.reply
  }

  lemma StepSetsToken(cfg: Config, s: Service, l: Label)
    requires Enabled(cfg, s, l) && (WorksAt(s, l, Refresh) ==> cfg.hasAuth)
    ensures Apply(cfg, s, l).tokens ==
      if Answers(cfg, s, l) then
        TokenState(ReplyOf(l).accessToken,
                   s.now + if ReplyOf(l).accessToken == "" then 0 else ReplyOf(l).expiresIn * 1_000_000_000)
      else if l.ClearToken? then TokenState("", s.now)
      else s.tokens
  {
    match l
    case Control(a) => ControlSetsToken(cfg, s, a);
    case _ =>
  }

  lemma ControlSetsToken(cfg: Config, s: Service, a: Answer)
    ensures ControlStep(cfg, s, a).tokens ==
      if cfg.hasAuth && cfg.hasAuthBackend && s.control == StartAuthenticate then
        TokenState(a.reply.accessToken,
                   s.now + if a.reply.accessToken == "" then 0 else a.reply.expiresIn * 1_000_000_000)
      else s.tokens
  {
  }

  ghost predicate TokenEvent(cfg: Config, r: Run, j: nat) {
    j < |r.labels| && j < |r.states| && (Answers(cfg, r.states[j], r.labels[j]) || r.labels[j].ClearToken?)
  }

  ghost function TokenMade(cfg: Config, r: Run, j: nat): TokenState
    requires TokenEvent(cfg, r, j)
  {
    var l, now := r.labels[j], r.states[j].now;
    if l.ClearToken? then TokenState("", now)
    else
      var reply := ReplyOf(l);
      TokenState(reply.accessToken, now + if reply.accessToken == "" then 0 else reply.expiresIn * 1_000_000_000)
  }

  lemma TokenAfterStep(cfg: Config, r: Run, k: nat)
    requires IsRun(cfg, r) && k < |r.labels|
    ensures r.states[k + 1].tokens == if TokenEvent(cfg, r, k) then TokenMade(cfg, r, k) else r.states[k].tokens
  {
    StepAt(cfg, r, k);
    if r.labels[k].Work? {
      WiredAt(cfg, r, k);
    }
    StepSetsToken(cfg, r.states[k], r.labels[k]);
  }

  lemma {:induction false} TokenStays(cfg: Config, r: Run, j: nat, k: nat)
    requires IsRun(cfg, r) && j <= k <= |r.labels|
    requires forall m: nat :: j <= m < k ==> !TokenEvent(cfg, r, m)
    ensures r.states[k].tokens == r.states[j].tokens
    decreases k
  {
    if j < k {
      TokenStays(cfg, r, j, k - 1);
      TokenAfterStep(cfg, r, k - 1);
    }
  }

  // If step `j` is the last at which the backend answered or the token was cleared, the token is what that made it:
  // the answer's, character for character and with the answer's lifetime; none after a refusal or a clear.
  lemma TokenIsThatOfLastEvent(cfg: Config, r: Run, j: nat, k: nat)
    requires IsRun(cfg, r) && j < k <= |r.labels| && TokenEvent(cfg, r, j)
    requires forall m: nat :: j < m < k ==> !TokenEvent(cfg, r, m)
    ensures r.labels[j].ClearToken? ==> r.states[k].tokens == TokenState("", r.states[j].now)
    ensures !r.labels[j].ClearToken? ==>
      var reply := ReplyOf(r.labels[j]);
      r.states[k].tokens ==
        TokenState(reply.accessToken,
                   r.states[j].now + if reply.accessToken == "" then 0 else reply.expiresIn * 1_000_000_000)
  {
    TokenAfterStep(cfg, r, j);
    TokenStays(cfg, r, j + 1, k);
  }

  // And before any of that there is none.
  lemma NoTokenBeforeFirstEvent(cfg: Config, r: Run, k: nat)
    requires IsRun(cfg, r) && k <= |r.labels|
    requires forall m: nat :: m < k ==> !TokenEvent(cfg, r, m)
    ensures r.states[k].tokens.token == ""
  {
    TokenStays(cfg, r, 0, k);
  }
}
