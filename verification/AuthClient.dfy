/** Access-token state of the vehicle: src/AuthClient/auth_client.cpp. */
module AuthClients {
  import opened Basics

  // What the authentication backend answers; `expiresIn` is in seconds and may be negative.
  datatype AuthResponse = AuthResponse(accessToken: string, expiresIn: int)

  datatype Credentials = Credentials(vehicleId: string, vehicleSecret: string)

  datatype TokenState = TokenState(token: string, expiresAt: int)

  predicate Valid(t: TokenState, now: int) {
    t.token != "" && now < t.expiresAt
  }

  function Cleared(now: int): TokenState {
    TokenState("", now)
  }

  // State after `authenticate` (and so after `refreshToken`), with the clock read after the answer arrived.
  function Authenticated(t: TokenState, hasBackend: bool, answer: AuthResponse, now: int): TokenState {
    if !hasBackend then t
    else if answer.accessToken == "" then Cleared(now)
    else TokenState(answer.accessToken, now + answer.expiresIn * SECOND)
  }

  // The boolean `authenticate` returns.
  predicate Accepted(hasBackend: bool, answer: AuthResponse) {
    hasBackend && answer.accessToken != ""
  }

  class AuthClient {
    const hasBackend: bool
    const vehicleId: string
    const vehicleSecret: string
    var accessToken: string
    var expiresAt: int
    var asked: seq<Credentials>  // what the backend has been asked with

    ghost function View(): TokenState
      reads this
    {
      TokenState(accessToken, expiresAt)
    }

    constructor (hasBackend: bool, vehicleId: string, vehicleSecret: string, now: int)
      ensures View() == Cleared(now) && asked == []
      ensures this.hasBackend == hasBackend && this.vehicleId == vehicleId && this.vehicleSecret == vehicleSecret
    {
      this.hasBackend := hasBackend;
      this.vehicleId := vehicleId;
      this.vehicleSecret := vehicleSecret;
      accessToken, expiresAt, asked := "", now, [];
    }

    // `answer` is the backend's reply to the credentials, `now` the clock when it is stored.
    method Authenticate(answer: AuthResponse, now: int) returns (ok: bool)
      modifies this
      ensures View() == Authenticated(old(View()), hasBackend, answer, now)
      ensures ok == (hasBackend && answer.accessToken != "")
      ensures ok ==> accessToken == answer.accessToken && expiresAt == now + answer.expiresIn * 1_000_000_000
      ensures ok ==> (Valid(View(), now) <==> answer.expiresIn > 0)
      ensures !ok && hasBackend ==> accessToken == "" && expiresAt == now
      ensures !ok && hasBackend ==> forall later :: later >= now ==> !Valid(View(), later)
      ensures !hasBackend ==> accessToken == old(accessToken) && expiresAt == old(expiresAt)
      ensures asked == if hasBackend then old(asked) + [Credentials(vehicleId, vehicleSecret)] else old(asked)
    {
      if !hasBackend {
        return false;
      }
      asked := asked + [Credentials(vehicleId, vehicleSecret)];
      if answer.accessToken == "" {
        accessToken := "";
        expiresAt := now;
        return false;
      }
      accessToken := answer.accessToken;
      expiresAt := now + answer.expiresIn * SECOND;
      return true;
    }

    method RefreshToken(answer: AuthResponse, now: int) returns (ok: bool)
      modifies this
      ensures View() == Authenticated(old(View()), hasBackend, answer, now)
      ensures ok == (hasBackend && answer.accessToken != "")
      ensures ok ==> accessToken == answer.accessToken && expiresAt == now + answer.expiresIn * 1_000_000_000
      ensures !ok && hasBackend ==> accessToken == "" && expiresAt == now
      ensures !hasBackend ==> accessToken == old(accessToken) && expiresAt == old(expiresAt)
      ensures asked == if hasBackend then old(asked) + [Credentials(vehicleId, vehicleSecret)] else old(asked)
    {
      ok := Authenticate(answer, now);
    }

    predicate IsTokenValid(now: int)
      reads this
      ensures IsTokenValid(now) <==> Valid(View(), now)
    {
      accessToken != "" && now < expiresAt
    }

    method ClearToken(now: int)
      modifies this`accessToken, this`expiresAt
      ensures View() == Cleared(now)
      ensures accessToken == "" && expiresAt == now
    {
      accessToken := "";
      expiresAt := now;
    }
  }

  // ----- Histories of calls -----

  datatype AuthEvent = Answered(at: int, answer: AuthResponse) | TokenCleared(at: int)

  function Replay(hasBackend: bool, born: int, events: seq<AuthEvent>): TokenState {
    if events == [] then Cleared(born)
    else
      var before := Replay(hasBackend, born, events[..|events| - 1]);
      match events[|events| - 1]
      case Answered(at, answer) => Authenticated(before, hasBackend, answer, at)
      case TokenCleared(at) => Cleared(at)
  }

  // The token is usable exactly when the most recent event is an accepted answer that has not run out.
  ghost predicate LastAnswerStillLives(hasBackend: bool, events: seq<AuthEvent>, now: int) {
    && hasBackend
    && events != []
    && var last := events[|events| - 1];
    && last.Answered?
    && last.answer.accessToken != ""
    && now < last.at + last.answer.expiresIn * 1_000_000_000
  }

  lemma {:induction false} ValidIffLastAnswerStillLives(hasBackend: bool, born: int, events: seq<AuthEvent>, now: int)
    ensures Valid(Replay(hasBackend, born, events), now) <==> LastAnswerStillLives(hasBackend, events, now)
  {
    if !hasBackend {
      NeverATokenWithoutBackend(born, events);
    }
  }

  // And the token is that of the last event: the accepted answer's, as it came; none after a refusal or a clear; and
  // without a backend none at all.
  lemma {:induction false} TokenIsThatOfLastEvent(hasBackend: bool, born: int, events: seq<AuthEvent>)
    ensures var t := Replay(hasBackend, born, events);
      && (!hasBackend || events == [] ==> t.token == "")
      && (hasBackend && events != [] ==>
            match events[|events| - 1]
            case Answered(at, answer) =>
              && t.token == answer.accessToken
              && t.expiresAt == at + (if answer.accessToken == "" then 0 else answer.expiresIn * 1_000_000_000)
            case TokenCleared(at) => t == TokenState("", at))
  {
    if !hasBackend {
      NeverATokenWithoutBackend(born, events);
    }
  }

  lemma {:induction false} NeverATokenWithoutBackend(born: int, events: seq<AuthEvent>)
    ensures Replay(false, born, events).token == ""
  {
    if events != [] {
      NeverATokenWithoutBackend(born, events[..|events| - 1]);
    }
  }

  // Once invalid, a token stays invalid until another answer is accepted: waiting and clearing never revive it.
  lemma {:induction false} InvalidUntilNextAcceptedAnswer(
    hasBackend: bool, born: int, events: seq<AuthEvent>, k: nat, now: int, later: int)
    requires k <= |events| && now <= later
    requires !Valid(Replay(hasBackend, born, events[..k]), now)
    requires forall i :: k <= i < |events| && events[i].Answered? ==> !Accepted(hasBackend, events[i].answer)
    ensures !Valid(Replay(hasBackend, born, events), later)
  {
    ValidIffLastAnswerStillLives(hasBackend, born, events, later);
    if k == |events| {
      assert events[..k] == events;
    }
  }
}
