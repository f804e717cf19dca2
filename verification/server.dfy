/** server.py: the stand-alone Flask ad server the polling bot talks to.  It
    creates pending sessions, records the click on the redirect, completes a
    session on a "completed" callback (with no guard on the current status) and
    reports a session's status. */
module Server {
  import opened Common
  import opened StatusStore

  const DEFAULT_DOMAIN: string := "yourdomain.com"
  const DEFAULT_AD_TARGET_URL: string := "https://ad-host.example.com/adpage"
  const REDIRECT_PREFIX: string := "/ad/redirect?token="

  /** The `redirect_url` handed back by `/ad/create`. */
  function RedirectUrl(domain: string, token: string): (r: string)
    ensures StartsWith(r, "https://" + domain + REDIRECT_PREFIX)
    ensures |r| == |"https://" + domain + REDIRECT_PREFIX| + |token|
    ensures r[|r| - |token|..] == token
  {
    "https://" + domain + REDIRECT_PREFIX + token
  }

  /** For a domain without `=`, the query value of the redirect URL is exactly
      the token: the link leads `/ad/redirect` back to the same session. */
  lemma RedirectCarriesToken(domain: string, token: string)
    requires '=' !in domain
    ensures AfterFirst(RedirectUrl(domain, token), '=') == Some(token)
  {
    var prefix := "https://" + domain + REDIRECT_PREFIX;
    var url := RedirectUrl(domain, token);
    assert url == prefix + token;
    assert prefix[..|prefix| - 1] == "https://" + domain + "/ad/redirect?token";
    forall k | 0 <= k < |prefix| - 1 ensures prefix[k] != '=' {
      if k < 8 {
        assert prefix[k] == "https://"[k];
      } else if k < 8 + |domain| {
        assert prefix[k] == domain[k - 8];
      } else {
        assert prefix[k] == "/ad/redirect?token"[k - 8 - |domain|];
      }
    }
    AfterPrefix(url, prefix, '=');
    assert url[|prefix|..] == token;
  }

  datatype CreateReply = Created(token: string, redirectUrl: string) | BadUserId

  /** `/ad/create`: `user_id` is `int(...)` of the body field when that field is
      truthy, otherwise absent; `int` raising is a server error with nothing
      stored. */
  function CreateStep(sessions: map<string, StatusSession>, userField: Json, token: string,
                      now: Time, domain: string): (r: (map<string, StatusSession>, CreateReply))
    requires token !in sessions
    ensures r.1.BadUserId? <==> JTruthy(userField) && PyInt(userField).None?
    ensures r.1.BadUserId? ==> r.0 == sessions
    ensures r.1.Created? ==>
              && r.1.token == token
              && r.0.Keys == sessions.Keys + {token}
              && (forall k :: k in sessions ==> r.0[k] == sessions[k])
              && IsPending(r.0[token])
              && r.0[token].clickedAt.None? && r.0[token].completedAt.None?
              && r.0[token].createdAt == Some(now)
              && r.0[token].userId == (if JTruthy(userField) then PyInt(userField) else None)
              && r.1.redirectUrl == RedirectUrl(domain, token)
  {
    if !JTruthy(userField) then
      (sessions[token := PendingSession(None, now)], Created(token, RedirectUrl(domain, token)))
    else
      match PyInt(userField)
      case None => (sessions, BadUserId)
      case Some(u) => (sessions[token := PendingSession(Some(u), now)], Created(token, RedirectUrl(domain, token)))
  }

  datatype RedirectReply = MissingToken | RedirectTo(url: string)

  /** `/ad/redirect`: 400 without a token, otherwise the click is recorded and
      the browser is sent to the ad host with the token. */
  function RedirectStep(sessions: map<string, StatusSession>, token: Option<string>, now: Time,
                        targetUrl: string): (r: (map<string, StatusSession>, RedirectReply))
    ensures r.1.MissingToken? <==> !Truthy(token)
    ensures r.1.MissingToken? ==> r.0 == sessions
    ensures r.1.RedirectTo? ==>
              r.0 == MarkClicked(sessions, token.value, now) &&
              StartsWith(r.1.url, targetUrl + "?token=") && r.1.url[|targetUrl + "?token="|..] == token.value
  {
    if !Truthy(token) then (sessions, MissingToken)
    else (MarkClicked(sessions, token.value, now), RedirectTo(targetUrl + "?token=" + token.value))
  }

  /** `/ad/callback`: a truthy token is required; a "completed" status sets the
      status and completion instant of the matching session whatever its
      current status; anything else is ignored. */
  function CallbackStep(sessions: map<string, StatusSession>, token: Json, status: Json, now: Time): (r: (map<string, StatusSession>, CallbackReply))
    ensures r.1 == CbMissingToken <==> !JTruthy(token)
    ensures r.1 == CbOk <==> JTruthy(token) && status == JStr(COMPLETED)
    ensures r.1 != CbOk ==> r.0 == sessions
    ensures r.0.Keys == sessions.Keys
    ensures forall k :: k in sessions && JStr(k) != token ==> r.0[k] == sessions[k]
    ensures r.1 == CbOk && token.JStr? && token.s in sessions ==>
              IsCompleted(r.0[token.s]) && r.0[token.s].completedAt == Some(now) &&
              r.0[token.s] == sessions[token.s].(status := Some(COMPLETED), completedAt := Some(now))
  {
    if !JTruthy(token) then (sessions, CbMissingToken)
    else if status == JStr(COMPLETED) then
      if token.JStr? && token.s in sessions then
        (sessions[token.s := sessions[token.s].(status := Some(COMPLETED), completedAt := Some(now))], CbOk)
      else (sessions, CbOk)
    else (sessions, CbIgnored)
  }

  /** `/ad/status/<token>`: the stored status, which may be absent. */
  function AdStatus(sessions: map<string, StatusSession>, token: string): (r: StatusView)
    ensures r.NotFound? <==> token !in sessions
    ensures r.Found? ==> r.token == token && r.status == sessions[token].status
  {
    if token in sessions then Found(token, sessions[token].status) else NotFound
  }

  /** A fresh session reports "pending" until completed. */
  lemma CreatedIsPending(sessions: map<string, StatusSession>, userField: Json, token: string, now: Time, domain: string)
    requires token !in sessions
    requires CreateStep(sessions, userField, token, now, domain).1.Created?
    ensures AdStatus(CreateStep(sessions, userField, token, now, domain).0, token) == Found(token, Some(PENDING))
  {
  }

  /** The callback carries no guard: a second "completed" callback rewrites the
      completion instant, so the completion is not recorded exactly once. */
  lemma RepeatedCallbackRewritesCompletion(sessions: map<string, StatusSession>, token: string, t1: Time, t2: Time)
    requires token in sessions && token != ""
    ensures var once := CallbackStep(sessions, JStr(token), JStr(COMPLETED), t1).0;
            var twice := CallbackStep(once, JStr(token), JStr(COMPLETED), t2).0;
            IsCompleted(twice[token]) && twice[token].completedAt == Some(t2)
  {
  }

  /** The ad server over its `ad_sessions` collection. */
  method CreateAdSession(store: SessionStore, userField: Json, token: string, now: Time, domain: string)
    returns (reply: CreateReply)
    requires token !in store.sessions
    modifies store
    ensures store.sessions == CreateStep(old(store.sessions), userField, token, now, domain).0
    ensures reply == CreateStep(old(store.sessions), userField, token, now, domain).1
  {
    var userId: Option<int> := None;
    if JTruthy(userField) {
      userId := PyInt(userField);
      if userId.None? {
        return BadUserId;
      }
    }
    store.sessions := store.sessions[token := PendingSession(userId, now)];
    reply := Created(token, "https://" + domain + REDIRECT_PREFIX + token);
  }

  method AdRedirect(store: SessionStore, token: Option<string>, now: Time, targetUrl: string)
    returns (reply: RedirectReply)
    modifies store
    ensures store.sessions == RedirectStep(old(store.sessions), token, now, targetUrl).0
    ensures reply == RedirectStep(old(store.sessions), token, now, targetUrl).1
  {
    if !Truthy(token) {
      return MissingToken;
    }
    var t := token.value;
    if t in store.sessions {
      store.sessions := store.sessions[t := store.sessions[t].(clickedAt := Some(now))];
    }
    reply := RedirectTo(targetUrl + "?token=" + t);
  }

  method AdCallback(store: SessionStore, token: Json, status: Json, now: Time) returns (reply: CallbackReply)
    modifies store
    ensures store.sessions == CallbackStep(old(store.sessions), token, status, now).0
    ensures reply == CallbackStep(old(store.sessions), token, status, now).1
  {
    if !JTruthy(token) {
      return CbMissingToken;
    }
    if status != JStr(COMPLETED) {
      return CbIgnored;
    }
    if token.JStr? && token.s in store.sessions {
      var s := store.sessions[token.s];
      store.sessions := store.sessions[token.s := s.(status := Some(COMPLETED), completedAt := Some(now))];
    }
    reply := CbOk;
  }
}
