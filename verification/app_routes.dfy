/** app/routes.py: the FastAPI routes of the webhook deployment.  Its ad
    callback completes a session only while it is still pending, its status
    route reports "pending" for a session without a status, and its webhook
    checks the shared secret before dispatching an update by kind. */
module AppRoutes {
  import opened Common
  import opened StatusStore

  /** `/ad/redirect`: the click is recorded on the session and the browser is
      sent to the ad target with the token. */
  method AdRedirect(store: SessionStore, token: string, now: Time, targetUrl: string) returns (url: string)
    modifies store
    ensures store.sessions == MarkClicked(old(store.sessions), token, now)
    ensures StartsWith(url, targetUrl + "?token=") && url[|targetUrl + "?token="|..] == token
  {
    if token in store.sessions {
      store.sessions := store.sessions[token := store.sessions[token].(clickedAt := Some(now))];
    }
    url := targetUrl + "?token=" + token;
  }

  /** `/ad/callback`: a truthy token is required; "completed" moves a pending
      session to completed (one atomic guarded update, status only) and leaves
      every other session alone; anything else is ignored. */
  function CallbackStep(sessions: map<string, StatusSession>, token: Json, status: Json): (r: (map<string, StatusSession>, CallbackReply))
    ensures r.1 == CbMissingToken <==> !JTruthy(token)
    ensures r.1 == CbOk <==> JTruthy(token) && status == JStr(COMPLETED)
    ensures r.0.Keys == sessions.Keys
    ensures forall k :: k in sessions && (JStr(k) != token || !IsPending(sessions[k])) ==> r.0[k] == sessions[k]
    ensures forall k :: k in sessions && r.0[k] != sessions[k] ==>
              r.1 == CbOk && JStr(k) == token && IsPending(sessions[k]) &&
              r.0[k] == sessions[k].(status := Some(COMPLETED))
    ensures r.1 == CbOk && token.JStr? && token.s in sessions && IsPending(sessions[token.s]) ==>
              IsCompleted(r.0[token.s])
  {
    if !JTruthy(token) then (sessions, CbMissingToken)
    else if status == JStr(COMPLETED) then
      if token.JStr? && token.s in sessions && IsPending(sessions[token.s]) then
        (sessions[token.s := sessions[token.s].(status := Some(COMPLETED))], CbOk)
      else (sessions, CbOk)
    else (sessions, CbIgnored)
  }

  /** The guarded callback is idempotent: delivering it twice leaves the
      sessions as delivering it once. */
  lemma CallbackIdempotent(sessions: map<string, StatusSession>, token: Json, status: Json)
    ensures var once := CallbackStep(sessions, token, status).0;
            CallbackStep(once, token, status).0 == once
  {
    var once := CallbackStep(sessions, token, status).0;
    var twice := CallbackStep(once, token, status).0;
    assert forall k :: k in once ==> twice[k] == once[k];
  }

  /** No callback ever takes a completed session back. */
  lemma CompletedStaysCompleted(sessions: map<string, StatusSession>, token: Json, status: Json, k: string)
    requires k in sessions && IsCompleted(sessions[k])
    ensures CallbackStep(sessions, token, status).0[k] == sessions[k]
  {
  }

  /** `/ad/status/<token>`: 404 for an unknown token, otherwise the status,
      "pending" when the session has none. */
  function AdStatus(sessions: map<string, StatusSession>, token: string): (r: StatusView)
    ensures r.NotFound? <==> token !in sessions
    ensures r.Found? ==> r.token == token && r.status.Some?
    ensures r.Found? && sessions[token].status.Some? ==> r.status == sessions[token].status
    ensures r.Found? && sessions[token].status.None? ==> r.status == Some(PENDING)
  {
    if token !in sessions then NotFound
    else Found(token, Some(match sessions[token].status case Some(s) => s case None => PENDING))
  }

  /** A callback reporting completion is visible on the status route for any
      session that was pending. */
  lemma CallbackThenStatusCompleted(sessions: map<string, StatusSession>, token: string)
    requires token in sessions && IsPending(sessions[token]) && token != ""
    ensures AdStatus(CallbackStep(sessions, JStr(token), JStr(COMPLETED)).0, token) == Found(token, Some(COMPLETED))
  {
  }

  /** Which handler of app/telegram/handlers.py an update goes to. */
  datatype Route = ToMessage | ToCallback | ToChannelPost | LoggedOnly

  datatype WebhookReply = Forbidden | Accepted(route: Route)

  /** `/webhook`: with a configured secret a different (or missing) header is
      refused before anything is dispatched; otherwise the update goes to the
      first of message, callback_query, channel_post that it carries. */
  function Webhook(secret: Option<string>, header: Option<string>, keys: set<string>): (r: WebhookReply)
    ensures r.Forbidden? <==> Truthy(secret) && header != secret
    ensures r == Accepted(ToMessage) <==> !r.Forbidden? && "message" in keys
    ensures r == Accepted(ToCallback) <==> !r.Forbidden? && "message" !in keys && "callback_query" in keys
    ensures r == Accepted(ToChannelPost) <==>
              !r.Forbidden? && "message" !in keys && "callback_query" !in keys && "channel_post" in keys
    ensures r == Accepted(LoggedOnly) <==>
              !r.Forbidden? && "message" !in keys && "callback_query" !in keys && "channel_post" !in keys
  {
    if Truthy(secret) && header != secret then Forbidden
    else if "message" in keys then Accepted(ToMessage)
    else if "callback_query" in keys then Accepted(ToCallback)
    else if "channel_post" in keys then Accepted(ToChannelPost)
    else Accepted(LoggedOnly)
  }

  /** Without a configured secret every update is accepted, whatever the header. */
  lemma NoSecretAcceptsAll(secret: Option<string>, header: Option<string>, keys: set<string>)
    requires !Truthy(secret)
    ensures Webhook(secret, header, keys).Accepted?
  {
  }

  method AdCallback(store: SessionStore, token: Json, status: Json) returns (reply: CallbackReply)
    modifies store
    ensures store.sessions == CallbackStep(old(store.sessions), token, status).0
    ensures reply == CallbackStep(old(store.sessions), token, status).1
  {
    if !JTruthy(token) {
      return CbMissingToken;
    }
    if status != JStr(COMPLETED) {
      return CbIgnored;
    }
    if token.JStr? && token.s in store.sessions && IsPending(store.sessions[token.s]) {
      var s := store.sessions[token.s];
      store.sessions := store.sessions[token.s := s.(status := Some(COMPLETED))];
    }
    reply := CbOk;
  }
}
