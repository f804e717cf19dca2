/** web/ad_routes.py: the root-level routes over ads/service.py. */
module WebAdRoutes {
  import opened Common
  import opened AdsService

  datatype CreateView = CreateMissingUser | CreateBadUserId | Created(token: string, shortUrl: string, callbackUrl: string)

  /** The link handed to the user: the session's short URL when there is a
      non-empty one, otherwise its callback URL. */
  function LinkFor(s: Session): (r: string)
    ensures Truthy(s.shortUrl) ==> r == s.shortUrl.value
    ensures !Truthy(s.shortUrl) ==> r == s.callbackUrl
  {
    if Truthy(s.shortUrl) then s.shortUrl.value else s.callbackUrl
  }

  /** `/ad/create-session`: a falsy `user_id` is 400, `int` raising is a
      server error; otherwise a session is created and its link returned. */
  method Create(store: Store, userField: Json, token: string, now: Time, domain: string,
                apiUrl: string, providerReply: ProviderReply) returns (reply: CreateView)
    requires token !in store.sessions
    modifies store
    ensures reply.CreateMissingUser? <==> !JTruthy(userField)
    ensures reply.CreateBadUserId? <==> JTruthy(userField) && PyInt(userField).None?
    ensures !reply.Created? ==> store.sessions == old(store.sessions)
    ensures reply.Created? ==>
              var s := NewSession(PyInt(userField).value, None, token, now, domain)
                         .(shortUrl := ShortFromProvider(apiUrl, providerReply));
              && store.sessions == old(store.sessions)[token := s]
              && reply == Created(token, LinkFor(s), CallbackUrl(domain, token))
  {
    if !JTruthy(userField) {
      return CreateMissingUser;
    }
    var uid := PyInt(userField);
    if uid.None? {
      return CreateBadUserId;
    }
    var session := store.CreateAdSession(uid.value, None, token, now, domain, apiUrl, providerReply);
    reply := Created(token, LinkFor(session), session.callbackUrl);
  }

  /** The link given for a new session is never empty: without a short URL it
      is the callback URL, which holds the callback path. */
  lemma CreatedLinkUsable(userId: int, token: string, now: Time, domain: string, apiUrl: string, providerReply: ProviderReply)
    ensures var s := NewSession(userId, None, token, now, domain).(shortUrl := ShortFromProvider(apiUrl, providerReply));
            LinkFor(s) != "" && (LinkFor(s) == CallbackUrl(domain, token) || Contains(LinkFor(s), "http"))
  {
  }

  /** `/ad/callback/<token>`: marks completed without checking that the
      session exists. */
  method Cb(store: Store, token: string, now: Time)
    modifies store
    ensures store.sessions == MarkStep(old(store.sessions), token, now)
  {
    store.MarkCompleted(token, now);
  }

  datatype SessionInfo = NoSession | Info(completed: bool, userId: int, shortUrl: Option<string>)

  /** `/ad/session/<token>`: 404, or the completion flag, user and short URL. */
  function SessionInfoOf(sessions: map<string, Session>, token: string): (r: SessionInfo)
    ensures r.NoSession? <==> token !in sessions
    ensures r.Info? ==> r == Info(sessions[token].completed, sessions[token].userId, sessions[token].shortUrl)
  {
    match GetSession(sessions, token)
    case None => NoSession
    case Some(s) => Info(s.completed, s.userId, s.shortUrl)
  }
}
