/** app/web/ad_routes.py: session creation for a user id, the landing page the
    shortener finally redirects to (which completes the session), and a
    public view of a session. */
module AppWebAdRoutes {
  import opened Common
  import opened AdsService

  datatype CreateReply = CreateMissingUser | CreateBadUserId | CreateOk(session: Session)

  /** `/ad/create-session`: a falsy `user_id` is 400; `int(user_id)` raising is
      a server error with nothing stored. */
  method ApiCreateSession(store: Store, userField: Json, destUrl: Option<string>, token: string, now: Time,
                          domain: string, apiUrl: string, providerReply: ProviderReply) returns (reply: CreateReply)
    requires token !in store.sessions
    modifies store
    ensures reply.CreateMissingUser? <==> !JTruthy(userField)
    ensures reply.CreateBadUserId? <==> JTruthy(userField) && PyInt(userField).None?
    ensures !reply.CreateOk? ==> store.sessions == old(store.sessions)
    ensures reply.CreateOk? ==>
              && reply.session == NewSession(PyInt(userField).value, destUrl, token, now, domain)
                                    .(shortUrl := ShortFromProvider(apiUrl, providerReply))
              && store.sessions == old(store.sessions)[token := reply.session]
  {
    if !JTruthy(userField) {
      return CreateMissingUser;
    }
    var uid := PyInt(userField);
    if uid.None? {
      return CreateBadUserId;
    }
    var doc := store.CreateAdSession(uid.value, destUrl, token, now, domain, apiUrl, providerReply);
    reply := CreateOk(doc);
  }

  /** Replies of `/ad/callback/<token>`: 404, or the thanks page with a
      "continue" link to the session's destination when it has one. */
  datatype LandingReply = InvalidSession | ThanksPage(continueTo: Option<string>)

  /** The landing page: an unknown token is 404 and marks nothing; a known
      token is completed and the continue link appears iff it has a destination. */
  function LandingStep(sessions: map<string, Session>, token: string, now: Time): (r: (map<string, Session>, LandingReply))
    ensures r.1.InvalidSession? <==> token !in sessions
    ensures r.1.InvalidSession? ==> r.0 == sessions
    ensures r.1.ThanksPage? ==> r.0 == MarkStep(sessions, token, now) && r.0[token].completed
    ensures r.1.ThanksPage? ==>
              (r.1.continueTo.Some? <==> Truthy(sessions[token].destUrl)) &&
              (r.1.continueTo.Some? ==> r.1.continueTo == sessions[token].destUrl)
  {
    match GetSession(sessions, token)
    case None => (sessions, InvalidSession)
    case Some(s) => (MarkStep(sessions, token, now), ThanksPage(if Truthy(s.destUrl) then s.destUrl else None))
  }

  method AdCallback(store: Store, token: string, now: Time) returns (reply: LandingReply)
    modifies store
    ensures store.sessions == LandingStep(old(store.sessions), token, now).0
    ensures reply == LandingStep(old(store.sessions), token, now).1
  {
    var session := GetSession(store.sessions, token);
    if session.None? {
      return InvalidSession;
    }
    store.MarkCompleted(token, now);
    var dest := session.value.destUrl;
    reply := ThanksPage(if Truthy(dest) then dest else None);
  }

  /** The fields `/ad/session/<token>` exposes. */
  datatype SessionView = NoSession | View(token: string, userId: int, completed: bool,
                                          shortUrl: Option<string>, callbackUrl: string)

  /** `/ad/session/<token>`: 404, or a projection that leaves out the creation
      and completion instants and the destination. */
  function GetSessionView(sessions: map<string, Session>, token: string): (r: SessionView)
    ensures r.NoSession? <==> token !in sessions
    ensures r.View? ==>
              var s := sessions[token];
              r.token == token && r.userId == s.userId && r.completed == s.completed &&
              r.shortUrl == s.shortUrl && r.callbackUrl == s.callbackUrl
  {
    match GetSession(sessions, token)
    case None => NoSession
    case Some(s) => View(token, s.userId, s.completed, s.shortUrl, s.callbackUrl)
  }

  /** Once the landing page has been reached, the session view reports it
      completed. */
  lemma LandingThenViewCompleted(sessions: map<string, Session>, token: string, now: Time)
    requires token in sessions
    ensures var v := GetSessionView(LandingStep(sessions, token, now).0, token);
            v.View? && v.completed
  {
  }
}
