/** app/web/routes.py: the ad provider's return URL and an administrator's
    manual completion, both over completed-flag sessions. */
module WebRoutes {
  import opened Common
  import opened AdsService

  /** Replies of `/ad/return`: 400, the 500 of `int(uid)` raising, the generic
      200 page for an unmatched session, and the thanks page refreshing to `target`. */
  datatype ReturnReply = ReturnMissing | ReturnBadUid | ReturnNoMatch | ReturnThanks(target: string)

  /** Where the thanks page sends the browser: the domain without trailing
      slashes, or "/" when no domain is configured. */
  function ReturnTarget(domain: string): (r: string)
    ensures domain == "" ==> r == "/"
    ensures domain != "" ==> r == RStripSlash(domain)
  {
    if domain == "" then "/" else RStripSlash(domain)
  }

  /** `/ad/return`: both parameters are required and `uid` must be an integer;
      the session is looked up by token and uid, then by token alone, so it is
      found exactly when the token is known; a found session is completed. */
  function ReturnStep(sessions: map<string, Session>, token: Option<string>, uid: Option<string>,
                      now: Time, domain: string): (r: (map<string, Session>, ReturnReply))
    ensures r.1 == ReturnMissing <==> !Truthy(token) || !Truthy(uid)
    ensures r.1 == ReturnBadUid <==> Truthy(token) && Truthy(uid) && ParseInt(uid.value).None?
    ensures r.1 == ReturnNoMatch <==>
              Truthy(token) && Truthy(uid) && ParseInt(uid.value).Some? && token.value !in sessions
    ensures r.1.ReturnThanks? ==> r.0 == MarkStep(sessions, token.value, now) && r.1.target == ReturnTarget(domain)
    ensures !r.1.ReturnThanks? ==> r.0 == sessions
    ensures r.1.ReturnThanks? <==>
              Truthy(token) && Truthy(uid) && ParseInt(uid.value).Some? && token.value in sessions
  {
    if !Truthy(token) || !Truthy(uid) then (sessions, ReturnMissing)
    else match ParseInt(uid.value)
      case None => (sessions, ReturnBadUid)
      case Some(u) =>
        var byBoth := token.value in sessions && sessions[token.value].userId == u;
        var found := byBoth || token.value in sessions;
        if !found then (sessions, ReturnNoMatch)
        else (MarkStep(sessions, token.value, now), ReturnThanks(ReturnTarget(domain)))
  }

  /** The uid does not decide anything beyond being an integer: any user who
      holds the token completes the session. */
  lemma ReturnIgnoresUid(sessions: map<string, Session>, token: string, uid1: string, uid2: string,
                         now: Time, domain: string)
    requires uid1 != "" && uid2 != ""
    requires ParseInt(uid1).Some? && ParseInt(uid2).Some?
    ensures ReturnStep(sessions, Some(token), Some(uid1), now, domain) == ReturnStep(sessions, Some(token), Some(uid2), now, domain)
  {
  }

  datatype AdminReply = AdminNotConfigured | AdminBadSecret | AdminNotFound | AdminOk(token: string)

  /** `/admin/mark_ad_completed`: refused unless a secret is configured and
      given; an unknown token is 404; otherwise the session is completed. */
  function AdminMarkStep(sessions: map<string, Session>, adminSecret: Option<string>, token: string,
                         secret: Option<string>, now: Time): (r: (map<string, Session>, AdminReply))
    ensures r.1 == AdminNotConfigured <==> !Truthy(adminSecret)
    ensures r.1 == AdminBadSecret <==> Truthy(adminSecret) && secret != adminSecret
    ensures r.1 == AdminNotFound <==> Truthy(adminSecret) && secret == adminSecret && token !in sessions
    ensures r.1.AdminOk? ==> r.1.token == token && token in sessions && r.0 == MarkStep(sessions, token, now)
    ensures !r.1.AdminOk? ==> r.0 == sessions
  {
    if !Truthy(adminSecret) then (sessions, AdminNotConfigured)
    else if secret != adminSecret then (sessions, AdminBadSecret)
    else if token !in sessions then (sessions, AdminNotFound)
    else (MarkStep(sessions, token, now), AdminOk(token))
  }

  method AdReturn(store: Store, token: Option<string>, uid: Option<string>, now: Time, domain: string)
    returns (reply: ReturnReply)
    modifies store
    ensures store.sessions == ReturnStep(old(store.sessions), token, uid, now, domain).0
    ensures reply == ReturnStep(old(store.sessions), token, uid, now, domain).1
  {
    if !Truthy(token) || !Truthy(uid) {
      return ReturnMissing;
    }
    var u := ParseInt(uid.value);
    if u.None? {
      return ReturnBadUid;
    }
    var session := GetSession(store.sessions, token.value);
    if session.Some? && session.value.userId != u.value {
      session := None;
    }
    if session.None? {
      session := GetSession(store.sessions, token.value);
      if session.None? {
        return ReturnNoMatch;
      }
    }
    store.MarkCompleted(token.value, now);
    reply := ReturnThanks(if domain == "" then "/" else RStripSlash(domain));
  }

  method AdminMarkAdCompleted(store: Store, adminSecret: Option<string>, token: string, secret: Option<string>, now: Time)
    returns (reply: AdminReply)
    modifies store
    ensures store.sessions == AdminMarkStep(old(store.sessions), adminSecret, token, secret, now).0
    ensures reply == AdminMarkStep(old(store.sessions), adminSecret, token, secret, now).1
  {
    if !Truthy(adminSecret) {
      return AdminNotConfigured;
    }
    if secret != adminSecret {
      return AdminBadSecret;
    }
    if token !in store.sessions {
      return AdminNotFound;
    }
    store.MarkCompleted(token, now);
    reply := AdminOk(token);
  }
}
