/** app/telegram/handlers_ad.py: the "watch an ad" keyboard and the check run
    when the user presses "I Watched".  Sessions are completed-flag sessions
    (`AdsService`); the user documents are those of the app deployment
    (`VideoService.AppUser`), whose counter is `free_used`. */
module HandlersAd {
  import opened Common
  import opened VideoService
  import opened AdsService
  import Handlers

  datatype Button = UrlButton(text: string, url: string) | CallbackButton(text: string, data: string)

  const WATCH_TEXT: string := "Watch Ad (open)"
  const WATCHED_TEXT: string := "I Watched ✅"
  const BUY_TEXT: string := "Buy Premium"
  const AD_CHECK_PREFIX: string := "ad_check:"

  /** `make_watch_keyboard`: the ad link when there is one, the "I Watched"
      button carrying the token, and the admin contact when there is one, in
      that order. */
  method MakeWatchKeyboard(token: string, shortUrl: Option<string>, adminContact: Option<string>)
    returns (buttons: seq<Button>)
    ensures |buttons| == 1 + (if Truthy(shortUrl) then 1 else 0) + (if Truthy(adminContact) then 1 else 0)
    ensures Truthy(shortUrl) ==> buttons[0] == UrlButton(WATCH_TEXT, shortUrl.value)
    ensures buttons[if Truthy(shortUrl) then 1 else 0] == CallbackButton(WATCHED_TEXT, AD_CHECK_PREFIX + token)
    ensures Truthy(adminContact) ==> buttons[|buttons| - 1] == UrlButton(BUY_TEXT, adminContact.value)
    ensures forall k :: 0 <= k < |buttons| && buttons[k].CallbackButton? ==>
              buttons[k] == CallbackButton(WATCHED_TEXT, AD_CHECK_PREFIX + token)
  {
    buttons := [];
    if Truthy(shortUrl) {
      buttons := buttons + [UrlButton(WATCH_TEXT, shortUrl.value)];
    }
    buttons := buttons + [CallbackButton(WATCHED_TEXT, AD_CHECK_PREFIX + token)];
    if Truthy(adminContact) {
      buttons := buttons + [UrlButton(BUY_TEXT, adminContact.value)];
    }
  }

  /** The "I Watched" data gives the check back exactly the token it was built from. */
  lemma WatchedButtonCarriesToken(token: string)
    ensures StartsWith(AD_CHECK_PREFIX + token, AD_CHECK_PREFIX)
    ensures AfterFirst(AD_CHECK_PREFIX + token, ':') == Some(token)
  {
    var data := AD_CHECK_PREFIX + token;
    assert data[..9] == AD_CHECK_PREFIX;
    Handlers.CallbackArgument(data, "ad_check:");
    assert data[9..] == token;
  }

  /** What the check tells the user: not an ad check (`False`), the session is
      unknown, not verified yet (with the ad link again when it has one), or
      verified for the session's user. */
  datatype CheckReply = NotAdCheck | SessionNotFound | NotVerified(adLink: Option<string>) | Verified(owner: int)

  /** `users.update_one({"user_id": uid}, {"$set": {"free_used": 0}})`. */
  function ResetFree(users: map<int, AppUser>, uid: int): (r: map<int, AppUser>)
    ensures r.Keys == users.Keys
    ensures forall k :: k in users && k != uid ==> r[k] == users[k]
    ensures uid in users ==> r[uid] == users[uid].(freeUsed := Some(0))
  {
    if uid in users then users[uid := users[uid].(freeUsed := Some(0))] else users
  }

  /** `handle_ad_check_callback` on `data or ""`. */
  function CheckStep(users: map<int, AppUser>, sessions: map<string, Session>, data: Option<string>): (r: (map<int, AppUser>, CheckReply))
    ensures var d := if data.Some? then data.value else "";
            && (r.1.NotAdCheck? <==> !StartsWith(d, AD_CHECK_PREFIX))
            && (r.1.SessionNotFound? <==> StartsWith(d, AD_CHECK_PREFIX) && d[9..] !in sessions)
            && (r.1.NotVerified? <==> StartsWith(d, AD_CHECK_PREFIX) && d[9..] in sessions && !sessions[d[9..]].completed)
            && (r.1.Verified? <==> StartsWith(d, AD_CHECK_PREFIX) && d[9..] in sessions && sessions[d[9..]].completed)
            && (r.1.NotVerified? ==> r.1.adLink == (if Truthy(sessions[d[9..]].shortUrl) then sessions[d[9..]].shortUrl else None))
            && (r.1.Verified? ==> r.1.owner == sessions[d[9..]].userId && r.0 == ResetFree(users, r.1.owner))
    ensures !r.1.Verified? ==> r.0 == users
  {
    var d := if data.Some? then data.value else "";
    if !StartsWith(d, AD_CHECK_PREFIX) then (users, NotAdCheck)
    else
      Handlers.CallbackArgument(d, "ad_check:");
      var token := AfterFirst(d, ':').value;
      match GetSession(sessions, token)
      case None => (users, SessionNotFound)
      case Some(s) =>
        if !s.completed then (users, NotVerified(if Truthy(s.shortUrl) then s.shortUrl else None))
        else (ResetFree(users, s.userId), Verified(s.userId))
  }

  /** The reset lands on the session's user, whoever pressed the button, and
      pressing again changes nothing more. */
  lemma CheckIdempotent(users: map<int, AppUser>, sessions: map<string, Session>, data: Option<string>)
    ensures var once := CheckStep(users, sessions, data);
            CheckStep(once.0, sessions, data) == once
  {
    var once := CheckStep(users, sessions, data);
    if once.1.Verified? {
      assert ResetFree(once.0, once.1.owner) == once.0;
    }
  }

  method HandleAdCheckCallback(db: AppDb, store: Store, data: Option<string>) returns (handled: bool, reply: CheckReply)
    modifies db
    ensures db.users == CheckStep(old(db.users), store.sessions, data).0
    ensures reply == CheckStep(old(db.users), store.sessions, data).1
    ensures handled <==> !reply.NotAdCheck?
    ensures db.videos == old(db.videos)
  {
    var d := if data.Some? then data.value else "";
    if !StartsWith(d, AD_CHECK_PREFIX) {
      return false, NotAdCheck;
    }
    Handlers.CallbackArgument(d, "ad_check:");
    var token := AfterFirst(d, ':').value;
    var session := GetSession(store.sessions, token);
    if session.None? {
      return true, SessionNotFound;
    }
    var s := session.value;
    if !s.completed {
      return true, NotVerified(if Truthy(s.shortUrl) then s.shortUrl else None);
    }
    if s.userId in db.users {
      db.users := db.users[s.userId := db.users[s.userId].(freeUsed := Some(0))];
    }
    return true, Verified(s.userId);
  }
}
