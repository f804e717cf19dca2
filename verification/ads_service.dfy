/** ads/service.py: ad sessions whose progress is a `completed` flag, keyed by
    token.  A session is stored with `completed = False` and no short link,
    then a link shortener is asked (when configured) for a short URL of the
    session's callback URL; `mark_completed` sets the flag unconditionally.

    The same operations stand for the `app.ads.service` helpers that
    app/telegram/handlers_ad.py and app/web/ad_routes.py call; those pass a
    destination URL, which is stored with the session. */
module AdsService {
  import opened Common

  datatype Session = Session(
    userId: int,
    callbackUrl: string,
    shortUrl: Option<string>,
    completed: bool,
    createdAt: Time,
    completedAt: Option<Time>,
    destUrl: Option<string>)

  const CALLBACK_PATH: string := "/ad/callback/"

  /** `callback_url(token)` with `DOMAIN` taken from the environment and its
      trailing slashes removed. */
  function CallbackUrl(domain: string, token: string): (r: string)
    ensures StartsWith(r, RStripSlash(domain) + CALLBACK_PATH)
    ensures r[|RStripSlash(domain) + CALLBACK_PATH|..] == token
    ensures |r| > |token|
  {
    RStripSlash(domain) + CALLBACK_PATH + token
  }

  /** The domain part of a callback URL never ends in a slash, so the path is
      never doubled, whatever slashes the configured domain ends with. */
  lemma CallbackUrlSingleSlash(domain: string, token: string)
    ensures var d := RStripSlash(domain);
            var r := CallbackUrl(domain, token);
            r[|d|] == '/' && (|d| == 0 || r[|d| - 1] != '/')
  {
  }

  /** What the link shortener did: raised (timeout, connection error), or
      answered with a status code and a body. */
  datatype ProviderReply = Raised | Answered(status: int, text: string)

  predicate NoSpace(w: string)
  {
    forall k :: 0 <= k < |w| ==> !IsSpace(w[k])
  }

  /** The short URL kept for a new session: only with a configured shortener
      that answered 200 with a body containing "http", stripped. */
  function ShortFromProvider(apiUrl: string, reply: ProviderReply): (r: Option<string>)
    ensures r.Some? <==> apiUrl != "" && reply.Answered? && reply.status == 200 && Contains(reply.text, "http")
    ensures r.Some? ==> r.value == Strip(reply.text) && Contains(r.value, "http")
  {
    if apiUrl != "" && reply.Answered? && reply.status == 200 && Contains(reply.text, "http") then
      assert NoSpace("http") by {
        forall k | 0 <= k < 4 ensures !IsSpace("http"[k]) {
          assert "http"[k] in "http";
        }
      }
      StripKeepsWord(reply.text, "http");
      Some(Strip(reply.text))
    else None
  }

  /** The document first inserted for a new session. */
  function NewSession(userId: int, destUrl: Option<string>, token: string, now: Time, domain: string): (r: Session)
    ensures !r.completed && r.completedAt.None? && r.shortUrl.None?
    ensures r.userId == userId && r.destUrl == destUrl && r.createdAt == now
    ensures r.callbackUrl == CallbackUrl(domain, token) && r.callbackUrl[|r.callbackUrl| - |token|..] == token
  {
    Session(userId, CallbackUrl(domain, token), None, false, now, None, destUrl)
  }

  function GetSession(sessions: map<string, Session>, token: string): (r: Option<Session>)
    ensures r.Some? <==> token in sessions
    ensures r.Some? ==> r.value == sessions[token]
  {
    if token in sessions then Some(sessions[token]) else None
  }

  /** `mark_completed`: the flag and the instant are set whatever the current
      state; an unknown token matches nothing. */
  function MarkStep(sessions: map<string, Session>, token: string, now: Time): (r: map<string, Session>)
    ensures r.Keys == sessions.Keys
    ensures forall k :: k in sessions && k != token ==> r[k] == sessions[k]
    ensures token in sessions ==>
              r[token].completed && r[token].completedAt == Some(now) &&
              r[token].(completed := sessions[token].completed, completedAt := sessions[token].completedAt) == sessions[token]
  {
    if token in sessions then sessions[token := sessions[token].(completed := true, completedAt := Some(now))]
    else sessions
  }

  /** Marking again keeps the session completed and moves only its instant. */
  lemma MarkTwice(sessions: map<string, Session>, token: string, t1: Time, t2: Time)
    ensures MarkStep(MarkStep(sessions, token, t1), token, t2) == MarkStep(sessions, token, t2)
  {
  }

  /** The `ad_sessions` collection. */
  class Store {
    var sessions: map<string, Session>

    constructor ()
      ensures sessions == map[]
    {
      sessions := map[];
    }

    /** `create_ad_session`: insert first, then ask the shortener (`reply` is
        its answer) and store the short URL it yields. */
    method CreateAdSession(userId: int, destUrl: Option<string>, token: string, now: Time, domain: string,
                           apiUrl: string, reply: ProviderReply) returns (doc: Session)
      requires token !in sessions
      modifies this
      ensures doc == NewSession(userId, destUrl, token, now, domain).(shortUrl := ShortFromProvider(apiUrl, reply))
      ensures sessions == old(sessions)[token := doc]
      ensures !doc.completed && doc.completedAt.None? && doc.callbackUrl == CallbackUrl(domain, token)
    {
      doc := NewSession(userId, destUrl, token, now, domain);
      sessions := sessions[token := doc];
      if apiUrl != "" && reply.Answered? {
        if reply.status == 200 && Contains(reply.text, "http") {
          var short := ShortFromProvider(apiUrl, reply).value;
          sessions := sessions[token := sessions[token].(shortUrl := Some(short))];
          doc := doc.(shortUrl := Some(short));
        }
      }
    }

    method MarkCompleted(token: string, now: Time)
      modifies this
      ensures sessions == MarkStep(old(sessions), token, now)
    {
      if token in sessions {
        sessions := sessions[token := sessions[token].(completed := true, completedAt := Some(now))];
      }
    }
  }

  /** A shortener that fails leaves the session stored, uncompleted and without
      a short URL. */
  lemma ProviderFailureKeepsSession(userId: int, destUrl: Option<string>, token: string, now: Time,
                                    domain: string, apiUrl: string)
    ensures ShortFromProvider(apiUrl, Raised).None?
    ensures var d := NewSession(userId, destUrl, token, now, domain).(shortUrl := ShortFromProvider(apiUrl, Raised));
            !d.completed && d.shortUrl.None? && d.callbackUrl == CallbackUrl(domain, token)
  {
  }
}
