/** Ad sessions whose progress is a `status` string ("pending", then
    "completed"), keyed by token.  This is the shape written by server.py and
    read and updated by app/routes.py, app/ads/service.py and the `ad_col`
    lookups of app/telegram/handlers.py.  Tokens come from `uuid4` and are
    taken to be fresh. */
module StatusStore {
  import opened Common

  datatype StatusSession = StatusSession(
    userId: Option<int>,
    status: Option<string>,
    createdAt: Option<Time>,
    clickedAt: Option<Time>,
    completedAt: Option<Time>)

  const PENDING: string := "pending"
  const COMPLETED: string := "completed"

  /** The record `create_ad_session` inserts. */
  function PendingSession(userId: Option<int>, now: Time): (r: StatusSession)
    ensures IsPending(r) && !IsCompleted(r)
    ensures r.userId == userId && r.createdAt == Some(now)
    ensures r.clickedAt.None? && r.completedAt.None?
  {
    StatusSession(userId, Some(PENDING), Some(now), None, None)
  }

  predicate IsPending(s: StatusSession)
  {
    s.status == Some(PENDING)
  }

  predicate IsCompleted(s: StatusSession)
  {
    s.status == Some(COMPLETED)
  }

  /** `update_one({"token": token}, {"$set": {"clicked_at": now}})`: the click
      instant of an existing session, nothing for an unknown token. */
  function MarkClicked(sessions: map<string, StatusSession>, token: string, now: Time): (r: map<string, StatusSession>)
    ensures r.Keys == sessions.Keys
    ensures forall k :: k in sessions && k != token ==> r[k] == sessions[k]
    ensures token in sessions ==> r[token] == sessions[token].(clickedAt := Some(now))
  {
    if token in sessions then sessions[token := sessions[token].(clickedAt := Some(now))] else sessions
  }

  /** Replies of the `/ad/callback` routes: 400, "ok", "ignored". */
  datatype CallbackReply = CbMissingToken | CbOk | CbIgnored

  /** What an `/ad/status/<token>` route reports. */
  datatype StatusView = NotFound | Found(token: string, status: Option<string>)

  /** The reply as an HTTP client sees it: 404 with no `status` field, or 200
      with the reported status. */
  function StatusHttp(v: StatusView): (r: StatusReply)
    ensures r.HttpReply?
    ensures r.code == 200 <==> v.Found?
    ensures v.Found? ==> r.status == v.status
  {
    match v
    case NotFound => HttpReply(404, None)
    case Found(_, status) => HttpReply(200, status)
  }

  /** The `ad_sessions` collection. */
  class SessionStore {
    var sessions: map<string, StatusSession>

    constructor ()
      ensures sessions == map[]
    {
      sessions := map[];
    }
  }
}
