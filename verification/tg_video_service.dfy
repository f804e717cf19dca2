/** telegram/video_service.py: the root-level variant of "first unseen"
    delivery.  The user's list is `sent`; the candidate is the first catalog
    entry, in the collection's natural order, whose file id is not in it; a
    successful send appends the file id to the list. */
module TgVideoService {
  import opened Common
  import opened Catalog

  /** A `users` document of the root-level deployment; `sent` is `None` when
      the document has no `sent` key. */
  datatype TgUser = TgUser(sent: Option<seq<string>>, freeUsed: Option<int>)

  /** `user.get("sent", [])`. */
  function SentOf(u: TgUser): seq<string>
  {
    if u.sent.Some? then u.sent.value else []
  }

  /** `ensure_user`: insert `{sent: [], free_used: 0}` only for an unknown user. */
  function EnsureStep(users: map<int, TgUser>, id: int): (r: (map<int, TgUser>, TgUser))
    ensures r.0.Keys == users.Keys + {id}
    ensures id in users ==> r.0 == users && r.1 == users[id]
    ensures id !in users ==> r.1 == TgUser(Some([]), Some(0)) && r.0 == users[id := r.1]
  {
    if id in users then (users, users[id]) else (users[id := TgUser(Some([]), Some(0))], TgUser(Some([]), Some(0)))
  }

  /** `videos.find_one({"file_id": {"$nin": sent}})`. */
  function FirstNotIn(videos: seq<VideoDoc>, sent: seq<string>): (r: Option<VideoDoc>)
    ensures r.None? <==> forall k :: 0 <= k < |videos| ==> videos[k].fileId in sent
    ensures r.Some? ==> r.value in videos && r.value.fileId !in sent
    ensures r.Some? ==> exists i :: 0 <= i < |videos| && videos[i] == r.value &&
                                    forall k :: 0 <= k < i ==> videos[k].fileId in sent
  {
    if videos == [] then None
    else if videos[0].fileId !in sent then Some(videos[0])
    else
      var r := FirstNotIn(videos[1..], sent);
      if r.Some? then
        var i :| 0 <= i < |videos[1..]| && videos[1..][i] == r.value &&
                 forall k :: 0 <= k < i ==> videos[1..][k].fileId in sent;
        assert videos[i + 1] == r.value;
        r
      else r
  }

  /** `send_video` for the user `id` read as `udoc`: no candidate or a failed
      send changes nothing; a successful send `$push`es the file id. */
  function SendStep(users: map<int, TgUser>, videos: seq<VideoDoc>, id: int, udoc: TgUser, sendOk: bool): (r: (map<int, TgUser>, Option<VideoDoc>))
    ensures r.1.Some? <==> sendOk && FirstNotIn(videos, SentOf(udoc)).Some?
    ensures r.1.None? ==> r.0 == users
    ensures r.1.Some? ==> r.1 == FirstNotIn(videos, SentOf(udoc)) && r.1.value.fileId !in SentOf(udoc)
    ensures r.1.Some? ==> r.0.Keys == users.Keys &&
                          (forall k :: k in users && k != id ==> r.0[k] == users[k]) &&
                          (id in users ==> r.0[id] == users[id].(sent := Some(SentOf(users[id]) + [r.1.value.fileId])))
  {
    match FirstNotIn(videos, SentOf(udoc))
    case None => (users, None)
    case Some(v) =>
      if !sendOk then (users, None)
      else if id in users then (users[id := users[id].(sent := Some(SentOf(users[id]) + [v.fileId]))], Some(v))
      else (users, Some(v))
  }

  /** A file just delivered is not selected again for the user's next request. */
  lemma NextSendSkipsDelivered(users: map<int, TgUser>, videos: seq<VideoDoc>, id: int, sendOk: bool, sendOk2: bool)
    requires id in users
    requires SendStep(users, videos, id, users[id], sendOk).1.Some?
    ensures var s := SendStep(users, videos, id, users[id], sendOk);
            var next := FirstNotIn(videos, SentOf(s.0[id]));
            next.Some? ==> next.value.fileId != s.1.value.fileId && next.value.fileId !in SentOf(users[id])
  {
    var s := SendStep(users, videos, id, users[id], sendOk);
    assert SentOf(s.0[id]) == SentOf(users[id]) + [s.1.value.fileId];
  }

  /** The root-level `users` and `videos` collections. */
  class TgDb {
    var users: map<int, TgUser>
    var videos: seq<VideoDoc>

    constructor (videos: seq<VideoDoc>)
      ensures this.users == map[] && this.videos == videos
    {
      this.users := map[];
      this.videos := videos;
    }

    method EnsureUser(id: int) returns (u: TgUser)
      modifies this
      ensures users == EnsureStep(old(users), id).0 && u == EnsureStep(old(users), id).1
      ensures videos == old(videos)
    {
      if id in users {
        return users[id];
      }
      u := TgUser(Some([]), Some(0));
      users := users[id := u];
    }

    method SendVideo(id: int, udoc: TgUser, sendOk: bool) returns (sentVideo: Option<VideoDoc>)
      modifies this
      ensures users == SendStep(old(users), videos, id, udoc, sendOk).0
      ensures sentVideo == SendStep(old(users), videos, id, udoc, sendOk).1
      ensures videos == old(videos)
    {
      var v := FirstNotIn(videos, SentOf(udoc));
      if v.None? || !sendOk {
        return None;
      }
      if id in users {
        users := users[id := users[id].(sent := Some(SentOf(users[id]) + [v.value.fileId]))];
      }
      return v;
    }
  }
}
