/** app/telegram/video_service.py: "first unseen" delivery.  Each user keeps
    the list `sent_file_ids` of file ids already delivered; a delivery scans the
    oldest 200 catalog entries for the first one with a file id the user has not
    been sent, sends it, and adds its file id to the list with set semantics. */
module VideoService {
  import opened Common
  import opened Catalog

  /** A `users` document of the app deployment.  `sentFileIds` is `None` when
      the document has no `sent_file_ids` key; `freeUsed` is `None` when it has
      no `free_used` key (documents inserted by app/admin/routes.py). */
  datatype AppUser = AppUser(
    username: Option<string>,
    freeUsed: Option<int>,
    premiumUntil: PremiumUntil,
    sentFileIds: Option<seq<string>>,
    createdAt: Option<Time>)

  /** `.limit(200)` of the candidate scan. */
  const SCAN_LIMIT: nat := 200

  /** `user_doc.get("sent_file_ids", []) or []`. */
  function SentOf(u: AppUser): seq<string>
  {
    if u.sentFileIds.Some? then u.sentFileIds.value else []
  }

  /** `ensure_user_doc`: an existing document gains an empty `sent_file_ids`
      if it has none and is otherwise untouched; a new one starts with
      `free_used = 0`, no premium and an empty list. */
  function EnsureDocStep(users: map<int, AppUser>, id: int, username: Option<string>): (r: (map<int, AppUser>, AppUser))
    ensures r.0.Keys == users.Keys + {id}
    ensures forall k :: k in users && k != id ==> r.0[k] == users[k]
    ensures r.0[id] == r.1 && r.1.sentFileIds.Some?
    ensures id in users && users[id].sentFileIds.Some? ==> r.0 == users && r.1 == users[id]
    ensures id in users && users[id].sentFileIds.None? ==> r.1 == users[id].(sentFileIds := Some([]))
    ensures id !in users ==> r.1 == AppUser(username, Some(0), Unset, Some([]), None)
  {
    if id in users then
      if users[id].sentFileIds.None? then
        var u := users[id].(sentFileIds := Some([]));
        (users[id := u], u)
      else (users, users[id])
    else
      var u := AppUser(username, Some(0), Unset, Some([]), None);
      (users[id := u], u)
  }

  /** Ensuring a document twice is ensuring it once. */
  lemma EnsureDocIdempotent(users: map<int, AppUser>, id: int, username: Option<string>, other: Option<string>)
    ensures var once := EnsureDocStep(users, id, username);
            EnsureDocStep(once.0, id, other) == once
  {
  }

  /** A catalog entry the user may be sent: a non-empty file id not yet sent. */
  predicate Unseen(d: VideoDoc, sent: seq<string>)
    ensures d.fileId == "" ==> !Unseen(d, sent)
    ensures d.fileId in sent ==> !Unseen(d, sent)
    ensures d.fileId != "" && sent == [] ==> Unseen(d, sent)
  {
    d.fileId != "" && d.fileId !in sent
  }

  /** The first unseen entry of `cands`. */
  function FirstUnseen(cands: seq<VideoDoc>, sent: seq<string>): (r: Option<VideoDoc>)
    ensures r.None? <==> forall k :: 0 <= k < |cands| ==> !Unseen(cands[k], sent)
    ensures r.Some? ==> exists i :: 0 <= i < |cands| && cands[i] == r.value && Unseen(cands[i], sent) &&
                                    forall k :: 0 <= k < i ==> !Unseen(cands[k], sent)
  {
    if cands == [] then None
    else if Unseen(cands[0], sent) then Some(cands[0])
    else
      var r := FirstUnseen(cands[1..], sent);
      if r.Some? then
        var i :| 0 <= i < |cands[1..]| && cands[1..][i] == r.value && Unseen(cands[1..][i], sent) &&
                 forall k :: 0 <= k < i ==> !Unseen(cands[1..][k], sent);
        assert cands[i + 1] == r.value;
        r
      else r
  }

  /** What `get_unseen_video_for_user` selects from the catalog. */
  function UnseenVideo(videos: seq<VideoDoc>, sent: seq<string>): (r: Option<VideoDoc>)
    ensures r.Some? ==> Unseen(r.value, sent) && r.value in Oldest(videos, SCAN_LIMIT)
    ensures r.None? <==> forall k :: 0 <= k < |Oldest(videos, SCAN_LIMIT)| ==> !Unseen(Oldest(videos, SCAN_LIMIT)[k], sent)
  {
    FirstUnseen(Oldest(videos, SCAN_LIMIT), sent)
  }

  /** `$addToSet`: `x` is added unless already present. */
  function AddToSet(s: seq<string>, x: string): (r: seq<string>)
    ensures x in r
    ensures forall y :: y in r <==> y in s || y == x
    ensures x in s ==> r == s
    ensures |r| <= |s| + 1
  {
    if x in s then s else s + [x]
  }

  /** `record_sent`: the file id joins the user's list; an unknown user is left
      alone (no upsert). */
  function RecordStep(users: map<int, AppUser>, id: int, fid: string): (r: map<int, AppUser>)
    ensures r.Keys == users.Keys
    ensures forall k :: k in users && k != id ==> r[k] == users[k]
    ensures id in users ==> r[id] == users[id].(sentFileIds := Some(AddToSet(SentOf(users[id]), fid)))
  {
    if id in users then users[id := users[id].(sentFileIds := Some(AddToSet(SentOf(users[id]), fid)))] else users
  }

  /** Recording a file id hides exactly that entry: it is no longer unseen, and
      whether any other entry is unseen does not change. */
  lemma RecordHidesEntry(d: VideoDoc, sent: seq<string>, fid: string)
    ensures !Unseen(d, AddToSet(sent, d.fileId))
    ensures fid != d.fileId ==> (Unseen(d, AddToSet(sent, fid)) <==> Unseen(d, sent))
  {
  }

  /** Recording a file id twice is recording it once. */
  lemma RecordIdempotent(users: map<int, AppUser>, id: int, fid: string)
    ensures RecordStep(RecordStep(users, id, fid), id, fid) == RecordStep(users, id, fid)
  {
  }

  /** `send_one_video` for the user `id` read as `udoc`: the selected entry, if
      any and if the send succeeds, is delivered and recorded. */
  function SendOneStep(users: map<int, AppUser>, videos: seq<VideoDoc>, id: int, udoc: AppUser,
                       sendOk: bool): (r: (map<int, AppUser>, Option<VideoDoc>))
    ensures r.1.Some? <==> sendOk && UnseenVideo(videos, SentOf(udoc)).Some?
    ensures r.1.None? ==> r.0 == users
    ensures r.1.Some? ==> r.1 == UnseenVideo(videos, SentOf(udoc)) && r.0 == RecordStep(users, id, r.1.value.fileId)
  {
    match UnseenVideo(videos, SentOf(udoc))
    case None => (users, None)
    case Some(v) => if sendOk then (RecordStep(users, id, v.fileId), Some(v)) else (users, None)
  }

  /** A run of deliveries to one existing user, each reading the user's
      current document; the file ids delivered, in order. */
  function SendRun(users: map<int, AppUser>, videos: seq<VideoDoc>, id: int, sends: seq<bool>): (map<int, AppUser>, seq<string>)
    requires id in users
    decreases |sends|
  {
    if sends == [] then (users, [])
    else
      var s := SendOneStep(users, videos, id, users[id], sends[0]);
      var rest := SendRun(s.0, videos, id, sends[1..]);
      (rest.0, (if s.1.Some? then [s.1.value.fileId] else []) + rest.1)
  }

  /** No file is delivered twice to the same user, none that was already sent
      before the run, and every delivery ends up in the user's list. */
  lemma {:induction false} NoRepeatDeliveries(users: map<int, AppUser>, videos: seq<VideoDoc>, id: int, sends: seq<bool>)
    requires id in users
    ensures var r := SendRun(users, videos, id, sends);
            && id in r.0
            && (forall i, j :: 0 <= i < j < |r.1| ==> r.1[i] != r.1[j])
            && (forall i :: 0 <= i < |r.1| ==> r.1[i] !in SentOf(users[id]) && r.1[i] in SentOf(r.0[id]))
            && (forall x :: x in SentOf(users[id]) ==> x in SentOf(r.0[id]))
    decreases |sends|
  {
    if sends != [] {
      var s := SendOneStep(users, videos, id, users[id], sends[0]);
      NoRepeatDeliveries(s.0, videos, id, sends[1..]);
      var rest := SendRun(s.0, videos, id, sends[1..]);
      var head: seq<string> := if s.1.Some? then [s.1.value.fileId] else [];
      assert SendRun(users, videos, id, sends).1 == head + rest.1;
      if s.1.Some? {
        var fid := s.1.value.fileId;
        assert fid !in SentOf(users[id]);
        assert fid in SentOf(s.0[id]);
        assert forall x :: x in SentOf(users[id]) ==> x in SentOf(s.0[id]);
      }
    }
  }

  /** The app deployment's `users` and `videos` collections; `videos` in
      ascending `created_at` order. */
  class AppDb {
    var users: map<int, AppUser>
    var videos: seq<VideoDoc>

    constructor (videos: seq<VideoDoc>)
      ensures this.users == map[] && this.videos == videos
    {
      this.users := map[];
      this.videos := videos;
    }

    method EnsureUserDoc(id: int, username: Option<string>) returns (doc: AppUser)
      modifies this
      ensures users == EnsureDocStep(old(users), id, username).0
      ensures doc == EnsureDocStep(old(users), id, username).1
      ensures videos == old(videos)
    {
      if id in users {
        doc := users[id];
        if doc.sentFileIds.None? {
          doc := doc.(sentFileIds := Some([]));
          users := users[id := doc];
        }
        return;
      }
      doc := AppUser(username, Some(0), Unset, Some([]), None);
      users := users[id := doc];
    }

    /** The scan: the first of the oldest 200 entries whose file id is
        non-empty and not in the user's list. */
    method GetUnseenVideoForUser(udoc: AppUser) returns (v: Option<VideoDoc>)
      ensures v == UnseenVideo(videos, SentOf(udoc))
    {
      var sent := SentOf(udoc);
      var cands := Oldest(videos, SCAN_LIMIT);
      var i := 0;
      while i < |cands|
        invariant 0 <= i <= |cands|
        invariant forall k :: 0 <= k < i ==> !Unseen(cands[k], sent)
      {
        var d := cands[i];
        if d.fileId != "" && d.fileId !in sent {
          return Some(d);
        }
        i := i + 1;
      }
      return None;
    }

    method RecordSent(id: int, fid: string)
      modifies this
      ensures users == RecordStep(old(users), id, fid)
      ensures videos == old(videos)
    {
      if id in users {
        var u := users[id];
        var sent := SentOf(u);
        if fid !in sent {
          sent := sent + [fid];
        }
        users := users[id := u.(sentFileIds := Some(sent))];
      }
    }

    method SendOneVideo(id: int, udoc: AppUser, sendOk: bool) returns (ok: bool)
      modifies this
      ensures users == SendOneStep(old(users), videos, id, udoc, sendOk).0
      ensures ok == SendOneStep(old(users), videos, id, udoc, sendOk).1.Some?
      ensures videos == old(videos)
    {
      var vid := GetUnseenVideoForUser(udoc);
      if vid.None? {
        return false;
      }
      if !sendOk {
        return false;
      }
      RecordSent(id, vid.value.fileId);
      return true;
    }
  }
}
