/** app/admin/routes.py: the administrator's HTTP endpoints, gated on the
    configured set of admin ids. */
module AdminRoutes {
  import opened Common
  import opened Catalog
  import opened VideoService

  /** `check_admin`. */
  predicate CheckAdmin(adminIds: set<int>, adminId: int)
    ensures adminIds == {} ==> !CheckAdmin(adminIds, adminId)
    ensures CheckAdmin(adminIds, adminId) <==> adminId in adminIds
  {
    adminId in adminIds
  }

  /** How many documents `list_videos` returns at most. */
  const LIST_LIMIT: nat := 200

  /** The fields `list_videos` exposes for each entry. */
  datatype VideoSummary = VideoSummary(fileId: string, caption: string, channelId: Option<int>)

  function Summary(d: VideoDoc): VideoSummary
  {
    VideoSummary(d.fileId, d.caption, d.channelId)
  }

  datatype ListReply = ListForbidden | Listing(count: nat, items: seq<VideoSummary>)

  /** `list_videos`: 403 for a non-admin; otherwise the newest 200 entries,
      newest first, and their number. */
  function ListVideos(videos: seq<VideoDoc>, adminIds: set<int>, adminId: int): (r: ListReply)
    requires Ordered(videos)
    ensures r.ListForbidden? <==> !CheckAdmin(adminIds, adminId)
    ensures r.Listing? ==>
              && r.count == |r.items|
              && r.count == (if |videos| < LIST_LIMIT then |videos| else LIST_LIMIT)
              && (forall k :: 0 <= k < |r.items| ==> r.items[k] == Summary(videos[|videos| - 1 - k]))
  {
    if !CheckAdmin(adminIds, adminId) then ListForbidden
    else
      var docs := Newest(videos, LIST_LIMIT);
      Listing(|docs|, seq(|docs|, k requires 0 <= k < |docs| => Summary(docs[k])))
  }

  /** The listing holds the newest entries: every entry left out is no newer
      than any entry listed. */
  lemma ListedAreNewest(videos: seq<VideoDoc>, i: int, j: int)
    requires Ordered(videos)
    requires 0 <= i < |videos| - |Newest(videos, LIST_LIMIT)|
    requires 0 <= j < |Newest(videos, LIST_LIMIT)|
    ensures videos[i].createdAt <= Newest(videos, LIST_LIMIT)[j].createdAt
  {
    assert Newest(videos, LIST_LIMIT)[j] == videos[|videos| - 1 - j];
  }

  /** `GrantOverflow`: `utcnow() + timedelta(days=days)` raised `OverflowError`
      after the missing user was inserted; the route answers 500. */
  datatype GrantReply = GrantForbidden | GrantOverflow | Granted(userId: int, until: Time)

  /** `grant_premium`: 403 for a non-admin; otherwise a missing user is
      inserted with its creation instant and an empty `sent_file_ids`, and
      `premium_until` becomes `now + days`; nothing else of the user changes.
      An expiry `datetime` cannot hold fails after the insert, which stays. */
  function GrantStep(users: map<int, AppUser>, adminIds: set<int>, adminId: int, userId: int, days: int,
                     now: Time): (r: (map<int, AppUser>, GrantReply))
    ensures r.1.GrantForbidden? <==> !CheckAdmin(adminIds, adminId)
    ensures r.1.GrantForbidden? ==> r.0 == users
    ensures r.1.GrantOverflow? <==> CheckAdmin(adminIds, adminId) && AddDays(now, days).None?
    ensures r.1.GrantOverflow? ==>
              && r.0.Keys == users.Keys + {userId}
              && (forall k :: k in users ==> r.0[k] == users[k])
              && (userId !in users ==> r.0[userId] == AppUser(None, None, Unset, Some([]), Some(now)))
    ensures r.1.Granted? ==>
              var until := now + days * SECONDS_PER_DAY;
              && r.1 == Granted(userId, until)
              && InDatetimeRange(until)
              && r.0.Keys == users.Keys + {userId}
              && (forall k :: k in users && k != userId ==> r.0[k] == users[k])
              && r.0[userId].premiumUntil == At(until)
              && (userId in users ==> r.0[userId] == users[userId].(premiumUntil := At(until)))
              && (userId !in users ==> r.0[userId] == AppUser(None, None, At(until), Some([]), Some(now)))
  {
    if !CheckAdmin(adminIds, adminId) then (users, GrantForbidden)
    else
      var base := if userId in users then users[userId] else AppUser(None, None, Unset, Some([]), Some(now));
      match AddDays(now, days)
      case None => (users[userId := base], GrantOverflow)
      case Some(until) => (users[userId := base.(premiumUntil := At(until))], Granted(userId, until))
  }

  /** A grant of more days than `datetime` spans to an unknown user fails with
      500, yet the user inserted before the failure stays, without premium. */
  lemma OverflowKeepsInsert(users: map<int, AppUser>, adminIds: set<int>, adminId: int, userId: int, days: int,
                            now: Time)
    requires CheckAdmin(adminIds, adminId) && InDatetimeRange(now) && days >= 3652059 && userId !in users
    ensures var r := GrantStep(users, adminIds, adminId, userId, days, now);
            r.1 == GrantOverflow && r.0 == users[userId := AppUser(None, None, Unset, Some([]), Some(now))]
  {
    AddDaysRange(now, days);
  }

  /** Granting keeps what the user has already been sent. */
  lemma GrantKeepsHistory(users: map<int, AppUser>, adminIds: set<int>, adminId: int, userId: int, days: int, now: Time)
    requires userId in users
    ensures SentOf(GrantStep(users, adminIds, adminId, userId, days, now).0[userId]) == SentOf(users[userId])
  {
  }

  method GrantPremium(db: AppDb, adminIds: set<int>, adminId: int, userId: int, days: int, now: Time)
    returns (reply: GrantReply)
    modifies db
    ensures db.users == GrantStep(old(db.users), adminIds, adminId, userId, days, now).0
    ensures reply == GrantStep(old(db.users), adminIds, adminId, userId, days, now).1
    ensures db.videos == old(db.videos)
  {
    if !CheckAdmin(adminIds, adminId) {
      return GrantForbidden;
    }
    if userId !in db.users {
      db.users := db.users[userId := AppUser(None, None, Unset, Some([]), Some(now))];
    }
    var sum := AddDays(now, days);
    if sum.None? {
      return GrantOverflow;
    }
    var until := sum.value;
    db.users := db.users[userId := db.users[userId].(premiumUntil := At(until))];
    reply := Granted(userId, until);
  }
}
