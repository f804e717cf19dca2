/** bot.py: the polling bot.  Its users map holds, per Telegram user id, the
    premium expiry, the sequential catalog cursor (`video_index`) and the free
    counter of the current cycle (`free_used_in_cycle`).  A `free_video` press is
    served to a premium user, served to a free user under `FREE_BATCH`, and
    otherwise answered with an ad offer; an `ad_check:<token>` press asks the ad
    server for the token's status and, on "completed", opens a new cycle.

    Each handler is a method of `BotDb` (the `users_col`/`videos_col` pair) whose
    new state is given by a step function on values; the properties are proved
    about the step functions. */
module Bot {
  import opened Common
  import opened Catalog

  /** A `users` document of bot.py.  A counter missing from a stored document
      (one created by the upsert of `grant_premium`) is 0 here: every reader uses
      `.get(field, 0)` and `$inc` starts a missing field from 0. */
  datatype User = User(
    username: Option<string>,
    premiumUntil: PremiumUntil,
    videoIndex: nat,
    freeUsedInCycle: nat,
    cycle: nat,
    createdAt: Option<Time>)

  /** The default of `FREE_BATCH`. */
  const DEFAULT_FREE_BATCH: int := 5

  /** `is_admin`: membership in `ADMIN_IDS`; with the variable unset nobody is an admin. */
  predicate IsAdmin(adminIds: set<int>, userId: int)
    ensures adminIds == {} ==> !IsAdmin(adminIds, userId)
    ensures IsAdmin(adminIds, userId) <==> userId in adminIds
  {
    userId in adminIds
  }

  /** The document `ensure_user` inserts for a first contact. */
  function NewUser(username: Option<string>, now: Time): User
  {
    User(username, Unset, 0, 0, 0, Some(now))
  }

  /** `a` and `b` agree on everything but the username. */
  predicate SameProgress(a: User, b: User)
  {
    a.(username := b.username) == b
  }

  datatype Ensured = Ensured(users: map<int, User>, doc: User)

  /** `ensure_user`: lazily create the record, otherwise refresh only the
      username; `doc` is the document the caller goes on with (for an existing
      user the one read before the username update). */
  function EnsureStep(users: map<int, User>, id: int, username: Option<string>, now: Time): (r: Ensured)
    ensures r.users.Keys == users.Keys + {id}
    ensures forall k :: k in users && k != id ==> r.users[k] == users[k]
    ensures id in users ==> r.doc == users[id] && SameProgress(r.users[id], users[id])
    ensures id !in users ==> r.doc == NewUser(username, now) && r.users[id] == r.doc
    ensures SameProgress(r.users[id], r.doc)
    ensures r.users[id].username == if Truthy(username) then username else r.doc.username
  {
    if id in users then
      var u := users[id];
      if Truthy(username) && u.username != username then Ensured(users[id := u.(username := username)], u)
      else Ensured(users, u)
    else
      Ensured(users[id := NewUser(username, now)], NewUser(username, now))
  }

  /** Ensuring twice is ensuring once. */
  lemma EnsureIdempotent(users: map<int, User>, id: int, username: Option<string>, now: Time, later: Time)
    ensures var once := EnsureStep(users, id, username, now);
            EnsureStep(once.users, id, username, later).users == once.users
  {
  }

  /** `is_premium`: strictly before the stored expiry; never for an absent or
      unparseable expiry. */
  predicate IsPremium(u: User, now: Time)
    ensures IsPremium(u, now) ==> u.premiumUntil.At? && now < u.premiumUntil.t
    ensures u.premiumUntil.At? && now < u.premiumUntil.t ==> IsPremium(u, now)
  {
    match u.premiumUntil
    case At(t) => t > now
    case Unset => false
    case Unparseable => false
  }

  /** Premium only lapses: a user premium at some instant was premium at every
      earlier one, and nobody is premium once the expiry is reached. */
  lemma PremiumLapses(u: User, earlier: Time, later: Time)
    requires earlier <= later
    ensures IsPremium(u, later) ==> IsPremium(u, earlier)
    ensures u.premiumUntil.At? && u.premiumUntil.t <= later ==> !IsPremium(u, later)
  {
  }

  /** What a callback press leads to (the message the user is shown). */
  datatype Outcome =
    | HelpShown
    | SubscribeShown
    | Delivered(video: VideoDoc)
    | NoVideos
    | SendFailed
    | AdOffered
    | AdUnavailable
    | Unlocked
    | NotVerified
    | VerifyFailed
    | Ignored

  datatype Step = Step(users: map<int, User>, outcome: Outcome)

  /** A delivery was attempted (the catalog cursor was consulted). */
  predicate Attempted(o: Outcome)
  {
    o.Delivered? || o.NoVideos? || o.SendFailed?
  }

  /** The ad wall: an ad session was requested instead of a delivery. */
  predicate Walled(o: Outcome)
  {
    o.AdOffered? || o.AdUnavailable?
  }

  /** The record after a successful send: `$inc` of `video_index`, and of
      `free_used_in_cycle` for a non-premium send. */
  function Credit(u: User, premium: bool): User
  {
    u.(videoIndex := u.videoIndex + 1, freeUsedInCycle := u.freeUsedInCycle + if premium then 0 else 1)
  }

  /** The record after a verified ad: `free_used_in_cycle := 0`, `$inc cycle`. */
  function Unlock(u: User): User
  {
    u.(freeUsedInCycle := 0, cycle := u.cycle + 1)
  }

  /** `send_next_video_for_user`: the item at offset `video_index` in ascending
      `created_at` order is sent; the record changes only after a successful send. */
  function SendNextStep(users: map<int, User>, videos: seq<VideoDoc>, id: int, udoc: User,
                        premium: bool, sendOk: bool): (r: Step)
    ensures Attempted(r.outcome)
    ensures r.outcome.Delivered? <==> udoc.videoIndex < |videos| && sendOk
    ensures r.outcome.Delivered? ==> r.outcome.video == videos[udoc.videoIndex]
    ensures r.outcome.NoVideos? <==> udoc.videoIndex >= |videos|
    ensures !r.outcome.Delivered? ==> r.users == users
    ensures r.users.Keys == users.Keys
    ensures forall k :: k in users && k != id ==> r.users[k] == users[k]
    ensures r.outcome.Delivered? && id in users ==>
              r.users[id].videoIndex == users[id].videoIndex + 1 &&
              r.users[id].freeUsedInCycle == users[id].freeUsedInCycle + (if premium then 0 else 1) &&
              r.users[id] == Credit(users[id], premium)
  {
    if udoc.videoIndex >= |videos| then Step(users, NoVideos)
    else if !sendOk then Step(users, SendFailed)
    else Step(if id in users then users[id := Credit(users[id], premium)] else users,
              Delivered(videos[udoc.videoIndex]))
  }

  /** `cb_handler`: every press first ensures the user, then dispatches on the
      callback data.  `sendOk` is the outcome of the Telegram send, `adCreated`
      whether the ad server answered 201, `reply` what `/ad/status/<token>` answered. */
  function CallbackStep(users: map<int, User>, videos: seq<VideoDoc>, freeBatch: int, now: Time,
                        id: int, username: Option<string>, data: string,
                        sendOk: bool, adCreated: bool, reply: StatusReply): (r: Step)
    ensures var e := EnsureStep(users, id, username, now);
            && r.users.Keys == e.users.Keys
            && (forall k :: k in users && k != id ==> r.users[k] == users[k])
            && (!r.outcome.Delivered? && !r.outcome.Unlocked? ==> r.users == e.users)
    // free_video: the gate
    ensures var u := EnsureStep(users, id, username, now).doc;
            data == "free_video" ==>
              (Attempted(r.outcome) <==> IsPremium(u, now) || u.freeUsedInCycle < freeBatch) &&
              (Walled(r.outcome) <==> !IsPremium(u, now) && u.freeUsedInCycle >= freeBatch)
    ensures var u := EnsureStep(users, id, username, now).doc;
            r.outcome.Delivered? ==>
              data == "free_video" && sendOk && u.videoIndex < |videos| &&
              r.outcome.video == videos[u.videoIndex] &&
              r.users[id] == Credit(EnsureStep(users, id, username, now).users[id], IsPremium(u, now))
    // ad_check: only a reported "completed" opens a new cycle, for the pressing user
    ensures r.outcome.Unlocked? <==>
              StartsWith(data, "ad_check:") && reply == HttpReply(200, Some("completed"))
    ensures r.outcome.Unlocked? ==>
              r.users[id] == Unlock(EnsureStep(users, id, username, now).users[id])
  {
    var e := EnsureStep(users, id, username, now);
    var premium := IsPremium(e.doc, now);
    assert !StartsWith("subscribe", "ad_check:") by { assert "subscribe"[0] != "ad_check:"[0]; }
    assert !StartsWith("free_video", "ad_check:") by { assert "free_video"[..9][0] != "ad_check:"[0]; }
    if data == "help" then Step(e.users, HelpShown)
    else if data == "subscribe" then Step(e.users, SubscribeShown)
    else if data == "free_video" then
      if premium then SendNextStep(e.users, videos, id, e.doc, true, sendOk)
      else if e.doc.freeUsedInCycle < freeBatch then SendNextStep(e.users, videos, id, e.doc, false, sendOk)
      else Step(e.users, if adCreated then AdOffered else AdUnavailable)
    else if StartsWith(data, "ad_check:") then
      if reply.HttpReply? && reply.code == 200 then
        if reply.status == Some("completed") then Step(e.users[id := Unlock(e.users[id])], Unlocked)
        else Step(e.users, NotVerified)
      else Step(e.users, VerifyFailed)
    else Step(e.users, Ignored)
  }

  /** No record's free counter exceeds the batch (or 0 for a non-positive batch). */
  predicate QuotaBounded(users: map<int, User>, freeBatch: int)
  {
    forall k :: k in users ==> users[k].freeUsedInCycle <= if freeBatch < 0 then 0 else freeBatch
  }

  /** Every callback keeps the free counters within the batch. */
  lemma CallbackKeepsQuota(users: map<int, User>, videos: seq<VideoDoc>, freeBatch: int, now: Time,
                           id: int, username: Option<string>, data: string,
                           sendOk: bool, adCreated: bool, reply: StatusReply)
    requires QuotaBounded(users, freeBatch)
    ensures QuotaBounded(CallbackStep(users, videos, freeBatch, now, id, username, data, sendOk, adCreated, reply).users, freeBatch)
  {
    var r := CallbackStep(users, videos, freeBatch, now, id, username, data, sendOk, adCreated, reply);
    var e := EnsureStep(users, id, username, now);
    assert QuotaBounded(e.users, freeBatch);
    if r.outcome.Delivered? && !IsPremium(e.doc, now) {
      assert e.doc.freeUsedInCycle < freeBatch;
    }
  }

  /** A free user asking for a video while the catalog is drained past the
      cursor, with quota left, is told there are no videos, not sent to an ad. */
  lemma DrainedCatalogIsNotAdWall(users: map<int, User>, videos: seq<VideoDoc>, freeBatch: int, now: Time,
                                  id: int, username: Option<string>, sendOk: bool, adCreated: bool, reply: StatusReply)
    requires id in users && !IsPremium(users[id], now)
    requires users[id].freeUsedInCycle < freeBatch && users[id].videoIndex >= |videos|
    ensures CallbackStep(users, videos, freeBatch, now, id, username, "free_video", sendOk, adCreated, reply).outcome == NoVideos
  {
  }

  /** The free counter of `id`, 0 before the record exists. */
  function UsedBy(users: map<int, User>, id: int): nat
  {
    if id in users then users[id].freeUsedInCycle else 0
  }

  /** The cursor of `id`, 0 before the record exists. */
  function CursorOf(users: map<int, User>, id: int): nat
  {
    if id in users then users[id].videoIndex else 0
  }

  /** A run of `free_video` presses by one user at one instant, with the send
      outcome of each; the number of deliveries is counted. */
  function FreePresses(users: map<int, User>, videos: seq<VideoDoc>, freeBatch: int, now: Time,
                       id: int, username: Option<string>, sends: seq<bool>): (r: (map<int, User>, nat))
    decreases |sends|
  {
    if sends == [] then (users, 0)
    else
      var s := CallbackStep(users, videos, freeBatch, now, id, username, "free_video", sends[0], true, Unreachable);
      var rest := FreePresses(s.users, videos, freeBatch, now, id, username, sends[1..]);
      (rest.0, rest.1 + if s.outcome.Delivered? then 1 else 0)
  }

  /** Quota monotonicity: between two ad checks a non-premium user receives at
      most `FREE_BATCH` minus what the cycle already used, and the counter
      records each delivery. */
  lemma {:induction false} FreeDeliveriesBounded(users: map<int, User>, videos: seq<VideoDoc>, freeBatch: int,
                                                 now: Time, id: int, username: Option<string>, sends: seq<bool>)
    requires id in users ==> !IsPremium(users[id], now)
    ensures var r := FreePresses(users, videos, freeBatch, now, id, username, sends);
            (|sends| > 0 ==> id in r.0 && r.0[id].freeUsedInCycle == UsedBy(users, id) + r.1) &&
            (id in r.0 ==> !IsPremium(r.0[id], now)) &&
            (r.1 == 0 || UsedBy(users, id) + r.1 <= freeBatch)
    decreases |sends|
  {
    if sends != [] {
      var s := CallbackStep(users, videos, freeBatch, now, id, username, "free_video", sends[0], true, Unreachable);
      var e := EnsureStep(users, id, username, now);
      assert !IsPremium(e.doc, now);
      assert id in s.users && !IsPremium(s.users[id], now);
      assert UsedBy(s.users, id) == UsedBy(users, id) + if s.outcome.Delivered? then 1 else 0;
      FreeDeliveriesBounded(s.users, videos, freeBatch, now, id, username, sends[1..]);
    }
  }

  /** With videos left and every send succeeding, each press within the quota
      delivers. */
  lemma {:induction false} FreePressesDeliver(users: map<int, User>, videos: seq<VideoDoc>, freeBatch: int,
                                              now: Time, id: int, username: Option<string>, sends: seq<bool>)
    requires id in users ==> !IsPremium(users[id], now)
    requires forall k :: 0 <= k < |sends| ==> sends[k]
    requires UsedBy(users, id) + |sends| <= freeBatch
    requires CursorOf(users, id) + |sends| <= |videos|
    ensures var r := FreePresses(users, videos, freeBatch, now, id, username, sends);
            r.1 == |sends| && (|sends| > 0 ==> id in r.0 && CursorOf(r.0, id) == CursorOf(users, id) + |sends|)
    decreases |sends|
  {
    if sends != [] {
      var s := CallbackStep(users, videos, freeBatch, now, id, username, "free_video", sends[0], true, Unreachable);
      var e := EnsureStep(users, id, username, now);
      assert !IsPremium(e.doc, now) && e.doc.freeUsedInCycle < freeBatch;
      assert s.outcome.Delivered?;
      assert id in s.users && !IsPremium(s.users[id], now);
      assert UsedBy(s.users, id) == UsedBy(users, id) + 1;
      assert CursorOf(s.users, id) == CursorOf(users, id) + 1;
      FreePressesDeliver(s.users, videos, freeBatch, now, id, username, sends[1..]);
    }
  }

  /** A new user's first `FREE_BATCH` presses all deliver (videos permitting);
      the next press meets the ad wall and leaves the counter at the batch. */
  lemma BatchThenAdWall(users: map<int, User>, videos: seq<VideoDoc>, freeBatch: int, now: Time,
                        id: int, username: Option<string>, sends: seq<bool>)
    requires id !in users && |sends| == freeBatch > 0 && |videos| >= freeBatch
    requires forall k :: 0 <= k < |sends| ==> sends[k]
    ensures var r := FreePresses(users, videos, freeBatch, now, id, username, sends);
            && r.1 == freeBatch
            && id in r.0 && r.0[id].freeUsedInCycle == freeBatch
            && var s := CallbackStep(r.0, videos, freeBatch, now, id, username, "free_video", true, true, Unreachable);
               s.outcome == AdOffered && s.users[id].freeUsedInCycle == freeBatch
  {
    FreePressesDeliver(users, videos, freeBatch, now, id, username, sends);
    FreeDeliveriesBounded(users, videos, freeBatch, now, id, username, sends);
  }

  // ---------------------------------------------------------------------------
  // /grant_premium
  // ---------------------------------------------------------------------------

  /** `GrantOverflow`: `now() + timedelta(days=days)` raised `OverflowError`, so
      the handler stops before storing or replying. */
  datatype GrantOutcome = GrantUnauthorized | GrantUsage | GrantBadArgument | GrantOverflow | Granted(target: int, until: Time)

  datatype GrantResult = GrantResult(users: map<int, User>, outcome: GrantOutcome)

  /** `grant_premium`: admins only, two integer arguments, an expiry `datetime`
      can hold, then an upsert of `premium_until = now + days`. */
  function GrantStep(users: map<int, User>, adminIds: set<int>, callerId: int, args: seq<string>, now: Time): (r: GrantResult)
    ensures !r.outcome.Granted? ==> r.users == users
    ensures r.outcome.Granted? <==>
              IsAdmin(adminIds, callerId) && |args| >= 2 && ParseInt(args[0]).Some? && ParseInt(args[1]).Some? &&
              AddDays(now, ParseInt(args[1]).value).Some?
    ensures r.outcome.GrantOverflow? <==>
              IsAdmin(adminIds, callerId) && |args| >= 2 && ParseInt(args[0]).Some? && ParseInt(args[1]).Some? &&
              AddDays(now, ParseInt(args[1]).value).None?
    ensures r.outcome.GrantUsage? <==> IsAdmin(adminIds, callerId) && |args| < 2
    ensures r.outcome.Granted? ==>
              var t := r.outcome.target;
              && t == ParseInt(args[0]).value
              && InDatetimeRange(r.outcome.until)
              && r.outcome.until == now + ParseInt(args[1]).value * SECONDS_PER_DAY
              && r.users.Keys == users.Keys + {t}
              && r.users[t].premiumUntil == At(r.outcome.until)
              && (t in users ==> r.users[t] == users[t].(premiumUntil := At(r.outcome.until)))
              && (t !in users ==> r.users[t] == User(None, At(r.outcome.until), 0, 0, 0, None))
              && (forall k :: k in users && k != t ==> r.users[k] == users[k])
  {
    if !IsAdmin(adminIds, callerId) then GrantResult(users, GrantUnauthorized)
    else if |args| < 2 then GrantResult(users, GrantUsage)
    else
      match (ParseInt(args[0]), ParseInt(args[1]))
      case (Some(target), Some(days)) =>
        (match AddDays(now, days)
         case None => GrantResult(users, GrantOverflow)
         case Some(until) =>
           var u := if target in users then users[target].(premiumUntil := At(until))
                    else User(None, At(until), 0, 0, 0, None);
           GrantResult(users[target := u], Granted(target, until)))
      case _ => GrantResult(users, GrantBadArgument)
  }

  /** A grant of more days than `datetime` spans, given in decimal by an admin,
      overflows: nobody's record changes. */
  lemma {:induction false} HugeGrantStoresNothing(users: map<int, User>, adminIds: set<int>, callerId: int,
                                                 target: int, days: int, now: Time)
    requires IsAdmin(adminIds, callerId) && InDatetimeRange(now) && days >= 3652059
    ensures var g := GrantStep(users, adminIds, callerId, [IntToString(target), IntToString(days)], now);
            g.outcome == GrantOverflow && g.users == users
  {
    ParseIntToString(target);
    ParseIntToString(days);
    AddDaysRange(now, days);
  }

  /** After a grant the target is premium exactly before the new expiry. */
  lemma GrantedIsPremiumUntil(users: map<int, User>, adminIds: set<int>, callerId: int, args: seq<string>,
                              now: Time, later: Time)
    requires GrantStep(users, adminIds, callerId, args, now).outcome.Granted?
    ensures var g := GrantStep(users, adminIds, callerId, args, now);
            IsPremium(g.users[g.outcome.target], later) <==> later < g.outcome.until
  {
  }

  // ---------------------------------------------------------------------------
  // The handlers over the collections
  // ---------------------------------------------------------------------------

  /** The bot's collections: `users_col` keyed by `user_id`, and `videos_col`
      in ascending `created_at` order. */
  class BotDb {
    var users: map<int, User>
    var videos: seq<VideoDoc>
    const freeBatch: int
    const adminIds: set<int>

    constructor (freeBatch: int, adminIds: set<int>, videos: seq<VideoDoc>)
      ensures this.users == map[] && this.videos == videos
      ensures this.freeBatch == freeBatch && this.adminIds == adminIds
    {
      this.users := map[];
      this.videos := videos;
      this.freeBatch := freeBatch;
      this.adminIds := adminIds;
    }

    method EnsureUser(id: int, username: Option<string>, now: Time) returns (doc: User)
      modifies this
      ensures users == EnsureStep(old(users), id, username, now).users
      ensures doc == EnsureStep(old(users), id, username, now).doc
      ensures videos == old(videos)
    {
      if id in users {
        doc := users[id];
        if Truthy(username) && doc.username != username {
          users := users[id := doc.(username := username)];
        }
      } else {
        doc := NewUser(username, now);
        users := users[id := doc];
      }
    }

    method SendNextVideoForUser(id: int, udoc: User, premium: bool, sendOk: bool) returns (outcome: Outcome)
      modifies this
      ensures users == SendNextStep(old(users), videos, id, udoc, premium, sendOk).users
      ensures outcome == SendNextStep(old(users), videos, id, udoc, premium, sendOk).outcome
      ensures videos == old(videos)
    {
      var idx := udoc.videoIndex;
      if idx >= |videos| {
        return NoVideos;
      }
      var v := videos[idx];
      if !sendOk {
        return SendFailed;
      }
      if id in users {
        var u := users[id];
        var inc := if premium then 0 else 1;
        users := users[id := u.(videoIndex := u.videoIndex + 1, freeUsedInCycle := u.freeUsedInCycle + inc)];
      }
      outcome := Delivered(v);
    }

    method CbHandler(id: int, username: Option<string>, data: string, now: Time,
                     sendOk: bool, adCreated: bool, reply: StatusReply) returns (outcome: Outcome)
      modifies this
      ensures users == CallbackStep(old(users), videos, freeBatch, now, id, username, data, sendOk, adCreated, reply).users
      ensures outcome == CallbackStep(old(users), videos, freeBatch, now, id, username, data, sendOk, adCreated, reply).outcome
      ensures videos == old(videos)
    {
      var udoc := EnsureUser(id, username, now);
      var premium := IsPremium(udoc, now);
      if data == "help" {
        return HelpShown;
      }
      if data == "subscribe" {
        return SubscribeShown;
      }
      if data == "free_video" {
        if premium {
          outcome := SendNextVideoForUser(id, udoc, true, sendOk);
          return;
        }
        if udoc.freeUsedInCycle < freeBatch {
          outcome := SendNextVideoForUser(id, udoc, false, sendOk);
          return;
        }
        outcome := if adCreated then AdOffered else AdUnavailable;
        return;
      }
      if StartsWith(data, "ad_check:") {
        if reply.HttpReply? && reply.code == 200 {
          if reply.status == Some("completed") {
            var u := users[id];
            users := users[id := u.(freeUsedInCycle := 0, cycle := u.cycle + 1)];
            return Unlocked;
          }
          return NotVerified;
        }
        return VerifyFailed;
      }
      outcome := Ignored;
    }

    method GrantPremium(callerId: int, args: seq<string>, now: Time) returns (outcome: GrantOutcome)
      modifies this
      ensures users == GrantStep(old(users), adminIds, callerId, args, now).users
      ensures outcome == GrantStep(old(users), adminIds, callerId, args, now).outcome
      ensures videos == old(videos)
    {
      if !IsAdmin(adminIds, callerId) {
        return GrantUnauthorized;
      }
      if |args| < 2 {
        return GrantUsage;
      }
      var target := ParseInt(args[0]);
      if target.None? {
        return GrantBadArgument;
      }
      var days := ParseInt(args[1]);
      if days.None? {
        return GrantBadArgument;
      }
      var sum := AddDays(now, days.value);
      if sum.None? {
        return GrantOverflow;
      }
      var until := sum.value;
      if target.value in users {
        users := users[target.value := users[target.value].(premiumUntil := At(until))];
      } else {
        users := users[target.value := User(None, At(until), 0, 0, 0, None)];
      }
      outcome := Granted(target.value, until);
    }
  }
}
