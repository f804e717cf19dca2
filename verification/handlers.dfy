/** app/telegram/handlers.py: the webhook deployment's callback and channel-post
    handlers.  The helpers it calls without defining (`ensure_user`,
    `is_premium`, `send_video_to_user`, `create_ad_session`) are given the
    contracts of bot.py (`Bot.EnsureStep`, `Bot.IsPremium`, `Bot.SendNextStep`)
    and of server.py (a fresh pending session for the user); `ad_col` is a
    status-string session store. */
module Handlers {
  import opened Common
  import opened Catalog
  import opened Bot
  import opened StatusStore

  /** The free limit is written as the literal 5 here, not read from `FREE_BATCH`. */
  const HARD_FREE_LIMIT: int := 5

  /** A `PREMIUM_PLANS` entry; a key the entry lacks is `None`. */
  datatype PlanConfig = PlanConfig(labelText: Option<string>, priceLabel: Option<string>, days: Option<int>)

  /** The plan details shown to the user. */
  datatype Plan = Plan(labelText: string, priceLabel: string, days: int)

  /** `PREMIUM_PLANS.get(key, {})` and the `.get` defaults of each field. */
  function PlanDetails(plans: map<string, PlanConfig>, key: string): (p: Plan)
    ensures key !in plans ==> p == Plan("Premium", "", 30)
    ensures key in plans && plans[key].labelText.Some? ==> p.labelText == plans[key].labelText.value
    ensures key in plans && plans[key].labelText.None? ==> p.labelText == "Premium"
    ensures key in plans && plans[key].priceLabel.Some? ==> p.priceLabel == plans[key].priceLabel.value
    ensures key in plans && plans[key].priceLabel.None? ==> p.priceLabel == ""
    ensures key in plans && plans[key].days.Some? ==> p.days == plans[key].days.value
    ensures key in plans && plans[key].days.None? ==> p.days == 30
  {
    var c := if key in plans then plans[key] else PlanConfig(None, None, None);
    Plan(match c.labelText case Some(l) => l case None => "Premium",
         match c.priceLabel case Some(l) => l case None => "",
         match c.days case Some(d) => d case None => 30)
  }

  /** What the user is shown. */
  datatype Reply =
    | VideoSent(video: VideoDoc)
    | NoVideosAvailable
    | AdShown(token: string)
    | AdNotCompleted
    | AdVerified
    | PlansMenu
    | PlanShown(plan: Plan)
    | NoReply

  datatype Handled = Handled(users: map<int, User>, sessions: map<string, StatusSession>, reply: Reply)

  /** The token of `"ad_check:<token>"` and the plan key of `"show_plans:<key>"`
      are everything after the first colon. */
  lemma CallbackArgument(data: string, prefix: string)
    requires prefix == "ad_check:" || prefix == "show_plans:"
    requires StartsWith(data, prefix)
    ensures AfterFirst(data, ':') == Some(data[|prefix|..])
  {
    forall k | 0 <= k < |prefix| - 1 ensures prefix[k] != ':' {
      assert prefix[k] in prefix[..|prefix| - 1];
    }
    AfterPrefix(data, prefix, ':');
  }

  /** `send_video_to_user` with the bot.py contract; a failure of any kind is
      reported as "No videos available." */
  function Send(users: map<int, User>, sessions: map<string, StatusSession>, videos: seq<VideoDoc>,
                id: int, udoc: User, premium: bool, sendOk: bool): Handled
  {
    var s := SendNextStep(users, videos, id, udoc, premium, sendOk);
    Handled(s.users, sessions, if s.outcome.Delivered? then VideoSent(s.outcome.video) else NoVideosAvailable)
  }

  /** The callback data the handler tests for are told apart by their first
      characters. */
  lemma DataKindsDistinct()
    ensures !StartsWith("free_video", "ad_check:") && !StartsWith("subscribe", "ad_check:")
    ensures !StartsWith("subscribe_back", "ad_check:")
    ensures !StartsWith("subscribe", "show_plans:") && !StartsWith("subscribe_back", "show_plans:")
    ensures forall d :: StartsWith(d, "ad_check:") ==> !StartsWith(d, "show_plans:")
  {
    assert "free_video"[..9][0] != "ad_check:"[0];
    assert "subscribe"[0] != "ad_check:"[0];
    assert "subscribe_back"[..9][0] != "ad_check:"[0];
    assert "subscribe_back"[..11][1] != "show_plans:"[1];
    forall d | StartsWith(d, "ad_check:") ensures !StartsWith(d, "show_plans:") {
      assert d[0] == "ad_check:"[0];
    }
  }

  /** The `free_video` branch for the ensured user `e`: premium first, then the
      hard-coded limit, else the ad wall with a fresh pending session. */
  function FreeVideoStep(e: Ensured, videos: seq<VideoDoc>, sessions: map<string, StatusSession>, now: Time,
                         id: int, sendOk: bool, adToken: string): (r: Handled)
    requires id in e.users && SameProgress(e.users[id], e.doc)
    ensures r.users.Keys == e.users.Keys
    ensures forall k :: k in e.users && k != id ==> r.users[k] == e.users[k]
    ensures r.reply.VideoSent? || r.reply.NoVideosAvailable? || r.reply.AdShown?
    ensures r.reply.AdShown? <==> !IsPremium(e.doc, now) && e.doc.freeUsedInCycle >= HARD_FREE_LIMIT
    ensures !r.reply.VideoSent? ==> r.users == e.users
    ensures !r.reply.AdShown? ==> r.sessions == sessions
    ensures r.reply.AdShown? ==> r.reply.token == adToken && r.sessions == sessions[adToken := PendingSession(Some(id), now)]
    ensures r.reply.VideoSent? ==>
              sendOk && e.doc.videoIndex < |videos| && r.reply.video == videos[e.doc.videoIndex] &&
              r.users[id] == Credit(e.users[id], IsPremium(e.doc, now))
  {
    if IsPremium(e.doc, now) then Send(e.users, sessions, videos, id, e.doc, true, sendOk)
    else if e.doc.freeUsedInCycle >= HARD_FREE_LIMIT then
      Handled(e.users, sessions[adToken := PendingSession(Some(id), now)], AdShown(adToken))
    else Send(e.users, sessions, videos, id, e.doc, false, sendOk)
  }

  /** The `ad_check:` branch: the session's status decides; a completed one
      resets the pressing user's counter, and only that. */
  function AdCheckStep(users: map<int, User>, sessions: map<string, StatusSession>, id: int, data: string): (r: Handled)
    requires StartsWith(data, "ad_check:") && id in users
    ensures r.sessions == sessions && r.users.Keys == users.Keys
    ensures r.reply.AdVerified? || r.reply.AdNotCompleted?
    ensures r.reply.AdVerified? <==> data[9..] in sessions && IsCompleted(sessions[data[9..]])
    ensures r.reply.AdVerified? ==> r.users == users[id := users[id].(freeUsedInCycle := 0)]
    ensures r.reply.AdNotCompleted? ==> r.users == users
  {
    CallbackArgument(data, "ad_check:");
    var token := AfterFirst(data, ':').value;
    if token !in sessions || sessions[token].status != Some(COMPLETED) then Handled(users, sessions, AdNotCompleted)
    else Handled(users[id := users[id].(freeUsedInCycle := 0)], sessions, AdVerified)
  }

  /** `_handle_callback`.  `sendOk` is the Telegram send outcome, `adToken` the
      fresh token `create_ad_session` would draw, `plans` the configured plans. */
  function CallbackStep(users: map<int, User>, videos: seq<VideoDoc>, sessions: map<string, StatusSession>,
                        plans: map<string, PlanConfig>, now: Time, id: int, username: Option<string>,
                        data: string, sendOk: bool, adToken: string): (r: Handled)
    requires adToken !in sessions
    ensures var e := EnsureStep(users, id, username, now);
            && r.users.Keys == e.users.Keys
            && (forall k :: k in users && k != id ==> r.users[k] == users[k])
            && (!r.reply.VideoSent? && !r.reply.AdVerified? ==> r.users == e.users)
    ensures !r.reply.AdShown? ==> r.sessions == sessions
    ensures r.reply.AdShown? ==> r.reply.token == adToken && r.sessions == sessions[adToken := PendingSession(Some(id), now)]
    // free_video: premium, then the hard-coded limit
    ensures var u := EnsureStep(users, id, username, now).doc;
            data == "free_video" ==>
              (r.reply.AdShown? <==> !IsPremium(u, now) && u.freeUsedInCycle >= HARD_FREE_LIMIT) &&
              (r.reply.VideoSent? || r.reply.NoVideosAvailable? || r.reply.AdShown?)
    ensures var e := EnsureStep(users, id, username, now);
            r.reply.VideoSent? ==>
              data == "free_video" && sendOk && e.doc.videoIndex < |videos| &&
              r.reply.video == videos[e.doc.videoIndex] &&
              r.users[id] == Credit(e.users[id], IsPremium(e.doc, now))
    // ad_check: a completed session resets the clicking user's counter and nothing else
    ensures r.reply.AdVerified? <==>
              StartsWith(data, "ad_check:") && data[9..] in sessions && IsCompleted(sessions[data[9..]])
    ensures r.reply.AdNotCompleted? <==>
              StartsWith(data, "ad_check:") && !(data[9..] in sessions && IsCompleted(sessions[data[9..]]))
    ensures r.reply.AdVerified? ==>
              r.users[id] == EnsureStep(users, id, username, now).users[id].(freeUsedInCycle := 0)
    ensures r.reply.PlanShown? <==> StartsWith(data, "show_plans:")
    ensures r.reply.PlanShown? ==> r.reply.plan == PlanDetails(plans, data[11..])
    ensures r.reply.PlansMenu? <==> data == "subscribe" || data == "subscribe_back"
  {
    var e := EnsureStep(users, id, username, now);
    DataKindsDistinct();
    if data == "free_video" then FreeVideoStep(e, videos, sessions, now, id, sendOk, adToken)
    else if StartsWith(data, "ad_check:") then AdCheckStep(e.users, sessions, id, data)
    else if data == "subscribe" then Handled(e.users, sessions, PlansMenu)
    else if StartsWith(data, "show_plans:") then
      CallbackArgument(data, "show_plans:");
      Handled(e.users, sessions, PlanShown(PlanDetails(plans, AfterFirst(data, ':').value)))
    else if data == "subscribe_back" then Handled(e.users, sessions, PlansMenu)
    else Handled(e.users, sessions, NoReply)
  }

  /** A completed token is never used up: every press of its "I Watched"
      button resets the counter again and the session is left as it was. */
  lemma CompletedTokenReplays(users: map<int, User>, videos: seq<VideoDoc>, sessions: map<string, StatusSession>,
                              plans: map<string, PlanConfig>, t1: Time, t2: Time, id: int, username: Option<string>,
                              token: string, sendOk: bool, adToken: string)
    requires token in sessions && IsCompleted(sessions[token]) && adToken !in sessions
    ensures var data := "ad_check:" + token;
            var r1 := CallbackStep(users, videos, sessions, plans, t1, id, username, data, sendOk, adToken);
            var r2 := CallbackStep(r1.users, videos, r1.sessions, plans, t2, id, username, data, sendOk, adToken);
            r1.reply == AdVerified && r2.reply == AdVerified && r2.sessions == sessions &&
            r2.users[id].freeUsedInCycle == 0
  {
    var data := "ad_check:" + token;
    assert StartsWith(data, "ad_check:") && data[9..] == token;
  }

  /** The reset goes to the user who pressed the button: the session's own user
      keeps its counter. */
  lemma ResetTargetsClicker(users: map<int, User>, videos: seq<VideoDoc>, sessions: map<string, StatusSession>,
                            plans: map<string, PlanConfig>, now: Time, id: int, username: Option<string>,
                            token: string, sendOk: bool, adToken: string, owner: int)
    requires token in sessions && IsCompleted(sessions[token]) && adToken !in sessions
    requires sessions[token].userId == Some(owner) && owner != id && owner in users
    ensures var r := CallbackStep(users, videos, sessions, plans, now, id, username, "ad_check:" + token, sendOk, adToken);
            r.reply == AdVerified && r.users[owner] == users[owner]
  {
    var data := "ad_check:" + token;
    assert StartsWith(data, "ad_check:") && data[9..] == token;
  }

  /** The two gates disagree whenever `FREE_BATCH` is above 5: a free user with
      five deliveries in the cycle is served by bot.py and sent to an ad here. */
  lemma LimitsDisagree(users: map<int, User>, videos: seq<VideoDoc>, sessions: map<string, StatusSession>,
                       plans: map<string, PlanConfig>, now: Time, id: int, username: Option<string>,
                       freeBatch: int, sendOk: bool, adToken: string)
    requires freeBatch > HARD_FREE_LIMIT && adToken !in sessions
    requires id in users && !IsPremium(users[id], now) && users[id].freeUsedInCycle == HARD_FREE_LIMIT
    ensures Attempted(Bot.CallbackStep(users, videos, freeBatch, now, id, username, "free_video", sendOk, true, Unreachable).outcome)
    ensures CallbackStep(users, videos, sessions, plans, now, id, username, "free_video", sendOk, adToken).reply.AdShown?
  {
  }

  /** The document `_handle_channel_post` inserts for a post with a video. */
  function ChannelVideo(post: ChannelPost, now: Time): (d: VideoDoc)
    requires post.video.Some?
    ensures d.fileId == post.video.value && d.createdAt == now
    ensures d.caption == if post.caption.Some? then post.caption.value else ""
    ensures d.channelId == Some(post.chatId) && d.messageId == Some(post.messageId)
    ensures d.mediaType.None? && d.fromChannelId.None? && d.channelTitle.None? && d.channelPostId.None?
  {
    VideoDoc(post.video.value, match post.caption case Some(c) => c case None => "", now,
             None, Some(post.chatId), Some(post.messageId), None, None, None)
  }

  /** `_handle_channel_post`: only a post carrying a video is inserted, with no
      duplicate check. */
  function ChannelPostStep(videos: seq<VideoDoc>, post: ChannelPost, now: Time): (r: seq<VideoDoc>)
    requires Ordered(videos)
    ensures Ordered(r)
    ensures post.video.None? ==> r == videos
    ensures post.video.Some? ==> multiset(r) == multiset(videos) + multiset{ChannelVideo(post, now)}
    ensures post.video.Some? && (videos == [] || videos[|videos| - 1].createdAt <= now) ==>
              r == videos + [ChannelVideo(post, now)]
  {
    if post.video.None? then videos else InsertByTime(videos, ChannelVideo(post, now))
  }

  /** The same post delivered twice is stored twice. */
  lemma ChannelPostNotDeduplicated(videos: seq<VideoDoc>, post: ChannelPost, now: Time)
    requires Ordered(videos) && post.video.Some?
    ensures multiset(ChannelPostStep(ChannelPostStep(videos, post, now), post, now))[ChannelVideo(post, now)]
            == multiset(videos)[ChannelVideo(post, now)] + 2
  {
  }

  method HandleCallback(db: BotDb, store: SessionStore, plans: map<string, PlanConfig>, now: Time,
                        id: int, username: Option<string>, data: string, sendOk: bool, adToken: string)
    returns (reply: Reply)
    requires adToken !in store.sessions
    modifies db, store
    ensures var r := CallbackStep(old(db.users), db.videos, old(store.sessions), plans, now, id, username, data, sendOk, adToken);
            db.users == r.users && store.sessions == r.sessions && reply == r.reply
    ensures db.videos == old(db.videos)
  {
    var user := db.EnsureUser(id, username, now);
    ghost var e := EnsureStep(old(db.users), id, username, now);
    if data == "free_video" {
      if IsPremium(user, now) {
        var o := db.SendNextVideoForUser(id, user, true, sendOk);
        reply := if o.Delivered? then VideoSent(o.video) else NoVideosAvailable;
        return;
      }
      if user.freeUsedInCycle >= HARD_FREE_LIMIT {
        store.sessions := store.sessions[adToken := PendingSession(Some(id), now)];
        return AdShown(adToken);
      }
      var o := db.SendNextVideoForUser(id, user, false, sendOk);
      reply := if o.Delivered? then VideoSent(o.video) else NoVideosAvailable;
      return;
    }
    if StartsWith(data, "ad_check:") {
      CallbackArgument(data, "ad_check:");
      var token := AfterFirst(data, ':').value;
      if token !in store.sessions || store.sessions[token].status != Some(COMPLETED) {
        return AdNotCompleted;
      }
      db.users := db.users[id := db.users[id].(freeUsedInCycle := 0)];
      return AdVerified;
    }
    if data == "subscribe" {
      return PlansMenu;
    }
    if StartsWith(data, "show_plans:") {
      CallbackArgument(data, "show_plans:");
      var key := AfterFirst(data, ':').value;
      return PlanShown(PlanDetails(plans, key));
    }
    if data == "subscribe_back" {
      return PlansMenu;
    }
    reply := NoReply;
  }

  method HandleChannelPost(db: BotDb, post: ChannelPost, now: Time)
    requires Ordered(db.videos)
    modifies db
    ensures db.videos == ChannelPostStep(old(db.videos), post, now)
    ensures db.users == old(db.users)
  {
    if post.video.None? {
      return;
    }
    var doc := VideoDoc(post.video.value, if post.caption.Some? then post.caption.value else "", now,
                        None, Some(post.chatId), Some(post.messageId), None, None, None);
    db.videos := InsertByTime(db.videos, doc);
  }
}
