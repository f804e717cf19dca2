/** End-to-end runs across files: the ad cycle of each deployment, from the
    ad wall through the ad server's completion to the unlock. */
module Flows {
  import opened Common
  import opened Catalog
  import opened StatusStore
  import Bot
  import Server
  import AppRoutes
  import Handlers
  import AdsService
  import AppWebAdRoutes
  import HandlersAd
  import VideoService

  lemma AdCheckData(token: string)
    ensures StartsWith("ad_check:" + token, "ad_check:")
    ensures ("ad_check:" + token)[9..] == token
  {
    assert ("ad_check:" + token)[..9] == "ad_check:";
  }

  /** The polling bot unlocks exactly when the ad server reports the session
      completed: bot.py's "I Watched" check against server.py's status route. */
  lemma BotUnlocksIffServerCompleted(users: map<int, Bot.User>, videos: seq<VideoDoc>, freeBatch: int, now: Time,
                                     id: int, username: Option<string>, sessions: map<string, StatusSession>,
                                     token: string, sendOk: bool, adCreated: bool)
    ensures var reply := StatusHttp(Server.AdStatus(sessions, token));
            Bot.CallbackStep(users, videos, freeBatch, now, id, username, "ad_check:" + token, sendOk, adCreated, reply).outcome == Bot.Unlocked
            <==> token in sessions && IsCompleted(sessions[token])
  {
    AdCheckData(token);
  }

  /** A "completed" callback to server.py is enough for the next check by
      bot.py to open a new cycle for the user. */
  lemma ServerCallbackUnlocksBot(users: map<int, Bot.User>, videos: seq<VideoDoc>, freeBatch: int, now: Time, t: Time,
                                 id: int, username: Option<string>, sessions: map<string, StatusSession>,
                                 token: string, sendOk: bool, adCreated: bool)
    requires token in sessions && token != ""
    ensures var completed := Server.CallbackStep(sessions, JStr(token), JStr(COMPLETED), t).0;
            var reply := StatusHttp(Server.AdStatus(completed, token));
            var r := Bot.CallbackStep(users, videos, freeBatch, now, id, username, "ad_check:" + token, sendOk, adCreated, reply);
            r.outcome == Bot.Unlocked && r.users[id].freeUsedInCycle == 0
  {
    var completed := Server.CallbackStep(sessions, JStr(token), JStr(COMPLETED), t).0;
    BotUnlocksIffServerCompleted(users, videos, freeBatch, now, id, username, completed, token, sendOk, adCreated);
  }

  /** The webhook deployment's cycle: a free user at the limit is shown an ad
      with a fresh pending session; the guarded callback completes it; the
      check resets the counter; the next press is served again. */
  lemma AppAdCycle(users: map<int, Bot.User>, videos: seq<VideoDoc>, sessions: map<string, StatusSession>,
                   plans: map<string, Handlers.PlanConfig>, now: Time, id: int, username: Option<string>,
                   adToken: string, nextToken: string, sendOk: bool)
    requires id in users && !Bot.IsPremium(users[id], now) && users[id].freeUsedInCycle >= Handlers.HARD_FREE_LIMIT
    requires adToken !in sessions && adToken != "" && nextToken !in sessions && nextToken != adToken
    ensures var r1 := Handlers.CallbackStep(users, videos, sessions, plans, now, id, username, "free_video", sendOk, adToken);
            var s2 := AppRoutes.CallbackStep(r1.sessions, JStr(adToken), JStr(COMPLETED)).0;
            var r3 := Handlers.CallbackStep(r1.users, videos, s2, plans, now, id, username, "ad_check:" + adToken, sendOk, nextToken);
            var r4 := Handlers.CallbackStep(r3.users, videos, r3.sessions, plans, now, id, username, "free_video", sendOk, nextToken);
            && r1.reply == Handlers.AdShown(adToken)
            && IsPending(r1.sessions[adToken]) && r1.sessions[adToken].userId == Some(id)
            && IsCompleted(s2[adToken])
            && r3.reply == Handlers.AdVerified && r3.users[id].freeUsedInCycle == 0
            && (r4.reply.VideoSent? || r4.reply.NoVideosAvailable?)
  {
    var r1 := Handlers.CallbackStep(users, videos, sessions, plans, now, id, username, "free_video", sendOk, adToken);
    var s2 := AppRoutes.CallbackStep(r1.sessions, JStr(adToken), JStr(COMPLETED)).0;
    AdCheckData(adToken);
    var r3 := Handlers.CallbackStep(r1.users, videos, s2, plans, now, id, username, "ad_check:" + adToken, sendOk, nextToken);
    assert r3.users[id].premiumUntil == users[id].premiumUntil;
  }

  /** The completed-flag cycle: a session created for a user is completed by
      the shortener's landing page, and the "I Watched" check then resets that
      user's `free_used`. */
  lemma LandingUnlocksOwner(users: map<int, VideoService.AppUser>, sessions: map<string, AdsService.Session>,
                            userId: int, destUrl: Option<string>, token: string, now: Time, t: Time,
                            domain: string, apiUrl: string, provider: AdsService.ProviderReply)
    requires token !in sessions && userId in users
    ensures var doc := AdsService.NewSession(userId, destUrl, token, now, domain)
                         .(shortUrl := AdsService.ShortFromProvider(apiUrl, provider));
            var landed := AppWebAdRoutes.LandingStep(sessions[token := doc], token, t);
            var check := HandlersAd.CheckStep(users, landed.0, Some("ad_check:" + token));
            landed.1.ThanksPage? && check.1 == HandlersAd.Verified(userId) &&
            check.0[userId].freeUsed == Some(0)
  {
    AdCheckData(token);
  }
}
