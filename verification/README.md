# Angle: the quota-gated video delivery engine

Angle is a Telegram bot that hands out videos from a catalog filled by
forwarding posts from a storage channel. A free user gets a batch of videos
per cycle. Once the batch is used up, the bot offers an ad session. When an
ad service reports that session completed, the "I Watched" button opens a
new cycle. Premium users, whose `premium_until` lies in the future, are
never gated. Administrators grant premium and list the catalog.

The code base has several deployments of this engine, and each is modelled
here in its own module:

- **Polling bot** (`bot.py`, module `Bot`). It walks the catalog with a
  per-user cursor (`video_index`) and counts free sends in
  `free_used_in_cycle` against `FREE_BATCH`. It asks the Flask ad server
  (`server.py`, module `Server`) whether a session is "completed".
- **Webhook deployment** (`app/routes.py`, `app/telegram/handlers.py`,
  `app/ads/service.py`; modules `AppRoutes`, `Handlers`, `AppAdsService`).
  Sessions carry a `status` string ("pending", then "completed"). These
  sessions are shared with `server.py` through module `StatusStore`.
- **Shortener flow** (`ads/service.py`, `app/web/*.py`, `web/ad_routes.py`,
  `app/telegram/handlers_ad.py`; modules `AdsService`, `WebRoutes`,
  `AppWebAdRoutes`, `WebAdRoutes`, `HandlersAd`). Sessions carry a
  `completed` flag and an optional short link.
- **"First unseen" delivery** (`app/telegram/video_service.py`,
  `telegram/video_service.py`; modules `VideoService`, `TgVideoService`). It
  keeps a per-user list of file ids already sent.
- **Catalog import and administration**: `app/telegram/channel_import.py`,
  `app/admin/routes.py` and `app/telegram/membership.py`.

Module `Catalog` holds the shared video documents. The catalog is kept as a
sequence in ascending `created_at` order, the order every `sort("created_at",
1)` reads. Module `Common` writes out the Python built-ins the engine relies
on:

- truthiness;
- `startswith`;
- `split(":", 1)[1]`;
- `rstrip("/")` and `strip()`;
- `int(...)`.

Module `Flows` chains operations of different files into whole ad cycles.

Each MongoDB collection is a field of a class: `Bot.BotDb`,
`VideoService.AppDb`, `TgVideoService.TgDb`, `StatusStore.SessionStore` and
`AdsService.Store`. The `map` and `seq` fields are reassigned by the
handler methods. Each handler method is proved equal to a step function on
values (`ensures users == CallbackStep(old(users), …)`). The promised
properties are proved about those step functions, one call at a time in
their `ensures` and across calls in lemmas over traces.

The model follows the code as written, including these behaviours:

- A completed ad token is never used up. Every press of its "I Watched"
  button resets the counter again (`Handlers.CompletedTokenReplays`). In
  bot.py, every check of a completed token opens another cycle.
- The "first unseen" scan looks only at the oldest 200 entries. It never
  wraps around or forgets what was sent.
- Counter updates are plain read-then-write. There is no atomic
  conditional increment.
- The free limit in `app/telegram/handlers.py` is the literal 5, not
  `FREE_BATCH` (`Handlers.LimitsDisagree`).

Inputs the code reads from the outside world are parameters of the model:

- the clock (`now`);
- Telegram send results (`sendOk`);
- the ad server's HTTP reply to the bot (`reply`, `adCreated`);
- the link shortener's reply (`ProviderReply`);
- `uuid4` tokens (`token`, `adToken`, taken to be fresh);
- configuration: `FREE_BATCH`, `ADMIN_IDS`, `BIN_CHANNEL`,
  `REQUIRED_GROUP_ID`, `DOMAIN`, `ADMIN_SECRET`, `PREMIUM_PLANS`, the
  webhook secret.

## Model

| member | source | states |
|---|---|---|
| Catalog.InsertByTime | app/telegram/handlers.py:156-162 | An insert keeps the catalog in ascending `created_at` order and adds exactly the new document (multiset). With a clock that does not go back, it is an append. |
| Catalog.Newest | app/admin/routes.py:15 | The first `n` documents in descending `created_at` order: the last `n` of the catalog, reversed, non-increasing in time. |
| Catalog.Oldest | app/telegram/video_service.py:24 | `.limit(n)` of the ascending order is a prefix of the catalog of length `min(n, size)`. |
| Common.AfterFirst | app/telegram/handlers.py:81 | `split(":", 1)[1]`: absent exactly when the separator does not occur, otherwise the suffix after its first occurrence. |
| Common.AfterPrefix | app/telegram/handlers.py:80-81 | After a prefix whose only separator is its last character, the split yields exactly the rest of the data. |
| Common.RStripSlash | ads/service.py:7 | `rstrip("/")` returns a prefix that does not end in `/`, and only slashes were removed. |
| Common.Strip | ads/service.py:34 | `strip()` is a slice of its argument from which only whitespace (Python's full `isspace` set, Unicode separators included) was cut at either end, and the result neither starts nor ends with whitespace. |
| Common.StripKeepsWord | ads/service.py:33-34 | A whitespace-free word found in the shortener's body is still in the stripped short URL. |
| Common.ParseIntToString | bot.py:138-139 | `int(str(n)) == n`: a user id or day count written in decimal parses back exactly. |
| Common.ParseInt | bot.py:138-139 | `int(s)` on a run of ASCII digits is their decimal value. |
| Common.ParseIntNeedsDigit | bot.py:138-139 | `int(s)` succeeds only when `s` holds a digit: empty, blank and sign-only text is refused. |
| Common.PyInt | server.py:20 | `int(v)` on a JSON number is that number, on a boolean 1 or 0, and it fails only on null or on a string `int` refuses. |
| Common.PyIntDecimalString | app/web/ad_routes.py:17-22 | A user id posted as a decimal string reads the same as one posted as a number. |
| Common.AddDays | bot.py:140 | `now + timedelta(days=days)` succeeds exactly when the day count is within `timedelta`'s bound and the sum lies in `datetime`'s range (years 1 to 9999), and then it is `days` whole days after `now`. |
| Common.AddDaysRange | app/admin/routes.py:26 | From any real instant, adding at least the whole span of `datetime` in days overflows, and adding days that stay before year 10000 never does. |
| Bot.IsAdmin | bot.py:42-43 | An id is an admin exactly when it is listed in `ADMIN_IDS`; with the list empty nobody is. |
| Bot.IsPremium | bot.py:76-85 | A user is premium exactly when `premium_until` is a readable instant later than now: never when unset or unparseable. |
| Bot.PremiumLapses | bot.py:76-85 | Premium only lapses: premium at an instant implies premium at every earlier one, and never at or after the expiry. |
| Bot.EnsureStep | bot.py:58-74 | First contact inserts a fresh record (no premium, counters 0). An existing user keeps their progress; only a truthy, changed username is written. No other user changes. |
| Bot.EnsureIdempotent | bot.py:58-74 | Ensuring a user twice leaves the users as ensuring once. |
| Bot.SendNextStep | bot.py:237-254 | Delivers the item at offset `video_index` in ascending order iff it exists and the send succeeds. On delivery the cursor advances by one and the free counter by one for a non-premium send. Otherwise nothing changes. |
| Bot.CallbackStep | bot.py:178-235 | Every press ensures the user. `free_video` attempts a delivery iff premium or under `FREE_BATCH`, and walls iff neither. A delivery is the cursor's item, credited. An `ad_check:` press unlocks iff the server answered 200 with status "completed"; only the presser's counter resets and their cycle increments. Other users never change. |
| Bot.CallbackKeepsQuota | bot.py:196-198 | No callback takes a free counter above the batch. |
| Bot.DrainedCatalogIsNotAdWall | bot.py:241-243 | A free user with quota left and the cursor past the catalog is told there are no videos, not sent to an ad. |
| Bot.FreeDeliveriesBounded | bot.py:196-198 | Quota monotonicity: across any run of presses, a non-premium user receives at most `FREE_BATCH` minus the cycle's prior use, and the counter records each delivery. |
| Bot.FreePressesDeliver | bot.py:196-198 | With quota and videos left and every send succeeding, each press delivers and the cursor advances once per press. |
| Bot.BatchThenAdWall | bot.py:192-215 | A new user's first `FREE_BATCH` presses all deliver, the counter reaches the batch, and the next press meets the ad wall. |
| Bot.GrantStep | bot.py:129-142 | Only admins. Fewer than two arguments is the usage reply, and a non-integer argument changes nothing. An expiry outside `datetime`'s range overflows and changes nothing. Otherwise the target is upserted with `premium_until = now + days`, an instant `datetime` holds, keeping the rest of its record. |
| Bot.HugeGrantStoresNothing | bot.py:138-141 | An admin's grant of more days than `datetime` spans overflows and stores nothing. |
| Bot.GrantedIsPremiumUntil | bot.py:76-85 | After a grant, the target is premium at exactly the instants before the new expiry. |
| Bot.BotDb.constructor | bot.py:34-37 | Empty users, the given catalog and configuration. |
| Bot.BotDb.EnsureUser | bot.py:58-74 | The users after the call are `EnsureStep` of the users before, and the returned document is its `doc`. |
| Bot.BotDb.SendNextVideoForUser | bot.py:237-254 | The users and outcome are those of `SendNextStep`; the catalog is unchanged. |
| Bot.BotDb.CbHandler | bot.py:178-235 | The users and outcome are those of `CallbackStep`; the catalog is unchanged. |
| Bot.BotDb.GrantPremium | bot.py:129-142 | The users and outcome are those of `GrantStep`. |
| StatusStore.MarkClicked | server.py:38 | The click instant is set on the matching session; an unknown token changes nothing. |
| StatusStore.StatusHttp | server.py:54-59 | A client reading the status route sees 200 with the stored status iff the session exists, otherwise 404. |
| StatusStore.PendingSession | server.py:21-29 | A new session is "pending", not completed, owned by the given user (or none), created now, and neither clicked nor completed. |
| StatusStore.SessionStore.constructor | server.py:14-15 | The session collection starts empty. |
| Server.RedirectUrl | server.py:31 | The redirect URL is `https://DOMAIN/ad/redirect?token=` followed by the token. |
| Server.RedirectCarriesToken | server.py:31 | For a domain without `=`, the redirect URL's query value is exactly the token. |
| Server.CreateStep | server.py:17-31 | A truthy `user_id` that `int` rejects stores nothing. Otherwise exactly one new pending, unclicked, uncompleted session is added under the token, with the parsed user id (none for a falsy field), and the redirect URL is returned. |
| Server.RedirectStep | server.py:33-40 | No token is 400 and changes nothing. Otherwise the click is recorded and the browser is sent to the ad target with the token. |
| Server.CallbackStep | server.py:42-52 | A falsy token is 400. "completed" completes the matching session whatever its status, recording the instant. Any other status is ignored and changes nothing. |
| Server.AdStatus | server.py:54-59 | Not found iff the token is unknown; otherwise the stored status, which may be absent. |
| Server.CreatedIsPending | server.py:17-31 | A freshly created session reports "pending". |
| Server.RepeatedCallbackRewritesCompletion | server.py:42-52 | A second "completed" callback rewrites the completion instant, so completion is not recorded exactly once. |
| Server.CreateAdSession | server.py:17-31 | The sessions and reply are those of `CreateStep`. |
| Server.AdRedirect | server.py:33-40 | The sessions and reply are those of `RedirectStep`. |
| Server.AdCallback | server.py:42-52 | The sessions and reply are those of `CallbackStep`. |
| AppRoutes.AdRedirect | app/routes.py:29-34 | The click is recorded, and the URL is the ad target with the token as query value. |
| AppRoutes.CallbackStep | app/routes.py:36-45 | A falsy token is 400, and "completed" always answers ok. Only a pending session with that token changes, and only its status, to "completed". |
| AppRoutes.CallbackIdempotent | app/routes.py:42-44 | Delivering the same callback twice leaves the sessions as delivering it once. |
| AppRoutes.CompletedStaysCompleted | app/routes.py:43 | No callback changes a completed session. |
| AppRoutes.AdStatus | app/routes.py:47-52 | Not found iff the token is unknown; otherwise the stored status, "pending" when none is stored. |
| AppRoutes.CallbackThenStatusCompleted | app/routes.py:36-52 | After a completion callback for a pending session, the status route reports "completed". |
| AppRoutes.Webhook | app/routes.py:55-69 | With a configured secret, a different header is refused. Otherwise the update goes to the message, callback or channel-post handler, first match in that order, or is only logged. Each route holds iff its condition does. |
| AppRoutes.NoSecretAcceptsAll | app/routes.py:57-58 | Without a configured secret every update is accepted. |
| AppRoutes.AdCallback | app/routes.py:36-45 | The sessions and reply are those of `CallbackStep`. |
| AppAdsService.CompleteStep | app/ads/service.py:8-10 | Reports true iff the token's session was pending. It then completes that session at `now` and changes nothing else. |
| AppAdsService.SecondCompleteIsNoop | app/ads/service.py:8-10 | Completing a token again reports false and changes nothing. |
| AppAdsService.CompletesExactlyOnce | app/ads/service.py:8-10 | Over any number of completions of a token, exactly one reports true if the session was pending (none otherwise). The recorded instant is the first call's. |
| AppAdsService.CompleteToken | app/ads/service.py:8-10 | The sessions and result are those of `CompleteStep`. |
| Handlers.PlanDetails | app/telegram/handlers.py:115-119 | The plan's label, price and days, each defaulting to "Premium", "" and 30 when the plan or field is missing. |
| Handlers.CallbackArgument | app/telegram/handlers.py:81 | For `ad_check:` and `show_plans:` data, the split yields exactly what follows the prefix. |
| Handlers.FreeVideoStep | app/telegram/handlers.py:52-75 | Premium users are served. A free user at 5 or more is shown an ad backed by exactly one new pending session for them. Otherwise a free delivery is attempted. Nothing else changes. |
| Handlers.AdCheckStep | app/telegram/handlers.py:80-97 | Verified iff the token's session is completed. Verification resets only the presser's counter and never touches the sessions. |
| Handlers.CallbackStep | app/telegram/handlers.py:37-144 | Every press ensures the user. `free_video` walls iff not premium and the counter is at least 5. An ad check verifies iff the token's session is completed, and otherwise changes nothing. Plan data shows that plan's details, and the subscribe buttons show the menu. Only the presser changes; sessions change only by the ad wall's insert. |
| Handlers.CompletedTokenReplays | app/telegram/handlers.py:80-97 | A completed token verifies on every press and resets the counter each time; the session is never consumed. |
| Handlers.ResetTargetsClicker | app/telegram/handlers.py:88-91 | The reset goes to the user who pressed the button, not to the session's owner. |
| Handlers.LimitsDisagree | app/telegram/handlers.py:61 | With `FREE_BATCH` above 5, a free user with five sends is served by bot.py and walled here. |
| Handlers.ChannelVideo | app/telegram/handlers.py:153-162 | The inserted document carries the video's file id, the caption or "", the channel and message ids, and `now`. |
| Handlers.ChannelPostStep | app/telegram/handlers.py:147-162 | A post without a video changes nothing. A video post adds exactly its document, keeping the order. |
| Handlers.ChannelPostNotDeduplicated | app/telegram/handlers.py:156-162 | The same post delivered twice is stored twice. |
| Handlers.HandleCallback | app/telegram/handlers.py:37-144 | The users, sessions and reply are those of `CallbackStep`. |
| Handlers.HandleChannelPost | app/telegram/handlers.py:147-162 | The catalog is that of `ChannelPostStep`; the users are unchanged. |
| AdsService.CallbackUrl | ads/service.py:11-12 | The callback URL is the slash-stripped domain, then `/ad/callback/`, then the token. |
| AdsService.CallbackUrlSingleSlash | ads/service.py:7-12 | The callback path is never doubled, whatever slashes the configured domain ends with. |
| AdsService.NewSession | ads/service.py:14-25 | A new session belongs to the user, is not completed, has no completion instant and no short URL, was created now, and its callback URL ends in its token. |
| AdsService.ShortFromProvider | ads/service.py:29-38 | A short URL is kept iff a shortener is configured and answered 200 with a body containing "http". It is the stripped body and still contains "http". |
| AdsService.GetSession | ads/service.py:42-43 | The session stored under the token, if any. |
| AdsService.MarkStep | ads/service.py:45-49 | The matching session is completed at `now` whatever its state, with nothing else about it changed; an unknown token matches nothing. |
| AdsService.MarkTwice | ads/service.py:45-49 | Marking twice is marking once at the later instant. |
| AdsService.ProviderFailureKeepsSession | ads/service.py:37-38 | A shortener that raises leaves the session stored, uncompleted and without a short URL. |
| AdsService.Store.constructor | ads/service.py:5 | The session collection starts empty. |
| AdsService.Store.CreateAdSession | ads/service.py:14-40 | Exactly one session is added under the token: uncompleted, with its callback URL and the short URL the shortener yields. It is also returned. |
| AdsService.Store.MarkCompleted | ads/service.py:45-49 | The sessions are those of `MarkStep`. |
| WebRoutes.ReturnTarget | app/web/routes.py:59 | The thanks page refreshes to the slash-stripped domain, or "/" without one. |
| WebRoutes.ReturnStep | app/web/routes.py:24-74 | A missing token or uid is 400, and a non-integer uid is an error; neither changes anything. Otherwise the session is completed iff the token is known; an unknown token shows the generic page and changes nothing. |
| WebRoutes.ReturnIgnoresUid | app/web/routes.py:38-46 | The uid decides nothing beyond being an integer: anyone holding the token completes its session. |
| WebRoutes.AdminMarkStep | app/web/routes.py:80-89 | Refused without a configured secret or with a wrong one. An unknown token is 404. Otherwise the session is completed; only success changes anything. |
| WebRoutes.AdReturn | app/web/routes.py:24-74 | The sessions and reply are those of `ReturnStep`. |
| WebRoutes.AdminMarkAdCompleted | app/web/routes.py:80-89 | The sessions and reply are those of `AdminMarkStep`. |
| AppWebAdRoutes.ApiCreateSession | app/web/ad_routes.py:10-23 | A falsy `user_id` is 400 and a non-integer one an error, neither storing anything. Otherwise exactly one session is stored for the parsed user and the destination, and returned. |
| AppWebAdRoutes.LandingStep | app/web/ad_routes.py:25-47 | An unknown token is 404 and changes nothing. A known one is completed, and the page links on iff the session has a destination. |
| AppWebAdRoutes.AdCallback | app/web/ad_routes.py:25-47 | The sessions and reply are those of `LandingStep`. |
| AppWebAdRoutes.GetSessionView | app/web/ad_routes.py:49-61 | 404 iff the token is unknown. Otherwise the session's token, user, flag, short URL and callback URL, and nothing more. |
| AppWebAdRoutes.LandingThenViewCompleted | app/web/ad_routes.py:25-61 | After the landing page, the session view reports the session completed. |
| WebAdRoutes.LinkFor | web/ad_routes.py:16 | The link is the short URL when there is a non-empty one, otherwise the callback URL. |
| WebAdRoutes.Create | web/ad_routes.py:8-18 | A falsy `user_id` is 400 and a non-integer one an error, neither storing anything. Otherwise one session is stored, and its token, link and callback URL are returned. |
| WebAdRoutes.CreatedLinkUsable | web/ad_routes.py:13-18 | The link handed out is never empty: it is the callback URL or contains "http". |
| WebAdRoutes.Cb | web/ad_routes.py:20-23 | The sessions are those of `MarkStep`, whether or not the token exists. |
| WebAdRoutes.SessionInfoOf | web/ad_routes.py:25-30 | 404 iff the token is unknown, otherwise the flag, user and short URL. |
| VideoService.EnsureDocStep | app/telegram/video_service.py:11-20 | An existing document gains an empty list if it lacks one and is otherwise untouched. A new one starts with `free_used = 0`, no premium and an empty list. |
| VideoService.EnsureDocIdempotent | app/telegram/video_service.py:11-20 | Ensuring a document twice is ensuring it once. |
| VideoService.Unseen | app/telegram/video_service.py:31-34 | An entry with an empty file id is never unseen, nor is one whose file id was already sent; with nothing sent, every entry with a file id is unseen. |
| VideoService.RecordHidesEntry | app/telegram/video_service.py:31-34 | Recording a file id makes its entry seen and leaves whether every other entry is unseen as it was. |
| VideoService.FirstUnseen | app/telegram/video_service.py:31-35 | The first candidate with a non-empty file id not yet sent; absent iff there is none. |
| VideoService.UnseenVideo | app/telegram/video_service.py:22-35 | The chosen entry is unseen and among the oldest 200. It is absent iff none of those is unseen. |
| VideoService.AddToSet | app/telegram/video_service.py:38 | `$addToSet`: the id is present afterwards, nothing else is added, and an id already present changes nothing. |
| VideoService.RecordStep | app/telegram/video_service.py:37-38 | The file id joins only that user's list; an unknown user is left alone. |
| VideoService.RecordIdempotent | app/telegram/video_service.py:37-38 | Recording a file id twice is recording it once. |
| VideoService.SendOneStep | app/telegram/video_service.py:40-58 | Something is delivered iff an unseen entry exists and the send succeeds. It is then the selected entry and is recorded; otherwise nothing changes. |
| VideoService.NoRepeatDeliveries | app/telegram/video_service.py:22-58 | Over any run of deliveries, no file reaches the user twice, none already sent before, and each ends up in the user's list. Nothing is ever dropped from the list. |
| VideoService.AppDb.constructor | app/telegram/video_service.py:6 | Empty users and the given catalog. |
| VideoService.AppDb.EnsureUserDoc | app/telegram/video_service.py:11-20 | The users and returned document are those of `EnsureDocStep`. |
| VideoService.AppDb.GetUnseenVideoForUser | app/telegram/video_service.py:22-35 | The scan's loop returns exactly `UnseenVideo`: the first of the oldest 200 entries that is unseen. |
| VideoService.AppDb.RecordSent | app/telegram/video_service.py:37-38 | The users are those of `RecordStep`. |
| VideoService.AppDb.SendOneVideo | app/telegram/video_service.py:40-58 | The users and success flag are those of `SendOneStep`. |
| TgVideoService.EnsureStep | telegram/video_service.py:8-13 | Only an unknown user is inserted, with an empty list and counter 0. |
| TgVideoService.FirstNotIn | telegram/video_service.py:17 | The first entry whose file id is not in the list; absent iff every file id is in it. |
| TgVideoService.SendStep | telegram/video_service.py:15-32 | No candidate or a failed send changes nothing. A successful send delivers the first entry not yet sent and appends its file id to that user's list only. |
| TgVideoService.NextSendSkipsDelivered | telegram/video_service.py:15-32 | After a delivery, the next selection for the user is neither the file just sent nor one sent before. |
| TgVideoService.TgDb.constructor | telegram/video_service.py:3 | Empty users and the given catalog. |
| TgVideoService.TgDb.EnsureUser | telegram/video_service.py:8-13 | The users and returned document are those of `EnsureStep`. |
| TgVideoService.TgDb.SendVideo | telegram/video_service.py:15-32 | The users and delivered entry are those of `SendStep`. |
| ChannelImport.SelectMedia | app/telegram/channel_import.py:36-48 | The first attachment in the order video, animation, document, video_note, with its type; absent iff the post has none. |
| ChannelImport.ImportedDoc | app/telegram/channel_import.py:65-73 | The imported document records the file id, type, caption or "", source channel, title, post id and `now`. |
| ChannelImport.ImportStep | app/telegram/channel_import.py:19-94 | A post is imported iff the following hold: it comes from the storage channel (when configured); it has media with a non-empty file id; no entry has that file id or post id; and the store is up. Exactly its document is added, keeping the order; otherwise nothing changes. |
| ChannelImport.ImportOnce | app/telegram/channel_import.py:55-63 | Importing the same post again inserts nothing. |
| ChannelImport.ImportChannelPost | app/telegram/channel_import.py:19-94 | The catalog and result are those of `ImportStep`; the users are unchanged. |
| AdminRoutes.ListVideos | app/admin/routes.py:11-16 | 403 iff not an admin. Otherwise the newest 200 entries, newest first, summarised, with their count. |
| AdminRoutes.ListedAreNewest | app/admin/routes.py:15 | Every entry left out of the listing is no newer than every entry listed. |
| AdminRoutes.CheckAdmin | app/admin/routes.py:8-9 | An id passes the admin check exactly when it is listed in `ADMIN_IDS`; with the list empty nobody does. |
| AdminRoutes.GrantStep | app/admin/routes.py:18-28 | 403 iff not an admin, changing nothing. Otherwise a missing user is created with its creation instant and an empty list. The route fails with 500 iff the expiry is outside `datetime`'s range, keeping that insert and changing nothing else. Otherwise `premium_until` becomes `now + days`, and nothing else changes. |
| AdminRoutes.OverflowKeepsInsert | app/admin/routes.py:23-26 | A grant of more days than `datetime` spans to an unknown user answers 500, and the user inserted before the failure stays, without premium. |
| AdminRoutes.GrantKeepsHistory | app/admin/routes.py:23-27 | A grant keeps what the user has already been sent. |
| AdminRoutes.GrantPremium | app/admin/routes.py:18-28 | The users and reply are those of `GrantStep`. |
| Membership.IsUserMember | app/telegram/membership.py:9-24 | True without a configured group. Otherwise true iff the lookup succeeds with a status other than "left" or "kicked". |
| HandlersAd.MakeWatchKeyboard | app/telegram/handlers_ad.py:9-18 | The ad link when there is one, then the "I Watched" button carrying `ad_check:<token>`, then the admin contact when there is one. The "I Watched" button is the only callback button. |
| HandlersAd.WatchedButtonCarriesToken | app/telegram/handlers_ad.py:14-40 | The "I Watched" data passes the prefix test and splits back to exactly its token. |
| HandlersAd.ResetFree | app/telegram/handlers_ad.py:57 | Only the named user's `free_used` becomes 0. |
| HandlersAd.CheckStep | app/telegram/handlers_ad.py:33-57 | Not handled iff the data lacks the prefix. The session is not found iff the token is unknown. Not verified, with the ad link when present, iff the session is not completed. Verified iff completed, which resets the session owner's counter. Only verification changes anything. |
| HandlersAd.CheckIdempotent | app/telegram/handlers_ad.py:33-57 | Pressing "I Watched" again gives the same reply and changes nothing more. |
| HandlersAd.HandleAdCheckCallback | app/telegram/handlers_ad.py:33-62 | The users and reply are those of `CheckStep`, and it reports handled iff the data is an ad check. |
| Flows.BotUnlocksIffServerCompleted | bot.py:216-235 | The bot's check opens a new cycle iff server.py's status route reports that session completed. |
| Flows.ServerCallbackUnlocksBot | server.py:42-52 | After a "completed" callback to server.py, the bot's next check unlocks the presser and zeroes the counter. |
| Flows.AppAdCycle | app/telegram/handlers.py:52-97 | A free user at the limit is shown an ad with a new pending session. The guarded callback completes it, the check resets the counter to 0, and the next press is served again. |
| Flows.LandingUnlocksOwner | app/web/ad_routes.py:25-47 | A session completed by the landing page makes the "I Watched" check verify its owner and reset that owner's `free_used`. |

## Left out

- Telegram transport: message texts, keyboards other than the watch-ad keyboard, `answer_callback_query`, photos and Markdown. The model keeps only which reply a user gets.
- HTTP transports (aiohttp, httpx, Flask, FastAPI). Request bodies are JSON scalars. FastAPI's 422 for missing parameters and non-object bodies are not modelled.
- Concurrency. Handlers read a user, then write it, with no atomicity, so two presses in flight can both pass the free gate. The model runs one handler at a time.
- Dates. Instants are whole seconds from 0001-01-01 00:00:00, the earliest `datetime`. `premium_until` is an instant or `Unparseable` (a string `fromisoformat` rejects). Time zones and microseconds are not modelled. The clock itself is taken to lie in `datetime`'s range, and only the two grants add to it.
- Catalog order for mixed types. `created_at` is an ISO string from channel_import but a `datetime` elsewhere, and MongoDB orders those types apart. The model uses one integer clock.
- Document order in telegram/video_service.py. `find_one` there takes the collection's natural order, which the model takes to be the catalog sequence.
- `int(...)` input forms. Python also accepts underscores between digits and non-ASCII decimal digits, and floats may arrive in JSON bodies. The model accepts ASCII signs and digits only, with Python's full whitespace set around them.
- Missing keys versus `None` values. A `None` stored under `sent_file_ids`, `sent` or `status` is treated like a missing key.
- VideoService.AppDb.GetUnseenVideoForUser: the exception fallback of app/telegram/video_service.py:27-30, which rescans without the limit, is not modelled, because it only runs when the database raises.
- Parts of bot.py not modelled: the prompt after a send (255-275), `cmd_start`, `import_video_handler`, `list_videos_handler`, `broadcast_handler` and `forwarded_handler`. They are I/O around the modelled operations or administration outside the delivery engine.
- In app/telegram/handlers.py, `_handle_message` (commands and texts) is not modelled. The helpers it calls without defining are given the contracts of bot.py and server.py.
- In app/telegram/handlers_ad.py, `start_ad_flow_for_user` (20-31) is not modelled. It only composes `create_ad_session` and `MakeWatchKeyboard`. Also not modelled: the follow-up `send_next_free_video`, whose module `app.telegram.video_sender` is not part of this model.
- app/routes.py: `ad_create`, `index` and `healthz` are not modelled.
- app/telegram/channel_import.py: the admin notification after an import is not modelled.
- app/telegram/membership.py: the Telegram lookup itself becomes a `Lookup` parameter.
- Names the modules use but nothing defines. app/ads/service.py defines only `complete_token`, and it imports `ad_col`, which app/database.py lacks. app/routes.py imports `ensure_indexes`, `videos_col` and `ad_col`, which app/database.py lacks, and `WEBHOOK_SECRET`, `ADMIN_IDS`, `BOT_NAME` and `AD_TARGET_URL`, which app/config.py lacks. app/admin/routes.py and app/telegram/channel_import.py import names app/database.py and app/config.py lack too. app/telegram/handlers.py calls helpers and collections it neither defines nor imports. As written, loading these modules raises `ImportError` and calling those helpers raises `NameError`. The model gives each name the contract of its counterpart in bot.py, server.py or ads/service.py.
- HandlersAd.CheckStep: as written the "I Watched" check never gets past its lookup. `ads_service.get_session` (app/telegram/handlers_ad.py:41) does not exist in app/ads/service.py, so every press raises `AttributeError`. Against the async `get_session` of ads/service.py the call is not awaited: the coroutine passes the test at :42 and `.get` at :45 raises. The reset at :57 is not awaited either. So in the source no counter is ever reset through this path. The model gives the lookup and the reset the awaited contracts of ads/service.py.
- HandlersAd.HandleAdCheckCallback: rests on `CheckStep` as above. The follow-up `send_next_free_video` (:60-61) lives in `app.telegram.video_sender`, which is not part of this model.
- AppWebAdRoutes.ApiCreateSession: app/ads/service.py has no `create_ad_session`, so the route raises `AttributeError`. Even with the ads/service.py function, that function takes no `dest_url` or `meta`, and `JSONResponse` at app/web/ad_routes.py:23 cannot encode the stored `datetime` and `ObjectId`, so the route answers 500 after storing the session. The model stores the destination, drops `meta` and returns the session.
- AppWebAdRoutes.LandingStep, AppWebAdRoutes.AdCallback and AppWebAdRoutes.GetSessionView: `get_session` and `mark_completed` (app/web/ad_routes.py:32, :37, :51) do not exist in app/ads/service.py. The model gives them the contracts of ads/service.py.
- Flows.LandingUnlocksOwner: chains the landing page and the "I Watched" check under the same contracts, so it describes the flow the code is meant to have, not one the code as written can run.
- Handlers.ChannelPostNotDeduplicated: the file `app/# app/database.py` creates a unique sparse index on (`channel_id`, `message_id`) in `ensure_indexes`, which would make the second insert raise. That file is not the app/database.py the modules import, and it is not part of this model.
- WebRoutes.ReturnStep: a database error during the update is logged and the thanks page still shown. The model always stores the update.
- Bot.GrantStep: a non-integer argument (`ValueError`) or an expiry past year 9999 (`OverflowError`) raises in the handler, which then sends no reply. The model reports these as `GrantBadArgument` and `GrantOverflow`, with nothing stored.
- Tokens come from `uuid4`. Each creation takes a fresh token as a parameter (`requires token !in sessions`).
- Configuration enters as parameters. Some of it is imported from app/config.py, which does not define it: `WEBHOOK_SECRET`, `ADMIN_IDS`, `BOT_NAME` and `AD_TARGET_URL` (app/routes.py), `ADMIN_IDS` (app/admin/routes.py), and `BIN_CHANNEL` and `ADMIN_CHAT_ID` (app/telegram/channel_import.py). `PREMIUM_PLANS` is used by app/telegram/handlers.py:116 without being imported. `REQUIRED_GROUP_ID` is defined at app/config.py:29 as an optional environment string and is an `Option<string>`. `ADMIN_CONTACT` (app/telegram/handlers_ad.py:28) and `ADMIN_SECRET` (app/web/routes.py:78) are read from the environment. In bot.py, `ADMIN_IDS`, `BIN_CHANNEL` and `FREE_BATCH` are read from the environment (bot.py:21-24).
