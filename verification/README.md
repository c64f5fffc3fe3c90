# DC-Extract-Bot verification pipeline, in Dafny

DC-Extract-Bot is a Telegram bot. A user sends it a TikTok, Instagram or YouTube link with
`/check`. The bot then does four things:

- it recognises the platform and extracts the post through that platform's API;
- it stores a normalised record in SQLite;
- it asks the Vera fact-checking service for an analysis and classifies the answer into a
  score, a verdict and flags;
- it replies with a formatted HTML message.

`/monitor @user` puts a TikTok account under watch, at most ten per user. `/stop @user` ends the
watch.

This project models that pipeline without its network and Telegram plumbing:

| module | file | models |
|---|---|---|
| `Wrappers` | `wrappers.dfy` | `Option` and `Result` |
| `Text` | `text.dfy` | substring search, JavaScript `||` on strings, `parseInt`, decimal rendering, UTF-16 length and `substring`, `replace` of a single character |
| `Patterns` | `patterns.dfy` | hand-written matchers for the services' regular expressions: leftmost search, greedy runs, the first-pattern-wins loop, and the global tag scanner |
| `Records` | `records.dfy` | the normalised TikTok, Instagram and YouTube records, the outcome of an upstream call, and the clock |
| `TikTok`, `Instagram`, `YouTube` | `tiktok.dfy`, `instagram.dfy`, `youtube.dfy` | URL recognition, id extraction, payload normalisation, hashtags and mentions, and the mapping of upstream errors |
| `Vera` | `vera.dfy` | the ten-branch verdict cascade, the tool scan, the pre-flight and media list of `checkVideo`, and `extractTextContent` |
| `VeraScenarios` | `vera_scenarios.dfy` | the cascade on two concrete answers |
| `Store` | `store.dfy` | the four SQLite tables as a `Database` class with sequence fields, its methods, and the pure table transitions they are proved against |
| `Bot` | `bot.dfy` | dispatch, the stored rows, `formatContentResult`, and the `/check`, `/monitor` and `/stop` handlers as methods over the database |

Upstream HTTP calls are inputs. Each is a `Call` value: either `Returned(body)`, or `Threw(status,
message)` with the HTTP status when there is one. Other JavaScript built-ins are parameters:

- `toLowerCase` and `toLocaleString` are function parameters;
- `Date.now()` and `new Date().toISOString()` are a `Clock` value;
- `CURRENT_TIMESTAMP` is an integer `now`.

The model follows the code literally. Notable consequences:

- The source spells `confirmé` with a precomposed `é`, so `confirmé` does not contain
  `confirme`. The answer "ce contenu est confirmé comme authentique et vérifié" fires the
  `vérifié` branch, not the confirmation branch. The outcome is the same: 85, VERIFIED, no flag
  (`VeraScenarios.ConfirmedScenario`).
- Substring tests are literal. `incorrect` contains `correct` and confirms
  (`Vera.IncorrectConfirms`). `contenu` contains `conte` and reads as a narrative
  (`Vera.ContenuIsNarrative`).
- `vt.tiktok.com/...` links pass `isValidTikTokUrl`, but no id pattern reads them
  (`TikTok.ShortLinkWithoutId`).
- `/stop` does not check who owns the account: any user can stop any watched account
  (`Bot.HandleStopMonitor`).
- The details strategy of the TikTok extractor settles with `undefined` when the response has no
  `details`. `/check` then fails reading `video_id` of `undefined` (`TikTok.ExtractVideo`,
  `Bot.HandleCheck`).
- `extractUserVideos` with a negative `maxCount` slices from the end, as `Array.prototype.slice`
  does (`TikTok.SliceTo`).
- A stopped account keeps its row, and usernames are unique across all owners and statuses. So a
  stopped username can never be watched again, by anyone (`Store.StoppedNeverRewatched`).

## Model

| member | source | states |
|---|---|---|
| Text.OrElse | src/services/youtube.service.js:74-77 | `a || b` on strings is one of its operands, and is empty only when both are |
| Text.ParseInt | src/services/youtube.service.js:83-85 | `parseInt` without a radix skips every JavaScript white space character and an optional sign, then reads `0x`/`0X` as hexadecimal; it fails exactly when no digit of the chosen base follows, otherwise its value is the signed value of the longest digit run |
| Text.HexPrefixExamples | src/services/youtube.service.js:83-85 | `"0x1A"` reads as 26, `"0x"` as `NaN`, and `"1A"` as 1 |
| Text.ParseIntRendered | src/services/youtube.service.js:83-85 | `parseInt` reads back every safe integer rendered in decimal |
| Text.RemoveFirst | src/bot/telegram.js:273 | `replace('@', '')` leaves text without `@` unchanged, otherwise removes exactly one character, a leading one when the text starts with `@` |
| Text.Utf16Prefix | src/bot/telegram.js:420 | `substring(0, n)` is the longest prefix that fits in `n` UTF-16 units, and is non-empty on a non-empty text when `n >= 2` |
| Text.Utf16PrefixFits | src/bot/telegram.js:423 | a text that fits is kept whole; on text inside the BMP the prefix is the first `n` characters |
| Patterns.FirstCapture | src/services/tiktok.service.js:238-243 | the loop over the pattern list returns the capture of the first pattern that matches, else null |
| Patterns.FirstMatchPriority | src/services/tiktok.service.js:238-243 | when pattern `k` is the first that matches, its capture is the result |
| Patterns.FirstMatchNone | src/services/tiktok.service.js:238-243 | the result is null exactly when no pattern of the list matches |
| Patterns.FirstMatchShape | src/services/instagram.service.js:107-112 | a capture is a piece of the URL made of the characters of its pattern's class |
| Patterns.FindFromNone | src/services/tiktok.service.js:239 | a search finds nothing exactly when no position of the text matches |
| Patterns.Scan | src/services/tiktok.service.js:249-253 | every tag the global scan returns is a non-empty run of its character class |
| Patterns.ScanNoMarker | src/services/tiktok.service.js:249-253 | text without the marker character yields no tags |
| Patterns.ScanRender | src/services/instagram.service.js:120-133 | tags written out with their marker and a separator are read back, in order |
| Records.Count | src/services/tiktok.service.js:55-59 | a missing count reads as 0 |
| Records.OrNum | src/services/instagram.service.js:84 | `a || b` on numbers skips a missing or zero `a` |
| Records.IsoOf | src/services/tiktok.service.js:62 | `toISOString` fails exactly on dates outside the ±8.64e15 ms range |
| Records.SecondsIso | src/services/instagram.service.js:85 | a missing or zero timestamp gives the current time, any other is seconds times 1000 |
| TikTok.ExtractVideoIdFromUrl | src/services/tiktok.service.js:230-244 | the four id patterns are tried in order; the first capture wins |
| TikTok.VideoIdShape | src/services/tiktok.service.js:231-236 | an extracted id is a non-empty piece of the URL made of ASCII letters and digits |
| TikTok.ValidIsTikTok | src/services/tiktok.service.js:258-274 | every URL `isValidTikTokUrl` accepts is one `isTikTokUrl` accepts |
| TikTok.ValidHasId | src/services/tiktok.service.js:258-266 | a URL accepted by any of the first three validity patterns yields an id |
| TikTok.ShortLinkWithoutId | src/services/tiktok.service.js:263 | `https://vt.tiktok.com/ZSabc/` is valid but yields no id |
| TikTok.ExampleUrl | src/services/tiktok.service.js:27-29 | `https://www.tiktok.com/@demo/video/1234567890` gives id `1234567890` and username `demo` |
| TikTok.HashtagsShape | src/services/tiktok.service.js:249-253 | each hashtag is a non-empty run of ASCII word characters; text without `#` has none |
| TikTok.HashtagsRoundTrip | src/services/tiktok.service.js:249-253 | tags written `#a #b …` are read back in order |
| TikTok.ExampleHashtags | src/services/tiktok.service.js:249-253 | `"#fact #check"` gives `["fact", "check"]` |
| TikTok.AccentedHashtag | src/services/tiktok.service.js:249-253 | the later, ASCII-only definition is the one in effect: `"#café"` gives `["caf"]` |
| TikTok.CreatedAt | src/services/tiktok.service.js:62 | an empty `create_time` gives the current time; otherwise the parsed seconds times 1000 are rendered; it throws "Invalid time value" exactly when the text does not parse or the date is out of range |
| TikTok.DetailsAuthor | src/services/tiktok.service.js:49 | the author chain `uniqueId`, `author_name`, URL username, `Inconnu`, never empty |
| TikTok.MapDetails | src/services/tiktok.service.js:41-65 | fails only when its date throws; otherwise the author follows `uniqueId`, `author_name`, URL username, `Inconnu`; title and description are the description; thumbnail is `cover || avatar_thumb`, download is `unwatermarked_download_url || download_url`; duration and the five counts are `|| 0`; the date is `CreatedAt`; verified flag and signature are the author's |
| TikTok.MapListed | src/services/tiktok.service.js:89-110 | fails only when its date throws; otherwise `author || username`, never verified, no signature; id, url, title, description and hashtags as given; thumbnail `cover`; download `unwatermarked_download_url || download_url`; duration and the five counts `|| 0`; the date is `CreatedAt` |
| TikTok.FindVideo | src/services/tiktok.service.js:83 | `find` returns the first entry with the id, and none exactly when no entry has it |
| TikTok.Fallback | src/services/tiktok.service.js:67-87 | without a URL username it fails before any request; otherwise one `/user/videos` request; a thrown call passes its message on; no `videos` fails with "non trouvée via les deux méthodes"; an absent id fails with the not-recent message; otherwise the result is the first listed entry with the id, mapped by `MapListed` |
| TikTok.FallbackFindsUrlVideo | src/services/tiktok.service.js:67-87 | after a failed details request, a fallback record is the mapping of a listed entry carrying the URL id; an id missing from the list is reported as not recent |
| TikTok.ExtractVideo | src/services/tiktok.service.js:22-116 | no id fails before any request; the details request comes first; a response without `details` settles with `undefined`; a successful details mapping is the answer with no fallback; when the details step throws, the fallback runs after it and its result is returned |
| TikTok.ExampleDetailsRecord | src/services/tiktok.service.js:41-65 | a details payload with a description and a like count gives a record with its hashtags, the URL username as author, and missing counts at 0 |
| TikTok.MapUser | src/services/tiktok.service.js:203-214 | `user_id` is `uid || id`; the username is `unique_id || username`; the avatar is the first non-empty of large, medium and thumb; nickname, bio and verified are copied; the four counts are `|| 0` |
| TikTok.GetUserInfo | src/services/tiktok.service.js:191-225 | 429 becomes the short rate-limit message; other errors pass through; no `data` is "Utilisateur introuvable"; a profile comes back exactly when the response has a user, and it is `MapUser` of that user; a response with `data` but no user throws reading `uid` of undefined |
| TikTok.SliceTo | src/services/tiktok.service.js:155 | `slice(0, n)` keeps a prefix of `min(n, length)` items, counting from the end when `n` is negative |
| TikTok.MapPost | src/services/tiktok.service.js:155-169 | succeeds exactly when `create_time` gives a valid date, which is then `createdAt`; the requested username as author and the canonical video URL; title and `desc` copied; `cover || dynamic_cover` and `play || download_addr`; duration and the four counts `|| 0` |
| TikTok.MapPosts | src/services/tiktok.service.js:155-169 | the mapping keeps one post per entry, in order, and fails only when some entry fails |
| TikTok.UserVideosError | src/services/tiktok.service.js:171-185 | 429, 404 and any other status map to their messages; errors without a status pass through |
| TikTok.ExtractUserVideos | src/services/tiktok.service.js:130-186 | the profile is asked first; its errors go through the catch-block mapping; a profile without `user_id` is "Utilisateur introuvable"; then `min(maxCount, 30)` posts are asked; their errors are mapped the same way; no videos is "Aucune vidéo"; otherwise the result is the mapping of the first `maxCount` entries |
| TikTok.ProfileRateLimit | src/services/tiktok.service.js:216-224 | a rate limit on the profile lookup surfaces with the short message, not the posts one |
| Instagram.ExtractShortcodeFromUrl | src/services/instagram.service.js:95-115 | the `/p/`, `/reel/` and `/tv/` patterns are tried in order; the first capture wins |
| Instagram.ShortcodeShape | src/services/instagram.service.js:101-105 | a shortcode is a non-empty run of `[A-Za-z0-9_-]` taken from the URL |
| Instagram.ShortcodeIsInstagram | src/services/instagram.service.js:138-140 | every URL that yields a shortcode is one `isInstagramUrl` accepts |
| Instagram.PostBeforeReel | src/services/instagram.service.js:101-112 | when the `/p/` pattern matches, its capture is the shortcode |
| Instagram.RecognisedWithoutShortcode | src/services/instagram.service.js:138-140 | `https://instagram.com/p/` is recognised but yields no shortcode |
| Instagram.TagsShape | src/services/instagram.service.js:120-133 | hashtags are runs of word characters and À-ſ; mentions also allow `.`; none without their marker |
| Instagram.TagsRoundTrip | src/services/instagram.service.js:120-133 | hashtags and mentions written out are read back in order |
| Instagram.ExampleHashtag | src/services/instagram.service.js:120-124 | `"#café.bio"` gives `["café"]` |
| Instagram.ExampleMention | src/services/instagram.service.js:129-133 | `"@jean.dupont"` gives `["jean.dupont"]` |
| Instagram.Images | src/services/instagram.service.js:80-81 | a carousel, even empty, gives its URLs unfiltered; otherwise the cover if non-empty, else nothing |
| Instagram.NormalizePostData | src/services/instagram.service.js:63-90 | `is_video` and `type` agree; the caption, author, id and shortcode fallbacks; tags read from the caption; the location is null exactly when it has no name and is the name otherwise; likes and comments `|| 0`; `createdAt` is the ISO text of `taken_at` seconds; thumbnail, video url, author id and verified copied; fails only when the date throws |
| Instagram.ViewsFallback | src/services/instagram.service.js:84 | views fall back `video_view_count`, `view_count`, `play_count`, 0 |
| Instagram.PostError | src/services/instagram.service.js:44-57 | 404 and 429 map to their messages; everything else passes through |
| Instagram.ExtractPost | src/services/instagram.service.js:22-58 | no shortcode fails before any request; an empty response is an error; otherwise the normalised post |
| YouTube.ExtractVideoIdFromUrl | src/services/youtube.service.js:96-119 | the four id patterns are tried in order; the first capture wins |
| YouTube.VideoIdShape | src/services/youtube.service.js:104-109 | an id is exactly eleven characters of `[a-zA-Z0-9_-]` taken from the URL |
| YouTube.VideoIdIsYouTube | src/services/youtube.service.js:133-135 | every URL that yields an id is one `isYouTubeUrl` accepts |
| YouTube.ExampleShortLink | src/services/youtube.service.js:105 | `https://youtu.be/dQw4w9WgXcQ` gives `dQw4w9WgXcQ` |
| YouTube.HashtagsShape | src/services/youtube.service.js:124-128 | hashtags are non-empty runs of word characters and À-ſ; none without `#` |
| YouTube.NormalizeVideoData | src/services/youtube.service.js:66-91 | the id is the one from the URL; the author, thumbnail, tag and date fallbacks; a non-empty `publishedAt` is kept; `is_live` exactly on `live`; views, likes and comments are `parseInt` of the text or 0; title, description, duration, channel id and category copied |
| YouTube.CountsRoundTrip | src/services/youtube.service.js:83-85 | safe integer counts the API sends as decimal text are read back exactly; missing ones are 0 |
| YouTube.VideoError | src/services/youtube.service.js:44-60 | 404, 403 and 429 map to their messages; everything else passes through |
| YouTube.ExtractVideo | src/services/youtube.service.js:19-61 | no id fails before any request; no items is "Vidéo YouTube introuvable"; thrown calls through the status mapping; a success exactly when items are present, and then the first item, normalised |
| Vera.AnalysisText | src/services/vera.service.js:148-151 | a non-empty string `response` is the analysis text itself |
| Vera.FirstFiring | src/services/vera.service.js:154-250 | the branch taken is one of the cascade's and its condition holds |
| Vera.ParseVeraResponse | src/services/vera.service.js:146-271 | status `completed`, the explanation is the analysis text, sources default to empty, at most one flag |
| Vera.ClassifyText | src/services/vera.service.js:154-250 | the if/else cascade computes the first-firing branch's outcome |
| Vera.ScanTools | src/services/vera.service.js:253-257 | the four independent tests push the tool list |
| Vera.FirstFiringAt | src/services/vera.service.js:154-250 | the first branch whose condition holds is the one taken |
| Vera.FirstFiringNone | src/services/vera.service.js:154-250 | no branch is taken exactly when no condition holds |
| Vera.Priority | src/services/vera.service.js:161-250 | the outcome is the first firing branch's, whatever later branches would say |
| Vera.DefaultExactly | src/services/vera.service.js:248-250 | the default outcome (70, MIXED, no flag) comes exactly when no branch fires, and score 70 means the default |
| Vera.Tables | src/services/vera.service.js:154-250 | every branch's score, verdict and flag follow the fixed tables |
| Vera.ScoreVerdict | src/services/vera.service.js:154-250 | the score is one of 0, 25, 35, 40, 50, 65, 70, 85, and each verdict goes with its scores |
| Vera.FlagRules | src/services/vera.service.js:167-250 | at most one flag; a danger flag exactly on FALSE, exactly on score 25; none on VERIFIED, MOSTLY_TRUE, the narrative or the default |
| Vera.IncapableDominates | src/services/vera.service.js:162-171 | "cannot analyse" text gives 0, MIXED and the multimedia warning whatever else it says |
| Vera.ConfirmedExactly | src/services/vera.service.js:193-203 | the confirmation branch is taken exactly when no earlier branch fires, a positive word occurs and neither negation does |
| Vera.ConfirmedBeforeFalse | src/services/vera.service.js:193-213 | once the confirmation branch fires the result is 85, VERIFIED, no flag, even if `faux` occurs |
| Vera.IncorrectConfirms | src/services/vera.service.js:194-203 | `incorrect` confirms, since it contains `correct` |
| Vera.ContenuIsNarrative | src/services/vera.service.js:239-247 | `contenu` reaches the narrative branch through `conte` |
| Vera.ShortTextDefault | src/services/vera.service.js:248-250 | text shorter than four characters gets the default outcome |
| Vera.ToolsProperties | src/services/vera.service.js:253-257 | each tool appears exactly when one of its keywords occurs, at most once, in fixed order |
| Vera.TextDetermines | src/services/vera.service.js:259-270 | two answers with the same analysis text agree on every field but `request_id` and `sources` |
| Vera.PlatformName | src/services/vera.service.js:30-32 | the platform-name ternary, with `Unknown` for anything else |
| Vera.SourceName | src/services/vera.service.js:113 | `metadata.source` is the lower-cased platform name |
| Vera.BuildMediaUrls | src/services/vera.service.js:39-64 | the `push` calls build the media list |
| Vera.ImageEntriesExact | src/services/vera.service.js:50-58 | the `forEach` keeps every non-empty image URL and only those |
| Vera.AppendImages | src/services/vera.service.js:50-58 | the `forEach` appends one image entry per truthy URL, in order, after the entries already present |
| Vera.MediaUrlsShape | src/services/vera.service.js:39-64 | at most one video entry, first; no empty URL; images from `images`, else the thumbnail only when `images` is empty |
| Vera.CheckOutcome | src/services/vera.service.js:23-140 | a missing or placeholder key fails; a result needs a truthy body; it is completed with at most one flag, a `vera_` id and no sources |
| Vera.CheckVideo | src/services/vera.service.js:23-140 | no request without a key; the request carries the media list and platform; thrown errors and a falsy body fail; a body is parsed as `{ response }` |
| Vera.StringBodyVerbatim | src/services/vera.service.js:132-134 | a string answer becomes the explanation verbatim |
| Vera.ExtractTextContent | src/services/vera.service.js:276-286 | title, description and a hashtag line, each only when present, joined by blank lines |
| Vera.TextContentCases | src/services/vera.service.js:276-286 | the text is empty exactly when all three parts are missing |
| VeraScenarios.IncapableScenario | src/services/vera.service.js:162-171 | "je ne suis pas capable d'analyser cette vidéo" gives 0, MIXED and the warning flag |
| VeraScenarios.ConfirmedScenario | src/services/vera.service.js:193-230 | "ce contenu est confirmé comme authentique et vérifié" gives 85, VERIFIED, no flag |
| Store.FindVideo | src/database/service.js:46-49 | the row with the `video_id`, none exactly when no row has it |
| Store.DurationOrZero | src/database/service.js:24 | a zero or empty duration is stored as 0 |
| Store.InsertVideo | src/database/service.js:6-39 | no `video_id` fails the NOT NULL constraint; an existing id returns that row's id and adds nothing; a new id appends a row with a fresh id |
| Store.InsertVideoKeepsInvariant | src/database/init.js:26 | inserting keeps `video_id` unique and row ids below the counter |
| Store.CreateVideoIdempotent | src/database/service.js:6-39 | a second insert with the same `video_id` adds nothing and returns the first id |
| Store.CreateVideoFresh | src/database/service.js:15-30 | a new `video_id` gets a row id above every existing one |
| Store.NewVerificationRow | src/database/service.js:77-78 | missing flags and sources are stored as empty lists |
| Store.InsertVerification | src/database/service.js:63-83 | a row for a missing video fails the foreign key; otherwise exactly one row is appended |
| Store.VerificationsAppendOnly | src/database/service.js:63-83 | existing verification rows are never changed |
| Store.LatestVerification | src/database/service.js:101-116 | none exactly when the video has no verification; otherwise one of its rows with the latest `verified_at` |
| Store.FindAccount | src/database/service.js:137-140 | the row with the username, none exactly when no row has it |
| Store.InsertAccount | src/database/service.js:120-135 | a taken username, whatever its owner or status, returns null and changes nothing; otherwise one active row is appended |
| Store.StopAccounts | src/database/service.js:162-170 | only the matching row changes, to inactive with a new `updated_at` |
| Store.CheckAccounts | src/database/service.js:151-160 | only the matching row changes, with the new check time and last video |
| Store.ActiveOf | src/database/service.js:172-179 | exactly the owner's active rows, each as many times as in the table |
| Store.ActiveOfCounts | src/database/service.js:172-179 | each of the owner's active rows appears as many times as in the table, and no other row appears |
| Store.ActiveOfNewestFirst | src/database/service.js:176 | with ids increasing along the table, the owner's active rows come newest first |
| Store.Insert | src/database/service.js:142-149 | insertion into a list ordered by `last_check_at` keeps it ordered and adds the row |
| Store.ActiveRows | src/database/service.js:142-149 | exactly the active rows |
| Store.ActiveRowsCounts | src/database/service.js:142-149 | each active row appears as many times as in the table, and no inactive row appears |
| Store.SortByCheck | src/database/service.js:142-149 | a permutation ordered by `last_check_at`, never-checked rows first |
| Store.AllActiveExactly | src/database/service.js:142-149 | a permutation of the active rows, ordered by `last_check_at` |
| Store.StoppedNeverRewatched | src/database/service.js:120-135 | a stopped username cannot be watched again by anyone |
| Store.StopKeepsRows | src/database/service.js:162-170 | stopping deletes nothing and keeps ids, owners and unique usernames |
| Store.InsertAccountCounts | src/database/service.js:120-135 | a new account adds one row to its owner's active list and none to anyone else's |
| Store.FindUser | src/database/service.js:241-244 | the row with the Telegram id, none exactly when there is none |
| Store.UpsertUser | src/database/service.js:213-229 | an unknown id appends a user with 0 requests; a known one has only its name fields replaced |
| Store.IncrementRequests | src/database/service.js:231-239 | a known user's counter goes up by one with a new request time; an unknown id changes nothing |
| Store.UpsertPreservesCounts | src/database/service.js:213-229 | the upsert keeps ids unique and every counter and join date, and the user exists afterwards |
| Store.UpsertThenIncrement | src/database/service.js:213-239 | a request counted after an upsert adds exactly one |
| Store.OwnerUsernames | src/database/service.js:256-258 | the usernames of all the owner's rows, whatever their status |
| Store.JoinCount | src/database/service.js:252-260 | the join never counts more rows than there are verifications, and counts none without usernames |
| Store.JoinCountCounts | src/database/service.js:252-260 | the `COUNT(*)` equals the number of verifications whose video row has an author among the usernames |
| Store.NoNamesNoActive | src/database/service.js:248-268 | an owner without rows has no active rows |
| Store.Database.constructor | src/database/init.js:26 | the tables start empty |
| Store.Database.CreateVideo | src/database/service.js:6-39 | the videos table and counter become `InsertVideo` of the old ones; nothing else changes |
| Store.Database.CreateVerification | src/database/service.js:63-83 | the verifications table becomes `InsertVerification` of the old one; nothing else changes |
| Store.Database.GetLatestVerification | src/database/service.js:101-116 | the latest verification of the video |
| Store.Database.CreateMonitoredAccount | src/database/service.js:120-135 | the accounts become `InsertAccount` of the old ones; null when the username is taken |
| Store.Database.StopMonitoredAccount | src/database/service.js:162-170 | the accounts become `StopAccounts` of the old ones; nothing else changes |
| Store.Database.UpdateMonitoredAccountCheck | src/database/service.js:151-160 | the accounts become `CheckAccounts` of the old ones; nothing else changes |
| Store.Database.GetMonitoredAccountsByUser | src/database/service.js:172-179 | exactly the owner's active rows, with multiplicity, newest first |
| Store.Database.GetAllActiveMonitoredAccounts | src/database/service.js:142-149 | a permutation of the active rows, ordered by `last_check_at` |
| Store.Database.CreateOrUpdateTelegramUser | src/database/service.js:213-229 | the users become `UpsertUser` of the old ones; nothing else changes |
| Store.Database.IncrementUserRequests | src/database/service.js:231-239 | the users become `IncrementRequests` of the old ones; nothing else changes |
| Store.Database.GetUserStats | src/database/service.js:248-268 | an unknown user has 0 requests and no join date; the monitored count is the owner's active rows; no usernames means no counts |
| Bot.Label | src/bot/telegram.js:190-201 | the content type is one of the three platform names, each its own Vera source |
| Bot.Dispatch | src/bot/telegram.js:174-201 | refused exactly when no platform recognises the URL; TikTok first, then Instagram, then YouTube |
| Bot.ExtractableIsDispatched | src/bot/telegram.js:174-201 | a URL the Instagram or YouTube extractor can read is never refused, and reaches that extractor unless an earlier platform claims it |
| Bot.Extract | src/bot/telegram.js:190-201 | each platform fails exactly when its extractor does, with its message; on success the content is that extractor's record, wrapped for its platform; only TikTok can settle with `undefined` |
| Bot.StoredVideoId | src/bot/telegram.js:211 | `video_id`, else `post_id`, else `shortcode`; none when all are empty |
| Bot.DownloadSource | src/bot/telegram.js:217 | `download_url`, else `video_url`, else the first image, else empty |
| Bot.StoredRecord | src/bot/telegram.js:210-226 | the stored record's id, download, title and description fallbacks; platform, url, author, thumbnail, hashtags and `created_at` copied; duration `|| 0`; the four counts as extracted |
| Bot.StoredRecordByPlatform | src/bot/telegram.js:210-226 | what each platform's record stores as id, title, description, download and duration |
| Bot.SameIdSharesRow | src/database/service.js:8-12 | a TikTok and a YouTube video with equal ids share one row |
| Bot.VerificationRecord | src/bot/telegram.js:236-245 | the `unknown`, `error` and placeholder-explanation defaults, and the value itself when non-empty; score, verdict name, flags and sources passed on |
| Bot.StoredVerificationOfVera | src/bot/telegram.js:236-245 | on a Vera result the defaults never apply: a `vera_` id, `completed`, a table verdict, at most one flag, no sources |
| Bot.PlatformEmoji | src/bot/telegram.js:416 | 📷 for instagram, 🎬 for youtube, 🎥 for anything else |
| Bot.ShownPlatformName | src/bot/telegram.js:417 | Instagram, YouTube, else TikTok |
| Bot.PlatformNamesAgree | src/bot/telegram.js:417 | the formatter's names agree with Vera's on the three platforms and say TikTok where Vera says Unknown |
| Bot.ShownTitle | src/bot/telegram.js:420 | title, else the first 50 UTF-16 units of the caption, else `Post {platform}` |
| Bot.ShownDescription | src/bot/telegram.js:423 | the longest start of `description || caption || 'Pas de description'` within 100 UTF-16 units, followed by `...` |
| Bot.ShownDescriptionShape | src/bot/telegram.js:423 | the line is a start of `description || caption || 'Pas de description'` of at most 100 UTF-16 units, then `...` |
| Bot.DescriptionWhole | src/bot/telegram.js:423 | a short description is shown whole, followed by `...` |
| Bot.ViewLines | src/bot/telegram.js:429-436 | shares and views for tiktok; views or `Photo` for the others |
| Bot.VerdictEmoji | src/bot/telegram.js:446-462 | `❓` for a verdict outside the table |
| Bot.VerdictLabel | src/bot/telegram.js:454-463 | the raw verdict for one outside the table |
| Bot.VerdictTables | src/bot/telegram.js:446-463 | every verdict Vera can give has its own emoji and a label |
| Bot.BulletsAppend | src/bot/telegram.js:475-477 | the bullets of two lists are the bullets of each, concatenated |
| Bot.Messages | src/bot/telegram.js:486-488 | one message per flag, in order |
| Bot.SummarySection | src/bot/telegram.js:469-471 | empty exactly when the summary is |
| Bot.ToolsSection | src/bot/telegram.js:473-478 | empty exactly when no tool was used |
| Bot.ExplanationSection | src/bot/telegram.js:480-482 | empty exactly when the explanation is |
| Bot.FlagsSection | src/bot/telegram.js:484-489 | empty exactly when there is no flag |
| Bot.AppendBullets | src/bot/telegram.js:475-477 | the `forEach` appends one bullet per item, in order |
| Bot.AppendAnalysis | src/bot/telegram.js:469-489 | the four conditional sections, appended in order |
| Bot.FormatContentResult | src/bot/telegram.js:415-492 | the successive `+=` build exactly the header, stats, separator, verdict lines and sections |
| Bot.VeraAlertsAtMostOne | src/bot/telegram.js:484-489 | on a Vera result the alerts section is empty or a single bullet |
| Bot.UnknownPlatformShownAsTikTok | src/bot/telegram.js:416-436 | an unknown platform is headed like TikTok but gets the non-TikTok view line |
| Bot.HandleCheck | src/bot/telegram.js:165-262 | the request is counted first; an unrecognised URL or failed extraction stores nothing; the video row is stored whatever Vera answers; a Vera result stores one verification and replies with the formatted result; the verification counter moves by one exactly then; the account table and counter are untouched |
| Bot.DispatchAndExtract | src/bot/telegram.js:173-201 | content comes out exactly when dispatch and extraction yield it, from the platform dispatch chose; otherwise the early reply |
| Bot.StoreAndVerify | src/bot/telegram.js:209-256 | the video row is stored first; a failed insert or Vera failure replies with the error and stores no verification; a Vera result appends exactly one verification for the new row, moves the verification counter by one and replies with the formatted result; users and accounts are untouched |
| Bot.MonitorDecision | src/bot/telegram.js:276-297 | the cap comes first, then the lookup, then the duplicate test |
| Bot.WatchBelowCap | src/bot/telegram.js:283-297 | below the cap: the lookup error, the already-watched reply or the watched reply, with exactly the account row `/monitor` adds; the account counter moves by one exactly when a row is added; other tables and counters untouched |
| Bot.MonitorAccounts | src/bot/telegram.js:276-297 | only a successful watch adds an account, the one `createMonitoredAccount` adds |
| Bot.WatchCap | src/bot/telegram.js:276-280 | a user never gets more than ten active accounts through `/monitor` |
| Bot.TakenNeverInserted | src/bot/telegram.js:288-297 | a taken username changes nothing and is reported as already watched, or as the lookup error |
| Bot.HandleMonitor | src/bot/telegram.js:267-321 | the reply and the new accounts are those of the decision; the account counter moves by one exactly when a row is added; other tables and counters are unchanged |
| Bot.StopSettles | src/bot/telegram.js:339 | after stopping, the username is no longer watched |
| Bot.HandleStopMonitor | src/bot/telegram.js:326-347 | an absent or inactive account is reported and nothing changes; otherwise it is stopped; no table grows and no counter moves |

## Left out

- Network: every HTTP call is an input `Call` value. `resolveShortUrl` and its redirects are not
  modelled, because they only follow HTTP redirects.
- Telegram I/O is not modelled: polling, `sendMessage`, `editMessageText`, `deleteMessage`, and the
  progress messages of `/check` and `/monitor`. The handlers return the final reply text instead.
- The `/start`, `/help`, `/list` and `/stats` screens, `formatVideoResult` and
  `sendMonitoringNotification` are fixed text around I/O and are not modelled.
- The free-text Vera prompt is not modelled beyond the media list, platform name and source it is
  built from.
- `toLowerCase`, `toLocaleString`, `Date.now()`, `new Date()` and `CURRENT_TIMESTAMP` are
  parameters, with nothing assumed about them.
- `cleanOldData`, `getMonitoringLogs`, `createMonitoringLog`, `getGlobalStats`, `getVideoById`,
  `getVideosByAuthor` and `getVerificationsByVideoId` lie outside the `/check`, `/monitor` and
  `/stop` paths and are not modelled.
- src/services/monitoring.service.js and src/index.js are not part of this model.
- The schema of src/database/init.js enters only through its UNIQUE and NOT NULL constraints and its
  foreign key.
- `JSON.stringify` of hashtags, flags and sources is not modelled. The stored row keeps the
  values.
- Columns the INSERT statements do not list are not stored: the hashtags, creation date and
  platform of a video.
- Vera scores are integers. The source stores them in a REAL column.
- `substring` on a lone surrogate is not modelled. A character outside the BMP is two UTF-16 units
  and is never split.
- Store.LatestVerification: returns one of the rows with the latest `verified_at` and does not
  promise which, because SQLite leaves ties unordered.
- Store.ActiveOf: `ORDER BY created_at DESC` is modelled as the reverse of insertion order, that
  is, decreasing row id. Timestamps are not compared.
- Text.ParseInt: returns an exact unbounded integer. JavaScript's `parseInt` returns a double, so
  text above 2^53 is rounded. Upstream counts are decimal and far below that bound.
- Text.ParseIntRendered: holds for safe integers only. The bound is `Number.MAX_SAFE_INTEGER`,
  because `${n}` switches to exponent notation and `parseInt` rounds beyond it.
- YouTube.CountsRoundTrip: stated for safe integer counts only, for the same reason.
- Bot.HandleCheck: does not model the "Impossible d'obtenir une vérification" branch. `checkVideo`
  settles only with a result object or an error, so that branch cannot be reached.
  It also does not model a foreign-key failure of `createVerification`, because the row id it
  receives was just returned by `createVideo`.
- Bot.VerificationRecord: the `score || 0`, `verdict || 'unknown'` and `flags || []` defaults are
  not stated. A typed `VeraResult` always carries an integer score, one of the five verdicts and a
  flag list, so those operands are never missing; a zero score stays 0 either way.
- Regular expressions are the specific matchers listed. Full Unicode classes and case folding are
  not modelled. `\w` is ASCII and `À-ſ` is U+00C0–U+017F, as in the source.
