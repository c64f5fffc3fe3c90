/**
 * The Telegram bot's pipeline: which extractor a URL goes to, the rows `/check` writes, the
 * `/monitor` and `/stop` decisions, and the text of the result message. Messages the bot sends
 * are the `reply` the handlers return; `toLocaleString` on counts is the parameter `fmt`.
 */
module Bot {
  import opened Wrappers
  import opened Text
  import opened Records
  import TikTokService = TikTok
  import InstagramService = Instagram
  import YouTubeService = YouTube
  import Vera
  import Store

  // ---------------------------------------------------------------------------
  // Platform dispatch

  datatype Platform = OnTikTok | OnInstagram | OnYouTube

  /** The `contentType` the handler passes on to the store, Vera and the formatter. */
  function Label(p: Platform): (contentType: string)
    ensures contentType in {"tiktok", "instagram", "youtube"}
    ensures Vera.SourceName(contentType) == contentType
  {
    match p
    case OnTikTok => "tiktok"
    case OnInstagram => "instagram"
    case OnYouTube => "youtube"
  }

  /** `handleCheck`'s validity test and platform choice: TikTok, then Instagram, then YouTube. */
  function Dispatch(url: string): (p: Option<Platform>)
    ensures p.None? <==>
      !TikTokService.IsTikTokUrl(url) && !InstagramService.IsInstagramUrl(url) && !YouTubeService.IsYouTubeUrl(url)
    ensures p == Some(OnTikTok) <==> TikTokService.IsTikTokUrl(url)
    ensures p == Some(OnInstagram) <==> !TikTokService.IsTikTokUrl(url) && InstagramService.IsInstagramUrl(url)
  {
    if TikTokService.IsTikTokUrl(url) then Some(OnTikTok)
    else if InstagramService.IsInstagramUrl(url) then Some(OnInstagram)
    else if YouTubeService.IsYouTubeUrl(url) then Some(OnYouTube)
    else None
  }

  /**
   * A URL the Instagram or YouTube extractor can read is never refused as invalid, and reaches
   * that extractor unless a platform tried earlier also claims it.
   */
  lemma ExtractableIsDispatched(url: string)
    ensures InstagramService.ShortcodeFromUrl(url).Some? ==> Dispatch(url).Some?
    ensures InstagramService.ShortcodeFromUrl(url).Some? && !TikTokService.IsTikTokUrl(url) ==>
      Dispatch(url) == Some(OnInstagram)
    ensures YouTubeService.VideoIdFromUrl(url).Some? ==> Dispatch(url).Some?
    ensures YouTubeService.VideoIdFromUrl(url).Some? && !TikTokService.IsTikTokUrl(url) && !InstagramService.IsInstagramUrl(url)
      ==> Dispatch(url) == Some(OnYouTube)
  {
    if InstagramService.ShortcodeFromUrl(url).Some? {
      InstagramService.ShortcodeIsInstagram(url);
    }
    if YouTubeService.VideoIdFromUrl(url).Some? {
      YouTubeService.VideoIdIsYouTube(url);
    }
  }

  // ---------------------------------------------------------------------------
  // Extraction

  /** What the upstream services answer to each call `/check` may make. */
  datatype Upstream = Upstream(
    details: Call<TikTokService.DetailsResponse>,
    listed: Call<TikTokService.UserVideosResponse>,
    post: Call<Option<InstagramService.PostPayload>>,
    videos: Call<YouTubeService.VideosResponse>,
    vera: Call<Vera.Field>)

  function PlatformOf(c: Content): Platform {
    match c
    case TikTok(_) => OnTikTok
    case Instagram(_) => OnInstagram
    case YouTube(_) => OnYouTube
  }

  /**
   * The awaited extractor of the chosen platform. `Success(None)` is the `undefined` the
   * TikTok extractor settles with when its details response has no `details`.
   */
  function Extract(p: Platform, url: string, up: Upstream, clock: Clock): (r: Result<Option<Content>>)
    ensures r.Success? && r.value.Some? ==> PlatformOf(r.value.value) == p
    ensures r.Success? && r.value.None? ==> p == OnTikTok
    ensures p == OnYouTube ==>
      (r.Failure? <==> YouTubeService.ExtractVideo(url, up.videos, clock).result.Failure?)
    ensures p == OnInstagram ==>
      (r.Failure? <==> InstagramService.ExtractPost(url, up.post, clock).result.Failure?)
    ensures p == OnTikTok ==>
      (r.Failure? <==> TikTokService.ExtractVideo(url, up.details, up.listed, clock).result.Failure?)
    ensures p == OnTikTok && r.Success? ==>
      r.value == (var t := TikTokService.ExtractVideo(url, up.details, up.listed, clock).result.value;
                  if t.Some? then Some(Content.TikTok(t.value)) else None)
    ensures p == OnInstagram && r.Success? ==>
      r.value == Some(Content.Instagram(InstagramService.ExtractPost(url, up.post, clock).result.value))
    ensures p == OnYouTube && r.Success? ==>
      r.value == Some(Content.YouTube(YouTubeService.ExtractVideo(url, up.videos, clock).result.value))
    ensures p == OnTikTok && r.Failure? ==>
      r.message == TikTokService.ExtractVideo(url, up.details, up.listed, clock).result.message
    ensures p == OnInstagram && r.Failure? ==> r.message == InstagramService.ExtractPost(url, up.post, clock).result.message
    ensures p == OnYouTube && r.Failure? ==> r.message == YouTubeService.ExtractVideo(url, up.videos, clock).result.message
  {
    match p
    case OnTikTok => (
      match TikTokService.ExtractVideo(url, up.details, up.listed, clock).result
      case Failure(m) => Failure(m)
      case Success(None) => Success(None)
      case Success(Some(v)) => Success(Some(Content.TikTok(v))))
    case OnInstagram => (
      match InstagramService.ExtractPost(url, up.post, clock).result
      case Failure(m) => Failure(m)
      case Success(post) => Success(Some(Content.Instagram(post))))
    case OnYouTube =>
      match YouTubeService.ExtractVideo(url, up.videos, clock).result
      case Failure(m) => Failure(m)
      case Success(v) => Success(Some(Content.YouTube(v)))
  }

  /** The content `/check` goes on with, when a platform claims the URL and extraction yields one. */
  function Extracted(url: string, up: Upstream, clock: Clock): (r: Option<Content>)
    ensures r.Some? ==> Dispatch(url).Some? && PlatformOf(r.value) == Dispatch(url).value
  {
    match Dispatch(url)
    case None => None
    case Some(p) =>
      (match Extract(p, url, up, clock)
       case Success(Some(c)) => Some(c)
       case _ => None)
  }

  // ---------------------------------------------------------------------------
  // The rows `/check` writes

  /** `video_id || post_id || shortcode`; `None` is the `undefined` an empty chain yields. */
  function StoredVideoId(c: Content): (id: Option<string>)
    ensures id.None? <==> c.VideoId() == "" && c.PostId() == "" && c.Shortcode() == ""
    ensures c.VideoId() != "" ==> id == Some(c.VideoId())
    ensures c.VideoId() == "" && c.PostId() != "" ==> id == Some(c.PostId())
    ensures c.VideoId() == "" && c.PostId() == "" && c.Shortcode() != "" ==> id == Some(c.Shortcode())
  {
    var chain := OrElse(c.VideoId(), OrElse(c.PostId(), c.Shortcode()));
    if chain == "" then None else Some(chain)
  }

  /** `download_url || video_url || images?.[0] || ''`. */
  function DownloadSource(c: Content): (u: string)
    ensures c.DownloadUrl() != "" ==> u == c.DownloadUrl()
    ensures c.DownloadUrl() == "" && c.VideoUrl() != "" ==> u == c.VideoUrl()
    ensures c.DownloadUrl() == "" && c.VideoUrl() == "" && |c.Images()| > 0 ==> u == c.Images()[0]
    ensures c.DownloadUrl() == "" && c.VideoUrl() == "" && |c.Images()| == 0 ==> u == ""
  {
    OrElse(c.DownloadUrl(), OrElse(c.VideoUrl(), if |c.Images()| > 0 then c.Images()[0] else ""))
  }

  /** `contentData.created_at`: the YouTube record has none. */
  function CreatedAt(c: Content): string {
    match c
    case TikTok(v) => v.createdAt
    case Instagram(p) => p.createdAt
    case YouTube(_) => ""
  }

  /** The object `/check` hands to `createVideo`. */
  function StoredRecord(c: Content, platform: string): (v: Store.VideoInput)
    ensures v.videoId == StoredVideoId(c) && v.downloadUrl == DownloadSource(c)
    ensures v.title == OrElse(c.Title(), c.Caption()) && v.description == OrElse(c.Description(), c.Caption())
    ensures v.platform == platform && v.url == c.Url() && v.author == c.Author()
    ensures v.thumbnailUrl == c.ThumbnailUrl() && v.duration == Store.DurationOrZero(c.DurationValue())
    ensures v.likes == c.Likes() && v.comments == c.Comments() && v.shares == c.Shares() && v.views == c.Views()
    ensures v.hashtags == c.Hashtags() && v.createdAt == CreatedAt(c)
  {
    Store.VideoInput(
      videoId := StoredVideoId(c),
      url := c.Url(),
      author := c.Author(),
      title := OrElse(c.Title(), c.Caption()),
      description := OrElse(c.Description(), c.Caption()),
      thumbnailUrl := c.ThumbnailUrl(),
      downloadUrl := DownloadSource(c),
      duration := Store.DurationOrZero(c.DurationValue()),
      likes := c.Likes(),
      comments := c.Comments(),
      shares := c.Shares(),
      views := c.Views(),
      hashtags := c.Hashtags(),
      createdAt := CreatedAt(c),
      platform := platform)
  }

  /**
   * Per platform: a TikTok or YouTube row is keyed by the video id; an Instagram row by the
   * post id, with the caption as title and description and the video or first image as the
   * download; a YouTube row has no download and keeps its ISO duration.
   */
  lemma StoredRecordByPlatform(c: Content, platform: string)
    ensures c.TikTok? && c.video.videoId != "" ==> StoredRecord(c, platform).videoId == Some(c.video.videoId)
    ensures c.YouTube? && c.yt.videoId != "" ==> StoredRecord(c, platform).videoId == Some(c.yt.videoId)
    ensures c.Instagram? && c.post.postId != "" ==> StoredRecord(c, platform).videoId == Some(c.post.postId)
    ensures c.Instagram? ==>
      StoredRecord(c, platform).title == c.post.caption
      && StoredRecord(c, platform).description == c.post.caption
      && StoredRecord(c, platform).downloadUrl == OrElse(c.post.videoUrl, if |c.post.images| > 0 then c.post.images[0] else "")
    ensures c.YouTube? ==>
      StoredRecord(c, platform).downloadUrl == ""
      && StoredRecord(c, platform).duration == (if c.yt.duration == "" then Seconds(0) else Iso(c.yt.duration))
  {
  }

  /**
   * The row key is the native id alone: a TikTok video and a YouTube video whose ids are equal
   * share one row. The second store returns the first row's id and adds nothing.
   */
  lemma SameIdSharesRow(
    rows: seq<Store.VideoRow>, seqNo: int, t: TikTokVideo, y: YouTubeVideo, now1: int, now2: int)
    requires Store.UniqueVideoIds(rows) && Store.VideoIdsBelow(rows, seqNo)
    requires t.videoId != "" && t.videoId == y.videoId
    ensures var a := Store.InsertVideo(rows, seqNo, StoredRecord(Content.TikTok(t), "tiktok"), now1);
      var b := Store.InsertVideo(a.rows, a.seqNo, StoredRecord(Content.YouTube(y), "youtube"), now2);
      b.rows == a.rows && b.result == a.result
  {
    Store.CreateVideoIdempotent(rows, seqNo, StoredRecord(Content.TikTok(t), "tiktok"),
                                StoredRecord(Content.YouTube(y), "youtube"), now1, now2);
  }

  function VerdictName(v: Vera.Verdict): string {
    match v
    case VERIFIED => "VERIFIED"
    case MOSTLY_TRUE => "MOSTLY_TRUE"
    case MIXED => "MIXED"
    case MOSTLY_FALSE => "MOSTLY_FALSE"
    case FALSE => "FALSE"
  }

  const NoExplanation: string := "Aucune explication disponible"

  /** The object `/check` hands to `createVerification`, with its `||` defaults. */
  function VerificationRecord(videoRowId: int, r: Vera.VeraResult): (v: Store.VerificationInput)
    ensures r.requestId == "" ==> v.requestId == "unknown"
    ensures r.status == "" ==> v.status == "error"
    ensures r.explanation == "" ==> v.explanation == NoExplanation
    ensures r.requestId != "" ==> v.requestId == r.requestId
    ensures r.explanation != "" ==> v.explanation == r.explanation
    ensures r.status != "" ==> v.status == r.status
    ensures v.score == r.score && v.verdict == VerdictName(r.verdict)
    ensures v.flags == Some(r.flags) && v.sources == Some(r.sources) && v.videoRowId == videoRowId
  {
    Store.VerificationInput(
      videoRowId := videoRowId,
      requestId := OrElse(r.requestId, "unknown"),
      status := OrElse(r.status, "error"),
      score := r.score,
      verdict := OrElse(VerdictName(r.verdict), "unknown"),
      flags := Some(r.flags),
      sources := Some(r.sources),
      explanation := OrElse(r.explanation, NoExplanation))
  }

  /**
   * On a result Vera settles with, the request id, status and verdict defaults never apply:
   * the stored row has a `vera_` id, status `completed`, a verdict name of the table and at
   * most one flag.
   */
  lemma StoredVerificationOfVera(
    videoRowId: int, apiKey: string, call: Call<Vera.Field>, toLower: string -> string, parseMillis: int,
    r: Vera.VeraResult)
    requires Vera.CheckOutcome(apiKey, call, toLower, parseMillis) == Success(r)
    ensures var v := VerificationRecord(videoRowId, r);
      v.requestId == "vera_" + IntToString(parseMillis) && v.status == "completed"
      && v.verdict in {"VERIFIED", "MOSTLY_TRUE", "MIXED", "MOSTLY_FALSE", "FALSE"}
      && |v.flags.value| <= 1 && v.sources == Some([])
  {
    assert r.requestId == "vera_" + IntToString(parseMillis) && r.status == "completed";
    assert r.requestId[0] == 'v';
    assert r.status[0] == 'c';
    var name := VerdictName(r.verdict);
    assert name in {"VERIFIED", "MOSTLY_TRUE", "MIXED", "MOSTLY_FALSE", "FALSE"};
    assert OrElse(name, "unknown") == name;
  }

  // ---------------------------------------------------------------------------
  // formatContentResult

  function PlatformEmoji(platform: string): (e: string)
    ensures platform == "instagram" ==> e == "📷"
    ensures platform == "youtube" ==> e == "🎬"
    ensures platform != "instagram" && platform != "youtube" ==> e == "🎥"
  {
    if platform == "instagram" then "📷" else if platform == "youtube" then "🎬" else "🎥"
  }

  function ShownPlatformName(platform: string): (name: string)
    ensures platform == "instagram" ==> name == "Instagram"
    ensures platform == "youtube" ==> name == "YouTube"
    ensures platform != "instagram" && platform != "youtube" ==> name == "TikTok"
  {
    if platform == "instagram" then "Instagram" else if platform == "youtube" then "YouTube" else "TikTok"
  }

  /**
   * The formatter's platform name agrees with the one Vera is sent on the three labels, but
   * names any other platform TikTok where Vera's says Unknown.
   */
  lemma PlatformNamesAgree(platform: string)
    ensures platform in {"tiktok", "instagram", "youtube"} ==> ShownPlatformName(platform) == Vera.PlatformName(platform)
    ensures platform !in {"tiktok", "instagram", "youtube"} ==>
      ShownPlatformName(platform) == "TikTok" && Vera.PlatformName(platform) == "Unknown"
  {
  }

  /** `title || caption?.substring(0, 50) || `Post ${platformName}``. */
  function ShownTitle(c: Content, platform: string): (t: string)
    ensures c.Title() != "" ==> t == c.Title()
    ensures c.Title() == "" && c.Caption() == "" ==> t == "Post " + ShownPlatformName(platform)
    ensures c.Title() == "" && c.Caption() != "" ==> t == Utf16Prefix(c.Caption(), 50)
  {
    OrElse(OrElse(c.Title(), Utf16Prefix(c.Caption(), 50)), "Post " + ShownPlatformName(platform))
  }

  /** `(description || caption || 'Pas de description').substring(0, 100)` and then `...`. */
  function ShownDescription(c: Content): (d: string)
    ensures d == Utf16Prefix(OrElse(OrElse(c.Description(), c.Caption()), "Pas de description"), 100) + "..."
  {
    Utf16Prefix(OrElse(OrElse(c.Description(), c.Caption()), "Pas de description"), 100) + "..."
  }

  /**
   * The description line is a start of the shown text, at most 100 UTF-16 units long, and then
   * the three dots.
   */
  lemma ShownDescriptionShape(c: Content)
    ensures var d := ShownDescription(c);
      var text := OrElse(OrElse(c.Description(), c.Caption()), "Pas de description");
      && |d| >= 3 && d[|d| - 3..] == "..." && |d| - 3 <= |text|
      && d[..|d| - 3] == text[..|d| - 3] && Utf16Length(d[..|d| - 3]) <= 100
  {
    var text := OrElse(OrElse(c.Description(), c.Caption()), "Pas de description");
    var body := Utf16Prefix(text, 100);
    var d := body + "...";
    assert d[..|body|] == body && d[|body|..] == "...";
  }

  /** The description line shows the whole text when it fits in 100 units, dots included. */
  lemma DescriptionWhole(c: Content)
    requires c.Description() != "" && Utf16Length(c.Description()) <= 100
    ensures ShownDescription(c) == c.Description() + "..."
  {
    Utf16PrefixFits(c.Description(), 100);
  }

  const AuthorLabel: string := "👤 <b>Auteur :</b> @"
  const StatsHeading: string := "📊 <b>Statistiques :</b>\n"

  function Header(c: Content, platform: string, fmt: int -> string): string {
    "\n" + PlatformEmoji(platform) + " <b>" + ShownTitle(c, platform) + "</b>\n\n"
    + AuthorLabel + c.Author() + "\n"
    + "📝 " + ShownDescription(c) + "\n\n"
    + StatsHeading
    + "❤️ " + fmt(c.Likes()) + " likes\n"
    + "💬 " + fmt(c.Comments()) + " commentaires"
  }

  /** Shares only for `tiktok`; elsewhere views, or `Photo` when there are none. */
  function ViewLines(c: Content, platform: string, fmt: int -> string): (s: string)
    ensures platform == "tiktok" ==> s == "\n🔄 " + fmt(c.Shares()) + " partages\n👁️ " + fmt(c.Views()) + " vues"
    ensures platform != "tiktok" && c.Views() > 0 ==> s == "\n👁️ " + fmt(c.Views()) + " vues"
    ensures platform != "tiktok" && c.Views() <= 0 ==> s == "\n👁️ Photo"
  {
    if platform == "tiktok" then "\n🔄 " + fmt(c.Shares()) + " partages\n👁️ " + fmt(c.Views()) + " vues"
    else "\n👁️ " + (if c.Views() > 0 then fmt(c.Views()) + " vues" else "Photo")
  }

  const Separator: string := "\n\n━━━━━━━━━━━━━━━\n        "

  /** `verdictEmojis[verdict] || '❓'`. */
  function VerdictEmoji(verdict: string): (e: string)
    ensures verdict !in {"VERIFIED", "MOSTLY_TRUE", "MIXED", "MOSTLY_FALSE", "FALSE"} ==> e == "❓"
  {
    match verdict
    case "VERIFIED" => "✅"
    case "MOSTLY_TRUE" => "☑️"
    case "MIXED" => "⚠️"
    case "MOSTLY_FALSE" => "❌"
    case "FALSE" => "🚫"
    case _ => "❓"
  }

  /** `verdictLabels[verdict] || verdict`. */
  function VerdictLabel(verdict: string): (l: string)
    ensures verdict !in {"VERIFIED", "MOSTLY_TRUE", "MIXED", "MOSTLY_FALSE", "FALSE"} ==> l == verdict
  {
    match verdict
    case "VERIFIED" => "Vérifié"
    case "MOSTLY_TRUE" => "Plutôt vrai"
    case "MIXED" => "Mixte"
    case "MOSTLY_FALSE" => "Plutôt faux"
    case "FALSE" => "Faux"
    case _ => verdict
  }

  /** Every verdict Vera gives has its own emoji and French label: no fallback is shown. */
  lemma VerdictTables(v: Vera.Verdict)
    ensures VerdictEmoji(VerdictName(v)) != "❓"
    ensures VerdictLabel(VerdictName(v)) != VerdictName(v)
    ensures forall w: Vera.Verdict :: w != v ==> VerdictEmoji(VerdictName(w)) != VerdictEmoji(VerdictName(v))
  {
  }

  const ResultTitle: string := " <b>RÉSULTAT VERA</b>\n\n"
  const VerdictLabelPrefix: string := "🎯 <b>Verdict :</b> "
  const ScorePrefix: string := "📊 <b>Score :</b> "

  function ResultHeading(r: Vera.VeraResult): string {
    VerdictEmoji(VerdictName(r.verdict)) + ResultTitle
  }

  function VerdictLine(r: Vera.VeraResult): string {
    VerdictLabelPrefix + VerdictLabel(VerdictName(r.verdict)) + "\n"
  }

  function ScoreLine(r: Vera.VeraResult): string {
    ScorePrefix + IntToString(r.score) + "/100\n"
  }

  function Bullet(item: string): string {
    "  • " + item + "\n"
  }

  /** One bullet per item, in order. */
  function Bullets(items: seq<string>): string
    decreases |items|
  {
    if items == [] then "" else Bullets(items[..|items| - 1]) + Bullet(items[|items| - 1])
  }

  /** Bullets of a concatenation are the concatenation of the bullets. */
  lemma {:induction false} BulletsAppend(a: seq<string>, b: seq<string>)
    ensures Bullets(a + b) == Bullets(a) + Bullets(b)
    decreases |b|
  {
    if b == [] {
      assert a + b == a;
    } else {
      var init, last := b[..|b| - 1], b[|b| - 1];
      assert (a + b)[..|a + b| - 1] == a + init;
      assert (a + b)[|a + b| - 1] == last;
      assert Bullets(a + b) == Bullets(a + init) + Bullet(last);
      assert Bullets(b) == Bullets(init) + Bullet(last);
      BulletsAppend(a, init);
      Regroup(Bullets(a), Bullets(init), Bullet(last));
    }
  }

  function Messages(flags: seq<Vera.Flag>): (ms: seq<string>)
    ensures |ms| == |flags| && forall k :: 0 <= k < |flags| ==> ms[k] == flags[k].message
  {
    seq(|flags|, k requires 0 <= k < |flags| => flags[k].message)
  }

  function SummarySection(summary: string): (s: string)
    ensures s == "" <==> summary == ""
  {
    if summary != "" then "\n💡 " + summary + "\n" else ""
  }

  const ExplanationHeading: string := "\n💬 <b>Analyse détaillée :</b>\n"
  const ToolsHeading: string := "\n🔧 <b>Outils Vera utilisés :</b>\n"
  const AlertsHeading: string := "\n⚠️ <b>Alertes :</b>\n"

  function ToolsSection(tools: seq<string>): (s: string)
    ensures s == "" <==> tools == []
  {
    if |tools| > 0 then ToolsHeading + Bullets(tools) else ""
  }

  function ExplanationSection(explanation: string): (s: string)
    ensures s == "" <==> explanation == ""
  {
    if explanation != "" then ExplanationHeading + explanation + "\n" else ""
  }

  function FlagsSection(flags: seq<Vera.Flag>): (s: string)
    ensures s == "" <==> flags == []
  {
    if |flags| > 0 then AlertsHeading + Bullets(Messages(flags)) else ""
  }

  /** The message `formatContentResult` builds. */
  function ContentResult(c: Content, r: Vera.VeraResult, platform: string, fmt: int -> string): string {
    Header(c, platform, fmt) + ViewLines(c, platform, fmt) + Separator
    + ResultHeading(r) + VerdictLine(r) + ScoreLine(r)
    + SummarySection(r.summary) + ToolsSection(r.toolsUsed) + ExplanationSection(r.explanation)
    + FlagsSection(r.flags)
  }

  lemma Regroup(a: string, b: string, c: string)
    ensures a + b + c == a + (b + c)
  {
  }

  /** `items.forEach(item => { message += `  • ${item}\n` })`. */
  method AppendBullets(message: string, items: seq<string>) returns (m: string)
    ensures m == message + Bullets(items)
  {
    m := message;
    var i := 0;
    while i < |items|
      invariant 0 <= i <= |items|
      invariant m == message + Bullets(items[..i])
    {
      assert items[..i + 1][..i] == items[..i];
      m := m + Bullet(items[i]);
      i := i + 1;
    }
    assert items[..i] == items;
  }

  /**
   * The optional sections of `formatContentResult`: summary and explanation when truthy,
   * tools and alerts when non-empty, one bullet per item.
   */
  method AppendAnalysis(message: string, r: Vera.VeraResult) returns (m: string)
    ensures m == message + SummarySection(r.summary) + ToolsSection(r.toolsUsed)
      + ExplanationSection(r.explanation) + FlagsSection(r.flags)
  {
    m := message;
    if r.summary != "" {
      m := m + ("\n💡 " + r.summary + "\n");
    }
    assert m == message + SummarySection(r.summary);
    var before := m;
    if |r.toolsUsed| > 0 {
      m := m + ToolsHeading;
      m := AppendBullets(m, r.toolsUsed);
      Regroup(before, ToolsHeading, Bullets(r.toolsUsed));
    }
    assert m == before + ToolsSection(r.toolsUsed);
    before := m;
    if r.explanation != "" {
      m := m + (ExplanationHeading + r.explanation + "\n");
    }
    assert m == before + ExplanationSection(r.explanation);
    before := m;
    if |r.flags| > 0 {
      var messages := Messages(r.flags);
      m := m + AlertsHeading;
      m := AppendBullets(m, messages);
      Regroup(before, AlertsHeading, Bullets(messages));
    }
    assert m == before + FlagsSection(r.flags);
  }

  /** `formatContentResult`: the message grows by `+=`. */
  method FormatContentResult(c: Content, r: Vera.VeraResult, platform: string, fmt: int -> string)
    returns (message: string)
    ensures message == ContentResult(c, r, platform, fmt)
  {
    message := Header(c, platform, fmt);
    if platform == "tiktok" {
      message := message + ("\n🔄 " + fmt(c.Shares()) + " partages\n👁️ " + fmt(c.Views()) + " vues");
    } else {
      message := message + ("\n👁️ " + (if c.Views() > 0 then fmt(c.Views()) + " vues" else "Photo"));
    }
    message := message + Separator;
    message := message + ResultHeading(r);
    message := message + VerdictLine(r);
    message := message + ScoreLine(r);
    message := AppendAnalysis(message, r);
  }

  /** A Vera result shows at most one alert bullet: the message of its one flag. */
  lemma VeraAlertsAtMostOne(
    apiKey: string, call: Call<Vera.Field>, toLower: string -> string, parseMillis: int, r: Vera.VeraResult)
    requires Vera.CheckOutcome(apiKey, call, toLower, parseMillis) == Success(r)
    ensures FlagsSection(r.flags) == "" || FlagsSection(r.flags) == AlertsHeading + Bullet(r.flags[0].message)
  {
    if |r.flags| == 1 {
      assert Messages(r.flags) == [r.flags[0].message];
      assert Messages(r.flags)[..0] == [];
      assert Bullets(Messages(r.flags)) == Bullet(r.flags[0].message);
    }
  }

  /**
   * Any platform other than Instagram and YouTube is shown as TikTok, but only `tiktok` itself
   * gets the shares line: an unknown platform shows views the non-TikTok way.
   */
  lemma UnknownPlatformShownAsTikTok(c: Content, platform: string, fmt: int -> string)
    requires platform !in {"tiktok", "instagram", "youtube"}
    ensures PlatformEmoji(platform) == PlatformEmoji("tiktok") && ShownTitle(c, platform) == ShownTitle(c, "tiktok")
    ensures Header(c, platform, fmt) == Header(c, "tiktok", fmt)
    ensures ViewLines(c, platform, fmt) != ViewLines(c, "tiktok", fmt)
  {
    var t := ViewLines(c, "tiktok", fmt);
    var u := ViewLines(c, platform, fmt);
    assert t[1] == '🔄' && u[1] == '👁';
  }

  // ---------------------------------------------------------------------------
  // /check

  const InvalidUrlReply: string := "❌ URL invalide. Veuillez fournir une URL TikTok, Instagram ou YouTube."
  /** The `TypeError` reading `video_id` of an `undefined` extraction result throws. */
  const UndefinedContent: string := "Cannot read properties of undefined (reading 'video_id')"

  function ErrorReply(message: string): string {
    "❌ Erreur : " + message
  }

  /** The reply when no content comes out of dispatch and extraction. */
  function EarlyReply(url: string, up: Upstream, clock: Clock): string {
    match Dispatch(url)
    case None => InvalidUrlReply
    case Some(p) =>
      match Extract(p, url, up, clock)
      case Failure(m) => ErrorReply(m)
      case _ => ErrorReply(UndefinedContent)
  }

  /**
   * `handleCheck`: count the request, dispatch, extract, store the video row, ask Vera, store
   * the verification, format. Every error thrown on the way becomes the `❌ Erreur` reply.
   */
  method HandleCheck(
    db: Store.Database, userId: int, url: string, up: Upstream, clock: Clock, apiKey: string,
    toLower: string -> string, fmt: int -> string, now: int, requestMillis: int, parseMillis: int)
    returns (reply: string)
    requires db.Valid()
    modifies db
    ensures db.Valid()
    ensures db.users == Store.IncrementRequests(old(db.users), userId, now)
    ensures db.accounts == old(db.accounts) && db.accountSeq == old(db.accountSeq)
    ensures Extracted(url, up, clock).None? ==>
      reply == EarlyReply(url, up, clock)
      && db.videos == old(db.videos) && db.verifications == old(db.verifications)
      && db.videoSeq == old(db.videoSeq) && db.verificationSeq == old(db.verificationSeq)
    ensures Extracted(url, up, clock).Some? ==>
      var c := Extracted(url, up, clock).value;
      var contentType := Label(Dispatch(url).value);
      var ins := Store.InsertVideo(old(db.videos), old(db.videoSeq), StoredRecord(c, contentType), now);
      var outcome := Vera.CheckOutcome(apiKey, up.vera, toLower, parseMillis);
      && db.videos == ins.rows && db.videoSeq == ins.seqNo
      && (ins.result.Failure? ==> reply == ErrorReply(ins.result.message) && db.verifications == old(db.verifications))
      && (ins.result.Success? && outcome.Failure? ==>
            reply == ErrorReply(outcome.message) && db.verifications == old(db.verifications))
      && (ins.result.Success? && outcome.Success? ==>
            reply == ContentResult(c, outcome.value, contentType, fmt)
            && db.verifications
               == WithVerification(old(db.verifications), old(db.verificationSeq), ins.result.value, outcome.value, now))
      && db.verificationSeq == old(db.verificationSeq) + (if ins.result.Success? && outcome.Success? then 1 else 0)
  {
    db.IncrementUserRequests(userId, now);
    var content, early := DispatchAndExtract(url, up, clock);
    if content.None? {
      return early;
    }
    reply := StoreAndVerify(db, content.value, Label(Dispatch(url).value), up.vera, apiKey, toLower, fmt, now,
                            requestMillis, parseMillis);
  }

  /**
   * The first steps of `handleCheck`: dispatch on the URL, then extract. No content comes with
   * the reply that ends the command early.
   */
  method DispatchAndExtract(url: string, up: Upstream, clock: Clock) returns (content: Option<Content>, early: string)
    ensures content == Extracted(url, up, clock)
    ensures content.None? ==> early == EarlyReply(url, up, clock)
    ensures content.Some? ==> Dispatch(url).Some? && PlatformOf(content.value) == Dispatch(url).value
  {
    var platform := Dispatch(url);
    if platform.None? {
      return None, InvalidUrlReply;
    }
    var extracted := Extract(platform.value, url, up, clock);
    if extracted.Failure? {
      return None, ErrorReply(extracted.message);
    }
    if extracted.value.None? {
      return None, ErrorReply(UndefinedContent);
    }
    content, early := extracted.value, "";
  }

  /** The verification table once `/check` has appended the row for `result` about the video row `videoRowId`. */
  function WithVerification(rows: seq<Store.VerificationRow>, seqNo: int, videoRowId: int, result: Vera.VeraResult,
                            now: int): seq<Store.VerificationRow>
  {
    rows + [Store.NewVerificationRow(seqNo + 1, VerificationRecord(videoRowId, result), now)]
  }

  /** The second half of `handleCheck`: the video row, the Vera call, the verification row, the reply. */
  method StoreAndVerify(
    db: Store.Database, c: Content, contentType: string, vera: Call<Vera.Field>,
    apiKey: string, toLower: string -> string, fmt: int -> string, now: int, requestMillis: int,
    parseMillis: int)
    returns (reply: string)
    requires db.Valid()
    modifies db
    ensures db.Valid()
    ensures db.users == old(db.users) && db.accounts == old(db.accounts) && db.accountSeq == old(db.accountSeq)
    ensures
      var ins := Store.InsertVideo(old(db.videos), old(db.videoSeq), StoredRecord(c, contentType), now);
      var outcome := Vera.CheckOutcome(apiKey, vera, toLower, parseMillis);
      && db.videos == ins.rows && db.videoSeq == ins.seqNo
      && (ins.result.Failure? ==> reply == ErrorReply(ins.result.message) && db.verifications == old(db.verifications))
      && (ins.result.Success? && outcome.Failure? ==>
            reply == ErrorReply(outcome.message) && db.verifications == old(db.verifications))
      && (ins.result.Success? && outcome.Success? ==>
            reply == ContentResult(c, outcome.value, contentType, fmt)
            && db.verifications
               == WithVerification(old(db.verifications), old(db.verificationSeq), ins.result.value, outcome.value, now))
      && db.verificationSeq == old(db.verificationSeq) + (if ins.result.Success? && outcome.Success? then 1 else 0)
  {
    var videoId := db.CreateVideo(StoredRecord(c, contentType), now);
    if videoId.Failure? {
      return ErrorReply(videoId.message);
    }
    var _, verification := Vera.CheckVideo(apiKey, c, contentType, vera, toLower, requestMillis, parseMillis);
    if verification.Failure? {
      return ErrorReply(verification.message);
    }
    var stored := db.CreateVerification(VerificationRecord(videoId.value, verification.value), now);
    reply := FormatContentResult(c, verification.value, contentType, fmt);
  }

  // ---------------------------------------------------------------------------
  // /monitor

  const MaxWatched: int := 10
  const CapReply: string := "⚠️ Limite atteinte : maximum 10 comptes surveillés par utilisateur."

  function AlreadyWatchedReply(username: string): string {
    "ℹ️ Le compte @" + username + " est déjà surveillé."
  }

  const WatchedHeading: string := "\n✅ <b>Surveillance activée !</b>\n\n"
  const WatchedSchedule: string := "Les nouvelles vidéos seront vérifiées automatiquement toutes les 5 minutes.\n\n"
  const WatchedStopHint: string := " pour arrêter la surveillance.\n            "

  function WatchedReply(info: TikTokService.UserInfo, username: string, fmt: int -> string): string {
    WatchedHeading
    + "👤 <b>" + info.nickname + "</b> (@" + username + ")\n"
    + "📊 " + fmt(info.followerCount) + " abonnés\n"
    + "🎥 " + fmt(info.videoCount) + " vidéos\n\n"
    + WatchedSchedule
    + "Utilisez /stop @" + username + WatchedStopHint
  }

  datatype MonitorStep =
    | CapReached
    | LookupFailed(message: string)
    | AlreadyWatched
    | Watched(info: TikTokService.UserInfo)

  /**
   * `handleMonitor`'s decisions, in order: the cap on the caller's active accounts, then the
   * profile lookup, then the insert that a taken username makes return `null`.
   */
  function MonitorDecision(active: nat, lookup: Call<TikTokService.UserInfo>, taken: bool): (s: MonitorStep)
    ensures active >= MaxWatched ==> s == CapReached
    ensures active < MaxWatched && lookup.Threw? ==> s == LookupFailed(lookup.message)
    ensures s.Watched? <==> active < MaxWatched && lookup.Returned? && !taken
    ensures s == AlreadyWatched <==> active < MaxWatched && lookup.Returned? && taken
  {
    if active >= MaxWatched then CapReached
    else match lookup
      case Threw(_, m) => LookupFailed(m)
      case Returned(info) => if taken then AlreadyWatched else Watched(info)
  }

  /** The step `/monitor` takes on these tables, for the username with its first `@` removed. */
  function MonitorStepOf(accounts: seq<Store.AccountRow>, owner: int, raw: string,
                         lookup: Call<TikTokService.UserInfoResponse>): MonitorStep
  {
    var username := RemoveFirst(raw, '@');
    MonitorDecision(|Store.ActiveOf(accounts, owner)|, TikTokService.GetUserInfo(username, lookup),
                    Store.FindAccount(accounts, username).Some?)
  }

  function MonitorReply(step: MonitorStep, username: string, fmt: int -> string): string {
    match step
    case CapReached => CapReply
    case LookupFailed(m) => ErrorReply(m)
    case AlreadyWatched => AlreadyWatchedReply(username)
    case Watched(info) => WatchedReply(info, username, fmt)
  }

  /** The accounts table after `/monitor`: one new row exactly when the step is `Watched`. */
  function MonitorAccounts(accounts: seq<Store.AccountRow>, seqNo: int, owner: int, raw: string,
                           lookup: Call<TikTokService.UserInfoResponse>, now: int): (rows: seq<Store.AccountRow>)
    ensures !MonitorStepOf(accounts, owner, raw, lookup).Watched? ==> rows == accounts
    ensures MonitorStepOf(accounts, owner, raw, lookup).Watched? ==>
      rows == accounts + [Store.AccountRow(seqNo + 1, RemoveFirst(raw, '@'), owner, None, None, Store.Active, now, now)]
  {
    if MonitorStepOf(accounts, owner, raw, lookup).Watched? then
      Store.InsertAccount(accounts, seqNo, RemoveFirst(raw, '@'), owner, now).rows
    else accounts
  }

  /** `/monitor` never takes an owner past ten active accounts. */
  lemma WatchCap(accounts: seq<Store.AccountRow>, seqNo: int, owner: int, raw: string,
                 lookup: Call<TikTokService.UserInfoResponse>, now: int)
    requires Store.AccountIdsBelow(accounts, seqNo)
    requires |Store.ActiveOf(accounts, owner)| <= MaxWatched
    ensures |Store.ActiveOf(MonitorAccounts(accounts, seqNo, owner, raw, lookup, now), owner)| <= MaxWatched
  {
    if MonitorStepOf(accounts, owner, raw, lookup).Watched? {
      Store.InsertAccountCounts(accounts, seqNo, RemoveFirst(raw, '@'), owner, owner, now);
    }
  }

  /**
   * A username already on the table, stopped or not, is never inserted again; the reply is
   * "déjà surveillé" once the lookup succeeds, and the lookup error otherwise.
   */
  lemma TakenNeverInserted(accounts: seq<Store.AccountRow>, seqNo: int, owner: int, raw: string,
                           lookup: Call<TikTokService.UserInfoResponse>, now: int)
    requires Store.FindAccount(accounts, RemoveFirst(raw, '@')).Some?
    requires |Store.ActiveOf(accounts, owner)| < MaxWatched
    ensures MonitorAccounts(accounts, seqNo, owner, raw, lookup, now) == accounts
    ensures TikTokService.GetUserInfo(RemoveFirst(raw, '@'), lookup).Returned? ==>
      MonitorStepOf(accounts, owner, raw, lookup) == AlreadyWatched
    ensures TikTokService.GetUserInfo(RemoveFirst(raw, '@'), lookup).Threw? ==>
      MonitorStepOf(accounts, owner, raw, lookup).LookupFailed?
  {
  }

  /** `handleMonitor`. */
  method HandleMonitor(
    db: Store.Database, userId: int, raw: string, lookup: Call<TikTokService.UserInfoResponse>,
    fmt: int -> string, now: int)
    returns (reply: string)
    requires db.Valid()
    modifies db
    ensures db.Valid()
    ensures reply == MonitorReply(MonitorStepOf(old(db.accounts), userId, raw, lookup), RemoveFirst(raw, '@'), fmt)
    ensures db.accounts == MonitorAccounts(old(db.accounts), old(db.accountSeq), userId, raw, lookup, now)
    ensures db.accountSeq
            == old(db.accountSeq) + (if MonitorStepOf(old(db.accounts), userId, raw, lookup).Watched? then 1 else 0)
    ensures db.videos == old(db.videos) && db.verifications == old(db.verifications) && db.users == old(db.users)
    ensures db.videoSeq == old(db.videoSeq) && db.verificationSeq == old(db.verificationSeq)
  {
    var current := db.GetMonitoredAccountsByUser(userId);
    if |current| >= MaxWatched {
      return CapReply;
    }
    reply := WatchBelowCap(db, userId, raw, lookup, fmt, now);
  }

  /** The rest of `handleMonitor` once the cap check has passed: the lookup, then the insert. */
  method WatchBelowCap(
    db: Store.Database, userId: int, raw: string, lookup: Call<TikTokService.UserInfoResponse>,
    fmt: int -> string, now: int)
    returns (reply: string)
    requires db.Valid() && |Store.ActiveOf(db.accounts, userId)| < MaxWatched
    modifies db
    ensures db.Valid()
    ensures reply == MonitorReply(MonitorStepOf(old(db.accounts), userId, raw, lookup), RemoveFirst(raw, '@'), fmt)
    ensures db.accounts == MonitorAccounts(old(db.accounts), old(db.accountSeq), userId, raw, lookup, now)
    ensures db.accountSeq
            == old(db.accountSeq) + (if MonitorStepOf(old(db.accounts), userId, raw, lookup).Watched? then 1 else 0)
    ensures db.videos == old(db.videos) && db.verifications == old(db.verifications) && db.users == old(db.users)
    ensures db.videoSeq == old(db.videoSeq) && db.verificationSeq == old(db.verificationSeq)
  {
    var username := RemoveFirst(raw, '@');
    var info := TikTokService.GetUserInfo(username, lookup);
    if info.Threw? {
      return ErrorReply(info.message);
    }
    var accountId := db.CreateMonitoredAccount(username, userId, now);
    if accountId.None? {
      return AlreadyWatchedReply(username);
    }
    reply := WatchedReply(info.body, username, fmt);
  }

  // ---------------------------------------------------------------------------
  // /stop

  function NotWatchedReply(username: string): string {
    "ℹ️ Le compte @" + username + " n'est pas surveillé."
  }

  function StoppedReply(username: string): string {
    "✅ Surveillance de @" + username + " arrêtée."
  }

  /** `account && account.status !== 'inactive'`. */
  predicate Watching(accounts: seq<Store.AccountRow>, username: string) {
    Store.FindAccount(accounts, username).Some?
    && accounts[Store.FindAccount(accounts, username).value].status == Store.Active
  }

  /** After a stop the username is no longer watched, so a second `/stop` changes nothing. */
  lemma StopSettles(accounts: seq<Store.AccountRow>, username: string, now: int)
    requires Store.FindAccount(accounts, username).Some?
    ensures !Watching(Store.StopAccounts(accounts, username, now), username)
  {
    var stopped := Store.StopAccounts(accounts, username, now);
    var k := Store.FindAccount(accounts, username).value;
    assert stopped[k].username == username;
  }

  /**
   * `handleStopMonitor`: an absent or inactive account is left alone; otherwise the row is
   * stopped. The caller's identity plays no part: anyone may stop any account.
   */
  method HandleStopMonitor(db: Store.Database, raw: string, now: int) returns (reply: string)
    requires db.Valid()
    modifies db
    ensures db.Valid()
    ensures !Watching(old(db.accounts), RemoveFirst(raw, '@')) ==>
      reply == NotWatchedReply(RemoveFirst(raw, '@')) && db.accounts == old(db.accounts)
    ensures Watching(old(db.accounts), RemoveFirst(raw, '@')) ==>
      reply == StoppedReply(RemoveFirst(raw, '@'))
      && db.accounts == Store.StopAccounts(old(db.accounts), RemoveFirst(raw, '@'), now)
    ensures db.videos == old(db.videos) && db.verifications == old(db.verifications) && db.users == old(db.users)
    ensures db.videoSeq == old(db.videoSeq) && db.verificationSeq == old(db.verificationSeq)
    ensures db.accountSeq == old(db.accountSeq)
  {
    var username := RemoveFirst(raw, '@');
    var account := Store.FindAccount(db.accounts, username);
    if account.None? || db.accounts[account.value].status == Store.Inactive {
      return NotWatchedReply(username);
    }
    db.StopMonitoredAccount(username, now);
    reply := StoppedReply(username);
  }
}
