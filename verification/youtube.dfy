/**
 * The YouTube extractor: video id extraction, URL recognition, the normalisation of a
 * `/videos` item, hashtags, and the mapping of upstream errors.
 */
module YouTube {
  import opened Wrappers
  import opened Text
  import opened Patterns
  import opened Records

  // ---------------------------------------------------------------------------
  // URLs

  /**
   * `(?:youtube\.com\/watch\?v=|youtu\.be\/)`, `youtube\.com\/embed\/`, `youtube\.com\/v\/` and
   * `youtube\.com\/shorts\/`, each followed by exactly eleven `[a-zA-Z0-9_-]` (captured).
   */
  const VideoIdPatterns: seq<Pattern> := [
    Pattern(["youtube.com/watch?v=", "youtu.be/"], Fixed(UrlId, 11)),
    Pattern(["youtube.com/embed/"], Fixed(UrlId, 11)),
    Pattern(["youtube.com/v/"], Fixed(UrlId, 11)),
    Pattern(["youtube.com/shorts/"], Fixed(UrlId, 11))
  ]

  function VideoIdFromUrl(url: string): Option<string> {
    FirstMatch(VideoIdPatterns, url)
  }

  /** `extractVideoIdFromUrl`: the loop over the patterns, returning at the first match. */
  method ExtractVideoIdFromUrl(url: string) returns (id: Option<string>)
    ensures id == VideoIdFromUrl(url)
  {
    id := FirstCapture(VideoIdPatterns, url);
  }

  /** `/(?:youtube\.com|youtu\.be)/.test(url)`. */
  predicate IsYouTubeUrl(url: string) {
    Contains(url, "youtube.com") || Contains(url, "youtu.be")
  }

  // ---------------------------------------------------------------------------
  // Properties of URL recognition

  /** An id is exactly eleven characters of `[a-zA-Z0-9_-]` taken from the URL. */
  lemma VideoIdShape(url: string)
    requires VideoIdFromUrl(url).Some?
    ensures |VideoIdFromUrl(url).value| == 11 && AllIn(VideoIdFromUrl(url).value, UrlId)
    ensures Contains(url, VideoIdFromUrl(url).value)
  {
    FirstMatchShape(VideoIdPatterns, url);
  }

  lemma LeadIsYouTube(lead: string)
    requires lead in ["youtube.com/watch?v=", "youtu.be/", "youtube.com/embed/", "youtube.com/v/",
                      "youtube.com/shorts/"]
    ensures Contains(lead, "youtube.com") || Contains(lead, "youtu.be")
  {
    if lead == "youtu.be/" {
      assert StartsAt(lead, "youtu.be", 0);
      ContainsAt(lead, "youtu.be", 0);
    } else {
      assert StartsAt(lead, "youtube.com", 0);
      ContainsAt(lead, "youtube.com", 0);
    }
  }

  /** Every URL that yields an id is one `isYouTubeUrl` accepts. */
  lemma VideoIdIsYouTube(url: string)
    requires VideoIdFromUrl(url).Some?
    ensures IsYouTubeUrl(url)
  {
    FirstMatchFrom(VideoIdPatterns, url);
    var k :| 0 <= k < |VideoIdPatterns| && Find(VideoIdPatterns[k], url) == VideoIdFromUrl(url);
    MatchesLead(VideoIdPatterns[k], url);
    var l :| 0 <= l < |VideoIdPatterns[k].leads| && Contains(url, VideoIdPatterns[k].leads[l]);
    var lead := VideoIdPatterns[k].leads[l];
    LeadIsYouTube(lead);
    if Contains(lead, "youtube.com") {
      ContainsTrans(url, lead, "youtube.com");
    } else {
      ContainsTrans(url, lead, "youtu.be");
    }
  }

  lemma ShortLinkMatch(s: string)
    requires s == "https://youtu.be/dQw4w9WgXcQ"
    ensures MatchAt(VideoIdPatterns[0], s, 8) == Some("dQw4w9WgXcQ")
  {
    var p := VideoIdPatterns[0];
    assert |s| == 28;
    assert s[8..17] == "youtu.be/";
    assert s[17..28] == "dQw4w9WgXcQ";
    assert s[8..28][5] != "youtube.com/watch?v="[5];
    assert !StartsAt(s, p.leads[0], 8);
    assert p.leads[1..][1..] == [];
  }

  lemma ShortLinkFirstLead(s: string)
    requires s == "https://youtu.be/dQw4w9WgXcQ"
    ensures forall j, l :: 0 <= j < 8 && 0 <= l < |VideoIdPatterns[0].leads| ==>
      !StartsAt(s, VideoIdPatterns[0].leads[l], j)
  {
    var a := "https://";
    assert s == a + "youtu.be/dQw4w9WgXcQ";
    LeadAbsentIn(a, "youtu.be/dQw4w9WgXcQ", "youtube.com/watch?v=", 8, 0);
    LeadAbsentIn(a, "youtu.be/dQw4w9WgXcQ", "youtu.be/", 8, 0);
  }

  /** A `youtu.be` short link gives the eleven characters after the slash. */
  lemma ExampleShortLink(s: string)
    requires s == "https://youtu.be/dQw4w9WgXcQ"
    ensures VideoIdFromUrl(s) == Some("dQw4w9WgXcQ")
  {
    ShortLinkMatch(s);
    ShortLinkFirstLead(s);
    FindAtFirstLeads(VideoIdPatterns[0], s, 8);
    FirstMatchPriority(VideoIdPatterns, s, 0);
  }

  // ---------------------------------------------------------------------------
  // Hashtags

  /** `#` followed by word characters and `À-ſ`, `#` stripped. */
  function ExtractHashtags(text: string): seq<string> {
    Scan(text, '#', WordLatin)
  }

  lemma HashtagsShape(text: string)
    ensures forall k :: 0 <= k < |ExtractHashtags(text)| ==>
      |ExtractHashtags(text)[k]| > 0 && AllIn(ExtractHashtags(text)[k], WordLatin)
    ensures '#' !in text ==> ExtractHashtags(text) == []
  {
    if '#' !in text {
      ScanNoMarker(text, '#', WordLatin);
    }
  }

  // ---------------------------------------------------------------------------
  // normalizeVideoData

  /**
   * One item of the `/videos` response, as the normaliser reads it: text fields are `""` when
   * missing, including every field of a missing `snippet`, `statistics` or `contentDetails`.
   * The statistics are the decimal strings the API sends.
   */
  datatype VideoItem = VideoItem(
    title: string,
    description: string,
    channelTitle: string,
    channelId: string,
    thumbMaxres: string,
    thumbHigh: string,
    thumbDefault: string,
    duration: string,
    publishedAt: string,
    viewCount: string,
    likeCount: string,
    commentCount: string,
    categoryId: string,
    tags: Option<seq<string>>,
    liveBroadcastContent: string)

  /** The record built from an item; `video_id` is the id taken from the URL. */
  function NormalizeVideoData(item: VideoItem, videoId: string, url: string, clock: Clock)
    : (r: YouTubeVideo)
    ensures r.videoId == videoId && r.url == url
    ensures r.isLive <==> item.liveBroadcastContent == "live"
    ensures item.channelTitle == "" ==> r.author == "Inconnu"
    ensures item.channelTitle != "" ==> r.author == item.channelTitle
    ensures item.tags.None? ==> r.tags == []
    ensures item.tags.Some? ==> r.tags == item.tags.value
    ensures item.thumbMaxres != "" ==> r.thumbnailUrl == item.thumbMaxres
    ensures item.thumbMaxres == "" && item.thumbHigh != "" ==> r.thumbnailUrl == item.thumbHigh
    ensures item.thumbMaxres == "" && item.thumbHigh == "" ==> r.thumbnailUrl == item.thumbDefault
    ensures ParseInt(item.viewCount).Some? ==> r.views == ParseInt(item.viewCount).value
    ensures ParseInt(item.viewCount).None? ==> r.views == 0
    ensures ParseInt(item.likeCount).Some? ==> r.likes == ParseInt(item.likeCount).value
    ensures ParseInt(item.likeCount).None? ==> r.likes == 0
    ensures ParseInt(item.commentCount).Some? ==> r.comments == ParseInt(item.commentCount).value
    ensures ParseInt(item.commentCount).None? ==> r.comments == 0
    ensures r.title == item.title && r.description == item.description && r.duration == item.duration
    ensures r.authorId == item.channelId && r.categoryId == item.categoryId
    ensures item.publishedAt != "" ==> r.publishedAt == item.publishedAt
    ensures r.hashtags == ExtractHashtags(item.description)
    ensures item.publishedAt == "" ==> r.publishedAt == NowIso(clock)
  {
    YouTubeVideo(
      videoId := videoId,
      url := url,
      title := item.title,
      description := item.description,
      author := OrElse(item.channelTitle, "Inconnu"),
      authorId := item.channelId,
      thumbnailUrl := OrElse(OrElse(OrElse(item.thumbMaxres, item.thumbHigh), item.thumbDefault), ""),
      duration := item.duration,
      publishedAt := OrElse(item.publishedAt, NowIso(clock)),
      views := ParseCount(item.viewCount),
      likes := ParseCount(item.likeCount),
      comments := ParseCount(item.commentCount),
      categoryId := item.categoryId,
      tags := item.tags.GetOr([]),
      hashtags := ExtractHashtags(item.description),
      isLive := item.liveBroadcastContent == "live")
  }

  /** Safe integer counts the API renders as decimal text are read back exactly; missing ones are 0. */
  lemma CountsRoundTrip(item: VideoItem, videoId: string, url: string, clock: Clock, v: int, l: int)
    requires item.viewCount == IntToString(v) && item.likeCount == IntToString(l)
    requires -MaxSafeInteger <= v <= MaxSafeInteger && -MaxSafeInteger <= l <= MaxSafeInteger
    requires item.commentCount == ""
    ensures NormalizeVideoData(item, videoId, url, clock).views == v
    ensures NormalizeVideoData(item, videoId, url, clock).likes == l
    ensures NormalizeVideoData(item, videoId, url, clock).comments == 0
  {
    ParseIntRendered(v);
    ParseIntRendered(l);
  }

  // ---------------------------------------------------------------------------
  // extractVideo

  const InvalidUrl: string := "URL invalide - impossible d'extraire le video ID"
  const NotFound: string := "Vidéo YouTube introuvable"
  const NotFoundOrPrivate: string := "Vidéo YouTube introuvable ou privée"
  const Forbidden: string := "Accès interdit - vérifiez la clé API"
  const RateLimited: string := "Limite API atteinte - réessayez dans quelques instants"

  /** The catch block of `extractVideo`: 404, 403 and 429 are replaced, the rest rethrown. */
  function VideoError(status: Option<int>, message: string): (m: string)
    ensures status == Some(404) ==> m == NotFoundOrPrivate
    ensures status == Some(403) ==> m == Forbidden
    ensures status == Some(429) ==> m == RateLimited
    ensures status !in {Some(404), Some(403), Some(429)} ==> m == message
  {
    match status
    case Some(404) => NotFoundOrPrivate
    case Some(403) => Forbidden
    case Some(429) => RateLimited
    case _ => message
  }

  /** `response.data.items` of `/videos`: `None` when `data` or `items` is missing. */
  datatype VideosResponse = VideosResponse(items: Option<seq<VideoItem>>)

  /** `extractVideo(url)`: the first item, normalised, or the error the call ends with. */
  function ExtractVideo(url: string, call: Call<VideosResponse>, clock: Clock)
    : (f: Fetch<YouTubeVideo>)
    ensures VideoIdFromUrl(url).None? <==> f.request.None?
    ensures f.request.None? ==> f.result == Failure(InvalidUrl)
    ensures f.request.Some? ==> f.request == VideoIdFromUrl(url)
    ensures f.request.Some? && call.Threw? ==> f.result == Failure(VideoError(call.status, call.message))
    ensures f.request.Some? && call.Returned? && (call.body.items.None? || call.body.items.value == []) ==>
      f.result == Failure(NotFound)
    ensures f.result.Success? ==> call.Returned? && call.body.items.Some? && |call.body.items.value| > 0
    ensures f.result.Success? ==>
      f.result.value == NormalizeVideoData(call.body.items.value[0], f.request.value, url, clock)
    ensures f.request.Some? && call.Returned? && call.body.items.Some? && |call.body.items.value| > 0 ==>
      f.result == Success(NormalizeVideoData(call.body.items.value[0], f.request.value, url, clock))
  {
    match VideoIdFromUrl(url)
    case None => Fetch(None, Failure(InvalidUrl))
    case Some(id) =>
      var result :=
        match call
        case Threw(status, m) => Failure(VideoError(status, m))
        case Returned(body) =>
          if body.items.None? || |body.items.value| == 0 then Failure(NotFound)
          else Success(NormalizeVideoData(body.items.value[0], id, url, clock));
      Fetch(Some(id), result)
  }
}
