/**
 * The TikTok extractor: URL recognition, id and username extraction, hashtags, and the two
 * strategies `extractVideo` tries (the details endpoint, then the user's recent videos), the
 * mapping of a user's posts and of a user profile, and the mapping of upstream errors.
 *
 * Upstream calls are inputs: each is the `Call` outcome the endpoint would give, and the model
 * records which requests were issued.
 */
module TikTok {
  import opened Wrappers
  import opened Text
  import opened Patterns
  import opened Records

  // ---------------------------------------------------------------------------
  // URLs

  /** `/\/video\/(\d+)/`, `/\/v\/(\d+)/`, `/tiktok\.com\/.*?\/(\d+)/`, `/vm\.tiktok\.com\/([A-Za-z0-9]+)/`. */
  const VideoIdPatterns: seq<Pattern> := [
    Pattern(["/video/"], Run(Digit)),
    Pattern(["/v/"], Run(Digit)),
    Pattern(["tiktok.com/"], Lazy("/", Digit)),
    Pattern(["vm.tiktok.com/"], Run(Alnum))
  ]

  /** `/@([^/]+)/`. */
  const UsernamePattern: Pattern := Pattern(["@"], Run(NotSlash))

  /**
   * `/tiktok\.com\/@[\w.-]+\/video\/\d+/`, `/tiktok\.com\/.*?\/video\/\d+/`,
   * `/vm\.tiktok\.com\/[A-Za-z0-9]+/`, `/vt\.tiktok\.com\/[A-Za-z0-9]+/`.
   */
  const ValidUrlPatterns: seq<Pattern> := [
    Pattern(["tiktok.com/@"], Segment(WordDotDash, "/video/", Digit)),
    Pattern(["tiktok.com/"], Lazy("/video/", Digit)),
    Pattern(["vm.tiktok.com/"], Run(Alnum)),
    Pattern(["vt.tiktok.com/"], Run(Alnum))
  ]

  /** The id `extractVideoIdFromUrl` returns: the capture of the first pattern that matches. */
  function VideoIdFromUrl(url: string): Option<string> {
    FirstMatch(VideoIdPatterns, url)
  }

  method ExtractVideoIdFromUrl(url: string) returns (id: Option<string>)
    ensures id == VideoIdFromUrl(url)
  {
    id := FirstCapture(VideoIdPatterns, url);
  }

  function UsernameFromUrl(url: string): Option<string> {
    Find(UsernamePattern, url)
  }

  /** `/tiktok\.com/.test(url)`. */
  predicate IsTikTokUrl(url: string) {
    Contains(url, "tiktok.com")
  }

  /** Some pattern of the list matches. */
  predicate IsValidTikTokUrl(url: string) {
    exists k :: 0 <= k < |ValidUrlPatterns| && Matches(ValidUrlPatterns[k], url)
  }

  /** The effective `extractHashtags` (the later of the two class members of that name). */
  function ExtractHashtags(text: string): seq<string> {
    Scan(text, '#', Word)
  }

  // ---------------------------------------------------------------------------
  // Properties of URL recognition

  /** An extracted id is a non-empty piece of the URL made of ASCII letters and digits. */
  lemma VideoIdShape(url: string)
    requires VideoIdFromUrl(url).Some?
    ensures |VideoIdFromUrl(url).value| > 0 && Contains(url, VideoIdFromUrl(url).value)
    ensures forall i :: 0 <= i < |VideoIdFromUrl(url).value| ==> IsAlnum(VideoIdFromUrl(url).value[i])
  {
    FirstMatchShape(VideoIdPatterns, url);
  }

  /** Every URL `isValidTikTokUrl` accepts is one `isTikTokUrl` accepts. */
  lemma ValidIsTikTok(url: string)
    requires IsValidTikTokUrl(url)
    ensures IsTikTokUrl(url)
  {
    var k :| 0 <= k < |ValidUrlPatterns| && Matches(ValidUrlPatterns[k], url);
    TikTokInLeads();
    if k == 0 {
      SingleLeadContains(ValidUrlPatterns[0], url, "tiktok.com", 0);
    } else if k == 1 {
      SingleLeadContains(ValidUrlPatterns[1], url, "tiktok.com", 0);
    } else if k == 2 {
      SingleLeadContains(ValidUrlPatterns[2], url, "tiktok.com", 3);
    } else {
      SingleLeadContains(ValidUrlPatterns[3], url, "tiktok.com", 3);
    }
  }

  lemma TikTokInLeads()
    ensures StartsAt("tiktok.com/@", "tiktok.com", 0) && StartsAt("tiktok.com/", "tiktok.com", 0)
    ensures StartsAt("vm.tiktok.com/", "tiktok.com", 3) && StartsAt("vt.tiktok.com/", "tiktok.com", 3)
  {
  }

  /** A text matched by a one-lead pattern holds whatever the lead holds. */
  lemma SingleLeadContains(p: Pattern, s: string, t: string, i: int)
    requires |p.leads| == 1 && StartsAt(p.leads[0], t, i) && Matches(p, s)
    ensures Contains(s, t)
  {
    ContainsAt(p.leads[0], t, i);
    MatchesContains(p, s, t);
  }

  /** A match at some position makes the search succeed. */
  lemma MatchGivesFind(p: Pattern, s: string, j: nat)
    requires j <= |s| && MatchAt(p, s, j).Some?
    ensures Matches(p, s)
  {
    FindFromNone(p, s, 0);
  }

  /** Digits after any occurrence of `/video/` make the first id pattern, hence the list, match. */
  lemma VideoSegmentGivesId(url: string, m: nat)
    requires m <= |url| && StartsAt(url, "/video/", m) && RunLength(url, m + 7, Digit) > 0
    ensures VideoIdFromUrl(url).Some?
  {
    var p0 := VideoIdPatterns[0];
    SingleLead(p0, url, m);
    MatchGivesFind(p0, url, m);
    FirstMatchNone(VideoIdPatterns, url);
  }

  /** A URL `tiktok.com/@user/video/<digits>` yields an id. */
  lemma ValidProfileHasId(url: string)
    requires Matches(ValidUrlPatterns[0], url)
    ensures VideoIdFromUrl(url).Some?
  {
    SegmentMatchWitness(ValidUrlPatterns[0], url);
    var m :| SepRunAt(url, m, "/video/", Digit);
    VideoSegmentGivesId(url, m);
  }

  /** A URL `tiktok.com/.../video/<digits>` yields an id. */
  lemma ValidPathHasId(url: string)
    requires Matches(ValidUrlPatterns[1], url)
    ensures VideoIdFromUrl(url).Some?
  {
    LazyMatchWitness(ValidUrlPatterns[1], url);
    var m :| SepRunAt(url, m, "/video/", Digit);
    VideoSegmentGivesId(url, m);
  }

  /**
   * The first three validity patterns all come with an id: any URL they accept yields one.
   * The fourth (`vt.tiktok.com` short links) does not, see `ShortLinkWithoutId`.
   */
  lemma ValidHasId(url: string)
    requires Matches(ValidUrlPatterns[0], url) || Matches(ValidUrlPatterns[1], url)
          || Matches(ValidUrlPatterns[2], url)
    ensures VideoIdFromUrl(url).Some?
  {
    if Matches(ValidUrlPatterns[0], url) {
      ValidProfileHasId(url);
    } else if Matches(ValidUrlPatterns[1], url) {
      ValidPathHasId(url);
    } else {
      assert Matches(VideoIdPatterns[3], url);
      FirstMatchNone(VideoIdPatterns, url);
    }
  }

  lemma ShortLinkMatch(s: string)
    requires s == "https://vt.tiktok.com/ZSabc/"
    ensures Matches(ValidUrlPatterns[3], s)
  {
    var v := ValidUrlPatterns[3];
    assert s[8..22] == "vt.tiktok.com/";
    assert s[22..27] == "ZSabc" && s[27] == '/';
    RunLengthOf(s, 22, 5, Alnum);
    assert MatchAt(v, s, 8).Some?;
    MatchGivesFind(v, s, 8);
  }

  lemma ShortLinkNoLead(s: string)
    requires s == "https://vt.tiktok.com/ZSabc/"
    ensures forall j :: 0 <= j <= |s| ==> !StartsAt(s, "vm.tiktok.com/", j)
  {
    var a := "https://vt.tikto";
    assert s == a + "k.com/ZSabc/";
    LeadAbsentIn(a, "k.com/ZSabc/", "vm.tiktok.com/", 15, 1);
  }

  /** A `vt.tiktok.com` short link passes `isValidTikTokUrl` but yields no id. */
  lemma ShortLinkWithoutId(s: string)
    requires s == "https://vt.tiktok.com/ZSabc/"
    ensures IsValidTikTokUrl(s) && VideoIdFromUrl(s) == None
  {
    ShortLinkMatch(s);
    ShortLinkNoDigits(s);
    ShortLinkNoVm(s);
    FirstMatchNone(VideoIdPatterns, s);
  }

  lemma ShortLinkNoDigits(s: string)
    requires s == "https://vt.tiktok.com/ZSabc/"
    ensures forall k :: 0 <= k < 3 ==> Find(VideoIdPatterns[k], s).None?
  {
    assert Lacks(s, Digit);
    FindLacks(VideoIdPatterns[0], s, Digit);
    FindLacks(VideoIdPatterns[1], s, Digit);
    FindLacks(VideoIdPatterns[2], s, Digit);
  }

  lemma ShortLinkNoVm(s: string)
    requires s == "https://vt.tiktok.com/ZSabc/"
    ensures Find(VideoIdPatterns[3], s).None?
  {
    var p3 := VideoIdPatterns[3];
    ShortLinkNoLead(s);
    forall j | 0 <= j <= |s|
      ensures MatchAt(p3, s, j).None?
    {
      LeadNeeded(p3, s, j);
    }
    FindFromNone(p3, s, 0);
  }

  /** The id of the usual example URL: the digits after `/video/`, its first occurrence. */
  lemma ExampleVideoIdMatch(s: string)
    requires s == "https://www.tiktok.com/@demo/video/1234567890"
    ensures Find(VideoIdPatterns[0], s) == Some("1234567890")
  {
    ExampleVideoAt(s);
    ExampleNoEarlierVideo(s);
    FindAtFirstLead(VideoIdPatterns[0], s, 28);
  }

  lemma ExampleVideoAt(s: string)
    requires s == "https://www.tiktok.com/@demo/video/1234567890"
    ensures MatchAt(VideoIdPatterns[0], s, 28) == Some("1234567890")
  {
    assert s[28..35] == "/video/";
    assert s[35..45] == "1234567890";
    RunLengthOf(s, 35, 10, Digit);
  }

  lemma ExampleNoEarlierVideo(s: string)
    requires s == "https://www.tiktok.com/@demo/video/1234567890"
    ensures forall j :: 0 <= j < 28 ==> !StartsAt(s, VideoIdPatterns[0].leads[0], j)
  {
    var a := "https://www.tiktok.com/" + "@demo/";
    assert s == a + ("video/" + "1234567890");
    LeadAbsentIn(a, "video/" + "1234567890", "/video/", 28, 1);
  }

  lemma ExampleUsernameMatch(s: string)
    requires s == "https://www.tiktok.com/@demo/video/1234567890"
    ensures MatchAt(UsernamePattern, s, 23) == Some("demo")
  {
    assert s[23] == '@' && s[24..28] == "demo" && s[28] == '/';
    RunLengthOf(s, 24, 4, NotSlash);
  }

  lemma ExampleFirstAt(s: string)
    requires s == "https://www.tiktok.com/@demo/video/1234567890"
    ensures forall j :: 0 <= j < 23 ==> !StartsAt(s, "@", j)
  {
    var b := "https://www.tiktok.com/";
    var d := "1234567890";
    assert s == b + ("@demo/" + "video/" + d);
    LeadAbsentIn(b, "@demo/" + "video/" + d, "@", 23, 0);
  }

  /** The URL of the usual example yields its numeric id and its username. */
  lemma ExampleUrl(s: string)
    requires s == "https://www.tiktok.com/@demo/video/1234567890"
    ensures VideoIdFromUrl(s) == Some("1234567890") && UsernameFromUrl(s) == Some("demo")
  {
    ExampleVideoIdMatch(s);
    FirstMatchPriority(VideoIdPatterns, s, 0);
    ExampleUsernameMatch(s);
    ExampleFirstAt(s);
    FindAtFirstLead(UsernamePattern, s, 23);
  }

  // ---------------------------------------------------------------------------
  // Properties of hashtag extraction

  /** Every tag is a non-empty run of ASCII word characters; text without `#` has none. */
  lemma HashtagsShape(text: string)
    ensures forall k :: 0 <= k < |ExtractHashtags(text)| ==>
      |ExtractHashtags(text)[k]| > 0 && AllIn(ExtractHashtags(text)[k], Word)
    ensures '#' !in text ==> ExtractHashtags(text) == []
  {
    if '#' !in text {
      ScanNoMarker(text, '#', Word);
    }
  }

  /** Tags written `#a #b ...` are read back in order. */
  lemma HashtagsRoundTrip(tags: seq<string>)
    requires forall k :: 0 <= k < |tags| ==> |tags[k]| > 0 && AllIn(tags[k], Word)
    ensures ExtractHashtags(Render(tags, '#', ' ')) == tags
  {
    ScanRender(tags, '#', ' ', Word);
  }

  lemma ExampleHashtags(s: string)
    requires s == "#fact #check"
    ensures ExtractHashtags(s) == ["fact", "check"]
  {
    assert Render(["fact", "check"], '#', ' ') == s;
    assert AllIn("fact", Word) && AllIn("check", Word);
    HashtagsRoundTrip(["fact", "check"]);
  }

  /**
   * The earlier, overridden definition accepted letters `À-ſ`; the effective one stops at
   * them, so `#café` gives `caf`.
   */
  lemma AccentedHashtag(s: string)
    requires s == "#café"
    ensures ExtractHashtags(s) == ["caf"]
  {
    assert s[1..4] == "caf";
    RunLengthOf(s, 1, 3, Word);
    assert s[4..] == "é";
    ScanNoMarker(s[4..], '#', Word);
  }

  // ---------------------------------------------------------------------------
  // Requests and upstream payloads

  datatype Request =
    | VideoDetails(videoId: string)           // GET /video/details
    | UserVideos(username: string)            // GET /user/videos
    | UserInfoRequest(uniqueId: string)       // GET /user/info
    | UserPosts(uniqueId: string, count: int) // GET /user/posts

  /** What a strategy returned, with the requests it issued, in order. */
  datatype Attempt<T> = Attempt(requests: seq<Request>, result: Result<T>)

  datatype Stats = Stats(
    hearts: Option<int>, comments: Option<int>, reposts: Option<int>, saves: Option<int>,
    plays: Option<int>)

  datatype AuthorInfo = AuthorInfo(
    uniqueId: string, authorName: string, verified: bool, signature: string)

  /** `response.data.details` of `/video/details`; a missing `statistics` or `author` has all fields missing. */
  datatype DetailsPayload = DetailsPayload(
    videoId: string,
    description: string,
    cover: string,
    avatarThumb: string,
    unwatermarkedDownloadUrl: string,
    downloadUrl: string,
    duration: Option<int>,
    statistics: Stats,
    author: AuthorInfo,
    createTime: string)

  /** `response.data` of `/video/details`: `None` when `data` or `data.details` is missing. */
  datatype DetailsResponse = DetailsResponse(details: Option<DetailsPayload>)

  /** One entry of `response.data.videos` of `/user/videos`. */
  datatype ListedVideo = ListedVideo(
    videoId: string,
    author: string,
    description: string,
    cover: string,
    unwatermarkedDownloadUrl: string,
    downloadUrl: string,
    duration: Option<int>,
    statistics: Stats,
    createTime: string)

  /** `response.data.videos` of `/user/videos`: `None` when `data` or `videos` is missing. */
  datatype UserVideosResponse = UserVideosResponse(videos: Option<seq<ListedVideo>>)

  const InvalidUrl: string := "URL invalide - impossible d'extraire l'ID de la vidéo"
  const NoUsername: string := "Impossible d'extraire le username pour le fallback"
  const NotFoundBothWays: string := "Vidéo non trouvée via les deux méthodes"

  const NotInRecentSuffix: string :=
    " non trouvée. Elle peut être privée, supprimée, ou trop ancienne (plus de 30 vidéos)."

  function NotInRecentVideos(videoId: string): string {
    "Vidéo " + videoId + NotInRecentSuffix
  }

  // ---------------------------------------------------------------------------
  // extractVideo

  /**
   * `create_time ? new Date(parseInt(create_time) * 1000).toISOString() : new Date().toISOString()`:
   * text that does not parse, or a date out of range, throws.
   */
  function CreatedAt(createTime: string, clock: Clock): (r: Result<string>)
    ensures createTime == "" ==> r == Success(NowIso(clock))
    ensures createTime != "" && ParseInt(createTime).None? ==> r == Failure(InvalidTime)
    ensures createTime != "" && ParseInt(createTime).Some? ==>
      r == IsoOf(clock, ParseInt(createTime).value * 1000)
    ensures r.Failure? ==> r.message == InvalidTime
    ensures r.Failure? <==>
      (createTime != "" &&
       (ParseInt(createTime).None? || ParseInt(createTime).value * 1000 < -MaxTimeMillis ||
        MaxTimeMillis < ParseInt(createTime).value * 1000))
  {
    if createTime == "" then Success(NowIso(clock))
    else match ParseInt(createTime)
      case None => Failure(InvalidTime)
      case Some(n) => IsoOf(clock, n * 1000)
  }

  /** The author chain `uniqueId || author_name || username || 'Inconnu'`. */
  function DetailsAuthor(a: AuthorInfo, username: Option<string>): (r: string)
    ensures r != ""
    ensures a.uniqueId != "" ==> r == a.uniqueId
    ensures a.uniqueId == "" && a.authorName != "" ==> r == a.authorName
    ensures a.uniqueId == "" && a.authorName == "" && username.Some? && username.value != "" ==>
      r == username.value
    ensures a.uniqueId == "" && a.authorName == "" && (username.None? || username.value == "") ==>
      r == "Inconnu"
  {
    OrElse(OrElse(OrElse(a.uniqueId, a.authorName), username.GetOr("")), "Inconnu")
  }

  /** The record built from a details payload; it fails only when `created_at` throws. */
  function MapDetails(p: DetailsPayload, url: string, username: Option<string>, clock: Clock)
    : (r: Result<TikTokVideo>)
    ensures r.Failure? <==> CreatedAt(p.createTime, clock).Failure?
    ensures r.Success? ==> r.value.title == p.description && r.value.description == p.description
    ensures r.Success? ==> r.value.hashtags == ExtractHashtags(p.description)
    ensures r.Success? ==> r.value.url == url && r.value.videoId == p.videoId
    ensures r.Success? ==> r.value.author == DetailsAuthor(p.author, username)
    ensures r.Success? ==> r.value.thumbnailUrl == OrElse(p.cover, p.avatarThumb)
    ensures r.Success? ==> r.value.downloadUrl == OrElse(p.unwatermarkedDownloadUrl, p.downloadUrl)
    ensures r.Success? ==> r.value.duration == Count(p.duration)
    ensures r.Success? ==>
      && r.value.likes == Count(p.statistics.hearts) && r.value.comments == Count(p.statistics.comments)
      && r.value.shares == Count(p.statistics.reposts) && r.value.saves == Count(p.statistics.saves)
      && r.value.views == Count(p.statistics.plays)
    ensures r.Success? ==> r.value.createdAt == CreatedAt(p.createTime, clock).value
    ensures r.Success? ==>
      r.value.authorVerified == p.author.verified && r.value.authorSignature == p.author.signature
  {
    match CreatedAt(p.createTime, clock)
    case Failure(m) => Failure(m)
    case Success(at) =>
      Success(TikTokVideo(
        videoId := p.videoId,
        url := url,
        author := DetailsAuthor(p.author, username),
        title := p.description,
        description := p.description,
        thumbnailUrl := OrElse(p.cover, p.avatarThumb),
        downloadUrl := OrElse(p.unwatermarkedDownloadUrl, p.downloadUrl),
        duration := Count(p.duration),
        likes := Count(p.statistics.hearts),
        comments := Count(p.statistics.comments),
        shares := Count(p.statistics.reposts),
        saves := Count(p.statistics.saves),
        views := Count(p.statistics.plays),
        hashtags := ExtractHashtags(p.description),
        createdAt := at,
        authorVerified := p.author.verified,
        authorSignature := p.author.signature))
  }

  /** The record built from an entry of the user's recent videos. */
  function MapListed(v: ListedVideo, url: string, username: string, clock: Clock)
    : (r: Result<TikTokVideo>)
    ensures r.Failure? <==> CreatedAt(v.createTime, clock).Failure?
    ensures r.Success? ==> r.value.author == OrElse(v.author, username)
    ensures r.Success? ==> !r.value.authorVerified && r.value.authorSignature == ""
    ensures r.Success? ==> r.value.title == v.description && r.value.description == v.description
    ensures r.Success? ==> r.value.hashtags == ExtractHashtags(v.description)
    ensures r.Success? ==> r.value.url == url && r.value.videoId == v.videoId
    ensures r.Success? ==> r.value.thumbnailUrl == v.cover
    ensures r.Success? ==> r.value.downloadUrl == OrElse(v.unwatermarkedDownloadUrl, v.downloadUrl)
    ensures r.Success? ==> r.value.duration == Count(v.duration)
    ensures r.Success? ==>
      && r.value.likes == Count(v.statistics.hearts) && r.value.comments == Count(v.statistics.comments)
      && r.value.shares == Count(v.statistics.reposts) && r.value.saves == Count(v.statistics.saves)
      && r.value.views == Count(v.statistics.plays)
    ensures r.Success? ==> r.value.createdAt == CreatedAt(v.createTime, clock).value
  {
    match CreatedAt(v.createTime, clock)
    case Failure(m) => Failure(m)
    case Success(at) =>
      Success(TikTokVideo(
        videoId := v.videoId,
        url := url,
        author := OrElse(v.author, username),
        title := v.description,
        description := v.description,
        thumbnailUrl := v.cover,
        downloadUrl := OrElse(v.unwatermarkedDownloadUrl, v.downloadUrl),
        duration := Count(v.duration),
        likes := Count(v.statistics.hearts),
        comments := Count(v.statistics.comments),
        shares := Count(v.statistics.reposts),
        saves := Count(v.statistics.saves),
        views := Count(v.statistics.plays),
        hashtags := ExtractHashtags(v.description),
        createdAt := at,
        authorVerified := false,
        authorSignature := ""))
  }

  /** `videos.find(v => v.video_id === videoId)`. */
  function FindVideo(vs: seq<ListedVideo>, videoId: string): (r: Option<ListedVideo>)
    ensures r.None? <==> forall k :: 0 <= k < |vs| ==> vs[k].videoId != videoId
    ensures r.Some? ==> r.value.videoId == videoId
    ensures r.Some? ==>
      exists k :: 0 <= k < |vs| && vs[k] == r.value && (forall j :: 0 <= j < k ==> vs[j].videoId != videoId)
    decreases |vs|
  {
    if vs == [] then None
    else if vs[0].videoId == videoId then Some(vs[0])
    else
      var r := FindVideo(vs[1..], videoId);
      assert forall k :: 1 <= k < |vs| ==> vs[k] == vs[1..][k - 1];
      if r.Some? then
        var k :| 0 <= k < |vs[1..]| && vs[1..][k] == r.value &&
          (forall j :: 0 <= j < k ==> vs[1..][j].videoId != videoId);
        assert vs[k + 1] == r.value;
        r
      else r
  }

  /** The `/user/videos` strategy, run when the details strategy threw. */
  function Fallback(videoId: string, url: string, username: Option<string>,
                    listed: Call<UserVideosResponse>, clock: Clock): (a: Attempt<Option<TikTokVideo>>)
    ensures username.None? ==> a == Attempt([], Failure(NoUsername))
    ensures username.Some? ==> a.requests == [UserVideos(username.value)]
    ensures a.result.Success? ==> a.result.value.Some?
    ensures username.Some? && listed.Threw? ==> a.result == Failure(listed.message)
    ensures username.Some? && listed == Returned(UserVideosResponse(None)) ==>
      a.result == Failure(NotFoundBothWays)
    ensures username.Some? && listed.Returned? && listed.body.videos.Some? &&
            FindVideo(listed.body.videos.value, videoId).None? ==>
      a.result == Failure(NotInRecentVideos(videoId))
    ensures username.Some? && listed.Returned? && listed.body.videos.Some? &&
            FindVideo(listed.body.videos.value, videoId).Some? ==>
      var m := MapListed(FindVideo(listed.body.videos.value, videoId).value, url, username.value, clock);
      && (a.result.Success? <==> m.Success?)
      && (m.Success? ==> a.result.value == Some(m.value))
      && (m.Failure? ==> a.result.message == m.message)
  {
    match username
    case None => Attempt([], Failure(NoUsername))
    case Some(u) =>
      var reqs := [UserVideos(u)];
      match listed
      case Threw(_, m) => Attempt(reqs, Failure(m))
      case Returned(body) =>
        match body.videos
        case None => Attempt(reqs, Failure(NotFoundBothWays))
        case Some(vs) =>
          match FindVideo(vs, videoId)
          case None => Attempt(reqs, Failure(NotInRecentVideos(videoId)))
          case Some(v) =>
            match MapListed(v, url, u, clock)
            case Failure(m) => Attempt(reqs, Failure(m))
            case Success(rec) => Attempt(reqs, Success(Some(rec)))
  }

  /**
   * `extractVideo(url)`. `Success(None)` is the `undefined` it returns when the details
   * response lacks `details`: no record and no fallback.
   */
  function ExtractVideo(url: string, details: Call<DetailsResponse>,
                        listed: Call<UserVideosResponse>, clock: Clock)
    : (a: Attempt<Option<TikTokVideo>>)
    ensures VideoIdFromUrl(url).None? ==> a == Attempt([], Failure(InvalidUrl))
    ensures VideoIdFromUrl(url).Some? ==>
      |a.requests| >= 1 && a.requests[0] == VideoDetails(VideoIdFromUrl(url).value)
    ensures VideoIdFromUrl(url).Some? && details == Returned(DetailsResponse(None)) ==>
      a == Attempt([VideoDetails(VideoIdFromUrl(url).value)], Success(None))
    ensures |a.requests| > 1 ==> details.Threw? || MapDetails(
      details.body.details.value, url, UsernameFromUrl(url), clock).Failure?
    ensures VideoIdFromUrl(url).Some? && details.Returned? && details.body.details.Some? &&
            MapDetails(details.body.details.value, url, UsernameFromUrl(url), clock).Success? ==>
      a == Attempt([VideoDetails(VideoIdFromUrl(url).value)],
                   Success(Some(MapDetails(details.body.details.value, url, UsernameFromUrl(url), clock).value)))
    ensures VideoIdFromUrl(url).Some? &&
            (details.Threw? || (details.body.details.Some? &&
               MapDetails(details.body.details.value, url, UsernameFromUrl(url), clock).Failure?)) ==>
      var f := Fallback(VideoIdFromUrl(url).value, url, UsernameFromUrl(url), listed, clock);
      a == Attempt([VideoDetails(VideoIdFromUrl(url).value)] + f.requests, f.result)
  {
    match VideoIdFromUrl(url)
    case None => Attempt([], Failure(InvalidUrl))
    case Some(id) =>
      var username := UsernameFromUrl(url);
      var first := [VideoDetails(id)];
      var direct: Option<Result<Option<TikTokVideo>>> :=
        match details
        case Threw(_, _) => None
        case Returned(body) =>
          match body.details
          case None => Some(Success(None))
          case Some(p) =>
            match MapDetails(p, url, username, clock)
            case Failure(_) => None
            case Success(rec) => Some(Success(Some(rec)));
      if direct.Some? then Attempt(first, direct.value)
      else
        var f := Fallback(id, url, username, listed, clock);
        Attempt(first + f.requests, f.result)
  }

  /**
   * After a failed details request, the record comes from the user's recent videos: it is the
   * one with the URL's id, and an id missing from the list is reported as not recent.
   */
  lemma FallbackFindsUrlVideo(url: string, status: Option<int>, message: string,
                              vs: seq<ListedVideo>, clock: Clock)
    requires VideoIdFromUrl(url).Some? && UsernameFromUrl(url).Some?
    ensures var id := VideoIdFromUrl(url).value;
      var a := ExtractVideo(url, Threw(status, message), Returned(UserVideosResponse(Some(vs))), clock);
      && a.requests == [VideoDetails(id), UserVideos(UsernameFromUrl(url).value)]
      && (a.result.Success? ==>
            a.result.value.Some? && a.result.value.value.videoId == id &&
            exists k :: 0 <= k < |vs| && vs[k].videoId == id &&
              MapListed(vs[k], url, UsernameFromUrl(url).value, clock) == Success(a.result.value.value))
      && ((forall k :: 0 <= k < |vs| ==> vs[k].videoId != id) ==> a.result == Failure(NotInRecentVideos(id)))
  {
    var id := VideoIdFromUrl(url).value;
    var found := FindVideo(vs, id);
    if found.Some? {
      var k :| 0 <= k < |vs| && vs[k] == found.value && (forall j :: 0 <= j < k ==> vs[j].videoId != id);
      assert vs[k].videoId == id;
    }
  }

  /** A details payload with a description and a like count only. */
  lemma ExampleDetailsRecord(url: string, p: DetailsPayload, clock: Clock)
    requires url == "https://www.tiktok.com/@demo/video/1234567890"
    requires p == DetailsPayload("1234567890", "#fact #check", "", "", "", "", None,
                                 Stats(Some(100), None, None, None, None),
                                 AuthorInfo("", "", false, ""), "")
    ensures var a := ExtractVideo(url, Returned(DetailsResponse(Some(p))), Threw(None, ""), clock);
      a.requests == [VideoDetails("1234567890")] && a.result.Success? && a.result.value.Some? &&
      a.result.value.value.hashtags == ["fact", "check"] && a.result.value.value.author == "demo" &&
      a.result.value.value.likes == 100 && a.result.value.value.views == 0
  {
    ExampleUrl(url);
    ExampleHashtags(p.description);
  }

  // ---------------------------------------------------------------------------
  // getUserInfo

  datatype UserPayload = UserPayload(
    uid: string,
    id: string,
    uniqueId: string,
    nickname: string,
    avatarLarger: string,
    avatarMedium: string,
    avatarThumb: string,
    signature: string,
    verified: bool,
    followerCount: Option<int>,
    followingCount: Option<int>,
    awemeCount: Option<int>,
    totalFavorited: Option<int>)

  /** `response.data` of `/user/info`: no `data.data`, no `data.data.user`, or a user. */
  datatype UserInfoResponse = NoData | NoUser | WithUser(user: UserPayload)

  datatype UserInfo = UserInfo(
    userId: string,
    username: string,
    nickname: string,
    avatar: string,
    bio: string,
    verified: bool,
    followerCount: int,
    followingCount: int,
    videoCount: int,
    likesCount: int)

  const UserNotFound: string := "Utilisateur introuvable"
  const UserRateLimited: string := "Limite de requêtes API atteinte."
  /** The `TypeError` that reading `user.uid` of a missing user throws. */
  const MissingUserError: string := "Cannot read properties of undefined (reading 'uid')"

  function MapUser(u: UserPayload, username: string): (r: UserInfo)
    ensures r.userId == OrElse(u.uid, u.id)
    ensures r.username != "" || username == ""
    ensures u.uniqueId != "" ==> r.username == u.uniqueId
    ensures u.uniqueId == "" ==> r.username == username
    ensures r.avatar == "" <==> u.avatarLarger == "" && u.avatarMedium == "" && u.avatarThumb == ""
    ensures r.avatar != "" ==>
      r.avatar == (if u.avatarLarger != "" then u.avatarLarger
                   else if u.avatarMedium != "" then u.avatarMedium else u.avatarThumb)
    ensures r.nickname == u.nickname && r.bio == u.signature && r.verified == u.verified
    ensures r.followerCount == Count(u.followerCount) && r.followingCount == Count(u.followingCount)
    ensures r.videoCount == Count(u.awemeCount) && r.likesCount == Count(u.totalFavorited)
  {
    UserInfo(
      userId := OrElse(u.uid, u.id),
      username := OrElse(u.uniqueId, username),
      nickname := u.nickname,
      avatar := OrElse(OrElse(u.avatarLarger, u.avatarMedium), u.avatarThumb),
      bio := u.signature,
      verified := u.verified,
      followerCount := Count(u.followerCount),
      followingCount := Count(u.followingCount),
      videoCount := Count(u.awemeCount),
      likesCount := Count(u.totalFavorited))
  }

  /**
   * `getUserInfo(username)`. Errors keep the HTTP status they carry when rethrown, since
   * `extractUserVideos` inspects it; the errors it creates itself carry none.
   */
  function GetUserInfo(username: string, call: Call<UserInfoResponse>): (r: Call<UserInfo>)
    ensures call.Threw? && call.status == Some(429) ==> r == Threw(None, UserRateLimited)
    ensures call.Threw? && call.status != Some(429) ==> r == Threw(call.status, call.message)
    ensures call == Returned(NoData) ==> r == Threw(None, UserNotFound)
    ensures r.Returned? <==> call.Returned? && call.body.WithUser?
    ensures call.Returned? && call.body.WithUser? ==> r == Returned(MapUser(call.body.user, username))
    ensures call == Returned(NoUser) ==> r == Threw(None, MissingUserError)
  {
    match call
    case Threw(status, m) =>
      if status == Some(429) then Threw(None, UserRateLimited) else Threw(status, m)
    case Returned(NoData) => Threw(None, UserNotFound)
    case Returned(NoUser) => Threw(None, MissingUserError)
    case Returned(WithUser(u)) => Returned(MapUser(u, username))
  }

  // ---------------------------------------------------------------------------
  // extractUserVideos

  /** One entry of `response.data.data.videos` of `/user/posts`. */
  datatype PostedVideo = PostedVideo(
    videoId: string,
    awemeId: string,
    title: string,
    desc: string,
    cover: string,
    dynamicCover: string,
    play: string,
    downloadAddr: string,
    duration: Option<int>,
    diggCount: Option<int>,
    commentCount: Option<int>,
    shareCount: Option<int>,
    playCount: Option<int>,
    createTime: Option<int>)

  /** `response.data.data.videos`: `None` when any level is missing. */
  datatype PostsResponse = PostsResponse(videos: Option<seq<PostedVideo>>)

  datatype TikTokPost = TikTokPost(
    videoId: string,
    url: string,
    author: string,
    title: string,
    description: string,
    thumbnailUrl: string,
    downloadUrl: string,
    duration: int,
    likes: int,
    comments: int,
    shares: int,
    views: int,
    createdAt: string)

  const NoVideos: string := "Aucune vidéo trouvée pour cet utilisateur"
  const RateLimited: string := "Limite de requêtes API atteinte. Veuillez réessayer dans quelques minutes."

  function UserMissing(username: string): string {
    "Utilisateur @" + username + " introuvable."
  }

  function PostUrl(username: string, id: string): string {
    "https://www.tiktok.com/@" + username + "/video/" + id
  }

  function Min(a: int, b: int): int {
    if a < b then a else b
  }

  /** `xs.slice(0, n)`: a negative `n` counts from the end. */
  function SliceTo<T>(xs: seq<T>, n: int): (r: seq<T>)
    ensures |r| == if n >= 0 then Min(n, |xs|) else if |xs| + n > 0 then |xs| + n else 0
    ensures r == xs[..|r|]
  {
    if n >= 0 then (if n < |xs| then xs[..n] else xs)
    else if |xs| + n > 0 then xs[..|xs| + n]
    else []
  }

  function MapPost(v: PostedVideo, username: string, clock: Clock): (r: Result<TikTokPost>)
    ensures r.Success? ==> r.value.author == username
    ensures r.Success? ==> r.value.videoId == OrElse(v.videoId, v.awemeId)
    ensures r.Success? ==> r.value.url == PostUrl(username, r.value.videoId)
    ensures r.Success? <==> SecondsIso(clock, v.createTime).Success?
    ensures r.Success? ==> r.value.createdAt == SecondsIso(clock, v.createTime).value
    ensures r.Success? ==> r.value.title == v.title && r.value.description == v.desc
    ensures r.Success? ==>
      r.value.thumbnailUrl == OrElse(v.cover, v.dynamicCover) && r.value.downloadUrl == OrElse(v.play, v.downloadAddr)
    ensures r.Success? ==> r.value.duration == Count(v.duration)
    ensures r.Success? ==>
      && r.value.likes == Count(v.diggCount) && r.value.comments == Count(v.commentCount)
      && r.value.shares == Count(v.shareCount) && r.value.views == Count(v.playCount)
  {
    match SecondsIso(clock, v.createTime)
    case Failure(m) => Failure(m)
    case Success(created) =>
      var id := OrElse(v.videoId, v.awemeId);
      Success(TikTokPost(
        videoId := id,
        url := PostUrl(username, id),
        author := username,
        title := v.title,
        description := v.desc,
        thumbnailUrl := OrElse(v.cover, v.dynamicCover),
        downloadUrl := OrElse(v.play, v.downloadAddr),
        duration := Count(v.duration),
        likes := Count(v.diggCount),
        comments := Count(v.commentCount),
        shares := Count(v.shareCount),
        views := Count(v.playCount),
        createdAt := created))
  }

  /** `.map(...)` over the posts; the first entry whose mapping throws ends it. */
  function MapPosts(vs: seq<PostedVideo>, username: string, clock: Clock)
    : (r: Result<seq<TikTokPost>>)
    ensures r.Success? ==> |r.value| == |vs|
    ensures r.Success? ==>
      forall k :: 0 <= k < |r.value| ==> k < |vs| && MapPost(vs[k], username, clock) == Success(r.value[k])
    ensures r.Failure? ==> exists k :: 0 <= k < |vs| && MapPost(vs[k], username, clock).Failure?
    decreases |vs|
  {
    if vs == [] then Success([])
    else match MapPost(vs[0], username, clock)
      case Failure(m) => Failure(m)
      case Success(p) =>
        match MapPosts(vs[1..], username, clock)
        case Failure(m) =>
          var k :| 0 <= k < |vs[1..]| && MapPost(vs[1..][k], username, clock).Failure?;
          assert vs[1..][k] == vs[k + 1];
          Failure(m)
        case Success(ps) =>
          Success([p] + ps)
  }

  /** The catch block of `extractUserVideos`: errors with an HTTP status are replaced. */
  function UserVideosError(username: string, status: Option<int>, message: string): (m: string)
    ensures status == Some(429) ==> m == RateLimited
    ensures status == Some(404) ==> m == UserMissing(username)
    ensures status.Some? && status.value != 429 && status.value != 404 ==>
      m == "Erreur API: " + IntToString(status.value)
    ensures status.None? ==> m == message
  {
    match status
    case None => message
    case Some(s) =>
      if s == 429 then RateLimited
      else if s == 404 then UserMissing(username)
      else "Erreur API: " + IntToString(s)
  }

  /** `extractUserVideos(username, maxCount)`. */
  function ExtractUserVideos(username: string, maxCount: int, info: Call<UserInfoResponse>,
                             posts: Call<PostsResponse>, clock: Clock)
    : (a: Attempt<seq<TikTokPost>>)
    ensures |a.requests| >= 1 && a.requests[0] == UserInfoRequest(username)
    ensures |a.requests| == 2 ==> a.requests[1] == UserPosts(username, Min(maxCount, 30))
    ensures |a.requests| <= 2
    ensures a.result.Success? ==> |a.requests| == 2
    ensures a.result.Success? && maxCount >= 0 ==> |a.result.value| <= maxCount
    ensures a.result.Success? ==> forall k :: 0 <= k < |a.result.value| ==>
      a.result.value[k].author == username &&
      a.result.value[k].url == PostUrl(username, a.result.value[k].videoId)
    ensures GetUserInfo(username, info).Threw? ==>
      a == Attempt([UserInfoRequest(username)], Failure(UserVideosError(
        username, GetUserInfo(username, info).status, GetUserInfo(username, info).message)))
    ensures GetUserInfo(username, info).Returned? && GetUserInfo(username, info).body.userId == "" ==>
      a == Attempt([UserInfoRequest(username)], Failure(UserNotFound))
    ensures GetUserInfo(username, info).Returned? && GetUserInfo(username, info).body.userId != "" ==>
      a.requests == [UserInfoRequest(username), UserPosts(username, Min(maxCount, 30))]
      && (posts.Threw? ==> a.result == Failure(UserVideosError(username, posts.status, posts.message)))
      && (posts == Returned(PostsResponse(None)) ==> a.result == Failure(NoVideos))
      && (posts.Returned? && posts.body.videos.Some? ==>
            a.result == MapPosts(SliceTo(posts.body.videos.value, maxCount), username, clock))
  {
    var first := [UserInfoRequest(username)];
    match GetUserInfo(username, info)
    case Threw(status, m) => Attempt(first, Failure(UserVideosError(username, status, m)))
    case Returned(u) =>
      if u.userId == "" then Attempt(first, Failure(UserNotFound))
      else
        var reqs := first + [UserPosts(username, Min(maxCount, 30))];
        match posts
        case Threw(status, m) => Attempt(reqs, Failure(UserVideosError(username, status, m)))
        case Returned(body) =>
          match body.videos
          case None => Attempt(reqs, Failure(NoVideos))
          case Some(vs) =>
            var r := MapPosts(SliceTo(vs, maxCount), username, clock);
            Attempt(reqs, r)
  }

  /** A rate limit on the profile lookup surfaces with the shorter message, not the posts one. */
  lemma ProfileRateLimit(username: string, maxCount: int, posts: Call<PostsResponse>, clock: Clock)
    ensures ExtractUserVideos(username, maxCount, Threw(Some(429), ""), posts, clock).result
      == Failure(UserRateLimited)
  {
  }
}
