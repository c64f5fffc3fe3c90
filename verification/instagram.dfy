/**
 * The Instagram extractor: shortcode extraction, URL recognition, the normalisation of a
 * `/post` payload, hashtags and mentions, and the mapping of upstream errors.
 */
module Instagram {
  import opened Wrappers
  import opened Text
  import opened Patterns
  import opened Records

  // ---------------------------------------------------------------------------
  // URLs

  /** `/instagram\.com\/p\/(...)/`, then `/reel/`, then `/tv/`, each capturing `[A-Za-z0-9_-]+`. */
  const ShortcodePatterns: seq<Pattern> := [
    Pattern(["instagram.com/p/"], Run(UrlId)),
    Pattern(["instagram.com/reel/"], Run(UrlId)),
    Pattern(["instagram.com/tv/"], Run(UrlId))
  ]

  function ShortcodeFromUrl(url: string): Option<string> {
    FirstMatch(ShortcodePatterns, url)
  }

  /** `extractShortcodeFromUrl`: the loop over the patterns, returning at the first match. */
  method ExtractShortcodeFromUrl(url: string) returns (code: Option<string>)
    ensures code == ShortcodeFromUrl(url)
  {
    code := FirstCapture(ShortcodePatterns, url);
  }

  /** `/instagram\.com\/(p|reel|tv)\//.test(url)`. */
  predicate IsInstagramUrl(url: string) {
    Contains(url, "instagram.com/p/") || Contains(url, "instagram.com/reel/")
    || Contains(url, "instagram.com/tv/")
  }

  // ---------------------------------------------------------------------------
  // Properties of URL recognition

  /** A shortcode is a non-empty run of `[A-Za-z0-9_-]` taken from the URL. */
  lemma ShortcodeShape(url: string)
    requires ShortcodeFromUrl(url).Some?
    ensures |ShortcodeFromUrl(url).value| > 0 && AllIn(ShortcodeFromUrl(url).value, UrlId)
    ensures Contains(url, ShortcodeFromUrl(url).value)
  {
    FirstMatchShape(ShortcodePatterns, url);
  }

  /** Every URL that yields a shortcode is one `isInstagramUrl` accepts. */
  lemma ShortcodeIsInstagram(url: string)
    requires ShortcodeFromUrl(url).Some?
    ensures IsInstagramUrl(url)
  {
    FirstMatchFrom(ShortcodePatterns, url);
    var k :| 0 <= k < |ShortcodePatterns| && Find(ShortcodePatterns[k], url) == ShortcodeFromUrl(url);
    MatchesLead(ShortcodePatterns[k], url);
  }

  /** A post link wins over a reel link later in the same text. */
  lemma PostBeforeReel(url: string)
    requires Matches(ShortcodePatterns[0], url)
    ensures ShortcodeFromUrl(url) == Find(ShortcodePatterns[0], url)
  {
    FirstMatchPriority(ShortcodePatterns, url, 0);
  }

  lemma BareNoLead(s: string, lead: string)
    requires s == "https://instagram.com/p/" && |lead| >= 16 && lead[0] == 'i'
    ensures forall j :: 0 <= j <= |s| && j != 8 ==> !StartsAt(s, lead, j)
  {
    var a := "https://";
    assert s == a + "instagram.com/p/";
    LeadAbsentIn(a, "instagram.com/p/", lead, 8, 0);
  }

  /**
   * A URL that `isInstagramUrl` accepts may still have no shortcode: here the `/p/` is
   * followed by nothing, and the extraction fails before any request.
   */
  lemma RecognisedWithoutShortcode(s: string)
    requires s == "https://instagram.com/p/"
    ensures IsInstagramUrl(s) && ShortcodeFromUrl(s) == None
  {
    assert StartsAt(s, "instagram.com/p/", 8);
    ContainsAt(s, "instagram.com/p/", 8);
    var p0, p1, p2 := ShortcodePatterns[0], ShortcodePatterns[1], ShortcodePatterns[2];
    BareNoLead(s, "instagram.com/p/");
    BareNoLead(s, "instagram.com/reel/");
    BareNoLead(s, "instagram.com/tv/");
    forall j | 0 <= j <= |s|
      ensures MatchAt(p0, s, j).None? && MatchAt(p1, s, j).None? && MatchAt(p2, s, j).None?
    {
      if j == 8 {
        SingleLead(p0, s, j);
        assert RunLength(s, 24, UrlId) == 0;
      } else {
        LeadNeeded(p0, s, j);
      }
      LeadNeeded(p1, s, j);
      LeadNeeded(p2, s, j);
    }
    FindFromNone(p0, s, 0);
    FindFromNone(p1, s, 0);
    FindFromNone(p2, s, 0);
    FirstMatchNone(ShortcodePatterns, s);
  }

  // ---------------------------------------------------------------------------
  // Hashtags and mentions

  /** `#` followed by word characters and `À-ſ`, `#` stripped. */
  function ExtractHashtags(text: string): seq<string> {
    Scan(text, '#', WordLatin)
  }

  /** `@` followed by word characters, `À-ſ` and `.`, `@` stripped. */
  function ExtractMentions(text: string): seq<string> {
    Scan(text, '@', WordLatinDot)
  }

  lemma TagsShape(text: string)
    ensures forall k :: 0 <= k < |ExtractHashtags(text)| ==>
      |ExtractHashtags(text)[k]| > 0 && AllIn(ExtractHashtags(text)[k], WordLatin)
    ensures forall k :: 0 <= k < |ExtractMentions(text)| ==>
      |ExtractMentions(text)[k]| > 0 && AllIn(ExtractMentions(text)[k], WordLatinDot)
    ensures '#' !in text ==> ExtractHashtags(text) == []
    ensures '@' !in text ==> ExtractMentions(text) == []
  {
    if '#' !in text {
      ScanNoMarker(text, '#', WordLatin);
    }
    if '@' !in text {
      ScanNoMarker(text, '@', WordLatinDot);
    }
  }

  /** Tags and mentions written out with single spaces are read back in order. */
  lemma TagsRoundTrip(tags: seq<string>, names: seq<string>)
    requires forall k :: 0 <= k < |tags| ==> |tags[k]| > 0 && AllIn(tags[k], WordLatin)
    requires forall k :: 0 <= k < |names| ==> |names[k]| > 0 && AllIn(names[k], WordLatinDot)
    ensures ExtractHashtags(Render(tags, '#', ' ')) == tags
    ensures ExtractMentions(Render(names, '@', ' ')) == names
  {
    ScanRender(tags, '#', ' ', WordLatin);
    ScanRender(names, '@', ' ', WordLatinDot);
  }

  /** Accented letters belong to a hashtag; a dot ends it. */
  lemma ExampleHashtag(h: string)
    requires h == "#café.bio"
    ensures ExtractHashtags(h) == ["café"]
  {
    assert h[1..5] == "café";
    assert h[5] == '.';
    RunLengthOf(h, 1, 4, WordLatin);
    assert h[5..] == ".bio";
    ScanNoMarker(h[5..], '#', WordLatin);
  }

  /** A mention keeps its dots. */
  lemma ExampleMention(m: string)
    requires m == "@jean.dupont"
    ensures ExtractMentions(m) == ["jean.dupont"]
  {
    assert |m| == 12 && m[0] == '@' && m[1..12] == "jean.dupont";
    RunLengthOf(m, 1, 11, WordLatinDot);
    assert Scan(m[12..], '@', WordLatinDot) == [];
    assert Scan(m, '@', WordLatinDot) == [m[1..12]] + Scan(m[12..], '@', WordLatinDot);
  }

  // ---------------------------------------------------------------------------
  // normalizePostData

  /**
   * The `/post` payload, as the normaliser reads it. Text fields are `""` when missing; the
   * `user` fields are `""`/`false` when `user` is missing; `coverUrl` is
   * `image_versions2.candidates[0].url`, `carousel` the same path in each `carousel_media` item.
   */
  datatype PostPayload = PostPayload(
    captionText: string,
    title: string,
    mediaType: Option<int>,
    productType: string,
    pk: string,
    id: string,
    code: string,
    userName: string,
    userPk: string,
    userVerified: bool,
    coverUrl: string,
    videoUrl: string,
    carousel: Option<seq<string>>,
    likeCount: Option<int>,
    commentCount: Option<int>,
    videoViewCount: Option<int>,
    viewCount: Option<int>,
    playCount: Option<int>,
    takenAt: Option<int>,
    locationName: string)

  predicate IsVideo(p: PostPayload) {
    p.mediaType == Some(2) || p.productType == "igtv" || p.productType == "clips"
  }

  /** `carousel_media?.map(...) || [cover].filter(Boolean)`: an array, even empty, is truthy. */
  function Images(p: PostPayload): (r: seq<string>)
    ensures p.carousel.Some? ==> r == p.carousel.value
    ensures p.carousel.None? && p.coverUrl != "" ==> r == [p.coverUrl]
    ensures p.carousel.None? && p.coverUrl == "" ==> r == []
  {
    match p.carousel
    case Some(items) => items
    case None => if p.coverUrl != "" then [p.coverUrl] else []
  }

  /** The record built from a payload; it throws only when `taken_at` is out of range. */
  function NormalizePostData(p: PostPayload, shortcode: string, url: string, clock: Clock)
    : (r: Result<InstagramPost>)
    ensures r.Failure? <==> SecondsIso(clock, p.takenAt).Failure?
    ensures r.Success? ==> var post := r.value;
      post.isVideo == IsVideo(p) && (post.kind == "video" <==> post.isVideo)
      && (post.kind == "photo" <==> !post.isVideo)
      && post.caption == OrElse(p.captionText, p.title)
      && post.hashtags == ExtractHashtags(post.caption)
      && post.mentions == ExtractMentions(post.caption)
      && post.url == url && post.images == Images(p)
      && (p.userName == "" ==> post.author == "Inconnu")
      && (p.userName != "" ==> post.author == p.userName)
      && post.postId == OrElse(OrElse(p.pk, p.id), shortcode)
      && post.shortcode == OrElse(p.code, shortcode)
      && (p.likeCount.None? ==> post.likes == 0)
      && (p.locationName == "" <==> post.location.None?)
    ensures r.Success? ==> r.value.likes == Count(p.likeCount) && r.value.comments == Count(p.commentCount)
    ensures r.Success? ==> r.value.createdAt == SecondsIso(clock, p.takenAt).value
    ensures r.Success? ==> r.value.thumbnailUrl == p.coverUrl && r.value.videoUrl == p.videoUrl
    ensures r.Success? ==> r.value.authorId == p.userPk && r.value.authorVerified == p.userVerified
    ensures r.Success? && p.locationName != "" ==> r.value.location == Some(p.locationName)
  {
    match SecondsIso(clock, p.takenAt)
    case Failure(m) => Failure(m)
    case Success(at) =>
      var caption := OrElse(p.captionText, p.title);
      var video := IsVideo(p);
      Success(InstagramPost(
        postId := OrElse(OrElse(p.pk, p.id), shortcode),
        shortcode := OrElse(p.code, shortcode),
        url := url,
        author := OrElse(p.userName, "Inconnu"),
        authorId := p.userPk,
        authorVerified := p.userVerified,
        caption := caption,
        kind := if video then "video" else "photo",
        isVideo := video,
        thumbnailUrl := p.coverUrl,
        videoUrl := p.videoUrl,
        images := Images(p),
        likes := Count(p.likeCount),
        comments := Count(p.commentCount),
        views := Count(OrNum(OrNum(p.videoViewCount, p.viewCount), p.playCount)),
        createdAt := at,
        location := if p.locationName != "" then Some(p.locationName) else None,
        hashtags := ExtractHashtags(caption),
        mentions := ExtractMentions(caption)))
  }

  /** Views fall back through the three counters; a zero counter falls through as a missing one. */
  lemma ViewsFallback(p: PostPayload, shortcode: string, url: string, clock: Clock)
    requires NormalizePostData(p, shortcode, url, clock).Success?
    ensures var v := NormalizePostData(p, shortcode, url, clock).value.views;
      (p.videoViewCount.Some? && p.videoViewCount.value != 0 ==> v == p.videoViewCount.value)
      && (Count(p.videoViewCount) == 0 && p.viewCount.Some? && p.viewCount.value != 0 ==>
            v == p.viewCount.value)
      && (Count(p.videoViewCount) == 0 && Count(p.viewCount) == 0 ==> v == Count(p.playCount))
  {
  }

  // ---------------------------------------------------------------------------
  // extractPost

  const InvalidUrl: string := "URL invalide - impossible d'extraire le shortcode"
  const NoData: string := "Réponse API invalide ou post introuvable"
  const NotFound: string := "Post Instagram introuvable ou privé"
  const RateLimited: string := "Limite API atteinte - réessayez dans quelques instants"

  /** The catch block of `extractPost`: 404 and 429 are replaced, everything else is rethrown. */
  function PostError(status: Option<int>, message: string): (m: string)
    ensures status == Some(404) ==> m == NotFound
    ensures status == Some(429) ==> m == RateLimited
    ensures status != Some(404) && status != Some(429) ==> m == message
  {
    if status == Some(404) then NotFound
    else if status == Some(429) then RateLimited
    else message
  }

  /**
   * `extractPost(url)`. The response body is `None` when `response.data` is falsy. The errors
   * thrown inside the `try` carry no HTTP status and pass through the catch unchanged.
   */
  function ExtractPost(url: string, call: Call<Option<PostPayload>>, clock: Clock)
    : (f: Fetch<InstagramPost>)
    ensures ShortcodeFromUrl(url).None? <==> f.request.None?
    ensures f.request.None? ==> f.result == Failure(InvalidUrl)
    ensures f.request.Some? ==> f.request == ShortcodeFromUrl(url)
    ensures f.request.Some? && call.Threw? ==> f.result == Failure(PostError(call.status, call.message))
    ensures f.request.Some? && call == Returned(None) ==> f.result == Failure(NoData)
    ensures f.request.Some? && call.Returned? && call.body.Some? ==>
      f.result == NormalizePostData(call.body.value, f.request.value, url, clock)
  {
    match ShortcodeFromUrl(url)
    case None => Fetch(None, Failure(InvalidUrl))
    case Some(code) =>
      var result :=
        match call
        case Threw(status, m) => Failure(PostError(status, m))
        case Returned(None) => Failure(NoData)
        case Returned(Some(p)) => NormalizePostData(p, code, url, clock);
      Fetch(Some(code), result)
  }
}
