/**
 * The values that flow between the services: outcomes of upstream calls, the clock, and the
 * normalised content records the three extractors return.
 *
 * Upstream text fields that are missing, `null` or empty are all written `""`: every place the
 * services read them goes through JavaScript's `||`, which treats the three alike. Upstream
 * numbers are `Option<int>`, `None` standing for a missing field.
 */
module Records {
  import opened Wrappers
  import opened Text

  /**
   * The outcome of an HTTP call: the response body, or a thrown error carrying the HTTP status
   * of the response when there was one (`error.response.status`) and its message.
   */
  datatype Call<+T> = Returned(body: T) | Threw(status: Option<int>, message: string)

  /** `x || 0` on an upstream number. */
  function Count(n: Option<int>): (r: int)
    ensures n.None? ==> r == 0
    ensures n.Some? ==> r == n.value
  {
    n.GetOr(0)
  }

  /** `a || b` on upstream numbers: a missing field and `0` both fall through. */
  function OrNum(a: Option<int>, b: Option<int>): (r: Option<int>)
    ensures a.Some? && a.value != 0 ==> r == a
    ensures (a.None? || a.value == 0) ==> r == b
  {
    if a.Some? && a.value != 0 then a else b
  }

  /**
   * One call to an upstream endpoint: the id it was asked for (`None` when the call was never
   * made) and what the extractor returned or threw.
   */
  datatype Fetch<+T> = Fetch(request: Option<string>, result: Result<T>)

  // ---------------------------------------------------------------------------
  // The clock

  /**
   * `Date.now()` and the ISO-8601 rendering `toISOString` gives of a millisecond timestamp;
   * both depend on the machine and are inputs here.
   */
  datatype Clock = Clock(nowMillis: int, isoAt: int -> string)

  /** Dates beyond this many milliseconds from the epoch are invalid in JavaScript. */
  const MaxTimeMillis: int := 8_640_000_000_000_000

  const InvalidTime: string := "Invalid time value"

  /** `new Date().toISOString()`. */
  function NowIso(c: Clock): string {
    c.isoAt(c.nowMillis)
  }

  /** `new Date(ms).toISOString()`, which throws a `RangeError` for an invalid date. */
  function IsoOf(c: Clock, ms: int): (r: Result<string>)
    ensures r.Failure? <==> ms < -MaxTimeMillis || MaxTimeMillis < ms
    ensures r.Failure? ==> r.message == InvalidTime
  {
    if -MaxTimeMillis <= ms <= MaxTimeMillis then Success(c.isoAt(ms)) else Failure(InvalidTime)
  }

  /**
   * `t ? new Date(t * 1000).toISOString() : new Date().toISOString()` for a number of seconds
   * `t`: a missing or zero `t` reads as now.
   */
  function SecondsIso(c: Clock, t: Option<int>): (r: Result<string>)
    ensures (t.None? || t.value == 0) ==> r == Success(NowIso(c))
    ensures t.Some? && t.value != 0 ==> r == IsoOf(c, t.value * 1000)
  {
    if t.None? || t.value == 0 then Success(NowIso(c)) else IsoOf(c, t.value * 1000)
  }

  // ---------------------------------------------------------------------------
  // Normalised records

  /** `duration` is a number of seconds on TikTok and an ISO-8601 duration text on YouTube. */
  datatype Duration = Seconds(seconds: int) | Iso(text: string)

  /** What the TikTok extractor returns for one video. */
  datatype TikTokVideo = TikTokVideo(
    videoId: string,
    url: string,
    author: string,
    title: string,
    description: string,
    thumbnailUrl: string,
    downloadUrl: string,
    duration: int,
    likes: int,
    comments: int,
    shares: int,
    saves: int,
    views: int,
    hashtags: seq<string>,
    createdAt: string,
    authorVerified: bool,
    authorSignature: string)

  /** What the Instagram extractor returns for one post. */
  datatype InstagramPost = InstagramPost(
    postId: string,
    shortcode: string,
    url: string,
    author: string,
    authorId: string,
    authorVerified: bool,
    caption: string,
    kind: string,
    isVideo: bool,
    thumbnailUrl: string,
    videoUrl: string,
    images: seq<string>,
    likes: int,
    comments: int,
    views: int,
    createdAt: string,
    location: Option<string>,
    hashtags: seq<string>,
    mentions: seq<string>)

  /** What the YouTube extractor returns for one video. */
  datatype YouTubeVideo = YouTubeVideo(
    videoId: string,
    url: string,
    title: string,
    description: string,
    author: string,
    authorId: string,
    thumbnailUrl: string,
    duration: string,
    publishedAt: string,
    views: int,
    likes: int,
    comments: int,
    categoryId: string,
    tags: seq<string>,
    hashtags: seq<string>,
    isLive: bool)

  /**
   * The extracted content the bot hands on. The accessors read a property the way
   * `contentData.<property>` does: a property the platform's record lacks reads as `""`, `0`
   * or `[]`, which every reader treats like `undefined`.
   */
  datatype Content =
    | TikTok(video: TikTokVideo)
    | Instagram(post: InstagramPost)
    | YouTube(yt: YouTubeVideo)
  {
    function VideoId(): string {
      match this
      case TikTok(v) => v.videoId
      case Instagram(_) => ""
      case YouTube(y) => y.videoId
    }

    function PostId(): string {
      if Instagram? then post.postId else ""
    }

    function Shortcode(): string {
      if Instagram? then post.shortcode else ""
    }

    function Url(): string {
      match this
      case TikTok(v) => v.url
      case Instagram(p) => p.url
      case YouTube(y) => y.url
    }

    function Author(): string {
      match this
      case TikTok(v) => v.author
      case Instagram(p) => p.author
      case YouTube(y) => y.author
    }

    function Title(): string {
      match this
      case TikTok(v) => v.title
      case Instagram(_) => ""
      case YouTube(y) => y.title
    }

    function Caption(): string {
      if Instagram? then post.caption else ""
    }

    function Description(): string {
      match this
      case TikTok(v) => v.description
      case Instagram(_) => ""
      case YouTube(y) => y.description
    }

    function ThumbnailUrl(): string {
      match this
      case TikTok(v) => v.thumbnailUrl
      case Instagram(p) => p.thumbnailUrl
      case YouTube(y) => y.thumbnailUrl
    }

    function DownloadUrl(): string {
      if TikTok? then video.downloadUrl else ""
    }

    function VideoUrl(): string {
      if Instagram? then post.videoUrl else ""
    }

    function Images(): seq<string> {
      if Instagram? then post.images else []
    }

    function DurationValue(): Duration {
      match this
      case TikTok(v) => Seconds(v.duration)
      case Instagram(_) => Seconds(0)
      case YouTube(y) => Iso(y.duration)
    }

    function Likes(): int {
      match this
      case TikTok(v) => v.likes
      case Instagram(p) => p.likes
      case YouTube(y) => y.likes
    }

    function Comments(): int {
      match this
      case TikTok(v) => v.comments
      case Instagram(p) => p.comments
      case YouTube(y) => y.comments
    }

    function Shares(): int {
      if TikTok? then video.shares else 0
    }

    function Views(): int {
      match this
      case TikTok(v) => v.views
      case Instagram(p) => p.views
      case YouTube(y) => y.views
    }

    function Hashtags(): seq<string> {
      match this
      case TikTok(v) => v.hashtags
      case Instagram(p) => p.hashtags
      case YouTube(y) => y.hashtags
    }
  }
}
