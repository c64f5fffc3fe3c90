/**
 * The SQLite store as in-memory tables: the rows of `videos`, `verifications`,
 * `monitored_accounts` and `telegram_users`, each with the counter `AUTOINCREMENT` draws row
 * ids from. The declared UNIQUE constraints (`videos.video_id`, `monitored_accounts.username`,
 * `telegram_users.telegram_id`) and the foreign key of `verifications.video_id` are what the
 * statements rely on. Each statement is a function on the table it reads or writes; the class
 * methods apply them. `CURRENT_TIMESTAMP` is the parameter `now`, in seconds.
 */
module Store {
  import opened Wrappers
  import opened Records
  import Vera

  // ---------------------------------------------------------------------------
  // Rows

  datatype VideoRow = VideoRow(
    id: int,
    videoId: string,
    url: string,
    author: string,
    title: string,
    description: string,
    thumbnailUrl: string,
    downloadUrl: string,
    duration: Duration,
    likes: int,
    comments: int,
    shares: int,
    views: int,
    createdAt: int)

  /**
   * The object `createVideo` receives. `platform`, `hashtags` and `createdAt` are passed by the
   * bot but are not among the inserted columns. `videoId` is `None` when the caller's chain
   * yields `undefined`.
   */
  datatype VideoInput = VideoInput(
    videoId: Option<string>,
    url: string,
    author: string,
    title: string,
    description: string,
    thumbnailUrl: string,
    downloadUrl: string,
    duration: Duration,
    likes: int,
    comments: int,
    shares: int,
    views: int,
    hashtags: seq<string>,
    createdAt: string,
    platform: string)

  datatype VerificationRow = VerificationRow(
    id: int,
    videoRowId: int,
    requestId: string,
    status: string,
    score: int,
    verdict: string,
    flags: seq<Vera.Flag>,
    sources: seq<string>,
    explanation: string,
    verifiedAt: int)

  datatype VerificationInput = VerificationInput(
    videoRowId: int,
    requestId: string,
    status: string,
    score: int,
    verdict: string,
    flags: Option<seq<Vera.Flag>>,
    sources: Option<seq<string>>,
    explanation: string)

  datatype Status = Active | Inactive

  datatype AccountRow = AccountRow(
    id: int,
    username: string,
    owner: int,
    lastCheckAt: Option<int>,
    lastVideoId: Option<string>,
    status: Status,
    createdAt: int,
    updatedAt: int)

  datatype UserRow = UserRow(
    telegramId: int,
    username: string,
    firstName: string,
    lastName: string,
    requestsCount: int,
    lastRequestAt: Option<int>,
    joinedAt: int)

  datatype UserInput = UserInput(telegramId: int, username: string, firstName: string, lastName: string)

  datatype UserStats = UserStats(requests: int, monitoredAccounts: int, verifiedVideos: int, joinedAt: Option<int>)

  /** A table after an insert, the counter after it, and the id the statement returns. */
  datatype Inserted<T> = Inserted(rows: seq<T>, seqNo: int, result: Result<int>)

  const NotNullVideoId: string := "NOT NULL constraint failed: videos.video_id"
  const ForeignKeyFailed: string := "FOREIGN KEY constraint failed"

  // ---------------------------------------------------------------------------
  // Table invariants

  /** `video_id TEXT UNIQUE`. */
  predicate UniqueVideoIds(rows: seq<VideoRow>) {
    forall i, j :: 0 <= i < j < |rows| ==> rows[i].videoId != rows[j].videoId
  }

  /** Row ids are positive, increase along the table and never exceed the counter. */
  predicate VideoIdsBelow(rows: seq<VideoRow>, seqNo: int) {
    (forall i :: 0 <= i < |rows| ==> 0 < rows[i].id <= seqNo)
    && (forall i, j :: 0 <= i < j < |rows| ==> rows[i].id < rows[j].id)
  }

  predicate VerificationIdsBelow(rows: seq<VerificationRow>, seqNo: int) {
    (forall i :: 0 <= i < |rows| ==> 0 < rows[i].id <= seqNo)
    && (forall i, j :: 0 <= i < j < |rows| ==> rows[i].id < rows[j].id)
  }

  /** `username TEXT UNIQUE`: over every owner and every status. */
  predicate UniqueUsernames(rows: seq<AccountRow>) {
    forall i, j :: 0 <= i < j < |rows| ==> rows[i].username != rows[j].username
  }

  predicate AccountIdsBelow(rows: seq<AccountRow>, seqNo: int) {
    (forall i :: 0 <= i < |rows| ==> 0 < rows[i].id <= seqNo)
    && (forall i, j :: 0 <= i < j < |rows| ==> rows[i].id < rows[j].id)
  }

  /** `telegram_id INTEGER UNIQUE`. */
  predicate UniqueTelegramIds(rows: seq<UserRow>) {
    forall i, j :: 0 <= i < j < |rows| ==> rows[i].telegramId != rows[j].telegramId
  }

  // ---------------------------------------------------------------------------
  // videos

  /** `SELECT * FROM videos WHERE video_id = ?`: the index of the row, if any. */
  function FindVideo(rows: seq<VideoRow>, videoId: string): (k: Option<nat>)
    ensures k.Some? ==> k.value < |rows| && rows[k.value].videoId == videoId
    ensures k.None? <==> forall j :: 0 <= j < |rows| ==> rows[j].videoId != videoId
    decreases |rows|
  {
    if rows == [] then None
    else if rows[|rows| - 1].videoId == videoId then Some(|rows| - 1)
    else FindVideo(rows[..|rows| - 1], videoId)
  }

  /** `videoData.duration || 0`. */
  function DurationOrZero(d: Duration): (r: Duration)
    ensures d == Seconds(0) || d == Iso("") ==> r == Seconds(0)
    ensures d != Seconds(0) && d != Iso("") ==> r == d
  {
    if d == Iso("") then Seconds(0) else d
  }

  function NewVideoRow(id: int, v: VideoInput, now: int): VideoRow
    requires v.videoId.Some?
  {
    VideoRow(id, v.videoId.value, v.url, v.author, v.title, v.description, v.thumbnailUrl,
             v.downloadUrl, DurationOrZero(v.duration), v.likes, v.comments, v.shares, v.views, now)
  }

  /**
   * `createVideo`: insert and return the new row id; on the uniqueness violation return the
   * id of the existing row; a missing `video_id` violates `NOT NULL` and is thrown.
   */
  function InsertVideo(rows: seq<VideoRow>, seqNo: int, v: VideoInput, now: int): (r: Inserted<VideoRow>)
    ensures v.videoId.None? ==> r == Inserted(rows, seqNo, Failure(NotNullVideoId))
    ensures v.videoId.Some? && FindVideo(rows, v.videoId.value).Some? ==>
      r == Inserted(rows, seqNo, Success(rows[FindVideo(rows, v.videoId.value).value].id))
    ensures v.videoId.Some? && FindVideo(rows, v.videoId.value).None? ==>
      r == Inserted(rows + [NewVideoRow(seqNo + 1, v, now)], seqNo + 1, Success(seqNo + 1))
    ensures r.result.Success? ==> HasVideoRow(r.rows, r.result.value)
  {
    match v.videoId
    case None => Inserted(rows, seqNo, Failure(NotNullVideoId))
    case Some(id) =>
      match FindVideo(rows, id)
      case Some(k) => Inserted(rows, seqNo, Success(rows[k].id))
      case None =>
        var grown := rows + [NewVideoRow(seqNo + 1, v, now)];
        assert grown[|rows|].id == seqNo + 1;
        Inserted(grown, seqNo + 1, Success(seqNo + 1))
  }

  lemma FindVideoAppended(rows: seq<VideoRow>, row: VideoRow)
    requires FindVideo(rows, row.videoId).None?
    ensures FindVideo(rows + [row], row.videoId) == Some(|rows|)
  {
  }

  /** Inserting keeps `video_id` unique and the row ids below the counter. */
  lemma InsertVideoKeepsInvariant(rows: seq<VideoRow>, seqNo: int, v: VideoInput, now: int)
    requires UniqueVideoIds(rows) && VideoIdsBelow(rows, seqNo) && seqNo >= 0
    ensures var r := InsertVideo(rows, seqNo, v, now);
      UniqueVideoIds(r.rows) && VideoIdsBelow(r.rows, r.seqNo) && r.seqNo >= seqNo
  {
  }

  /**
   * `createVideo` is idempotent on `video_id`: a second call with the same id, whatever its
   * other fields and platform, adds no row and returns the id the first call returned.
   */
  lemma CreateVideoIdempotent(rows: seq<VideoRow>, seqNo: int, v: VideoInput, w: VideoInput, now1: int, now2: int)
    requires UniqueVideoIds(rows) && VideoIdsBelow(rows, seqNo)
    requires v.videoId.Some? && w.videoId == v.videoId
    ensures var a := InsertVideo(rows, seqNo, v, now1);
      var b := InsertVideo(a.rows, a.seqNo, w, now2);
      b.rows == a.rows && b.seqNo == a.seqNo && b.result == a.result && a.result.Success?
  {
    var id := v.videoId.value;
    if FindVideo(rows, id).None? {
      FindVideoAppended(rows, NewVideoRow(seqNo + 1, v, now1));
    }
  }

  /** A fresh `video_id` gets a row id larger than every id in the table. */
  lemma CreateVideoFresh(rows: seq<VideoRow>, seqNo: int, v: VideoInput, now: int)
    requires VideoIdsBelow(rows, seqNo)
    requires v.videoId.Some? && FindVideo(rows, v.videoId.value).None?
    ensures var r := InsertVideo(rows, seqNo, v, now);
      r.result.Success? && |r.rows| == |rows| + 1
      && forall i :: 0 <= i < |rows| ==> rows[i].id < r.result.value
  {
  }

  // ---------------------------------------------------------------------------
  // verifications

  predicate HasVideoRow(rows: seq<VideoRow>, id: int) {
    exists i :: 0 <= i < |rows| && rows[i].id == id
  }

  function NewVerificationRow(id: int, v: VerificationInput, now: int): (r: VerificationRow)
    ensures v.flags.None? ==> r.flags == []
    ensures v.sources.None? ==> r.sources == []
  {
    VerificationRow(id, v.videoRowId, v.requestId, v.status, v.score, v.verdict,
                    v.flags.GetOr([]), v.sources.GetOr([]), v.explanation, now)
  }

  /**
   * `createVerification`: appends one row, flags and sources defaulting to empty lists. With
   * foreign keys on, a `video_id` naming no video row is refused.
   */
  function InsertVerification(
    videos: seq<VideoRow>, rows: seq<VerificationRow>, seqNo: int, v: VerificationInput, now: int)
    : (r: Inserted<VerificationRow>)
    ensures !HasVideoRow(videos, v.videoRowId) ==> r == Inserted(rows, seqNo, Failure(ForeignKeyFailed))
    ensures HasVideoRow(videos, v.videoRowId) ==>
      r.rows == rows + [NewVerificationRow(seqNo + 1, v, now)] && r.result == Success(seqNo + 1)
  {
    if HasVideoRow(videos, v.videoRowId) then
      Inserted(rows + [NewVerificationRow(seqNo + 1, v, now)], seqNo + 1, Success(seqNo + 1))
    else Inserted(rows, seqNo, Failure(ForeignKeyFailed))
  }

  /** Verifications are append-only: every earlier row is kept, in place and unchanged. */
  lemma VerificationsAppendOnly(
    videos: seq<VideoRow>, rows: seq<VerificationRow>, seqNo: int, v: VerificationInput, now: int)
    ensures var r := InsertVerification(videos, rows, seqNo, v, now);
      |rows| <= |r.rows| <= |rows| + 1 && r.rows[..|rows|] == rows
  {
  }

  /**
   * `SELECT … WHERE video_id = ? ORDER BY verified_at DESC LIMIT 1`: a row of that video with
   * the latest `verified_at`. Which of several rows with the same timestamp is returned is not
   * specified; this one takes the last inserted.
   */
  function LatestVerification(rows: seq<VerificationRow>, videoRowId: int): (r: Option<VerificationRow>)
    ensures r.None? <==> forall i :: 0 <= i < |rows| ==> rows[i].videoRowId != videoRowId
    ensures r.Some? ==> r.value in rows && r.value.videoRowId == videoRowId
    ensures r.Some? ==> forall i :: 0 <= i < |rows| && rows[i].videoRowId == videoRowId ==>
      rows[i].verifiedAt <= r.value.verifiedAt
    decreases |rows|
  {
    if rows == [] then None
    else
      var last := rows[|rows| - 1];
      var earlier := LatestVerification(rows[..|rows| - 1], videoRowId);
      if last.videoRowId != videoRowId then earlier
      else if earlier.Some? && earlier.value.verifiedAt > last.verifiedAt then earlier
      else Some(last)
  }

  // ---------------------------------------------------------------------------
  // monitored_accounts

  /** `SELECT * FROM monitored_accounts WHERE username = ?`. */
  function FindAccount(rows: seq<AccountRow>, username: string): (k: Option<nat>)
    ensures k.Some? ==> k.value < |rows| && rows[k.value].username == username
    ensures k.None? <==> forall j :: 0 <= j < |rows| ==> rows[j].username != username
    decreases |rows|
  {
    if rows == [] then None
    else if rows[|rows| - 1].username == username then Some(|rows| - 1)
    else FindAccount(rows[..|rows| - 1], username)
  }

  /** `createMonitoredAccount`: a new active row, or `null` when the username is taken. */
  function InsertAccount(rows: seq<AccountRow>, seqNo: int, username: string, owner: int, now: int)
    : (r: Inserted<AccountRow>)
    ensures FindAccount(rows, username).Some? ==> r == Inserted(rows, seqNo, Failure("null"))
    ensures FindAccount(rows, username).None? ==>
      r.rows == rows + [AccountRow(seqNo + 1, username, owner, None, None, Active, now, now)]
      && r.seqNo == seqNo + 1 && r.result == Success(seqNo + 1)
  {
    if FindAccount(rows, username).Some? then Inserted(rows, seqNo, Failure("null"))
    else Inserted(rows + [AccountRow(seqNo + 1, username, owner, None, None, Active, now, now)],
                  seqNo + 1, Success(seqNo + 1))
  }

  /** `UPDATE monitored_accounts SET status = 'inactive', updated_at = … WHERE username = ?`. */
  function StopAccounts(rows: seq<AccountRow>, username: string, now: int): (r: seq<AccountRow>)
    ensures |r| == |rows|
    ensures forall i :: 0 <= i < |rows| && rows[i].username == username ==>
      r[i] == rows[i].(status := Inactive, updatedAt := now)
    ensures forall i :: 0 <= i < |rows| && rows[i].username != username ==> r[i] == rows[i]
    decreases |rows|
  {
    if rows == [] then []
    else
      var init := StopAccounts(rows[..|rows| - 1], username, now);
      var last := rows[|rows| - 1];
      init + [if last.username == username then last.(status := Inactive, updatedAt := now) else last]
  }

  /** `UPDATE … SET last_check_at = …, last_video_id = ?, updated_at = … WHERE username = ?`. */
  function CheckAccounts(rows: seq<AccountRow>, username: string, lastVideoId: string, now: int)
    : (r: seq<AccountRow>)
    ensures |r| == |rows|
    ensures forall i :: 0 <= i < |rows| && rows[i].username == username ==>
      r[i] == rows[i].(lastCheckAt := Some(now), lastVideoId := Some(lastVideoId), updatedAt := now)
    ensures forall i :: 0 <= i < |rows| && rows[i].username != username ==> r[i] == rows[i]
    decreases |rows|
  {
    if rows == [] then []
    else
      var init := CheckAccounts(rows[..|rows| - 1], username, lastVideoId, now);
      var last := rows[|rows| - 1];
      init + [if last.username == username
              then last.(lastCheckAt := Some(now), lastVideoId := Some(lastVideoId), updatedAt := now)
              else last]
  }

  /**
   * `WHERE telegram_user_id = ? AND status = 'active' ORDER BY created_at DESC`: the owner's
   * active rows, newest first. Rows are inserted in `created_at` order, so newest first is
   * the reverse of table order; rows created in the same second may come in either order.
   */
  function ActiveOf(rows: seq<AccountRow>, owner: int): (r: seq<AccountRow>)
    ensures forall a :: a in r <==> a in rows && a.owner == owner && a.status == Active
    ensures |r| <= |rows|
    decreases |rows|
  {
    if rows == [] then []
    else
      var last := rows[|rows| - 1];
      (if last.owner == owner && last.status == Active then [last] else [])
      + ActiveOf(rows[..|rows| - 1], owner)
  }

  /** Each of the owner's active rows appears as many times as in the table, others not at all. */
  lemma {:induction false} ActiveOfCounts(rows: seq<AccountRow>, owner: int)
    ensures forall a ::
      multiset(ActiveOf(rows, owner))[a] == (if a.owner == owner && a.status == Active then multiset(rows)[a] else 0)
    decreases |rows|
  {
    if rows != [] {
      var init, last := rows[..|rows| - 1], rows[|rows| - 1];
      assert rows == init + [last];
      ActiveOfCounts(init, owner);
    }
  }

  /**
   * `ORDER BY created_at DESC`: since insertion assigns increasing ids, the owner's active
   * rows come newest first.
   */
  lemma {:induction false} ActiveOfNewestFirst(rows: seq<AccountRow>, owner: int)
    requires IdsIncreasing(rows)
    ensures IdsDecreasing(ActiveOf(rows, owner))
    decreases |rows|
  {
    if rows != [] {
      var init, last := rows[..|rows| - 1], rows[|rows| - 1];
      assert IdsIncreasing(init);
      ActiveOfNewestFirst(init, owner);
      var rest := ActiveOf(init, owner);
      OlderThanLast(rows);
      assert forall a :: a in rest ==> a in init;
      if last.owner == owner && last.status == Active {
        ConsDecreasing(last, rest);
      } else {
        assert ActiveOf(rows, owner) == [] + rest;
      }
    }
  }

  lemma OlderThanLast(rows: seq<AccountRow>)
    requires |rows| > 0 && IdsIncreasing(rows)
    ensures forall a :: a in rows[..|rows| - 1] ==> a.id < rows[|rows| - 1].id
  {
    forall a | a in rows[..|rows| - 1] ensures a.id < rows[|rows| - 1].id {
      var k :| 0 <= k < |rows| - 1 && rows[..|rows| - 1][k] == a;
      assert rows[k] == a;
    }
  }

  predicate IdsDecreasing(rows: seq<AccountRow>) {
    forall i, j :: 0 <= i < j < |rows| ==> rows[i].id > rows[j].id
  }

  lemma ConsDecreasing(x: AccountRow, rest: seq<AccountRow>)
    requires IdsDecreasing(rest) && forall a :: a in rest ==> a.id < x.id
    ensures IdsDecreasing([x] + rest)
  {
    forall i, j | 0 <= i < j < |[x] + rest| ensures ([x] + rest)[i].id > ([x] + rest)[j].id {
      assert ([x] + rest)[j] == rest[j - 1];
      if i > 0 {
        assert ([x] + rest)[i] == rest[i - 1];
      } else {
        assert rest[j - 1] in rest;
      }
    }
  }

  /** Row ids increase along the table, as insertion assigns them. */
  predicate IdsIncreasing(rows: seq<AccountRow>) {
    forall i, j :: 0 <= i < j < |rows| ==> rows[i].id < rows[j].id
  }

  /** `last_check_at ASC` as SQLite orders it: `NULL` first. */
  predicate CheckedNoLater(a: AccountRow, b: AccountRow) {
    a.lastCheckAt.None? || (b.lastCheckAt.Some? && a.lastCheckAt.value <= b.lastCheckAt.value)
  }

  predicate SortedByCheck(rows: seq<AccountRow>) {
    forall i, j :: 0 <= i < j < |rows| ==> CheckedNoLater(rows[i], rows[j])
  }

  function Insert(sorted: seq<AccountRow>, a: AccountRow): (r: seq<AccountRow>)
    requires SortedByCheck(sorted)
    ensures SortedByCheck(r) && multiset(r) == multiset(sorted) + multiset{a}
    decreases |sorted|
  {
    if sorted == [] then [a]
    else if CheckedNoLater(a, sorted[0]) then
      ConsSorted(a, sorted);
      [a] + sorted
    else
      var rest := Insert(sorted[1..], a);
      assert sorted == [sorted[0]] + sorted[1..];
      HeadBeforeInserted(sorted[0], sorted[1..], a, rest);
      ConsSorted(sorted[0], rest);
      [sorted[0]] + rest
  }

  /** A row checked no later than every row of `tail` and than `a` is checked no later than the merge's head. */
  lemma HeadBeforeInserted(head: AccountRow, tail: seq<AccountRow>, a: AccountRow, rest: seq<AccountRow>)
    requires forall k :: 0 <= k < |tail| ==> CheckedNoLater(head, tail[k])
    requires CheckedNoLater(head, a)
    requires multiset(rest) == multiset(tail) + multiset{a}
    ensures |rest| > 0 ==> CheckedNoLater(head, rest[0])
  {
    if |rest| > 0 {
      assert rest[0] in multiset(rest);
    }
  }

  /** A row checked no later than every row of a sorted list can go in front of it. */
  lemma ConsSorted(x: AccountRow, rest: seq<AccountRow>)
    requires SortedByCheck(rest)
    requires |rest| > 0 ==> CheckedNoLater(x, rest[0])
    ensures SortedByCheck([x] + rest)
  {
    var xs := [x] + rest;
    forall i, j | 0 <= i < j < |xs|
      ensures CheckedNoLater(xs[i], xs[j])
    {
      assert xs[j] == rest[j - 1];
      if i > 0 {
        assert xs[i] == rest[i - 1];
      } else if j > 1 {
        assert CheckedNoLater(rest[0], rest[j - 1]);
      }
    }
  }

  /** The active rows of the table, in table order. */
  function ActiveRows(rows: seq<AccountRow>): (r: seq<AccountRow>)
    ensures forall a :: a in r <==> a in rows && a.status == Active
    decreases |rows|
  {
    if rows == [] then []
    else ActiveRows(rows[..|rows| - 1]) + (if rows[|rows| - 1].status == Active then [rows[|rows| - 1]] else [])
  }

  /** Each active row appears as many times as in the table, inactive ones not at all. */
  lemma {:induction false} ActiveRowsCounts(rows: seq<AccountRow>)
    ensures forall a :: multiset(ActiveRows(rows))[a] == (if a.status == Active then multiset(rows)[a] else 0)
    decreases |rows|
  {
    if rows != [] {
      var init, last := rows[..|rows| - 1], rows[|rows| - 1];
      assert rows == init + [last];
      ActiveRowsCounts(init);
    }
  }

  /** `SELECT … WHERE status = 'active' ORDER BY last_check_at ASC`. */
  function SortByCheck(rows: seq<AccountRow>): (r: seq<AccountRow>)
    ensures SortedByCheck(r) && multiset(r) == multiset(rows)
    decreases |rows|
  {
    if rows == [] then []
    else
      var init := rows[..|rows| - 1];
      assert rows == init + [rows[|rows| - 1]];
      Insert(SortByCheck(init), rows[|rows| - 1])
  }

  /** The active rows, and only those, ordered by last check with never-checked rows first. */
  lemma AllActiveExactly(rows: seq<AccountRow>)
    ensures SortedByCheck(SortByCheck(ActiveRows(rows)))
    ensures forall a :: a in SortByCheck(ActiveRows(rows)) <==> a in rows && a.status == Active
    ensures forall a ::
      multiset(SortByCheck(ActiveRows(rows)))[a] == (if a.status == Active then multiset(rows)[a] else 0)
  {
    ActiveRowsCounts(rows);
    var s := SortByCheck(ActiveRows(rows));
    forall a
      ensures a in s <==> a in ActiveRows(rows)
    {
      assert a in s <==> a in multiset(s);
      assert a in ActiveRows(rows) <==> a in multiset(ActiveRows(rows));
    }
  }

  /**
   * Soft delete and a global UNIQUE username: once a username has a row, stopped or not, no
   * owner can watch it again; the insert returns `null` and the table is unchanged.
   */
  lemma StoppedNeverRewatched(rows: seq<AccountRow>, seqNo: int, username: string, owner: int, now: int, other: int, later: int)
    requires FindAccount(rows, username).Some?
    ensures var stopped := StopAccounts(rows, username, now);
      var r := InsertAccount(stopped, seqNo, username, other, later);
      r.result.Failure? && r.rows == stopped
      && forall a :: a in ActiveOf(stopped, other) ==> a.username != username
  {
    var stopped := StopAccounts(rows, username, now);
    var k := FindAccount(rows, username).value;
    assert stopped[k].username == username;
    assert FindAccount(stopped, username).Some?;
    forall a | a in ActiveOf(stopped, other)
      ensures a.username != username
    {
      var i :| 0 <= i < |stopped| && stopped[i] == a;
    }
  }

  /** Stopping deletes nothing: the row stays, with its owner, now inactive. */
  lemma StopKeepsRows(rows: seq<AccountRow>, username: string, now: int)
    requires UniqueUsernames(rows)
    ensures UniqueUsernames(StopAccounts(rows, username, now))
    ensures forall i :: 0 <= i < |rows| ==>
      StopAccounts(rows, username, now)[i].id == rows[i].id
      && StopAccounts(rows, username, now)[i].owner == rows[i].owner
  {
  }

  /** A new account adds one row to its owner's active list and none to anyone else's. */
  lemma InsertAccountCounts(rows: seq<AccountRow>, seqNo: int, username: string, owner: int, other: int, now: int)
    requires AccountIdsBelow(rows, seqNo) && FindAccount(rows, username).None?
    ensures var r := InsertAccount(rows, seqNo, username, owner, now);
      |ActiveOf(r.rows, owner)| == |ActiveOf(rows, owner)| + 1
      && (other != owner ==> ActiveOf(r.rows, other) == ActiveOf(rows, other))
  {
    var r := InsertAccount(rows, seqNo, username, owner, now);
    assert r.rows[..|r.rows| - 1] == rows;
  }

  // ---------------------------------------------------------------------------
  // telegram_users

  function FindUser(rows: seq<UserRow>, telegramId: int): (k: Option<nat>)
    ensures k.Some? ==> k.value < |rows| && rows[k.value].telegramId == telegramId
    ensures k.None? <==> forall j :: 0 <= j < |rows| ==> rows[j].telegramId != telegramId
    decreases |rows|
  {
    if rows == [] then None
    else if rows[|rows| - 1].telegramId == telegramId then Some(|rows| - 1)
    else FindUser(rows[..|rows| - 1], telegramId)
  }

  /** `INSERT … ON CONFLICT(telegram_id) DO UPDATE SET username, first_name, last_name`. */
  function UpsertUser(rows: seq<UserRow>, u: UserInput, now: int): (r: seq<UserRow>)
    ensures FindUser(rows, u.telegramId).None? ==>
      r == rows + [UserRow(u.telegramId, u.username, u.firstName, u.lastName, 0, None, now)]
    ensures FindUser(rows, u.telegramId).Some? ==>
      var k := FindUser(rows, u.telegramId).value;
      r == rows[k := rows[k].(username := u.username, firstName := u.firstName, lastName := u.lastName)]
  {
    match FindUser(rows, u.telegramId)
    case None => rows + [UserRow(u.telegramId, u.username, u.firstName, u.lastName, 0, None, now)]
    case Some(k) => rows[k := rows[k].(username := u.username, firstName := u.firstName, lastName := u.lastName)]
  }

  /** `UPDATE … SET requests_count = requests_count + 1, last_request_at = … WHERE telegram_id = ?`. */
  function IncrementRequests(rows: seq<UserRow>, telegramId: int, now: int): (r: seq<UserRow>)
    ensures FindUser(rows, telegramId).None? ==> r == rows
    ensures FindUser(rows, telegramId).Some? ==>
      var k := FindUser(rows, telegramId).value;
      r == rows[k := rows[k].(requestsCount := rows[k].requestsCount + 1, lastRequestAt := Some(now))]
  {
    match FindUser(rows, telegramId)
    case None => rows
    case Some(k) => rows[k := rows[k].(requestsCount := rows[k].requestsCount + 1, lastRequestAt := Some(now))]
  }

  /** The upsert replaces only the name fields: the counter and the join date survive. */
  lemma UpsertPreservesCounts(rows: seq<UserRow>, u: UserInput, now: int)
    requires UniqueTelegramIds(rows)
    ensures UniqueTelegramIds(UpsertUser(rows, u, now))
    ensures |UpsertUser(rows, u, now)| >= |rows|
    ensures forall i :: 0 <= i < |rows| ==>
      UpsertUser(rows, u, now)[i].requestsCount == rows[i].requestsCount
      && UpsertUser(rows, u, now)[i].joinedAt == rows[i].joinedAt
      && UpsertUser(rows, u, now)[i].telegramId == rows[i].telegramId
    ensures FindUser(UpsertUser(rows, u, now), u.telegramId).Some?
  {
    var r := UpsertUser(rows, u, now);
    if FindUser(rows, u.telegramId).None? {
      assert r[|rows|].telegramId == u.telegramId;
    } else {
      assert r[FindUser(rows, u.telegramId).value].telegramId == u.telegramId;
    }
  }

  /** Counting a request after an upsert adds exactly one to that user's counter. */
  lemma UpsertThenIncrement(rows: seq<UserRow>, u: UserInput, now: int, later: int)
    requires UniqueTelegramIds(rows)
    ensures var before := UpsertUser(rows, u, now);
      var after := IncrementRequests(before, u.telegramId, later);
      FindUser(before, u.telegramId).Some?
      && (var k := FindUser(before, u.telegramId).value; after[k].requestsCount == before[k].requestsCount + 1)
  {
    UpsertPreservesCounts(rows, u, now);
  }

  // ---------------------------------------------------------------------------
  // getUserStats

  /** The usernames of every row of the owner, whatever its status: the `IN (SELECT …)` set. */
  function OwnerUsernames(rows: seq<AccountRow>, owner: int): (names: set<string>)
    ensures forall n :: n in names <==> exists i :: 0 <= i < |rows| && rows[i].owner == owner && rows[i].username == n
    decreases |rows|
  {
    if rows == [] then {}
    else
      var init := OwnerUsernames(rows[..|rows| - 1], owner);
      var last := rows[|rows| - 1];
      assert forall i :: 0 <= i < |rows| - 1 ==> rows[..|rows| - 1][i] == rows[i];
      init + (if last.owner == owner then {last.username} else {})
  }

  /** The author of the video row with this id, if there is one. */
  function AuthorOf(videos: seq<VideoRow>, id: int): Option<string>
    decreases |videos|
  {
    if videos == [] then None
    else if videos[|videos| - 1].id == id then Some(videos[|videos| - 1].author)
    else AuthorOf(videos[..|videos| - 1], id)
  }

  /**
   * `COUNT(*)` of `videos JOIN verifications ON v.id = vr.video_id WHERE v.author IN names`:
   * row ids being unique, each verification joins at most one video.
   */
  function JoinCount(videos: seq<VideoRow>, verifications: seq<VerificationRow>, names: set<string>): (n: nat)
    ensures n <= |verifications|
    ensures names == {} ==> n == 0
    decreases |verifications|
  {
    if verifications == [] then 0
    else
      JoinCount(videos, verifications[..|verifications| - 1], names)
      + (if Joins(videos, verifications[|verifications| - 1], names) then 1 else 0)
  }

  /** The positions of the verifications whose video row has an author in `names`. */
  function JoinedPositions(videos: seq<VideoRow>, verifications: seq<VerificationRow>, names: set<string>): set<int>
  {
    set k | 0 <= k < |verifications| && Joins(videos, verifications[k], names)
  }

  predicate Joins(videos: seq<VideoRow>, v: VerificationRow, names: set<string>) {
    AuthorOf(videos, v.videoRowId).Some? && AuthorOf(videos, v.videoRowId).value in names
  }

  /** `COUNT(*)` of the join is the number of verifications that join a video of those authors. */
  lemma {:induction false} JoinCountCounts(videos: seq<VideoRow>, verifications: seq<VerificationRow>, names: set<string>)
    ensures JoinCount(videos, verifications, names) == |JoinedPositions(videos, verifications, names)|
    decreases |verifications|
  {
    if verifications != [] {
      var n := |verifications| - 1;
      var init := verifications[..n];
      JoinCountCounts(videos, init, names);
      var before := JoinedPositions(videos, init, names);
      var after := JoinedPositions(videos, verifications, names);
      assert forall k :: 0 <= k < n ==> init[k] == verifications[k];
      if Joins(videos, verifications[n], names) {
        assert after == before + {n};
        assert n !in before;
      } else {
        assert after == before;
      }
    }
  }

  // ---------------------------------------------------------------------------
  // The database

  class Database {
    var videos: seq<VideoRow>
    var videoSeq: int
    var verifications: seq<VerificationRow>
    var verificationSeq: int
    var accounts: seq<AccountRow>
    var accountSeq: int
    var users: seq<UserRow>

    predicate Valid()
      reads this
    {
      && 0 <= videoSeq && 0 <= verificationSeq && 0 <= accountSeq
      && UniqueVideoIds(videos) && VideoIdsBelow(videos, videoSeq)
      && VerificationIdsBelow(verifications, verificationSeq)
      && UniqueUsernames(accounts) && AccountIdsBelow(accounts, accountSeq)
      && UniqueTelegramIds(users)
    }

    constructor()
      ensures Valid()
      ensures videos == [] && verifications == [] && accounts == [] && users == []
    {
      videos, verifications, accounts, users := [], [], [], [];
      videoSeq, verificationSeq, accountSeq := 0, 0, 0;
    }

    method CreateVideo(v: VideoInput, now: int) returns (r: Result<int>)
      requires Valid()
      modifies this
      ensures Valid()
      ensures var ins := InsertVideo(old(videos), old(videoSeq), v, now);
        videos == ins.rows && videoSeq == ins.seqNo && r == ins.result
      ensures verifications == old(verifications) && accounts == old(accounts) && users == old(users)
      ensures verificationSeq == old(verificationSeq) && accountSeq == old(accountSeq)
    {
      InsertVideoKeepsInvariant(videos, videoSeq, v, now);
      var ins := InsertVideo(videos, videoSeq, v, now);
      videos, videoSeq, r := ins.rows, ins.seqNo, ins.result;
    }

    method CreateVerification(v: VerificationInput, now: int) returns (r: Result<int>)
      requires Valid()
      modifies this
      ensures Valid()
      ensures var ins := InsertVerification(old(videos), old(verifications), old(verificationSeq), v, now);
        verifications == ins.rows && verificationSeq == ins.seqNo && r == ins.result
      ensures videos == old(videos) && accounts == old(accounts) && users == old(users)
      ensures videoSeq == old(videoSeq) && accountSeq == old(accountSeq)
    {
      var ins := InsertVerification(videos, verifications, verificationSeq, v, now);
      verifications, verificationSeq, r := ins.rows, ins.seqNo, ins.result;
    }

    function GetLatestVerification(videoRowId: int): (r: Option<VerificationRow>)
      reads this
      ensures r == LatestVerification(verifications, videoRowId)
    {
      LatestVerification(verifications, videoRowId)
    }

    method CreateMonitoredAccount(username: string, owner: int, now: int) returns (r: Option<int>)
      requires Valid()
      modifies this
      ensures Valid()
      ensures var ins := InsertAccount(old(accounts), old(accountSeq), username, owner, now);
        accounts == ins.rows && accountSeq == ins.seqNo && (r.Some? <==> ins.result.Success?)
        && (r.Some? ==> r.value == ins.result.value)
      ensures videos == old(videos) && verifications == old(verifications) && users == old(users)
      ensures videoSeq == old(videoSeq) && verificationSeq == old(verificationSeq)
    {
      var ins := InsertAccount(accounts, accountSeq, username, owner, now);
      accounts, accountSeq := ins.rows, ins.seqNo;
      r := if ins.result.Success? then Some(ins.result.value) else None;
    }

    method StopMonitoredAccount(username: string, now: int)
      requires Valid()
      modifies this
      ensures Valid()
      ensures accounts == StopAccounts(old(accounts), username, now)
      ensures videos == old(videos) && verifications == old(verifications) && users == old(users)
      ensures videoSeq == old(videoSeq) && verificationSeq == old(verificationSeq) && accountSeq == old(accountSeq)
    {
      StopKeepsRows(accounts, username, now);
      accounts := StopAccounts(accounts, username, now);
    }

    method UpdateMonitoredAccountCheck(username: string, lastVideoId: string, now: int)
      requires Valid()
      modifies this
      ensures Valid()
      ensures accounts == CheckAccounts(old(accounts), username, lastVideoId, now)
      ensures videos == old(videos) && verifications == old(verifications) && users == old(users)
      ensures videoSeq == old(videoSeq) && verificationSeq == old(verificationSeq) && accountSeq == old(accountSeq)
    {
      accounts := CheckAccounts(accounts, username, lastVideoId, now);
    }

    function GetMonitoredAccountsByUser(owner: int): (r: seq<AccountRow>)
      reads this
      ensures forall a :: a in r <==> a in accounts && a.owner == owner && a.status == Active
      ensures forall a ::
        multiset(r)[a] == (if a.owner == owner && a.status == Active then multiset(accounts)[a] else 0)
      ensures Valid() ==> IdsDecreasing(r)
    {
      ActiveOfCounts(accounts, owner);
      if Valid() then
        ActiveOfNewestFirst(accounts, owner);
        ActiveOf(accounts, owner)
      else ActiveOf(accounts, owner)
    }

    function GetAllActiveMonitoredAccounts(): (r: seq<AccountRow>)
      reads this
      ensures SortedByCheck(r)
      ensures forall a :: a in r <==> a in accounts && a.status == Active
      ensures multiset(r) == multiset(ActiveRows(accounts))
      ensures forall a :: multiset(r)[a] == (if a.status == Active then multiset(accounts)[a] else 0)
    {
      AllActiveExactly(accounts);
      SortByCheck(ActiveRows(accounts))
    }

    method CreateOrUpdateTelegramUser(u: UserInput, now: int)
      requires Valid()
      modifies this
      ensures Valid()
      ensures users == UpsertUser(old(users), u, now)
      ensures videos == old(videos) && verifications == old(verifications) && accounts == old(accounts)
      ensures videoSeq == old(videoSeq) && verificationSeq == old(verificationSeq) && accountSeq == old(accountSeq)
    {
      UpsertPreservesCounts(users, u, now);
      users := UpsertUser(users, u, now);
    }

    method IncrementUserRequests(telegramId: int, now: int)
      requires Valid()
      modifies this
      ensures Valid()
      ensures users == IncrementRequests(old(users), telegramId, now)
      ensures videos == old(videos) && verifications == old(verifications) && accounts == old(accounts)
      ensures videoSeq == old(videoSeq) && verificationSeq == old(verificationSeq) && accountSeq == old(accountSeq)
    {
      users := IncrementRequests(users, telegramId, now);
    }

    /**
     * `getUserStats`: an unknown user has 0 requests and no join date; the account count is
     * the owner's active rows; verified videos count joined rows over every account of the
     * owner, stopped ones included.
     */
    function GetUserStats(telegramId: int): (s: UserStats)
      reads this
      ensures FindUser(users, telegramId).None? ==> s.requests == 0 && s.joinedAt == None
      ensures FindUser(users, telegramId).Some? ==>
        s.requests == users[FindUser(users, telegramId).value].requestsCount
        && s.joinedAt == Some(users[FindUser(users, telegramId).value].joinedAt)
      ensures s.monitoredAccounts == |ActiveOf(accounts, telegramId)|
      ensures s.verifiedVideos == JoinCount(videos, verifications, OwnerUsernames(accounts, telegramId))
      ensures OwnerUsernames(accounts, telegramId) == {} ==> s.verifiedVideos == 0 && s.monitoredAccounts == 0
    {
      var user := FindUser(users, telegramId);
      NoNamesNoActive(accounts, telegramId);
      UserStats(
        requests := if user.Some? then users[user.value].requestsCount else 0,
        monitoredAccounts := |ActiveOf(accounts, telegramId)|,
        verifiedVideos := JoinCount(videos, verifications, OwnerUsernames(accounts, telegramId)),
        joinedAt := if user.Some? then Some(users[user.value].joinedAt) else None)
    }
  }

  /** An owner with no account rows has no active ones. */
  lemma NoNamesNoActive(rows: seq<AccountRow>, owner: int)
    ensures OwnerUsernames(rows, owner) == {} ==> ActiveOf(rows, owner) == []
  {
  }
}
