/**
 * Hand-written matchers for the regular expressions the services use to recognise URLs and
 * to pull ids, hashtags and mentions out of text.
 *
 * Every such expression has the shape `(?:l1|l2|...)body`: a choice of literal leads tried in
 * order, followed by a body that ends in a repeated character class. A match reports what that
 * last repetition consumed, which is group 1 in the capturing expressions. Searching is
 * leftmost-first, as `String.prototype.match` without the `g` flag does, and repetition is
 * greedy.
 */
module Patterns {
  import opened Wrappers
  import opened Text

  // ---------------------------------------------------------------------------
  // Character classes

  datatype CharClass =
    | Digit         // \d
    | Alnum         // [A-Za-z0-9]
    | UrlId         // [A-Za-z0-9_-]
    | NotSlash      // [^/]
    | WordDotDash   // [\w.-]
    | Word          // \w
    | WordLatin     // [\wÀ-ſ]
    | WordLatinDot  // [\wÀ-ſ.]

  predicate InClass(cls: CharClass, c: char) {
    match cls
    case Digit => IsDigit(c)
    case Alnum => IsAlnum(c)
    case UrlId => IsAlnum(c) || c == '_' || c == '-'
    case NotSlash => c != '/'
    case WordDotDash => IsWordChar(c) || c == '.' || c == '-'
    case Word => IsWordChar(c)
    case WordLatin => IsWordChar(c) || IsLatinExtended(c)
    case WordLatinDot => IsWordChar(c) || IsLatinExtended(c) || c == '.'
  }

  predicate AllIn(s: string, cls: CharClass) {
    forall k :: 0 <= k < |s| ==> InClass(cls, s[k])
  }

  /** Length of the greedy run of `cls` characters starting at `j`. */
  function RunLength(s: string, j: nat, cls: CharClass): (n: nat)
    requires j <= |s|
    ensures j + n <= |s| && AllIn(s[j..j + n], cls)
    ensures j + n == |s| || !InClass(cls, s[j + n])
    decreases |s| - j
  {
    if j < |s| && InClass(cls, s[j]) then
      var k := RunLength(s, j + 1, cls);
      assert s[j..j + 1 + k] == [s[j]] + s[j + 1..j + 1 + k];
      1 + k
    else 0
  }

  /** A run is maximal: the greedy run equals the length of any all-in-class text up to a stop. */
  lemma {:induction false} RunLengthOf(s: string, j: nat, n: nat, cls: CharClass)
    requires j + n <= |s| && AllIn(s[j..j + n], cls)
    requires j + n == |s| || !InClass(cls, s[j + n])
    ensures RunLength(s, j, cls) == n
    decreases n
  {
    if n > 0 {
      assert InClass(cls, s[j..j + n][0]);
      assert s[j + 1..j + n] == s[j..j + n][1..];
      RunLengthOf(s, j + 1, n - 1, cls);
    }
  }

  // ---------------------------------------------------------------------------
  // Patterns

  datatype Body =
    | Run(cls: CharClass)                                // ([cls]+)
    | Fixed(cls: CharClass, width: nat)                  // ([cls]{width})
    | Lazy(sep: string, cls: CharClass)                  // .*?sep([cls]+)
    | Segment(first: CharClass, sep: string, cls: CharClass)  // [first]+sep[cls]+

  datatype Pattern = Pattern(leads: seq<string>, body: Body)

  /**
   * `.*?sep([cls]+)` from position `j`: the fewest characters other than line terminators,
   * then `sep`, then a non-empty greedy run.
   */
  function LazyFrom(s: string, j: nat, sep: string, cls: CharClass): Option<string>
    requires j <= |s|
    decreases |s| - j
  {
    if StartsAt(s, sep, j) && RunLength(s, j + |sep|, cls) > 0 then
      Some(s[j + |sep|..j + |sep| + RunLength(s, j + |sep|, cls)])
    else if j < |s| && !IsLineTerminator(s[j]) then LazyFrom(s, j + 1, sep, cls)
    else None
  }

  /** What the body matches from position `j`, once a lead has been consumed. */
  function BodyAt(b: Body, s: string, j: nat): Option<string>
    requires j <= |s|
  {
    match b
    case Run(cls) =>
      var n := RunLength(s, j, cls);
      if n > 0 then Some(s[j..j + n]) else None
    case Fixed(cls, w) =>
      if j + w <= |s| && AllIn(s[j..j + w], cls) then Some(s[j..j + w]) else None
    case Lazy(sep, cls) => LazyFrom(s, j, sep, cls)
    case Segment(first, sep, cls) => SegmentAt(first, sep, cls, s, j)
  }

  /**
   * `[first]+sep([cls]+)` from position `j`. `sep` cannot begin inside the greedy `[first]+`
   * run (see SegmentNoBacktrack), so the only split that can succeed is the maximal one.
   */
  function SegmentAt(first: CharClass, sep: string, cls: CharClass, s: string, j: nat): (r: Option<string>)
    requires j <= |s|
    ensures r.Some? ==> SepRunAt(s, j + RunLength(s, j, first), sep, cls)
    ensures r.Some? ==> var m := j + RunLength(s, j, first) + |sep|;
      m <= |s| && r.value == s[m..m + RunLength(s, m, cls)]
  {
    var n := RunLength(s, j, first);
    if n > 0 && StartsAt(s, sep, j + n) && RunLength(s, j + n + |sep|, cls) > 0 then
      Some(s[j + n + |sep|..j + n + |sep| + RunLength(s, j + n + |sep|, cls)])
    else None
  }

  /** The match anchored at `i`: the first lead, in order, after which the body matches. */
  function AltAt(leads: seq<string>, b: Body, s: string, i: nat): Option<string>
    requires i <= |s|
    decreases |leads|
  {
    if leads == [] then None
    else if StartsAt(s, leads[0], i) && BodyAt(b, s, i + |leads[0]|).Some? then
      BodyAt(b, s, i + |leads[0]|)
    else AltAt(leads[1..], b, s, i)
  }

  function MatchAt(p: Pattern, s: string, i: nat): Option<string>
    requires i <= |s|
  {
    AltAt(p.leads, p.body, s, i)
  }

  function FindFrom(p: Pattern, s: string, i: nat): Option<string>
    requires i <= |s|
    decreases |s| - i
  {
    if MatchAt(p, s, i).Some? then MatchAt(p, s, i)
    else if i == |s| then None
    else FindFrom(p, s, i + 1)
  }

  /** `s.match(p)?.[1]`: the leftmost match. */
  function Find(p: Pattern, s: string): Option<string> {
    FindFrom(p, s, 0)
  }

  /** `p.test(s)`. */
  predicate Matches(p: Pattern, s: string) {
    Find(p, s).Some?
  }

  /** The capture of the first pattern in the list that matches at all. */
  function FirstMatch(ps: seq<Pattern>, s: string): Option<string>
    decreases |ps|
  {
    if ps == [] then None
    else if Find(ps[0], s).Some? then Find(ps[0], s)
    else FirstMatch(ps[1..], s)
  }

  /**
   * The loop the services run over their pattern lists: return the capture of the first
   * pattern that matches, or nothing once every pattern has failed.
   */
  method FirstCapture(ps: seq<Pattern>, s: string) returns (r: Option<string>)
    ensures r == FirstMatch(ps, s)
  {
    for k := 0 to |ps|
      invariant FirstMatch(ps, s) == FirstMatch(ps[k..], s)
    {
      assert ps[k..][1..] == ps[k + 1..];
      var m := Find(ps[k], s);
      if m.Some? {
        return m;
      }
    }
    return None;
  }

  // ---------------------------------------------------------------------------
  // Search and priority

  /** The search returns the match at the first position where one exists. */
  lemma {:induction false} FindFromLeftmost(p: Pattern, s: string, i: nat, k: nat)
    requires i <= k <= |s| && MatchAt(p, s, k).Some?
    requires forall j :: i <= j < k ==> MatchAt(p, s, j).None?
    ensures FindFrom(p, s, i) == MatchAt(p, s, k)
    decreases k - i
  {
    if i < k {
      FindFromLeftmost(p, s, i + 1, k);
    }
  }

  /** The search fails exactly when no position in range matches. */
  lemma {:induction false} FindFromNone(p: Pattern, s: string, i: nat)
    requires i <= |s|
    ensures FindFrom(p, s, i).None? <==> forall j :: i <= j <= |s| ==> MatchAt(p, s, j).None?
    decreases |s| - i
  {
    if i < |s| {
      FindFromNone(p, s, i + 1);
    }
  }

  /** What the search returns is the match at some position. */
  lemma {:induction false} FindFromSome(p: Pattern, s: string, i: nat)
    requires i <= |s| && FindFrom(p, s, i).Some?
    ensures exists j :: i <= j <= |s| && MatchAt(p, s, j) == FindFrom(p, s, i)
    decreases |s| - i
  {
    if MatchAt(p, s, i).None? {
      FindFromSome(p, s, i + 1);
    }
  }

  /** The first pattern that matches decides, whatever the later ones would give. */
  lemma {:induction false} FirstMatchPriority(ps: seq<Pattern>, s: string, k: nat)
    requires k < |ps| && Matches(ps[k], s)
    requires forall j :: 0 <= j < k ==> !Matches(ps[j], s)
    ensures FirstMatch(ps, s) == Find(ps[k], s)
    decreases k
  {
    if k > 0 {
      assert !Matches(ps[0], s);
      FirstMatchPriority(ps[1..], s, k - 1);
    }
  }

  /** No capture at all exactly when no pattern matches. */
  lemma {:induction false} FirstMatchNone(ps: seq<Pattern>, s: string)
    ensures FirstMatch(ps, s).None? <==> forall k :: 0 <= k < |ps| ==> !Matches(ps[k], s)
    decreases |ps|
  {
    if ps != [] {
      FirstMatchNone(ps[1..], s);
      assert forall k :: 1 <= k < |ps| ==> ps[k] == ps[1..][k - 1];
    }
  }

  /** The capture of a list is the capture of one of its patterns. */
  lemma {:induction false} FirstMatchFrom(ps: seq<Pattern>, s: string)
    requires FirstMatch(ps, s).Some?
    ensures exists k :: 0 <= k < |ps| && Find(ps[k], s) == FirstMatch(ps, s)
    decreases |ps|
  {
    if Find(ps[0], s).None? {
      FirstMatchFrom(ps[1..], s);
      var k :| 0 <= k < |ps[1..]| && Find(ps[1..][k], s) == FirstMatch(ps[1..], s);
      assert ps[1..][k] == ps[k + 1];
    }
  }

  // ---------------------------------------------------------------------------
  // Shape of what a match captures

  /** The capture of a body: its length and characters. */
  predicate Captures(b: Body, c: string) {
    match b
    case Fixed(cls, w) => |c| == w && AllIn(c, cls)
    case Run(cls) => |c| > 0 && AllIn(c, cls)
    case Lazy(_, cls) => |c| > 0 && AllIn(c, cls)
    case Segment(_, _, cls) => |c| > 0 && AllIn(c, cls)
  }

  lemma {:induction false} LazyFromShape(s: string, j: nat, sep: string, cls: CharClass)
    requires j <= |s| && LazyFrom(s, j, sep, cls).Some?
    ensures Captures(Lazy(sep, cls), LazyFrom(s, j, sep, cls).value)
    ensures Contains(s, LazyFrom(s, j, sep, cls).value)
    decreases |s| - j
  {
    if StartsAt(s, sep, j) && RunLength(s, j + |sep|, cls) > 0 {
      var n := RunLength(s, j + |sep|, cls);
      ContainsAt(s, s[j + |sep|..j + |sep| + n], j + |sep|);
    } else {
      LazyFromShape(s, j + 1, sep, cls);
    }
  }

  lemma BodyAtShape(b: Body, s: string, j: nat)
    requires j <= |s| && BodyAt(b, s, j).Some?
    ensures Captures(b, BodyAt(b, s, j).value)
    ensures Contains(s, BodyAt(b, s, j).value)
  {
    match b
    case Run(cls) =>
      ContainsAt(s, BodyAt(b, s, j).value, j);
    case Fixed(cls, w) =>
      ContainsAt(s, BodyAt(b, s, j).value, j);
    case Lazy(sep, cls) =>
      LazyFromShape(s, j, sep, cls);
    case Segment(first, sep, cls) =>
      SegmentAtShape(first, sep, cls, s, j);
  }

  lemma SegmentAtShape(first: CharClass, sep: string, cls: CharClass, s: string, j: nat)
    requires j <= |s| && SegmentAt(first, sep, cls, s, j).Some?
    ensures var c := SegmentAt(first, sep, cls, s, j).value; |c| > 0 && AllIn(c, cls) && Contains(s, c)
  {
    var m := j + RunLength(s, j, first) + |sep|;
    ContainsAt(s, SegmentAt(first, sep, cls, s, j).value, m);
  }

  lemma {:induction false} AltAtShape(leads: seq<string>, b: Body, s: string, i: nat)
    requires i <= |s| && AltAt(leads, b, s, i).Some?
    ensures Captures(b, AltAt(leads, b, s, i).value)
    ensures Contains(s, AltAt(leads, b, s, i).value)
    decreases |leads|
  {
    if StartsAt(s, leads[0], i) && BodyAt(b, s, i + |leads[0]|).Some? {
      BodyAtShape(b, s, i + |leads[0]|);
    } else {
      AltAtShape(leads[1..], b, s, i);
    }
  }

  /** Every capture has the shape of the pattern's body and is a piece of the input. */
  lemma FindShape(p: Pattern, s: string)
    requires Find(p, s).Some?
    ensures Captures(p.body, Find(p, s).value)
    ensures Contains(s, Find(p, s).value)
  {
    FindFromSome(p, s, 0);
    var j :| 0 <= j <= |s| && MatchAt(p, s, j) == Find(p, s);
    AltAtShape(p.leads, p.body, s, j);
  }

  /** Same for a list of patterns. */
  lemma FirstMatchShape(ps: seq<Pattern>, s: string)
    requires FirstMatch(ps, s).Some?
    ensures exists k :: 0 <= k < |ps| && Captures(ps[k].body, FirstMatch(ps, s).value)
    ensures Contains(s, FirstMatch(ps, s).value)
  {
    FirstMatchFrom(ps, s);
    var k :| 0 <= k < |ps| && Find(ps[k], s) == FirstMatch(ps, s);
    FindShape(ps[k], s);
  }

  /**
   * Greedy `[first]+sep` needs no backtracking when `sep` starts with a character outside
   * `first`: every shorter split point is followed by a `first` character, not by `sep`.
   */
  lemma SegmentNoBacktrack(s: string, j: nat, first: CharClass, sep: string, m: nat)
    requires j <= |s| && 0 < m < RunLength(s, j, first)
    requires |sep| > 0 && !InClass(first, sep[0])
    ensures !StartsAt(s, sep, j + m)
  {
    var n := RunLength(s, j, first);
    assert s[j..j + n][m] == s[j + m];
    assert InClass(first, s[j + m]);
  }

  // ---------------------------------------------------------------------------
  // Finding a lead

  /** A single-lead pattern can only match where its lead occurs. */
  lemma MatchNeedsLead(p: Pattern, s: string, i: nat)
    requires |p.leads| == 1 && i <= |s| && MatchAt(p, s, i).Some?
    ensures StartsAt(s, p.leads[0], i)
  {
    assert p.leads[1..] == [];
    assert AltAt(p.leads[1..], p.body, s, i) == None;
  }

  /** A pattern whose every lead includes `t` only matches texts that contain `t`. */
  lemma {:induction false} AltAtContains(leads: seq<string>, b: Body, s: string, i: nat, t: string)
    requires i <= |s| && AltAt(leads, b, s, i).Some?
    requires forall k :: 0 <= k < |leads| ==> Contains(leads[k], t)
    ensures Contains(s, t)
    decreases |leads|
  {
    if StartsAt(s, leads[0], i) && BodyAt(b, s, i + |leads[0]|).Some? {
      ContainsAt(s, leads[0], i);
      ContainsTrans(s, leads[0], t);
    } else {
      assert forall k :: 0 <= k < |leads[1..]| ==> leads[1..][k] == leads[k + 1];
      AltAtContains(leads[1..], b, s, i, t);
    }
  }

  lemma MatchesContains(p: Pattern, s: string, t: string)
    requires Matches(p, s)
    requires forall k :: 0 <= k < |p.leads| ==> Contains(p.leads[k], t)
    ensures Contains(s, t)
  {
    FindFromSome(p, s, 0);
    var j :| 0 <= j <= |s| && MatchAt(p, s, j) == Find(p, s);
    AltAtContains(p.leads, p.body, s, j, t);
  }

  /**
   * No occurrence of `lead` starts before `k` when its character at offset `m` is missing from
   * the first `k + m` characters of `s`.
   */
  lemma LeadAbsentBefore(s: string, lead: string, k: nat, m: nat)
    requires m < |lead| && k + m <= |s| && lead[m] !in s[..k + m]
    ensures forall j :: 0 <= j < k ==> !StartsAt(s, lead, j)
  {
    forall j | 0 <= j < k
      ensures !StartsAt(s, lead, j)
    {
      if j + |lead| <= |s| {
        assert s[j..j + |lead|][m] == s[..k + m][j + m];
      }
    }
  }

  /** A single-lead pattern matches where its lead is followed by a match of its body. */
  lemma SingleLead(p: Pattern, s: string, i: nat)
    requires |p.leads| == 1 && i <= |s|
    ensures MatchAt(p, s, i) ==
      if StartsAt(s, p.leads[0], i) then BodyAt(p.body, s, i + |p.leads[0]|) else None
  {
    assert p.leads[1..] == [];
    assert AltAt(p.leads[1..], p.body, s, i) == None;
  }

  /** A single-lead pattern does not match where its lead is absent. */
  lemma LeadNeeded(p: Pattern, s: string, i: nat)
    requires |p.leads| == 1 && i <= |s| && !StartsAt(s, p.leads[0], i)
    ensures MatchAt(p, s, i).None?
  {
    assert p.leads[1..] == [];
    assert AltAt(p.leads[1..], p.body, s, i) == None;
  }

  /** The search of a single-lead pattern returns the match at the first occurrence of its lead. */
  lemma FindAtFirstLead(p: Pattern, s: string, k: nat)
    requires |p.leads| == 1 && k <= |s| && MatchAt(p, s, k).Some?
    requires forall j :: 0 <= j < k ==> !StartsAt(s, p.leads[0], j)
    ensures Find(p, s) == MatchAt(p, s, k)
  {
    forall j | 0 <= j < k
      ensures MatchAt(p, s, j).None?
    {
      LeadNeeded(p, s, j);
    }
    FindFromLeftmost(p, s, 0, k);
  }

  /** A match at `i` starts with one of the leads. */
  lemma {:induction false} AltAtLead(leads: seq<string>, b: Body, s: string, i: nat)
    requires i <= |s| && AltAt(leads, b, s, i).Some?
    ensures exists l :: 0 <= l < |leads| && StartsAt(s, leads[l], i)
    decreases |leads|
  {
    if !(StartsAt(s, leads[0], i) && BodyAt(b, s, i + |leads[0]|).Some?) {
      AltAtLead(leads[1..], b, s, i);
      var l :| 0 <= l < |leads[1..]| && StartsAt(s, leads[1..][l], i);
      assert leads[1..][l] == leads[l + 1];
    }
  }

  /** A text a pattern matches contains one of its leads. */
  lemma MatchesLead(p: Pattern, s: string)
    requires Matches(p, s)
    ensures exists l :: 0 <= l < |p.leads| && Contains(s, p.leads[l])
  {
    FindFromSome(p, s, 0);
    var j :| 0 <= j <= |s| && MatchAt(p, s, j) == Find(p, s);
    AltAtLead(p.leads, p.body, s, j);
    var l :| 0 <= l < |p.leads| && StartsAt(s, p.leads[l], j);
    ContainsAt(s, p.leads[l], j);
  }

  /** No match where none of the leads occurs. */
  lemma {:induction false} NoLeadNoMatch(leads: seq<string>, b: Body, s: string, i: nat)
    requires i <= |s| && forall l :: 0 <= l < |leads| ==> !StartsAt(s, leads[l], i)
    ensures AltAt(leads, b, s, i).None?
    decreases |leads|
  {
    if leads != [] {
      assert forall l :: 0 <= l < |leads[1..]| ==> leads[1..][l] == leads[l + 1];
      NoLeadNoMatch(leads[1..], b, s, i);
    }
  }

  /** The search returns the match at `k` when no lead occurs earlier. */
  lemma FindAtFirstLeads(p: Pattern, s: string, k: nat)
    requires k <= |s| && MatchAt(p, s, k).Some?
    requires forall j, l :: 0 <= j < k && 0 <= l < |p.leads| ==> !StartsAt(s, p.leads[l], j)
    ensures Find(p, s) == MatchAt(p, s, k)
  {
    forall j | 0 <= j < k
      ensures MatchAt(p, s, j).None?
    {
      NoLeadNoMatch(p.leads, p.body, s, j);
    }
    FindFromLeftmost(p, s, 0, k);
  }

  /**
   * Splitting the text: no occurrence of `lead` starts before `k` in `a + rest` when its
   * character at offset `m` is missing from `a`.
   */
  lemma LeadAbsentIn(a: string, rest: string, lead: string, k: nat, m: nat)
    requires m < |lead| && k + m <= |a| && lead[m] !in a
    ensures forall j :: 0 <= j < k ==> !StartsAt(a + rest, lead, j)
  {
    var s := a + rest;
    forall j | 0 <= j < k
      ensures !StartsAt(s, lead, j)
    {
      if j + |lead| <= |s| {
        assert s[j..j + |lead|][m] == s[j + m] == a[j + m];
      }
    }
  }

  /** `sep` followed by a non-empty run of `cls` starts at `m`. */
  predicate SepRunAt(s: string, m: int, sep: string, cls: CharClass) {
    0 <= m && StartsAt(s, sep, m) && RunLength(s, m + |sep|, cls) > 0
  }

  /** Where `.*?sep([cls]+)` succeeds, `sep` and a run occur at or after the start. */
  lemma {:induction false} LazyFromWitness(s: string, j: nat, sep: string, cls: CharClass)
    requires j <= |s| && LazyFrom(s, j, sep, cls).Some?
    ensures exists m :: j <= m && SepRunAt(s, m, sep, cls)
    decreases |s| - j
  {
    if !SepRunAt(s, j, sep, cls) {
      LazyFromWitness(s, j + 1, sep, cls);
    }
  }

  lemma MatchesSomewhere(p: Pattern, s: string)
    requires Matches(p, s)
    ensures exists j :: 0 <= j <= |s| && MatchAt(p, s, j).Some?
  {
    FindFromSome(p, s, 0);
  }

  lemma LazyAfterLead(p: Pattern, s: string, j: nat)
    requires |p.leads| == 1 && p.body.Lazy? && j <= |s| && MatchAt(p, s, j).Some?
    ensures j + |p.leads[0]| <= |s| && LazyFrom(s, j + |p.leads[0]|, p.body.sep, p.body.cls).Some?
  {
    SingleLead(p, s, j);
  }

  /** A text that a single-lead lazy pattern matches holds its separator followed by a run. */
  lemma LazyMatchWitness(p: Pattern, s: string)
    requires |p.leads| == 1 && p.body.Lazy? && Matches(p, s)
    ensures exists m :: SepRunAt(s, m, p.body.sep, p.body.cls)
  {
    MatchesSomewhere(p, s);
    var j :| 0 <= j <= |s| && MatchAt(p, s, j).Some?;
    LazyAfterLead(p, s, j);
    LazyFromWitness(s, j + |p.leads[0]|, p.body.sep, p.body.cls);
  }

  /** A text that a single-lead segment pattern matches holds its separator followed by a run. */
  lemma SegmentMatchWitness(p: Pattern, s: string)
    requires |p.leads| == 1 && p.body.Segment? && Matches(p, s)
    ensures exists m :: SepRunAt(s, m, p.body.sep, p.body.cls)
  {
    MatchesSomewhere(p, s);
    var j :| 0 <= j <= |s| && MatchAt(p, s, j).Some?;
    SingleLead(p, s, j);
    assert SegmentAt(p.body.first, p.body.sep, p.body.cls, s, j + |p.leads[0]|).Some?;
  }

  // ---------------------------------------------------------------------------
  // Texts without the characters a body needs

  /** The body consumes at least one `cls` character. */
  predicate NeedsClass(b: Body, cls: CharClass) {
    match b
    case Run(c) => c == cls
    case Fixed(c, w) => c == cls && w > 0
    case Lazy(_, c) => c == cls
    case Segment(_, _, c) => c == cls
  }

  /** No character of `s` is in `cls`. */
  predicate Lacks(s: string, cls: CharClass) {
    forall c :: c in s ==> !InClass(cls, c)
  }

  lemma {:induction false} LazyFromLacks(s: string, j: nat, sep: string, cls: CharClass)
    requires j <= |s| && Lacks(s, cls)
    ensures LazyFrom(s, j, sep, cls).None?
    decreases |s| - j
  {
    if StartsAt(s, sep, j) && j + |sep| < |s| {
      assert s[j + |sep|] in s;
    }
    if j < |s| {
      LazyFromLacks(s, j + 1, sep, cls);
    }
  }

  lemma BodyAtLacks(b: Body, s: string, j: nat, cls: CharClass)
    requires j <= |s| && NeedsClass(b, cls) && Lacks(s, cls)
    ensures BodyAt(b, s, j).None?
  {
    match b
    case Run(c) =>
      if j < |s| {
        assert s[j] in s;
      }
    case Fixed(c, w) =>
      if j + w <= |s| {
        assert s[j..j + w][0] == s[j] && s[j] in s;
      }
    case Lazy(sep, c) =>
      LazyFromLacks(s, j, sep, cls);
    case Segment(first, sep, c) =>
      var n := RunLength(s, j, first);
      if j + n + |sep| < |s| {
        assert s[j + n + |sep|] in s;
      }
  }

  lemma {:induction false} AltAtLacks(leads: seq<string>, b: Body, s: string, i: nat, cls: CharClass)
    requires i <= |s| && NeedsClass(b, cls) && Lacks(s, cls)
    ensures AltAt(leads, b, s, i).None?
    decreases |leads|
  {
    if leads != [] {
      if i + |leads[0]| <= |s| {
        BodyAtLacks(b, s, i + |leads[0]|, cls);
      }
      AltAtLacks(leads[1..], b, s, i, cls);
    }
  }

  /** A pattern whose body needs a `cls` character never matches a text without one. */
  lemma FindLacks(p: Pattern, s: string, cls: CharClass)
    requires NeedsClass(p.body, cls) && Lacks(s, cls)
    ensures Find(p, s).None?
  {
    forall j | 0 <= j <= |s|
      ensures MatchAt(p, s, j).None?
    {
      AltAtLacks(p.leads, p.body, s, j, cls);
    }
    FindFromNone(p, s, 0);
  }

  // ---------------------------------------------------------------------------
  // Global scanning: `(s.match(/<marker>[cls]+/g) || []).map(t => t.substring(1))`

  /** The greedy runs of `cls` characters that follow each `marker`, left to right. */
  function Scan(s: string, marker: char, cls: CharClass): (tags: seq<string>)
    ensures forall k :: 0 <= k < |tags| ==> |tags[k]| > 0 && AllIn(tags[k], cls)
    decreases |s|
  {
    if s == [] then []
    else if s[0] == marker && RunLength(s, 1, cls) > 0 then
      var n := RunLength(s, 1, cls);
      [s[1..1 + n]] + Scan(s[1 + n..], marker, cls)
    else Scan(s[1..], marker, cls)
  }

  /** Text without the marker has no tags. */
  lemma {:induction false} ScanNoMarker(s: string, marker: char, cls: CharClass)
    requires marker !in s
    ensures Scan(s, marker, cls) == []
    decreases |s|
  {
    if s != [] {
      assert marker !in s[1..] by {
        forall k | 0 <= k < |s[1..]| ensures s[1..][k] != marker {
          assert s[1..][k] == s[k + 1];
        }
      }
      ScanNoMarker(s[1..], marker, cls);
    }
  }

  /** Tags written as `<marker>tag`, separated by one character outside `cls`. */
  function Render(tags: seq<string>, marker: char, gap: char): string
    decreases |tags|
  {
    if tags == [] then ""
    else if |tags| == 1 then [marker] + tags[0]
    else [marker] + tags[0] + [gap] + Render(tags[1..], marker, gap)
  }

  /** A marker followed by a whole run of `cls` characters yields that run as the next tag. */
  lemma ScanTag(t: string, tail: string, marker: char, cls: CharClass)
    requires |t| > 0 && AllIn(t, cls)
    requires tail == [] || !InClass(cls, tail[0])
    ensures Scan([marker] + t + tail, marker, cls) == [t] + Scan(tail, marker, cls)
  {
    var s := [marker] + t + tail;
    assert s[1..1 + |t|] == t;
    assert 1 + |t| == |s| || s[1 + |t|] == tail[0];
    RunLengthOf(s, 1, |t|, cls);
    assert s[1 + |t|..] == tail;
  }

  /** A character other than the marker is skipped. */
  lemma ScanSkip(c: char, rest: string, marker: char, cls: CharClass)
    requires c != marker
    ensures Scan([c] + rest, marker, cls) == Scan(rest, marker, cls)
  {
    assert ([c] + rest)[1..] == rest;
  }

  /** Rendered tags are read back in order. */
  lemma {:induction false} ScanRender(tags: seq<string>, marker: char, gap: char, cls: CharClass)
    requires forall k :: 0 <= k < |tags| ==> |tags[k]| > 0 && AllIn(tags[k], cls)
    requires !InClass(cls, gap) && gap != marker
    ensures Scan(Render(tags, marker, gap), marker, cls) == tags
    decreases |tags|
  {
    if |tags| == 1 {
      ScanTag(tags[0], [], marker, cls);
      assert [marker] + tags[0] + [] == [marker] + tags[0];
    } else if |tags| > 1 {
      var t := tags[0];
      var rest := Render(tags[1..], marker, gap);
      assert Render(tags, marker, gap) == [marker] + t + ([gap] + rest);
      ScanTag(t, [gap] + rest, marker, cls);
      ScanSkip(gap, rest, marker, cls);
      ScanRender(tags[1..], marker, gap, cls);
      assert [t] + tags[1..] == tags;
    }
  }
}
