/**
 * The Vera fact-checking client: the pre-flight checks and media list of `checkVideo`, the
 * verdict classifier `parseVeraResponse` with its tool scan, and `extractTextContent`.
 *
 * The classifier reads the analysis text already lower-cased: `toLowerCase` over full Unicode
 * is a parameter. Every keyword test is plain substring containment, so `'incorrect'` holds
 * `'correct'` and `'contenu'` holds `'conte'`.
 */
module Vera {
  import opened Wrappers
  import opened Text
  import opened Records

  // ---------------------------------------------------------------------------
  // The classifier, as a specification: nine rules tried in order

  datatype Verdict = VERIFIED | MOSTLY_TRUE | MIXED | MOSTLY_FALSE | FALSE

  datatype FlagKind = Warning | Danger
  datatype Flag = Flag(kind: FlagKind, message: string)

  /** What one branch of the cascade sets. */
  datatype Outcome = Outcome(score: int, verdict: Verdict, summary: string, flag: Option<Flag>)

  datatype Rule =
    | Incapable    // Vera says it cannot analyse the media
    | Incomplete   // a partial, still-streaming answer
    | AiGenerated
    | Confirmed    // a positive confirmation without a negated one
    | FalseClaim
    | Misleading
    | Authentic
    | Probable
    | Narrative

  const Cascade: seq<Rule> :=
    [Incapable, Incomplete, AiGenerated, Confirmed, FalseClaim, Misleading, Authentic, Probable, Narrative]

  /** The condition of each branch, on the lower-cased text. */
  predicate Fires(r: Rule, lower: string) {
    match r
    case Incapable =>
      Contains(lower, "ne suis pas capable") || Contains(lower, "cannot analyze")
      || Contains(lower, "ne peux pas analyser") || Contains(lower, "unable to")
      || (Contains(lower, "pas capable") && Contains(lower, "analyser"))
    case Incomplete =>
      Contains(lower, "un moment") || Contains(lower, "veuillez patienter")
      || (Contains(lower, "je vais") && Utf16Length(lower) < 200)
    case AiGenerated =>
      Contains(lower, "généré par ia") || Contains(lower, "generated by ai")
      || Contains(lower, "synthétique détecté") || Contains(lower, "synthetic detected")
      || Contains(lower, "contenu artificiel") || Contains(lower, "ai-generated")
    case Confirmed =>
      (Contains(lower, "confirme") || Contains(lower, "véridique") || Contains(lower, "exact")
       || Contains(lower, "correct"))
      && !Contains(lower, "ne confirme pas") && !Contains(lower, "pas confirmé")
    case FalseClaim =>
      Contains(lower, "faux") || Contains(lower, "false") || Contains(lower, "désinformation")
      || Contains(lower, "mensonge")
    case Misleading =>
      Contains(lower, "trompeur") || Contains(lower, "misleading") || Contains(lower, "manipulé")
    case Authentic =>
      Contains(lower, "vérifié") || Contains(lower, "verified") || Contains(lower, "authentique")
    case Probable =>
      Contains(lower, "probable") || Contains(lower, "likely") || Contains(lower, "plutôt vrai")
    case Narrative =>
      Contains(lower, "histoire") || Contains(lower, "conte") || Contains(lower, "fable")
      || Contains(lower, "fiction")
  }

  const VerifiedSummary: string := "Contenu vérifié et authentique"
  const IncapableSummary: string := "⚠️ Vera ne peut pas analyser ce contenu multimédia"
  const IncapableNote: string := "Analyse multimédia non disponible"
  const IncompleteSummary: string := "⏳ Analyse incomplète - réessayez dans quelques instants"
  const IncompleteNote: string := "Réponse partielle reçue"
  const AiSummary: string := "Contenu généré par IA détecté"
  const AiNote: string := "Contenu IA détecté"
  const FalseSummary: string := "Contenu identifié comme faux ou désinformation"
  const FalseNote: string := "Désinformation détectée"
  const MisleadingSummary: string := "Contenu potentiellement trompeur ou manipulé"
  const MisleadingNote: string := "Contenu potentiellement trompeur"
  const ProbableSummary: string := "Contenu probablement véridique"
  const NarrativeSummary: string := "Contenu narratif/divertissement - non factuel"

  function RuleOutcome(r: Rule): Outcome {
    match r
    case Incapable => Outcome(0, MIXED, IncapableSummary, Some(Flag(Warning, IncapableNote)))
    case Incomplete => Outcome(50, MIXED, IncompleteSummary, Some(Flag(Warning, IncompleteNote)))
    case AiGenerated => Outcome(35, MOSTLY_FALSE, AiSummary, Some(Flag(Warning, AiNote)))
    case Confirmed => Outcome(85, VERIFIED, VerifiedSummary, None)
    case FalseClaim => Outcome(25, FALSE, FalseSummary, Some(Flag(Danger, FalseNote)))
    case Misleading => Outcome(40, MOSTLY_FALSE, MisleadingSummary, Some(Flag(Warning, MisleadingNote)))
    case Authentic => Outcome(85, VERIFIED, VerifiedSummary, None)
    case Probable => Outcome(65, MOSTLY_TRUE, ProbableSummary, None)
    case Narrative => Outcome(50, MIXED, NarrativeSummary, None)
  }

  /** The initial values, kept when no branch fires. */
  const Default: Outcome := Outcome(70, MIXED, "Analyse en cours - résultat non concluant", None)

  /** The first rule of the list that fires. */
  function FirstFiring(rules: seq<Rule>, lower: string): (r: Option<Rule>)
    ensures r.Some? ==> r.value in rules && Fires(r.value, lower)
    decreases |rules|
  {
    if rules == [] then None
    else if Fires(rules[0], lower) then Some(rules[0])
    else FirstFiring(rules[1..], lower)
  }

  /** The values the cascade leaves, given the rule that fired, if any. */
  function OutcomeOf(fired: Option<Rule>): Outcome {
    match fired
    case Some(r) => RuleOutcome(r)
    case None => Default
  }

  function Classify(lower: string): Outcome {
    OutcomeOf(FirstFiring(Cascade, lower))
  }

  function FlagsOf(o: Outcome): seq<Flag> {
    if o.flag.Some? then [o.flag.value] else []
  }

  // ---------------------------------------------------------------------------
  // The tool scan

  const ToolDeepfake: string := "Détection deepfake"
  const ToolSynthetic: string := "Détection contenu IA"
  const ToolForensic: string := "Analyse forensique"
  const ToolAudio: string := "Analyse audio"

  /** Four independent tests, in a fixed order, each adding its label once. */
  function ToolsUsed(lower: string): seq<string> {
    (if Contains(lower, "deepfake") then [ToolDeepfake] else [])
    + (if Contains(lower, "synthetic") || Contains(lower, "synthétique") then [ToolSynthetic] else [])
    + (if Contains(lower, "forgery") || Contains(lower, "manipulation") then [ToolForensic] else [])
    + (if Contains(lower, "speech") || Contains(lower, "voix") then [ToolAudio] else [])
  }

  // ---------------------------------------------------------------------------
  // parseVeraResponse

  /**
   * A property of the answer object: missing, a string, or a truthy non-string value, which
   * carries the text `JSON.stringify` gives it.
   */
  datatype Field = Missing | Str(text: string) | Structured(json: string)

  predicate Truthy(f: Field) {
    match f
    case Missing => false
    case Str(t) => t != ""
    case Structured(_) => true
  }

  /** The object handed to `parseVeraResponse`, with `JSON.stringify` of itself. */
  datatype VeraData = VeraData(
    response: Field, answer: Field, message: Field, conversationId: string,
    sources: Option<seq<string>>, selfJson: string)

  /** `response || answer || message || veraData`, then `JSON.stringify` unless a string. */
  function AnalysisText(d: VeraData): (t: string)
    ensures d.response.Str? && d.response.text != "" ==> t == d.response.text
  {
    var f := if Truthy(d.response) then d.response
             else if Truthy(d.answer) then d.answer
             else if Truthy(d.message) then d.message
             else Structured(d.selfJson);
    if f.Str? then f.text else f.json
  }

  datatype VeraResult = VeraResult(
    requestId: string,
    status: string,
    score: int,
    verdict: Verdict,
    summary: string,
    flags: seq<Flag>,
    sources: seq<string>,
    explanation: string,
    toolsUsed: seq<string>,
    confidence: real)

  /** What `parseVeraResponse` returns, given `toLowerCase` and `Date.now()`. */
  function Parse(d: VeraData, toLower: string -> string, nowMillis: int): VeraResult {
    var text := AnalysisText(d);
    var o := Classify(toLower(text));
    VeraResult(
      requestId := OrElse(d.conversationId, "vera_" + IntToString(nowMillis)),
      status := "completed",
      score := o.score,
      verdict := o.verdict,
      summary := o.summary,
      flags := FlagsOf(o),
      sources := d.sources.GetOr([]),
      explanation := text,
      toolsUsed := ToolsUsed(toLower(text)),
      confidence := 0.8)
  }

  /** `parseVeraResponse`: the analysis text, the cascade, the tool scan, the result object. */
  method ParseVeraResponse(d: VeraData, toLower: string -> string, nowMillis: int)
    returns (r: VeraResult)
    ensures r == Parse(d, toLower, nowMillis)
    ensures r.status == "completed" && r.explanation == AnalysisText(d)
    ensures d.sources.None? ==> r.sources == []
    ensures |r.flags| <= 1
  {
    var analysisText := AnalysisText(d);
    var lower := toLower(analysisText);
    var o := ClassifyText(lower);
    var flags: seq<Flag> := [];
    if o.flag.Some? {
      flags := flags + [o.flag.value];
    }
    var toolsUsed := ScanTools(lower);
    r := VeraResult(
      requestId := OrElse(d.conversationId, "vera_" + IntToString(nowMillis)),
      status := "completed",
      score := o.score,
      verdict := o.verdict,
      summary := o.summary,
      flags := flags,
      sources := d.sources.GetOr([]),
      explanation := analysisText,
      toolsUsed := toolsUsed,
      confidence := 0.8);
    FlagRules(lower);
  }

  /**
   * The cascade as written: the defaults, then an if/else chain whose first true condition
   * sets the score, verdict, summary and flag of its row.
   */
  method ClassifyText(lower: string) returns (o: Outcome)
    ensures o == Classify(lower)
  {
    o := Default;
    CascadeUnfold(lower);
    if Fires(Incapable, lower) {
      o := RuleOutcome(Incapable);
    } else if Fires(Incomplete, lower) {
      o := RuleOutcome(Incomplete);
    } else if Fires(AiGenerated, lower) {
      o := RuleOutcome(AiGenerated);
    } else if Fires(Confirmed, lower) {
      o := RuleOutcome(Confirmed);
    } else if Fires(FalseClaim, lower) {
      o := RuleOutcome(FalseClaim);
    } else if Fires(Misleading, lower) {
      o := RuleOutcome(Misleading);
    } else if Fires(Authentic, lower) {
      o := RuleOutcome(Authentic);
    } else if Fires(Probable, lower) {
      o := RuleOutcome(Probable);
    } else if Fires(Narrative, lower) {
      o := RuleOutcome(Narrative);
    }
  }

  /** The four tests that push tool labels. */
  method ScanTools(lower: string) returns (toolsUsed: seq<string>)
    ensures toolsUsed == ToolsUsed(lower)
  {
    toolsUsed := [];
    if Contains(lower, "deepfake") {
      toolsUsed := toolsUsed + [ToolDeepfake];
    }
    if Contains(lower, "synthetic") || Contains(lower, "synthétique") {
      toolsUsed := toolsUsed + [ToolSynthetic];
    }
    if Contains(lower, "forgery") || Contains(lower, "manipulation") {
      toolsUsed := toolsUsed + [ToolForensic];
    }
    if Contains(lower, "speech") || Contains(lower, "voix") {
      toolsUsed := toolsUsed + [ToolAudio];
    }
  }

  // ---------------------------------------------------------------------------
  // Properties of the classifier

  /** The first rule that fires decides, whatever later rules would say. */
  lemma {:induction false} FirstFiringAt(rules: seq<Rule>, lower: string, k: nat)
    requires k < |rules| && Fires(rules[k], lower)
    requires forall j :: 0 <= j < k ==> !Fires(rules[j], lower)
    ensures FirstFiring(rules, lower) == Some(rules[k])
    decreases k
  {
    if k > 0 {
      assert !Fires(rules[0], lower);
      FirstFiringAt(rules[1..], lower, k - 1);
    }
  }

  lemma {:induction false} FirstFiringNone(rules: seq<Rule>, lower: string)
    ensures FirstFiring(rules, lower).None? <==> forall j :: 0 <= j < |rules| ==> !Fires(rules[j], lower)
    decreases |rules|
  {
    if rules != [] {
      FirstFiringNone(rules[1..], lower);
      assert forall j :: 1 <= j < |rules| ==> rules[j] == rules[1..][j - 1];
    }
  }

  /** The cascade tried one rule at a time, as the if/else chain of the source does. */
  lemma CascadeUnfold(lower: string)
    ensures FirstFiring(Cascade, lower) ==
      if Fires(Incapable, lower) then Some(Incapable)
      else if Fires(Incomplete, lower) then Some(Incomplete)
      else if Fires(AiGenerated, lower) then Some(AiGenerated)
      else if Fires(Confirmed, lower) then Some(Confirmed)
      else if Fires(FalseClaim, lower) then Some(FalseClaim)
      else if Fires(Misleading, lower) then Some(Misleading)
      else if Fires(Authentic, lower) then Some(Authentic)
      else if Fires(Probable, lower) then Some(Probable)
      else if Fires(Narrative, lower) then Some(Narrative)
      else None
  {
    CascadeTail(lower);
    FirstFiringStep(lower, 3);
    FirstFiringStep(lower, 2);
    FirstFiringStep(lower, 1);
    FirstFiringStep(lower, 0);
    assert Cascade[0..] == Cascade;
  }

  /** The last five branches, from `faux` on. */
  lemma CascadeTail(lower: string)
    ensures FirstFiring(Cascade[4..], lower) ==
      if Fires(FalseClaim, lower) then Some(FalseClaim)
      else if Fires(Misleading, lower) then Some(Misleading)
      else if Fires(Authentic, lower) then Some(Authentic)
      else if Fires(Probable, lower) then Some(Probable)
      else if Fires(Narrative, lower) then Some(Narrative)
      else None
  {
    assert FirstFiring(Cascade[9..], lower) == None;
    FirstFiringStep(lower, 8);
    FirstFiringStep(lower, 7);
    FirstFiringStep(lower, 6);
    FirstFiringStep(lower, 5);
    FirstFiringStep(lower, 4);
  }

  lemma FirstFiringStep(lower: string, k: nat)
    requires k < |Cascade|
    ensures FirstFiring(Cascade[k..], lower) ==
      if Fires(Cascade[k], lower) then Some(Cascade[k]) else FirstFiring(Cascade[k + 1..], lower)
  {
    assert Cascade[k..][1..] == Cascade[k + 1..];
  }

  /** Priority: the outcome is that of the first branch whose condition holds. */
  lemma Priority(lower: string, k: nat)
    requires k < |Cascade| && Fires(Cascade[k], lower)
    requires forall j :: 0 <= j < k ==> !Fires(Cascade[j], lower)
    ensures Classify(lower) == RuleOutcome(Cascade[k])
  {
    FirstFiringAt(Cascade, lower, k);
  }

  /** The defaults survive exactly when no branch fires. */
  lemma DefaultExactly(lower: string)
    ensures Classify(lower) == Default <==> forall j :: 0 <= j < |Cascade| ==> !Fires(Cascade[j], lower)
    ensures Classify(lower).score == 70 <==> Classify(lower) == Default
  {
    FirstFiringNone(Cascade, lower);
    Tables(FirstFiring(Cascade, lower));
    assert Classify(lower) == Default <==> FirstFiring(Cascade, lower).None?;
  }

  /** The score table: the scores used, and the verdict each score goes with. */
  predicate ScoreTable(o: Outcome) {
    && o.score in {0, 25, 35, 40, 50, 65, 70, 85}
    && (o.verdict == VERIFIED <==> o.score == 85)
    && (o.verdict == MOSTLY_TRUE <==> o.score == 65)
    && (o.verdict == FALSE <==> o.score == 25)
    && (o.verdict == MOSTLY_FALSE <==> o.score in {35, 40})
    && (o.verdict == MIXED <==> o.score in {0, 50, 70})
  }

  /** The flag table: at most one flag, a danger flag exactly for FALSE, none for the positive verdicts. */
  predicate FlagTable(o: Outcome) {
    && |FlagsOf(o)| <= 1
    && ((|FlagsOf(o)| == 1 && FlagsOf(o)[0].kind == Danger) <==> o.verdict == FALSE)
    && (o.verdict in {VERIFIED, MOSTLY_TRUE} ==> FlagsOf(o) == [])
  }

  lemma Tables(fired: Option<Rule>)
    ensures ScoreTable(OutcomeOf(fired)) && FlagTable(OutcomeOf(fired))
    ensures OutcomeOf(fired).score == 70 <==> fired.None?
    ensures fired.None? || fired == Some(Narrative) ==> FlagsOf(OutcomeOf(fired)) == []
  {
    match fired
    case None =>
    case Some(r) => RuleTables(r);
  }

  lemma RuleTables(r: Rule)
    ensures ScoreTable(RuleOutcome(r)) && FlagTable(RuleOutcome(r))
    ensures RuleOutcome(r).score != 70
    ensures r == Narrative ==> FlagsOf(RuleOutcome(r)) == []
  {
    match r
    case Incapable =>
    case Incomplete =>
    case AiGenerated =>
    case Confirmed =>
    case FalseClaim =>
    case Misleading =>
    case Authentic =>
    case Probable =>
    case Narrative =>
  }

  /** Scores and verdicts come from the fixed table, and each score fixes its verdict. */
  lemma ScoreVerdict(lower: string)
    ensures var o := Classify(lower);
      && o.score in {0, 25, 35, 40, 50, 65, 70, 85}
      && (o.verdict == VERIFIED <==> o.score == 85)
      && (o.verdict == MOSTLY_TRUE <==> o.score == 65)
      && (o.verdict == FALSE <==> o.score == 25)
      && (o.verdict == MOSTLY_FALSE <==> o.score in {35, 40})
      && (o.verdict == MIXED <==> o.score in {0, 50, 70})
  {
    Tables(FirstFiring(Cascade, lower));
  }

  /** At most one flag; it is a danger flag exactly for the FALSE verdict, scored 25. */
  lemma FlagRules(lower: string)
    ensures var o := Classify(lower);
      && |FlagsOf(o)| <= 1
      && ((|FlagsOf(o)| == 1 && FlagsOf(o)[0].kind == Danger) <==> o.verdict == FALSE)
      && ((|FlagsOf(o)| == 1 && FlagsOf(o)[0].kind == Danger) <==> o.score == 25)
      && (o.verdict in {VERIFIED, MOSTLY_TRUE} ==> FlagsOf(o) == [])
      && (o == Default ==> FlagsOf(o) == [])
    ensures FirstFiring(Cascade, lower) == Some(Narrative) ==> FlagsOf(Classify(lower)) == []
  {
    Tables(FirstFiring(Cascade, lower));
  }

  /** "Cannot analyse" wins over every other keyword. */
  lemma IncapableDominates(lower: string)
    requires Fires(Incapable, lower)
    ensures Classify(lower) == Outcome(0, MIXED, IncapableSummary, Some(Flag(Warning, IncapableNote)))
  {
    Priority(lower, 0);
  }

  /**
   * The confirmation branch is taken exactly when its keywords occur without a negated
   * confirmation and none of the three earlier branches fires.
   */
  lemma ConfirmedExactly(lower: string)
    ensures FirstFiring(Cascade, lower) == Some(Confirmed) <==>
      !Fires(Incapable, lower) && !Fires(Incomplete, lower) && !Fires(AiGenerated, lower)
      && (Contains(lower, "confirme") || Contains(lower, "véridique") || Contains(lower, "exact")
          || Contains(lower, "correct"))
      && !Contains(lower, "ne confirme pas") && !Contains(lower, "pas confirmé")
  {
  }

  /** Once taken, the confirmation branch hides every later keyword, `faux` included. */
  lemma ConfirmedBeforeFalse(lower: string)
    requires FirstFiring(Cascade, lower) == Some(Confirmed)
    ensures Classify(lower) == Outcome(85, VERIFIED, VerifiedSummary, None)
  {
  }

  /** `'incorrect'` holds `'correct'`, so it reads as a positive confirmation. */
  lemma IncorrectConfirms(lower: string)
    requires Contains(lower, "incorrect")
    requires !Fires(Incapable, lower) && !Fires(Incomplete, lower) && !Fires(AiGenerated, lower)
    requires !Contains(lower, "ne confirme pas") && !Contains(lower, "pas confirmé")
    ensures Classify(lower) == Outcome(85, VERIFIED, VerifiedSummary, None)
  {
    assert StartsAt("incorrect", "correct", 2);
    ContainsAt("incorrect", "correct", 2);
    ContainsTrans(lower, "incorrect", "correct");
    Priority(lower, 3);
  }

  /** `'contenu'` holds `'conte'`: a text reaching the narrative test with that word is "narrative". */
  lemma ContenuIsNarrative(lower: string)
    requires Contains(lower, "contenu")
    requires forall j :: 0 <= j < 8 ==> !Fires(Cascade[j], lower)
    ensures Classify(lower) == Outcome(50, MIXED, NarrativeSummary, None)
  {
    assert StartsAt("contenu", "conte", 0);
    ContainsAt("contenu", "conte", 0);
    ContainsTrans(lower, "contenu", "conte");
    Priority(lower, 8);
  }

  /** A text shorter than every keyword (the shortest have four letters) keeps the defaults. */
  lemma ShortTextDefault(lower: string)
    requires |lower| < 4
    ensures Classify(lower) == Default
  {
    forall j | 0 <= j < |Cascade|
      ensures !Fires(Cascade[j], lower)
    {
      ShortNeverFires(Cascade[j], lower);
    }
    FirstFiringNone(Cascade, lower);
  }

  lemma ShortNeverFires(r: Rule, lower: string)
    requires |lower| < 4
    ensures !Fires(r, lower)
  {
    match r
    case Incapable =>
    case Incomplete =>
    case AiGenerated =>
    case Confirmed =>
    case FalseClaim =>
    case Misleading =>
    case Authentic =>
    case Probable =>
    case Narrative =>
  }

  // ---------------------------------------------------------------------------
  // Properties of the tool scan

  lemma ToolsProperties(lower: string)
    ensures |ToolsUsed(lower)| <= 4
    ensures ToolDeepfake in ToolsUsed(lower) <==> Contains(lower, "deepfake")
    ensures ToolSynthetic in ToolsUsed(lower) <==> Contains(lower, "synthetic") || Contains(lower, "synthétique")
    ensures ToolForensic in ToolsUsed(lower) <==> Contains(lower, "forgery") || Contains(lower, "manipulation")
    ensures ToolAudio in ToolsUsed(lower) <==> Contains(lower, "speech") || Contains(lower, "voix")
    ensures forall i, j :: 0 <= i < j < |ToolsUsed(lower)| ==>
      ToolRank(ToolsUsed(lower)[i]) < ToolRank(ToolsUsed(lower)[j])
  {
    ToolLabels();
    ToolsMembers(lower);
    ToolsOrdered(lower);
  }

  lemma ToolLabels()
    ensures ToolRank(ToolDeepfake) == 0 && ToolRank(ToolSynthetic) == 1
    ensures ToolRank(ToolForensic) == 2 && ToolRank(ToolAudio) == 3
  {
  }

  lemma ToolsMembers(lower: string)
    requires ToolRank(ToolDeepfake) == 0 && ToolRank(ToolSynthetic) == 1
    requires ToolRank(ToolForensic) == 2 && ToolRank(ToolAudio) == 3
    ensures |ToolsUsed(lower)| <= 4
    ensures ToolDeepfake in ToolsUsed(lower) <==> Contains(lower, "deepfake")
    ensures ToolSynthetic in ToolsUsed(lower) <==> Contains(lower, "synthetic") || Contains(lower, "synthétique")
    ensures ToolForensic in ToolsUsed(lower) <==> Contains(lower, "forgery") || Contains(lower, "manipulation")
    ensures ToolAudio in ToolsUsed(lower) <==> Contains(lower, "speech") || Contains(lower, "voix")
  {
  }

  lemma ToolsOrdered(lower: string)
    requires ToolRank(ToolDeepfake) == 0 && ToolRank(ToolSynthetic) == 1
    requires ToolRank(ToolForensic) == 2 && ToolRank(ToolAudio) == 3
    ensures forall i, j :: 0 <= i < j < |ToolsUsed(lower)| ==>
      ToolRank(ToolsUsed(lower)[i]) < ToolRank(ToolsUsed(lower)[j])
  {
  }

  /** The position of a label in the fixed order of the scan. */
  function ToolRank(tool: string): int {
    if tool == ToolDeepfake then 0
    else if tool == ToolSynthetic then 1
    else if tool == ToolForensic then 2
    else 3
  }

  /** Two answers with the same analysis text get the same result except for `request_id` and `sources`. */
  lemma TextDetermines(d1: VeraData, d2: VeraData, toLower: string -> string, n1: int, n2: int)
    requires AnalysisText(d1) == AnalysisText(d2)
    ensures var r1, r2 := Parse(d1, toLower, n1), Parse(d2, toLower, n2);
      r1.(requestId := "", sources := []) == r2.(requestId := "", sources := [])
  {
  }

  // ---------------------------------------------------------------------------
  // checkVideo

  const MissingKey: string :=
    "VERA_API_KEY non configurée. Veuillez configurer une clé API Vera dans le fichier .env"
  const InvalidResponse: string := "Réponse Vera API invalide"
  const PlaceholderKey: string := "your_vera_api_key_here"

  /** `!apiKey || apiKey === 'your_vera_api_key_here'`. */
  predicate KeyMissing(apiKey: string) {
    apiKey == "" || apiKey == PlaceholderKey
  }

  function PlatformName(platform: string): (name: string)
    ensures platform == "tiktok" ==> name == "TikTok"
    ensures platform == "instagram" ==> name == "Instagram"
    ensures platform == "youtube" ==> name == "YouTube"
    ensures platform !in {"tiktok", "instagram", "youtube"} ==> name == "Unknown"
  {
    if platform == "tiktok" then "TikTok"
    else if platform == "instagram" then "Instagram"
    else if platform == "youtube" then "YouTube"
    else "Unknown"
  }

  /** `platformName.toLowerCase()` on the four names `PlatformName` gives. */
  function SourceName(platform: string): (source: string)
    ensures platform in {"tiktok", "instagram", "youtube"} ==> source == platform
    ensures platform !in {"tiktok", "instagram", "youtube"} ==> source == "unknown"
  {
    match PlatformName(platform)
    case "TikTok" => "tiktok"
    case "Instagram" => "instagram"
    case "YouTube" => "youtube"
    case _ => "unknown"
  }

  datatype MediaKind = VideoMedia | ImageMedia
  datatype Media = Media(kind: MediaKind, url: string)

  /** The video entry: `download_url || video_url`, when one is set. */
  function VideoEntry(c: Content): seq<Media> {
    var v := OrElse(c.DownloadUrl(), c.VideoUrl());
    if v != "" then [Media(VideoMedia, v)] else []
  }

  /** One image entry per truthy URL, in order. */
  function ImageEntries(urls: seq<string>): seq<Media>
    decreases |urls|
  {
    if urls == [] then []
    else ImageEntries(urls[..|urls| - 1])
         + (if urls[|urls| - 1] != "" then [Media(ImageMedia, urls[|urls| - 1])] else [])
  }

  /** The media list: the video first, then the images, or the thumbnail when there are none. */
  function MediaUrls(c: Content): seq<Media> {
    VideoEntry(c)
    + (if |c.Images()| > 0 then ImageEntries(c.Images())
       else if c.ThumbnailUrl() != "" then [Media(ImageMedia, c.ThumbnailUrl())]
       else [])
  }

  /** The `push` calls of `checkVideo`, the images added inside `forEach`. */
  method BuildMediaUrls(c: Content) returns (media: seq<Media>)
    ensures media == MediaUrls(c)
  {
    media := [];
    if c.DownloadUrl() != "" || c.VideoUrl() != "" {
      media := media + [Media(VideoMedia, OrElse(c.DownloadUrl(), c.VideoUrl()))];
    }
    var images := c.Images();
    if |images| > 0 {
      media := AppendImages(media, images);
    } else if c.ThumbnailUrl() != "" {
      media := media + [Media(ImageMedia, c.ThumbnailUrl())];
    }
  }

  /** `images.forEach(url => { if (url) mediaUrls.push(...) })`. */
  method AppendImages(media: seq<Media>, images: seq<string>) returns (m: seq<Media>)
    ensures m == media + ImageEntries(images)
  {
    m := media;
    var i := 0;
    while i < |images|
      invariant 0 <= i <= |images|
      invariant m == media + ImageEntries(images[..i])
    {
      assert images[..i + 1][..i] == images[..i];
      if images[i] != "" {
        m := m + [Media(ImageMedia, images[i])];
      }
      i := i + 1;
    }
    assert images[..|images|] == images;
  }

  /** The image entries are exactly the truthy URLs, kept in order. */
  lemma {:induction false} ImageEntriesExact(urls: seq<string>)
    ensures forall k :: 0 <= k < |ImageEntries(urls)| ==>
      ImageEntries(urls)[k].kind == ImageMedia && ImageEntries(urls)[k].url in urls
      && ImageEntries(urls)[k].url != ""
    ensures forall u :: u in urls && u != "" ==> Media(ImageMedia, u) in ImageEntries(urls)
    ensures |ImageEntries(urls)| <= |urls|
    decreases |urls|
  {
    if urls != [] {
      var init := urls[..|urls| - 1];
      ImageEntriesExact(init);
      assert urls == init + [urls[|urls| - 1]];
    }
  }

  /** The tail after the optional video entry holds image entries only. */
  function ImagePart(c: Content): seq<Media> {
    if |c.Images()| > 0 then ImageEntries(c.Images())
    else if c.ThumbnailUrl() != "" then [Media(ImageMedia, c.ThumbnailUrl())]
    else []
  }

  lemma ImagePartShape(c: Content)
    ensures forall k :: 0 <= k < |ImagePart(c)| ==> ImagePart(c)[k].kind == ImageMedia && ImagePart(c)[k].url != ""
    ensures |c.Images()| > 0 ==> forall k :: 0 <= k < |ImagePart(c)| ==> ImagePart(c)[k].url in c.Images()
    ensures forall u :: u in c.Images() && u != "" ==> Media(ImageMedia, u) in ImagePart(c)
  {
    ImageEntriesExact(c.Images());
  }

  /**
   * At most one video entry, and it comes first; every URL is non-empty; the images are the
   * truthy entries of `images`; the thumbnail is used only when `images` is empty.
   */
  lemma MediaUrlsShape(c: Content)
    ensures forall k :: 0 <= k < |MediaUrls(c)| ==> MediaUrls(c)[k].url != ""
    ensures forall k :: 0 < k < |MediaUrls(c)| ==> MediaUrls(c)[k].kind == ImageMedia
    ensures |MediaUrls(c)| > 0 && MediaUrls(c)[0].kind == VideoMedia <==> c.DownloadUrl() != "" || c.VideoUrl() != ""
    ensures |c.Images()| > 0 ==>
      forall k :: 0 <= k < |MediaUrls(c)| && MediaUrls(c)[k].kind == ImageMedia ==> MediaUrls(c)[k].url in c.Images()
    ensures forall u :: u in c.Images() && u != "" ==> Media(ImageMedia, u) in MediaUrls(c)
    ensures |c.Images()| == 0 ==>
      MediaUrls(c) == VideoEntry(c) + (if c.ThumbnailUrl() != "" then [Media(ImageMedia, c.ThumbnailUrl())] else [])
  {
    ImagePartShape(c);
    var v, rest := VideoEntry(c), ImagePart(c);
    assert MediaUrls(c) == v + rest;
    VideoThenImages(v, rest, c.Images());
  }

  /** A video part of at most one entry followed by image entries drawn from `images`. */
  lemma VideoThenImages(v: seq<Media>, rest: seq<Media>, images: seq<string>)
    requires |v| <= 1 && forall k :: 0 <= k < |v| ==> v[k].kind == VideoMedia && v[k].url != ""
    requires forall k :: 0 <= k < |rest| ==> rest[k].kind == ImageMedia && rest[k].url != ""
    ensures forall k :: 0 <= k < |v + rest| ==> (v + rest)[k].url != ""
    ensures forall k :: 0 < k < |v + rest| ==> (v + rest)[k].kind == ImageMedia
    ensures |v + rest| > 0 && (v + rest)[0].kind == VideoMedia <==> |v| == 1
    ensures (forall k :: 0 <= k < |rest| ==> rest[k].url in images) ==>
      forall k :: 0 <= k < |v + rest| && (v + rest)[k].kind == ImageMedia ==> (v + rest)[k].url in images
    ensures forall m :: m in rest ==> m in v + rest
  {
    forall k | 0 <= k < |v + rest| && k >= |v|
      ensures (v + rest)[k] == rest[k - |v|]
    {
    }
  }

  /** The body of the `POST /chat` request, without the free-text prompt. */
  datatype Payload = Payload(userId: string, source: string, contentId: string, author: string, media: seq<Media>)

  /** `video_id || post_id || shortcode`. */
  function ContentId(c: Content): string {
    OrElse(OrElse(c.VideoId(), c.PostId()), c.Shortcode())
  }

  function PayloadFor(c: Content, platform: string, nowMillis: int): Payload {
    Payload(SourceName(platform) + "_bot_" + IntToString(nowMillis), SourceName(platform), ContentId(c),
            c.Author(), MediaUrls(c))
  }

  /** The answer object built from the body: `{ response: fullResponse }`. */
  function AnswerOf(body: Field): VeraData {
    var full := match body
      case Str(t) => t
      case Structured(j) => j
      case Missing => "";
    VeraData(Str(full), Missing, Missing, "", None, "{\"response\":\"\"}")
  }

  /** The result `checkVideo` settles with; the content only shapes the request. */
  function CheckOutcome(apiKey: string, call: Call<Field>, toLower: string -> string, parseMillis: int)
    : (r: Result<VeraResult>)
    ensures KeyMissing(apiKey) ==> r == Failure(MissingKey)
    ensures r.Success? ==> call.Returned? && Truthy(call.body)
    ensures r.Success? ==> r.value.status == "completed" && |r.value.flags| <= 1
    ensures r.Success? ==> r.value.requestId == "vera_" + IntToString(parseMillis) && r.value.sources == []
  {
    if KeyMissing(apiKey) then Failure(MissingKey)
    else match call
      case Threw(_, message) => Failure(message)
      case Returned(body) =>
        if !Truthy(body) then Failure(InvalidResponse)
        else
          FlagRules(toLower(AnalysisText(AnswerOf(body))));
          Success(Parse(AnswerOf(body), toLower, parseMillis))
  }

  /**
   * `checkVideo(contentData, platform)`: the request it sends, if any, and its result. The
   * response body, or the error the call ends with, is `call`; errors are rethrown unchanged.
   */
  method CheckVideo(
    apiKey: string, c: Content, platform: string, call: Call<Field>,
    toLower: string -> string, requestMillis: int, parseMillis: int)
    returns (request: Option<Payload>, result: Result<VeraResult>)
    ensures KeyMissing(apiKey) ==> request == None && result == Failure(MissingKey)
    ensures !KeyMissing(apiKey) ==> request == Some(PayloadFor(c, platform, requestMillis))
    ensures !KeyMissing(apiKey) && call.Threw? ==> result == Failure(call.message)
    ensures !KeyMissing(apiKey) && call.Returned? && !Truthy(call.body) ==> result == Failure(InvalidResponse)
    ensures !KeyMissing(apiKey) && call.Returned? && Truthy(call.body) ==>
      result == Success(Parse(AnswerOf(call.body), toLower, parseMillis))
    ensures result.Success? ==>
      result.value.requestId == "vera_" + IntToString(parseMillis) && result.value.sources == []
    ensures result == CheckOutcome(apiKey, call, toLower, parseMillis)
  {
    if KeyMissing(apiKey) {
      return None, Failure(MissingKey);
    }
    var media := BuildMediaUrls(c);
    var source := SourceName(platform);
    request := Some(Payload(source + "_bot_" + IntToString(requestMillis), source, ContentId(c), c.Author(), media));
    match call {
      case Threw(_, message) =>
        result := Failure(message);
      case Returned(body) =>
        if !Truthy(body) {
          result := Failure(InvalidResponse);
        } else {
          var analysis := ParseVeraResponse(AnswerOf(body), toLower, parseMillis);
          result := Success(analysis);
        }
    }
  }

  /** A string body is analysed verbatim. */
  lemma StringBodyVerbatim(body: Field, toLower: string -> string, n: int)
    requires body.Str? && body.text != ""
    ensures Parse(AnswerOf(body), toLower, n).explanation == body.text
    ensures Parse(AnswerOf(body), toLower, n).status == "completed"
  {
  }

  // ---------------------------------------------------------------------------
  // extractTextContent

  /** The parts pushed: the title, the description, and the joined hashtags, each when present. */
  function TextParts(title: string, description: string, hashtags: seq<string>): seq<string> {
    (if title != "" then [title] else [])
    + (if description != "" then [description] else [])
    + (if |hashtags| > 0 then ["Hashtags: " + Join(hashtags, ", ")] else [])
  }

  method ExtractTextContent(v: Content) returns (text: string)
    ensures text == Join(TextParts(v.Title(), v.Description(), v.Hashtags()), "\n\n")
  {
    var parts: seq<string> := [];
    if v.Title() != "" {
      parts := parts + [v.Title()];
    }
    if v.Description() != "" {
      parts := parts + [v.Description()];
    }
    if |v.Hashtags()| > 0 {
      parts := parts + ["Hashtags: " + Join(v.Hashtags(), ", ")];
    }
    assert parts == TextParts(v.Title(), v.Description(), v.Hashtags());
    text := Join(parts, "\n\n");
  }

  /** The text is empty exactly when the three fields are; a lone title is the whole text. */
  lemma TextContentCases(title: string, description: string, hashtags: seq<string>)
    ensures Join(TextParts(title, description, hashtags), "\n\n") == ""
      <==> title == "" && description == "" && hashtags == []
    ensures description == "" && hashtags == [] ==> Join(TextParts(title, description, hashtags), "\n\n") == title
    ensures title != "" && description != "" && hashtags == [] ==>
      Join(TextParts(title, description, hashtags), "\n\n") == title + "\n\n" + description
  {
    var parts := TextParts(title, description, hashtags);
    if parts != [] {
      JoinNonEmpty(parts, "\n\n");
    }
  }

  lemma JoinNonEmpty(parts: seq<string>, sep: string)
    requires parts != [] && parts[0] != ""
    ensures Join(parts, sep) != ""
  {
    if |parts| > 1 {
      assert |Join(parts, sep)| >= |parts[0]|;
    }
  }
}
