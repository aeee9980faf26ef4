/**
 * The pre-event ("plan") survey rules: the forbidden-pattern list and its
 * case-insensitive substring test, the allowed categories, the length and
 * bucket constants, and the rule lines rendered into the generation prompt.
 */
module PreEventConfig {
  import opened Wrappers
  import opened Text

  /** Phrases that mark a question as post-event; matched case-insensitively as substrings. */
  const ForbiddenPatterns: seq<string> := [
    "how likely are you to recommend",
    "would you recommend",
    "net promoter",
    "how satisfied were you",
    "how satisfied are you with",
    "rate your satisfaction",
    "overall satisfaction",
    "what did you like most",
    "what did you like least",
    "what did you enjoy",
    "what could be improved",
    "what would you change",
    "what was the highlight",
    "what was your favorite",
    "what disappointed you",
    "how was your experience",
    "how would you rate the event",
    "did the event meet your expectations",
    "was the event worth"
  ]

  const AllowedCategories: seq<string> := [
    "expectations",
    "preferences",
    "registration",
    "accessibility",
    "lineup_interest",
    "pricing",
    "logistics",
    "marketing"
  ]

  const MinQuestions: nat := 10
  const MaxQuestions: nat := 25
  const MaxMustHaveGoals: nat := 3

  /** The priority buckets a goal can be placed in. */
  datatype Bucket = MustHave | Interested | NotImportant

  function BucketName(b: Bucket): string {
    match b
    case MustHave => "must_have"
    case Interested => "interested"
    case NotImportant => "not_important"
  }

  /** Questions to generate per goal in each bucket. */
  function BucketQuestionCount(b: Bucket): nat {
    match b
    case MustHave => 4
    case Interested => 2
    case NotImportant => 0
  }

  /** The length bounds returned by the constraints getter (the type mix is left out). */
  datatype SurveyConstraints = SurveyConstraints(minQuestions: nat, maxQuestions: nat)

  function GetSurveyConstraints(): (r: SurveyConstraints)
    ensures r.minQuestions <= r.maxQuestions
    ensures r.minQuestions == MinQuestions && r.maxQuestions == MaxQuestions
  {
    SurveyConstraints(MinQuestions, MaxQuestions)
  }

  /** Buckets are ordered by how many questions they ask for, the must-have bucket first. */
  lemma BucketCountsDecrease()
    ensures BucketQuestionCount(MustHave) > BucketQuestionCount(Interested) > BucketQuestionCount(NotImportant) == 0
    ensures BucketQuestionCount(MustHave) * MaxMustHaveGoals <= MaxQuestions
  {
  }

  /** `pattern.lower() in question_text.lower()`. */
  predicate Matches(text: string, pattern: string) {
    Contains(Lower(text), Lower(pattern))
  }

  /** Some pattern of the list matches the text. */
  predicate ForbiddenBy(text: string, patterns: seq<string>) {
    exists i :: 0 <= i < |patterns| && Matches(text, patterns[i])
  }

  /** The loop of `is_forbidden_question` over a pattern list: true at the first match. */
  function AnyMatch(text: string, patterns: seq<string>): bool
  {
    if |patterns| == 0 then false
    else if Matches(text, patterns[0]) then true
    else AnyMatch(text, patterns[1..])
  }

  lemma {:induction false} AnyMatchIffForbidden(text: string, patterns: seq<string>)
    ensures AnyMatch(text, patterns) <==> ForbiddenBy(text, patterns)
    decreases |patterns|
  {
    if |patterns| > 0 && !Matches(text, patterns[0]) {
      AnyMatchIffForbidden(text, patterns[1..]);
      if ForbiddenBy(text, patterns) {
        var i :| 0 <= i < |patterns| && Matches(text, patterns[i]);
        assert patterns[1..][i - 1] == patterns[i];
      }
      if ForbiddenBy(text, patterns[1..]) {
        var i :| 0 <= i < |patterns| - 1 && Matches(text, patterns[1..][i]);
        assert patterns[i + 1] == patterns[1..][i];
      }
    } else if |patterns| > 0 {
      assert Matches(text, patterns[0]);
    }
  }

  /** `is_forbidden_question`: the text contains some forbidden pattern, ignoring case. */
  function IsForbiddenQuestion(text: string): (r: bool)
    ensures r <==> ForbiddenBy(text, ForbiddenPatterns)
  {
    AnyMatchIffForbidden(text, ForbiddenPatterns);
    AnyMatch(text, ForbiddenPatterns)
  }

  /** Index of the first pattern (from `from` on) that matches the text. */
  function FirstMatchFrom(text: string, patterns: seq<string>, from: nat): (r: Option<nat>)
    requires from <= |patterns|
    ensures r.Some? ==> from <= r.value < |patterns| && Matches(text, patterns[r.value])
    ensures r.Some? ==> forall j :: from <= j < r.value ==> !Matches(text, patterns[j])
    ensures r.None? ==> forall j :: from <= j < |patterns| ==> !Matches(text, patterns[j])
    decreases |patterns| - from
  {
    if from == |patterns| then None
    else if Matches(text, patterns[from]) then Some(from)
    else FirstMatchFrom(text, patterns, from + 1)
  }

  const ForbiddenReason: string := "Question matches forbidden pattern for pre-event surveys"

  /** The result record of `validate_question_for_pre_event`. */
  datatype Validation = Validation(isValid: bool, reason: Option<string>, matchedPattern: Option<string>)

  /** Validation against an arbitrary pattern list. */
  function ValidateWith(text: string, patterns: seq<string>): (r: Validation)
    ensures !r.isValid <==> ForbiddenBy(text, patterns)
    ensures r.isValid ==> r.reason.None? && r.matchedPattern.None?
    ensures !r.isValid ==> r.reason == Some(ForbiddenReason)
    ensures !r.isValid ==> exists i :: 0 <= i < |patterns| && r.matchedPattern == Some(patterns[i])
                                       && Matches(text, patterns[i])
                                       && forall j :: 0 <= j < i ==> !Matches(text, patterns[j])
  {
    match FirstMatchFrom(text, patterns, 0)
    case None => Validation(true, None, None)
    case Some(i) => Validation(false, Some(ForbiddenReason), Some(patterns[i]))
  }

  /** `validate_question_for_pre_event`. */
  function ValidateQuestionForPreEvent(text: string): (r: Validation)
    ensures !r.isValid <==> ForbiddenBy(text, ForbiddenPatterns)
    ensures r.isValid ==> r.reason.None? && r.matchedPattern.None?
  {
    ValidateWith(text, ForbiddenPatterns)
  }

  /** The validator rejects exactly the texts the forbidden-question test flags. */
  lemma ValidateAgreesWithIsForbidden(text: string)
    ensures !ValidateQuestionForPreEvent(text).isValid <==> IsForbiddenQuestion(text)
  {
  }

  /** A text that literally contains a lowercase pattern is forbidden, whatever surrounds it. */
  lemma ContainingPatternIsForbidden(a: string, i: nat, b: string)
    requires i < |ForbiddenPatterns|
    requires AllLower(ForbiddenPatterns[i])
    ensures IsForbiddenQuestion(a + ForbiddenPatterns[i] + b)
  {
    var p := ForbiddenPatterns[i];
    LowerIsLower(p);
    LowerConcat(a + p, b);
    LowerConcat(a, p);
    ContainsMiddle(Lower(a), p, Lower(b));
    assert Matches(a + p + b, ForbiddenPatterns[i]);
  }

  /** One rendered forbidden-pattern line. */
  function PatternLine(pattern: string): string {
    "  - Contain: \"" + pattern + "\""
  }

  function PatternLines(patterns: seq<string>): (r: seq<string>)
    ensures |r| == |patterns|
    ensures forall i :: 0 <= i < |patterns| ==> r[i] == PatternLine(patterns[i])
  {
    if |patterns| == 0 then [] else [PatternLine(patterns[0])] + PatternLines(patterns[1..])
  }

  const PromptHeader: seq<string> := ["PRE-EVENT SURVEY RULES:", "", "FORBIDDEN - Do NOT generate questions that:"]

  /**
   * The lines of `format_config_for_prompt` up to the type-mix heading: the
   * header, the first ten forbidden patterns, the categories and the length
   * bounds.
   */
  function ConfigPromptLines(): (r: seq<string>)
    ensures |r| == |PromptHeader| + 10 + 9
    ensures r[..|PromptHeader|] == PromptHeader
    ensures forall i :: 0 <= i < 10 ==> r[|PromptHeader| + i] == PatternLine(ForbiddenPatterns[i])
    ensures r[|PromptHeader| + 10 + 2] == CategoriesLine()
  {
    var patterns := PatternLines(ForbiddenPatterns[..10]);
    var tail := ConstraintLines();
    ThreePartLayout(PromptHeader, patterns, tail);
    PromptHeader + patterns + tail
  }

  /** The allowed categories, comma-separated. */
  function CategoriesLine(): string {
    "  " + Join(", ", AllowedCategories)
  }

  /** The categories and the length bounds, ending at the type-mix heading. */
  function ConstraintLines(): (r: seq<string>)
    ensures |r| == 9 && r[2] == CategoriesLine()
  {
    ["", "ALLOWED CATEGORIES:", CategoriesLine()] + BoundLines()
  }

  /** The question-count bounds and the type-mix heading. */
  function BoundLines(): (r: seq<string>)
    ensures |r| == 6
  {
    [
      "",
      "SURVEY CONSTRAINTS:",
      "  - Minimum questions: " + NatToString(MinQuestions),
      "  - Maximum questions: " + NatToString(MaxQuestions),
      "",
      "QUESTION TYPE MIX (approximate):"
    ]
  }

  /** Where each part of `h + p + t` sits. */
  lemma ThreePartLayout(h: seq<string>, p: seq<string>, t: seq<string>)
    ensures |h + p + t| == |h| + |p| + |t|
    ensures (h + p + t)[..|h|] == h
    ensures forall i :: 0 <= i < |p| ==> (h + p + t)[|h| + i] == p[i]
    ensures forall i :: 0 <= i < |t| ==> (h + p + t)[|h| + |p| + i] == t[i]
  {
  }

  /** The prompt block as one string. */
  function FormatConfigForPrompt(): (r: string)
    ensures StartsWith(r, "PRE-EVENT SURVEY RULES:")
  {
    Join("\n", ConfigPromptLines())
  }
}
