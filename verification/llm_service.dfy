/**
 * The survey-question generation service: focus-area analysis of the caller's context,
 * the reshaping of model replies into sections, the deterministic question normaliser,
 * the static 25-question fallback, and the generate -> validate -> (refine) -> normalise
 * control flow. The three model calls are inputs to the model.
 */
module LlmService {
  import opened Wrappers
  import opened Text
  import opened Collections
  import opened SurveyTypes
  import UniversalQuestions

  // ---------------------------------------------------------------------------
  // Context analysis
  // ---------------------------------------------------------------------------

  /** The `goals` value of a context: free text or a list of goal strings. */
  datatype Goals = GoalsText(text: string) | GoalsList(items: seq<string>)

  /** The caller's context dictionary; None is a missing key. */
  datatype SurveyContext = SurveyContext(
    eventType: Option<string>,
    eventName: Option<string>,
    goals: Option<Goals>,
    learningObjectives: Option<string>,
    audience: Option<string>,
    timing: Option<string>,
    additionalContext: Option<string>)

  datatype ContextAnalysis = ContextAnalysis(
    focusAreas: seq<string>,
    additionalContext: string,
    eventType: string,
    eventName: string,
    audience: string,
    timing: string)

  /** The characters of the split pattern `[,;]|\n|[-•*]`. */
  predicate IsDelimiter(c: char) {
    c == ',' || c == ';' || c == '\n' || c == '-' || c == '•' || c == '*'
  }

  predicate NoDelimiter(s: string) {
    forall i :: 0 <= i < |s| ==> !IsDelimiter(s[i])
  }

  function RemoveDelimiters(s: string): string {
    if s == [] then [] else (if IsDelimiter(s[0]) then [] else [s[0]]) + RemoveDelimiters(s[1..])
  }

  function Concat(parts: seq<string>): string {
    if parts == [] then [] else parts[0] + Concat(parts[1..])
  }

  function CountDelimiters(s: string): nat {
    if s == [] then 0 else (if IsDelimiter(s[0]) then 1 else 0) + CountDelimiters(s[1..])
  }

  /**
   * `re.split(r'[,;]|\n|[-•*]', s)`: the pieces between delimiter characters.
   * There is one more piece than there are delimiters, no piece holds a delimiter,
   * and the pieces put back together are `s` without its delimiters.
   */
  function SplitOnDelimiters(s: string): (r: seq<string>)
    ensures |r| == CountDelimiters(s) + 1
    ensures forall j :: 0 <= j < |r| ==> NoDelimiter(r[j])
    ensures Concat(r) == RemoveDelimiters(s)
  {
    if s == [] then [""]
    else
      var rest := SplitOnDelimiters(s[1..]);
      if IsDelimiter(s[0]) then [""] + rest
      else
        var r := [[s[0]] + rest[0]] + rest[1..];
        assert Concat(rest) == rest[0] + Concat(rest[1..]);
        assert Concat(r) == [s[0]] + rest[0] + Concat(rest[1..]);
        r
  }

  /** A stripped piece of text carries no delimiter. */
  lemma StripKeepsNoDelimiter(s: string)
    requires NoDelimiter(s)
    ensures NoDelimiter(Strip(s))
  {
    var i, j := StripSlice(s);
    assert forall k :: 0 <= k < |Strip(s)| ==> Strip(s)[k] == s[i + k];
  }

  /** A focus area: longer than 3 characters, stripped, free of delimiters. */
  predicate FocusShaped(s: string) {
    |s| > 3 && Trimmed(s) && NoDelimiter(s)
  }

  /** The stripped pieces longer than 3 characters, in order. */
  function LongItems(pieces: seq<string>): (r: seq<string>)
    requires forall k :: 0 <= k < |pieces| ==> NoDelimiter(pieces[k])
    ensures |r| <= |pieces|
    ensures forall j :: 0 <= j < |r| ==> FocusShaped(r[j])
  {
    if pieces == [] then []
    else
      var item := Strip(pieces[0]);
      StripKeepsNoDelimiter(pieces[0]);
      var rest := LongItems(pieces[1..]);
      if |item| > 3 then [item] + rest else rest
  }

  /** The focus-area candidates one field contributes, in order. */
  function ItemsOf(text: string): (r: seq<string>)
    ensures forall x :: x in r ==> FocusShaped(x)
  {
    LongItems(SplitOnDelimiters(text))
  }

  /** `goals` as text: a list is joined with ", "; a missing key reads as "". */
  function GoalsAsText(goals: Option<Goals>): string {
    match goals
    case None => ""
    case Some(GoalsText(t)) => t
    case Some(GoalsList(items)) => Join(", ", items)
  }

  /** The placeholder answers that mean "no goals". */
  predicate IgnoredGoals(text: string) {
    var l := Lower(text);
    l == "none" || l == "not specified" || l == ""
  }

  /** The placeholder answers that mean "no learning objectives". */
  predicate IgnoredObjectives(text: string) {
    var l := Lower(text);
    l == "general feedback" || l == "none" || l == "not specified" || l == ""
  }

  function GoalItems(ctx: SurveyContext): (r: seq<string>)
    ensures forall x :: x in r ==> FocusShaped(x)
  {
    var g := GoalsAsText(ctx.goals);
    if IgnoredGoals(g) then [] else ItemsOf(g)
  }

  function ObjectiveItems(ctx: SurveyContext): (r: seq<string>)
    ensures forall x :: x in r ==> FocusShaped(x)
  {
    var o := ctx.learningObjectives.GetOr("");
    if IgnoredObjectives(o) then [] else ItemsOf(o)
  }

  /**
   * `_analyze_context`: focus areas from goals then objectives, deduplicated
   * case-insensitively keeping the first spelling; the other fields pass through.
   */
  function AnalyzeContext(ctx: SurveyContext): (r: ContextAnalysis)
    ensures forall x :: x in r.focusAreas ==> FocusShaped(x)
    ensures DistinctKeys(r.focusAreas, Lower)
    ensures forall j :: 0 <= j < |r.focusAreas| ==> r.focusAreas[j] in GoalItems(ctx) + ObjectiveItems(ctx)
    ensures r.eventName == ctx.eventName.GetOr("") && r.eventType == ctx.eventType.GetOr("")
    ensures r.additionalContext == ctx.additionalContext.GetOr("")
    ensures r.audience == ctx.audience.GetOr("") && r.timing == ctx.timing.GetOr("")
  {
    var items := GoalItems(ctx) + ObjectiveItems(ctx);
    var areas := DedupBy(items, Lower);
    assert forall x :: x in items ==> FocusShaped(x);
    assert forall j :: 0 <= j < |areas| ==> areas[j] in items;
    ContextAnalysis(
      areas,
      ctx.additionalContext.GetOr(""),
      ctx.eventType.GetOr(""),
      ctx.eventName.GetOr(""),
      ctx.audience.GetOr(""),
      ctx.timing.GetOr(""))
  }

  /** No candidate is lost: every goal or objective item is represented, up to letter case. */
  lemma EveryItemCovered(ctx: SurveyContext, a: string)
    ensures a in GoalItems(ctx) + ObjectiveItems(ctx) ==> KeyIn(AnalyzeContext(ctx).focusAreas, Lower, Lower(a))
  {
    var items := GoalItems(ctx) + ObjectiveItems(ctx);
    if a in items {
      var k :| 0 <= k < |items| && items[k] == a;
      assert KeyIn(items, Lower, Lower(a));
      assert |Lower(a)| > 3;
    }
  }

  /** Reference reading: the focus areas are the first case-insensitive occurrences, goals before objectives. */
  lemma FocusAreasAreFirstOccurrences(ctx: SurveyContext)
    ensures AnalyzeContext(ctx).focusAreas == FirstOccurrences(GoalItems(ctx) + ObjectiveItems(ctx), Lower)
  {
    DedupIsFirstOccurrences(GoalItems(ctx) + ObjectiveItems(ctx), Lower);
  }

  // ---------------------------------------------------------------------------
  // Reshaping model replies
  // ---------------------------------------------------------------------------

  datatype Section = Section(name: string, questions: seq<RawQuestion>)

  /**
   * What a model reply decodes to. `SectionsObject` is an object with a "sections" key;
   * `QuestionsObject` an object with "questions" but no "sections"; `TopLevelList` a JSON
   * array; `Unparseable` everything else (including text from which no JSON could be recovered).
   */
  datatype ParsedJson =
    | SectionsObject(sections: seq<Section>)
    | QuestionsObject(questions: seq<RawQuestion>)
    | TopLevelList(items: seq<RawQuestion>)
    | Unparseable

  const LegacySectionName := "Survey Questions"

  /** `_flatten_sections`: every section's questions, section by section. */
  function FlattenSections(sections: seq<Section>): (r: seq<RawQuestion>)
    ensures |sections| == 1 ==> r == sections[0].questions
  {
    if sections == [] then [] else sections[0].questions + FlattenSections(sections[1..])
  }

  lemma {:induction false} FlattenConcat(a: seq<Section>, b: seq<Section>)
    ensures FlattenSections(a + b) == FlattenSections(a) + FlattenSections(b)
  {
    if a != [] {
      assert (a + b)[1..] == a[1..] + b;
      FlattenConcat(a[1..], b);
    } else {
      assert a + b == b;
    }
  }

  /** `_parse_response` on a decoded reply: the sections it yields (empty when unusable). */
  function ParseResponse(p: ParsedJson): (r: seq<Section>)
    ensures p.SectionsObject? ==> r == p.sections
    ensures p.QuestionsObject? ==> |r| == 1 && r[0].name == LegacySectionName && r[0].questions == p.questions
    ensures p.TopLevelList? ==> |r| == 1 && r[0].name == LegacySectionName && r[0].questions == p.items
    ensures p.Unparseable? ==> r == []
  {
    match p
    case SectionsObject(s) => s
    case QuestionsObject(qs) => [Section(LegacySectionName, qs)]
    case TopLevelList(items) => [Section(LegacySectionName, items)]
    case Unparseable => []
  }

  /** Wrapping a legacy reply into one section and flattening it gives back the same question list. */
  lemma LegacyRoundTrip(qs: seq<RawQuestion>)
    ensures FlattenSections(ParseResponse(QuestionsObject(qs))) == qs
    ensures FlattenSections(ParseResponse(TopLevelList(qs))) == qs
  {
  }

  // ---------------------------------------------------------------------------
  // The question normaliser (`_validate_questions`)
  // ---------------------------------------------------------------------------

  const DemographicKeywords: seq<string> := [
    "name", "email", "phone", "age", "location", "occupation", "demographic",
    "where did you grow up", "where do you live", "home base", "grow up", "currently live"]

  /** The universal question texts, lower-cased. */
  function UniversalLowerTexts(): (r: seq<string>)
    ensures |r| == 8
  {
    seq(8, i requires 0 <= i < 8 => Lower(UniversalQuestions.Texts()[i]))
  }

  predicate IsUniversalDuplicate(lowerText: string) {
    lowerText in UniversalLowerTexts()
  }

  predicate HasDemographicKeyword(lowerText: string) {
    exists i :: 0 <= i < |DemographicKeywords| && Contains(lowerText, DemographicKeywords[i])
  }

  /** A question text the normaliser would keep. */
  predicate AllowedText(t: string) {
    t != "" && Trimmed(t) && !IsUniversalDuplicate(Lower(t)) && !HasDemographicKeyword(Lower(t))
  }

  predicate IsOptionType(t: string) {
    t == TypeSingleSelect || t == TypeMultiSelect || t == TypeLikert
  }

  /** The type/options shape every normalised question has. */
  predicate WellTyped(t: string, options: Option<seq<string>>) {
    && t in ValidTypes
    && (t == TypeLikert ==> options == Some(LikertScale))
    && ((t == TypeSingleSelect || t == TypeMultiSelect) ==> options.Some? && |options.value| > 0)
    && ((t == TypeText || t == TypeTextarea) ==> options.None?)
  }

  predicate WellFormed(q: Question) {
    AllowedText(q.text) && WellTyped(q.qtype, q.options)
  }

  /**
   * The type and options rules: an unknown or missing type becomes "text"; an option type
   * without a non-empty list becomes "text" with no options; Likert gets the canonical scale;
   * single/multi-select keep the list they were given; text types carry no options.
   */
  function CoerceType(qtype: Option<string>, options: Option<seq<string>>): (r: (string, Option<seq<string>>))
    ensures WellTyped(r.0, r.1)
    ensures qtype.None? || qtype.value !in ValidTypes ==> r == (TypeText, None)
    ensures qtype.Some? && (qtype.value == TypeText || qtype.value == TypeTextarea) ==> r == (qtype.value, None)
    ensures qtype.Some? && IsOptionType(qtype.value) && (options.None? || options.value == []) ==> r == (TypeText, None)
    ensures qtype == Some(TypeLikert) && options.Some? && options.value != [] ==> r == (TypeLikert, Some(LikertScale))
    ensures (qtype.Some? && (qtype.value == TypeSingleSelect || qtype.value == TypeMultiSelect)
             && options.Some? && options.value != []) ==> r == (qtype.value, options)
  {
    var t := if qtype.Some? && qtype.value in ValidTypes then qtype.value else TypeText;
    if IsOptionType(t) then
      if options.None? || |options.value| == 0 then (TypeText, None)
      else if t == TypeLikert then (TypeLikert, Some(LikertScale))
      else (t, options)
    else (t, None)
  }

  /** Coercing an already well-typed pair changes nothing. */
  lemma CoerceTypeIdempotent(t: string, options: Option<seq<string>>)
    requires WellTyped(t, options)
    ensures CoerceType(Some(t), options) == (t, options)
  {
  }

  /** What the normaliser does with one candidate. */
  datatype Verdict = Skip | Keep(q: Question) | Raise

  /** The candidate survives every filter. */
  predicate Survives(c: RawQuestion) {
    c.Candidate? && c.text.TextString? && AllowedText(Strip(c.text.s))
  }

  /** `.strip()` on a non-string `question_text` raises. */
  predicate RaisesOn(c: RawQuestion) {
    c.Candidate? && c.text.TextNotString?
  }

  /** One iteration of the normaliser loop, for the candidate at input position `index`. */
  function Coerce(c: RawQuestion, index: int): (r: Verdict)
    ensures r.Raise? <==> RaisesOn(c)
    ensures r.Keep? <==> Survives(c)
    ensures r.Keep? ==> (WellFormed(r.q) && r.q.order == index
      && r.q.text == Strip(c.text.s) && r.q.required == c.required
      && (r.q.qtype, r.q.options) == CoerceType(c.qtype, c.options))
  {
    match c
    case NotADict => Skip
    case Candidate(text, qtype, options, required) =>
      match text
      case TextNotString => Raise
      case TextString(s) =>
        var t := Strip(s);
        if t == "" then Skip
        else if IsUniversalDuplicate(Lower(t)) then Skip
        else if HasDemographicKeyword(Lower(t)) then Skip
        else
          var (ty, opts) := CoerceType(qtype, options);
          Keep(Question(t, ty, opts, required, index))
  }

  predicate StrictlyIncreasingOrders(qs: seq<Question>) {
    forall i, j :: 0 <= i < j < |qs| ==> qs[i].order < qs[j].order
  }

  /** Position `j` of `vs` raises. */
  predicate RaisesAt(vs: seq<Verdict>, j: int) {
    0 <= j < |vs| && vs[j].Raise?
  }

  /**
   * The normaliser loop over per-candidate verdicts, from position `i` on: None as soon as one
   * raises, otherwise the kept questions in input order.
   */
  function Collect(vs: seq<Verdict>, i: nat): (r: Option<seq<Question>>)
    requires i <= |vs|
    ensures r.None? <==> exists j :: i <= j < |vs| && RaisesAt(vs, j)
    ensures r.Some? ==> forall k :: 0 <= k < |r.value| ==>
      exists j :: i <= j < |vs| && vs[j] == Keep(r.value[k])
    decreases |vs| - i
  {
    if i == |vs| then Some([])
    else
      match vs[i]
      case Raise => assert RaisesAt(vs, i); None
      case Skip => Collect(vs, i + 1)
      case Keep(q) =>
        match Collect(vs, i + 1)
        case None => None
        case Some(rest) =>
          var r := [q] + rest;
          assert forall k :: 1 <= k < |r| ==> r[k] == rest[k - 1];
          Some(r)
  }

  /** When every kept question carries its own position as order, the collected orders increase strictly. */
  lemma {:induction false} CollectOrders(vs: seq<Verdict>, i: nat)
    requires i <= |vs|
    requires forall j :: 0 <= j < |vs| && vs[j].Keep? ==> vs[j].q.order == j
    requires Collect(vs, i).Some?
    ensures StrictlyIncreasingOrders(Collect(vs, i).value)
    ensures forall k :: 0 <= k < |Collect(vs, i).value| ==>
      i <= Collect(vs, i).value[k].order < |vs| && vs[Collect(vs, i).value[k].order] == Keep(Collect(vs, i).value[k])
    decreases |vs| - i
  {
    if i < |vs| {
      CollectOrders(vs, i + 1);
      var rest := Collect(vs, i + 1).value;
      if vs[i].Keep? {
        var r := Collect(vs, i).value;
        assert r == [vs[i].q] + rest;
        assert forall k :: 1 <= k < |r| ==> r[k] == rest[k - 1];
      }
    }
  }

  /** Every kept position from `i` on shows up in the collected list. */
  lemma {:induction false} CollectComplete(vs: seq<Verdict>, i: nat, j: nat)
    requires i <= j < |vs| && vs[j].Keep?
    requires Collect(vs, i).Some?
    ensures vs[j].q in Collect(vs, i).value
    decreases |vs| - i
  {
    if i < j {
      CollectComplete(vs, i + 1, j);
      if vs[i].Keep? {
        assert Collect(vs, i).value == [vs[i].q] + Collect(vs, i + 1).value;
      }
    }
  }

  /** The verdict for every candidate, candidate `j` with order `j`. */
  function Verdicts(raw: seq<RawQuestion>): (vs: seq<Verdict>)
    ensures |vs| == |raw| && forall j :: 0 <= j < |raw| ==> vs[j] == Coerce(raw[j], j)
  {
    seq(|raw|, j requires 0 <= j < |raw| => Coerce(raw[j], j))
  }

  /**
   * `_validate_questions`: None when the source raises (a non-string `question_text`),
   * otherwise the surviving candidates in input order, each with `order` = its input index.
   */
  function Normalise(raw: seq<RawQuestion>): (r: Option<seq<Question>>)
    ensures r.None? <==> exists j :: 0 <= j < |raw| && RaisesOn(raw[j])
    ensures r.Some? ==> |r.value| <= |raw| && StrictlyIncreasingOrders(r.value)
    ensures r.Some? ==> forall k :: 0 <= k < |r.value| ==>
      0 <= r.value[k].order < |raw| && Coerce(raw[r.value[k].order], r.value[k].order) == Keep(r.value[k])
  {
    var vs := Verdicts(raw);
    var r := Collect(vs, 0);
    assert r.None? <==> exists j :: 0 <= j < |raw| && RaisesOn(raw[j]) by {
      assert forall j :: 0 <= j < |raw| ==> (RaisesAt(vs, j) <==> RaisesOn(raw[j]));
    }
    assert r.Some? ==> (|r.value| <= |raw| && StrictlyIncreasingOrders(r.value)
      && forall k :: 0 <= k < |r.value| ==> 0 <= r.value[k].order < |raw| && vs[r.value[k].order] == Keep(r.value[k])) by {
      if r.Some? {
        CollectOrders(vs, 0);
        OrdersBoundLength(r.value, |raw|);
      }
    }
    r
  }

  /**
   * What the normaliser keeps: exactly the surviving candidates, each well formed, its text
   * the candidate's stripped text.
   */
  lemma NormaliseKeepsExactlySurvivors(raw: seq<RawQuestion>, j: nat)
    requires Normalise(raw).Some? && j < |raw|
    ensures Survives(raw[j]) <==> exists k :: 0 <= k < |Normalise(raw).value| && Normalise(raw).value[k].order == j
    ensures forall k :: 0 <= k < |Normalise(raw).value| ==>
      WellFormed(Normalise(raw).value[k]) && Survives(raw[Normalise(raw).value[k].order])
      && Normalise(raw).value[k].text == Strip(raw[Normalise(raw).value[k].order].text.s)
  {
    var qs := Normalise(raw).value;
    if Survives(raw[j]) {
      CollectComplete(Verdicts(raw), 0, j);
      var k :| 0 <= k < |qs| && qs[k] == Coerce(raw[j], j).q;
      assert qs[k].order == j;
    }
  }

  /** Strictly increasing orders in [0, n) leave room for at most n questions. */
  lemma {:induction false} OrdersBoundLength(qs: seq<Question>, n: nat)
    requires StrictlyIncreasingOrders(qs)
    requires forall k :: 0 <= k < |qs| ==> 0 <= qs[k].order < n
    ensures |qs| <= n
  {
    if |qs| > 0 {
      var last := qs[|qs| - 1];
      var p := qs[..|qs| - 1];
      assert forall k :: 0 <= k < |p| ==> p[k].order < last.order;
      OrdersBoundLength(p, last.order);
    }
  }

  /** `q` with its order replaced. */
  function Reorder(q: Question, order: int): Question {
    q.(order := order)
  }

  /** Questions re-read as raw candidates, the way a stored survey is read back. */
  function Raws(qs: seq<Question>): (r: seq<RawQuestion>)
    ensures |r| == |qs| && forall k :: 0 <= k < |qs| ==> r[k] == ToRaw(qs[k])
  {
    seq(|qs|, k requires 0 <= k < |qs| => ToRaw(qs[k]))
  }

  /** `qs` renumbered consecutively from `start`. */
  function Renumbered(qs: seq<Question>, start: int): (r: seq<Question>)
    ensures |r| == |qs| && forall k :: 0 <= k < |qs| ==> r[k] == Reorder(qs[k], start + k)
  {
    seq(|qs|, k requires 0 <= k < |qs| => Reorder(qs[k], start + k))
  }

  /** A normalised question re-read as a raw candidate is kept unchanged apart from its order. */
  lemma CoerceNormalised(q: Question, index: int)
    requires WellFormed(q)
    ensures Coerce(ToRaw(q), index) == Keep(Reorder(q, index))
  {
    StripTrimmed(q.text);
    CoerceTypeIdempotent(q.qtype, q.options);
  }

  /** One kept position in front of a collected tail. */
  lemma CollectKeepStep(vs: seq<Verdict>, i: nat)
    requires i < |vs| && vs[i].Keep? && Collect(vs, i + 1).Some?
    ensures Collect(vs, i) == Some([vs[i].q] + Collect(vs, i + 1).value)
  {
  }

  lemma RenumberedStep(qs: seq<Question>, i: nat)
    requires i < |qs|
    ensures Renumbered(qs[i..], i) == [Reorder(qs[i], i)] + Renumbered(qs[i + 1..], i + 1)
  {
    var r := Renumbered(qs[i..], i);
    var rest := Renumbered(qs[i + 1..], i + 1);
    assert forall k :: 1 <= k < |r| ==> r[k] == rest[k - 1];
  }

  /** When every position keeps its question, collecting renumbers them and drops nothing. */
  lemma {:induction false} CollectAllKept(vs: seq<Verdict>, qs: seq<Question>, i: nat)
    requires |vs| == |qs| && i <= |qs|
    requires forall k :: 0 <= k < |qs| ==> vs[k] == Keep(Reorder(qs[k], k))
    ensures Collect(vs, i) == Some(Renumbered(qs[i..], i))
    decreases |qs| - i
  {
    if i < |qs| {
      CollectAllKept(vs, qs, i + 1);
      CollectKeepStep(vs, i);
      RenumberedStep(qs, i);
    } else {
      assert Renumbered(qs[i..], i) == [];
    }
  }

  /**
   * Idempotence: normalising an already normalised list drops nothing, keeps every field,
   * and only renumbers the orders to 0 .. n-1.
   */
  lemma NormaliseIdempotent(raw: seq<RawQuestion>)
    requires Normalise(raw).Some?
    ensures Normalise(Raws(Normalise(raw).value)) == Some(Renumbered(Normalise(raw).value, 0))
  {
    var qs := Normalise(raw).value;
    var vs := Verdicts(Raws(qs));
    assert qs[0..] == qs;
    forall k | 0 <= k < |qs| ensures vs[k] == Keep(Reorder(qs[k], k)) {
      assert WellFormed(qs[k]);
      CoerceNormalised(qs[k], k);
    }
    CollectAllKept(vs, qs, 0);
  }

  /** The keyword filter is a plain substring test: "stage" is dropped because it contains "age". */
  lemma KeywordFilterIsSubstring()
    ensures HasDemographicKeyword("which stage")
  {
    assert DemographicKeywords[3] == "age";
    assert OccursAt("which stage", "age", 8);
  }

  // ---------------------------------------------------------------------------
  // The static fallback set
  // ---------------------------------------------------------------------------

  /** A fallback entry before its order is attached. */
  datatype Template = Template(text: string, qtype: string, options: Option<seq<string>>, required: bool)

  const FallbackCount := 25

  /** The `i`-th entry of the static fallback set, for an event called `name`. */
  function FallbackTemplate(i: nat, name: string): Template
    requires i < FallbackCount
  {
    match i
    case 0 => Template("How would you rate the overall energy and atmosphere of " + name + "?", TypeLikert, Some(LikertScale), true)
    case 1 => Template("Did " + name + " meet your expectations?", TypeLikert, Some(LikertScale), true)
    case 2 => Template("How would you rate the overall event experience?", TypeSingleSelect,
      Some(["Excellent", "Very Good", "Good", "Fair", "Poor"]), true)
    case 3 => Template("What was the highlight of your experience?", TypeTextarea, None, false)
    case 4 => Template("How would you describe the overall event flow and pacing?", TypeLikert, Some(LikertScale), false)
    case 5 => Template("How would you rate the sound quality across different stages?", TypeLikert, Some(LikertScale), true)
    case 6 => Template("How satisfied were you with the diversity of artists and genres?", TypeLikert, Some(LikertScale), true)
    case 7 => Template("Which aspects of the music lineup did you enjoy most?", TypeMultiSelect,
      Some(["Headliner performances", "Supporting acts", "Genre diversity", "Stage production", "Sound quality", "Artist discovery"]), false)
    case 8 => Template("How would you rate the stage setup and visual production?", TypeLikert, Some(LikertScale), false)
    case 9 => Template("Were there any scheduling conflicts that affected your experience?", TypeText, None, false)
    case 10 => Template("How accessible was the venue for people with mobility needs?", TypeLikert, Some(LikertScale), false)
    case 11 => Template("How would you rate the cleanliness and maintenance of facilities?", TypeLikert, Some(LikertScale), true)
    case 12 => Template("How would you rate the entry and exit process?", TypeSingleSelect,
      Some(["Very Smooth", "Smooth", "Average", "Difficult", "Very Difficult"]), false)
    case 13 => Template("Which amenities were most important to your experience?", TypeMultiSelect,
      Some(["Food & Beverage", "Restrooms", "First Aid", "Water stations", "Charging stations", "Seating areas"]), false)
    case 14 => Template("How safe did you feel throughout the event?", TypeLikert, Some(LikertScale), true)
    case 15 => Template("How clear and helpful was the pre-event communication?", TypeLikert, Some(LikertScale), true)
    case 16 => Template("Did you find the event schedule easy to access and understand?", TypeLikert, Some(LikertScale), false)
    case 17 => Template("How would you rate the event's social media presence and updates?", TypeLikert, Some(LikertScale), false)
    case 18 => Template("What information would have been helpful to know before the event?", TypeTextarea, None, false)
    case 19 => Template("How would you rate the event's commitment to sustainability?", TypeLikert, Some(LikertScale), false)
    case 20 => Template("Did you feel the event was inclusive and welcoming to all attendees?", TypeLikert, Some(LikertScale), true)
    case 21 => Template("Which sustainability practices did you notice?", TypeMultiSelect,
      Some(["Recycling programs", "Compostable materials", "Water refill stations", "Public transport options", "Carbon offset initiatives", "None"]), false)
    case 22 => Template("How would you rate the event's diversity and representation?", TypeLikert, Some(LikertScale), false)
    case 23 => Template("How likely are you to attend future events by this organizer?", TypeLikert, Some(LikertScale), true)
    case _ => Template("Would you share your experience on social media?", TypeSingleSelect,
      Some(["Definitely", "Probably", "Maybe", "Probably Not", "Definitely Not"]), false)
  }

  /**
   * `_get_fallback_questions(context)`: the 25 static questions with orders 0..24,
   * using the context's event name (default "this event") in the first two texts.
   */
  function FallbackQuestions(ctx: SurveyContext): (r: seq<Question>)
    ensures |r| == FallbackCount
    ensures forall i :: 0 <= i < |r| ==> r[i].order == i
    ensures Contains(r[0].text, ctx.eventName.GetOr("this event"))
    ensures Contains(r[1].text, ctx.eventName.GetOr("this event"))
  {
    var name := ctx.eventName.GetOr("this event");
    ContainsMiddle("How would you rate the overall energy and atmosphere of ", name, "?");
    ContainsMiddle("Did ", name, " meet your expectations?");
    seq(FallbackCount, i requires 0 <= i < FallbackCount =>
      var t := FallbackTemplate(i, name);
      Question(t.text, t.qtype, t.options, t.required, i))
  }

  // ---------------------------------------------------------------------------
  // The generation pipeline
  // ---------------------------------------------------------------------------

  /** The outcome of one generation or refinement call: it raised, returned no content, or decoded to `parsed`. */
  datatype LlmReply = CallRaised | EmptyContent | Content(parsed: ParsedJson)

  /** The `validation_passed` value of a validation object, read for truthiness. */
  datatype PassFlag = FlagMissing | FlagTruthy | FlagFalsy

  /** A decoded validation reply: an object, or some other JSON value (on which `.get` raises). */
  datatype ValidationJson = ValidationObject(passed: PassFlag) | ValidationNotObject

  /** The outcome of the validation call: it raised (including undecodable JSON), was empty, or decoded. */
  datatype ValidationReply = ValidationRaised | ValidationEmpty | ValidationDecoded(json: ValidationJson)

  /** `_generate_questions_with_llm`: the sections of the first call, empty when it failed. */
  function GenerateQuestionsWithLlm(reply: LlmReply): (r: seq<Section>)
    ensures !reply.Content? ==> r == []
    ensures reply.Content? ==> r == ParseResponse(reply.parsed)
  {
    match reply
    case Content(p) => ParseResponse(p)
    case _ => []
  }

  /** `_validate_response`: fail-open, a failed or empty call reads as a pass. */
  function ValidateResponse(reply: ValidationReply): (r: ValidationJson)
    ensures !reply.ValidationDecoded? ==> r == ValidationObject(FlagTruthy)
    ensures reply.ValidationDecoded? ==> r == reply.json
  {
    match reply
    case ValidationDecoded(j) => j
    case _ => ValidationObject(FlagTruthy)
  }

  /** `_refine_questions`: the refined sections, or the original ones when refinement yields none. */
  function RefineQuestions(original: seq<Section>, reply: LlmReply): (r: seq<Section>)
    ensures r == original || (reply.Content? && r == ParseResponse(reply.parsed) && r != [])
    ensures reply.Content? && ParseResponse(reply.parsed) != [] ==> r == ParseResponse(reply.parsed)
    ensures original != [] ==> r != []
  {
    match reply
    case Content(p) => var refined := ParseResponse(p); if refined != [] then refined else original
    case _ => original
  }

  /** Refinement runs when `validation_passed` is missing or falsy. */
  predicate NeedsRefinement(v: ValidationJson)
    requires v.ValidationObject?
  {
    v.passed != FlagTruthy
  }

  /** Which branch the pipeline took. */
  datatype Path = FallbackUsed | Normalised(refined: bool)

  datatype Generation = Generation(questions: seq<Question>, path: Path)

  /**
   * `generate_survey_questions` with its branch made visible. Any exception inside the
   * `try` (a non-object validation reply, a non-string question text) takes the fallback.
   */
  function RunPipeline(ctx: SurveyContext, generate: LlmReply, validate: ValidationReply, refine: LlmReply): (g: Generation)
    ensures g.path.FallbackUsed? ==> g.questions == FallbackQuestions(ctx)
    ensures g.path.Normalised? ==> forall k :: 0 <= k < |g.questions| ==> WellFormed(g.questions[k])
    ensures g.path.Normalised? ==> StrictlyIncreasingOrders(g.questions)
  {
    var sections := GenerateQuestionsWithLlm(generate);
    if sections == [] then Generation(FallbackQuestions(ctx), FallbackUsed)
    else
      var verdict := ValidateResponse(validate);
      if verdict.ValidationNotObject? then Generation(FallbackQuestions(ctx), FallbackUsed)
      else
        var refined := NeedsRefinement(verdict);
        var finalSections := if refined then RefineQuestions(sections, refine) else sections;
        match Normalise(FlattenSections(finalSections))
        case None => Generation(FallbackQuestions(ctx), FallbackUsed)
        case Some(qs) => Generation(qs, Normalised(refined))
  }

  /** The sections the pipeline normalises: the refined ones when refinement runs, otherwise the first call's. */
  function FinalSections(generate: LlmReply, validate: ValidationReply, refine: LlmReply): seq<Section> {
    var sections := GenerateQuestionsWithLlm(generate);
    var verdict := ValidateResponse(validate);
    if verdict.ValidationObject? && NeedsRefinement(verdict) then RefineQuestions(sections, refine) else sections
  }

  /**
   * The pipeline falls back exactly when the first call has no sections, the validation reply is not
   * an object, or some question of the final sections raises during normalisation; otherwise the
   * caller receives the normalised final sections.
   */
  lemma PipelineOutcome(ctx: SurveyContext, generate: LlmReply, validate: ValidationReply, refine: LlmReply)
    ensures var g := RunPipeline(ctx, generate, validate, refine);
      g.path.FallbackUsed? <==>
        GenerateQuestionsWithLlm(generate) == [] || ValidateResponse(validate).ValidationNotObject?
        || Normalise(FlattenSections(FinalSections(generate, validate, refine))).None?
    ensures var g := RunPipeline(ctx, generate, validate, refine);
      g.path.FallbackUsed? <==>
        GenerateQuestionsWithLlm(generate) == [] || ValidateResponse(validate).ValidationNotObject?
        || exists j :: 0 <= j < |FlattenSections(FinalSections(generate, validate, refine))|
             && RaisesOn(FlattenSections(FinalSections(generate, validate, refine))[j])
    ensures var g := RunPipeline(ctx, generate, validate, refine);
      g.path.Normalised? ==> Some(g.questions) == Normalise(FlattenSections(FinalSections(generate, validate, refine)))
  {
  }

  /** `generate_survey_questions`: the question list the caller receives. */
  function GenerateSurveyQuestions(ctx: SurveyContext, generate: LlmReply, validate: ValidationReply, refine: LlmReply): seq<Question> {
    RunPipeline(ctx, generate, validate, refine).questions
  }

  /** A first call without sections returns the un-normalised 25-question fallback. */
  lemma NoSectionsFallsBack(ctx: SurveyContext, generate: LlmReply, validate: ValidationReply, refine: LlmReply)
    requires GenerateQuestionsWithLlm(generate) == []
    ensures RunPipeline(ctx, generate, validate, refine).path == FallbackUsed
    ensures |GenerateSurveyQuestions(ctx, generate, validate, refine)| == 25
  {
  }

  /** An empty, failed or unparseable first call has no sections. */
  lemma FailedGenerationHasNoSections(generate: LlmReply)
    requires generate.CallRaised? || generate.EmptyContent? || generate == Content(Unparseable)
    ensures GenerateQuestionsWithLlm(generate) == []
  {
  }

  /**
   * Once the first call produced sections and the validation reply is usable, refinement
   * runs exactly when `validation_passed` is missing or falsy.
   */
  lemma RefinementIffNotPassed(ctx: SurveyContext, generate: LlmReply, validate: ValidationReply, refine: LlmReply)
    requires GenerateQuestionsWithLlm(generate) != []
    requires ValidateResponse(validate).ValidationObject?
    ensures var g := RunPipeline(ctx, generate, validate, refine);
      g.path.Normalised? ==> (g.path.refined <==> ValidateResponse(validate).passed != FlagTruthy)
  {
  }

  /** A validation call that fails or returns nothing never triggers refinement. */
  lemma FailedValidationSkipsRefinement(ctx: SurveyContext, generate: LlmReply, validate: ValidationReply, refine: LlmReply)
    requires validate.ValidationRaised? || validate.ValidationEmpty?
    ensures RunPipeline(ctx, generate, validate, refine).path != Normalised(true)
    ensures GenerateQuestionsWithLlm(generate) != [] ==>
      RunPipeline(ctx, generate, validate, refine)
        == RunPipeline(ctx, generate, validate, CallRaised)
  {
  }

  /** A refinement that yields no sections keeps the first call's questions. */
  lemma EmptyRefinementKeepsOriginal(ctx: SurveyContext, generate: LlmReply, validate: ValidationReply, refine: LlmReply)
    requires GenerateQuestionsWithLlm(generate) != []
    requires validate.ValidationDecoded? && validate.json == ValidationObject(FlagFalsy)
    requires !refine.Content? || ParseResponse(refine.parsed) == []
    requires Normalise(FlattenSections(GenerateQuestionsWithLlm(generate))).Some?
    ensures GenerateSurveyQuestions(ctx, generate, validate, refine)
         == Normalise(FlattenSections(GenerateQuestionsWithLlm(generate))).value
  {
  }
}
