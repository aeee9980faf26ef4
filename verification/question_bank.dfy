/**
 * The curated pre-event question bank: eighteen templates, each with a
 * category, a type, options and a required flag; the category and required
 * filters; `{event_name}` substitution; and the one-line-per-question prompt
 * rendering.
 */
module QuestionBank {
  import opened Wrappers
  import opened Text
  import opened Collections
  import opened SurveyTypes
  import PreEventConfig

  datatype Category =
    | Expectations | Preferences | Registration | Accessibility
    | LineupInterest | Pricing | Logistics | Marketing

  function CategoryName(c: Category): string {
    match c
    case Expectations => "expectations"
    case Preferences => "preferences"
    case Registration => "registration"
    case Accessibility => "accessibility"
    case LineupInterest => "lineup_interest"
    case Pricing => "pricing"
    case Logistics => "logistics"
    case Marketing => "marketing"
  }

  /** `get_categories()`. */
  function GetCategories(): seq<string> {
    ["expectations", "preferences", "registration", "accessibility",
     "lineup_interest", "pricing", "logistics", "marketing"]
  }

  /** Every category a bank entry can carry is listed by `GetCategories`. */
  lemma CategoryListed(c: Category)
    ensures CategoryName(c) in GetCategories()
  {
    match c
    case Expectations => assert GetCategories()[0] == CategoryName(c);
    case Preferences => assert GetCategories()[1] == CategoryName(c);
    case Registration => assert GetCategories()[2] == CategoryName(c);
    case Accessibility => assert GetCategories()[3] == CategoryName(c);
    case LineupInterest => assert GetCategories()[4] == CategoryName(c);
    case Pricing => assert GetCategories()[5] == CategoryName(c);
    case Logistics => assert GetCategories()[6] == CategoryName(c);
    case Marketing => assert GetCategories()[7] == CategoryName(c);
  }

  /** The bank's categories are exactly the pre-event configuration's allowed categories. */
  lemma CategoriesMatchConfig()
    ensures GetCategories() == PreEventConfig.AllowedCategories
  {
  }

  /** A question text template: literal text, or text around one `{event_name}` field. */
  datatype TextTemplate = Plain(text: string) | Around(before: string, after: string)

  const EventNameField: string := "{event_name}"

  /** The template as the string stored in the bank. */
  function TemplateString(t: TextTemplate): string {
    match t
    case Plain(s) => s
    case Around(b, a) => b + EventNameField + a
  }

  /** The template with the event name filled in. */
  function Render(t: TextTemplate, eventName: string): string {
    match t
    case Plain(s) => s
    case Around(b, a) => b + eventName + a
  }

  /** A template whose literal parts hold no brace, as every bank template does. */
  predicate BraceFree(t: TextTemplate) {
    match t
    case Plain(s) => '{' !in s
    case Around(b, a) => '{' !in b && '{' !in a
  }

  /** Filling a template is the textual replacement of every `{event_name}` in the stored string. */
  lemma RenderIsReplace(t: TextTemplate, eventName: string)
    requires BraceFree(t)
    ensures Render(t, eventName) == ReplaceAll(TemplateString(t), EventNameField, eventName)
  {
    match t
    case Plain(s) =>
      ReplaceAllSkips(s, [], EventNameField, eventName);
      assert s + [] == s;
    case Around(b, a) =>
      ReplaceAllSkips(b, EventNameField + a, EventNameField, eventName);
      assert b + EventNameField + a == b + (EventNameField + a);
      ReplaceAllFront(EventNameField, a, eventName);
      ReplaceAllSkips(a, [], EventNameField, eventName);
      assert a + [] == a;
  }

  datatype BankId =
    | ReqAccessibility | ReqCatchAll
    | Exp001 | Exp002 | Pref001 | Pref002 | Reg001 | Reg002 | Acc001 | Acc002
    | Line001 | Line002 | Price001 | Price002 | Log001 | Log002 | Mkt001 | Mkt002

  function IdName(id: BankId): string {
    match id
    case ReqAccessibility => "req_accessibility"
    case ReqCatchAll => "req_catch_all"
    case Exp001 => "exp_001"
    case Exp002 => "exp_002"
    case Pref001 => "pref_001"
    case Pref002 => "pref_002"
    case Reg001 => "reg_001"
    case Reg002 => "reg_002"
    case Acc001 => "acc_001"
    case Acc002 => "acc_002"
    case Line001 => "line_001"
    case Line002 => "line_002"
    case Price001 => "price_001"
    case Price002 => "price_002"
    case Log001 => "log_001"
    case Log002 => "log_002"
    case Mkt001 => "mkt_001"
    case Mkt002 => "mkt_002"
  }

  /** Looks an entry up by its id string. */
  function IdFromName(s: string): Option<BankId> {
    if s == "req_accessibility" then Some(ReqAccessibility)
    else if s == "req_catch_all" then Some(ReqCatchAll)
    else if s == "exp_001" then Some(Exp001)
    else if s == "exp_002" then Some(Exp002)
    else if s == "pref_001" then Some(Pref001)
    else if s == "pref_002" then Some(Pref002)
    else if s == "reg_001" then Some(Reg001)
    else if s == "reg_002" then Some(Reg002)
    else if s == "acc_001" then Some(Acc001)
    else if s == "acc_002" then Some(Acc002)
    else if s == "line_001" then Some(Line001)
    else if s == "line_002" then Some(Line002)
    else if s == "price_001" then Some(Price001)
    else if s == "price_002" then Some(Price002)
    else if s == "log_001" then Some(Log001)
    else if s == "log_002" then Some(Log002)
    else if s == "mkt_001" then Some(Mkt001)
    else if s == "mkt_002" then Some(Mkt002)
    else None
  }

  /** Looking an entry's id string up gives back that entry. */
  lemma IdFromNameInverts(a: BankId)
    ensures IdFromName(IdName(a)) == Some(a)
  {
    if IdIndex(a) < 6 {
      InvertsEarly(a);
    } else if IdIndex(a) < 12 {
      InvertsMiddle(a);
    } else {
      InvertsLate(a);
    }
  }

  lemma InvertsEarly(a: BankId)
    requires IdIndex(a) < 6
    ensures IdFromName(IdName(a)) == Some(a)
  {
  }

  lemma InvertsMiddle(a: BankId)
    requires 6 <= IdIndex(a) < 12
    ensures IdFromName(IdName(a)) == Some(a)
  {
  }

  lemma InvertsLate(a: BankId)
    requires 12 <= IdIndex(a)
    ensures IdFromName(IdName(a)) == Some(a)
  {
  }

  /** No two entries share an id string. */
  lemma IdNamesUnique(a: BankId, b: BankId)
    ensures IdName(a) == IdName(b) ==> a == b
  {
    IdFromNameInverts(a);
    IdFromNameInverts(b);
  }

  /** One bank entry. */
  datatype BankQuestion = BankQuestion(
    id: BankId,
    template: TextTemplate,
    qtype: string,
    options: Option<seq<string>>,
    category: Category,
    isRequired: bool)

  const ImportanceScale: seq<string> := ["Not Important", "Slightly Important", "Moderately Important", "Very Important", "Extremely Important"]

  /** The entry's text template. */
  function TemplateOf(id: BankId): TextTemplate {
    match id
    case ReqAccessibility =>
      Around("Do you have any accessibility requirements we should know about for ", "?")
    case ReqCatchAll =>
      Around("Is there anything else you'd like us to know about your expectations for ", "?")
    case Exp001 =>
      Around("What are you most hoping to experience at ", "?")
    case Exp002 =>
      Around("How important is it that ", " delivers a unique experience compared to other events?")
    case Pref001 =>
      Around("What type of music or performances would you most like to see at ", "?")
    case Pref002 =>
      Plain("What is your preferred event format?")
    case Reg001 =>
      Around("What motivated you to register interest in ", "?")
    case Reg002 =>
      Around("How likely are you to attend ", " if tickets become available?")
    case Acc001 =>
      Around("Which accessibility features are important to you for ", "?")
    case Acc002 =>
      Plain("Do you have any dietary requirements we should consider for food offerings?")
    case Line001 =>
      Plain("How important is it that the lineup features well-known headliners?")
    case Line002 =>
      Around("How interested are you in discovering new/emerging artists at ", "?")
    case Price001 =>
      Around("What price range would you consider reasonable for ", "?")
    case Price002 =>
      Plain("Which ticket type would you be most interested in?")
    case Log001 =>
      Around("Which days of the week work best for you to attend ", "?")
    case Log002 =>
      Around("How will you most likely travel to ", "?")
    case Mkt001 =>
      Around("How did you first hear about ", "?")
    case Mkt002 =>
      Around("What information would be most helpful to know before deciding to attend ", "?")
  }

  /** The entry's question type. */
  function TypeOf(id: BankId): string {
    match id
    case ReqAccessibility => TypeTextarea
    case ReqCatchAll => TypeTextarea
    case Exp001 => TypeMultiSelect
    case Exp002 => TypeLikert
    case Pref001 => TypeMultiSelect
    case Pref002 => TypeSingleSelect
    case Reg001 => TypeMultiSelect
    case Reg002 => TypeLikert
    case Acc001 => TypeMultiSelect
    case Acc002 => TypeMultiSelect
    case Line001 => TypeLikert
    case Line002 => TypeLikert
    case Price001 => TypeSingleSelect
    case Price002 => TypeSingleSelect
    case Log001 => TypeMultiSelect
    case Log002 => TypeSingleSelect
    case Mkt001 => TypeSingleSelect
    case Mkt002 => TypeMultiSelect
  }

  /** The entry's options; `None` for free-text entries. */
  function OptionsOf(id: BankId): Option<seq<string>> {
    match id
    case ReqAccessibility => None
    case ReqCatchAll => None
    case Exp001 => Some(["Live music performances", "Discovering new artists", "Social atmosphere", "Food and drinks", "Meeting like-minded people", "Unique venue experience"])
    case Exp002 => Some(ImportanceScale)
    case Pref001 => Some(["Electronic/DJ", "Live bands", "Acoustic/Singer-songwriter", "Hip-hop/R&B", "Rock/Alternative", "Pop", "Jazz/Blues", "World music"])
    case Pref002 => Some(["Single day event", "Multi-day festival", "Evening only", "All-day event", "No preference"])
    case Reg001 => Some(["The lineup/artists", "The venue", "Recommendation from friends", "Previous positive experience", "Social media buzz", "Value for money", "Unique concept"])
    case Reg002 => Some(["Very Unlikely", "Unlikely", "Neutral", "Likely", "Very Likely"])
    case Acc001 => Some(["Wheelchair access", "Accessible viewing areas", "Accessible toilets", "Quiet/low sensory spaces", "Sign language interpretation", "Hearing loops", "None needed"])
    case Acc002 => Some(["Vegetarian", "Vegan", "Gluten-free", "Halal", "Kosher", "Nut allergies", "Other allergies", "No specific requirements"])
    case Line001 => Some(ImportanceScale)
    case Line002 => Some(["Not Interested", "Slightly Interested", "Moderately Interested", "Very Interested", "Extremely Interested"])
    case Price001 => Some(["Under $50", "$50-$100", "$100-$150", "$150-$200", "$200-$300", "Over $300"])
    case Price002 => Some(["General admission", "Early bird discount", "VIP/Premium", "Group discount", "Payment plan option"])
    case Log001 => Some(["Monday", "Tuesday", "Wednesday", "Thursday", "Friday", "Saturday", "Sunday"])
    case Log002 => Some(["Drive and park", "Public transport", "Taxi/Rideshare", "Walk/Cycle", "Shuttle service if available", "Undecided"])
    case Mkt001 => Some(["Instagram", "Facebook", "TikTok", "Friend/Word of mouth", "Email newsletter", "Website search", "Poster/Flyer", "Radio", "Other"])
    case Mkt002 => Some(["Full lineup announcement", "Ticket prices", "Venue details", "Schedule/Timetable", "Food and drink options", "Parking/Transport info", "What to bring/not bring"])
  }

  /** The entry's category. */
  function CategoryOf(id: BankId): Category {
    match id
    case ReqAccessibility => Accessibility
    case ReqCatchAll => Expectations
    case Exp001 => Expectations
    case Exp002 => Expectations
    case Pref001 => Preferences
    case Pref002 => Preferences
    case Reg001 => Registration
    case Reg002 => Registration
    case Acc001 => Accessibility
    case Acc002 => Accessibility
    case Line001 => LineupInterest
    case Line002 => LineupInterest
    case Price001 => Pricing
    case Price002 => Pricing
    case Log001 => Logistics
    case Log002 => Logistics
    case Mkt001 => Marketing
    case Mkt002 => Marketing
  }

  /** Whether the entry must appear in every survey. */
  function RequiredOf(id: BankId): bool {
    match id
    case ReqAccessibility => true
    case ReqCatchAll => true
    case Exp001 => false
    case Exp002 => false
    case Pref001 => false
    case Pref002 => false
    case Reg001 => false
    case Reg002 => false
    case Acc001 => false
    case Acc002 => false
    case Line001 => false
    case Line002 => false
    case Price001 => false
    case Price002 => false
    case Log001 => false
    case Log002 => false
    case Mkt001 => false
    case Mkt002 => false
  }

  /** One entry of `QUESTION_BANK`, assembled from its fields. */
  function Entry(id: BankId): BankQuestion {
    BankQuestion(id, TemplateOf(id), TypeOf(id), OptionsOf(id), CategoryOf(id), RequiredOf(id))
  }

  const BankSize: nat := 18

  /** The entry at each position of the bank. */
  function IdAt(i: nat): BankId
    requires i < BankSize
  {
    if i == 0 then ReqAccessibility
    else if i == 1 then ReqCatchAll
    else if i == 2 then Exp001
    else if i == 3 then Exp002
    else if i == 4 then Pref001
    else if i == 5 then Pref002
    else if i == 6 then Reg001
    else if i == 7 then Reg002
    else if i == 8 then Acc001
    else if i == 9 then Acc002
    else if i == 10 then Line001
    else if i == 11 then Line002
    else if i == 12 then Price001
    else if i == 13 then Price002
    else if i == 14 then Log001
    else if i == 15 then Log002
    else if i == 16 then Mkt001
    else Mkt002
  }

  /** The position of each entry in the bank. */
  function IdIndex(id: BankId): (i: nat)
    ensures i < BankSize && IdAt(i) == id
  {
    match id
    case ReqAccessibility => 0
    case ReqCatchAll => 1
    case Exp001 => 2
    case Exp002 => 3
    case Pref001 => 4
    case Pref002 => 5
    case Reg001 => 6
    case Reg002 => 7
    case Acc001 => 8
    case Acc002 => 9
    case Line001 => 10
    case Line002 => 11
    case Price001 => 12
    case Price002 => 13
    case Log001 => 14
    case Log002 => 15
    case Mkt001 => 16
    case Mkt002 => 17
  }

  /** Positions and entries correspond one to one. */
  lemma IdAtInjective(i: nat)
    requires i < BankSize
    ensures IdIndex(IdAt(i)) == i
  {
  }

  /** The bank order of the entries. */
  function BankOrder(): (r: seq<BankId>)
    ensures |r| == BankSize
    ensures forall i :: 0 <= i < BankSize ==> r[i] == IdAt(i)
  {
    seq(BankSize, i requires 0 <= i < BankSize => IdAt(i))
  }

  /** Each entry appears in the bank exactly once. */
  lemma BankOrderComplete(id: BankId)
    ensures id in BankOrder()
    ensures forall i, j :: 0 <= i < j < BankSize ==> BankOrder()[i] != BankOrder()[j]
  {
    assert BankOrder()[IdIndex(id)] == id;
    forall i, j | 0 <= i < j < BankSize
      ensures BankOrder()[i] != BankOrder()[j]
    {
      IdAtInjective(i);
      IdAtInjective(j);
    }
  }

  /** The bank entries with the given ids, in that order. */
  function Entries(ids: seq<BankId>): seq<BankQuestion> {
    Map(ids, Entry)
  }

  /** `QUESTION_BANK` (and `get_all_questions`). */
  function Bank(): (r: seq<BankQuestion>)
    ensures |r| == BankSize
  {
    Entries(BankOrder())
  }

  /**
   * Free-text entries carry no options and every other entry a non-empty
   * list; every type is one of the five survey types.
   */
  lemma EntryWellTyped(id: BankId)
    ensures (TypeOf(id) == TypeText || TypeOf(id) == TypeTextarea) <==> OptionsOf(id).None?
    ensures OptionsOf(id).Some? ==> |OptionsOf(id).value| > 0
    ensures TypeOf(id) in ValidTypes
  {
    TypeNameLengths();
    if OptionsOf(id).Some? {
      OptionsNonEmpty(id);
    }
  }

  /** The five type names have five different lengths, so they are pairwise distinct. */
  lemma TypeNameLengths()
    ensures |TypeText| == 4 && |TypeTextarea| == 8 && |TypeSingleSelect| == 13
    ensures |TypeMultiSelect| == 12 && |TypeLikert| == 6
  {
  }

  lemma OptionsNonEmpty(id: BankId)
    requires OptionsOf(id).Some?
    ensures |OptionsOf(id).value| > 0
  {
  }

  predicate IsRequired(q: BankQuestion) { q.isRequired }

  /** `get_required_questions()`: the bank entries flagged as required, in bank order. */
  function GetRequiredQuestions(): (r: seq<BankQuestion>)
    ensures forall i :: 0 <= i < |r| ==> r[i].isRequired
  {
    RequiredAmong(Bank())
  }

  /** The entries of `qs` flagged as required, in order. */
  function RequiredAmong(qs: seq<BankQuestion>): (r: seq<BankQuestion>)
    ensures forall i :: 0 <= i < |r| ==> r[i].isRequired
  {
    FilterMembers(qs, IsRequired);
    Filter(qs, IsRequired)
  }

  predicate RequiredId(id: BankId) { RequiredOf(id) }

  lemma RequiredExactly(id: BankId)
    ensures RequiredId(id) <==> IdIndex(id) < 2
  {
  }

  /** The required flag of the entry at each bank position. */
  lemma BankRequiredAt(i: nat)
    requires i < BankSize
    ensures Bank()[i].isRequired <==> i < 2
  {
    IdAtInjective(i);
    RequiredExactly(IdAt(i));
  }

  /**
   * The required entries are exactly the first two of the bank, the
   * accessibility and catch-all questions, in that order.
   */
  lemma RequiredAreTheTwo()
    ensures GetRequiredQuestions() == Bank()[..2]
    ensures Bank()[0] == Entry(ReqAccessibility) && Bank()[1] == Entry(ReqCatchAll)
  {
    var b := Bank();
    forall i | 0 <= i < |b|
      ensures IsRequired(b[i]) <==> i < 2
    {
      BankRequiredAt(i);
    }
    FilterPrefix(b, IsRequired, 2);
  }

  /** The category filter of `get_questions_by_category`. */
  function InCategory(category: string): BankQuestion -> bool {
    (q: BankQuestion) => CategoryName(q.category) == category
  }

  /** `[q for q in qs if q["category"] == category]`. */
  function ByCategory(qs: seq<BankQuestion>, category: string): (r: seq<BankQuestion>)
    ensures forall i :: 0 <= i < |r| ==> CategoryName(r[i].category) == category && r[i] in qs
    ensures forall i :: 0 <= i < |qs| && CategoryName(qs[i].category) == category ==> qs[i] in r
  {
    FilterMembers(qs, InCategory(category));
    Filter(qs, InCategory(category))
  }

  /** `get_questions_by_category`: the bank entries of that category, and only those. */
  function GetQuestionsByCategory(category: string): (r: seq<BankQuestion>)
    ensures forall i :: 0 <= i < |r| ==> CategoryName(r[i].category) == category
    ensures forall id :: CategoryName(CategoryOf(id)) == category ==> Entry(id) in r
  {
    EntriesInBank();
    ByCategory(Bank(), category)
  }

  /** Every entry sits in the bank at its own position. */
  lemma EntriesInBank()
    ensures forall id :: Bank()[IdIndex(id)] == Entry(id)
  {
  }

  /** The category filter keeps bank order: filtering a concatenation filters each part. */
  lemma ByCategoryKeepsOrder(a: seq<BankQuestion>, b: seq<BankQuestion>, category: string)
    ensures ByCategory(a + b, category) == ByCategory(a, category) + ByCategory(b, category)
  {
    FilterConcat(a, b, InCategory(category));
  }

  /** A name no entry carries selects nothing. */
  lemma UnknownCategoryIsEmpty(category: string)
    requires category !in GetCategories()
    ensures GetQuestionsByCategory(category) == []
  {
    var b := Bank();
    forall i | 0 <= i < |b|
      ensures !InCategory(category)(b[i])
    {
      CategoryListed(b[i].category);
    }
    FilterNone(b, InCategory(category));
  }

  /** The record `format_question` returns: the entry, plus its filled-in text. */
  datatype FormattedQuestion = FormattedQuestion(entry: BankQuestion, questionText: string)

  /** `format_question`: fills the text and leaves every other field as it was. */
  function FormatQuestion(q: BankQuestion, eventName: string): (r: FormattedQuestion)
    ensures r.entry == q
    ensures BraceFree(q.template) ==> r.questionText == ReplaceAll(TemplateString(q.template), EventNameField, eventName)
  {
    if BraceFree(q.template) then RenderIsReplace(q.template, eventName); FormattedQuestion(q, Render(q.template, eventName))
    else FormattedQuestion(q, Render(q.template, eventName))
  }

  predicate HasOptions(q: BankQuestion) {
    q.options.Some? && |q.options.value| > 0
  }

  /** The line before any options suffix: `- [category] text (type)`. */
  function LineBase(q: BankQuestion, eventName: string): string {
    "- [" + CategoryName(q.category) + "] " + FormatQuestion(q, eventName).questionText + " (" + q.qtype + ")"
  }

  /** One prompt line: the base, with an options suffix exactly when options are non-empty. */
  function PromptLine(q: BankQuestion, eventName: string): (r: string)
    ensures StartsWith(r, LineBase(q, eventName))
    ensures HasOptions(q) <==> |r| > |LineBase(q, eventName)|
    ensures StartsWith(r, "- [" + CategoryName(q.category) + "] ")
  {
    var base := LineBase(q, eventName);
    assert base[..|"- [" + CategoryName(q.category) + "] "|] == "- [" + CategoryName(q.category) + "] ";
    if HasOptions(q) then base + " Options: " + ListRepr(q.options.value) else base
  }

  function PromptLines(qs: seq<BankQuestion>, eventName: string): (r: seq<string>)
    ensures |r| == |qs|
    ensures forall i :: 0 <= i < |qs| ==> r[i] == PromptLine(qs[i], eventName)
  {
    if |qs| == 0 then [] else [PromptLine(qs[0], eventName)] + PromptLines(qs[1..], eventName)
  }

  /** `format_questions_for_prompt`. */
  function FormatQuestionsForPrompt(qs: seq<BankQuestion>, eventName: string): (r: string)
    ensures |qs| > 0 ==> StartsWith(r, PromptLine(qs[0], eventName))
  {
    Join("\n", PromptLines(qs, eventName))
  }

  /** With no newline inside any line, the prompt block splits back into one line per question. */
  lemma PromptHasOneLinePerQuestion(qs: seq<BankQuestion>, eventName: string)
    requires |qs| > 0
    requires forall i :: 0 <= i < |qs| ==> '\n' !in PromptLine(qs[i], eventName)
    ensures Split(FormatQuestionsForPrompt(qs, eventName), '\n') == PromptLines(qs, eventName)
  {
    SplitJoin(PromptLines(qs, eventName), '\n');
  }
}
