/**
 * Helpers of the panorama endpoints: the slug and column-header text
 * functions, and the row order used when a reviewed survey is saved
 * (universal questions first, then the staged ones renumbered from zero).
 */
module Panoramas {
  import opened Wrappers
  import opened Text
  import UniversalQuestions

  // generate_slug

  /** The characters `[^\w\s-]` does not remove. */
  predicate SlugKeeps(c: char) {
    IsWordChar(c) || IsSpace(c) || c == '-'
  }

  /** `re.sub(r'[^\w\s-]', '', s)`. */
  function DropOthers(s: string): (r: string)
    ensures forall i :: 0 <= i < |r| ==> SlugKeeps(r[i])
    ensures AllLower(s) ==> AllLower(r)
  {
    if |s| == 0 then []
    else (if SlugKeeps(s[0]) then [s[0]] else []) + DropOthers(s[1..])
  }

  /** The characters `[-\s]` matches. */
  predicate IsSeparator(c: char) {
    c == '-' || IsSpace(c)
  }

  /**
   * `re.sub(r'[-\s]+', '_', s)`, continuing after a separator run when
   * `inRun` holds: every maximal run of separators becomes one '_'.
   */
  function CollapseFrom(s: string, inRun: bool): (r: string)
    ensures forall i :: 0 <= i < |r| ==> !IsSeparator(r[i])
    ensures Cleaned(s) ==> SlugChars(r)
  {
    if |s| == 0 then []
    else if IsSeparator(s[0]) then (if inRun then [] else "_") + CollapseFrom(s[1..], true)
    else [s[0]] + CollapseFrom(s[1..], false)
  }

  function Collapse(s: string): (r: string)
    ensures forall i :: 0 <= i < |r| ==> !IsSeparator(r[i])
    ensures Cleaned(s) ==> SlugChars(r)
  {
    CollapseFrom(s, false)
  }

  /** Lower-case text of word characters, whitespace and '-': what survives the first two steps. */
  predicate Cleaned(s: string) {
    forall i :: 0 <= i < |s| ==> SlugKeeps(s[i]) && !IsUpperCase(s[i])
  }

  /** Lower-case word characters only. */
  predicate SlugChars(s: string) {
    forall i :: 0 <= i < |s| ==> IsWordChar(s[i]) && !IsUpperCase(s[i])
  }

  /** A slug: lower-case word characters, not starting or ending with '_'. */
  predicate IsSlug(s: string) {
    SlugChars(s) && (|s| > 0 ==> s[0] != '_' && s[|s| - 1] != '_')
  }

  /** `generate_slug`. */
  function GenerateSlug(text: string): (r: string)
    ensures IsSlug(r)
  {
    LowerIsLower(text);
    var collapsed := Collapse(DropOthers(Lower(text)));
    StripCharSlice(collapsed, '_');
    StripChar(collapsed, '_')
  }

  lemma {:induction false} DropOthersKeeps(s: string)
    requires forall i :: 0 <= i < |s| ==> SlugKeeps(s[i])
    ensures DropOthers(s) == s
    decreases |s|
  {
    if |s| > 0 {
      DropOthersKeeps(s[1..]);
    }
  }

  lemma {:induction false} CollapseKeeps(s: string, inRun: bool)
    requires forall i :: 0 <= i < |s| ==> !IsSeparator(s[i])
    ensures CollapseFrom(s, inRun) == s
    decreases |s|
  {
    if |s| > 0 {
      CollapseKeeps(s[1..], false);
    }
  }

  lemma StripCharKeeps(s: string, c: char)
    requires |s| > 0 ==> s[0] != c && s[|s| - 1] != c
    ensures StripChar(s, c) == s
  {
  }

  /** A slug is its own slug, so slugging is idempotent. */
  lemma SlugFixesSlugs(s: string)
    requires IsSlug(s)
    ensures GenerateSlug(s) == s
  {
    LowerIsLower(s);
    DropOthersKeeps(s);
    CollapseKeeps(s, false);
    StripCharKeeps(s, '_');
  }

  lemma SlugIdempotent(text: string)
    ensures GenerateSlug(GenerateSlug(text)) == GenerateSlug(text)
  {
    SlugFixesSlugs(GenerateSlug(text));
  }

  // format_question_header

  /** `s.split()`, continuing a word `cur`: the maximal whitespace-free runs, in order. */
  function WordsFrom(s: string, cur: string): (r: seq<string>)
    requires forall i :: 0 <= i < |cur| ==> !IsSpace(cur[i])
    ensures forall k :: 0 <= k < |r| ==> |r[k]| > 0 && forall i :: 0 <= i < |r[k]| ==> !IsSpace(r[k][i])
    ensures '_' !in s && '_' !in cur ==> forall k :: 0 <= k < |r| ==> '_' !in r[k]
    decreases |s|
  {
    if |s| == 0 then (if |cur| == 0 then [] else [cur])
    else if IsSpace(s[0]) then (if |cur| == 0 then [] else [cur]) + WordsFrom(s[1..], [])
    else WordsFrom(s[1..], cur + [s[0]])
  }

  function Words(s: string): (r: seq<string>)
    ensures forall k :: 0 <= k < |r| ==> |r[k]| > 0 && forall i :: 0 <= i < |r[k]| ==> !IsSpace(r[k][i])
    ensures '_' !in s ==> forall k :: 0 <= k < |r| ==> '_' !in r[k]
  {
    WordsFrom(s, [])
  }

  function Concat(parts: seq<string>): string
    decreases |parts|
  {
    if |parts| == 0 then "" else parts[0] + Concat(parts[1..])
  }

  /** `s` with its whitespace removed. */
  function NonSpace(s: string): string
    decreases |s|
  {
    if |s| == 0 then "" else (if IsSpace(s[0]) then "" else [s[0]]) + NonSpace(s[1..])
  }

  lemma {:induction false} ConcatCons(a: string, parts: seq<string>)
    ensures Concat([a] + parts) == a + Concat(parts)
  {
    assert ([a] + parts)[1..] == parts;
  }

  /** The words, put back together, are the text without its whitespace. */
  lemma {:induction false} WordsCoverText(s: string, cur: string)
    requires forall i :: 0 <= i < |cur| ==> !IsSpace(cur[i])
    ensures Concat(WordsFrom(s, cur)) == cur + NonSpace(s)
    decreases |s|
  {
    if |s| == 0 {
      if |cur| > 0 {
        ConcatCons(cur, []);
      }
    } else if IsSpace(s[0]) {
      WordsCoverText(s[1..], []);
      if |cur| > 0 {
        ConcatCons(cur, WordsFrom(s[1..], []));
      } else {
        assert [] + WordsFrom(s[1..], []) == WordsFrom(s[1..], []);
      }
    } else {
      WordsCoverText(s[1..], cur + [s[0]]);
      assert cur + [s[0]] + NonSpace(s[1..]) == cur + NonSpace(s);
    }
  }

  /** `w.capitalize()`: the first character upper-case, the rest lower-case. */
  function Capitalize(w: string): (r: string)
    ensures |r| == |w|
    ensures |r| > 0 ==> !IsLowerCase(r[0])
    ensures forall i :: 1 <= i < |r| ==> !IsUpperCase(r[i])
    ensures Lower(r) == Lower(w)
  {
    if |w| == 0 then ""
    else
      var r := [UpperChar(w[0])] + Lower(w[1..]);
      assert LowerChar(UpperChar(w[0])) == LowerChar(w[0]);
      assert forall i :: 1 <= i < |w| ==> LowerChar(r[i]) == LowerChar(w[i]);
      r
  }

  function CapitalizeAll(ws: seq<string>): (r: seq<string>)
    ensures |r| == |ws|
    ensures forall k :: 0 <= k < |ws| ==> r[k] == Capitalize(ws[k])
  {
    if |ws| == 0 then [] else [Capitalize(ws[0])] + CapitalizeAll(ws[1..])
  }

  /** A non-empty word with no whitespace and no underscore. */
  predicate CleanWord(w: string) {
    |w| > 0 && forall i :: 0 <= i < |w| ==> !IsSpace(w[i]) && w[i] != '_'
  }

  /** Changing case never produces whitespace or an underscore. */
  lemma CapitalizeClean(w: string)
    requires CleanWord(w)
    ensures CleanWord(Capitalize(w))
  {
    var r := Capitalize(w);
    forall i | 0 <= i < |r|
      ensures !IsSpace(r[i]) && r[i] != '_'
    {
      if i == 0 {
        assert r[0] == UpperChar(w[0]);
      } else {
        assert r[i] == Lower(w[1..])[i - 1] == LowerChar(w[i]);
      }
    }
  }

  /** The words of a header, before they are joined. */
  function HeaderWords(questionText: string): (r: seq<string>)
    ensures forall k :: 0 <= k < |r| ==> CleanWord(r[k])
  {
    var cleaned := HeaderSource(questionText);
    var ws := Words(cleaned);
    forall k | 0 <= k < |ws|
      ensures CleanWord(Capitalize(ws[k]))
    {
      CapitalizeClean(ws[k]);
    }
    CapitalizeAll(ws)
  }

  /** The text a header is built from: stripped, trailing '?' removed, '_' read as a space. */
  function HeaderSource(questionText: string): (r: string)
    ensures '_' !in r
  {
    ReplaceChar(RStripChar(Strip(questionText), '?'), '_', ' ')
  }

  /** Capitalising every word keeps the letters, up to case. */
  lemma {:induction false} CapitalizeAllKeepsLetters(ws: seq<string>)
    ensures Lower(Concat(CapitalizeAll(ws))) == Lower(Concat(ws))
    decreases |ws|
  {
    if |ws| > 0 {
      CapitalizeAllKeepsLetters(ws[1..]);
      var cs := CapitalizeAll(ws);
      assert cs == [Capitalize(ws[0])] + CapitalizeAll(ws[1..]);
      ConcatCons(Capitalize(ws[0]), CapitalizeAll(ws[1..]));
      ConcatCons(ws[0], ws[1..]);
      assert ws == [ws[0]] + ws[1..];
      LowerConcat(Capitalize(ws[0]), Concat(CapitalizeAll(ws[1..])));
      LowerConcat(ws[0], Concat(ws[1..]));
    }
  }

  /**
   * The header's words hold exactly the letters of the question text, up to case: put
   * together, they are the stripped text without its trailing '?', its underscores and its whitespace.
   */
  lemma HeaderWordsFromText(questionText: string)
    ensures Lower(Concat(HeaderWords(questionText))) == Lower(NonSpace(HeaderSource(questionText)))
  {
    var ws := Words(HeaderSource(questionText));
    assert HeaderWords(questionText) == CapitalizeAll(ws);
    CapitalizeAllKeepsLetters(ws);
    WordsCoverText(HeaderSource(questionText), []);
    assert [] + NonSpace(HeaderSource(questionText)) == NonSpace(HeaderSource(questionText));
  }

  /** A trailing question mark does not change the header. */
  lemma QuestionMarkDropped(questionText: string)
    requires Trimmed(questionText)
    ensures FormatQuestionHeader(questionText + "?") == FormatQuestionHeader(questionText)
  {
    var s := questionText + "?";
    assert Trimmed(s);
    StripTrimmed(s);
    StripTrimmed(questionText);
    assert s[..|s| - 1] == questionText;
    assert RStripChar(s, '?') == RStripChar(questionText, '?');
    assert HeaderSource(s) == HeaderSource(questionText);
  }

  /** Every header word is capitalised: upper-case (or uncased) first, lower-case after. */
  lemma HeaderWordsCapitalised(questionText: string, k: nat)
    requires k < |HeaderWords(questionText)|
    ensures var w := HeaderWords(questionText)[k];
            !IsLowerCase(w[0]) && forall i :: 1 <= i < |w| ==> !IsUpperCase(w[i])
  {
    var cleaned := HeaderSource(questionText);
    assert HeaderWords(questionText)[k] == Capitalize(Words(cleaned)[k]);
  }

  /** `format_question_header`. */
  function FormatQuestionHeader(questionText: string): (r: string)
    ensures '_' !in r
    ensures Trimmed(r)
  {
    var ws := HeaderWords(questionText);
    JoinHeaderFacts(ws);
    Join(" ", ws)
  }

  /** Joining space-free, underscore-free, non-empty words with single spaces. */
  lemma {:induction false} JoinHeaderFacts(ws: seq<string>)
    requires forall k :: 0 <= k < |ws| ==> CleanWord(ws[k])
    ensures '_' !in Join(" ", ws)
    ensures Trimmed(Join(" ", ws))
    decreases |ws|
  {
    if |ws| > 1 {
      JoinHeaderFacts(ws[1..]);
      var rest := Join(" ", ws[1..]);
      assert Join(" ", ws) == ws[0] + " " + rest;
      JoinEndsWith(" ", ws[1..]);
      var last := ws[|ws| - 1];
      assert ws[1..][|ws[1..]| - 1] == last;
      assert rest[|rest| - 1] == last[|last| - 1];
    } else if |ws| == 1 {
      assert ws[0][0] == Join(" ", ws)[0];
    }
  }

  /**
   * The header's words, separated by single spaces: splitting the header on
   * ' ' gives back the capitalised words of the text.
   */
  lemma HeaderSplitsIntoWords(questionText: string)
    requires |HeaderWords(questionText)| > 0
    ensures Split(FormatQuestionHeader(questionText), ' ') == HeaderWords(questionText)
  {
    var ws := HeaderWords(questionText);
    assert forall k :: 0 <= k < |ws| ==> ' ' !in ws[k];
    assert Join(" ", ws) == Join([' '], ws);
    SplitJoin(ws, ' ');
  }

  // save_questions

  /** A question as submitted from the staging view; its own order is ignored. */
  datatype StagingQuestion = StagingQuestion(text: string, qtype: string, options: Option<seq<string>>, required: bool, order: int)

  /** A row written to the questions table. */
  datatype QuestionRow = QuestionRow(
    panoramaId: string,
    text: string,
    qtype: string,
    options: Option<seq<string>>,
    required: bool,
    order: int,
    isUniversal: bool)

  function UniversalRowData(r: UniversalQuestions.UniversalRow): QuestionRow {
    var q := r.Question();
    QuestionRow(r.panoramaId, q.text, q.qtype, q.options, q.required, q.order, true)
  }

  function UniversalRows(rs: seq<UniversalQuestions.UniversalRow>): (r: seq<QuestionRow>)
    ensures |r| == |rs|
    ensures forall i :: 0 <= i < |rs| ==> r[i] == UniversalRowData(rs[i])
  {
    if |rs| == 0 then [] else [UniversalRowData(rs[0])] + UniversalRows(rs[1..])
  }

  /** The staged questions as rows, numbered from `from` in submission order. */
  function StagedRows(panoramaId: string, qs: seq<StagingQuestion>, from: int): (r: seq<QuestionRow>)
    ensures |r| == |qs|
    ensures forall i :: 0 <= i < |qs| ==> r[i] == QuestionRow(panoramaId, qs[i].text, qs[i].qtype, qs[i].options, qs[i].required, from + i, false)
    decreases |qs|
  {
    if |qs| == 0 then []
    else [QuestionRow(panoramaId, qs[0].text, qs[0].qtype, qs[0].options, qs[0].required, from, false)]
         + StagedRows(panoramaId, qs[1..], from + 1)
  }

  /** What `save_questions` reports, or the 400 error for an empty save. */
  datatype SaveOutcome = Saved(rows: seq<QuestionRow>, universalCount: nat, llmCount: nat) | NoQuestionsProvided

  /**
   * `save_questions` for a panorama that exists, with its universal-question
   * config: the universal rows, then the staged rows numbered 0 to n-1.
   */
  function SaveQuestions(panoramaId: string, config: map<string, bool>, staged: seq<StagingQuestion>): (r: SaveOutcome)
    ensures r.Saved?
    ensures |r.rows| == r.universalCount + r.llmCount && r.llmCount == |staged|
    ensures 3 <= r.universalCount <= 8
    ensures r.rows[r.universalCount..] == StagedRows(panoramaId, staged, 0)
    ensures forall i :: 0 <= i < r.universalCount ==> r.rows[i].isUniversal && r.rows[i].order < 0
    ensures r.rows[..r.universalCount] == UniversalRows(UniversalQuestions.GetUniversalQuestions(panoramaId, config))
  {
    var universal := UniversalRows(UniversalQuestions.GetUniversalQuestions(panoramaId, config));
    var llm := StagedRows(panoramaId, staged, 0);
    var all := universal + llm;
    if |all| == 0 then NoQuestionsProvided
    else
      assert all[|universal|..] == llm;
      assert all[..|universal|] == universal;
      Saved(all, |universal|, |llm|)
  }

  /** The saved rows are the universal rows followed by the staged rows. */
  lemma SavedRows(panoramaId: string, config: map<string, bool>, staged: seq<StagingQuestion>)
    ensures var r := SaveQuestions(panoramaId, config, staged);
      && r.rows == UniversalRows(UniversalQuestions.GetUniversalQuestions(panoramaId, config)) + StagedRows(panoramaId, staged, 0)
      && r.universalCount == |UniversalQuestions.GetUniversalQuestions(panoramaId, config)|
  {
  }

  /** Rows in increasing negative order followed by rows numbered from 0 have increasing orders. */
  lemma ConcatOrdersIncrease(left: seq<QuestionRow>, right: seq<QuestionRow>, i: nat, j: nat)
    requires forall a, b :: 0 <= a < b < |left| ==> left[a].order < left[b].order
    requires forall a :: 0 <= a < |left| ==> left[a].order < 0
    requires forall a :: 0 <= a < |right| ==> right[a].order == a
    requires i < j < |left| + |right|
    ensures (left + right)[i].order < (left + right)[j].order
  {
    if j < |left| {
      assert (left + right)[i] == left[i] && (left + right)[j] == left[j];
    } else if i >= |left| {
      assert (left + right)[i] == right[i - |left|] && (left + right)[j] == right[j - |left|];
    } else {
      assert (left + right)[i] == left[i] && (left + right)[j] == right[j - |left|];
    }
  }

  /** Saved rows are ordered by their `order` field: universal ones (negative) before staged ones (from 0). */
  lemma SavedOrdersIncrease(panoramaId: string, config: map<string, bool>, staged: seq<StagingQuestion>, i: nat, j: nat)
    requires i < j < |SaveQuestions(panoramaId, config, staged).rows|
    ensures SaveQuestions(panoramaId, config, staged).rows[i].order < SaveQuestions(panoramaId, config, staged).rows[j].order
  {
    SavedRows(panoramaId, config, staged);
    BuiltOrdersIncrease(UniversalQuestions.GetUniversalQuestions(panoramaId, config), panoramaId, staged, i, j);
  }

  /** The universal rows of a config followed by the staged rows have increasing orders. */
  lemma BuiltOrdersIncrease(us: seq<UniversalQuestions.UniversalRow>, panoramaId: string, staged: seq<StagingQuestion>, i: nat, j: nat)
    requires forall a, b :: 0 <= a < b < |us| ==> UniversalQuestions.Order(us[a].key) < UniversalQuestions.Order(us[b].key) < 0
    requires i < j < |us| + |staged|
    ensures (UniversalRows(us) + StagedRows(panoramaId, staged, 0))[i].order < (UniversalRows(us) + StagedRows(panoramaId, staged, 0))[j].order
  {
    UniversalRowOrders(us);
    assert forall a :: 0 <= a < |staged| ==> StagedRows(panoramaId, staged, 0)[a].order == a;
    ConcatOrdersIncrease(UniversalRows(us), StagedRows(panoramaId, staged, 0), i, j);
  }

  /** Universal rows carry their catalogue order, so they keep the order of their keys. */
  lemma UniversalRowOrders(us: seq<UniversalQuestions.UniversalRow>)
    requires forall a, b :: 0 <= a < b < |us| ==> UniversalQuestions.Order(us[a].key) < UniversalQuestions.Order(us[b].key) < 0
    ensures forall a, b :: 0 <= a < b < |us| ==> UniversalRows(us)[a].order < UniversalRows(us)[b].order
    ensures forall a :: 0 <= a < |us| ==> UniversalRows(us)[a].order < 0
  {
    assert forall a :: 0 <= a < |us| ==> UniversalRows(us)[a].order == UniversalQuestions.Order(us[a].key);
  }
}
