/**
 * The Pulse direct-message conversation: a per-user record that moves from
 * invited to in progress to completed, answer checking against the current
 * question, and the text each question is displayed with. Database rows are
 * explicit state here: the conversation record, the question list and the
 * saved responses.
 */
module ConversationHandler {
  import opened Wrappers
  import opened Text

  // Integer parsing for numbered answers

  function DigitValue(c: char): (d: nat)
    requires IsDigit(c)
    ensures d < 10
  {
    c as int - '0' as int
  }

  predicate AllDigits(s: string) {
    forall i :: 0 <= i < |s| ==> IsDigit(s[i])
  }

  /** The value of a run of decimal digits, most significant first. */
  function DigitsValue(s: string): nat
    requires AllDigits(s)
  {
    if |s| == 0 then 0 else 10 * DigitsValue(s[..|s| - 1]) + DigitValue(s[|s| - 1])
  }

  /** `int(s)` on stripped text: an optional sign followed by one or more decimal digits. */
  function ParseInt(s: string): (r: Option<int>)
    ensures r.Some? ==> |s| > 0
  {
    if |s| > 0 && (s[0] == '+' || s[0] == '-') then
      var body := s[1..];
      if |body| > 0 && AllDigits(body) then
        var v: int := DigitsValue(body);
        Some(if s[0] == '-' then -v else v)
      else None
    else if |s| > 0 && AllDigits(s) then Some(DigitsValue(s))
    else None
  }

  /** Reading back a rendered natural number gives the number. */
  lemma {:induction false} DigitsValueOfNat(n: nat)
    ensures AllDigits(NatToString(n)) && DigitsValue(NatToString(n)) == n
    decreases n
  {
    var s := NatToString(n);
    if n >= 10 {
      DigitsValueOfNat(n / 10);
      assert s[..|s| - 1] == NatToString(n / 10);
    }
  }

  /** `int(str(n))` is `n` for every natural number. */
  lemma ParseRendered(n: nat)
    ensures ParseInt(NatToString(n)) == Some(n)
  {
    DigitsValueOfNat(n);
    var s := NatToString(n);
    assert IsDigit(s[0]);
  }

  // Questions, answers and the question display

  const TypeSingleSelect: string := "Single-select"

  /** A stored Pulse question; a missing or null options value reads as the empty list. */
  datatype PulseQuestion = PulseQuestion(id: string, text: string, qtype: string, options: seq<string>)

  /** The outcome of `_validate_response`. */
  datatype AnswerCheck = Valid(response: string) | Invalid(error: string)

  const OptionError: string := "Please reply with a valid option number or text."
  const EmptyError: string := "Please provide a response."

  /** The answer reads as an option number between 1 and the number of options. */
  predicate NumberChoice(options: seq<string>, answer: string) {
    ParseInt(answer).Some? && 1 <= ParseInt(answer).value <= |options|
  }

  /** The answer spells some option, ignoring case. */
  predicate NamesOption(options: seq<string>, answer: string) {
    exists j :: 0 <= j < |options| && Lower(options[j]) == Lower(answer)
  }

  /** The first option equal to `answer` ignoring case. */
  function MatchOption(options: seq<string>, answer: string): (r: Option<nat>)
    ensures r.Some? ==> r.value < |options| && Lower(options[r.value]) == Lower(answer)
    ensures r.Some? ==> forall j :: 0 <= j < r.value ==> Lower(options[j]) != Lower(answer)
    ensures r.None? ==> forall j :: 0 <= j < |options| ==> Lower(options[j]) != Lower(answer)
  {
    if |options| == 0 then None
    else if Lower(options[0]) == Lower(answer) then Some(0)
    else match MatchOption(options[1..], answer)
      case None => None
      case Some(k) => Some(k + 1)
  }

  /**
   * `_validate_response`: single-select answers are an option number (1 to n)
   * or an option's text in any case, and come back as the option itself;
   * with no options any answer passes. Other answers must be non-empty after
   * stripping.
   */
  function ValidateResponse(q: PulseQuestion, responseText: string): (r: AnswerCheck)
    ensures q.qtype == TypeSingleSelect && |q.options| > 0 && r.Valid? ==> r.response in q.options
    ensures q.qtype == TypeSingleSelect && |q.options| > 0 ==>
      (r.Invalid? <==> !NumberChoice(q.options, Strip(responseText)) && !NamesOption(q.options, Strip(responseText)))
    ensures q.qtype == TypeSingleSelect && NumberChoice(q.options, Strip(responseText)) ==>
      r == Valid(q.options[ParseInt(Strip(responseText)).value - 1])
    ensures q.qtype == TypeSingleSelect && |q.options| > 0 && r.Invalid? ==> r.error == OptionError
    ensures q.qtype == TypeSingleSelect && |q.options| == 0 ==> r == Valid(Strip(responseText))
    ensures q.qtype != TypeSingleSelect ==> (r.Invalid? <==> Strip(responseText) == "")
    ensures q.qtype != TypeSingleSelect && r.Valid? ==> r.response == Strip(responseText)
  {
    var answer := Strip(responseText);
    if q.qtype == TypeSingleSelect then
      if |q.options| == 0 then Valid(answer)
      else
        var n := ParseInt(answer);
        if n.Some? && 1 <= n.value <= |q.options| then Valid(q.options[n.value - 1])
        else match MatchOption(q.options, answer)
          case Some(k) => Valid(q.options[k])
          case None => Invalid(OptionError)
    else if answer == "" then Invalid(EmptyError)
    else Valid(answer)
  }

  /** Replying with an option's number selects that option. */
  lemma NumberSelectsOption(q: PulseQuestion, k: nat)
    requires q.qtype == TypeSingleSelect && 1 <= k <= |q.options|
    ensures ValidateResponse(q, NatToString(k)) == Valid(q.options[k - 1])
  {
    ParseRendered(k);
    var s := NatToString(k);
    assert Strip(s) == s by {
      assert IsDigit(s[0]) && IsDigit(s[|s| - 1]);
      StripTrimmed(s);
    }
  }

  /**
   * Replying with an option's text in any case selects the first option
   * spelt that way, when the reply is not a number.
   */
  lemma TextSelectsOption(q: PulseQuestion, answer: string, k: nat)
    requires q.qtype == TypeSingleSelect && k < |q.options|
    requires Trimmed(answer) && ParseInt(answer).None?
    requires Lower(q.options[k]) == Lower(answer)
    ensures ValidateResponse(q, answer).Valid?
    ensures Lower(ValidateResponse(q, answer).response) == Lower(answer)
  {
    StripTrimmed(answer);
    var m := MatchOption(q.options, answer);
    assert m.Some?;
  }

  /** The numbered option lines of the display, numbered from `from`. */
  function OptionLines(options: seq<string>, from: int): (r: string)
    decreases |options|
  {
    if |options| == 0 then "" else "\n" + OptionRow(from, options[0]) + OptionLines(options[1..], from + 1)
  }

  /** One option as displayed: its number, a full stop, a space and its text. */
  function OptionRow(n: int, option: string): string {
    IntToString(n) + ". " + option
  }

  /** The first line of the display. */
  function HeaderLine(num: int, total: int): string {
    "Question " + IntToString(num) + "/" + IntToString(total) + ":"
  }

  function QuestionHeader(num: int, total: int): string {
    HeaderLine(num, total) + "\n"
  }

  const ReplyHint: string := "Reply with the number or option text."

  /** The option list as lines: line `i` is the number `from + i`, a full stop, a space and option `i`. */
  function NumberedOptions(options: seq<string>, from: int): (r: seq<string>)
    ensures |r| == |options|
    ensures forall i :: 0 <= i < |options| ==> r[i] == OptionRow(from + i, options[i])
    decreases |options|
  {
    if |options| == 0 then []
    else
      var rest := NumberedOptions(options[1..], from + 1);
      assert forall i :: 1 <= i < |options| ==> from + i == (from + 1) + (i - 1) && options[i] == options[1..][i - 1];
      [OptionRow(from, options[0])] + rest
  }

  /** Whether the display lists the options. */
  predicate ListsOptions(q: PulseQuestion) {
    q.qtype == TypeSingleSelect && |q.options| > 0
  }

  /** `_format_question`: the header and text, then the numbered options for a single-select question that has any. */
  function FormatQuestion(q: PulseQuestion, num: int, total: int): (r: string)
    ensures StartsWith(r, QuestionHeader(num, total) + q.text)
    ensures ListsOptions(q) <==> |r| > |QuestionHeader(num, total) + q.text|
  {
    var base := QuestionHeader(num, total) + q.text;
    if ListsOptions(q) then base + "\n\nOptions:" + OptionLines(q.options, 1) + "\n\n" + ReplyHint
    else base
  }

  /** `h` followed by the numbered option lines is the newline-join of `h` and the numbered options. */
  lemma {:induction false} OptionLinesJoin(h: string, options: seq<string>, from: int)
    ensures Join("\n", [h] + NumberedOptions(options, from)) == h + OptionLines(options, from)
    decreases |options|
  {
    if |options| == 0 {
      assert [h] + NumberedOptions(options, from) == [h];
    } else {
      var first := OptionRow(from, options[0]);
      var tail := OptionLines(options[1..], from + 1);
      var rest := NumberedOptions(options[1..], from + 1);
      calc {
        Join("\n", [h] + NumberedOptions(options, from));
        { assert NumberedOptions(options, from) == [first] + rest; }
        Join("\n", [h] + ([first] + rest));
        { JoinCons("\n", h, [first] + rest); }
        h + "\n" + Join("\n", [first] + rest);
        { OptionLinesJoin(first, options[1..], from + 1); }
        h + "\n" + (first + tail);
        h + ("\n" + first + tail);
      }
    }
  }

  /** No rendered integer holds a newline. */
  lemma IntToStringNoNewline(n: int)
    ensures '\n' !in IntToString(n)
  {
    var s := IntToString(n);
    assert forall i :: 0 <= i < |s| ==> s[i] != '\n';
  }

  /** Numbered options built from newline-free options hold no newline. */
  lemma RowsHaveNoNewline(options: seq<string>, from: int)
    requires forall i :: 0 <= i < |options| ==> '\n' !in options[i]
    ensures forall i :: 0 <= i < |options| ==> '\n' !in NumberedOptions(options, from)[i]
  {
    forall i | 0 <= i < |options|
      ensures '\n' !in NumberedOptions(options, from)[i]
    {
      IntToStringNoNewline(from + i);
    }
  }

  /** The lines of a display that lists its options. */
  function ListedLines(q: PulseQuestion, num: int, total: int): seq<string> {
    [HeaderLine(num, total), q.text, "", "Options:"] + NumberedOptions(q.options, 1) + ["", ReplyHint]
  }

  /** A display that lists its options is the newline-join of its lines. */
  lemma ListedDisplayJoin(q: PulseQuestion, num: int, total: int)
    requires ListsOptions(q)
    ensures FormatQuestion(q, num, total) == Join("\n", ListedLines(q, num, total))
  {
    var hl := HeaderLine(num, total);
    ListedLinesJoinParts(q, num, total);
    JoinFront(hl, q.text);
    JoinPair("", ReplyHint);
    OptionLinesJoin("Options:", q.options, 1);
    ListedDisplayParts(q, num, total);
  }

  /** The join of the listed lines, taken as the question part, the options part and the hint part. */
  lemma ListedLinesJoinParts(q: PulseQuestion, num: int, total: int)
    ensures Join("\n", ListedLines(q, num, total)) ==
      (Join("\n", [HeaderLine(num, total), q.text, ""]) + "\n" + Join("\n", ["Options:"] + NumberedOptions(q.options, 1)))
      + "\n" + Join("\n", ["", ReplyHint])
  {
    var front := [HeaderLine(num, total), q.text, ""];
    var mid := ["Options:"] + NumberedOptions(q.options, 1);
    var back := ["", ReplyHint];
    assert ListedLines(q, num, total) == (front + mid) + back;
    JoinAppend("\n", front + mid, back);
    JoinAppend("\n", front, mid);
  }

  /** The listed display, written as the three joined parts put together with newlines. */
  lemma ListedDisplayParts(q: PulseQuestion, num: int, total: int)
    requires ListsOptions(q)
    ensures FormatQuestion(q, num, total) ==
      ((HeaderLine(num, total) + "\n" + q.text + "\n") + "\n" + ("Options:" + OptionLines(q.options, 1)))
      + "\n" + ("\n" + ReplyHint)
  {
    assert "\n\nOptions:" == "\n" + "\n" + "Options:";
    assert "\n\n" == "\n" + "\n";
  }

  /** The join of a header, a text and an empty line. */
  lemma JoinFront(a: string, b: string)
    ensures Join("\n", [a, b, ""]) == a + "\n" + b + "\n"
  {
    JoinCons("\n", a, [b, ""]);
    JoinPair(b, "");
    assert [a] + [b, ""] == [a, b, ""];
  }

  /** The join of two lines. */
  lemma JoinPair(a: string, b: string)
    ensures Join("\n", [a, b]) == a + "\n" + b
  {
    JoinCons("\n", a, [b]);
    assert [a] + [b] == [a, b];
  }

  /** No line of `lines` holds a newline. */
  predicate SingleLines(lines: seq<string>) {
    forall i :: 0 <= i < |lines| ==> '\n' !in lines[i]
  }

  /** Lines free of newlines stay so when put together. */
  lemma SingleLinesAppend(a: seq<string>, b: seq<string>)
    requires SingleLines(a) && SingleLines(b)
    ensures SingleLines(a + b)
  {
    forall i | 0 <= i < |a + b|
      ensures '\n' !in (a + b)[i]
    {
      if i >= |a| {
        assert (a + b)[i] == b[i - |a|];
      }
    }
  }

  /** The header line holds no newline. */
  lemma HeaderLineNoNewline(num: int, total: int)
    ensures '\n' !in HeaderLine(num, total)
  {
    IntToStringNoNewline(num);
    IntToStringNoNewline(total);
  }

  /** The reply hint is a single line. */
  lemma ReplyHintSingleLine()
    ensures '\n' !in ReplyHint
  {
  }

  /** Every line of a listed display is free of newlines when the question text and options are. */
  lemma ListedLinesHaveNoNewline(q: PulseQuestion, num: int, total: int)
    requires '\n' !in q.text
    requires forall i :: 0 <= i < |q.options| ==> '\n' !in q.options[i]
    ensures SingleLines(ListedLines(q, num, total))
  {
    var head := [HeaderLine(num, total), q.text, "", "Options:"];
    var rows := NumberedOptions(q.options, 1);
    var tail := ["", ReplyHint];
    HeaderLineNoNewline(num, total);
    assert SingleLines(head);
    RowsHaveNoNewline(q.options, 1);
    SingleLinesAppend(head, rows);
    ReplyHintSingleLine();
    SingleLinesAppend(head + rows, tail);
  }

  /**
   * The display read back line by line: the header and the question text; then, when the options are
   * listed, a blank line, "Options:", one line "k. option" per option numbered from 1, a blank line
   * and the reply hint.
   */
  lemma FormatQuestionLines(q: PulseQuestion, num: int, total: int)
    requires '\n' !in q.text
    requires forall i :: 0 <= i < |q.options| ==> '\n' !in q.options[i]
    ensures Split(FormatQuestion(q, num, total), '\n') ==
      if ListsOptions(q) then ListedLines(q, num, total) else [HeaderLine(num, total), q.text]
  {
    if ListsOptions(q) {
      ListedDisplayJoin(q, num, total);
      ListedLinesHaveNoNewline(q, num, total);
      SplitJoin(ListedLines(q, num, total), '\n');
    } else {
      var hl := HeaderLine(num, total);
      HeaderLineNoNewline(num, total);
      JoinPair(hl, q.text);
      SplitJoin([hl, q.text], '\n');
    }
  }

  // The conversation state machine

  /** Conversation status; any status other than the three the handler writes is `Other`. */
  datatype Status = Invited | InProgress | Completed | Other(name: string)

  datatype Conversation = Conversation(
    pulseId: string,
    userId: string,
    username: Option<string>,
    status: Status,
    index: nat,
    submissionId: string)

  /** A saved answer row. */
  datatype SavedResponse = SavedResponse(
    pulseId: string,
    questionId: string,
    submissionId: string,
    userId: string,
    username: Option<string>,
    responseText: string)

  /** The conversation record and the answers saved so far. */
  datatype State = State(conv: Conversation, saved: seq<SavedResponse>)

  datatype Action = Remind | SendQuestion | Complete | Error | Ignore

  /** The reply dictionary; the question fields are present only when a question is sent. */
  datatype Reply = Reply(action: Action, message: Option<string>, questionId: Option<string>, questionIndex: Option<nat>)

  const InviteMessage: string := "Hi! Would you like to participate in a quick survey? Reply YES to start."
  const NoQuestionsMessage: string := "No questions found for this survey."
  const ThanksMessage: string := "Thanks for participating! Your responses have been recorded."

  /** The replies that accept the invitation, after stripping and upper-casing. */
  const Acceptances: seq<string> := ["YES", "Y", "OK", "OKAY", "SURE", "START"]

  predicate Accepts(messageText: string) {
    Upper(Strip(messageText)) in Acceptances
  }

  /**
   * `_get_or_create_conversation`: the stored record if there is one,
   * otherwise a new invited record at question 0 with the fresh submission id.
   */
  function GetOrCreateConversation(existing: Option<Conversation>, pulseId: string, userId: string,
                                   username: Option<string>, freshId: string): (c: Conversation)
    ensures existing.Some? ==> c == existing.value
    ensures existing.None? ==> c.status == Invited && c.index == 0 && c.submissionId == freshId
                               && c.pulseId == pulseId && c.userId == userId && c.username == username
  {
    match existing
    case Some(c) => c
    case None => Conversation(pulseId, userId, username, Invited, 0, freshId)
  }

  /** `_start_survey`: an error without questions, else in progress at the first question. */
  function StartSurvey(s: State, questions: seq<PulseQuestion>): (r: (Reply, State))
    ensures |questions| == 0 ==> r.0.action == Error && r.1 == s
    ensures |questions| > 0 ==> r.1 == State(s.conv.(status := InProgress, index := 0), s.saved)
    ensures |questions| > 0 ==> r.0.action == SendQuestion && r.0.questionIndex == Some(0)
                                && r.0.questionId == Some(questions[0].id)
  {
    if |questions| == 0 then (Reply(Error, Some(NoQuestionsMessage), None, None), s)
    else
      var q := questions[0];
      (Reply(SendQuestion, Some(FormatQuestion(q, 1, |questions|)), Some(q.id), Some(0)),
       State(s.conv.(status := InProgress, index := 0), s.saved))
  }

  /**
   * `_process_response`: None where the source raises (the stored index is
   * past the question list). An invalid answer re-sends the question; a valid
   * one is saved, then the next question is sent or the survey completes.
   */
  function ProcessResponse(s: State, questions: seq<PulseQuestion>, responseText: string): (r: Option<(Reply, State)>)
    ensures r.None? <==> s.conv.index >= |questions|
  {
    var i := s.conv.index;
    if i >= |questions| then None
    else
      var q := questions[i];
      match ValidateResponse(q, responseText)
      case Invalid(err) =>
        Some((Reply(SendQuestion, Some(err + "\n\n" + FormatQuestion(q, i + 1, |questions|)), Some(q.id), Some(i)), s))
      case Valid(text) =>
        var row := SavedResponse(s.conv.pulseId, q.id, s.conv.submissionId, s.conv.userId, s.conv.username, text);
        var saved := s.saved + [row];
        if i + 1 >= |questions| then
          Some((Reply(Complete, Some(ThanksMessage), None, None), State(s.conv.(status := Completed), saved)))
        else
          var next := questions[i + 1];
          Some((Reply(SendQuestion, Some(FormatQuestion(next, i + 2, |questions|)), Some(next.id), Some(i + 1)),
                State(s.conv.(index := i + 1), saved)))
  }

  /** `handle_incoming_message` on a conversation already fetched or created. */
  function HandleIncomingMessage(s: State, questions: seq<PulseQuestion>, messageText: string): (r: Option<(Reply, State)>)
    ensures s.conv.status.Invited? && !Accepts(messageText) ==> r == Some((Reply(Remind, Some(InviteMessage), None, None), s))
    ensures s.conv.status.Invited? && Accepts(messageText) ==> r == Some(StartSurvey(s, questions))
    ensures s.conv.status.InProgress? ==> r == ProcessResponse(s, questions, messageText)
    ensures s.conv.status.Completed? || s.conv.status.Other? ==> r == Some((Reply(Ignore, None, None, None), s))
  {
    match s.conv.status
    case Invited =>
      if Accepts(messageText) then Some(StartSurvey(s, questions))
      else Some((Reply(Remind, Some(InviteMessage), None, None), s))
    case InProgress => ProcessResponse(s, questions, messageText)
    case _ => Some((Reply(Ignore, None, None, None), s))
  }

  /** An in-progress conversation points at an existing question. */
  predicate Consistent(s: State, questions: seq<PulseQuestion>) {
    s.conv.status.InProgress? ==> s.conv.index < |questions|
  }

  /** How far along a status is: invited, in progress, completed. */
  function Progress(st: Status): nat {
    match st
    case Invited => 0
    case InProgress => 1
    case Completed => 2
    case Other(_) => 3
  }

  /**
   * Each message keeps the record consistent, never moves the status back,
   * saves at most one answer (appended, earlier ones untouched), and leaves
   * the identifying fields alone.
   */
  lemma HandlePreserves(s: State, questions: seq<PulseQuestion>, messageText: string)
    requires Consistent(s, questions)
    ensures HandleIncomingMessage(s, questions, messageText).Some?
    ensures var s' := HandleIncomingMessage(s, questions, messageText).value.1;
            && Consistent(s', questions)
            && Progress(s.conv.status) <= Progress(s'.conv.status)
            && s.saved <= s'.saved && |s'.saved| <= |s.saved| + 1
            && s'.conv.pulseId == s.conv.pulseId && s'.conv.userId == s.conv.userId
            && s'.conv.submissionId == s.conv.submissionId
  {
  }

  /** An invalid answer re-sends the same question: nothing is saved and the index stays. */
  lemma InvalidAnswerResends(s: State, questions: seq<PulseQuestion>, messageText: string)
    requires s.conv.status.InProgress? && s.conv.index < |questions|
    requires ValidateResponse(questions[s.conv.index], messageText).Invalid?
    ensures var (reply, s') := ProcessResponse(s, questions, messageText).value;
            s' == s && reply.action == SendQuestion && reply.questionIndex == Some(s.conv.index)
            && reply.questionId == Some(questions[s.conv.index].id)
  {
  }

  /**
   * A valid answer is saved once, with the checked text against the current
   * question; the survey then moves to the next question, or completes after
   * the last one.
   */
  lemma ValidAnswerAdvances(s: State, questions: seq<PulseQuestion>, messageText: string)
    requires s.conv.status.InProgress? && s.conv.index < |questions|
    requires ValidateResponse(questions[s.conv.index], messageText).Valid?
    ensures var (reply, s') := ProcessResponse(s, questions, messageText).value;
            && |s'.saved| == |s.saved| + 1 && s'.saved[..|s.saved|] == s.saved
            && s'.saved[|s.saved|].questionId == questions[s.conv.index].id
            && s'.saved[|s.saved|].responseText == ValidateResponse(questions[s.conv.index], messageText).response
            && (s.conv.index + 1 == |questions| <==> s'.conv.status.Completed?)
            && (s.conv.index + 1 < |questions| ==> s'.conv.status.InProgress? && s'.conv.index == s.conv.index + 1
                                                    && reply.questionIndex == Some(s.conv.index + 1))
  {
  }

  /** Running messages is one step followed by the rest. */
  lemma RunStep(s: State, questions: seq<PulseQuestion>, messages: seq<string>)
    requires |messages| > 0 && HandleIncomingMessage(s, questions, messages[0]).Some?
    ensures Run(s, questions, messages) == Run(HandleIncomingMessage(s, questions, messages[0]).value.1, questions, messages[1..])
  {
  }

  /** Answering every remaining question validly saves one answer per question and completes. */
  lemma {:induction false} AnsweringAllCompletes(s: State, questions: seq<PulseQuestion>, answers: seq<string>)
    requires s.conv.status.InProgress? && s.conv.index + |answers| == |questions| && |answers| > 0
    requires forall k :: 0 <= k < |answers| ==> ValidateResponse(questions[s.conv.index + k], answers[k]).Valid?
    ensures Run(s, questions, answers).Some?
    ensures Run(s, questions, answers).value.conv.status.Completed?
    ensures |Run(s, questions, answers).value.saved| == |s.saved| + |answers|
    decreases |answers|
  {
    ValidAnswerAdvances(s, questions, answers[0]);
    var s1 := ProcessResponse(s, questions, answers[0]).value.1;
    RunStep(s, questions, answers);
    if |answers| > 1 {
      var rest := answers[1..];
      forall k | 0 <= k < |rest|
        ensures ValidateResponse(questions[s1.conv.index + k], rest[k]).Valid?
      {
        assert s1.conv.index + k == s.conv.index + (k + 1) && rest[k] == answers[k + 1];
      }
      AnsweringAllCompletes(s1, questions, rest);
    } else {
      assert Run(s1, questions, answers[1..]) == Some(s1);
    }
  }

  /** The state after a sequence of messages, or None once one of them raises. */
  function Run(s: State, questions: seq<PulseQuestion>, messages: seq<string>): Option<State>
    decreases |messages|
  {
    if |messages| == 0 then Some(s)
    else match HandleIncomingMessage(s, questions, messages[0])
      case None => None
      case Some(step) => Run(step.1, questions, messages[1..])
  }
}
