/**
 * The Pulse question generator: the normaliser that coerces model output
 * into three to seven Instagram-DM-friendly questions, the fixed fallback
 * set, and the branches that choose between them. The model call itself is
 * an input.
 */
module PulseQuestionGenerator {
  import opened Wrappers
  import opened Text
  import opened SurveyTypes
  import LlmService

  /** The only shapes a Pulse question may take: free text, or single-select with a non-empty list. */
  predicate PulseTyped(qtype: string, options: Option<seq<string>>) {
    || (qtype == TypeText && options.None?)
    || (qtype == TypeSingleSelect && options.Some? && |options.value| > 0)
  }

  /** A question the generator may hand out. */
  predicate PulseShaped(q: Question) {
    q.text != "" && PulseTyped(q.qtype, q.options)
  }

  /** The type rule: single-select survives only with a non-empty list; everything else is text. */
  function PulseType(qtype: Option<string>, options: Option<seq<string>>): (r: (string, Option<seq<string>>))
    ensures PulseTyped(r.0, r.1)
    ensures r.0 == TypeSingleSelect <==> qtype == Some(TypeSingleSelect) && options.Some? && |options.value| > 0
    ensures r.0 == TypeSingleSelect ==> r.1 == options
  {
    if qtype == Some(TypeSingleSelect) && options.Some? && |options.value| > 0 then (TypeSingleSelect, options)
    else (TypeText, None)
  }

  /** A type/options pair that already has a Pulse shape is left alone. */
  lemma PulseTypeIdempotent(qtype: string, options: Option<seq<string>>)
    requires PulseTyped(qtype, options)
    ensures PulseType(Some(qtype), options) == (qtype, options)
  {
  }

  /** One iteration of the loop, for the candidate at input position `index`. */
  function PulseCoerce(c: RawQuestion, index: int): (r: LlmService.Verdict)
    ensures r.Raise? <==> c.Candidate? && c.text.TextNotString?
    ensures r.Keep? <==> c.Candidate? && c.text.TextString? && Strip(c.text.s) != ""
    ensures r.Keep? ==> PulseShaped(r.q) && Trimmed(r.q.text) && r.q.order == index && r.q.text == Strip(c.text.s)
                        && r.q.required == c.required && (r.q.qtype, r.q.options) == PulseType(c.qtype, c.options)
  {
    match c
    case NotADict => LlmService.Skip
    case Candidate(text, qtype, options, required) =>
      match text
      case TextNotString => LlmService.Raise
      case TextString(s) =>
        var t := Strip(s);
        if t == "" then LlmService.Skip
        else
          var (ty, opts) := PulseType(qtype, options);
          LlmService.Keep(Question(t, ty, opts, required, index))
  }

  function PulseVerdicts(raw: seq<RawQuestion>): (vs: seq<LlmService.Verdict>)
    ensures |vs| == |raw| && forall j :: 0 <= j < |raw| ==> vs[j] == PulseCoerce(raw[j], j)
  {
    seq(|raw|, j requires 0 <= j < |raw| => PulseCoerce(raw[j], j))
  }

  /** The name the padding questions use. */
  const PaddingName: string := "this event"

  /** `_get_fallback_questions`: three fixed questions, the first naming the event. */
  function FallbackQuestions(eventName: string): (r: seq<Question>)
    ensures |r| == 3
    ensures forall i :: 0 <= i < 3 ==> r[i].order == i && PulseShaped(r[i])
    ensures Contains(r[0].text, eventName)
  {
    var first := "How would you rate your overall experience at " + eventName + "?";
    ContainsMiddle("How would you rate your overall experience at ", eventName, "?");
    [Question(first, TypeSingleSelect, Some(["Excellent", "Very Good", "Good", "Fair", "Poor"]), true, 0),
     Question("What was your favorite part of the event?", TypeText, None, false, 1),
     Question("Would you attend this event again?", TypeSingleSelect,
       Some(["Definitely", "Probably", "Maybe", "Probably Not", "Definitely Not"]), true, 2)]
  }

  function Min(a: int, b: int): int { if a < b then a else b }

  /**
   * The 3-7 rule: fewer than three survivors are topped up with the first
   * fallback questions, more than seven are cut to the first seven.
   */
  function Clamp(qs: seq<Question>): (r: seq<Question>)
    ensures |r| == if |qs| < 3 then 3 else Min(|qs|, 7)
    ensures r[..Min(|qs|, 7)] == qs[..Min(|qs|, 7)]
    ensures |qs| < 3 ==> r[|qs|..] == FallbackQuestions(PaddingName)[..3 - |qs|]
  {
    if |qs| < 3 then qs + FallbackQuestions(PaddingName)[..3 - |qs|]
    else if |qs| > 7 then qs[..7]
    else qs
  }

  /**
   * `_validate_questions`: None when a candidate's text is not a string (the
   * source raises), otherwise the survivors in input order, each with its
   * input index as order, clamped to three to seven questions.
   */
  function ValidateQuestions(raw: seq<RawQuestion>): (r: Option<seq<Question>>)
    ensures r.None? <==> exists j :: 0 <= j < |raw| && raw[j].Candidate? && raw[j].text.TextNotString?
    ensures r.Some? ==> 3 <= |r.value| <= 7 && forall k :: 0 <= k < |r.value| ==> PulseShaped(r.value[k])
    ensures r.Some? ==> LlmService.Collect(PulseVerdicts(raw), 0).Some?
    ensures r.Some? ==> r.value == Clamp(LlmService.Collect(PulseVerdicts(raw), 0).value)
  {
    var vs := PulseVerdicts(raw);
    assert forall j :: 0 <= j < |raw| ==> (LlmService.RaisesAt(vs, j) <==> raw[j].Candidate? && raw[j].text.TextNotString?);
    match LlmService.Collect(vs, 0)
    case None => None
    case Some(qs) =>
      CollectedShaped(vs, raw, qs);
      ClampShaped(qs);
      Some(Clamp(qs))
  }

  lemma CollectedShaped(vs: seq<LlmService.Verdict>, raw: seq<RawQuestion>, qs: seq<Question>)
    requires vs == PulseVerdicts(raw) && LlmService.Collect(vs, 0) == Some(qs)
    ensures forall k :: 0 <= k < |qs| ==> PulseShaped(qs[k])
  {
    forall k | 0 <= k < |qs| ensures PulseShaped(qs[k]) {
      var j :| 0 <= j < |vs| && vs[j] == LlmService.Keep(qs[k]);
    }
  }

  /** Clamping shaped questions leaves only shaped questions: the padding is shaped too. */
  lemma ClampShaped(qs: seq<Question>)
    requires forall k :: 0 <= k < |qs| ==> PulseShaped(qs[k])
    ensures forall k :: 0 <= k < |Clamp(qs)| ==> PulseShaped(Clamp(qs)[k])
  {
    var r := Clamp(qs);
    forall k | 0 <= k < |r| ensures PulseShaped(r[k]) {
      if k < Min(|qs|, 7) {
        assert r[k] == r[..Min(|qs|, 7)][k];
      } else {
        assert r[k] == FallbackQuestions(PaddingName)[..3 - |qs|][k - |qs|];
      }
    }
  }

  /**
   * Which candidates are kept: before the clamp, the survivors are exactly
   * the candidates whose stripped text is non-empty, in input order, each
   * numbered with its input index.
   */
  lemma SurvivorsInInputOrder(raw: seq<RawQuestion>, j: nat)
    requires LlmService.Collect(PulseVerdicts(raw), 0).Some? && j < |raw|
    ensures var qs := LlmService.Collect(PulseVerdicts(raw), 0).value;
            && LlmService.StrictlyIncreasingOrders(qs)
            && (forall k :: 0 <= k < |qs| ==> 0 <= qs[k].order < |raw| && PulseCoerce(raw[qs[k].order], qs[k].order) == LlmService.Keep(qs[k]))
            && (raw[j].Candidate? && raw[j].text.TextString? && Strip(raw[j].text.s) != "" ==>
                  exists k :: 0 <= k < |qs| && qs[k].order == j)
  {
    var vs := PulseVerdicts(raw);
    var qs := LlmService.Collect(vs, 0).value;
    LlmService.CollectOrders(vs, 0);
    if vs[j].Keep? {
      LlmService.CollectComplete(vs, 0, j);
      var k :| 0 <= k < |qs| && qs[k] == vs[j].q;
      assert qs[k].order == j;
    }
  }

  /** The decoded `questions` value: unusable (a non-object reply, or a truthy value that cannot be iterated) or a list of candidates (missing and falsy values read as the empty list; a string or object iterates to non-dict items). */
  datatype PulseJson = Unusable | Items(items: seq<RawQuestion>)

  /** The model call: it raised (including undecodable JSON), returned no content, or decoded. */
  datatype PulseReply = CallRaised | EmptyContent | Decoded(json: PulseJson)

  /** `generate_pulse_questions`, with the fallback event name read from the context (default "this event"). */
  function GeneratePulseQuestions(eventName: Option<string>, reply: PulseReply): (r: seq<Question>)
    ensures 3 <= |r| <= 7
    ensures forall k :: 0 <= k < |r| ==> PulseShaped(r[k])
    ensures !reply.Decoded? || reply.json.Unusable? || reply.json.items == [] ==> r == FallbackQuestions(eventName.GetOr(PaddingName))
    ensures reply.Decoded? && reply.json.Items? && reply.json.items != [] ==>
      r == if ValidateQuestions(reply.json.items).Some? then ValidateQuestions(reply.json.items).value
           else FallbackQuestions(eventName.GetOr(PaddingName))
  {
    var fallback := FallbackQuestions(eventName.GetOr(PaddingName));
    if reply.Decoded? && reply.json.Items? && reply.json.items != [] then
      ValidateQuestions(reply.json.items).GetOr(fallback)
    else fallback
  }

  /** A non-empty list with a non-string text anywhere also ends in the fallback. */
  lemma RaisingCandidateFallsBack(eventName: Option<string>, items: seq<RawQuestion>, j: nat)
    requires j < |items| && items[j].Candidate? && items[j].text.TextNotString?
    ensures GeneratePulseQuestions(eventName, Decoded(Items(items))) == FallbackQuestions(eventName.GetOr(PaddingName))
  {
    assert ValidateQuestions(items).None?;
  }
}
