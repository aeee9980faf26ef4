/**
 * Question records shared by the generation pipeline, the Pulse generator and the
 * save endpoint, plus the raw (LLM-supplied, possibly malformed) form they are coerced from.
 */
module SurveyTypes {
  import opened Wrappers

  const TypeText := "text"
  const TypeTextarea := "textarea"
  const TypeSingleSelect := "Single-select"
  const TypeMultiSelect := "Multi-select"
  const TypeLikert := "Likert"

  /** The closed set of question types the survey normaliser emits. */
  const ValidTypes: seq<string> := [TypeText, TypeTextarea, TypeSingleSelect, TypeMultiSelect, TypeLikert]

  /** The canonical 5-point Likert scale. */
  const LikertScale: seq<string> := ["Strongly Disagree", "Disagree", "Neutral", "Agree", "Strongly Agree"]

  /** A normalised question as the services return it. */
  datatype Question = Question(
    text: string,
    qtype: string,
    options: Option<seq<string>>,
    required: bool,
    order: int)

  /**
   * The `question_text` value of a raw record: a string (a missing key reads as "")
   * or some other JSON value, on which `.strip()` raises.
   */
  datatype TextField = TextString(s: string) | TextNotString

  /**
   * A raw question candidate as decoded from model output.
   *  - `NotADict`: any JSON value that is not an object (skipped by the normalisers);
   *  - `qtype`: None when the key is missing or its value is not a string;
   *  - `options`: None when the key is missing or its value is not a list;
   *  - `required`: the Python truthiness of the `required` value.
   */
  datatype RawQuestion =
    | NotADict
    | Candidate(text: TextField, qtype: Option<string>, options: Option<seq<string>>, required: bool)

  /** A normalised question read back as a raw record (what re-submitting it would look like). */
  function ToRaw(q: Question): (r: RawQuestion)
    ensures r.Candidate? && r.text == TextString(q.text) && r.qtype == Some(q.qtype)
    ensures r.options == q.options && r.required == q.required
  {
    Candidate(TextString(q.text), Some(q.qtype), q.options, q.required)
  }
}
