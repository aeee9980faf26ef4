/**
 * Goal templates and descriptions for the three panorama types: Plan
 * (pre-launch), Pulse (during the campaign) and Playback (after the event).
 */
module PanoramaGoals {
  import opened Wrappers
  import opened Text

  datatype PanoramaType = Plan | Pulse | Playback

  function TypeName(t: PanoramaType): string {
    match t
    case Plan => "plan"
    case Pulse => "pulse"
    case Playback => "playback"
  }

  function TypeFromName(name: string): Option<PanoramaType> {
    if name == "plan" then Some(Plan)
    else if name == "pulse" then Some(Pulse)
    else if name == "playback" then Some(Playback)
    else None
  }

  /** The type names are unambiguous. */
  lemma TypeNamesUnique(t: PanoramaType)
    ensures TypeFromName(TypeName(t)) == Some(t)
  {
  }

  /** A goal template: an identifier and the goal text shown to the organiser. */
  datatype GoalTemplate = GoalTemplate(id: string, text: string)

  /** The seven goal texts of a type, in template order. */
  function GoalTexts(t: PanoramaType): seq<string> {
    match t
    case Plan => [
      "Understand target audience preferences",
      "Gauge interest in potential lineup",
      "Assess pricing sensitivity",
      "Identify preferred event dates/times",
      "Evaluate venue preferences",
      "Measure brand awareness",
      "Assess marketing channel effectiveness"]
    case Pulse => [
      "Track real-time attendee sentiment",
      "Monitor campaign engagement",
      "Gather pre-event feedback",
      "Assess ticket sales drivers",
      "Identify last-minute concerns",
      "Measure social media buzz",
      "Evaluate promotional effectiveness"]
    case Playback => [
      "Measure overall event satisfaction",
      "Evaluate lineup performance",
      "Assess venue experience",
      "Gather improvement suggestions",
      "Measure value for money",
      "Collect testimonials",
      "Understand return attendance likelihood"]
  }

  /** Every type numbers its goals the same way. */
  const GoalIds: seq<string> := ["goal-1", "goal-2", "goal-3", "goal-4", "goal-5", "goal-6", "goal-7"]

  function Templates(ids: seq<string>, texts: seq<string>): (r: seq<GoalTemplate>)
    requires |ids| == |texts|
    ensures |r| == |ids|
    ensures forall i :: 0 <= i < |r| ==> r[i] == GoalTemplate(ids[i], texts[i])
  {
    if |ids| == 0 then [] else [GoalTemplate(ids[0], texts[0])] + Templates(ids[1..], texts[1..])
  }

  /** `get_goals_for_type`: the type's templates, or none for an unknown type. */
  function GetGoalsForType(panoramaType: string): (r: seq<GoalTemplate>)
    ensures TypeFromName(panoramaType).None? ==> r == []
    ensures TypeFromName(panoramaType).Some? ==> |r| == 7
  {
    match TypeFromName(panoramaType)
    case None => []
    case Some(t) => Templates(GoalIds, GoalTexts(t))
  }

  /** A known type's name selects that type's templates. */
  lemma GoalsOfType(t: PanoramaType)
    ensures GetGoalsForType(TypeName(t)) == Templates(GoalIds, GoalTexts(t))
  {
    TypeNamesUnique(t);
  }

  /** The `i`-th goal id is "goal-" followed by the digit `i + 1`. */
  lemma GoalIdAt(i: nat)
    requires i < 7
    ensures GoalIds[i] == "goal-" + [DigitChar(i + 1)]
  {
  }

  /** The goal ids of a known type are "goal-1" to "goal-7", in order. */
  lemma GoalIdsNumbered(t: PanoramaType, i: nat)
    requires i < 7
    ensures GetGoalsForType(TypeName(t))[i].id == "goal-" + NatToString(i + 1)
  {
    GoalsOfType(t);
    GoalIdAt(i);
    assert NatToString(i + 1) == [DigitChar(i + 1)];
  }

  /** Two goals of one type never share an id. */
  lemma GoalIdsDistinct(t: PanoramaType, i: nat, j: nat)
    requires i < j < 7
    ensures GetGoalsForType(TypeName(t))[i].id != GetGoalsForType(TypeName(t))[j].id
  {
    GoalsOfType(t);
    GoalIdAt(i);
    GoalIdAt(j);
    var a := "goal-" + [DigitChar(i + 1)];
    var b := "goal-" + [DigitChar(j + 1)];
    assert a[5] == DigitChar(i + 1) && b[5] == DigitChar(j + 1);
  }

  /** The record of `get_type_description`. */
  datatype TypeDescription = TypeDescription(name: string, description: string, outcomes: string)

  function DisplayName(t: PanoramaType): string {
    match t
    case Plan => "Plan"
    case Pulse => "Pulse"
    case Playback => "Playback"
  }

  /** Every description names the phase, then the word "surveys", then their purpose. */
  function Description(t: PanoramaType): (r: string)
    ensures |r| > 0
  {
    Phase(t) + " surveys " + Purpose(t)
  }

  function Phase(t: PanoramaType): string {
    match t
    case Plan => "Pre-launch"
    case Pulse => "Real-time"
    case Playback => "Post-event"
  }

  function Purpose(t: PanoramaType): string {
    match t
    case Plan => "to understand your audience and plan your event effectively."
    case Pulse => "during your campaign to track engagement and sentiment."
    case Playback => "to measure satisfaction and gather feedback for future improvements."
  }

  /** Every outcome sentence opens the same way. */
  const OutcomesLead: string := "You'll get "

  function Outcomes(t: PanoramaType): (r: string)
    ensures |r| > 0
  {
    OutcomesLead + match t
    case Plan => "insights on audience preferences, pricing sensitivity, preferred dates, and lineup interest to help you make data-driven decisions before launch."
    case Pulse => "real-time feedback on campaign performance, attendee sentiment, ticket sales drivers, and promotional effectiveness to optimize your campaign on the fly."
    case Playback => "comprehensive feedback on event satisfaction, lineup performance, venue experience, and improvement suggestions to make your next event even better."
  }

  /** Capitalises the first letter of a type name. */
  function Capitalised(s: string): (r: string)
    ensures |r| == |s|
  {
    if |s| == 0 then s else [UpperChar(s[0])] + s[1..]
  }

  /** `get_type_description`: a fixed record per known type, else the type's own name with empty texts. */
  function GetTypeDescription(panoramaType: string): (r: TypeDescription)
    ensures TypeFromName(panoramaType).None? ==> r == TypeDescription(panoramaType, "", "")
    ensures TypeFromName(panoramaType).Some? ==> |r.description| > 0 && |r.outcomes| > 0
  {
    match TypeFromName(panoramaType)
    case None => TypeDescription(panoramaType, "", "")
    case Some(t) => TypeDescription(DisplayName(t), Description(t), Outcomes(t))
  }

  /** The display name is the type name with its first letter capitalised. */
  lemma DisplayNameCapitalised(t: PanoramaType)
    ensures DisplayName(t) == Capitalised(TypeName(t))
  {
    match t {
      case Plan => assert Capitalised("plan") == [UpperChar('p')] + "lan";
      case Pulse => assert Capitalised("pulse") == [UpperChar('p')] + "ulse";
      case Playback => assert Capitalised("playback") == [UpperChar('p')] + "layback";
    }
  }

  /** A known type is displayed under its own name, capitalised. */
  lemma KnownTypeNamedAfterItself(t: PanoramaType)
    ensures GetTypeDescription(TypeName(t)).name == Capitalised(TypeName(t))
  {
    TypeNamesUnique(t);
    DisplayNameCapitalised(t);
  }
}
