/**
 * Goal-based question strategies: the catalogue of seven goals with four
 * strategies each, the three-pass selection of strategies under a cap, and
 * the strategy section of the generation prompt.
 */
module QuestionStrategies {
  import opened Wrappers
  import opened Text
  import opened Collections

  // ---------------------------------------------------------------------
  // Selection, over any strategy type with a `requires_data` field

  /** The strategy needs a kind of data, and that data is marked available. */
  predicate UsesAvailable<T>(req: T -> Option<string>, avail: map<string, bool>, s: T) {
    req(s).Some? && req(s).value != "" && req(s).value in avail && avail[req(s).value]
  }

  /**
   * The pass that picks a strategy: 0 when its data is available, 1 when it
   * needs no data, 2 when its data is missing.
   */
  function Rank<T>(req: T -> Option<string>, avail: map<string, bool>, s: T): (k: nat)
    ensures k <= 2
  {
    if UsesAvailable(req, avail, s) then 0 else if req(s).None? then 1 else 2
  }

  function HasRank<T>(req: T -> Option<string>, avail: map<string, bool>, k: nat): T -> bool {
    (s: T) => Rank(req, avail, s) == k
  }

  /** First pass: the strategies whose required data is available, in catalogue order. */
  function FirstPass<T>(ss: seq<T>, req: T -> Option<string>, avail: map<string, bool>): seq<T> {
    Filter(ss, HasRank(req, avail, 0))
  }

  /** Second pass: appends each data-free strategy not chosen yet. */
  function SecondPass<T(==)>(acc: seq<T>, ss: seq<T>, req: T -> Option<string>): (r: seq<T>)
    ensures forall i :: 0 <= i < |r| ==> r[i] in acc || r[i] in ss
    decreases |ss|
  {
    if |ss| == 0 then acc
    else if req(ss[0]).None? && ss[0] !in acc then SecondPass(acc + [ss[0]], ss[1..], req)
    else SecondPass(acc, ss[1..], req)
  }

  /** Third pass: appends strategies not chosen yet, stopping as soon as the cap is reached. */
  function Fill<T(==)>(acc: seq<T>, ss: seq<T>, cap: int): (r: seq<T>)
    ensures forall i :: 0 <= i < |r| ==> r[i] in acc || r[i] in ss
    decreases |ss|
  {
    if |ss| == 0 then acc
    else if ss[0] in acc then Fill(acc, ss[1..], cap)
    else if |acc| + 1 >= cap then acc + [ss[0]]
    else Fill(acc + [ss[0]], ss[1..], cap)
  }

  /** Python's `a[:k]`, where a negative `k` counts from the end. */
  function SliceTo<T>(a: seq<T>, k: int): (r: seq<T>)
    ensures |r| <= |a| && r == a[..|r|]
    ensures 0 <= k ==> |r| == if k < |a| then k else |a|
  {
    if k >= 0 then (if k < |a| then a[..k] else a)
    else if |a| + k > 0 then a[..|a| + k] else []
  }

  /** `select_applicable_strategies` once the goal's strategy list is known. */
  function Select<T(==)>(ss: seq<T>, req: T -> Option<string>, avail: map<string, bool>, cap: int): (r: seq<T>)
    ensures forall i :: 0 <= i < |r| ==> r[i] in ss
  {
    FilterMembers(ss, HasRank(req, avail, 0));
    var first := FirstPass(ss, req, avail);
    var second := SecondPass(first, ss, req);
    var third := if |second| < cap then Fill(second, ss, cap) else second;
    SliceTo(third, cap)
  }

  /**
   * The reference order: all data-available strategies, then all data-free
   * ones, then those whose data is missing, each group in catalogue order.
   */
  function Ranked<T>(ss: seq<T>, req: T -> Option<string>, avail: map<string, bool>): (r: seq<T>)
    ensures |r| == |ss|
  {
    RankedLength(ss, req, avail);
    Filter(ss, HasRank(req, avail, 0)) + Filter(ss, HasRank(req, avail, 1)) + Filter(ss, HasRank(req, avail, 2))
  }

  lemma {:induction false} RankedLength<T>(ss: seq<T>, req: T -> Option<string>, avail: map<string, bool>)
    ensures |Filter(ss, HasRank(req, avail, 0))| + |Filter(ss, HasRank(req, avail, 1))| + |Filter(ss, HasRank(req, avail, 2))| == |ss|
    decreases |ss|
  {
    if |ss| > 0 {
      RankedLength(ss[1..], req, avail);
    }
  }

  /** Each of the three groups holds exactly the strategies of its rank. */
  lemma RankedMembers<T>(ss: seq<T>, req: T -> Option<string>, avail: map<string, bool>)
    ensures forall k: nat, i :: k <= 2 && 0 <= i < |Filter(ss, HasRank(req, avail, k))| ==>
      Rank(req, avail, Filter(ss, HasRank(req, avail, k))[i]) == k
    ensures forall k: nat, i :: k <= 2 && 0 <= i < |ss| && Rank(req, avail, ss[i]) == k ==>
      ss[i] in Filter(ss, HasRank(req, avail, k))
  {
    forall k: nat | k <= 2
      ensures forall i :: 0 <= i < |Filter(ss, HasRank(req, avail, k))| ==>
        Rank(req, avail, Filter(ss, HasRank(req, avail, k))[i]) == k
      ensures forall i :: 0 <= i < |ss| && Rank(req, avail, ss[i]) == k ==>
        ss[i] in Filter(ss, HasRank(req, avail, k))
    {
      FilterMembers(ss, HasRank(req, avail, k));
    }
  }

  /** Every strategy has a place in the reference order. */
  lemma RankedHasAll<T>(ss: seq<T>, req: T -> Option<string>, avail: map<string, bool>, i: nat)
    requires i < |ss|
    ensures ss[i] in Ranked(ss, req, avail)
  {
    var k := Rank(req, avail, ss[i]);
    assert HasRank(req, avail, k)(ss[i]);
    FilterMembers(ss, HasRank(req, avail, k));
  }

  lemma RankedDistinct<T>(ss: seq<T>, req: T -> Option<string>, avail: map<string, bool>)
    requires Distinct(ss)
    ensures Distinct(Ranked(ss, req, avail))
  {
    var f0, f1, f2 := Filter(ss, HasRank(req, avail, 0)), Filter(ss, HasRank(req, avail, 1)), Filter(ss, HasRank(req, avail, 2));
    FilterDistinct(ss, HasRank(req, avail, 0));
    FilterDistinct(ss, HasRank(req, avail, 1));
    FilterDistinct(ss, HasRank(req, avail, 2));
    RankedMembers(ss, req, avail);
    var all := f0 + f1 + f2;
    forall i, j | 0 <= i < j < |all|
      ensures all[i] != all[j]
    {
      var ri := if i < |f0| then 0 else if i < |f0| + |f1| then 1 else 2;
      var rj := if j < |f0| then 0 else if j < |f0| + |f1| then 1 else 2;
      assert Rank(req, avail, all[i]) == ri;
      assert Rank(req, avail, all[j]) == rj;
    }
  }

  /** With distinct strategies, the second pass appends exactly the data-free ones. */
  lemma {:induction false} SecondPassAppends<T>(acc: seq<T>, t: seq<T>, req: T -> Option<string>, avail: map<string, bool>)
    requires Distinct(t)
    requires forall i :: 0 <= i < |t| && req(t[i]).None? ==> t[i] !in acc
    ensures SecondPass(acc, t, req) == acc + Filter(t, HasRank(req, avail, 1))
    decreases |t|
  {
    if |t| > 0 {
      assert forall i :: 0 <= i < |t[1..]| ==> t[1..][i] == t[i + 1];
      if req(t[0]).None? {
        assert HasRank(req, avail, 1)(t[0]);
        SecondPassAppends(acc + [t[0]], t[1..], req, avail);
      } else {
        assert !HasRank(req, avail, 1)(t[0]);
        SecondPassAppends(acc, t[1..], req, avail);
      }
    }
  }

  function Min(a: int, b: int): int { if a < b then a else b }

  /** With distinct strategies, the third pass appends the missing-data ones until the cap. */
  lemma {:induction false} FillTakes<T>(acc: seq<T>, t: seq<T>, req: T -> Option<string>, avail: map<string, bool>, cap: int)
    requires Distinct(t) && |acc| < cap
    requires forall i :: 0 <= i < |t| ==> (t[i] in acc <==> !HasRank(req, avail, 2)(t[i]))
    ensures Fill(acc, t, cap) == (acc + Filter(t, HasRank(req, avail, 2)))[..Min(cap, |acc| + |Filter(t, HasRank(req, avail, 2))|)]
    decreases |t|
  {
    var p := HasRank(req, avail, 2);
    if |t| > 0 {
      var rest := Filter(t[1..], p);
      assert forall i :: 0 <= i < |t[1..]| ==> t[1..][i] == t[i + 1];
      if t[0] in acc {
        assert !p(t[0]);
        FillTakes(acc, t[1..], req, avail, cap);
      } else {
        assert p(t[0]);
        assert Filter(t, p) == [t[0]] + rest;
        assert acc + Filter(t, p) == (acc + [t[0]]) + rest;
        if |acc| + 1 < cap {
          FillTakes(acc + [t[0]], t[1..], req, avail, cap);
        }
      }
    }
  }

  /** The first two passes pick the available-data strategies, then the data-free ones. */
  lemma FirstTwoPasses<T>(ss: seq<T>, req: T -> Option<string>, avail: map<string, bool>)
    requires Distinct(ss)
    ensures SecondPass(FirstPass(ss, req, avail), ss, req) == Filter(ss, HasRank(req, avail, 0)) + Filter(ss, HasRank(req, avail, 1))
  {
    var f0 := Filter(ss, HasRank(req, avail, 0));
    RankedMembers(ss, req, avail);
    SecondPassAppends(f0, ss, req, avail);
  }

  /** After the first two passes, a strategy is chosen exactly when its data is not missing. */
  lemma ChosenUnlessMissing<T>(ss: seq<T>, req: T -> Option<string>, avail: map<string, bool>, i: nat)
    requires i < |ss|
    ensures ss[i] in Filter(ss, HasRank(req, avail, 0)) + Filter(ss, HasRank(req, avail, 1)) <==> !HasRank(req, avail, 2)(ss[i])
  {
    var f0, f1 := Filter(ss, HasRank(req, avail, 0)), Filter(ss, HasRank(req, avail, 1));
    var k := Rank(req, avail, ss[i]);
    assert HasRank(req, avail, k)(ss[i]);
    RankedMembers(ss, req, avail);
    if ss[i] in f0 + f1 {
      var j :| 0 <= j < |f0 + f1| && (f0 + f1)[j] == ss[i];
      if j < |f0| {
        assert HasRank(req, avail, 0)(f0[j]);
      } else {
        assert HasRank(req, avail, 1)(f1[j - |f0|]);
      }
    }
  }

  /**
   * For distinct strategies and a non-negative cap, the selection is the
   * reference order cut at the cap.
   */
  lemma SelectIsRankedPrefix<T>(ss: seq<T>, req: T -> Option<string>, avail: map<string, bool>, cap: int)
    requires Distinct(ss) && cap >= 0
    ensures Select(ss, req, avail, cap) == Ranked(ss, req, avail)[..Min(cap, |ss|)]
  {
    var f0, f1, f2 := Filter(ss, HasRank(req, avail, 0)), Filter(ss, HasRank(req, avail, 1)), Filter(ss, HasRank(req, avail, 2));
    RankedLength(ss, req, avail);
    FirstTwoPasses(ss, req, avail);
    var second := f0 + f1;
    if |second| < cap {
      forall i | 0 <= i < |ss|
        ensures ss[i] in second <==> !HasRank(req, avail, 2)(ss[i])
      {
        ChosenUnlessMissing(ss, req, avail, i);
      }
      FillTakes(second, ss, req, avail, cap);
    }
  }

  /** For distinct strategies and a non-negative cap, the selection has min(cap, n) distinct members. */
  lemma SelectLengthAndDistinct<T>(ss: seq<T>, req: T -> Option<string>, avail: map<string, bool>, cap: int)
    requires Distinct(ss) && cap >= 0
    ensures |Select(ss, req, avail, cap)| == Min(cap, |ss|)
    ensures Distinct(Select(ss, req, avail, cap))
  {
    SelectIsRankedPrefix(ss, req, avail, cap);
    RankedLength(ss, req, avail);
    RankedDistinct(ss, req, avail);
  }

  /**
   * Pass order: along the selection the pass rank never decreases, so a
   * strategy whose data is missing comes after every available-data and
   * data-free pick.
   */
  lemma SelectOrdersByPass<T>(ss: seq<T>, req: T -> Option<string>, avail: map<string, bool>, cap: int, i: int, j: int)
    requires Distinct(ss) && cap >= 0
    requires 0 <= i < j < |Select(ss, req, avail, cap)|
    ensures Rank(req, avail, Select(ss, req, avail, cap)[i]) <= Rank(req, avail, Select(ss, req, avail, cap)[j])
  {
    SelectIsRankedPrefix(ss, req, avail, cap);
    var f0, f1, f2 := Filter(ss, HasRank(req, avail, 0)), Filter(ss, HasRank(req, avail, 1)), Filter(ss, HasRank(req, avail, 2));
    RankedMembers(ss, req, avail);
    var all := f0 + f1 + f2;
    var ri := if i < |f0| then 0 else if i < |f0| + |f1| then 1 else 2;
    var rj := if j < |f0| then 0 else if j < |f0| + |f1| then 1 else 2;
    assert Rank(req, avail, all[i]) == ri;
    assert Rank(req, avail, all[j]) == rj;
  }

  // ---------------------------------------------------------------------
  // The catalogue

  /** The seven survey goals of the catalogue. */
  datatype Goal =
    | LineupPerception
    | PricingPerception
    | FoodBeverageInterest
    | LogisticsPlanning
    | MarketingEffectiveness
    | AttendeeExpectations
    | AccessibilityNeeds

  /** The goal's identifier in the catalogue. */
  function GoalName(g: Goal): string {
    match g
    case LineupPerception => "lineup_perception"
    case PricingPerception => "pricing_perception"
    case FoodBeverageInterest => "food_beverage_interest"
    case LogisticsPlanning => "logistics_planning"
    case MarketingEffectiveness => "marketing_effectiveness"
    case AttendeeExpectations => "attendee_expectations"
    case AccessibilityNeeds => "accessibility_needs"
  }

  /** Looks a goal up by its identifier. */
  function GoalFromName(name: string): Option<Goal> {
    if name == "lineup_perception" then Some(LineupPerception)
    else if name == "pricing_perception" then Some(PricingPerception)
    else if name == "food_beverage_interest" then Some(FoodBeverageInterest)
    else if name == "logistics_planning" then Some(LogisticsPlanning)
    else if name == "marketing_effectiveness" then Some(MarketingEffectiveness)
    else if name == "attendee_expectations" then Some(AttendeeExpectations)
    else if name == "accessibility_needs" then Some(AccessibilityNeeds)
    else None
  }

  /** The goal's description. */
  function GoalDescription(g: Goal): string {
    match g
    case LineupPerception => "Understand attendee perception of the lineup"
    case PricingPerception => "Understand price sensitivity and value perception"
    case FoodBeverageInterest => "F&B expectations and preferences"
    case LogisticsPlanning => "Transport, timing, and logistical preferences"
    case MarketingEffectiveness => "How they heard about the event and information needs"
    case AttendeeExpectations => "What attendees hope to experience"
    case AccessibilityNeeds => "Accessibility requirements and needs"
  }

  /** The kinds of event data the goal's strategies can use. */
  function RelevantData(g: Goal): seq<string> {
    match g
    case LineupPerception => ["lineup", "headliner"]
    case PricingPerception => ["pricing_tiers", "vip_info"]
    case FoodBeverageInterest => ["bar_partners"]
    case LogisticsPlanning => ["venue", "date"]
    case MarketingEffectiveness => []
    case AttendeeExpectations => []
    case AccessibilityNeeds => ["venue"]
  }

  /** The twenty-eight strategies of the catalogue. */
  datatype StrategyKey =
    | ArtistExcitement | HeadlinerInfluence | DiscoveryBalance | LineupMatch
    | TierPreference | VipAppeal | PriceBarrier | ValuePerception
    | BrandInterest | FoodImportance | DietaryNeeds | SpendingExpectation
    | TransportMethod | ArrivalTime | GroupSize | DayPreference
    | DiscoveryChannel | InformationNeeds | SocialSharing | RegistrationMotivation
    | ExperienceHopes | ExcitementLevel | SuccessCriteria | UniqueExperience
    | AccessibilityFeatures | AccessibilityRequirements | VenueAccessibilityConcern | CompanionNeeds

  /** The goal's strategies in catalogue order. */
  function GoalKeys(g: Goal): seq<StrategyKey> {
    match g
    case LineupPerception => [ArtistExcitement, HeadlinerInfluence, DiscoveryBalance, LineupMatch]
    case PricingPerception => [TierPreference, VipAppeal, PriceBarrier, ValuePerception]
    case FoodBeverageInterest => [BrandInterest, FoodImportance, DietaryNeeds, SpendingExpectation]
    case LogisticsPlanning => [TransportMethod, ArrivalTime, GroupSize, DayPreference]
    case MarketingEffectiveness => [DiscoveryChannel, InformationNeeds, SocialSharing, RegistrationMotivation]
    case AttendeeExpectations => [ExperienceHopes, ExcitementLevel, SuccessCriteria, UniqueExperience]
    case AccessibilityNeeds => [AccessibilityFeatures, AccessibilityRequirements, VenueAccessibilityConcern, CompanionNeeds]
  }

  /** The strategy's identifier. */
  function StrategyId(k: StrategyKey): string {
    match k
    case ArtistExcitement => "artist_excitement"
    case HeadlinerInfluence => "headliner_influence"
    case DiscoveryBalance => "discovery_balance"
    case LineupMatch => "lineup_match"
    case TierPreference => "tier_preference"
    case VipAppeal => "vip_appeal"
    case PriceBarrier => "price_barrier"
    case ValuePerception => "value_perception"
    case BrandInterest => "brand_interest"
    case FoodImportance => "food_importance"
    case DietaryNeeds => "dietary_needs"
    case SpendingExpectation => "spending_expectation"
    case TransportMethod => "transport_method"
    case ArrivalTime => "arrival_time"
    case GroupSize => "group_size"
    case DayPreference => "day_preference"
    case DiscoveryChannel => "discovery_channel"
    case InformationNeeds => "information_needs"
    case SocialSharing => "social_sharing"
    case RegistrationMotivation => "registration_motivation"
    case ExperienceHopes => "experience_hopes"
    case ExcitementLevel => "excitement_level"
    case SuccessCriteria => "success_criteria"
    case UniqueExperience => "unique_experience"
    case AccessibilityFeatures => "accessibility_features"
    case AccessibilityRequirements => "accessibility_requirements"
    case VenueAccessibilityConcern => "venue_accessibility_concern"
    case CompanionNeeds => "companion_needs"
  }

  /** What the strategy is for. */
  function Purpose(k: StrategyKey): string {
    match k
    case ArtistExcitement => "Which specific artists drive excitement"
    case HeadlinerInfluence => "Measure headliner's impact on attendance decision"
    case DiscoveryBalance => "Preference for known vs new artists"
    case LineupMatch => "How well lineup matches taste"
    case TierPreference => "Which ticket tier appeals most"
    case VipAppeal => "Interest in VIP/premium experience"
    case PriceBarrier => "Is price a barrier to attendance"
    case ValuePerception => "Perceived value for money"
    case BrandInterest => "Interest in specific beverage partners"
    case FoodImportance => "How important is food quality"
    case DietaryNeeds => "Dietary requirements"
    case SpendingExpectation => "Expected F&B spend"
    case TransportMethod => "How attendees will travel"
    case ArrivalTime => "When they plan to arrive"
    case GroupSize => "Who they're attending with"
    case DayPreference => "Preferred day if multi-day"
    case DiscoveryChannel => "How they found out about the event"
    case InformationNeeds => "What info would help their decision"
    case SocialSharing => "Likelihood to share/promote"
    case RegistrationMotivation => "Why they registered interest"
    case ExperienceHopes => "What they're most looking forward to"
    case ExcitementLevel => "Overall excitement level"
    case SuccessCriteria => "What would make it a success for them"
    case UniqueExperience => "Importance of unique experience"
    case AccessibilityFeatures => "Which accessibility features are needed"
    case AccessibilityRequirements => "Open-ended accessibility needs"
    case VenueAccessibilityConcern => "Concerns about venue accessibility"
    case CompanionNeeds => "Carer/companion ticket needs"
  }

  /** The kind of event data the strategy needs, if any. */
  function RequiresData(k: StrategyKey): Option<string> {
    match k
    case ArtistExcitement => Some("lineup")
    case HeadlinerInfluence => Some("headliner")
    case DiscoveryBalance => None
    case LineupMatch => None
    case TierPreference => Some("pricing_tiers")
    case VipAppeal => Some("vip_info")
    case PriceBarrier => None
    case ValuePerception => None
    case BrandInterest => Some("bar_partners")
    case FoodImportance => None
    case DietaryNeeds => None
    case SpendingExpectation => None
    case TransportMethod => Some("venue")
    case ArrivalTime => None
    case GroupSize => None
    case DayPreference => None
    case DiscoveryChannel => None
    case InformationNeeds => None
    case SocialSharing => None
    case RegistrationMotivation => None
    case ExperienceHopes => None
    case ExcitementLevel => None
    case SuccessCriteria => None
    case UniqueExperience => None
    case AccessibilityFeatures => None
    case AccessibilityRequirements => None
    case VenueAccessibilityConcern => Some("venue")
    case CompanionNeeds => None
  }

  /** The question text the strategy proposes, with placeholder tokens. */
  function TemplateText(k: StrategyKey): string {
    match k
    case ArtistExcitement => "Which artists are you most excited to see at {{EVENT_NAME}}?"
    case HeadlinerInfluence => "How much did {{HEADLINER}} headlining influence your decision to attend {{EVENT_NAME}}?"
    case DiscoveryBalance => "At {{EVENT_NAME}}, what's more important to you?"
    case LineupMatch => "How well does the announced lineup for {{EVENT_NAME}} match your music taste?"
    case TierPreference => "Which ticket option best fits your needs for {{EVENT_NAME}}?"
    case VipAppeal => "VIP tickets for {{EVENT_NAME}} include {{VIP_PERKS}}. How appealing is this to you?"
    case PriceBarrier => "How does ticket pricing affect your decision to attend {{EVENT_NAME}}?"
    case ValuePerception => "Based on what you know about {{EVENT_NAME}}, how would you rate the expected value for money?"
    case BrandInterest => "We're partnering with beverage brands for {{EVENT_NAME}}. Which interest you most?"
    case FoodImportance => "How important is the food and drink offering to your {{EVENT_NAME}} experience?"
    case DietaryNeeds => "Do you have any dietary requirements we should consider for {{EVENT_NAME}}?"
    case SpendingExpectation => "Approximately how much do you expect to spend on food and drinks at {{EVENT_NAME}}?"
    case TransportMethod => "How are you planning to travel to {{VENUE}} for {{EVENT_NAME}}?"
    case ArrivalTime => "When do you plan to arrive at {{EVENT_NAME}}?"
    case GroupSize => "Who are you planning to attend {{EVENT_NAME}} with?"
    case DayPreference => "Which days work best for you to attend {{EVENT_NAME}}?"
    case DiscoveryChannel => "How did you first hear about {{EVENT_NAME}}?"
    case InformationNeeds => "What information would be most helpful before deciding to attend {{EVENT_NAME}}?"
    case SocialSharing => "How likely are you to share {{EVENT_NAME}} with friends or on social media?"
    case RegistrationMotivation => "What motivated you to register interest in {{EVENT_NAME}}?"
    case ExperienceHopes => "What are you most looking forward to at {{EVENT_NAME}}?"
    case ExcitementLevel => "How excited are you about attending {{EVENT_NAME}}?"
    case SuccessCriteria => "What would make {{EVENT_NAME}} a great experience for you?"
    case UniqueExperience => "How important is it that {{EVENT_NAME}} delivers a unique experience compared to other events?"
    case AccessibilityFeatures => "Which accessibility features are important to you for {{EVENT_NAME}}?"
    case AccessibilityRequirements => "Do you have any accessibility requirements we should know about for {{EVENT_NAME}}?"
    case VenueAccessibilityConcern => "Do you have any concerns about accessibility at {{VENUE}}?"
    case CompanionNeeds => "Will you need a companion/carer ticket for {{EVENT_NAME}}?"
  }

  /** The question type the strategy proposes. */
  function TemplateType(k: StrategyKey): string {
    match k
    case ArtistExcitement => "Multi-select"
    case HeadlinerInfluence => "Likert"
    case DiscoveryBalance => "Single-select"
    case LineupMatch => "Likert"
    case TierPreference => "Single-select"
    case VipAppeal => "Likert"
    case PriceBarrier => "Single-select"
    case ValuePerception => "Likert"
    case BrandInterest => "Multi-select"
    case FoodImportance => "Likert"
    case DietaryNeeds => "Multi-select"
    case SpendingExpectation => "Single-select"
    case TransportMethod => "Single-select"
    case ArrivalTime => "Single-select"
    case GroupSize => "Single-select"
    case DayPreference => "Multi-select"
    case DiscoveryChannel => "Single-select"
    case InformationNeeds => "Multi-select"
    case SocialSharing => "Likert"
    case RegistrationMotivation => "Multi-select"
    case ExperienceHopes => "Multi-select"
    case ExcitementLevel => "Likert"
    case SuccessCriteria => "textarea"
    case UniqueExperience => "Likert"
    case AccessibilityFeatures => "Multi-select"
    case AccessibilityRequirements => "textarea"
    case VenueAccessibilityConcern => "Single-select"
    case CompanionNeeds => "Single-select"
  }

  /** The options the strategy proposes, if any. */
  function TemplateOptions(k: StrategyKey): Option<seq<string>> {
    match k
    case ArtistExcitement => Some(["{{LINEUP_ARTISTS}}", "All equally excited", "Other"])
    case HeadlinerInfluence => Some(["Not at all", "Slightly", "Moderately", "Significantly", "It was the main reason"])
    case DiscoveryBalance => Some(["Seeing artists I already love", "Discovering new artists", "A good mix of both"])
    case LineupMatch => Some(["Not at all", "Slightly", "Moderately", "Very well", "Perfectly"])
    case TierPreference => Some(["{{PRICING_TIERS}}", "Undecided"])
    case VipAppeal => Some(["Not appealing", "Slightly appealing", "Moderately appealing", "Very appealing", "Extremely appealing"])
    case PriceBarrier => Some(["Price doesn't affect my decision", "I'd attend if reasonably priced", "Price is a major factor", "I'm waiting for discounts/deals"])
    case ValuePerception => Some(["Very poor value", "Poor value", "Fair value", "Good value", "Excellent value"])
    case BrandInterest => Some(["{{BAR_BRANDS}}", "None of these", "Other"])
    case FoodImportance => Some(["Not important", "Slightly important", "Moderately important", "Very important", "Extremely important"])
    case DietaryNeeds => Some(["Vegetarian", "Vegan", "Gluten-free", "Halal", "Kosher", "Nut allergy", "Other allergies", "No specific requirements"])
    case SpendingExpectation => Some(["Under $20", "$20-$50", "$50-$100", "$100-$150", "Over $150"])
    case TransportMethod => Some(["Drive and park", "Public transport", "Taxi/Rideshare", "Walk/Cycle", "Shuttle service if available", "Undecided"])
    case ArrivalTime => Some(["As early as possible", "In time for specific acts", "Whenever I can make it", "Haven't decided yet"])
    case GroupSize => Some(["By myself", "With a partner", "Small group (3-5)", "Large group (6+)", "Meeting friends there"])
    case DayPreference => Some(["Friday", "Saturday", "Sunday", "Any day works", "Weekday if available"])
    case DiscoveryChannel => Some(["Instagram", "Facebook", "TikTok", "Friend/Word of mouth", "Email newsletter", "Website search", "Poster/Flyer", "Radio", "Other"])
    case InformationNeeds => Some(["Full lineup announcement", "Ticket prices", "Venue details", "Schedule/Timetable", "Food and drink options", "Parking/Transport info", "What to bring"])
    case SocialSharing => Some(["Very unlikely", "Unlikely", "Neutral", "Likely", "Very likely"])
    case RegistrationMotivation => Some(["The lineup/artists", "The venue", "Friend recommendation", "Social media buzz", "Value for money", "Unique concept", "Previous experience with organizer"])
    case ExperienceHopes => Some(["Live music performances", "Discovering new artists", "Social atmosphere", "Food and drinks", "Meeting like-minded people", "The venue experience", "Other"])
    case ExcitementLevel => Some(["Not excited", "Slightly excited", "Moderately excited", "Very excited", "Extremely excited"])
    case SuccessCriteria => None
    case UniqueExperience => Some(["Not important", "Slightly important", "Moderately important", "Very important", "Extremely important"])
    case AccessibilityFeatures => Some(["Wheelchair access", "Accessible viewing areas", "Accessible toilets", "Quiet/low sensory spaces", "Sign language interpretation", "Hearing loops", "None needed"])
    case AccessibilityRequirements => None
    case VenueAccessibilityConcern => Some(["No concerns", "Some concerns - please contact me", "Prefer not to say"])
    case CompanionNeeds => Some(["Yes", "No", "Maybe - need more information"])
  }

  /** The identifiers name the goals one to one. */
  lemma GoalNamesUnique(g: Goal)
    ensures GoalFromName(GoalName(g)) == Some(g)
  {
  }

  /** A goal's strategies are four distinct strategies. */
  lemma GoalKeysDistinct(g: Goal)
    ensures |GoalKeys(g)| == 4 && Distinct(GoalKeys(g))
  {
  }

  /** A catalogue strategy with its template, as the selection returns it. */
  datatype Strategy = Strategy(
    key: StrategyKey,
    id: string,
    purpose: string,
    requiresData: Option<string>,
    questionText: string,
    questionType: string,
    options: Option<seq<string>>)

  function StrategyOf(k: StrategyKey): (s: Strategy)
    ensures s.key == k
  {
    Strategy(k, StrategyId(k), Purpose(k), RequiresData(k), TemplateText(k), TemplateType(k), TemplateOptions(k))
  }

  function Strategies(ks: seq<StrategyKey>): (r: seq<Strategy>)
    ensures |r| == |ks|
    ensures forall i :: 0 <= i < |ks| ==> r[i] == StrategyOf(ks[i])
  {
    Map(ks, StrategyOf)
  }

  /** A goal's entry in `GOAL_STRATEGIES`. */
  datatype GoalConfig = GoalConfig(description: string, relevantData: seq<string>, strategies: seq<Strategy>)

  /** `get_strategies_for_goal`: the goal's entry, or nothing for an unknown goal. */
  function GetStrategiesForGoal(goal: string): (r: Option<GoalConfig>)
    ensures r.None? <==> GoalFromName(goal).None?
    ensures r.Some? ==> |r.value.strategies| == 4
  {
    match GoalFromName(goal)
    case None => None
    case Some(g) =>
      GoalKeysDistinct(g);
      Some(GoalConfig(GoalDescription(g), RelevantData(g), Strategies(GoalKeys(g))))
  }

  /** `get_all_goal_ids`. */
  function GetAllGoalIds(): (r: seq<string>)
    ensures |r| == 7
    ensures forall i :: 0 <= i < |r| ==> GoalFromName(r[i]).Some?
  {
    [GoalName(LineupPerception), GoalName(PricingPerception), GoalName(FoodBeverageInterest),
     GoalName(LogisticsPlanning), GoalName(MarketingEffectiveness), GoalName(AttendeeExpectations),
     GoalName(AccessibilityNeeds)]
  }

  /** `select_applicable_strategies`: nothing for an unknown goal, else the three-pass selection. */
  function SelectApplicableStrategies(goal: string, avail: map<string, bool>, cap: int): (r: seq<Strategy>)
    ensures GoalFromName(goal).None? ==> r == []
    ensures GoalFromName(goal).Some? ==> forall i :: 0 <= i < |r| ==> r[i].key in GoalKeys(GoalFromName(goal).value)
  {
    match GoalFromName(goal)
    case None => []
    case Some(g) => Strategies(Select(GoalKeys(g), RequiresData, avail, cap))
  }

  /**
   * For a known goal and a cap of at least zero, the selection holds
   * min(cap, 4) distinct strategies of that goal, ordered by pass.
   */
  lemma SelectionShape(g: Goal, avail: map<string, bool>, cap: int)
    requires cap >= 0
    ensures |SelectApplicableStrategies(GoalName(g), avail, cap)| == Min(cap, 4)
    ensures Distinct(SelectApplicableStrategies(GoalName(g), avail, cap))
  {
    GoalNamesUnique(g);
    GoalKeysDistinct(g);
    var ks := Select(GoalKeys(g), RequiresData, avail, cap);
    SelectLengthAndDistinct(GoalKeys(g), RequiresData, avail, cap);
    var r := Strategies(ks);
    forall i, j | 0 <= i < j < |r|
      ensures r[i] != r[j]
    {
      assert r[i].key == ks[i] && r[j].key == ks[j];
    }
  }

  /** A cap that covers the whole list selects every element. */
  lemma SelectCoversAll<T>(ss: seq<T>, req: T -> Option<string>, avail: map<string, bool>, cap: int, i: nat)
    requires Distinct(ss) && cap >= |ss| && i < |ss|
    ensures ss[i] in Select(ss, req, avail, cap)
  {
    SelectIsRankedPrefix(ss, req, avail, cap);
    RankedHasAll(ss, req, avail, i);
    assert Ranked(ss, req, avail)[..Min(cap, |ss|)] == Ranked(ss, req, avail);
  }

  /** A key in the list maps to its strategy in the mapped list. */
  lemma StrategiesHas(ks: seq<StrategyKey>, k: StrategyKey)
    requires k in ks
    ensures StrategyOf(k) in Strategies(ks)
  {
    var j :| 0 <= j < |ks| && ks[j] == k;
    assert Strategies(ks)[j] == StrategyOf(k);
  }

  /** With the default cap of four, every strategy of the goal is selected. */
  lemma DefaultCapSelectsAll(g: Goal, avail: map<string, bool>, i: nat)
    requires i < 4
    ensures StrategyOf(GoalKeys(g)[i]) in SelectApplicableStrategies(GoalName(g), avail, 4)
  {
    GoalNamesUnique(g);
    GoalKeysDistinct(g);
    SelectCoversAll(GoalKeys(g), RequiresData, avail, 4, i);
    StrategiesHas(Select(GoalKeys(g), RequiresData, avail, 4), GoalKeys(g)[i]);
  }

  // The strategy prompt block

  const Sep: string := Repeat('=', 50)
  /** A bucket's heading, naming how many questions to write per goal. */
  function BucketHeading(title: string, count: string): string {
    title + " (generate " + count + " questions per goal)"
  }

  const MustHeader: string := BucketHeading("MUST HAVE GOALS", "4")
  const InterestedHeader: string := BucketHeading("INTERESTED TO KNOW", "2")
  const DataHeader: string := "AVAILABLE EVENT DATA (for reference)"
  const PromptIntro: seq<string> := [
    "QUESTION STRATEGIES TO IMPLEMENT:",
    "",
    "Use placeholder tokens exactly as shown." + " The system will replace them with real data.",
    ""
  ]

  /** The options line is shown only for a non-empty option list. */
  predicate ShowsOptions(s: Strategy) {
    s.options.Some? && |s.options.value| > 0
  }

  /** The numbered lines are the ones that start with a digit. */
  predicate IsPurposeLine(l: string) {
    |l| > 0 && IsDigit(l[0])
  }

  function PurposeLine(i: nat, s: Strategy): (r: string)
    ensures IsPurposeLine(r)
  {
    NatToString(i) + ". PURPOSE: " + s.purpose
  }

  /** A line that cannot be mistaken for a bucket heading: it starts with neither 'M' nor 'I'. */
  predicate Quiet(l: string) {
    |l| == 0 || (l[0] != 'M' && l[0] != 'I')
  }

  /** The lines for the `i`-th strategy of a goal. */
  function StrategyLines(i: nat, s: Strategy): (r: seq<string>)
    ensures |r| == if ShowsOptions(s) then 5 else 4
    ensures r[0] == PurposeLine(i, s) && r[|r| - 1] == ""
    ensures forall j :: 1 <= j < |r| ==> !IsPurposeLine(r[j])
    ensures forall j :: 0 <= j < |r| ==> Quiet(r[j])
  {
    [PurposeLine(i, s), "   TEMPLATE: \"" + s.questionText + "\"", "   TYPE: " + s.questionType]
    + (if ShowsOptions(s) then ["   OPTIONS: " + ListRepr(s.options.value)] else [])
    + [""]
  }

  /** The strategies numbered from `i` on. */
  function Numbered(ss: seq<Strategy>, i: nat): (r: seq<string>)
    ensures forall j :: 0 <= j < |r| ==> Quiet(r[j])
    decreases |ss|
  {
    if |ss| == 0 then [] else StrategyLines(i, ss[0]) + Numbered(ss[1..], i + 1)
  }

  /** The purpose lines the numbered block should contain, in order. */
  function PurposeLines(ss: seq<Strategy>, i: nat): (r: seq<string>)
    ensures |r| == |ss|
    ensures forall j :: 0 <= j < |ss| ==> r[j] == PurposeLine(i + j, ss[j])
    decreases |ss|
  {
    if |ss| == 0 then [] else [PurposeLine(i, ss[0])] + PurposeLines(ss[1..], i + 1)
  }

  /** The numbered block holds one purpose line per strategy, numbered consecutively. */
  lemma {:induction false} NumberedPurposes(ss: seq<Strategy>, i: nat)
    ensures Filter(Numbered(ss, i), IsPurposeLine) == PurposeLines(ss, i)
    decreases |ss|
  {
    if |ss| > 0 {
      var head := StrategyLines(i, ss[0]);
      FilterConcat(head, Numbered(ss[1..], i + 1), IsPurposeLine);
      FilterConcat([head[0]], head[1..], IsPurposeLine);
      assert [head[0]] + head[1..] == head;
      FilterNone(head[1..], IsPurposeLine);
      NumberedPurposes(ss[1..], i + 1);
    }
  }

  function GoalHeading(goal: string): string {
    "\n### GOAL: " + Title(ReplaceChar(goal, '_', ' '))
  }

  /** The goal's selected strategies, or none when the map has no entry for it. */
  function StrategiesFor(gs: map<string, seq<Strategy>>, goal: string): seq<Strategy> {
    if goal in gs then gs[goal] else []
  }

  /** The block for one goal showing at most `n` of its strategies. */
  function GoalBlock(goal: string, gs: map<string, seq<Strategy>>, n: nat): (r: seq<string>)
    ensures forall j :: 0 <= j < |r| ==> Quiet(r[j])
  {
    var ss := StrategiesFor(gs, goal);
    [GoalHeading(goal), "Generate " + NatToString(n) + " questions using these strategies:\n"]
    + Numbered(ss[..Min(n, |ss|)], 1)
  }

  /** A goal's block lists the first min(n, |ss|) of its strategies, numbered from one. */
  lemma GoalBlockPurposes(goal: string, gs: map<string, seq<Strategy>>, n: nat)
    ensures var ss := StrategiesFor(gs, goal);
            Filter(GoalBlock(goal, gs, n), IsPurposeLine) == PurposeLines(ss[..Min(n, |ss|)], 1)
  {
    var ss := StrategiesFor(gs, goal);
    var head := [GoalHeading(goal), "Generate " + NatToString(n) + " questions using these strategies:\n"];
    FilterConcat(head, Numbered(ss[..Min(n, |ss|)], 1), IsPurposeLine);
    FilterNone(head, IsPurposeLine);
    NumberedPurposes(ss[..Min(n, |ss|)], 1);
  }

  function GoalBlocks(goals: seq<string>, gs: map<string, seq<Strategy>>, n: nat): (r: seq<string>)
    ensures forall j :: 0 <= j < |r| ==> Quiet(r[j])
    decreases |goals|
  {
    if |goals| == 0 then [] else GoalBlock(goals[0], gs, n) + GoalBlocks(goals[1..], gs, n)
  }

  /** A bucket's section: nothing when the bucket is empty. */
  function GoalsSection(header: string, goals: seq<string>, gs: map<string, seq<Strategy>>, n: nat): (r: seq<string>)
    ensures |goals| > 0 <==> header in r
    ensures forall j :: 0 <= j < |r| ==> Quiet(r[j]) || r[j] == header
  {
    if |goals| == 0 then [] else [Sep, header, Sep] + GoalBlocks(goals, gs, n)
  }

  /** The extracted-data fields the preview shows; an absent field is empty. */
  datatype PreviewData = PreviewData(
    lineupArtists: seq<string>,
    headliner: string,
    pricingTiersFormatted: string,
    vipPerks: seq<string>,
    barBrands: seq<string>,
    venue: string)

  const Ellipsis: string := "..."

  function LineupLine(artists: seq<string>): string {
    "LINEUP_ARTISTS: " + ListRepr(artists[..Min(5, |artists|)]) + (if |artists| > 5 then Ellipsis else "")
  }

  function VipLine(perks: seq<string>): string {
    "VIP_PERKS: " + Join(", ", perks[..Min(3, |perks|)]) + (if |perks| > 3 then Ellipsis else "")
  }

  /** A line shown only when its field is present. */
  function OptionalLine(present: bool, line: string): seq<string> {
    if present then [line] else []
  }

  /** One line per non-empty field, in a fixed order. */
  function PreviewLines(d: PreviewData): seq<string> {
    OptionalLine(|d.lineupArtists| > 0, LineupLine(d.lineupArtists))
    + OptionalLine(|d.headliner| > 0, "HEADLINER: " + d.headliner)
    + OptionalLine(|d.pricingTiersFormatted| > 0, "PRICING_TIERS: " + d.pricingTiersFormatted)
    + OptionalLine(|d.vipPerks| > 0, VipLine(d.vipPerks))
    + OptionalLine(|d.barBrands| > 0, "BAR_BRANDS: " + ListRepr(d.barBrands))
    + OptionalLine(|d.venue| > 0, "VENUE: " + d.venue)
  }

  predicate AllQuiet(xs: seq<string>) {
    forall j :: 0 <= j < |xs| ==> Quiet(xs[j])
  }

  lemma AllQuietConcat(xs: seq<string>, ys: seq<string>)
    requires AllQuiet(xs) && AllQuiet(ys)
    ensures AllQuiet(xs + ys)
  {
  }

  /** A line keeps the first character of its tag, and no tag starts with 'M' or 'I'. */
  lemma TaggedLineQuiet(present: bool, tag: string, value: string)
    requires |tag| > 0 && tag[0] != 'M' && tag[0] != 'I'
    ensures AllQuiet(OptionalLine(present, tag + value))
  {
    assert (tag + value)[0] == tag[0];
  }

  lemma LineupLineQuiet(artists: seq<string>)
    ensures AllQuiet(OptionalLine(|artists| > 0, LineupLine(artists)))
  {
    var shown := "LINEUP_ARTISTS: " + ListRepr(artists[..Min(5, |artists|)]);
    assert shown[0] == 'L';
    TaggedLineQuiet(|artists| > 0, shown, if |artists| > 5 then Ellipsis else "");
  }

  lemma VipLineQuiet(perks: seq<string>)
    ensures AllQuiet(OptionalLine(|perks| > 0, VipLine(perks)))
  {
    var shown := "VIP_PERKS: " + Join(", ", perks[..Min(3, |perks|)]);
    assert shown[0] == 'V';
    TaggedLineQuiet(|perks| > 0, shown, if |perks| > 3 then Ellipsis else "");
  }

  /** The preview carries no bucket heading. */
  lemma PreviewLinesQuiet(d: PreviewData)
    ensures AllQuiet(PreviewLines(d))
  {
    var l1 := OptionalLine(|d.lineupArtists| > 0, LineupLine(d.lineupArtists));
    var l2 := OptionalLine(|d.headliner| > 0, "HEADLINER: " + d.headliner);
    var l3 := OptionalLine(|d.pricingTiersFormatted| > 0, "PRICING_TIERS: " + d.pricingTiersFormatted);
    var l4 := OptionalLine(|d.vipPerks| > 0, VipLine(d.vipPerks));
    var l5 := OptionalLine(|d.barBrands| > 0, "BAR_BRANDS: " + ListRepr(d.barBrands));
    var l6 := OptionalLine(|d.venue| > 0, "VENUE: " + d.venue);
    LineupLineQuiet(d.lineupArtists);
    TaggedLineQuiet(|d.headliner| > 0, "HEADLINER: ", d.headliner);
    TaggedLineQuiet(|d.pricingTiersFormatted| > 0, "PRICING_TIERS: ", d.pricingTiersFormatted);
    VipLineQuiet(d.vipPerks);
    TaggedLineQuiet(|d.barBrands| > 0, "BAR_BRANDS: ", ListRepr(d.barBrands));
    TaggedLineQuiet(|d.venue| > 0, "VENUE: ", d.venue);
    AllQuietConcat(l1, l2);
    AllQuietConcat(l1 + l2, l3);
    AllQuietConcat(l1 + l2 + l3, l4);
    AllQuietConcat(l1 + l2 + l3 + l4, l5);
    AllQuietConcat(l1 + l2 + l3 + l4 + l5, l6);
  }

  /** The lines of `format_strategies_for_prompt`. */
  function StrategyPromptLines(gs: map<string, seq<Strategy>>, d: PreviewData, must: seq<string>, interested: seq<string>): seq<string> {
    PromptIntro
    + GoalsSection(MustHeader, must, gs, 4)
    + GoalsSection(InterestedHeader, interested, gs, 2)
    + [Sep, DataHeader, Sep]
    + PreviewLines(d)
  }

  /** `format_strategies_for_prompt`. */
  function FormatStrategiesForPrompt(gs: map<string, seq<Strategy>>, d: PreviewData, must: seq<string>, interested: seq<string>): (r: string)
    ensures StartsWith(r, PromptIntro[0])
  {
    Join("\n", StrategyPromptLines(gs, d, must, interested))
  }

  /** A heading is not among lines that are quiet or carry another heading. */
  lemma HeadingAbsent(xs: seq<string>, h: string, other: string)
    requires !Quiet(h) && h != other
    requires forall j :: 0 <= j < |xs| ==> Quiet(xs[j]) || xs[j] == other
    ensures h !in xs
  {
  }

  /** The lines around the two bucket sections carry no heading. */
  lemma OuterLinesQuiet(d: PreviewData)
    ensures AllQuiet(PromptIntro)
    ensures AllQuiet([Sep, DataHeader, Sep])
    ensures AllQuiet(PreviewLines(d))
  {
    assert Sep[0] == '=';
    PreviewLinesQuiet(d);
  }

  /** Membership in five concatenated pieces. */
  lemma InFive(p: seq<string>, a: seq<string>, b: seq<string>, c: seq<string>, e: seq<string>, h: string)
    ensures h in p + a + b + c + e <==> h in p || h in a || h in b || h in c || h in e
  {
  }

  /** The two bucket headings start with 'M' and 'I'. */
  lemma HeadingsLoud()
    ensures !Quiet(MustHeader) && !Quiet(InterestedHeader) && MustHeader != InterestedHeader
  {
    assert MustHeader[0] == 'M';
    assert InterestedHeader[0] == 'I';
  }

  /** Each bucket heading appears exactly when its bucket has goals. */
  lemma HeadingsShownIff(gs: map<string, seq<Strategy>>, d: PreviewData, must: seq<string>, interested: seq<string>)
    ensures MustHeader in StrategyPromptLines(gs, d, must, interested) <==> |must| > 0
    ensures InterestedHeader in StrategyPromptLines(gs, d, must, interested) <==> |interested| > 0
  {
    var a := GoalsSection(MustHeader, must, gs, 4);
    var b := GoalsSection(InterestedHeader, interested, gs, 2);
    var c := [Sep, DataHeader, Sep];
    var e := PreviewLines(d);
    OuterLinesQuiet(d);
    HeadingsLoud();
    InFive(PromptIntro, a, b, c, e, MustHeader);
    InFive(PromptIntro, a, b, c, e, InterestedHeader);
    HeadingAbsent(b, MustHeader, InterestedHeader);
    HeadingAbsent(a, InterestedHeader, MustHeader);
  }

  /** The lineup line ends in an ellipsis exactly when more than five artists are known. */
  lemma LineupEllipsisIff(artists: seq<string>)
    ensures EndsWith(LineupLine(artists), Ellipsis) <==> |artists| > 5
  {
    var shown := "LINEUP_ARTISTS: " + ListRepr(artists[..Min(5, |artists|)]);
    if |artists| <= 5 {
      assert LineupLine(artists) == shown;
      assert shown[|shown| - 1] == ']';
    }
  }

  /**
   * The VIP line ends in an ellipsis exactly when more than three perks are
   * known, provided no perk is empty or itself ends with a full stop.
   */
  lemma VipEllipsisIff(perks: seq<string>)
    requires |perks| > 0
    requires forall i :: 0 <= i < |perks| ==> |perks[i]| > 0 && perks[i][|perks[i]| - 1] != '.'
    ensures EndsWith(VipLine(perks), Ellipsis) <==> |perks| > 3
  {
    var first := perks[..Min(3, |perks|)];
    var joined := Join(", ", first);
    JoinEndsWith(", ", first);
    var last := first[|first| - 1];
    assert joined[|joined| - 1] == last[|last| - 1];
    var shown := "VIP_PERKS: " + joined;
    if |perks| <= 3 {
      assert VipLine(perks) == shown;
      assert shown[|shown| - 1] == joined[|joined| - 1];
    }
  }
}
