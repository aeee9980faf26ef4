/**
 * The record every scraper returns: description, venue, ranked lineup, pricing tiers
 * and VIP information, with the defaults the dataclass fills in, its truthiness test,
 * and its dictionary form for API responses.
 */
module EventData {
  import opened Wrappers

  /** A lineup entry; a missing "rank" key is None. */
  datatype Artist = Artist(name: string, rank: Option<int>)

  datatype PricingTier = PricingTier(name: string, price: string)

  datatype VipInfo = VipInfo(enabled: bool, tiers: seq<PricingTier>, included: seq<string>)

  datatype ExtractedEventData = ExtractedEventData(
    description: Option<string>,
    venue: Option<string>,
    lineup: seq<Artist>,
    pricingTiers: seq<PricingTier>,
    vipInfo: VipInfo)

  /** The VIP value `__post_init__` supplies when none is given. */
  const NoVip := VipInfo(false, [], [])

  /** `ExtractedEventData()`: the record with every field at its default. */
  const Empty := ExtractedEventData(None, None, [], [], NoVip)

  /** The constructor call with optional fields, `None` standing for an argument left out or passed as None. */
  function Make(description: Option<string>, venue: Option<string>, lineup: Option<seq<Artist>>,
                pricingTiers: Option<seq<PricingTier>>, vipInfo: Option<VipInfo>): ExtractedEventData
  {
    ExtractedEventData(description, venue, lineup.GetOr([]), pricingTiers.GetOr([]), vipInfo.GetOr(NoVip))
  }

  /** Python truthiness of an optional string. */
  predicate Truthy(s: Option<string>) {
    s.Some? && s.value != ""
  }

  /** `has_data`: some field holds something. */
  predicate HasData(e: ExtractedEventData) {
    Truthy(e.description) || Truthy(e.venue) || e.lineup != [] || e.pricingTiers != [] || e.vipInfo.enabled
  }

  /** A constructor call with every argument left out gives the defaults, which carry no data. */
  lemma DefaultsHaveNoData()
    ensures Make(None, None, None, None, None) == Empty
    ensures !HasData(Empty)
  {
  }

  // ---------------------------------------------------------------------------
  // Dictionary form
  // ---------------------------------------------------------------------------

  /** A JSON value. */
  datatype Value =
    | Null
    | Str(s: string)
    | Bool(b: bool)
    | Int(i: int)
    | Array(items: seq<Value>)
    | Object(fields: map<string, Value>)

  function OptionalString(s: Option<string>): Value {
    if s.Some? then Str(s.value) else Null
  }

  function ArtistToValue(a: Artist): Value {
    if a.rank.Some? then Object(map["name" := Str(a.name), "rank" := Int(a.rank.value)])
    else Object(map["name" := Str(a.name)])
  }

  function TierToValue(t: PricingTier): Value {
    Object(map["name" := Str(t.name), "price" := Str(t.price)])
  }

  function ArtistsToValue(xs: seq<Artist>): (v: Value)
    ensures v.Array? && |v.items| == |xs|
  {
    Array(seq(|xs|, i requires 0 <= i < |xs| => ArtistToValue(xs[i])))
  }

  function TiersToValue(xs: seq<PricingTier>): (v: Value)
    ensures v.Array? && |v.items| == |xs|
  {
    Array(seq(|xs|, i requires 0 <= i < |xs| => TierToValue(xs[i])))
  }

  function StringsToValue(xs: seq<string>): (v: Value)
    ensures v.Array? && |v.items| == |xs|
  {
    Array(seq(|xs|, i requires 0 <= i < |xs| => Str(xs[i])))
  }

  function VipToValue(v: VipInfo): Value {
    Object(map["enabled" := Bool(v.enabled), "tiers" := TiersToValue(v.tiers), "included" := StringsToValue(v.included)])
  }

  /** `to_dict`: the five fields under their API names. */
  function ToDict(e: ExtractedEventData): (d: map<string, Value>)
    ensures d.Keys == {"description", "venue", "lineup", "pricing_tiers", "vip_info"}
  {
    map[
      "description" := OptionalString(e.description),
      "venue" := OptionalString(e.venue),
      "lineup" := ArtistsToValue(e.lineup),
      "pricing_tiers" := TiersToValue(e.pricingTiers),
      "vip_info" := VipToValue(e.vipInfo)]
  }

  // Reading a dictionary back; the partner of `ToDict`.

  function StringFromValue(v: Value): Option<string> {
    if v.Str? then Some(v.s) else None
  }

  function OptionalStringFromValue(v: Value): Option<Option<string>> {
    match v
    case Null => Some(None)
    case Str(s) => Some(Some(s))
    case _ => None
  }

  function ArtistFromValue(v: Value): Option<Artist> {
    if v.Object? && "name" in v.fields && v.fields["name"].Str? then
      var name := v.fields["name"].s;
      if "rank" !in v.fields then Some(Artist(name, None))
      else if v.fields["rank"].Int? then Some(Artist(name, Some(v.fields["rank"].i)))
      else None
    else None
  }

  function TierFromValue(v: Value): Option<PricingTier> {
    if v.Object? && "name" in v.fields && "price" in v.fields && v.fields["name"].Str? && v.fields["price"].Str? then
      Some(PricingTier(v.fields["name"].s, v.fields["price"].s))
    else None
  }

  function ArtistsFromValues(vs: seq<Value>): (r: Option<seq<Artist>>)
    ensures r.Some? ==> |r.value| == |vs|
  {
    if vs == [] then Some([])
    else
      match (ArtistFromValue(vs[0]), ArtistsFromValues(vs[1..]))
      case (Some(a), Some(rest)) => Some([a] + rest)
      case _ => None
  }

  function TiersFromValues(vs: seq<Value>): (r: Option<seq<PricingTier>>)
    ensures r.Some? ==> |r.value| == |vs|
  {
    if vs == [] then Some([])
    else
      match (TierFromValue(vs[0]), TiersFromValues(vs[1..]))
      case (Some(t), Some(rest)) => Some([t] + rest)
      case _ => None
  }

  function StringsFromValues(vs: seq<Value>): (r: Option<seq<string>>)
    ensures r.Some? ==> |r.value| == |vs|
  {
    if vs == [] then Some([])
    else
      match (StringFromValue(vs[0]), StringsFromValues(vs[1..]))
      case (Some(s), Some(rest)) => Some([s] + rest)
      case _ => None
  }

  function VipFromValue(v: Value): Option<VipInfo> {
    if v.Object? && "enabled" in v.fields && "tiers" in v.fields && "included" in v.fields
       && v.fields["enabled"].Bool? && v.fields["tiers"].Array? && v.fields["included"].Array? then
      match (TiersFromValues(v.fields["tiers"].items), StringsFromValues(v.fields["included"].items))
      case (Some(ts), Some(inc)) => Some(VipInfo(v.fields["enabled"].b, ts, inc))
      case _ => None
    else None
  }

  /** Reads a `to_dict` dictionary back; None when a key is missing or a value has the wrong shape. */
  function FromDict(d: map<string, Value>): Option<ExtractedEventData> {
    if "description" in d && "venue" in d && "lineup" in d && "pricing_tiers" in d && "vip_info" in d
       && d["lineup"].Array? && d["pricing_tiers"].Array? then
      match (OptionalStringFromValue(d["description"]), OptionalStringFromValue(d["venue"]),
             ArtistsFromValues(d["lineup"].items), TiersFromValues(d["pricing_tiers"].items), VipFromValue(d["vip_info"]))
      case (Some(desc), Some(venue), Some(lineup), Some(tiers), Some(vip)) =>
        Some(ExtractedEventData(desc, venue, lineup, tiers, vip))
      case _ => None
    else None
  }

  lemma {:induction false} ArtistsRoundTrip(xs: seq<Artist>)
    ensures ArtistsFromValues(ArtistsToValue(xs).items) == Some(xs)
  {
    if xs != [] {
      ArtistsRoundTrip(xs[1..]);
      assert ArtistsToValue(xs).items[1..] == ArtistsToValue(xs[1..]).items;
      assert [xs[0]] + xs[1..] == xs;
    }
  }

  lemma {:induction false} TiersRoundTrip(xs: seq<PricingTier>)
    ensures TiersFromValues(TiersToValue(xs).items) == Some(xs)
  {
    if xs != [] {
      TiersRoundTrip(xs[1..]);
      assert TiersToValue(xs).items[1..] == TiersToValue(xs[1..]).items;
      assert [xs[0]] + xs[1..] == xs;
    }
  }

  lemma {:induction false} StringsRoundTrip(xs: seq<string>)
    ensures StringsFromValues(StringsToValue(xs).items) == Some(xs)
  {
    if xs != [] {
      StringsRoundTrip(xs[1..]);
      assert StringsToValue(xs).items[1..] == StringsToValue(xs[1..]).items;
      assert [xs[0]] + xs[1..] == xs;
    }
  }

  /** `to_dict` loses nothing: the dictionary reads back to the same record. */
  lemma DictRoundTrip(e: ExtractedEventData)
    ensures FromDict(ToDict(e)) == Some(e)
  {
    ArtistsRoundTrip(e.lineup);
    TiersRoundTrip(e.pricingTiers);
    TiersRoundTrip(e.vipInfo.tiers);
    StringsRoundTrip(e.vipInfo.included);
  }
}
