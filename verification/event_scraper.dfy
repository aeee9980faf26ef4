/**
 * The scraping orchestrator: URL normalisation, routing a URL through the scraper list
 * (parsers first, the model-backed scraper last), and merging the records of several URLs.
 */
module EventScraper {
  import opened Wrappers
  import opened Text
  import opened Collections
  import opened EventData
  import LlmScraper

  // ---------------------------------------------------------------------------
  // URL normalisation
  // ---------------------------------------------------------------------------

  const Http := "http://"
  const Https := "https://"

  predicate HasScheme(url: string) {
    StartsWith(url, Http) || StartsWith(url, Https)
  }

  /** `_normalize_url`: strip the URL and put "https://" in front when it has no http(s) scheme. */
  function NormalizeUrl(url: string): (r: string)
    ensures HasScheme(r) && Trimmed(r)
    ensures |r| >= |Strip(url)| && r[|r| - |Strip(url)|..] == Strip(url)
    ensures HasScheme(Strip(url)) ==> r == Strip(url)
    ensures !HasScheme(Strip(url)) ==> r == Https + Strip(url)
  {
    var u := Strip(url);
    if HasScheme(u) then u
    else
      var r := Https + u;
      assert r[..|Https|] == Https;
      r
  }

  /** Normalising twice is normalising once. */
  lemma NormalizeUrlIdempotent(url: string)
    ensures NormalizeUrl(NormalizeUrl(url)) == NormalizeUrl(url)
  {
    StripTrimmed(NormalizeUrl(url));
  }

  // ---------------------------------------------------------------------------
  // Routing
  // ---------------------------------------------------------------------------

  /** What one scraper's `extract` does for a URL: return a record, or raise. */
  datatype ScrapeOutcome = Extracted(data: ExtractedEventData) | ScrapeRaised

  /** A scraper: which URLs it accepts, and what it extracts from them. */
  datatype Scraper = Scraper(canHandle: string -> bool, extract: string -> ScrapeOutcome)

  /** The scraper accepts the URL and returns a record with data. */
  predicate Yields(s: Scraper, url: string) {
    s.canHandle(url) && s.extract(url).Extracted? && HasData(s.extract(url).data)
  }

  /** The scraper at position `i` is the first one that yields data for `url`. */
  predicate FirstYielding(scrapers: seq<Scraper>, url: string, i: int) {
    0 <= i < |scrapers| && Yields(scrapers[i], url) && forall j :: 0 <= j < i ==> !Yields(scrapers[j], url)
  }

  /** The scraper loop of `extract_from_url` on an already normalised URL. */
  function TryScrapers(scrapers: seq<Scraper>, url: string): (r: ExtractedEventData)
    ensures r == Empty || exists i :: FirstYielding(scrapers, url, i) && r == scrapers[i].extract(url).data
    ensures (exists i :: 0 <= i < |scrapers| && Yields(scrapers[i], url)) ==> HasData(r)
  {
    if scrapers == [] then Empty
    else if Yields(scrapers[0], url) then
      assert FirstYielding(scrapers, url, 0);
      scrapers[0].extract(url).data
    else
      var tail := scrapers[1..];
      var r := TryScrapers(tail, url);
      assert r != Empty ==> exists i :: FirstYielding(scrapers, url, i) && r == scrapers[i].extract(url).data by {
        if r != Empty {
          var i :| FirstYielding(tail, url, i) && r == tail[i].extract(url).data;
          assert FirstYielding(scrapers, url, i + 1);
        }
      }
      assert (exists i :: 0 <= i < |scrapers| && Yields(scrapers[i], url)) ==> exists i :: 0 <= i < |tail| && Yields(tail[i], url) by {
        if exists i :: 0 <= i < |scrapers| && Yields(scrapers[i], url) {
          var i :| 0 <= i < |scrapers| && Yields(scrapers[i], url);
          assert Yields(tail[i - 1], url);
        }
      }
      r
  }

  /** `extract_from_url`: the first scraper that accepts the normalised URL and yields data wins. */
  function ExtractFromUrl(scrapers: seq<Scraper>, url: string): ExtractedEventData {
    TryScrapers(scrapers, NormalizeUrl(url))
  }

  /** The model-backed scraper as an entry of the scraper list; its `extract` never raises. */
  function LlmEntry(fetch: string -> LlmScraper.FetchOutcome, model: (string, string) -> LlmScraper.ExtractionReply): Scraper {
    Scraper(u => LlmScraper.CanHandle(u), u => Extracted(LlmScraper.Extract(u, fetch, model)))
  }

  /** The orchestrator's scraper list: only the model-backed fallback. */
  function DefaultScrapers(fetch: string -> LlmScraper.FetchOutcome, model: (string, string) -> LlmScraper.ExtractionReply): seq<Scraper> {
    [LlmEntry(fetch, model)]
  }

  /** With the default list, a URL gives the model's record when it has data and the empty record otherwise. */
  lemma DefaultExtractFromUrl(url: string, fetch: string -> LlmScraper.FetchOutcome, model: (string, string) -> LlmScraper.ExtractionReply)
    ensures var d := LlmScraper.Extract(NormalizeUrl(url), fetch, model);
      ExtractFromUrl(DefaultScrapers(fetch, model), url) == (if HasData(d) then d else Empty)
  {
  }

  // ---------------------------------------------------------------------------
  // Merging
  // ---------------------------------------------------------------------------

  /** The non-empty descriptions, in source order. */
  function Descriptions(rs: seq<ExtractedEventData>): (ds: seq<string>)
    ensures forall j :: 0 <= j < |ds| ==> ds[j] != ""
  {
    if rs == [] then []
    else (if Truthy(rs[0].description) then [rs[0].description.value] else []) + Descriptions(rs[1..])
  }

  /** `max(ds, key=len)`: a longest entry, the first one among equals. */
  function Longest(ds: seq<string>): (r: string)
    requires ds != []
    ensures forall j :: 0 <= j < |ds| ==> |ds[j]| <= |r|
    ensures exists i :: 0 <= i < |ds| && ds[i] == r && forall j :: 0 <= j < i ==> |ds[j]| < |r|
  {
    if |ds| == 1 then ds[0]
    else
      var rest := Longest(ds[1..]);
      if |rest| > |ds[0]| then
        assert forall j :: 1 <= j < |ds| ==> ds[j] == ds[1..][j - 1];
        var i :| 0 <= i < |ds[1..]| && ds[1..][i] == rest && forall j :: 0 <= j < i ==> |ds[1..][j]| < |rest|;
        assert ds[i + 1] == rest;
        rest
      else
        assert forall j :: 1 <= j < |ds| ==> ds[j] == ds[1..][j - 1];
        ds[0]
  }

  function MergeDescription(rs: seq<ExtractedEventData>): (r: Option<string>)
    ensures r.None? <==> Descriptions(rs) == []
  {
    var ds := Descriptions(rs);
    if ds == [] then None else Some(Longest(ds))
  }

  /** The non-empty venues, in source order. */
  function Venues(rs: seq<ExtractedEventData>): (vs: seq<string>)
    ensures forall j :: 0 <= j < |vs| ==> vs[j] != ""
  {
    if rs == [] then []
    else (if Truthy(rs[0].venue) then [rs[0].venue.value] else []) + Venues(rs[1..])
  }

  function Identity(s: string): string { s }

  /** `dict.fromkeys(venues)` joined with " / " (a single venue stays as it is). */
  function MergeVenue(rs: seq<ExtractedEventData>): (r: Option<string>)
    ensures r.None? <==> Venues(rs) == []
    ensures r.Some? ==> r.value != ""
    ensures r.Some? ==> r.value == Join(" / ", FirstOccurrences(Venues(rs), Identity))
  {
    var vs := Venues(rs);
    if vs == [] then None
    else
      var unique := DedupBy(vs, Identity);
      assert KeyIn(vs, Identity, vs[0]);
      assert KeyIn(unique, Identity, vs[0]);
      DedupIsFirstOccurrences(vs, Identity);
      Some(Join(" / ", unique))
  }

  /** When every source that names a venue names the same one, that venue is kept as it is. */
  lemma SameVenueKept(rs: seq<ExtractedEventData>, v: string)
    requires Venues(rs) != []
    requires forall j :: 0 <= j < |Venues(rs)| ==> Venues(rs)[j] == v
    ensures MergeVenue(rs) == Some(v)
  {
    var vs := Venues(rs);
    var unique := DedupBy(vs, Identity);
    assert KeyIn(vs, Identity, v);
    assert KeyIn(unique, Identity, v);
    assert forall j :: 0 <= j < |unique| ==> unique[j] == v by {
      forall j | 0 <= j < |unique|
        ensures unique[j] == v
      {
        assert unique[j] in vs;
      }
    }
  }

  /** The dedup key of an artist or tier name: lower-cased, then stripped. */
  function NameKey(name: string): string { Strip(Lower(name)) }

  function ArtistKey(a: Artist): string { NameKey(a.name) }

  function TierKey(t: PricingTier): string { NameKey(t.name) }

  /** The sort key of the lineup: the rank, 999 when it is missing. */
  function RankOrDefault(a: Artist): int { a.rank.GetOr(999) }

  function AllLineup(rs: seq<ExtractedEventData>): seq<Artist> {
    if rs == [] then [] else rs[0].lineup + AllLineup(rs[1..])
  }

  function AllTiers(rs: seq<ExtractedEventData>): seq<PricingTier> {
    if rs == [] then [] else rs[0].pricingTiers + AllTiers(rs[1..])
  }

  /** `xs` with ranks `from`, `from + 1`, ... and nothing else changed. */
  function Renumber(xs: seq<Artist>, from: int): (r: seq<Artist>)
    ensures |r| == |xs|
    ensures forall i :: 0 <= i < |xs| ==> r[i].name == xs[i].name && r[i].rank == Some(i + from)
    decreases |xs|
  {
    if xs == [] then [] else [xs[0].(rank := Some(from))] + Renumber(xs[1..], from + 1)
  }

  /** The merged lineup before renumbering: first occurrences by name, stably sorted by rank. */
  function OrderedLineup(rs: seq<ExtractedEventData>): seq<Artist> {
    StableSort(DedupBy(AllLineup(rs), ArtistKey), RankOrDefault)
  }

  function MergeLineup(rs: seq<ExtractedEventData>): (r: seq<Artist>)
    ensures forall i :: 0 <= i < |r| ==> r[i].rank == Some(i + 1)
  {
    Renumber(OrderedLineup(rs), 1)
  }

  function AnyVip(rs: seq<ExtractedEventData>): bool {
    exists i :: 0 <= i < |rs| && rs[i].vipInfo.enabled
  }

  /** The VIP tiers of the sources whose VIP flag is set. */
  function VipTiers(rs: seq<ExtractedEventData>): seq<PricingTier> {
    if rs == [] then []
    else (if rs[0].vipInfo.enabled then rs[0].vipInfo.tiers else []) + VipTiers(rs[1..])
  }

  /** The VIP perks of the sources whose VIP flag is set. */
  function VipIncluded(rs: seq<ExtractedEventData>): seq<string> {
    if rs == [] then []
    else (if rs[0].vipInfo.enabled then rs[0].vipInfo.included else []) + VipIncluded(rs[1..])
  }

  function MergeVip(rs: seq<ExtractedEventData>): (r: VipInfo)
    ensures r.enabled <==> AnyVip(rs)
    ensures !r.enabled ==> r == NoVip
    ensures DistinctKeys(r.tiers, TierKey) && DistinctKeys(r.included, NameKey)
    ensures forall k {:trigger KeyIn(r.tiers, TierKey, k)} ::
      KeyIn(r.tiers, TierKey, k) <==> r.enabled && k != "" && KeyIn(VipTiers(rs), TierKey, k)
    ensures forall k {:trigger KeyIn(r.included, NameKey, k)} ::
      KeyIn(r.included, NameKey, k) <==> r.enabled && k != "" && KeyIn(VipIncluded(rs), NameKey, k)
    ensures r.enabled ==> r.tiers == FirstOccurrences(VipTiers(rs), TierKey)
    ensures r.enabled ==> r.included == FirstOccurrences(VipIncluded(rs), NameKey)
  {
    if AnyVip(rs) then
      DedupIsFirstOccurrences(VipTiers(rs), TierKey);
      DedupIsFirstOccurrences(VipIncluded(rs), NameKey);
      VipInfo(true, DedupBy(VipTiers(rs), TierKey), DedupBy(VipIncluded(rs), NameKey))
    else NoVip
  }

  /** `_merge_results`. */
  function Merge(rs: seq<ExtractedEventData>): (r: ExtractedEventData)
    ensures r.description.None? <==> Descriptions(rs) == []
    ensures r.venue.None? <==> Venues(rs) == []
    ensures forall i :: 0 <= i < |r.lineup| ==> r.lineup[i].rank == Some(i + 1)
    ensures DistinctKeys(r.pricingTiers, TierKey)
    ensures forall k {:trigger KeyIn(r.pricingTiers, TierKey, k)} ::
      KeyIn(r.pricingTiers, TierKey, k) <==> k != "" && KeyIn(AllTiers(rs), TierKey, k)
    ensures r.pricingTiers == FirstOccurrences(AllTiers(rs), TierKey)
    ensures r.venue.Some? ==> r.venue.value == Join(" / ", FirstOccurrences(Venues(rs), Identity))
    ensures r.vipInfo.enabled <==> AnyVip(rs)
    ensures !r.vipInfo.enabled ==> r.vipInfo == NoVip
    ensures r.vipInfo.enabled ==> r.vipInfo.tiers == FirstOccurrences(VipTiers(rs), TierKey)
    ensures r.vipInfo.enabled ==> r.vipInfo.included == FirstOccurrences(VipIncluded(rs), NameKey)
  {
    DedupIsFirstOccurrences(AllTiers(rs), TierKey);
    ExtractedEventData(MergeDescription(rs), MergeVenue(rs), MergeLineup(rs), DedupBy(AllTiers(rs), TierKey), MergeVip(rs))
  }

  /** The merged description is a longest non-empty description, the first one among equals. */
  lemma MergedDescriptionIsLongest(rs: seq<ExtractedEventData>)
    requires Descriptions(rs) != []
    ensures var d := Merge(rs).description.value; var ds := Descriptions(rs);
      (forall j :: 0 <= j < |ds| ==> |ds[j]| <= |d|)
      && exists i :: 0 <= i < |ds| && ds[i] == d && forall j :: 0 <= j < i ==> |ds[j]| < |d|
  {
  }

  /** Renumbering keeps every name, so it keeps the name keys. */
  lemma RenumberKeys(xs: seq<Artist>, from: int)
    ensures forall k :: KeyIn(Renumber(xs, from), ArtistKey, k) <==> KeyIn(xs, ArtistKey, k)
    ensures DistinctKeys(xs, ArtistKey) ==> DistinctKeys(Renumber(xs, from), ArtistKey)
  {
    var r := Renumber(xs, from);
    assert forall i :: 0 <= i < |r| ==> ArtistKey(r[i]) == ArtistKey(xs[i]);
    SameKeysPointwise(r, xs, ArtistKey);
  }

  /** The merged lineup holds one artist per non-empty name key, and every key of the sources. */
  lemma MergedLineupKeys(rs: seq<ExtractedEventData>)
    ensures DistinctKeys(Merge(rs).lineup, ArtistKey)
    ensures forall k :: KeyIn(Merge(rs).lineup, ArtistKey, k) <==> k != "" && KeyIn(AllLineup(rs), ArtistKey, k)
  {
    var d := DedupBy(AllLineup(rs), ArtistKey);
    StableSortPermutes(d, RankOrDefault);
    PermutationKeys(OrderedLineup(rs), d, ArtistKey);
    RenumberKeys(OrderedLineup(rs), 1);
  }

  /**
   * Before renumbering, the lineup is ordered by source rank (999 when missing), and artists
   * with equal rank keep the order in which they were first seen.
   */
  lemma MergedLineupOrder(rs: seq<ExtractedEventData>, k: int)
    ensures SortedBy(OrderedLineup(rs), RankOrDefault)
    ensures WithKey(OrderedLineup(rs), RankOrDefault, k) == WithKey(DedupBy(AllLineup(rs), ArtistKey), RankOrDefault, k)
  {
    StableSortIsStable(DedupBy(AllLineup(rs), ArtistKey), RankOrDefault, k);
  }

  /** A source whose VIP flag is off has no influence on the merged VIP information. */
  lemma {:induction false} DisabledVipIgnored(a: seq<ExtractedEventData>, x: ExtractedEventData, b: seq<ExtractedEventData>)
    requires !x.vipInfo.enabled
    ensures MergeVip(a + [x] + b) == MergeVip(a + b)
  {
    VipListsSkip(a, x, b);
    assert AnyVip(a + [x] + b) <==> AnyVip(a + b) by {
      if AnyVip(a + [x] + b) {
        var i :| 0 <= i < |a + [x] + b| && (a + [x] + b)[i].vipInfo.enabled;
        if i < |a| {
          assert (a + b)[i] == (a + [x] + b)[i];
        } else {
          assert (a + b)[i - 1] == (a + [x] + b)[i];
        }
      }
      if AnyVip(a + b) {
        var i :| 0 <= i < |a + b| && (a + b)[i].vipInfo.enabled;
        if i < |a| {
          assert (a + b)[i] == (a + [x] + b)[i];
        } else {
          assert (a + b)[i] == (a + [x] + b)[i + 1];
        }
      }
    }
  }

  lemma {:induction false} VipListsSkip(a: seq<ExtractedEventData>, x: ExtractedEventData, b: seq<ExtractedEventData>)
    requires !x.vipInfo.enabled
    ensures VipTiers(a + [x] + b) == VipTiers(a + b)
    ensures VipIncluded(a + [x] + b) == VipIncluded(a + b)
  {
    if a == [] {
      assert a + [x] + b == [x] + b;
      assert ([x] + b)[1..] == b;
      assert a + b == b;
    } else {
      VipListsSkip(a[1..], x, b);
      assert (a + [x] + b)[1..] == a[1..] + [x] + b;
      assert (a + b)[1..] == a[1..] + b;
    }
  }

  // Idempotence of the merge.

  lemma MergeOneDescription(m: ExtractedEventData, rs: seq<ExtractedEventData>)
    requires m.description == MergeDescription(rs)
    ensures MergeDescription([m]) == m.description
  {
    if m.description.Some? {
      assert Descriptions([m]) == [m.description.value];
    } else {
      assert Descriptions([m]) == [];
    }
  }

  lemma MergeOneVenue(m: ExtractedEventData, rs: seq<ExtractedEventData>)
    requires m.venue == MergeVenue(rs)
    ensures MergeVenue([m]) == m.venue
  {
    if m.venue.Some? {
      var v := m.venue.value;
      assert Venues([m]) == [v];
      DedupDistinct([v], Identity);
    } else {
      assert Venues([m]) == [];
    }
  }

  lemma MergeOneLineup(m: ExtractedEventData, rs: seq<ExtractedEventData>)
    requires m.lineup == MergeLineup(rs)
    ensures MergeLineup([m]) == m.lineup
  {
    var l := m.lineup;
    MergedLineupKeys(rs);
    assert AllLineup([m]) == l;
    DedupDistinct(l, ArtistKey);
    assert SortedBy(l, RankOrDefault);
    StableSortSorted(l, RankOrDefault);
    RenumberFixed(l, 1);
  }

  /** A lineup already ranked `from`, `from + 1`, ... is left as it is. */
  lemma {:induction false} RenumberFixed(xs: seq<Artist>, from: int)
    requires forall i :: 0 <= i < |xs| ==> xs[i].rank == Some(i + from)
    ensures Renumber(xs, from) == xs
    decreases |xs|
  {
    if xs != [] {
      assert forall i :: 0 <= i < |xs[1..]| ==> xs[1..][i].rank == Some(i + (from + 1)) by {
        forall i | 0 <= i < |xs[1..]|
          ensures xs[1..][i].rank == Some(i + (from + 1))
        {
          assert xs[1..][i] == xs[i + 1];
        }
      }
      RenumberFixed(xs[1..], from + 1);
      assert xs[0].(rank := Some(from)) == xs[0];
      assert [xs[0]] + xs[1..] == xs;
    }
  }

  /** VIP information shaped like a merge result is its own merge. */
  lemma MergeOneVip(m: ExtractedEventData)
    requires !m.vipInfo.enabled ==> m.vipInfo == NoVip
    requires DistinctKeys(m.vipInfo.tiers, TierKey) && DistinctKeys(m.vipInfo.included, NameKey)
    ensures MergeVip([m]) == m.vipInfo
  {
    assert AnyVip([m]) == m.vipInfo.enabled by {
      assert m.vipInfo.enabled ==> [m][0].vipInfo.enabled;
    }
    if m.vipInfo.enabled {
      assert VipTiers([m]) == m.vipInfo.tiers;
      assert VipIncluded([m]) == m.vipInfo.included;
      DedupDistinct(m.vipInfo.tiers, TierKey);
      DedupDistinct(m.vipInfo.included, NameKey);
    }
  }

  /** Merging a merged record on its own gives it back unchanged. */
  lemma MergeIdempotent(rs: seq<ExtractedEventData>)
    ensures Merge([Merge(rs)]) == Merge(rs)
  {
    var m := Merge(rs);
    MergeOneDescription(m, rs);
    MergeOneVenue(m, rs);
    MergeOneLineup(m, rs);
    MergeOneVip(m);
    assert AllTiers([m]) == m.pricingTiers;
    DedupDistinct(m.pricingTiers, TierKey);
  }

  /** Merging a single record is not the identity: source ranks are replaced by 1..n. */
  lemma MergeRenumbersSingleRecord()
    ensures var e := ExtractedEventData(None, None, [Artist("Headliner", Some(5))], [], NoVip);
      MergeLineup([e]) == [Artist("Headliner", Some(1))] && MergeLineup([e]) != e.lineup
  {
    var a := Artist("Headliner", Some(5));
    HeadlinerKey();
    SingleArtistMerge(a, ExtractedEventData(None, None, [a], [], NoVip));
  }

  /** A record with one named artist merges to that artist at rank 1. */
  lemma SingleArtistMerge(a: Artist, e: ExtractedEventData)
    requires ArtistKey(a) != "" && e.lineup == [a]
    ensures MergeLineup([e]) == [a.(rank := Some(1))]
  {
    assert AllLineup([e]) == [a];
    DedupDistinct([a], ArtistKey);
    StableSortSorted([a], RankOrDefault);
    assert OrderedLineup([e]) == [a];
  }

  lemma HeadlinerKey()
    ensures ArtistKey(Artist("Headliner", Some(5))) != ""
  {
    assert Lower("Headliner")[0] == 'h';
    StripEmptyIff(Lower("Headliner"));
  }

  // ---------------------------------------------------------------------------
  // Several URLs
  // ---------------------------------------------------------------------------

  /** The record of every URL, in URL order. */
  function Records(scrapers: seq<Scraper>, urls: seq<string>): (r: seq<ExtractedEventData>)
    ensures |r| == |urls|
    ensures forall i :: 0 <= i < |urls| ==> r[i] == ExtractFromUrl(scrapers, urls[i])
  {
    Map(urls, u => ExtractFromUrl(scrapers, u))
  }

  /** The per-URL records that have data, in URL order. */
  function Gathered(scrapers: seq<Scraper>, urls: seq<string>): (rs: seq<ExtractedEventData>)
    ensures |rs| <= |urls|
    ensures forall j :: 0 <= j < |rs| ==> HasData(rs[j])
    ensures rs == Filter(Records(scrapers, urls), HasData)
  {
    if urls == [] then []
    else
      var r := ExtractFromUrl(scrapers, urls[0]);
      var all := Records(scrapers, urls);
      assert all == [r] + Records(scrapers, urls[1..]);
      assert all[1..] == Records(scrapers, urls[1..]);
      (if HasData(r) then [r] else []) + Gathered(scrapers, urls[1..])
  }

  /** Every URL whose record has data contributes that record, and nothing else is gathered. */
  lemma GatheredMembers(scrapers: seq<Scraper>, urls: seq<string>)
    ensures forall i :: 0 <= i < |urls| && HasData(ExtractFromUrl(scrapers, urls[i])) ==>
      ExtractFromUrl(scrapers, urls[i]) in Gathered(scrapers, urls)
    ensures forall j :: 0 <= j < |Gathered(scrapers, urls)| ==>
      exists i :: 0 <= i < |urls| && Gathered(scrapers, urls)[j] == ExtractFromUrl(scrapers, urls[i])
  {
    var all := Records(scrapers, urls);
    var g := Gathered(scrapers, urls);
    FilterMembers(all, HasData);
    forall i | 0 <= i < |urls| && HasData(ExtractFromUrl(scrapers, urls[i]))
      ensures ExtractFromUrl(scrapers, urls[i]) in g
    {
      assert all[i] == ExtractFromUrl(scrapers, urls[i]);
    }
    forall j | 0 <= j < |g|
      ensures exists i :: 0 <= i < |urls| && g[j] == ExtractFromUrl(scrapers, urls[i])
    {
      assert g[j] in all;
      var i :| 0 <= i < |all| && all[i] == g[j];
      assert g[j] == ExtractFromUrl(scrapers, urls[i]);
    }
  }

  /** Gathering several URLs is gathering each part in turn: input order is kept. */
  lemma GatheredConcat(scrapers: seq<Scraper>, a: seq<string>, b: seq<string>)
    ensures Gathered(scrapers, a + b) == Gathered(scrapers, a) + Gathered(scrapers, b)
  {
    assert Records(scrapers, a + b) == Records(scrapers, a) + Records(scrapers, b);
    FilterConcat(Records(scrapers, a), Records(scrapers, b), HasData);
  }

  /** `extract_from_urls`: the merge of the records with data, or the empty record when there are none. */
  function ExtractFromUrls(scrapers: seq<Scraper>, urls: seq<string>): (r: ExtractedEventData)
    ensures Gathered(scrapers, urls) == [] ==> r == Empty
    ensures Gathered(scrapers, urls) != [] ==> r == Merge(Gathered(scrapers, urls))
  {
    if urls == [] then Empty
    else
      var rs := Gathered(scrapers, urls);
      if rs == [] then Empty else Merge(rs)
  }
}
