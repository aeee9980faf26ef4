/**
 * The model-backed scraper: page cleaning (whitespace collapsing and truncation) and the
 * fetch -> clean -> extract sequence, which turns every failure into the empty record.
 * Fetching the page and the model call are parameters.
 */
module LlmScraper {
  import opened Wrappers
  import opened Text
  import opened EventData

  /** `_clean_html`'s default `max_length`. */
  const MaxHtmlLength: nat := 50000

  /** `re.sub(r'\s+', ' ', s)`: every maximal run of whitespace becomes one space. */
  function CollapseWhitespace(s: string): (r: string)
    ensures |r| <= |s|
    ensures s == [] <==> r == []
    ensures |s| > 0 && IsSpace(s[0]) ==> r[0] == ' '
    ensures |s| > 0 && !IsSpace(s[0]) ==> r[0] == s[0]
    decreases |s|
  {
    if s == [] then []
    else if IsSpace(s[0]) then [' '] + CollapseWhitespace(LStripWith(s, IsSpace))
    else [s[0]] + CollapseWhitespace(s[1..])
  }

  /** Whitespace occurs only as single spaces. */
  predicate SingleSpaced(s: string) {
    forall i :: 0 <= i < |s| && IsSpace(s[i]) ==> s[i] == ' ' && (i + 1 == |s| || !IsSpace(s[i + 1]))
  }

  /** The non-whitespace characters of `s`, in order. */
  function Visible(s: string): (r: string)
    ensures |r| <= |s|
  {
    if s == [] then [] else (if IsSpace(s[0]) then [] else [s[0]]) + Visible(s[1..])
  }

  lemma {:induction false} VisibleConcat(a: string, b: string)
    ensures Visible(a + b) == Visible(a) + Visible(b)
  {
    if a != [] {
      assert (a + b)[1..] == a[1..] + b;
      VisibleConcat(a[1..], b);
    } else {
      assert a + b == b;
    }
  }

  lemma {:induction false} VisibleOfSpaces(s: string)
    requires AllSpace(s)
    ensures Visible(s) == []
  {
    if s != [] {
      VisibleOfSpaces(s[1..]);
    }
  }

  /** Dropping leading whitespace hides nothing visible. */
  lemma VisibleLStrip(s: string)
    ensures Visible(LStripWith(s, IsSpace)) == Visible(s)
  {
    var r := LStripWith(s, IsSpace);
    var k := |s| - |r|;
    assert s == s[..k] + r;
    VisibleConcat(s[..k], r);
    VisibleOfSpaces(s[..k]);
  }

  /** The collapsed text is single-spaced. */
  lemma {:induction false} CollapseSingleSpaced(s: string)
    ensures SingleSpaced(CollapseWhitespace(s))
    decreases |s|
  {
    if s != [] {
      if IsSpace(s[0]) {
        var rest := LStripWith(s, IsSpace);
        CollapseSingleSpaced(rest);
      } else {
        CollapseSingleSpaced(s[1..]);
      }
    }
  }

  /** Collapsing changes whitespace only: the visible characters are the same. */
  lemma {:induction false} CollapseKeepsVisible(s: string)
    ensures Visible(CollapseWhitespace(s)) == Visible(s)
    decreases |s|
  {
    if s != [] {
      var r := CollapseWhitespace(s);
      if IsSpace(s[0]) {
        var rest := LStripWith(s, IsSpace);
        CollapseKeepsVisible(rest);
        VisibleLStrip(s);
        assert r[1..] == CollapseWhitespace(rest);
      } else {
        CollapseKeepsVisible(s[1..]);
        assert r[1..] == CollapseWhitespace(s[1..]);
      }
    }
  }

  /** A single-spaced text is left alone. */
  lemma {:induction false} CollapseFixesSingleSpaced(s: string)
    requires SingleSpaced(s)
    ensures CollapseWhitespace(s) == s
    decreases |s|
  {
    if s != [] {
      SingleSpacedTail(s);
      CollapseFixesSingleSpaced(s[1..]);
      if IsSpace(s[0]) {
        LStripSingleSpace(s);
        assert CollapseWhitespace(s) == [' '] + CollapseWhitespace(s[1..]);
      } else {
        assert CollapseWhitespace(s) == [s[0]] + CollapseWhitespace(s[1..]);
      }
      assert s == [s[0]] + s[1..];
    }
  }

  lemma SingleSpacedTail(s: string)
    requires s != [] && SingleSpaced(s)
    ensures SingleSpaced(s[1..])
  {
    forall i | 0 <= i < |s[1..]| && IsSpace(s[1..][i])
      ensures s[1..][i] == ' ' && (i + 1 == |s[1..]| || !IsSpace(s[1..][i + 1]))
    {
      assert s[1..][i] == s[i + 1];
    }
  }

  /** A lone leading space is all that `LStripWith` removes. */
  lemma LStripSingleSpace(s: string)
    requires |s| > 0 && IsSpace(s[0]) && (|s| == 1 || !IsSpace(s[1]))
    ensures LStripWith(s, IsSpace) == s[1..]
  {
    var rest := LStripWith(s, IsSpace);
    assert |s| > 1 ==> !IsSpace(s[1]);
  }

  lemma CollapseIdempotent(s: string)
    ensures CollapseWhitespace(CollapseWhitespace(s)) == CollapseWhitespace(s)
  {
    CollapseSingleSpaced(s);
    CollapseFixesSingleSpaced(CollapseWhitespace(s));
  }

  /** `html[:max_length] + "..."` when the text is longer than `max_length`. */
  function Truncate(s: string, maxLength: nat): (r: string)
    ensures |s| <= maxLength ==> r == s
    ensures |s| > maxLength ==> |r| == maxLength + 3 && r[..maxLength] == s[..maxLength] && r[maxLength..] == "..."
  {
    if |s| > maxLength then s[..maxLength] + "..." else s
  }

  /**
   * `_clean_html` after the script, style and comment removal: the single-spaced text,
   * at most 50000 characters plus an ellipsis.
   */
  function CleanHtml(html: string): (r: string)
    ensures |r| <= MaxHtmlLength + 3
    ensures SingleSpaced(r)
    ensures |CollapseWhitespace(html)| <= MaxHtmlLength ==> r == CollapseWhitespace(html)
    ensures |CollapseWhitespace(html)| > MaxHtmlLength ==>
      r == CollapseWhitespace(html)[..MaxHtmlLength] + "..."
    ensures |html| <= MaxHtmlLength ==> Visible(r) == Visible(html)
  {
    var c := CollapseWhitespace(html);
    CollapseSingleSpaced(html);
    CollapseKeepsVisible(html);
    if |c| > MaxHtmlLength then
      CutSingleSpaced(c, MaxHtmlLength);
      Truncate(c, MaxHtmlLength)
    else
      Truncate(c, MaxHtmlLength)
  }

  /** Cutting a single-spaced text and appending an ellipsis leaves it single-spaced. */
  lemma CutSingleSpaced(s: string, n: nat)
    requires SingleSpaced(s) && n <= |s|
    ensures SingleSpaced(s[..n] + "...")
  {
    var r := s[..n] + "...";
    forall i | 0 <= i < |r| && IsSpace(r[i])
      ensures r[i] == ' ' && (i + 1 == |r| || !IsSpace(r[i + 1]))
    {
      if i < n {
        assert r[i] == s[i];
        if i + 1 < n {
          assert r[i + 1] == s[i + 1];
        } else {
          assert r[i + 1] == '.';
        }
      }
    }
  }

  /** `can_handle`: the model-backed scraper accepts every URL. */
  function CanHandle(url: string): bool {
    true
  }

  /** The page fetch: a network or HTTP error, or the page text. */
  datatype FetchOutcome = FetchFailed | Fetched(html: string)

  /** The extraction JSON; None is a missing or null key. */
  datatype ExtractionJson = ExtractionJson(
    description: Option<string>,
    venue: Option<string>,
    lineup: Option<seq<Artist>>,
    pricingTiers: Option<seq<PricingTier>>,
    vipInfo: Option<VipInfo>)

  /** The extraction call: it raised, returned no content, returned text that is not JSON, or decoded. */
  datatype ExtractionReply = ExtractionRaised | ExtractionEmpty | ExtractionUndecodable | ExtractionDecoded(json: ExtractionJson)

  /** `_extract_with_llm`: the decoded fields with their defaults, or the empty record on any failure. */
  function ExtractWithLlm(reply: ExtractionReply): (r: ExtractedEventData)
    ensures !reply.ExtractionDecoded? ==> r == Empty
    ensures reply.ExtractionDecoded? ==> r.description == reply.json.description && r.venue == reply.json.venue
    ensures reply.ExtractionDecoded? && reply.json.vipInfo.None? ==> r.vipInfo == NoVip
    ensures reply.ExtractionDecoded? ==>
      r.lineup == reply.json.lineup.GetOr([]) && r.pricingTiers == reply.json.pricingTiers.GetOr([])
      && r.vipInfo == reply.json.vipInfo.GetOr(NoVip)
  {
    match reply
    case ExtractionDecoded(j) => Make(j.description, j.venue, j.lineup, j.pricingTiers, j.vipInfo)
    case _ => Empty
  }

  /** The reply that spells out every field of a record. */
  function FullReply(e: ExtractedEventData): ExtractionReply {
    ExtractionDecoded(ExtractionJson(e.description, e.venue, Some(e.lineup), Some(e.pricingTiers), Some(e.vipInfo)))
  }

  /** A reply that spells out every field of a record extracts back to that record. */
  lemma ExtractRoundTrip(e: ExtractedEventData)
    ensures ExtractWithLlm(FullReply(e)) == e
  {
  }

  /** Leaving the list fields out of a reply is the same as giving them empty. */
  lemma MissingListsAreEmpty(d: Option<string>, v: Option<string>, vip: Option<VipInfo>)
    ensures ExtractWithLlm(ExtractionDecoded(ExtractionJson(d, v, None, None, vip)))
         == ExtractWithLlm(ExtractionDecoded(ExtractionJson(d, v, Some([]), Some([]), vip)))
  {
  }

  /**
   * `extract`: fetch, clean, ask the model. It never raises: a failed fetch gives the
   * empty record, and the model sees the cleaned page.
   */
  function Extract(url: string, fetch: string -> FetchOutcome, model: (string, string) -> ExtractionReply): (r: ExtractedEventData)
    ensures fetch(url).FetchFailed? ==> r == Empty
    ensures fetch(url).Fetched? ==> r == ExtractWithLlm(model(url, CleanHtml(fetch(url).html)))
  {
    match fetch(url)
    case FetchFailed => Empty
    case Fetched(html) => ExtractWithLlm(model(url, CleanHtml(html)))
  }

  /** Only a decoded reply can yield data. */
  lemma ExtractDataNeedsDecodedReply(url: string, fetch: string -> FetchOutcome, model: (string, string) -> ExtractionReply)
    requires HasData(Extract(url, fetch, model))
    ensures fetch(url).Fetched? && model(url, CleanHtml(fetch(url).html)).ExtractionDecoded?
  {
  }
}
