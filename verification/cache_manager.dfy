/**
 * The in-memory analytics cache: entries keyed by panorama, cache type and
 * response count, each with an expiry time. The clock is an explicit
 * parameter (whole seconds) of every operation that reads it.
 */
module CacheManager {
  import opened Wrappers
  import opened Text

  /** A cached result: the data, the response count it was computed for, and its times. */
  datatype Entry<D> = Entry(data: D, responseCount: int, expiresAt: int, createdAt: int)

  type Cache<D> = map<string, Entry<D>>

  const DefaultTtl: int := 3600

  /** `_generate_key`: the three parts joined with ':'. */
  function Key(panoramaId: string, cacheType: string, responseCount: int): (k: string)
    ensures k == Join(":", [panoramaId, cacheType, IntToString(responseCount)])
  {
    panoramaId + ":" + cacheType + ":" + IntToString(responseCount)
  }

  /**
   * `get`: the cached data while the entry has not expired (expiry is a
   * strict "later than"); an expired or count-mismatched entry is deleted.
   */
  function Get<D>(c: Cache<D>, panoramaId: string, cacheType: string, responseCount: int, now: int): (r: (Option<D>, Cache<D>))
    ensures r.0.Some? <==> (Key(panoramaId, cacheType, responseCount) in c
                            && now <= c[Key(panoramaId, cacheType, responseCount)].expiresAt
                            && c[Key(panoramaId, cacheType, responseCount)].responseCount == responseCount)
    ensures r.0.Some? ==> r.0.value == c[Key(panoramaId, cacheType, responseCount)].data && r.1 == c
    ensures r.0.None? ==> r.1 == c - {Key(panoramaId, cacheType, responseCount)}
  {
    var key := Key(panoramaId, cacheType, responseCount);
    if key !in c then (None, c)
    else
      var e := c[key];
      if now > e.expiresAt then (None, c - {key})
      else if e.responseCount != responseCount then (None, c - {key})
      else (Some(e.data), c)
  }

  /** `set`: stores the data under its key, expiring `ttl` seconds from now. */
  function Set<D>(c: Cache<D>, panoramaId: string, cacheType: string, responseCount: int, data: D, ttl: int, now: int): (r: Cache<D>)
    ensures Key(panoramaId, cacheType, responseCount) in r
    ensures r[Key(panoramaId, cacheType, responseCount)] == Entry(data, responseCount, now + ttl, now)
    ensures forall k :: k != Key(panoramaId, cacheType, responseCount) ==> (k in r <==> k in c)
    ensures forall k :: k != Key(panoramaId, cacheType, responseCount) && k in c ==> r[k] == c[k]
  {
    c[Key(panoramaId, cacheType, responseCount) := Entry(data, responseCount, now + ttl, now)]
  }

  /** A read of what was just written returns it until the entry expires, and nothing after. */
  lemma GetAfterSet<D>(c: Cache<D>, p: string, t: string, n: int, data: D, ttl: int, setAt: int, now: int)
    ensures Get(Set(c, p, t, n, data, ttl, setAt), p, t, n, now).0 == if now <= setAt + ttl then Some(data) else None
  {
  }

  /** A missing key reads as nothing and leaves the cache as it was. */
  lemma GetMissing<D>(c: Cache<D>, p: string, t: string, n: int, now: int)
    requires Key(p, t, n) !in c
    ensures Get(c, p, t, n, now) == (None, c)
  {
  }

  /** The key's fields, split back apart. */
  function KeyParts(key: string): seq<string> {
    Split(key, ':')
  }

  /** Whether `clear(panorama_id, cache_type)` deletes `key`. */
  predicate Cleared(key: string, panoramaId: string, cacheType: Option<string>) {
    var parts := KeyParts(key);
    |parts| >= 2 && parts[0] == panoramaId && (cacheType.None? || parts[1] == cacheType.value)
  }

  /** `clear`: deletes the keys whose first segment is the panorama (and second, when given, the type). */
  function Clear<D>(c: Cache<D>, panoramaId: string, cacheType: Option<string>): (r: Cache<D>)
    ensures forall k :: k in r <==> k in c && !Cleared(k, panoramaId, cacheType)
    ensures forall k :: k in r ==> r[k] == c[k]
  {
    map k | k in c && !Cleared(k, panoramaId, cacheType) :: c[k]
  }

  lemma IntToStringNoColon(n: int)
    ensures ':' !in IntToString(n)
  {
  }

  /** A key built from colon-free ids splits back into its three parts. */
  lemma KeyRoundTrip(p: string, t: string, n: int)
    requires ':' !in p && ':' !in t
    ensures KeyParts(Key(p, t, n)) == [p, t, IntToString(n)]
  {
    IntToStringNoColon(n);
    var parts := [p, t, IntToString(n)];
    assert Join(":", parts) == Join([':'], parts);
    SplitJoin(parts, ':');
  }

  /**
   * With colon-free ids, `clear` deletes exactly the entries that `set`
   * wrote for that panorama (and type, when one is given).
   */
  lemma ClearAgreesWithKeys(p: string, t: string, n: int, panoramaId: string, cacheType: Option<string>)
    requires ':' !in p && ':' !in t
    ensures Cleared(Key(p, t, n), panoramaId, cacheType) <==> p == panoramaId && (cacheType.None? || t == cacheType.value)
  {
    KeyRoundTrip(p, t, n);
  }

  /** A panorama id holding ':' makes `clear` delete another panorama's entries. */
  lemma ClearOverreachesWithColon()
    ensures Cleared(Key("a:b", "summary", 1), "a", None)
  {
    var parts := ["a", "b", "summary", IntToString(1)];
    IntToStringNoColon(1);
    assert Key("a:b", "summary", 1) == Join([':'], parts);
    SplitJoin(parts, ':');
  }
}
