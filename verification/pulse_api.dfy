/**
 * Extracting an Instagram post id from a post or reel URL: the two
 * case-sensitive patterns are searched in order, each at its leftmost
 * match, and the id is the longest run of `[A-Za-z0-9_-]` after the prefix.
 */
module PulseApi {
  import opened Wrappers
  import opened Text

  /** The character class `[A-Za-z0-9_-]`. */
  predicate IsIdChar(c: char) {
    IsWordChar(c) || c == '-'
  }

  predicate AllIdChars(s: string) {
    forall k :: 0 <= k < |s| ==> IsIdChar(s[k])
  }

  /** The host both patterns start with, after its leading 'i'. */
  const HostTail: string := "nstagram.com/"

  /** `instagram.com/p/`: a post. */
  const PostPrefix: string := "i" + HostTail + "p/"

  /** `instagram.com/reel/`: a reel. */
  const ReelPrefix: string := "i" + HostTail + "reel/"

  const InvalidUrlMessage: string :=
    "Invalid Instagram post URL. Expected format: https://www.instagram.com/p/POST_ID/"

  /** `prefix` is spelled out, character by character, from position `i` of `s`. */
  predicate SpelledAt(s: string, prefix: string, i: int) {
    0 <= i && i + |prefix| <= |s| && forall k :: 0 <= k < |prefix| ==> s[i + k] == prefix[k]
  }

  /** The pattern `prefix` followed by at least one id character matches at position `i`. */
  predicate MatchesAt(s: string, prefix: string, i: int) {
    SpelledAt(s, prefix, i) && i + |prefix| < |s| && IsIdChar(s[i + |prefix|])
  }

  ghost predicate HasMatch(s: string, prefix: string) {
    exists i :: 0 <= i <= |s| && MatchesAt(s, prefix, i)
  }

  /** The greedy `+` of the id group: the longest run of id characters starting at `i`. */
  function IdRun(s: string, i: nat): (r: string)
    requires i <= |s|
    ensures i + |r| <= |s| && r == s[i..i + |r|]
    ensures AllIdChars(r)
    ensures i + |r| == |s| || !IsIdChar(s[i + |r|])
    decreases |s| - i
  {
    if i < |s| && IsIdChar(s[i]) then [s[i]] + IdRun(s, i + 1) else ""
  }

  /** A run of id characters that ends at the string's end or at a non-id character is what `IdRun` reads. */
  lemma {:induction false} IdRunOf(s: string, i: nat, id: string)
    requires i + |id| <= |s| && s[i..i + |id|] == id
    requires AllIdChars(id)
    requires i + |id| == |s| || !IsIdChar(s[i + |id|])
    ensures IdRun(s, i) == id
    decreases |id|
  {
    if |id| > 0 {
      assert s[i] == id[0];
      assert s[i + 1..i + |id|] == id[1..];
      IdRunOf(s, i + 1, id[1..]);
    }
  }

  /** The leftmost match of the pattern at or after `i`, as `re.search` finds it. */
  function FirstMatchFrom(s: string, prefix: string, i: nat): (r: Option<nat>)
    requires i <= |s|
    ensures r.Some? ==> i <= r.value && MatchesAt(s, prefix, r.value)
    ensures r.Some? ==> forall j :: i <= j < r.value ==> !MatchesAt(s, prefix, j)
    ensures r.None? ==> forall j :: i <= j ==> !MatchesAt(s, prefix, j)
    decreases |s| - i
  {
    if MatchesAt(s, prefix, i) then Some(i)
    else if i == |s| then None
    else FirstMatchFrom(s, prefix, i + 1)
  }

  /** The match at `i` is the leftmost one. */
  predicate Leftmost(s: string, prefix: string, i: int) {
    MatchesAt(s, prefix, i) && forall j :: 0 <= j < i ==> !MatchesAt(s, prefix, j)
  }

  /** The position of the leftmost match, if there is one. */
  function FirstMatch(s: string, prefix: string): (r: Option<nat>)
    ensures r.Some? ==> r.value <= |s| && Leftmost(s, prefix, r.value)
    ensures r.None? ==> !HasMatch(s, prefix)
  {
    FirstMatchFrom(s, prefix, 0)
  }

  /** `re.search(prefix + '([A-Za-z0-9_-]+)', s).group(1)`, or None when there is no match. */
  function SearchGroup(s: string, prefix: string): (r: Option<string>)
    ensures r.Some? <==> HasMatch(s, prefix)
    ensures r.Some? ==> exists i :: 0 <= i <= |s| && Leftmost(s, prefix, i) && r.value == IdRun(s, i + |prefix|)
  {
    match FirstMatch(s, prefix)
    case Some(i) => LeftmostIsMatch(s, prefix, i); Some(IdRun(s, i + |prefix|))
    case None => None
  }

  /** A leftmost match witnesses that the pattern matches. */
  lemma LeftmostIsMatch(s: string, prefix: string, i: nat)
    requires i <= |s| && Leftmost(s, prefix, i)
    ensures HasMatch(s, prefix)
    ensures exists j :: 0 <= j <= |s| && Leftmost(s, prefix, j) && IdRun(s, i + |prefix|) == IdRun(s, j + |prefix|)
  {
  }

  /** `extract_instagram_post_id`: the post pattern first, the reel pattern only when it fails, else a ValueError. */
  function ExtractInstagramPostId(url: string): (r: Result<string, string>)
    ensures r.Failure? <==> !HasMatch(url, PostPrefix) && !HasMatch(url, ReelPrefix)
    ensures r.Failure? ==> r.error == InvalidUrlMessage
    ensures r.Success? ==> |r.value| > 0 && AllIdChars(r.value)
    ensures HasMatch(url, PostPrefix) ==> r == Success(SearchGroup(url, PostPrefix).value)
    ensures !HasMatch(url, PostPrefix) && HasMatch(url, ReelPrefix) ==> r == Success(SearchGroup(url, ReelPrefix).value)
  {
    match SearchGroup(url, PostPrefix)
    case Some(id) => Success(id)
    case None =>
      match SearchGroup(url, ReelPrefix)
      case Some(id) => Success(id)
      case None => Failure(InvalidUrlMessage)
  }

  /** No match of either pattern can start at a position that does not hold a lower-case 'i'. */
  lemma MatchNeedsI(s: string, prefix: string, j: int)
    requires |prefix| > 0 && prefix[0] == 'i'
    requires MatchesAt(s, prefix, j)
    ensures 0 <= j < |s| && s[j] == 'i'
  {
    assert s[j + 0] == prefix[0];
  }

  /** Two leftmost matches are the same match. */
  lemma LeftmostUnique(s: string, prefix: string, i: int, j: int)
    requires Leftmost(s, prefix, i) && Leftmost(s, prefix, j)
    ensures i == j
  {
  }

  /** When the leftmost match is at `i`, the group is the run of id characters after the prefix. */
  lemma SearchGroupAt(s: string, prefix: string, i: int)
    requires Leftmost(s, prefix, i)
    ensures SearchGroup(s, prefix) == Some(IdRun(s, i + |prefix|))
  {
    var first := FirstMatch(s, prefix);
    assert first.Some?;
    LeftmostUnique(s, prefix, i, first.value);
  }

  /** `url` written as `pre + prefix + id + post` matches at `|pre|` and reads back `id` there. */
  lemma MatchAtSeam(pre: string, prefix: string, id: string, post: string)
    requires |id| > 0 && AllIdChars(id)
    requires post == "" || !IsIdChar(post[0])
    ensures MatchesAt(pre + prefix + id + post, prefix, |pre|)
    ensures IdRun(pre + prefix + id + post, |pre| + |prefix|) == id
  {
    SpelledAtSeam(pre, prefix, id, post);
    RunAtSeam(pre, prefix, id, post);
    NextAtSeam(pre + prefix, id, post);
  }

  /** `prefix` is spelled where it is written. */
  lemma SpelledAtSeam(pre: string, prefix: string, id: string, post: string)
    ensures SpelledAt(pre + prefix + id + post, prefix, |pre|)
  {
    var s := pre + prefix + id + post;
    forall k | 0 <= k < |prefix|
      ensures s[|pre| + k] == prefix[k]
    {
      assert (pre + prefix)[|pre| + k] == prefix[k];
    }
  }

  /** The character after the prefix opens the id. */
  lemma NextAtSeam(head: string, id: string, post: string)
    requires |id| > 0
    ensures (head + id + post)[|head|] == id[0]
  {
  }

  /** A run of id characters closed by a non-id character reads back whole. */
  lemma RunAtSeam(pre: string, prefix: string, id: string, post: string)
    requires AllIdChars(id)
    requires post == "" || !IsIdChar(post[0])
    ensures IdRun(pre + prefix + id + post, |pre| + |prefix|) == id
  {
    var s := pre + prefix + id + post;
    var at := |pre| + |prefix|;
    assert s[at..at + |id|] == id;
    assert at + |id| == |s| || s[at + |id|] == post[0];
    IdRunOf(s, at, id);
  }

  /** A post URL gives back exactly the id written after `instagram.com/p/`. */
  lemma PostUrlRoundTrip(pre: string, id: string, post: string)
    requires 'i' !in pre
    requires |id| > 0 && AllIdChars(id)
    requires post == "" || !IsIdChar(post[0])
    ensures ExtractInstagramPostId(pre + PostPrefix + id + post) == Success(id)
  {
    var s := pre + PostPrefix + id + post;
    MatchAtSeam(pre, PostPrefix, id, post);
    NoMatchInPrefix(s, pre, PostPrefix);
    SearchGroupAt(s, PostPrefix, |pre|);
  }

  /** A match cannot start inside a leading part of the URL that has no lower-case 'i'. */
  lemma NoMatchInPrefix(s: string, pre: string, prefix: string)
    requires 'i' !in pre && |pre| <= |s| && s[..|pre|] == pre
    requires |prefix| > 0 && prefix[0] == 'i'
    ensures forall j :: 0 <= j < |pre| ==> !MatchesAt(s, prefix, j)
  {
    forall j | 0 <= j < |pre|
      ensures !MatchesAt(s, prefix, j)
    {
      if MatchesAt(s, prefix, j) {
        MatchNeedsI(s, prefix, j);
      }
    }
  }

  /** A reel URL with no 'i' outside the host gives back the id written after `instagram.com/reel/`. */
  lemma ReelUrlRoundTrip(pre: string, id: string, post: string)
    requires 'i' !in pre && 'i' !in id && 'i' !in post
    requires |id| > 0 && AllIdChars(id)
    requires post == "" || !IsIdChar(post[0])
    ensures ExtractInstagramPostId(pre + ReelPrefix + id + post) == Success(id)
  {
    var s := pre + ReelPrefix + id + post;
    MatchAtSeam(pre, ReelPrefix, id, post);
    forall j | 0 <= j <= |s|
      ensures !MatchesAt(s, PostPrefix, j)
    {
      if MatchesAt(s, PostPrefix, j) {
        MatchNeedsI(s, PostPrefix, j);
        OnlyHostHasI(pre, id, post, j);
        PostNotSpelledOverReel(s, j);
      }
    }
    NoMatchInPrefix(s, pre, ReelPrefix);
    SearchGroupAt(s, ReelPrefix, |pre|);
  }

  /** Where the reel prefix is spelled, the post prefix is not: they differ at position 14. */
  lemma PostNotSpelledOverReel(s: string, i: int)
    requires SpelledAt(s, ReelPrefix, i)
    ensures !SpelledAt(s, PostPrefix, i)
  {
    assert s[i + 14] == ReelPrefix[14] == 'r';
    assert PostPrefix[14] == 'p';
  }

  /** In `pre + ReelPrefix + id + post` with no 'i' outside the prefix, the only 'i' opens the prefix. */
  lemma OnlyHostHasI(pre: string, id: string, post: string, j: int)
    requires 'i' !in pre && 'i' !in id && 'i' !in post
    requires 0 <= j < |pre + ReelPrefix + id + post| && (pre + ReelPrefix + id + post)[j] == 'i'
    ensures j == |pre|
  {
  }

  /** The host is matched case-sensitively: a URL with no lower-case 'i' is rejected. */
  lemma WithoutLowerIRejected(url: string)
    requires 'i' !in url
    ensures ExtractInstagramPostId(url) == Failure(InvalidUrlMessage)
  {
    forall j | MatchesAt(url, PostPrefix, j)
      ensures false
    {
      MatchNeedsI(url, PostPrefix, j);
    }
    forall j | MatchesAt(url, ReelPrefix, j)
      ensures false
    {
      MatchNeedsI(url, ReelPrefix, j);
    }
  }
}
