/**
 * The Python string operations the scraper uses: `in`, `str.index`,
 * `str.rindex`, slicing, `str.strip`, `startswith`/`endswith`, `lower`,
 * `isalnum` and the digit class of regular expressions.
 *
 * `lower`, `isalnum` and `\d` are Unicode-aware in Python; here they are
 * their ASCII restrictions. `strip` uses Python's full whitespace set.
 */
module PyText {
  import opened PyJson

  /** `sub` occurs in `s` starting at position `i`. */
  predicate OccursAt(s: string, sub: string, i: int)
  {
    0 <= i <= |s| - |sub| && s[i..i + |sub|] == sub
  }

  /** Python `sub in s`. */
  predicate Contains(s: string, sub: string)
  {
    exists i | 0 <= i <= |s| - |sub| :: OccursAt(s, sub, i)
  }

  /** Python `s.index(c)`: the first position of `c`, None where it raises. */
  function IndexOf(s: string, c: char): (r: Option<nat>)
    ensures r.None? <==> c !in s
    ensures r.Some? ==> r.value < |s| && s[r.value] == c && c !in s[..r.value]
  {
    if s == [] then None
    else if s[0] == c then Some(0)
    else
      match IndexOf(s[1..], c)
      case None => None
      case Some(k) =>
        assert s[..k + 1] == [s[0]] + s[1..][..k];
        Some(k + 1)
  }

  /** The last position below `k` that holds `c`, or None. */
  function LastIndexBelow(s: string, c: char, k: nat): (r: Option<nat>)
    requires k <= |s|
    ensures r.None? ==> forall i :: 0 <= i < k ==> s[i] != c
    ensures r.Some? ==> r.value < k && s[r.value] == c && forall i :: r.value < i < k ==> s[i] != c
    decreases k
  {
    if k == 0 then None
    else if s[k - 1] == c then Some(k - 1)
    else LastIndexBelow(s, c, k - 1)
  }

  /** Python `s.rindex(c)`: the last position of `c`, None where it raises. */
  function LastIndexOf(s: string, c: char): (r: Option<nat>)
    ensures r.None? <==> c !in s
    ensures r.Some? ==> r.value < |s| && s[r.value] == c && c !in s[r.value + 1..]
  {
    var r := LastIndexBelow(s, c, |s|);
    assert r.Some? ==> s[r.value] in s;
    r
  }

  /** Python `s[lo:hi]` for `0 <= lo` and `0 <= hi`: empty when `hi <= lo`,
      and `hi` is clipped to the length. */
  function Slice(s: string, lo: nat, hi: nat): (r: string)
    ensures lo < hi <= |s| ==> r == s[lo..hi]
    ensures hi <= lo ==> r == ""
  {
    var h := if hi <= |s| then hi else |s|;
    if h <= lo then "" else s[lo..h]
  }

  /** Python `s[-n:]` for `n > 0`: the last `n` characters, or all of `s`
      when it is shorter. */
  function Last(s: string, n: nat): (r: string)
    ensures |r| == if |s| < n then |s| else n
    ensures s == s[..|s| - |r|] + r
  {
    if |s| <= n then s else s[|s| - n..]
  }

  /** Python `str.isspace` for one character. */
  predicate IsSpace(c: char)
  {
    ('\t' <= c <= '\r') || ('\U{1C}' <= c <= '\U{1F}') || c == ' ' || c == '\U{85}'
    || c == '\U{A0}' || c == '\U{1680}' || ('\U{2000}' <= c <= '\U{200A}')
    || c == '\U{2028}' || c == '\U{2029}' || c == '\U{202F}' || c == '\U{205F}' || c == '\U{3000}'
  }

  /** The first position from `k` on that is not whitespace, or the end. */
  function LeadEnd(s: string, k: nat): (r: nat)
    requires k <= |s|
    ensures k <= r <= |s|
    ensures forall i :: k <= i < r ==> IsSpace(s[i])
    ensures r == |s| || !IsSpace(s[r])
    decreases |s| - k
  {
    if k == |s| || !IsSpace(s[k]) then k else LeadEnd(s, k + 1)
  }

  /** Walking back from `k`, but not below `lo`: the position just after the
      last character that is not whitespace, or `lo`. */
  function TrailStart(s: string, lo: nat, k: nat): (r: nat)
    requires lo <= k <= |s|
    ensures lo <= r <= k
    ensures forall i :: r <= i < k ==> IsSpace(s[i])
    ensures r == lo || !IsSpace(s[r - 1])
    decreases k
  {
    if k == lo || !IsSpace(s[k - 1]) then k else TrailStart(s, lo, k - 1)
  }

  /** Where `s.strip()` starts in `s`. */
  function StripStart(s: string): nat
  {
    LeadEnd(s, 0)
  }

  /** Python `s.strip()`. */
  function Strip(s: string): string
  {
    var lo := StripStart(s);
    s[lo..TrailStart(s, lo, |s|)]
  }

  predicate AllSpace(s: string)
  {
    forall i :: 0 <= i < |s| ==> IsSpace(s[i])
  }

  /** `s.strip()` neither starts nor ends with whitespace. */
  lemma StripEnds(s: string)
    ensures var r := Strip(s);
            r == [] || (!IsSpace(r[0]) && !IsSpace(r[|r| - 1]))
  {
    var lo := StripStart(s);
    var hi := TrailStart(s, lo, |s|);
    if lo < hi {
      assert Strip(s)[0] == s[lo];
      assert Strip(s)[|Strip(s)| - 1] == s[hi - 1];
    }
  }

  /** `s.strip()` is the contiguous part of `s` that starts where the
      leading whitespace ends, and only whitespace is cut off around it. */
  lemma StripSpan(s: string)
    ensures var r, lo := Strip(s), StripStart(s);
            OccursAt(s, r, lo) && AllSpace(s[..lo]) && AllSpace(s[lo + |r|..])
  {
    var lo := StripStart(s);
    var hi := TrailStart(s, lo, |s|);
    assert |Strip(s)| == hi - lo;
    forall i | 0 <= i < lo
      ensures IsSpace(s[..lo][i])
    {
      assert s[..lo][i] == s[i];
    }
    forall i | 0 <= i < |s| - hi
      ensures IsSpace(s[hi..][i])
    {
      assert s[hi..][i] == s[hi + i];
    }
  }

  /** A position holding `c` with no `c` after it is the last one. */
  lemma LastIndexOfAt(s: string, c: char, p: nat)
    requires p < |s| && s[p] == c && c !in s[p + 1..]
    ensures LastIndexOf(s, c) == Some(p)
  {
    assert s[p] in s;
  }

  predicate StartsWith(s: string, p: string)
  {
    |p| <= |s| && s[..|p|] == p
  }

  predicate EndsWith(s: string, p: string)
  {
    |p| <= |s| && s[|s| - |p|..] == p
  }

  predicate IsAsciiDigit(c: char)
  {
    '0' <= c <= '9'
  }

  /** Python `c.isalnum()` restricted to ASCII. */
  predicate IsAsciiAlnum(c: char)
  {
    IsAsciiDigit(c) || ('a' <= c <= 'z') || ('A' <= c <= 'Z')
  }

  function LowerChar(c: char): (r: char)
    ensures 'A' <= c <= 'Z' ==> 'a' <= r <= 'z'
    ensures !('A' <= c <= 'Z') ==> r == c
  {
    if 'A' <= c <= 'Z' then (c as int + 32) as char else c
  }

  /** Python `s.lower()` restricted to ASCII letters. */
  function Lower(s: string): (r: string)
    ensures |r| == |s|
    ensures forall i :: 0 <= i < |s| ==> r[i] == LowerChar(s[i])
    ensures forall i :: 0 <= i < |r| ==> !('A' <= r[i] <= 'Z')
  {
    seq(|s|, i requires 0 <= i < |s| => LowerChar(s[i]))
  }

  /** A string without ASCII capitals is its own lowercase. */
  lemma LowerOfLower(s: string)
    requires forall i :: 0 <= i < |s| ==> !('A' <= s[i] <= 'Z')
    ensures Lower(s) == s
  {
  }
}
