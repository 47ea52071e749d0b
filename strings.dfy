/** Text helpers shared by the backend and the pages: the decimal rendering
    that Python f-strings and JavaScript template literals apply to a
    non-negative integer, Python's `str.strip()`, and substring search with
    the semantics of Python's `in`, `find` and `split`. */
module Strings {

  datatype Option<T> = None | Some(value: T)

  function Min(a: int, b: int): int { if a <= b then a else b }

  function Max(a: int, b: int): int { if a >= b then a else b }

  // ---------------------------------------------------------------------------
  // Decimal rendering

  function DigitChar(d: nat): (c: char)
    requires d < 10
    ensures '0' <= c <= '9'
  {
    ('0' as int + d) as char
  }

  /** `f"{n}"` / `${n}` for a non-negative integer. */
  function NatToString(n: nat): (s: string)
    ensures 1 <= |s|
    ensures forall k :: 0 <= k < |s| ==> '0' <= s[k] <= '9'
    ensures n >= 10 ==> 2 <= |s|
    decreases n
  {
    if n < 10 then [DigitChar(n)] else NatToString(n / 10) + [DigitChar(n % 10)]
  }

  /** Decimal rendering is injective: distinct numbers print differently. */
  lemma {:induction false} NatToStringInjective(a: nat, b: nat)
    requires NatToString(a) == NatToString(b)
    ensures a == b
    decreases a
  {
    var sa, sb := NatToString(a), NatToString(b);
    if a < 10 && b < 10 {
      assert sa[0] == DigitChar(a) && sb[0] == DigitChar(b);
    } else if a < 10 || b < 10 {
      assert false;
    } else {
      assert sa == NatToString(a / 10) + [DigitChar(a % 10)];
      assert sb == NatToString(b / 10) + [DigitChar(b % 10)];
      assert sa[|sa| - 1] == DigitChar(a % 10) && sb[|sb| - 1] == DigitChar(b % 10);
      assert sa[..|sa| - 1] == NatToString(a / 10);
      assert sb[..|sb| - 1] == NatToString(b / 10);
      NatToStringInjective(a / 10, b / 10);
    }
  }

  /** A fixed prefix followed by the decimal rendering of an index names
      every index differently. */
  lemma PrefixedNatInjective(prefix: string, a: nat, b: nat)
    requires prefix + NatToString(a) == prefix + NatToString(b)
    ensures a == b
  {
    var sa, sb := prefix + NatToString(a), prefix + NatToString(b);
    assert NatToString(a) == sa[|prefix|..];
    assert NatToString(b) == sb[|prefix|..];
    NatToStringInjective(a, b);
  }

  // ---------------------------------------------------------------------------
  // Python's str.strip() with no argument

  /** The characters for which Python's `str.isspace()` holds. */
  predicate IsSpace(c: char) {
    c == ' ' || c == '\t' || c == '\n' || c == '\r' || c == '\U{B}' || c == '\U{C}'
    || ('\U{1C}' <= c <= '\U{1F}') || c == '\U{85}' || c == '\U{A0}' || c == '\U{1680}'
    || ('\U{2000}' <= c <= '\U{200A}') || c == '\U{2028}' || c == '\U{2029}'
    || c == '\U{202F}' || c == '\U{205F}' || c == '\U{3000}'
  }

  /** Number of whitespace characters at the start of `s`. */
  function LeadingSpaces(s: string): (n: nat)
    ensures n <= |s|
    ensures forall k :: 0 <= k < n ==> IsSpace(s[k])
    ensures n < |s| ==> !IsSpace(s[n])
  {
    if s != [] && IsSpace(s[0]) then 1 + LeadingSpaces(s[1..]) else 0
  }

  /** Number of whitespace characters at the end of `s`. */
  function TrailingSpaces(s: string): (n: nat)
    ensures n <= |s|
    ensures forall k :: |s| - n <= k < |s| ==> IsSpace(s[k])
    ensures n < |s| ==> !IsSpace(s[|s| - n - 1])
  {
    if s != [] && IsSpace(s[|s| - 1]) then 1 + TrailingSpaces(s[..|s| - 1]) else 0
  }

  /** `s.strip()`: the slice `s[lo..hi]` such that everything outside it is
      whitespace and it neither starts nor ends with whitespace. */
  function Strip(s: string): (r: string)
    ensures r == [] || (!IsSpace(r[0]) && !IsSpace(r[|r| - 1]))
    ensures exists lo, hi :: 0 <= lo <= hi <= |s| && r == s[lo..hi]
                          && (forall k :: 0 <= k < lo ==> IsSpace(s[k]))
                          && (forall k :: hi <= k < |s| ==> IsSpace(s[k]))
  {
    var lo := LeadingSpaces(s);
    var t := s[lo..];
    var hi := lo + (|t| - TrailingSpaces(t));
    assert forall k :: hi <= k < |s| ==> s[k] == t[k - lo];
    s[lo..hi]
  }

  // ---------------------------------------------------------------------------
  // Substring search

  /** `pat` occurs in `s` starting at index `k`. */
  predicate OccursAt(s: string, pat: string, k: int) {
    0 <= k && k + |pat| <= |s| && s[k..k + |pat|] == pat
  }

  /** Python's `pat in s`. */
  predicate Contains(s: string, pat: string) {
    exists k :: 0 <= k <= |s| && OccursAt(s, pat, k)
  }

  /** `s.find(pat, from)`: the leftmost occurrence of `pat` at or after `from`. */
  function FindFrom(s: string, pat: string, from: nat): (r: Option<nat>)
    requires from <= |s|
    ensures r.Some? ==> from <= r.value && OccursAt(s, pat, r.value)
    ensures r.Some? ==> forall k :: from <= k < r.value ==> !OccursAt(s, pat, k)
    ensures r.None? ==> forall k :: from <= k ==> !OccursAt(s, pat, k)
    decreases |s| - from
  {
    if from + |pat| > |s| then None
    else if s[from..from + |pat|] == pat then Some(from)
    else if from == |s| then None
    else FindFrom(s, pat, from + 1)
  }

  lemma FindFromNoneIffAbsent(s: string, pat: string)
    ensures FindFrom(s, pat, 0).None? <==> !Contains(s, pat)
  {
    if FindFrom(s, pat, 0).Some? {
      assert OccursAt(s, pat, FindFrom(s, pat, 0).value);
    }
  }

  /** `find` returns the occurrence it was characterised by. */
  lemma FindFromIs(s: string, pat: string, from: nat, i: nat)
    requires from <= i <= |s| && OccursAt(s, pat, i)
    requires forall k :: from <= k < i ==> !OccursAt(s, pat, k)
    ensures FindFrom(s, pat, from) == Some(i)
  {
  }

  /** `s.split(sep)[0]`: everything before the first occurrence of `sep`. */
  function FirstPiece(s: string, sep: string): (r: string)
    requires sep != []
    ensures !Contains(r, sep)
    ensures r <= s
    ensures r == s || OccursAt(s, sep, |r|)
    ensures forall k :: 0 <= k < |r| ==> !OccursAt(s, sep, k)
  {
    match FindFrom(s, sep, 0)
    case None => s
    case Some(i) =>
      assert forall k :: OccursAt(s[..i], sep, k) ==> OccursAt(s, sep, k) by {
        forall k | OccursAt(s[..i], sep, k) ensures OccursAt(s, sep, k) {
          assert s[..i][k..k + |sep|] == s[k..k + |sep|];
        }
      }
      s[..i]
  }

  /** `s.split(sep)[1]`, defined when `sep` occurs: from the end of the first
      occurrence up to the next one, or to the end of `s`. */
  function SecondPiece(s: string, sep: string): (r: string)
    requires sep != [] && Contains(s, sep)
  {
    FindFromNoneIffAbsent(s, sep);
    var i := FindFrom(s, sep, 0).value;
    match FindFrom(s, sep, i + |sep|)
    case None => s[i + |sep|..]
    case Some(j) => s[i + |sep|..j]
  }

  /** `s.split(sep)[1]` is the text from the end of the first occurrence of
      `sep`, at `i`, to the next occurrence, or to the end, at `m`. */
  lemma SecondPieceIs(s: string, sep: string, i: nat, m: nat)
    requires sep != [] && OccursAt(s, sep, i)
    requires forall k :: 0 <= k < i ==> !OccursAt(s, sep, k)
    requires i + |sep| <= m <= |s| && (m == |s| || OccursAt(s, sep, m))
    requires forall k :: i + |sep| <= k < m ==> !OccursAt(s, sep, k)
    ensures Contains(s, sep)
    ensures SecondPiece(s, sep) == s[i + |sep|..m]
  {
    FindFromIs(s, sep, 0, i);
    if m < |s| {
      FindFromIs(s, sep, i + |sep|, m);
    }
  }

  /** Removing characters from both ends of a text that does not contain
      `pat` cannot create an occurrence of `pat`. */
  lemma SliceKeepsAbsence(s: string, pat: string, lo: nat, hi: nat)
    requires lo <= hi <= |s| && !Contains(s, pat)
    ensures !Contains(s[lo..hi], pat)
  {
    forall k | OccursAt(s[lo..hi], pat, k) ensures OccursAt(s, pat, lo + k) {
      var u := s[lo..hi][k..k + |pat|];
      assert forall m :: 0 <= m < |u| ==> u[m] == s[lo + k + m];
      assert u == s[lo + k..lo + k + |pat|];
    }
  }

  lemma StripKeepsAbsence(s: string, pat: string)
    requires !Contains(s, pat)
    ensures !Contains(Strip(s), pat)
  {
    var lo, hi :| 0 <= lo <= hi <= |s| && Strip(s) == s[lo..hi];
    SliceKeepsAbsence(s, pat, lo, hi);
  }
}
