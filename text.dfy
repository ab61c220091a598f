/**
 * The string operations the job filter relies on: `String.prototype.trim`,
 * `String.prototype.toLowerCase` (restricted to ASCII letters) and
 * `String.prototype.includes`.
 */
module Text {

  /** The code points `trim` strips: ECMAScript's WhiteSpace and LineTerminator characters. */
  predicate IsWhitespace(c: char) {
    var n := c as int;
    n == 0x09 || n == 0x0A || n == 0x0B || n == 0x0C || n == 0x0D || n == 0x20 ||
    n == 0xA0 || n == 0x1680 || (0x2000 <= n <= 0x200A) || n == 0x2028 || n == 0x2029 ||
    n == 0x202F || n == 0x205F || n == 0x3000 || n == 0xFEFF
  }

  predicate AllWhitespace(s: string) {
    forall i :: 0 <= i < |s| ==> IsWhitespace(s[i])
  }

  predicate IsUpper(c: char) {
    'A' <= c <= 'Z'
  }

  /** ASCII case folding: `A`-`Z` become `a`-`z`, every other character is kept. */
  function LowerChar(c: char): (r: char)
    ensures !IsUpper(r)
    ensures IsWhitespace(r) == IsWhitespace(c)
    ensures IsUpper(c) ==> r as int - c as int == 'a' as int - 'A' as int
    ensures !IsUpper(c) ==> r == c
  {
    if IsUpper(c) then (c as int - 'A' as int + 'a' as int) as char else c
  }

  /** `s.toLowerCase()` over ASCII: every character is folded in place. */
  function Lower(s: string): (r: string)
    ensures |r| == |s|
    ensures forall i :: 0 <= i < |s| ==> r[i] == LowerChar(s[i])
    ensures forall i :: 0 <= i < |r| ==> !IsUpper(r[i])
  {
    seq(|s|, i requires 0 <= i < |s| => LowerChar(s[i]))
  }

  /** The number of whitespace characters `s` starts with. */
  function LeadingWhitespace(s: string): (n: nat)
    ensures n <= |s|
    ensures forall i :: 0 <= i < n ==> IsWhitespace(s[i])
    ensures n == |s| || !IsWhitespace(s[n])
  {
    if s != [] && IsWhitespace(s[0]) then 1 + LeadingWhitespace(s[1..]) else 0
  }

  /** The number of whitespace characters `s` ends with. */
  function TrailingWhitespace(s: string): (n: nat)
    ensures n <= |s|
    ensures forall i :: |s| - n <= i < |s| ==> IsWhitespace(s[i])
    ensures n == |s| || !IsWhitespace(s[|s| - 1 - n])
  {
    if s != [] && IsWhitespace(s[|s| - 1]) then 1 + TrailingWhitespace(s[..|s| - 1]) else 0
  }

  /** Where `s.trim()` starts in `s`. */
  function TrimLow(s: string): nat {
    LeadingWhitespace(s)
  }

  /** Where `s.trim()` ends in `s`: nothing is left when `s` is all whitespace. */
  function TrimHigh(s: string): nat {
    if LeadingWhitespace(s) == |s| then |s| else |s| - TrailingWhitespace(s)
  }

  /** `s.trim()`: the slice of `s` between its leading and its trailing whitespace; neither end of it is whitespace. */
  function Trim(s: string): (r: string)
    ensures TrimLow(s) <= TrimHigh(s) <= |s| && r == s[TrimLow(s)..TrimHigh(s)]
    ensures r == [] || (!IsWhitespace(r[0]) && !IsWhitespace(r[|r| - 1]))
  {
    var lo, hi := TrimLow(s), TrimHigh(s);
    assert lo < |s| ==> !IsWhitespace(s[lo]) && lo < hi;
    s[lo..hi]
  }

  /** `needle` sits in `haystack` at offset `i`. */
  predicate OccursAt(haystack: string, needle: string, i: int) {
    0 <= i <= |haystack| - |needle| && haystack[i..i + |needle|] == needle
  }

  /** `haystack.includes(needle)`: tries every offset from the left. */
  function Contains(haystack: string, needle: string): (r: bool)
    ensures r <==> exists i :: OccursAt(haystack, needle, i)
  {
    if needle <= haystack then
      assert OccursAt(haystack, needle, 0);
      true
    else if haystack == [] then
      false
    else
      var r := Contains(haystack[1..], needle);
      assert forall i :: OccursAt(haystack[1..], needle, i) ==> OccursAt(haystack, needle, i + 1);
      assert forall i :: OccursAt(haystack, needle, i) ==> i == 0 || OccursAt(haystack[1..], needle, i - 1);
      r
  }

  // ---------------------------------------------------------------------------
  // Sequence helpers

  lemma AllWhitespaceAppend(a: string, b: string)
    requires AllWhitespace(a) && AllWhitespace(b)
    ensures AllWhitespace(a + b)
  {
    assert forall i :: |a| <= i < |a + b| ==> (a + b)[i] == b[i - |a|];
  }

  lemma Regroup<T>(a: seq<T>, b: seq<T>, c: seq<T>, d: seq<T>, e: seq<T>)
    ensures a + (b + c + d) + e == (a + b) + c + (d + e)
  {
  }

  lemma SliceOfSlice<T>(s: seq<T>, i: int, j: int, lo: int, hi: int)
    requires 0 <= i <= j <= |s| && 0 <= lo <= hi <= j - i
    ensures s[i..j][lo..hi] == s[i + lo..i + hi]
  {
    var a := s[i..j];
    forall k | 0 <= k < hi - lo ensures a[lo..hi][k] == s[i + lo..i + hi][k] {
      assert a[lo..hi][k] == a[lo + k];
      assert a[lo + k] == s[i + lo + k];
    }
  }

  // ---------------------------------------------------------------------------
  // Properties of case folding

  lemma LowerAppend(a: string, b: string)
    ensures Lower(a + b) == Lower(a) + Lower(b)
  {
  }

  lemma LowerIdempotent(s: string)
    ensures Lower(Lower(s)) == Lower(s)
  {
  }

  /** Folding case never turns a character into whitespace or back. */
  lemma LowerKeepsWhitespace(s: string)
    ensures AllWhitespace(Lower(s)) <==> AllWhitespace(s)
  {
    assert forall i :: 0 <= i < |s| ==> IsWhitespace(Lower(s)[i]) == IsWhitespace(s[i]);
  }

  /** Folding a slice gives the same slice of the folded string. */
  lemma LowerSlice(s: string, i: int, j: int, t: string)
    requires 0 <= i <= j <= |s| && t == s[i..j]
    ensures Lower(t) == Lower(s)[i..j]
  {
    assert forall k :: 0 <= k < j - i ==> Lower(t)[k] == LowerChar(s[i + k]);
  }

  // ---------------------------------------------------------------------------
  // Properties of trimming

  /** `s` is the trimmed string with whitespace on either side. */
  lemma TrimSplit(s: string) returns (lead: string, trail: string)
    ensures s == lead + Trim(s) + trail
    ensures AllWhitespace(lead) && AllWhitespace(trail)
  {
    lead, trail := s[..TrimLow(s)], s[TrimHigh(s)..];
    assert s == lead + s[TrimLow(s)..TrimHigh(s)] + trail;
  }

  /** Trimming leaves nothing exactly when the string is all whitespace. */
  lemma TrimEmptyIffBlank(s: string)
    ensures Trim(s) == [] <==> AllWhitespace(s)
  {
    var lead, trail := TrimSplit(s);
    if Trim(s) == [] {
      assert s == lead + trail;
      AllWhitespaceAppend(lead, trail);
    } else {
      assert s[|lead|] == Trim(s)[0];
    }
  }

  /** Whatever whitespace surrounds a string whose two ends are not whitespace, trimming recovers exactly that string. */
  lemma TrimUnique(s: string, lead: string, m: string, trail: string)
    requires s == lead + m + trail
    requires AllWhitespace(lead) && AllWhitespace(trail)
    requires m == [] || (!IsWhitespace(m[0]) && !IsWhitespace(m[|m| - 1]))
    ensures Trim(s) == m
  {
    if m == [] {
      assert s == lead + trail;
      AllWhitespaceAppend(lead, trail);
      TrimEmptyIffBlank(s);
    } else {
      assert s[|lead|] == m[0];
      assert s[|lead| + |m| - 1] == m[|m| - 1];
      assert forall i :: 0 <= i < |lead| ==> s[i] == lead[i];
      assert forall i :: |lead| + |m| <= i < |s| ==> s[i] == trail[i - |lead| - |m|];
      assert TrimLow(s) == |lead|;
      assert TrimHigh(s) == |lead| + |m|;
    }
  }

  /** Padding a string with whitespace on either side never changes what `trim` returns. */
  lemma TrimIgnoresPadding(pre: string, s: string, post: string)
    requires AllWhitespace(pre) && AllWhitespace(post)
    ensures Trim(pre + s + post) == Trim(s)
  {
    var lead, trail := TrimSplit(s);
    AllWhitespaceAppend(pre, lead);
    AllWhitespaceAppend(trail, post);
    Regroup(pre, lead, Trim(s), trail, post);
    TrimUnique(pre + s + post, pre + lead, Trim(s), trail + post);
  }

  lemma TrimIdempotent(s: string)
    ensures Trim(Trim(s)) == Trim(s)
  {
    TrimUnique(Trim(s), [], Trim(s), []);
  }

  /** Trimming and case folding commute, because folding keeps whitespace where it is. */
  lemma TrimLowerCommute(s: string)
    ensures Lower(Trim(s)) == Trim(Lower(s))
  {
    var lead, trail := TrimSplit(s);
    var m := Trim(s);
    LowerAppend(lead, m);
    LowerAppend(lead + m, trail);
    LowerKeepsWhitespace(lead);
    LowerKeepsWhitespace(trail);
    TrimUnique(Lower(s), Lower(lead), Lower(m), Lower(trail));
  }

  // ---------------------------------------------------------------------------
  // Properties of substring search

  /** Every string is found in itself, and the empty string in every string. */
  lemma ContainsSelfAndEmpty(s: string)
    ensures Contains(s, s) && Contains(s, [])
  {
    assert OccursAt(s, s, 0);
    assert OccursAt(s, [], 0);
  }

  /** Containment is transitive. */
  lemma ContainsTransitive(a: string, b: string, c: string)
    requires Contains(a, b) && Contains(b, c)
    ensures Contains(a, c)
  {
    var i :| OccursAt(a, b, i);
    var j :| OccursAt(b, c, j);
    forall k | 0 <= k < |c| ensures a[i + j + k] == c[k] {
      assert c[k] == b[j + k] == a[i + j + k];
    }
    assert a[i + j..i + j + |c|] == c;
    assert OccursAt(a, c, i + j);
  }

  /** Any slice of `s`, trimmed and folded, is found in the folded `s`. */
  lemma TrimmedSliceContained(s: string, i: int, j: int)
    requires 0 <= i <= j <= |s|
    ensures Contains(Lower(s), Lower(Trim(s[i..j])))
  {
    var piece := s[i..j];
    var lo, hi := TrimLow(piece), TrimHigh(piece);
    var t := Trim(piece);
    SliceOfSlice(s, i, j, lo, hi);
    LowerSlice(s, i + lo, i + hi, t);
    assert OccursAt(Lower(s), Lower(t), i + lo);
  }
}
