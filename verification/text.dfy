/** String helpers mirroring the JavaScript built-ins the source uses on
    user-visible text: `toLowerCase`, `includes` and `trim`.
    Case folding is modelled for the Latin-1 letters, which cover the
    Portuguese alphabet; whitespace is the full set JavaScript's `trim`
    removes. */
module Text {

  /** Upper-case letters of ASCII and of the Latin-1 supplement (U+00C0 to
      U+00DE, except the multiplication sign U+00D7) map to their lower-case
      forms, 32 code points on; every other character is kept. */
  function LowerChar(c: char): (r: char)
    ensures IsUpper(c) ==> r as int == c as int + 32 && !IsUpper(r)
    ensures !IsUpper(c) ==> r == c
  {
    if IsUpper(c) then (c as int + 32) as char else c
  }

  predicate IsUpper(c: char)
  {
    'A' <= c <= 'Z' || ('\U{C0}' <= c <= '\U{DE}' && c != '\U{D7}')
  }

  /** Lower-casing is idempotent, so a text matches its own lower-case
      form, and two texts that differ only in the case of their letters
      (as "JOÃO" and "joão" do) match each other in both directions. */
  lemma {:induction false} IgnoringCaseMatches(s: string, t: string)
    ensures Lower(Lower(s)) == Lower(s)
    ensures ContainsIgnoringCase(s, Lower(s))
    ensures Lower(s) == Lower(t) ==> ContainsIgnoringCase(s, t) && ContainsIgnoringCase(t, s)
  {}

  /** `s.toLowerCase()` / `s.lower()`, position by position. */
  function Lower(s: string): (r: string)
    ensures |r| == |s|
    ensures forall i :: 0 <= i < |s| ==> r[i] == LowerChar(s[i])
  {
    seq(|s|, i requires 0 <= i < |s| => LowerChar(s[i]))
  }

  /** `hay.includes(needle)`: `needle` occurs as a contiguous block of `hay`. */
  predicate Contains(hay: string, needle: string)
    decreases |hay|
  {
    needle <= hay || (|hay| > 0 && Contains(hay[1..], needle))
  }

  /** The reference meaning of `Contains`: some offset where `needle` starts. */
  ghost predicate OccursAt(hay: string, needle: string, k: int)
  {
    0 <= k && k + |needle| <= |hay| && hay[k..k + |needle|] == needle
  }

  /** Dropping the first character shifts every occurrence left by one. */
  lemma {:induction false} ShiftOccurs(hay: string, needle: string, k: nat)
    requires |hay| > 0
    ensures OccursAt(hay[1..], needle, k) <==> OccursAt(hay, needle, k + 1)
  {
    if k + |needle| <= |hay| - 1 {
      assert hay[1..][k..k + |needle|] == hay[k + 1..k + 1 + |needle|];
    }
  }

  lemma {:induction false} ContainsIffOccurs(hay: string, needle: string)
    ensures Contains(hay, needle) <==> exists k :: OccursAt(hay, needle, k)
    decreases |hay|
  {
    if needle <= hay {
      assert OccursAt(hay, needle, 0);
    } else if |hay| > 0 {
      ContainsIffOccurs(hay[1..], needle);
      if exists k :: OccursAt(hay[1..], needle, k) {
        var k :| OccursAt(hay[1..], needle, k);
        ShiftOccurs(hay, needle, k);
      }
      if exists k :: OccursAt(hay, needle, k) {
        var k :| OccursAt(hay, needle, k);
        assert k != 0;
        ShiftOccurs(hay, needle, k - 1);
      }
    }
  }

  /** The empty string is contained in every string, as with `"abc".includes("")`. */
  lemma {:induction false} ContainsEmpty(hay: string)
    ensures Contains(hay, "")
  {
  }

  /** `hay.toLowerCase().includes(term.toLowerCase())`. */
  predicate ContainsIgnoringCase(hay: string, term: string)
  {
    Contains(Lower(hay), Lower(term))
  }

  /** An empty search term is found in every string. */
  lemma {:induction false} EmptyTermMatches(hay: string)
    ensures ContainsIgnoringCase(hay, "")
  {
    assert Lower("") == "";
  }

  /** The characters JavaScript's `trim` removes: the white space of the
      language (tab, vertical tab, form feed, the byte order mark and every
      space separator) and its line terminators (line feed, carriage return,
      line and paragraph separators). */
  predicate IsSpace(c: char)
  {
    var n := c as int;
    9 <= n <= 13 || n == 0x20 || n == 0xA0 || n == 0x1680 || 0x2000 <= n <= 0x200A ||
    n == 0x2028 || n == 0x2029 || n == 0x202F || n == 0x205F || n == 0x3000 || n == 0xFEFF
  }

  /** Every character of `xs` is whitespace. */
  ghost predicate AllSpace(xs: string)
  {
    forall i :: 0 <= i < |xs| ==> IsSpace(xs[i])
  }

  /** `r` is the block `s[a..b]` of `s`, and everything around it is whitespace. */
  ghost predicate StripsTo(s: string, r: string, a: int, b: int)
  {
    0 <= a <= b <= |s| && r == s[a..b] && AllSpace(s[..a]) && AllSpace(s[b..])
  }

  /** `s` with leading and trailing whitespace removed. */
  function Trim(s: string): (r: string)
    ensures r == [] || (!IsSpace(r[0]) && !IsSpace(r[|r| - 1]))
    ensures r == [] <==> forall i :: 0 <= i < |s| ==> IsSpace(s[i])
    ensures exists a, b :: StripsTo(s, r, a, b)
  {
    var t := TrimStart(s);
    var r := TrimEnd(t);
    BlockOfBlock(s, t, r);
    r
  }

  /** Stripping a whitespace prefix and then a whitespace suffix leaves one
      block of the original string. */
  lemma {:induction false} BlockOfBlock(s: string, t: string, r: string)
    requires |t| <= |s| && t == s[|s| - |t|..] && AllSpace(s[..|s| - |t|])
    requires |r| <= |t| && r == t[..|r|] && AllSpace(t[|r|..])
    ensures StripsTo(s, r, |s| - |t|, |s| - |t| + |r|)
  {
    var a := |s| - |t|;
    assert r == s[a..a + |r|];
    assert s[a + |r|..] == t[|r|..];
  }

  function TrimStart(s: string): (r: string)
    ensures |r| <= |s|
    ensures r == [] || !IsSpace(r[0])
    ensures r == s[|s| - |r|..]
    ensures AllSpace(s[..|s| - |r|])
  {
    if |s| > 0 && IsSpace(s[0]) then TrimStart(s[1..]) else s
  }

  function TrimEnd(s: string): (r: string)
    ensures |r| <= |s|
    ensures r == [] || !IsSpace(r[|r| - 1])
    ensures r == s[..|r|]
    ensures AllSpace(s[|r|..])
  {
    if |s| > 0 && IsSpace(s[|s| - 1]) then TrimEnd(s[..|s| - 1]) else s
  }
}
