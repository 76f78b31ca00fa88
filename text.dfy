/**
 * The two Python string operations the ticket service applies to request
 * fields: `str.strip()` with no argument and `str.lower()`.
 */
module Text {

  /** Python's `str.isspace()` for one character: the characters `str.strip()` removes. */
  predicate IsSpace(c: char) {
    || c == ' '
    || '\t' <= c <= '\r'
    || '\U{1C}' <= c <= '\U{1F}'
    || c == '\U{85}' || c == '\U{A0}' || c == '\U{1680}'
    || '\U{2000}' <= c <= '\U{200A}'
    || c == '\U{2028}' || c == '\U{2029}' || c == '\U{202F}' || c == '\U{205F}'
    || c == '\U{3000}'
  }

  /** Every character of `s` is white space (this includes the empty string). */
  predicate Blank(s: string) {
    forall k :: 0 <= k < |s| ==> IsSpace(s[k])
  }

  /** Neither the first nor the last character of `s` is white space. */
  predicate Trimmed(s: string) {
    s == [] || (!IsSpace(s[0]) && !IsSpace(s[|s| - 1]))
  }

  /** `s` with its leading white space removed. */
  function TrimStart(s: string): (r: string)
    ensures |r| <= |s|
    ensures r != [] ==> !IsSpace(r[0])
  {
    if s != [] && IsSpace(s[0]) then TrimStart(s[1..]) else s
  }

  /** `TrimStart` removes a blank prefix and keeps the rest of `s`. */
  lemma {:induction false} TrimStartSlice(s: string)
    ensures TrimStart(s) == s[|s| - |TrimStart(s)|..]
    ensures Blank(s[..|s| - |TrimStart(s)|])
  {
    if s != [] && IsSpace(s[0]) {
      TrimStartSlice(s[1..]);
      var n := |s| - |TrimStart(s)|;
      assert s[1..][..n - 1] == s[1..n];
      assert s[1..][n - 1..] == s[n..];
    }
  }

  /** `s` with its trailing white space removed. */
  function TrimEnd(s: string): (r: string)
    ensures |r| <= |s|
    ensures r != [] ==> !IsSpace(r[|r| - 1])
  {
    if s != [] && IsSpace(s[|s| - 1]) then TrimEnd(s[..|s| - 1]) else s
  }

  /** `TrimEnd` keeps a prefix of `s` and removes a blank suffix. */
  lemma {:induction false} TrimEndSlice(s: string)
    ensures TrimEnd(s) == s[..|TrimEnd(s)|]
    ensures Blank(s[|TrimEnd(s)|..])
  {
    if s != [] && IsSpace(s[|s| - 1]) {
      var p := s[..|s| - 1];
      TrimEndSlice(p);
      var n := |TrimEnd(s)|;
      assert p[..n] == s[..n];
      assert p[n..] + [s[|s| - 1]] == s[n..];
    }
  }

  /** Python's `s.strip()`: the longest middle part of `s` without white space at either end. */
  function Strip(s: string): (r: string)
    ensures |r| <= |s|
    ensures Trimmed(r)
  {
    TrimEndSlice(TrimStart(s));
    TrimEnd(TrimStart(s))
  }

  /** Stripping yields the empty string exactly when `s` is blank. */
  lemma StripEmptyIffBlank(s: string)
    ensures Strip(s) == [] <==> Blank(s)
  {
    var t := TrimStart(s);
    TrimStartSlice(s);
    TrimEndSlice(t);
    if Strip(s) == [] {
      assert Blank(t) by {
        assert t[0..] == t;
      }
      BlankJoin(s, |s| - |t|);
    }
  }

  /** Stripping `s` removes exactly a blank prefix `s[..i]` and a blank suffix `s[j..]`. */
  lemma StripIsSlice(s: string)
    ensures var i := |s| - |TrimStart(s)|;
            i + |Strip(s)| <= |s| && Strip(s) == s[i..i + |Strip(s)|]
            && Blank(s[..i]) && Blank(s[i + |Strip(s)|..])
  {
    var t := TrimStart(s);
    var i := |s| - |t|;
    var r := TrimEnd(t);
    TrimStartSlice(s);
    TrimEndSlice(t);
    assert r == Strip(s);
    assert r == s[i..i + |r|];
    assert t[|r|..] == s[i + |r|..];
  }

  /** Leading white space ends at index `i`. */
  lemma {:induction false} TrimStartAt(s: string, i: nat)
    requires i <= |s| && Blank(s[..i])
    requires i == |s| || !IsSpace(s[i])
    ensures TrimStart(s) == s[i..]
    decreases i
  {
    if i > 0 {
      assert IsSpace(s[..i][0]);
      assert s[1..][..i - 1] == s[1..i];
      TrimStartAt(s[1..], i - 1);
      assert s[1..][i - 1..] == s[i..];
    }
  }

  /** Trailing white space starts at index `j`. */
  lemma {:induction false} TrimEndAt(s: string, j: nat)
    requires j <= |s| && Blank(s[j..])
    requires j == 0 || !IsSpace(s[j - 1])
    ensures TrimEnd(s) == s[..j]
    decreases |s| - j
  {
    if j < |s| {
      assert IsSpace(s[j..][|s| - 1 - j]);
      var p := s[..|s| - 1];
      assert p[j..] == s[j..|s| - 1];
      TrimEndAt(p, j);
      assert p[..j] == s[..j];
    }
  }

  /**
   * `Strip` is characterised without reference to how it scans: whenever `s`
   * is a blank prefix, a part `r` without white space at its ends, and a
   * blank suffix, `Strip(s)` is that part.
   */
  lemma {:induction false} StripUnique(s: string, i: nat, j: nat)
    requires i <= j <= |s|
    requires Blank(s[..i]) && Blank(s[j..]) && Trimmed(s[i..j])
    ensures Strip(s) == s[i..j]
  {
    if i == j {
      BlankJoin(s, i);
      StripEmptyIffBlank(s);
    } else {
      assert s[i..j][0] == s[i];
      TrimStartAt(s, i);
      var t := s[i..];
      assert t[j - i..] == s[j..];
      assert t[j - i - 1] == s[i..j][j - i - 1];
      TrimEndAt(t, j - i);
      assert t[..j - i] == s[i..j];
    }
  }

  /** A blank prefix followed by a blank suffix is blank. */
  lemma BlankJoin(s: string, i: nat)
    requires i <= |s| && Blank(s[..i]) && Blank(s[i..])
    ensures Blank(s)
  {
    forall k | 0 <= k < |s| ensures IsSpace(s[k]) {
      if k < i { assert s[..i][k] == s[k]; } else { assert s[i..][k - i] == s[k]; }
    }
  }

  /** Stripping twice is stripping once. */
  lemma StripIdempotent(s: string)
    ensures Strip(Strip(s)) == Strip(s)
  {
    var r := Strip(s);
    assert r[0..|r|] == r && r[..0] == [] && r[|r|..] == [];
    StripUnique(r, 0, |r|);
  }

  /**
   * Python's `str.lower()` on one character, for every character whose lower
   * case is ASCII: the letters A to Z and the KELVIN SIGN, which becomes `k`.
   */
  function LowerChar(c: char): char {
    if 'A' <= c <= 'Z' then (c as int - 'A' as int + 'a' as int) as char
    else if c == '\U{212A}' then 'k'
    else c
  }

  /** Python's `s.lower()`, with non-ASCII characters that stay non-ASCII left as they are. */
  function Lower(s: string): (r: string)
    ensures |r| == |s|
  {
    seq(|s|, k requires 0 <= k < |s| => LowerChar(s[k]))
  }

  /**
   * The result of lower-casing has no upper-case letter that `Lower` knows, and
   * lower-case ASCII letters come through unchanged.
   */
  lemma LowerIsLowerCase(s: string)
    ensures forall k :: 0 <= k < |s| ==>
              !('A' <= Lower(s)[k] <= 'Z') && Lower(s)[k] != '\U{212A}'
    ensures forall k :: 0 <= k < |s| && 'a' <= s[k] <= 'z' ==> Lower(s)[k] == s[k]
  {
  }

  /** Lower-casing works character by character, so it commutes with slicing. */
  lemma LowerSlice(s: string, a: nat, b: nat)
    requires a <= b <= |s|
    ensures Lower(s)[a..b] == Lower(s[a..b])
  {
  }

  /** Lower-casing neither creates nor removes white space. */
  lemma LowerKeepsSpace(s: string)
    ensures Blank(Lower(s)) <==> Blank(s)
    ensures Trimmed(Lower(s)) <==> Trimmed(s)
  {
    assert forall k :: 0 <= k < |s| ==> (IsSpace(Lower(s)[k]) <==> IsSpace(s[k]));
  }

  /** Hence lower-casing commutes with `Strip`. */
  lemma LowerStripCommute(s: string)
    ensures Strip(Lower(s)) == Lower(Strip(s))
  {
    StripIsSlice(s);
    var i := |s| - |TrimStart(s)|;
    var j := i + |Strip(s)|;
    var l := Lower(s);
    LowerSlice(s, 0, i);
    LowerSlice(s, i, j);
    LowerSlice(s, j, |s|);
    assert s[0..i] == s[..i] && l[0..i] == l[..i];
    assert s[j..|s|] == s[j..] && l[j..|s|] == l[j..];
    LowerKeepsSpace(s[..i]);
    LowerKeepsSpace(s[i..j]);
    LowerKeepsSpace(s[j..]);
    StripUnique(l, i, j);
  }

  /** A word of lower-case ASCII letters is unchanged by stripping and by lower-casing. */
  lemma LowerWordNormalised(w: string)
    requires forall k :: 0 <= k < |w| ==> 'a' <= w[k] <= 'z'
    ensures Strip(w) == w && Lower(w) == w
  {
    if w != [] {
      var first, last := w[0], w[|w| - 1];
      assert 'a' <= first <= 'z' && 'a' <= last <= 'z';
      assert !IsSpace(first) && !IsSpace(last);
    }
    assert w[0..|w|] == w && w[..0] == [] && w[|w|..] == [];
    StripUnique(w, 0, |w|);
    forall k | 0 <= k < |w| ensures Lower(w)[k] == w[k] {
      assert 'a' <= w[k] <= 'z';
    }
  }

  /** Lower-casing and stripping, as `parse_status` does, is idempotent. */
  lemma RefineIdempotent(s: string)
    ensures Lower(Strip(Lower(Strip(s)))) == Lower(Strip(s))
  {
    var u := Strip(s);
    LowerStripCommute(u);
    StripIdempotent(u);
  }
}
