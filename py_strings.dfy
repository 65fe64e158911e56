/** The Python `str` operations that the bot and the scraper rely on, over `seq<char>`. */
module PyStrings {

  /** `s.startswith(p)` */
  predicate StartsWith(s: string, p: string) {
    |p| <= |s| && s[..|p|] == p
  }

  /** `s.endswith(p)` */
  predicate EndsWith(s: string, p: string) {
    |p| <= |s| && s[|s| - |p|..] == p
  }

  /** `sub in s`: some suffix of `s` starts with `sub`; the empty string occurs in every string. */
  predicate Contains(s: string, sub: string)
    decreases |s|
  {
    StartsWith(s, sub) || (|s| > 0 && Contains(s[1..], sub))
  }

  /** An occurrence at a known position makes `sub in s` true. */
  lemma {:induction false} ContainsAt(s: string, sub: string, i: nat)
    requires i + |sub| <= |s| && s[i..i + |sub|] == sub
    ensures Contains(s, sub)
    decreases i
  {
    if i > 0 {
      assert s[1..][i - 1..i - 1 + |sub|] == sub;
      ContainsAt(s[1..], sub, i - 1);
    }
  }

  /** A character of `sub` that never occurs in `s` rules out `sub in s`. */
  lemma {:induction false} AbsentChar(s: string, sub: string, k: nat)
    requires k < |sub| && sub[k] !in s
    ensures !Contains(s, sub)
    decreases |s|
  {
    if k < |s| {
      assert s[k] in s;
    }
    if |s| > 0 {
      AbsentChar(s[1..], sub, k);
    }
  }

  /** Nothing non-empty occurs in the empty string. */
  lemma NotInEmpty(sub: string)
    requires sub != []
    ensures !Contains("", sub)
  {
  }

  /** A position at which `sub` occurs, when it occurs. */
  lemma {:induction false} ContainsWitness(s: string, sub: string) returns (i: nat)
    requires Contains(s, sub)
    ensures i + |sub| <= |s| && s[i..i + |sub|] == sub
    decreases |s|
  {
    if StartsWith(s, sub) {
      i := 0;
    } else {
      var k := ContainsWitness(s[1..], sub);
      assert s[1..][k..k + |sub|] == s[k + 1..k + 1 + |sub|];
      i := k + 1;
    }
  }

  /** An occurrence of an occurrence is an occurrence. */
  lemma {:induction false} ContainsTransitive(t: string, s: string, p: string)
    requires Contains(t, s) && Contains(s, p)
    ensures Contains(t, p)
  {
    var i := ContainsWitness(t, s);
    var j := ContainsWitness(s, p);
    forall m | 0 <= m < |p|
      ensures t[i + j..i + j + |p|][m] == p[m]
    {
      assert p[m] == s[j..j + |p|][m] == s[j + m];
      assert s[j + m] == t[i..i + |s|][j + m] == t[i + j + m];
    }
    assert t[i + j..i + j + |p|] == p;
    ContainsAt(t, p, i + j);
  }

  /** `s.find(sub)`: the first position at which `sub` occurs, or -1. */
  function Find(s: string, sub: string): (r: int)
    ensures r == -1 <==> !Contains(s, sub)
    ensures r != -1 ==> 0 <= r && r + |sub| <= |s| && s[r..r + |sub|] == sub
    ensures r != -1 ==> forall j :: 0 <= j < r ==> !StartsWith(s[j..], sub)
    decreases |s|
  {
    if StartsWith(s, sub) then 0
    else if |s| == 0 then -1
    else
      var k := Find(s[1..], sub);
      if k == -1 then -1
      else
        assert s[1..][k..k + |sub|] == s[k + 1..k + 1 + |sub|];
        assert forall j :: 1 <= j <= k ==> s[j..] == s[1..][j - 1..];
        k + 1
  }

  /** `s.rfind(c)` for a one-character needle: the last position of `c`, or -1. */
  function RFindChar(s: string, c: char): (r: int)
    ensures -1 <= r < |s|
    ensures r == -1 <==> c !in s
    ensures r != -1 ==> s[r] == c && c !in s[r + 1..]
    decreases |s|
  {
    if |s| == 0 then -1
    else if s[|s| - 1] == c then |s| - 1
    else
      var k := RFindChar(s[..|s| - 1], c);
      assert s == s[..|s| - 1] + [s[|s| - 1]];
      assert k != -1 ==> s[k + 1..] == s[..|s| - 1][k + 1..] + [s[|s| - 1]];
      k
  }

  /** The characters Python's `str.strip()` removes (`str.isspace`). */
  predicate IsSpace(c: char) {
    var n := c as int;
    n == 0x20 || 0x09 <= n <= 0x0D || 0x1C <= n <= 0x1F || n == 0x85 || n == 0xA0
    || n == 0x1680 || 0x2000 <= n <= 0x200A || n == 0x2028 || n == 0x2029
    || n == 0x202F || n == 0x205F || n == 0x3000
  }

  /** No whitespace at either end. */
  predicate Trimmed(s: string) {
    s == [] || (!IsSpace(s[0]) && !IsSpace(s[|s| - 1]))
  }

  /** Nothing but whitespace. */
  predicate AllSpace(s: string) {
    forall i :: 0 <= i < |s| ==> IsSpace(s[i])
  }

  /** `s.lstrip()` */
  function LStrip(s: string): (r: string)
    ensures |r| <= |s| && r == s[|s| - |r|..]
    ensures r == [] || !IsSpace(r[0])
    ensures AllSpace(s[..|s| - |r|])
    decreases |s|
  {
    if |s| > 0 && IsSpace(s[0]) then
      var r := LStrip(s[1..]);
      assert s[..|s| - |r|] == [s[0]] + s[1..][..|s| - 1 - |r|];
      r
    else s
  }

  /** `s.rstrip()` */
  function RStrip(s: string): (r: string)
    ensures |r| <= |s| && r == s[..|r|]
    ensures r == [] || !IsSpace(r[|r| - 1])
    ensures AllSpace(s[|r|..])
    decreases |s|
  {
    if |s| > 0 && IsSpace(s[|s| - 1]) then
      var r := RStrip(s[..|s| - 1]);
      assert s[|r|..] == s[..|s| - 1][|r|..] + [s[|s| - 1]];
      r
    else s
  }

  /** `s.strip()`: the infix of `s` left once the whitespace at both ends is gone. */
  function Strip(s: string): (r: string)
    ensures Trimmed(r)
    ensures Trimmed(s) ==> r == s
  {
    StripEnds(s);
    RStrip(LStrip(s))
  }

  /** What is left is trimmed, and a trimmed string is left whole. */
  lemma StripEnds(s: string)
    ensures Trimmed(RStrip(LStrip(s)))
    ensures Trimmed(s) ==> RStrip(LStrip(s)) == s
  {
    var l := LStrip(s);
    var r := RStrip(l);
    if r != [] {
      assert r[0] == l[0];
    }
    if Trimmed(s) && s != [] {
      assert l == s;
    }
  }

  /** `strip()` keeps an infix of `s`: a prefix of what `lstrip()` keeps, which is a suffix of `s` ... */
  lemma StripInfix(s: string)
    ensures |Strip(s)| <= |LStrip(s)| <= |s|
    ensures Strip(s) == LStrip(s)[..|Strip(s)|] && LStrip(s) == s[|s| - |LStrip(s)|..]
  {
    assert Strip(s) == RStrip(LStrip(s));
  }

  /** ... and what it removes from either end is whitespace. */
  lemma StripRemovesSpace(s: string)
    ensures var d := |s| - |LStrip(s)|;
            d + |Strip(s)| <= |s| && AllSpace(s[..d]) && AllSpace(s[d + |Strip(s)|..])
  {
    var l := LStrip(s);
    var r := RStrip(l);
    NestedSlices(s, l, r);
  }

  /** A prefix `r` of a suffix `l` of `s` is an infix of `s`, followed by the rest of `l`. */
  lemma NestedSlices(s: string, l: string, r: string)
    requires |l| <= |s| && l == s[|s| - |l|..] && |r| <= |l| && r == l[..|r|]
    requires AllSpace(l[|r|..])
    ensures var d := |s| - |l|;
            r == s[d..d + |r|] && s[d + |r|..] == l[|r|..] && AllSpace(s[d + |r|..])
  {
  }

  /** Stripping twice is stripping once. */
  lemma StripIdempotent(s: string)
    ensures Strip(Strip(s)) == Strip(s)
  {
  }

  /** A string made only of whitespace strips to the empty string. */
  lemma StripAllSpace(s: string)
    requires AllSpace(s)
    ensures Strip(s) == ""
  {
    LStripAllSpace(s);
  }

  lemma {:induction false} LStripAllSpace(s: string)
    requires AllSpace(s)
    ensures LStrip(s) == ""
    decreases |s|
  {
    if |s| > 0 {
      assert IsSpace(s[0]);
      assert forall i :: 0 <= i < |s| - 1 ==> s[1..][i] == s[i + 1];
      LStripAllSpace(s[1..]);
    }
  }

  /** One more space at the end does not change what `strip()` returns. */
  lemma {:induction false} StripTrailingSpace(s: string)
    ensures Strip(s + " ") == Strip(s)
  {
    LStripTrailingSpace(s);
    var l := LStrip(s);
    if l != [] {
      assert (l + " ")[..|l|] == l;
      assert RStrip(l + " ") == RStrip(l);
    }
  }

  lemma {:induction false} LStripTrailingSpace(s: string)
    ensures LStrip(s + " ") == if LStrip(s) == [] then [] else LStrip(s) + " "
    decreases |s|
  {
    if |s| == 0 {
      assert (s + " ")[1..] == [];
    } else if IsSpace(s[0]) {
      assert (s + " ")[1..] == s[1..] + " ";
      LStripTrailingSpace(s[1..]);
    } else {
      assert (s + " ")[0] == s[0];
    }
  }

  /** `s.split(sep)[-1]`: the text after the last `sep`, or all of `s` when there is none. */
  function LastSegment(s: string, sep: char): (r: string)
    ensures sep !in r
    ensures |r| <= |s| && r == s[|s| - |r|..]
    ensures |r| < |s| ==> s[|s| - |r| - 1] == sep
    decreases |s|
  {
    if |s| == 0 || s[|s| - 1] == sep then []
    else LastSegment(s[..|s| - 1], sep) + [s[|s| - 1]]
  }

  /** `s.split(sep)[0]`: the text before the first `sep`, or all of `s` when there is none. */
  function FirstSegment(s: string, sep: char): (r: string)
    ensures sep !in r
    ensures |r| <= |s| && r == s[..|r|]
    ensures |r| < |s| ==> s[|r|] == sep
    decreases |s|
  {
    if |s| == 0 || s[0] == sep then []
    else [s[0]] + FirstSegment(s[1..], sep)
  }

  /** A separator-free string is its own first and last segment. */
  lemma SegmentsWithoutSep(s: string, sep: char)
    requires sep !in s
    ensures FirstSegment(s, sep) == s && LastSegment(s, sep) == s
  {
  }

  function DigitChar(d: nat): char
    requires d < 10
  {
    "0123456789"[d]
  }

  function NatDecimal(n: nat): string
    decreases n
  {
    if n < 10 then [DigitChar(n)] else NatDecimal(n / 10) + [DigitChar(n % 10)]
  }

  /** `str(i)` for a Python int. */
  function Decimal(i: int): string {
    if i < 0 then "-" + NatDecimal(-i) else NatDecimal(i)
  }
}
