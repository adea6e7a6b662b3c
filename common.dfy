/** Shared vocabulary: optional values, results, and the JavaScript string
    operations (`trim`, `startsWith`, `endsWith`, `includes`, `split`,
    `join`, number-to-string) that the application code relies on. */
module Common {

  datatype Option<+T> = None | Some(value: T)

  datatype Result<+T, +E> = Ok(value: T) | Err(error: E)

  /** JavaScript truthiness of an optional string: `undefined` and `""` are falsy. */
  predicate Given(o: Option<string>) {
    o.Some? && o.value != ""
  }

  // ---------------------------------------------------------------------
  // Whitespace and trim (ECMAScript WhiteSpace and LineTerminator)
  // ---------------------------------------------------------------------

  /** The characters `String.prototype.trim` removes. */
  predicate IsSpace(c: char) {
    c == '\t' || c == '\n' || c == '\U{000B}' || c == '\U{000C}' || c == '\r' || c == ' '
    || c == '\U{00A0}' || c == '\U{1680}' || ('\U{2000}' <= c <= '\U{200A}')
    || c == '\U{2028}' || c == '\U{2029}' || c == '\U{202F}' || c == '\U{205F}'
    || c == '\U{3000}' || c == '\U{FEFF}'
  }

  predicate AllSpace(s: string) {
    forall i :: 0 <= i < |s| ==> IsSpace(s[i])
  }

  /** No leading and no trailing whitespace. */
  predicate IsTrimmed(s: string) {
    s == [] || (!IsSpace(s[0]) && !IsSpace(s[|s| - 1]))
  }

  /** The number of leading whitespace characters. */
  function LeadingSpace(s: string): (k: nat)
    ensures k <= |s| && AllSpace(s[..k])
    ensures k < |s| ==> !IsSpace(s[k])
  {
    if s == [] || !IsSpace(s[0]) then 0
    else
      var k := LeadingSpace(s[1..]);
      assert s[..k + 1] == [s[0]] + s[1..][..k];
      k + 1
  }

  /** The number of trailing whitespace characters. */
  function TrailingSpace(s: string): (k: nat)
    ensures k <= |s| && AllSpace(s[|s| - k..])
    ensures k < |s| ==> !IsSpace(s[|s| - k - 1])
  {
    if s == [] || !IsSpace(s[|s| - 1]) then 0
    else
      var init := s[..|s| - 1];
      var k := TrailingSpace(init);
      assert forall i | |s| - (k + 1) <= i < |s| - 1 :: s[i] == init[i];
      k + 1
  }

  /** `String.prototype.trimStart`. */
  function TrimStart(s: string): (r: string)
    ensures r == [] || !IsSpace(r[0])
  {
    s[LeadingSpace(s)..]
  }

  /** `String.prototype.trimEnd`. */
  function TrimEnd(s: string): (r: string)
    ensures r == [] || !IsSpace(r[|r| - 1])
  {
    s[..|s| - TrailingSpace(s)]
  }

  /** `String.prototype.trim`: the longest infix without surrounding whitespace. */
  function Trim(s: string): (r: string)
    ensures IsTrimmed(r)
    ensures |r| <= |s|
  {
    TrimEnd(TrimStart(s))
  }

  lemma {:induction false} LeadingSpaceOf(w: string, p: string)
    requires AllSpace(w) && (p == [] || !IsSpace(p[0]))
    ensures LeadingSpace(w + p) == |w|
  {
    if w == [] {
      assert w + p == p;
    } else {
      assert (w + p)[0] == w[0];
      assert (w + p)[1..] == w[1..] + p;
      LeadingSpaceOf(w[1..], p);
    }
  }

  lemma {:induction false} TrailingSpaceOf(p: string, w: string)
    requires AllSpace(w) && (p == [] || !IsSpace(p[|p| - 1]))
    ensures TrailingSpace(p + w) == |w|
  {
    if w == [] {
      assert p + w == p;
    } else {
      assert (p + w)[|p + w| - 1] == w[|w| - 1];
      assert (p + w)[..|p + w| - 1] == p + w[..|w| - 1];
      TrailingSpaceOf(p, w[..|w| - 1]);
    }
  }

  lemma TrimStartSkipsSpace(w: string, p: string)
    requires AllSpace(w) && (p == [] || !IsSpace(p[0]))
    ensures TrimStart(w + p) == p
  {
    LeadingSpaceOf(w, p);
    assert (w + p)[|w|..] == p;
  }

  lemma TrimEndSkipsSpace(p: string, w: string)
    requires AllSpace(w) && (p == [] || !IsSpace(p[|p| - 1]))
    ensures TrimEnd(p + w) == p
  {
    TrailingSpaceOf(p, w);
    assert (p + w)[..|p|] == p;
  }

  lemma TrimStartAllSpace(w: string)
    requires AllSpace(w)
    ensures TrimStart(w) == []
  {
    assert w + [] == w;
    LeadingSpaceOf(w, []);
  }

  /** Trimming removes exactly the surrounding whitespace of a trimmed payload. */
  lemma TrimAround(w1: string, p: string, w2: string)
    requires AllSpace(w1) && AllSpace(w2) && IsTrimmed(p)
    ensures Trim(w1 + p + w2) == p
  {
    if p == [] {
      assert w1 + p + w2 == w1 + w2;
      assert AllSpace(w1 + w2);
      TrimStartAllSpace(w1 + w2);
    } else {
      assert w1 + p + w2 == w1 + (p + w2);
      TrimStartSkipsSpace(w1, p + w2);
      TrimEndSkipsSpace(p, w2);
    }
  }

  /** Trimming a trimmed string changes nothing. */
  lemma TrimTrimmed(p: string)
    requires IsTrimmed(p)
    ensures Trim(p) == p
  {
    assert [] + p + [] == p;
    TrimAround([], p, []);
  }

  // ---------------------------------------------------------------------
  // Prefixes, suffixes, substrings
  // ---------------------------------------------------------------------

  predicate StartsWith(s: string, prefix: string) {
    |prefix| <= |s| && s[..|prefix|] == prefix
  }

  predicate EndsWith(s: string, suffix: string) {
    |suffix| <= |s| && s[|s| - |suffix|..] == suffix
  }

  /** Past a common prefix, one string begins with another exactly when the remainders do. */
  lemma StartsWithAppend(a: string, b: string, c: string)
    ensures StartsWith(a + b, a + c) <==> StartsWith(b, c)
  {
    if |c| <= |b| {
      var x := (a + b)[..|a| + |c|];
      assert x == a + b[..|c|];
      assert x[|a|..] == b[..|c|];
      assert (a + c)[|a|..] == c;
    }
  }

  /** A string that begins with a + b begins with a. */
  lemma StartsWithLonger(s: string, a: string, b: string)
    requires StartsWith(s, a + b)
    ensures StartsWith(s, a)
  {
    assert s[..|a|] == s[..|a + b|][..|a|];
    assert (a + b)[..|a|] == a;
  }

  /** `String.prototype.includes`: `sub` occurs at some offset of `s`. */
  predicate Contains(s: string, sub: string) {
    exists i :: 0 <= i <= |s| && StartsWith(s[i..], sub)
  }

  lemma ContainsInfix(a: string, b: string, c: string)
    ensures Contains(a + b + c, b)
  {
    assert (a + b + c)[|a|..] == b + c;
    assert (b + c)[..|b|] == b;
  }

  /** A string without `sub`'s first character cannot contain `sub`. */
  lemma NotContainsWithoutChar(s: string, sub: string)
    requires sub != [] && sub[0] !in s
    ensures !Contains(s, sub)
  {
    forall i | 0 <= i <= |s|
      ensures !StartsWith(s[i..], sub)
    {
      if i < |s| {
        assert s[i..][0] == s[i];
      }
    }
  }

  /** A string lacking any one character of `sub` cannot contain `sub`. */
  lemma NotContainsWithout(s: string, sub: string, k: nat)
    requires k < |sub| && sub[k] !in s
    ensures !Contains(s, sub)
  {
    forall i | 0 <= i <= |s|
      ensures !StartsWith(s[i..], sub)
    {
      if i + k < |s| {
        assert s[i..][k] == s[i + k];
      }
    }
  }

  /** Concatenation of a list of text segments (the shape of a template literal). */
  function Concat(segs: seq<string>): (r: string)
    ensures |segs| == 1 ==> r == segs[0]
  {
    if segs == [] then [] else segs[0] + Concat(segs[1..])
  }

  lemma {:induction false} ConcatSplit(segs: seq<string>, i: nat)
    requires i < |segs|
    ensures Concat(segs) == Concat(segs[..i]) + segs[i] + Concat(segs[i + 1..])
  {
    if i > 0 {
      ConcatSplit(segs[1..], i - 1);
      assert segs[1..][..i - 1] == segs[1..i];
      assert segs[1..][i..] == segs[i + 1..];
      assert Concat(segs[..i]) == segs[0] + Concat(segs[1..i]);
    } else {
      assert segs[1..] == segs[i + 1..];
    }
  }

  /** A character found in no segment is not in the text. */
  lemma {:induction false} ConcatLacks(segs: seq<string>, c: char)
    requires forall i :: 0 <= i < |segs| ==> c !in segs[i]
    ensures c !in Concat(segs)
  {
    if segs != [] {
      ConcatLacks(segs[1..], c);
    }
  }

  /** Every segment of a template occurs in the text. */
  lemma ConcatContains(segs: seq<string>, i: nat)
    requires i < |segs|
    ensures Contains(Concat(segs), segs[i])
  {
    ConcatSplit(segs, i);
    ContainsInfix(Concat(segs[..i]), segs[i], Concat(segs[i + 1..]));
  }

  /** A template text begins with its first segment and ends with its last. */
  lemma ConcatEnds(segs: seq<string>)
    requires |segs| > 0
    ensures StartsWith(Concat(segs), segs[0])
    ensures EndsWith(Concat(segs), segs[|segs| - 1])
  {
    ConcatSplit(segs, |segs| - 1);
    assert segs[|segs|..] == [];
  }

  /** Replacing one segment changes the length by the difference of the two. */
  lemma ConcatLengthUpdate(segs: seq<string>, i: nat, x: string)
    requires i < |segs|
    ensures |Concat(segs[i := x])| == |Concat(segs)| - |segs[i]| + |x|
  {
    ConcatSplit(segs, i);
    ConcatSplit(segs[i := x], i);
    assert segs[i := x][..i] == segs[..i];
    assert segs[i := x][i + 1..] == segs[i + 1..];
  }

  // ---------------------------------------------------------------------
  // join / split / number formatting
  // ---------------------------------------------------------------------

  /** `Array.prototype.join(sep)`. */
  function Join(parts: seq<string>, sep: string): (r: string)
    ensures parts == [] ==> r == []
    ensures |parts| == 1 ==> r == parts[0]
  {
    if parts == [] then []
    else if |parts| == 1 then parts[0]
    else parts[0] + sep + Join(parts[1..], sep)
  }

  /** `String.prototype.split(sep)` for a one-character separator. */
  function Split(s: string, sep: char): (r: seq<string>)
    ensures |r| >= 1
    ensures forall i :: 0 <= i < |r| ==> sep !in r[i]
  {
    if sep !in s then [s]
    else
      var k := IndexOf(s, sep);
      [s[..k]] + Split(s[k + 1..], sep)
  }

  function IndexOf(s: string, c: char): (k: nat)
    requires c in s
    ensures k < |s| && s[k] == c && c !in s[..k]
  {
    if s[0] == c then 0 else 1 + IndexOf(s[1..], c)
  }

  /** Splitting and joining again on the same separator gives back the input. */
  lemma {:induction false} JoinSplit(s: string, sep: char)
    ensures Join(Split(s, sep), [sep]) == s
    decreases |s|
  {
    if sep in s {
      var k := IndexOf(s, sep);
      var rest := Split(s[k + 1..], sep);
      JoinSplit(s[k + 1..], sep);
      JoinCons(s[..k], rest, [sep]);
      assert s == s[..k] + [sep] + s[k + 1..];
    }
  }

  lemma JoinCons(head: string, rest: seq<string>, sep: string)
    requires rest != []
    ensures Join([head] + rest, sep) == head + sep + Join(rest, sep)
  {
    assert ([head] + rest)[1..] == rest;
  }

  /** Number of occurrences of `c` in `s`. */
  function Count(s: string, c: char): nat {
    if s == [] then 0 else (if s[0] == c then 1 else 0) + Count(s[1..], c)
  }

  /** `split` yields one more piece than there are separators. */
  lemma {:induction false} SplitLength(s: string, sep: char)
    ensures |Split(s, sep)| == Count(s, sep) + 1
    decreases |s|
  {
    if sep !in s {
      CountAbsent(s, sep);
    } else {
      var k := IndexOf(s, sep);
      SplitLength(s[k + 1..], sep);
      CountAt(s, sep, k);
    }
  }

  lemma {:induction false} CountAbsent(s: string, c: char)
    requires c !in s
    ensures Count(s, c) == 0
  {
    if s != [] {
      CountAbsent(s[1..], c);
    }
  }

  lemma {:induction false} CountAt(s: string, c: char, k: nat)
    requires k < |s| && s[k] == c && c !in s[..k]
    ensures Count(s, c) == 1 + Count(s[k + 1..], c)
  {
    if k > 0 {
      assert s[1..][..k - 1] == s[1..k];
      assert s[1..][k..] == s[k + 1..];
      CountAt(s[1..], c, k - 1);
    }
  }

  function DigitChar(d: nat): char
    requires d < 10
  {
    ['0', '1', '2', '3', '4', '5', '6', '7', '8', '9'][d]
  }

  /** Decimal rendering of a natural number, as `String(n)` does. */
  function NatToString(n: nat): (r: string)
    ensures |r| >= 1
  {
    if n < 10 then [DigitChar(n)] else NatToString(n / 10) + [DigitChar(n % 10)]
  }

  /** Decimal rendering of an integer with a leading '-' when negative. */
  function IntToString(i: int): (r: string)
    ensures |r| >= 1
    ensures (r[0] == '-') <==> i < 0
  {
    if i < 0 then "-" + NatToString(-i)
    else
      var r := NatToString(i);
      assert r[0] != '-' by { NatToStringDigits(i); }
      r
  }

  predicate IsDigit(c: char) {
    '0' <= c <= '9'
  }

  lemma {:induction false} NatToStringDigits(n: nat)
    ensures forall i :: 0 <= i < |NatToString(n)| ==> IsDigit(NatToString(n)[i])
  {
    if n >= 10 {
      NatToStringDigits(n / 10);
    }
  }

  /** The value of a string of decimal digits, most significant first. */
  function DigitsValue(d: string): nat
    requires forall i :: 0 <= i < |d| ==> IsDigit(d[i])
  {
    if d == [] then 0
    else
      assert IsDigit(d[|d| - 1]);
      10 * DigitsValue(d[..|d| - 1]) + (d[|d| - 1] as int - '0' as int)
  }

  /** Reading a rendering back gives the number: the rendering is injective. */
  lemma {:induction false} DigitsValueOfNat(n: nat)
    ensures forall i :: 0 <= i < |NatToString(n)| ==> IsDigit(NatToString(n)[i])
    ensures DigitsValue(NatToString(n)) == n
  {
    NatToStringDigits(n);
    if n >= 10 {
      DigitsValueOfNat(n / 10);
      var d := NatToString(n);
      assert d[..|d| - 1] == NatToString(n / 10);
    }
  }

  lemma NatToStringInjective(a: nat, b: nat)
    requires NatToString(a) == NatToString(b)
    ensures a == b
  {
    DigitsValueOfNat(a);
    DigitsValueOfNat(b);
  }

  /** ASCII case folding (`toLowerCase` restricted to A-Z). */
  function LowerAscii(s: string): (r: string)
    ensures |r| == |s|
    ensures forall i :: 0 <= i < |s| ==> r[i] == (if 'A' <= s[i] <= 'Z' then (s[i] as int + 32) as char else s[i])
  {
    if s == [] then [] else
      [if 'A' <= s[0] <= 'Z' then (s[0] as int + 32) as char else s[0]] + LowerAscii(s[1..])
  }
}
