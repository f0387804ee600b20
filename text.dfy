/**
 * The few functions of Go's `strings`, `unicode` and `fmt` packages that the
 * sandbox code relies on, over Dafny strings (sequences of Unicode scalar values).
 */
module Text {

  /** Go's `unicode.IsSpace`: the Latin-1 spaces and the other White_Space code points. */
  predicate IsSpace(c: char) {
    || c == ' ' || c == '\t' || c == '\n' || c == '\U{000B}' || c == '\U{000C}' || c == '\r'
    || c == '\U{0085}' || c == '\U{00A0}' || c == '\U{1680}'
    || ('\U{2000}' <= c <= '\U{200A}')
    || c == '\U{2028}' || c == '\U{2029}' || c == '\U{202F}' || c == '\U{205F}' || c == '\U{3000}'
  }

  ghost predicate AllSpace(s: string) {
    forall k :: 0 <= k < |s| ==> IsSpace(s[k])
  }

  /** Number of white-space characters that open `s`. */
  function LeadingSpace(s: string): (n: nat)
    ensures n <= |s|
    ensures AllSpace(s[..n])
    ensures n < |s| ==> !IsSpace(s[n])
  {
    if s == [] || !IsSpace(s[0]) then 0
    else
      var m := LeadingSpace(s[1..]);
      assert forall k :: 1 <= k < 1 + m ==> s[k] == s[1..][..m][k - 1];
      1 + m
  }

  /** Number of white-space characters that close `s`. */
  function TrailingSpace(s: string): (n: nat)
    ensures n <= |s|
    ensures AllSpace(s[|s| - n..])
    ensures n < |s| ==> !IsSpace(s[|s| - n - 1])
  {
    if s == [] || !IsSpace(s[|s| - 1]) then 0
    else
      var init := s[..|s| - 1];
      var m := TrailingSpace(init);
      assert forall k :: |s| - 1 - m <= k < |s| - 1 ==> s[k] == init[|init| - m..][k - (|s| - 1 - m)];
      1 + m
  }

  /**
   * Go's `strings.TrimSpace`: `s` without its leading and trailing white space.
   * The result is the stretch of `s` that starts after the leading white space,
   * everything after it is white space, and it neither starts nor ends with white space.
   */
  function TrimSpace(s: string): (r: string)
    ensures LeadingSpace(s) + |r| <= |s|
    ensures r == s[LeadingSpace(s)..LeadingSpace(s) + |r|]
    ensures AllSpace(s[LeadingSpace(s) + |r|..])
    ensures r != [] ==> !IsSpace(r[0]) && !IsSpace(r[|r| - 1])
  {
    var i := LeadingSpace(s);
    var t := s[i..];
    var n := TrailingSpace(t);
    var r := t[..|t| - n];
    assert r == s[i..i + |r|];
    assert s[i + |r|..] == t[|t| - n..];
    assert r != [] ==> r[0] == s[i] && r[|r| - 1] == t[|t| - n - 1];
    r
  }

  lemma {:induction false} LeadingSpaceOfPadded(pre: string, rest: string)
    requires AllSpace(pre)
    ensures LeadingSpace(pre + rest) == |pre| + LeadingSpace(rest)
  {
    if pre != [] {
      assert (pre + rest)[0] == pre[0] && IsSpace(pre[0]);
      assert (pre + rest)[1..] == pre[1..] + rest;
      LeadingSpaceOfPadded(pre[1..], rest);
      assert LeadingSpace(pre + rest) == 1 + LeadingSpace(pre[1..] + rest);
    } else {
      assert pre + rest == rest;
    }
  }

  lemma {:induction false} TrailingSpaceOfPadded(rest: string, post: string)
    requires AllSpace(post)
    ensures TrailingSpace(rest + post) == TrailingSpace(rest) + |post|
  {
    if post != [] {
      var init := post[..|post| - 1];
      assert (rest + post)[|rest + post| - 1] == post[|post| - 1] && IsSpace(post[|post| - 1]);
      assert (rest + post)[..|rest + post| - 1] == rest + init;
      TrailingSpaceOfPadded(rest, init);
      assert TrailingSpace(rest + post) == 1 + TrailingSpace(rest + init);
    } else {
      assert rest + post == rest;
    }
  }

  /**
   * Trimming undoes padding: white space added around a text that neither starts
   * nor ends with white space is exactly what TrimSpace removes.
   */
  lemma {:induction false} TrimSpaceOfPadded(pre: string, core: string, post: string)
    requires AllSpace(pre) && AllSpace(post)
    requires core != [] ==> !IsSpace(core[0]) && !IsSpace(core[|core| - 1])
    ensures TrimSpace(pre + core + post) == core
  {
    var s := pre + core + post;
    assert s == pre + (core + post);
    LeadingSpaceOfPadded(pre, core + post);
    if core == [] {
      assert LeadingSpace(post) == |post| by { LeadingSpaceOfPadded(post, []); assert post + [] == post; }
      assert LeadingSpace(s) == |s|;
    } else {
      assert LeadingSpace(core + post) == 0;
      var t := s[LeadingSpace(s)..];
      assert t == core + post;
      TrailingSpaceOfPadded(core, post);
      assert TrailingSpace(core) == 0;
      assert t[..|t| - TrailingSpace(t)] == core;
    }
  }

  /** Trimming twice is trimming once. */
  lemma TrimSpaceIdempotent(s: string)
    ensures TrimSpace(TrimSpace(s)) == TrimSpace(s)
  {
    var r := TrimSpace(s);
    assert [] + r + [] == r;
    TrimSpaceOfPadded([], r, []);
  }

  /**
   * Go's `unicode.ToLower` on the code points whose lower case is ASCII: `A`-`Z`,
   * U+0130 (capital I with dot above, lower case `i`) and U+212A (Kelvin sign,
   * lower case `k`). Every other code point is left as it is here, although Go
   * lowers the other cased letters too (`É` to `é`, `Σ` to `σ`).
   */
  function LowerChar(c: char): char {
    if 'A' <= c <= 'Z' then (c as int + 32) as char
    else if c == '\U{0130}' then 'i'
    else if c == '\U{212A}' then 'k'
    else c
  }

  /**
   * Go's `strings.ToLower` as far as the result can be ASCII: each code point is
   * lowered on its own by LowerChar, so a result character is an ASCII letter
   * exactly when Go's would be.
   */
  function ToLower(s: string): (r: string)
    ensures |r| == |s|
    ensures forall k :: 0 <= k < |s| ==> r[k] == LowerChar(s[k])
  {
    if s == [] then [] else [LowerChar(s[0])] + ToLower(s[1..])
  }

  lemma LowerCharIdempotent(c: char)
    ensures !('A' <= LowerChar(c) <= 'Z')
    ensures LowerChar(LowerChar(c)) == LowerChar(c)
  {
  }

  /** Lower-casing leaves no ASCII capital and is idempotent. */
  lemma ToLowerIdempotent(s: string)
    ensures forall k :: 0 <= k < |s| ==> !('A' <= ToLower(s)[k] <= 'Z')
    ensures ToLower(ToLower(s)) == ToLower(s)
  {
    var r := ToLower(s);
    forall k | 0 <= k < |s|
      ensures !('A' <= r[k] <= 'Z') && ToLower(r)[k] == r[k]
    {
      LowerCharIdempotent(s[k]);
    }
  }

  /** Go's `strings.HasPrefix`. */
  predicate HasPrefix(s: string, prefix: string) {
    |prefix| <= |s| && s[..|prefix|] == prefix
  }

  /** Go's `strings.HasSuffix`. */
  predicate HasSuffix(s: string, suffix: string) {
    |suffix| <= |s| && s[|s| - |suffix|..] == suffix
  }

  lemma PrefixOfConcat(a: string, b: string)
    ensures HasPrefix(a + b, a)
  {
    assert (a + b)[..|a|] == a;
  }

  lemma SuffixOfConcat(a: string, b: string)
    ensures HasSuffix(a + b, b)
  {
    assert (a + b)[|a + b| - |b|..] == b;
  }

  /** Putting the same text in front of a string and of its prefix keeps it a prefix. */
  lemma PrefixOfPrefixed(a: string, p: string, s: string)
    requires HasPrefix(s, p)
    ensures HasPrefix(a + s, a + p)
  {
    assert (a + s)[..|a + p|] == a + s[..|p|];
  }

  /** Go's `strings.Join`. */
  function Join(parts: seq<string>, sep: string): (r: string)
    ensures |parts| == 1 ==> r == parts[0]
    ensures parts == [] ==> r == ""
  {
    if |parts| == 0 then ""
    else if |parts| == 1 then parts[0]
    else parts[0] + sep + Join(parts[1..], sep)
  }

  /** Joining one more part appends the separator and that part. */
  lemma {:induction false} JoinSnoc(parts: seq<string>, x: string, sep: string)
    requires parts != []
    ensures Join(parts + [x], sep) == Join(parts, sep) + sep + x
  {
    if |parts| > 1 {
      assert (parts + [x])[1..] == parts[1..] + [x];
      JoinSnoc(parts[1..], x, sep);
    }
  }

  predicate IsDigits(s: string) {
    forall k :: 0 <= k < |s| ==> '0' <= s[k] <= '9'
  }

  function DigitChar(d: nat): (c: char)
    requires d < 10
    ensures '0' <= c <= '9'
  {
    ('0' as int + d) as char
  }

  /** Decimal digits of `n` as `fmt` prints them with `%d`: no sign, no leading zero. */
  function NatToDecimal(n: nat): (r: string)
    ensures r != [] && IsDigits(r)
    ensures r[0] == '0' ==> n == 0
    decreases n
  {
    if n < 10 then [DigitChar(n)] else NatToDecimal(n / 10) + [DigitChar(n % 10)]
  }

  /** `fmt.Sprintf("%d", i)` for an integer of either sign. */
  function IntToDecimal(i: int): (r: string)
    ensures i < 0 <==> (r != [] && r[0] == '-')
    ensures r != []
  {
    if i < 0 then "-" + NatToDecimal(-i) else NatToDecimal(i)
  }

  /** The number a string of decimal digits denotes. */
  function DigitsValue(s: string): nat
    requires IsDigits(s)
  {
    if s == [] then 0 else 10 * DigitsValue(s[..|s| - 1]) + (s[|s| - 1] as int - '0' as int)
  }

  /** Printing a number in decimal loses nothing: reading the digits back gives it again. */
  lemma {:induction false} DecimalRoundTrip(n: nat)
    ensures DigitsValue(NatToDecimal(n)) == n
  {
    if n >= 10 {
      var r := NatToDecimal(n);
      assert r[..|r| - 1] == NatToDecimal(n / 10);
      DecimalRoundTrip(n / 10);
    }
  }
}
