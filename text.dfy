/** String operations the core relies on: decimal formatting (Rust `{}` and
    `{:0N}`, JavaScript `String(n)`), digit parsing, `str::trim`,
    ASCII lowercasing, substring search and JavaScript `parseInt`. */
module Text {
  import opened Models

  // ---------------------------------------------------------------------
  // Decimal formatting and parsing

  predicate IsDigit(c: char) { '0' <= c <= '9' }

  predicate AllDigits(s: string) { forall i :: 0 <= i < |s| ==> IsDigit(s[i]) }

  function DigitChar(d: nat): (c: char)
    requires d < 10
    ensures IsDigit(c)
  {
    ('0' as int + d) as char
  }

  /** Value of one digit character in radix up to 16; 99 for anything else. */
  function DigitValue(c: char): nat
  {
    if '0' <= c <= '9' then c as int - '0' as int
    else if 'a' <= c <= 'f' then c as int - 'a' as int + 10
    else if 'A' <= c <= 'F' then c as int - 'A' as int + 10
    else 99
  }

  predicate IsRadixDigit(c: char, radix: nat) { DigitValue(c) < radix }

  /** The number a string of digits denotes in `radix`, most significant first. */
  function RadixValue(s: string, radix: nat): nat
  {
    if s == [] then 0 else RadixValue(s[..|s| - 1], radix) * radix + DigitValue(s[|s| - 1])
  }

  /** Decimal rendering of a natural number, without leading zeros. */
  function NatToString(n: nat): (s: string)
    ensures |s| >= 1 && AllDigits(s)
    ensures s[0] == '0' ==> n == 0
    decreases n
  {
    if n < 10 then [DigitChar(n)] else NatToString(n / 10) + [DigitChar(n % 10)]
  }

  /** JavaScript `String(n)` and `n.toString()` of an integral number. */
  function IntToString(n: int): (s: string)
    ensures |s| >= 1
    ensures n >= 0 ==> AllDigits(s)
    ensures n < 0 ==> s[0] == '-' && AllDigits(s[1..])
  {
    if n < 0 then "-" + NatToString(-n) else NatToString(n)
  }

  lemma {:induction false} NatToStringRoundTrip(n: nat)
    ensures RadixValue(NatToString(n), 10) == n
    decreases n
  {
    var s := NatToString(n);
    if n < 10 {
      assert s[..0] == [];
    } else {
      NatToStringRoundTrip(n / 10);
      assert s[..|s| - 1] == NatToString(n / 10);
    }
  }

  function Pow10(k: nat): (p: nat)
    ensures p >= 1
  {
    if k == 0 then 1 else 10 * Pow10(k - 1)
  }

  /** A number below 10^k takes at most k digits. */
  lemma {:induction false} NatToStringAtMost(n: nat, k: nat)
    requires k >= 1 && n < Pow10(k)
    ensures |NatToString(n)| <= k
    decreases n
  {
    if n >= 10 {
      assert Pow10(1) == 10;
      assert n / 10 < Pow10(k - 1);
      NatToStringAtMost(n / 10, k - 1);
    }
  }

  /** A number of at least 10^(k-1) takes at least k digits. */
  lemma {:induction false} NatToStringAtLeast(n: nat, k: nat)
    requires k >= 1 && Pow10(k - 1) <= n
    ensures |NatToString(n)| >= k
    decreases n
  {
    if k >= 2 {
      assert n >= 10 by {
        var j := k - 1;
        assert Pow10(j) == 10 * Pow10(j - 1);
      }
      assert Pow10(k - 2) <= n / 10;
      NatToStringAtLeast(n / 10, k - 1);
    }
  }

  function Zeros(k: nat): (z: string)
    ensures |z| == k && forall i :: 0 <= i < k ==> z[i] == '0'
  {
    if k == 0 then [] else ['0'] + Zeros(k - 1)
  }

  /** Rust `format!("{:0w}", ...)` of an already rendered number: left-padded
      with zeros to at least `w` characters. */
  function ZeroPad(s: string, w: nat): (r: string)
    ensures |r| == if |s| >= w then |s| else w
    ensures AllDigits(s) ==> AllDigits(r)
  {
    if |s| >= w then s else Zeros(w - |s|) + s
  }

  lemma {:induction false} ZerosValue(k: nat)
    ensures RadixValue(Zeros(k), 10) == 0
    decreases k
  {
    if k > 0 {
      var z := Zeros(k);
      assert z[..k - 1] == Zeros(k - 1);
      ZerosValue(k - 1);
    }
  }

  /** Leading zeros do not change a decimal value. */
  lemma {:induction false} LeadingZerosValue(k: nat, s: string)
    ensures RadixValue(Zeros(k) + s, 10) == RadixValue(s, 10)
    decreases |s|
  {
    if s == [] {
      assert Zeros(k) + s == Zeros(k);
      ZerosValue(k);
    } else {
      var t := Zeros(k) + s;
      assert t[..|t| - 1] == Zeros(k) + s[..|s| - 1];
      LeadingZerosValue(k, s[..|s| - 1]);
    }
  }

  /** What `{:0w}` promises: the padded rendering still denotes `n`. */
  lemma ZeroPadRoundTrip(n: nat, w: nat)
    ensures RadixValue(ZeroPad(NatToString(n), w), 10) == n
  {
    NatToStringRoundTrip(n);
    var s := NatToString(n);
    if |s| < w { LeadingZerosValue(w - |s|, s); }
  }

  // ---------------------------------------------------------------------
  // Whitespace and trimming

  /** Rust `char::is_whitespace`: the Unicode White_Space property. */
  predicate IsRustWhitespace(c: char)
  {
    ('\t' <= c <= '\r') || c == ' ' || c == '\U{0085}' || c == '\U{00A0}' || c == '\U{1680}'
    || ('\U{2000}' <= c <= '\U{200A}') || c == '\U{2028}' || c == '\U{2029}'
    || c == '\U{202F}' || c == '\U{205F}' || c == '\U{3000}'
  }

  /** The characters JavaScript's `parseInt` skips: WhiteSpace and LineTerminator. */
  predicate IsJsWhitespace(c: char)
  {
    ('\t' <= c <= '\r') || c == ' ' || c == '\U{00A0}' || c == '\U{1680}'
    || ('\U{2000}' <= c <= '\U{200A}') || c == '\U{2028}' || c == '\U{2029}'
    || c == '\U{202F}' || c == '\U{205F}' || c == '\U{3000}' || c == '\U{FEFF}'
  }

  /** Drops the leading characters satisfying `ws`; what remains is a suffix
      of `s` that does not start with one, and everything dropped was one. */
  function TrimStartBy(s: string, ws: char -> bool): (r: string)
    ensures |r| <= |s| && r == s[|s| - |r|..]
    ensures r == [] || !ws(r[0])
    ensures forall i :: 0 <= i < |s| - |r| ==> ws(s[i])
  {
    if s != [] && ws(s[0]) then TrimStartBy(s[1..], ws) else s
  }

  /** Strips the leading, then the trailing, characters satisfying `ws`. */
  function TrimBy(s: string, ws: char -> bool): string
  {
    if s != [] && ws(s[0]) then TrimBy(s[1..], ws)
    else if s != [] && ws(s[|s| - 1]) then TrimBy(s[..|s| - 1], ws)
    else s
  }

  /** Rust `str::trim`: what remains is no longer than the input and has no
      whitespace at either end. */
  function Trim(s: string): (r: string)
    ensures |r| <= |s|
    ensures r == [] || (!IsRustWhitespace(r[0]) && !IsRustWhitespace(r[|r| - 1]))
  {
    TrimEnds(s, IsRustWhitespace);
    TrimSlice(s, IsRustWhitespace);
    TrimBy(s, IsRustWhitespace)
  }

  /** Trimming leaves no `ws` character at either end. */
  lemma {:induction false} TrimEnds(s: string, ws: char -> bool)
    ensures var t := TrimBy(s, ws); t == [] || (!ws(t[0]) && !ws(t[|t| - 1]))
    decreases |s|
  {
    if s != [] && ws(s[0]) {
      TrimEnds(s[1..], ws);
    } else if s != [] && ws(s[|s| - 1]) {
      TrimEnds(s[..|s| - 1], ws);
    }
  }

  /** The slice of `s` between `i` and `j` is bordered by `ws` characters only. */
  predicate Bordered(s: string, i: nat, j: nat, ws: char -> bool)
    requires i <= j <= |s|
  {
    (forall k :: 0 <= k < i ==> ws(s[k])) && (forall k :: j <= k < |s| ==> ws(s[k]))
  }

  /** What trimming keeps: a slice of the input with only `ws` characters cut
      off on either side. */
  lemma {:induction false} TrimSlice(s: string, ws: char -> bool)
    ensures exists i: nat, j: nat :: i <= j <= |s| && TrimBy(s, ws) == s[i..j] && Bordered(s, i, j, ws)
    decreases |s|
  {
    if s != [] && ws(s[0]) {
      var t := s[1..];
      TrimSlice(t, ws);
      var i: nat, j: nat :| i <= j <= |t| && TrimBy(t, ws) == t[i..j] && Bordered(t, i, j, ws);
      assert t[i..j] == s[i + 1..j + 1];
      forall k | 0 < k < |s| ensures s[k] == t[k - 1] { }
      assert Bordered(s, i + 1, j + 1, ws);
    } else if s != [] && ws(s[|s| - 1]) {
      var t := s[..|s| - 1];
      TrimSlice(t, ws);
      var i: nat, j: nat :| i <= j <= |t| && TrimBy(t, ws) == t[i..j] && Bordered(t, i, j, ws);
      assert t[i..j] == s[i..j];
      assert Bordered(s, i, j, ws);
    } else {
      assert TrimBy(s, ws) == s[0..|s|];
      assert Bordered(s, 0, |s|, ws);
    }
  }

  // ---------------------------------------------------------------------
  // Lowercasing and substring search

  /** Lowercasing of ASCII letters; every other character is kept. */
  function ToLower(s: string): (r: string)
    ensures |r| == |s|
    ensures forall i :: 0 <= i < |s| ==>
      r[i] == if 'A' <= s[i] <= 'Z' then (s[i] as int + 32) as char else s[i]
  {
    if s == [] then []
    else [if 'A' <= s[0] <= 'Z' then (s[0] as int + 32) as char else s[0]] + ToLower(s[1..])
  }

  predicate IsPrefix(n: string, h: string) { |n| <= |h| && h[..|n|] == n }

  /** `n` occurs in `h` starting at position `i`. */
  predicate OccursAt(n: string, h: string, i: nat) { i + |n| <= |h| && h[i..i + |n|] == n }

  /** Rust `str::contains` with a string pattern (the empty pattern is
      contained in everything). */
  function Contains(h: string, n: string): bool
  {
    IsPrefix(n, h) || (h != [] && Contains(h[1..], n))
  }

  lemma {:induction false} ContainsIffOccurs(h: string, n: string)
    ensures Contains(h, n) <==> exists i: nat :: OccursAt(n, h, i)
    decreases |h|
  {
    if IsPrefix(n, h) {
      assert OccursAt(n, h, 0);
    } else if h == [] {
      forall i: nat ensures !OccursAt(n, h, i) { }
    } else {
      ContainsIffOccurs(h[1..], n);
      if Contains(h[1..], n) {
        var i: nat :| OccursAt(n, h[1..], i);
        assert h[1..][i..i + |n|] == h[i + 1..i + 1 + |n|];
        assert OccursAt(n, h, i + 1);
      } else {
        assert !OccursAt(n, h, 0);
        forall i: nat | i >= 1 && OccursAt(n, h, i) ensures OccursAt(n, h[1..], i - 1) {
          assert h[1..][i - 1..i - 1 + |n|] == h[i..i + |n|];
        }
      }
    }
  }

  /** A string always contains what was spliced into it. */
  lemma {:induction false} ContainsInfix(a: string, n: string, b: string)
    ensures Contains(a + n + b, n)
    decreases |a|
  {
    if a == [] {
      assert a + n + b == n + b;
      assert (n + b)[..|n|] == n;
    } else {
      assert (a + n + b)[1..] == a[1..] + n + b;
      ContainsInfix(a[1..], n, b);
    }
  }

  // ---------------------------------------------------------------------
  // JavaScript parseInt (no radix argument)

  /** The longest prefix of `s` made of radix digits. */
  function DigitPrefix(s: string, radix: nat): (z: string)
    ensures |z| <= |s| && z == s[..|z|]
    ensures forall i :: 0 <= i < |z| ==> IsRadixDigit(z[i], radix)
    ensures |z| < |s| ==> !IsRadixDigit(s[|z|], radix)
  {
    if s == [] || !IsRadixDigit(s[0], radix) then [] else [s[0]] + DigitPrefix(s[1..], radix)
  }

  /** The value of the longest run of radix digits at the start of `u`;
      None when there is none. */
  function ReadDigits(u: string, radix: nat): (r: Option<nat>)
    ensures r.None? <==> u == [] || !IsRadixDigit(u[0], radix)
  {
    var z := DigitPrefix(u, radix);
    if z == [] then None else Some(RadixValue(z, radix))
  }

  /** The unsigned part of `parseInt`: a `0x`/`0X` prefix selects radix 16. */
  function ReadUnsigned(u: string): Option<nat>
  {
    if |u| >= 2 && u[0] == '0' && (u[1] == 'x' || u[1] == 'X') then ReadDigits(u[2..], 16)
    else ReadDigits(u, 10)
  }

  /** `parseInt(s)` without a radix: leading JavaScript whitespace is skipped,
      one sign is taken, a `0x`/`0X` prefix selects radix 16, and the longest
      run of digits that follows is read; None stands for NaN. */
  function ParseInt(s: string): (r: Option<int>)
    ensures var t := TrimStartBy(s, IsJsWhitespace);
      && (t == [] ==> r.None?)
      && (t != [] && !IsDigit(t[0]) && t[0] != '-' && t[0] != '+' ==> r.None?)
      && (r.Some? && r.value < 0 ==> t[0] == '-')
  {
    var t := TrimStartBy(s, IsJsWhitespace);
    if |t| > 0 && t[0] == '-' then
      match ReadUnsigned(t[1..])
      case None => None
      case Some(v) => Some(0 - v)
    else if |t| > 0 && t[0] == '+' then
      match ReadUnsigned(t[1..])
      case None => None
      case Some(v) => Some(v)
    else
      match ReadUnsigned(t)
      case None => None
      case Some(v) => Some(v)
  }

  lemma DigitPrefixOfDigits(s: string)
    requires AllDigits(s)
    ensures DigitPrefix(s, 10) == s
  {
    assert forall i :: 0 <= i < |s| ==> IsRadixDigit(s[i], 10);
  }

  /** A decimal rendering reads back through the unsigned part of `parseInt`. */
  lemma ReadUnsignedOfNat(m: nat)
    ensures ReadUnsigned(NatToString(m)) == Some(m)
  {
    var d := NatToString(m);
    NatToStringRoundTrip(m);
    DigitPrefixOfDigits(d);
    assert d[0] != '0' || |d| == 1;
  }

  /** Reading back what `String(n)` wrote gives `n`. */
  lemma ParseIntRoundTrip(n: int)
    ensures ParseInt(IntToString(n)) == Some(n)
  {
    var m: nat := if n < 0 then -n else n;
    var s := IntToString(n);
    ReadUnsignedOfNat(m);
    assert TrimStartBy(s, IsJsWhitespace) == s by {
      assert !IsJsWhitespace(s[0]);
    }
    if n < 0 {
      assert s[1..] == NatToString(m);
    }
  }
}
