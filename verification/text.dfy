/**
 * The pieces of Go's `strings` and `fmt` packages that the core relies on:
 * decimal formatting (`%d`), prefix and suffix trimming, ASCII case mapping,
 * white-space trimming and leftmost substring search.
 */
module Text {
  import opened Common

  // ---------------------------------------------------------------------------
  // Decimal numbers, as fmt's %d verb writes them
  // ---------------------------------------------------------------------------

  predicate IsDigit(c: char) { '0' <= c <= '9' }

  predicate AllDigits(s: string) { forall i | 0 <= i < |s| :: IsDigit(s[i]) }

  function DigitChar(d: nat): (c: char)
    requires d < 10
  {
    (48 + d) as char
  }

  function DigitValue(c: char): nat
    requires IsDigit(c)
  {
    c as int - 48
  }

  /** The decimal digits of n, most significant first. */
  function NatDigits(n: nat): string
    decreases n
  {
    if n < 10 then [DigitChar(n)] else NatDigits(n / 10) + [DigitChar(n % 10)]
  }

  /** `fmt.Sprintf("%d", n)`: a minus sign for negative numbers, then the digits of |n|. */
  function Decimal(n: int): string
  {
    if n < 0 then "-" + NatDigits(-n) else NatDigits(n)
  }

  /** The number a run of digits denotes. */
  function DigitsValue(s: string): nat
    requires AllDigits(s)
    decreases |s|
  {
    if s == [] then 0 else DigitsValue(s[..|s| - 1]) * 10 + DigitValue(s[|s| - 1])
  }

  /** Reads back a decimal numeral: optional minus sign, then at least one digit. */
  function ParseDecimal(s: string): Option<int>
  {
    if |s| > 1 && s[0] == '-' && AllDigits(s[1..]) then Some(0 - DigitsValue(s[1..]) as int)
    else if |s| > 0 && AllDigits(s) then Some(DigitsValue(s))
    else None
  }

  /** NatDigits writes a non-empty run of digits without a leading zero that denotes n. */
  lemma {:induction false} NatDigitsCorrect(n: nat)
    ensures |NatDigits(n)| > 0 && AllDigits(NatDigits(n))
    ensures DigitsValue(NatDigits(n)) == n
    ensures NatDigits(n)[0] != '0' || n == 0
    decreases n
  {
    if n >= 10 {
      NatDigitsCorrect(n / 10);
      var s := NatDigits(n / 10);
      var t := NatDigits(n);
      assert t == s + [DigitChar(n % 10)];
      assert t[..|t| - 1] == s;
      assert DigitValue(t[|t| - 1]) == n % 10;
    }
  }

  /** Decimal and ParseDecimal are inverse: the text %d writes identifies the number. */
  lemma DecimalRoundTrip(n: int)
    ensures ParseDecimal(Decimal(n)) == Some(n)
  {
    if n < 0 {
      NatDigitsCorrect(-n);
      var d := Decimal(n);
      assert d[1..] == NatDigits(-n);
      assert d[0] == '-';
    } else {
      NatDigitsCorrect(n);
    }
  }

  /** Decimal text is made of digits and at most a leading minus sign, never a comma. */
  lemma DecimalHasNoComma(n: int)
    ensures |Decimal(n)| > 0
    ensures forall i | 0 <= i < |Decimal(n)| :: Decimal(n)[i] != ','
  {
    if n < 0 {
      NatDigitsCorrect(-n);
      var d := Decimal(n);
      forall i | 0 <= i < |d| ensures d[i] != ',' {
        if i > 0 { assert d[i] == NatDigits(-n)[i - 1]; }
      }
    } else {
      NatDigitsCorrect(n);
    }
  }

  /** Zero-padded decimal of at least `width` digits, as the time package pads fields. */
  function Padded(n: nat, width: nat): (s: string)
  {
    var d := NatDigits(n);
    if |d| >= width then d else seq(width - |d|, _ => '0') + d
  }

  // ---------------------------------------------------------------------------
  // Prefixes and suffixes (strings.HasPrefix, TrimPrefix, TrimSuffix)
  // ---------------------------------------------------------------------------

  predicate HasPrefix(s: string, p: string) { |p| <= |s| && s[..|p|] == p }

  predicate HasSuffix(s: string, x: string) { |x| <= |s| && s[|s| - |x|..] == x }

  function TrimSuffix(s: string, x: string): string
  {
    if HasSuffix(s, x) then s[..|s| - |x|] else s
  }

  // ---------------------------------------------------------------------------
  // Case mapping and case-insensitive comparison (ASCII letters)
  // ---------------------------------------------------------------------------

  function LowerChar(c: char): char
  {
    if 'A' <= c <= 'Z' then (c as int + 32) as char else c
  }

  /** strings.ToLower on ASCII letters. */
  function ToLower(s: string): (r: string)
  {
    seq(|s|, i requires 0 <= i < |s| => LowerChar(s[i]))
  }

  /** strings.EqualFold, comparing one character at a time as the library loop does. */
  function EqualFold(a: string, b: string): bool
    decreases |a|
  {
    if a == [] || b == [] then a == b
    else LowerChar(a[0]) == LowerChar(b[0]) && EqualFold(a[1..], b[1..])
  }

  /** Reference definition: two strings are equal up to case iff their lower-case forms agree. */
  lemma {:induction false} EqualFoldIsLowerEquality(a: string, b: string)
    ensures EqualFold(a, b) <==> ToLower(a) == ToLower(b)
    decreases |a|
  {
    if a != [] && b != [] {
      EqualFoldIsLowerEquality(a[1..], b[1..]);
      assert ToLower(a) == [LowerChar(a[0])] + ToLower(a[1..]);
      assert ToLower(b) == [LowerChar(b[0])] + ToLower(b[1..]);
      if ToLower(a) == ToLower(b) {
        assert ToLower(a)[0] == ToLower(b)[0];
        assert ToLower(a)[1..] == ToLower(a[1..]);
        assert ToLower(b)[1..] == ToLower(b[1..]);
      }
    }
  }

  // ---------------------------------------------------------------------------
  // White space (unicode.IsSpace) and strings.TrimSpace
  // ---------------------------------------------------------------------------

  /** The characters unicode.IsSpace accepts. */
  predicate IsSpace(c: char)
  {
    var n := c as int;
    (9 <= n <= 13) || n == 32 || n == 0x85 || n == 0xA0 || n == 0x1680
    || (0x2000 <= n <= 0x200A) || n == 0x2028 || n == 0x2029 || n == 0x202F
    || n == 0x205F || n == 0x3000
  }

  function TrimLeftSpace(s: string): string
    decreases |s|
  {
    if |s| > 0 && IsSpace(s[0]) then TrimLeftSpace(s[1..]) else s
  }

  function TrimRightSpace(s: string): string
    decreases |s|
  {
    if |s| > 0 && IsSpace(s[|s| - 1]) then TrimRightSpace(s[..|s| - 1]) else s
  }

  function TrimSpace(s: string): string
  {
    TrimRightSpace(TrimLeftSpace(s))
  }

  /** TrimLeftSpace cuts white space only, and keeps a suffix of its input that does not start with white space. */
  lemma {:induction false} TrimLeftSpaceIsSuffix(s: string)
    ensures |TrimLeftSpace(s)| <= |s| && TrimLeftSpace(s) == s[|s| - |TrimLeftSpace(s)|..]
    ensures TrimLeftSpace(s) == [] || !IsSpace(TrimLeftSpace(s)[0])
    ensures forall i | 0 <= i < |s| - |TrimLeftSpace(s)| :: IsSpace(s[i])
    decreases |s|
  {
    if |s| > 0 && IsSpace(s[0]) {
      TrimLeftSpaceIsSuffix(s[1..]);
      var t := TrimLeftSpace(s[1..]);
      assert s[1..][|s[1..]| - |t|..] == s[|s| - |t|..];
      forall i | 1 <= i < |s| - |t| ensures IsSpace(s[i]) {
        assert s[i] == s[1..][i - 1];
      }
    }
  }

  /** TrimRightSpace cuts white space only, and keeps a prefix of its input that does not end with white space. */
  lemma {:induction false} TrimRightSpaceIsPrefix(s: string)
    ensures |TrimRightSpace(s)| <= |s| && TrimRightSpace(s) == s[..|TrimRightSpace(s)|]
    ensures TrimRightSpace(s) == [] || !IsSpace(TrimRightSpace(s)[|TrimRightSpace(s)| - 1])
    ensures forall i | |TrimRightSpace(s)| <= i < |s| :: IsSpace(s[i])
    decreases |s|
  {
    if |s| > 0 && IsSpace(s[|s| - 1]) {
      var t := s[..|s| - 1];
      TrimRightSpaceIsPrefix(t);
      assert t[..|TrimRightSpace(t)|] == s[..|TrimRightSpace(t)|];
      forall i | |TrimRightSpace(t)| <= i < |t| ensures IsSpace(s[i]) {
        assert s[i] == t[i];
      }
    }
  }

  /**
   * TrimSpace keeps a contiguous slice of its input that neither starts nor
   * ends with white space, and everything it cuts off on either side is
   * white space.
   */
  lemma TrimSpaceIsSlice(s: string)
    ensures exists a, b :: 0 <= a <= b <= |s| && TrimSpace(s) == s[a..b]
                           && forall i | 0 <= i < a || b <= i < |s| :: IsSpace(s[i])
    ensures TrimSpace(s) == [] || (!IsSpace(TrimSpace(s)[0]) && !IsSpace(TrimSpace(s)[|TrimSpace(s)| - 1]))
  {
    var l := TrimLeftSpace(s);
    TrimLeftSpaceIsSuffix(s);
    TrimRightSpaceIsPrefix(l);
    var a := |s| - |l|;
    var r := TrimSpace(s);
    var b := a + |r|;
    assert r == l[..|r|];
    assert l[..|r|] == s[a..b];
    forall i | b <= i < |s| ensures IsSpace(s[i]) {
      assert s[i] == l[i - a];
    }
    if r != [] {
      assert r[0] == l[0];
    }
  }

  /** A string without white space at either end is left alone by TrimSpace. */
  lemma TrimSpaceOfTrimmed(s: string)
    requires s == [] || (!IsSpace(s[0]) && !IsSpace(s[|s| - 1]))
    ensures TrimSpace(s) == s
  {
  }

  // ---------------------------------------------------------------------------
  // Leftmost occurrence of a substring (strings.Index)
  // ---------------------------------------------------------------------------

  predicate OccursAt(s: string, sub: string, i: nat)
  {
    i + |sub| <= |s| && s[i..i + |sub|] == sub
  }

  /** The first position at or after `from` where sub occurs in s. */
  function IndexFrom(s: string, sub: string, from: nat): (r: Option<nat>)
    ensures r.Some? ==> from <= r.value && r.value + |sub| <= |s|
    decreases |s| - from
  {
    if from + |sub| > |s| then None
    else if OccursAt(s, sub, from) then Some(from)
    else IndexFrom(s, sub, from + 1)
  }

  function Index(s: string, sub: string): (r: Option<nat>)
    ensures r.Some? ==> r.value + |sub| <= |s|
  {
    IndexFrom(s, sub, 0)
  }

  /** Index finds an occurrence exactly when there is one, and the leftmost one. */
  lemma {:induction false} IndexFromLeftmost(s: string, sub: string, from: nat)
    ensures IndexFrom(s, sub, from).Some? ==>
              var i := IndexFrom(s, sub, from).value;
              from <= i && OccursAt(s, sub, i) && forall j | from <= j < i :: !OccursAt(s, sub, j)
    ensures IndexFrom(s, sub, from).None? ==> forall j | from <= j :: !OccursAt(s, sub, j)
    decreases |s| - from
  {
    if from + |sub| <= |s| && !OccursAt(s, sub, from) {
      IndexFromLeftmost(s, sub, from + 1);
    }
  }
}
