/** Option for the components' optional props (`textNative?`, `author?`, ...). */
module Wrappers {

  datatype Option<+T> = None | Some(value: T) {

    /** The value, or `default` when the prop was omitted (a TypeScript default parameter). */
    function GetOr(default: T): T {
      match this
      case Some(v) => v
      case None => default
    }
  }
}

/**
 * The JavaScript string built-ins the components use to format labels:
 * `String(n)` of a non-negative integer, `padStart(width, "0")`, and the
 * truthiness test `s && ...` on an optional string.
 */
module Format {
  import opened Wrappers

  predicate IsDigit(c: char) {
    '0' <= c <= '9'
  }

  predicate AllDigits(s: string) {
    forall i :: 0 <= i < |s| ==> IsDigit(s[i])
  }

  function DigitChar(d: nat): (c: char)
    requires d < 10
    ensures IsDigit(c)
  {
    "0123456789"[d]
  }

  function DigitValue(c: char): (d: nat)
    requires IsDigit(c)
    ensures d < 10
  {
    (c as int - '0' as int) as nat
  }

  lemma DigitValueOfDigitChar(d: nat)
    requires d < 10
    ensures DigitValue(DigitChar(d)) == d
  {
    var digits := "0123456789";
    assert digits[d] as int - '0' as int == d;
  }

  /** `String(n)` for a non-negative integer: its decimal digits, without leading zeros. */
  function NatToString(n: nat): (s: string)
    ensures 1 <= |s|
    ensures AllDigits(s)
    ensures s[0] == '0' <==> n == 0
    decreases n
  {
    if n < 10 then [DigitChar(n)] else NatToString(n / 10) + [DigitChar(n % 10)]
  }

  /** The number a string of decimal digits denotes (leading zeros allowed). */
  function DecimalValue(s: string): nat
    requires AllDigits(s)
    decreases |s|
  {
    if s == [] then 0 else DecimalValue(s[..|s| - 1]) * 10 + DigitValue(s[|s| - 1])
  }

  /** Reading back the digits `String(n)` writes gives `n`. */
  lemma {:induction false} NatToStringRoundTrip(n: nat)
    ensures DecimalValue(NatToString(n)) == n
    decreases n
  {
    var s := NatToString(n);
    if n < 10 {
      DigitValueOfDigitChar(n);
      assert s[..|s| - 1] == [];
    } else {
      NatToStringRoundTrip(n / 10);
      DigitValueOfDigitChar(n % 10);
      assert s[..|s| - 1] == NatToString(n / 10);
    }
  }

  /** `String(n)` is one character exactly for the one-digit numbers, two for 10..99, three for 100..999. */
  lemma NatToStringLength(n: nat)
    ensures n < 10 <==> |NatToString(n)| == 1
    ensures 10 <= n < 100 ==> |NatToString(n)| == 2
    ensures 100 <= n < 1000 ==> |NatToString(n)| == 3
  {
    if n >= 10 {
      assert |NatToString(n / 10)| >= 1;
    }
    if n >= 100 {
      assert |NatToString(n / 10 / 10)| >= 1;
    }
  }

  function Repeat(c: char, k: nat): (r: string)
    ensures |r| == k
    ensures forall i :: 0 <= i < k ==> r[i] == c
  {
    if k == 0 then [] else [c] + Repeat(c, k - 1)
  }

  /**
   * `s.padStart(width, fill)` with a one-character fill string: `s` itself when
   * it is already `width` long or longer, otherwise `s` preceded by as many
   * copies of `fill` as make it exactly `width` long.
   */
  function PadStart(s: string, width: nat, fill: char): (r: string)
    ensures |r| == if |s| < width then width else |s|
    ensures r[|r| - |s|..] == s
    ensures forall i :: 0 <= i < |r| - |s| ==> r[i] == fill
  {
    if |s| < width then Repeat(fill, width - |s|) + s else s
  }

  /** `String(n).padStart(width, "0")`, the form every chapter and frame label uses. */
  function PaddedIndex(n: nat, width: nat): (r: string)
    ensures AllDigits(r)
    ensures |r| == if |NatToString(n)| < width then width else |NatToString(n)|
  {
    PadStart(NatToString(n), width, '0')
  }

  lemma {:induction false} LeadingZeroIgnored(s: string)
    requires AllDigits(s)
    ensures AllDigits(['0'] + s) && DecimalValue(['0'] + s) == DecimalValue(s)
    decreases |s|
  {
    var t := ['0'] + s;
    if s != [] {
      assert t[..|t| - 1] == ['0'] + s[..|s| - 1];
      LeadingZeroIgnored(s[..|s| - 1]);
    } else {
      assert t[..|t| - 1] == [];
    }
  }

  lemma {:induction false} ZeroPrefixIgnored(k: nat, s: string)
    requires AllDigits(s)
    ensures AllDigits(Repeat('0', k) + s) && DecimalValue(Repeat('0', k) + s) == DecimalValue(s)
    decreases k
  {
    if k > 0 {
      ZeroPrefixIgnored(k - 1, s);
      assert Repeat('0', k) + s == ['0'] + (Repeat('0', k - 1) + s);
      LeadingZeroIgnored(Repeat('0', k - 1) + s);
    } else {
      assert Repeat('0', k) + s == s;
    }
  }

  /** Zero-padding a label never changes the number it shows. */
  lemma PaddedIndexValue(n: nat, width: nat)
    ensures DecimalValue(PaddedIndex(n, width)) == n
  {
    var s := NatToString(n);
    NatToStringRoundTrip(n);
    if |s| < width {
      ZeroPrefixIgnored(width - |s|, s);
    }
  }

  /** For the one-digit numbers the padded label is the zeros, then the digit. */
  lemma PaddedOneDigit(n: nat, width: nat)
    requires n < 10 && 1 <= width
    ensures PaddedIndex(n, width) == Repeat('0', width - 1) + [DigitChar(n)]
  {
  }

  /** A chapter label: "CH." and the chapter number padded to two digits. */
  function ChapterLabel(n: nat): (r: string)
    ensures |r| >= 5 && r[..3] == "CH."
    ensures n < 100 ==> |r| == 5
    ensures AllDigits(r[3..]) && DecimalValue(r[3..]) == n
  {
    PaddedIndexValue(n, 2);
    NatToStringLength(n);
    var r := "CH." + PaddedIndex(n, 2);
    assert r[3..] == PaddedIndex(n, 2);
    r
  }

  /** JavaScript truthiness of an optional string: present and not empty. */
  predicate Truthy(s: Option<string>) {
    s.Some? && s.value != ""
  }
}
