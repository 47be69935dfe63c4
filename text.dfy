/** Decimal renderings of integers and the few string operations the model needs:
    Rust's `format!("{}")`, JavaScript's `String(n)`, `padStart` and `endsWith`. */
module Text {

  predicate IsDigit(c: char) { '0' <= c <= '9' }

  function DigitChar(d: nat): (c: char)
    requires d < 10
    ensures IsDigit(c)
  {
    ('0' as int + d) as char
  }

  /** The decimal digits of `n`, most significant first, without leading zeros. */
  function NatToString(n: nat): (s: string)
    ensures 1 <= |s|
    ensures s[|s| - 1] == DigitChar(n % 10)
    ensures n < 10 <==> |s| == 1
  {
    if n < 10 then [DigitChar(n)] else NatToString(n / 10) + [DigitChar(n % 10)]
  }

  /** The rendering consists of decimal digits only. */
  lemma {:induction false} NatToStringDigits(n: nat)
    ensures forall i :: 0 <= i < |NatToString(n)| ==> IsDigit(NatToString(n)[i])
    decreases n
  {
    if n >= 10 {
      NatToStringDigits(n / 10);
      var s, p := NatToString(n), NatToString(n / 10);
      forall i | 0 <= i < |s| ensures IsDigit(s[i]) {
        if i < |p| {
          assert s[i] == p[i];
        }
      }
    }
  }

  /** Different numbers have different decimal renderings. */
  lemma {:induction false} NatToStringInjective(a: nat, b: nat)
    requires NatToString(a) == NatToString(b)
    ensures a == b
  {
    var s := NatToString(a);
    if 10 <= a {
      assert NatToString(a / 10) == s[..|s| - 1];
      assert NatToString(b / 10) == s[..|s| - 1];
      NatToStringInjective(a / 10, b / 10);
    }
  }

  /** `String(x)` of an integer-valued JavaScript number: a minus sign before the digits of a negative one. */
  function IntToString(x: int): string
  {
    if x < 0 then "-" + NatToString(-x) else NatToString(x)
  }

  /** `s.padStart(width, fill)` with a one-character fill. */
  function PadStart(s: string, width: nat, fill: char): (r: string)
    ensures |r| == if |s| < width then width else |s|
    ensures r[|r| - |s|..] == s
    ensures forall i :: 0 <= i < |r| - |s| ==> r[i] == fill
  {
    if |s| < width then seq(width - |s|, _ => fill) + s else s
  }

  predicate EndsWith(s: string, suffix: string)
  {
    |suffix| <= |s| && s[|s| - |suffix|..] == suffix
  }

  /** Rust's `{:?}` rendering of a `String`: the text between double quotes. */
  function Debug(s: string): string
  {
    "\"" + s + "\""
  }
}
