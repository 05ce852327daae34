/**
 * The JavaScript string operations the dashboards rely on, restricted to what
 * they are used for: ASCII `toLowerCase`, `includes`, `startsWith`, the
 * single-character global `replace`, `trim()` emptiness, and the decimal
 * rendering of an integer inside a template literal.
 */
module Text {
  import Seqs

  /** `toLowerCase` on one character; only ASCII letters are folded. */
  function LowerChar(c: char): char {
    if 'A' <= c <= 'Z' then (c as int + 32) as char else c
  }

  function Lower(s: string): string {
    seq(|s|, i requires 0 <= i < |s| => LowerChar(s[i]))
  }

  /** `s.startsWith(prefix)`. */
  predicate StartsWith(s: string, prefix: string) {
    |prefix| <= |s| && s[..|prefix|] == prefix
  }

  /** `s.includes(sub)`: `sub` occurs somewhere in `s` (the empty string occurs everywhere). */
  predicate Contains(s: string, sub: string)
    decreases |s|
  {
    StartsWith(s, sub) || (|s| > 0 && Contains(s[1..], sub))
  }

  /** Whatever surrounds it, a string contains itself. */
  lemma {:induction false} ContainsInfix(x: string, sub: string, y: string)
    ensures Contains(x + sub + y, sub)
    decreases |x|
  {
    if x == [] {
      assert x + sub + y == sub + y;
      assert (sub + y)[..|sub|] == sub;
    } else {
      ContainsInfix(x[1..], sub, y);
      assert (x + sub + y)[1..] == x[1..] + sub + y;
    }
  }

  /** `s.replace(/c/g, d)` for a one-character pattern `c`. */
  function ReplaceChar(s: string, c: char, d: char): string {
    seq(|s|, i requires 0 <= i < |s| => if s[i] == c then d else s[i])
  }

  /**
   * `s.toLowerCase().replace(/ /g, '-')`: the product handle and the
   * payment-link slug are both built this way.
   */
  function Slugify(s: string): string {
    ReplaceChar(Lower(s), ' ', '-')
  }

  /**
   * A slug has the text's length, no spaces and no upper-case ASCII letters,
   * and slugifying it again changes nothing.
   */
  lemma SlugifySpec(s: string)
    ensures |Slugify(s)| == |s|
    ensures forall i :: 0 <= i < |s| ==> Slugify(s)[i] == (if s[i] == ' ' then '-' else LowerChar(s[i]))
    ensures ' ' !in Slugify(s)
    ensures forall c :: c in Slugify(s) ==> !('A' <= c <= 'Z')
    ensures Slugify(Slugify(s)) == Slugify(s)
    ensures Slugify(s) == "" <==> s == ""
  {
  }

  /** `s.replace(/c/g, '')`. */
  function RemoveChar(s: string, c: char): string {
    Seqs.Filter(s, (x: char) => x != c)
  }

  /** The code points `String.prototype.trim` strips (WhiteSpace and LineTerminator). */
  predicate IsWhitespace(c: char) {
    c == '\t' || c == '\n' || c == '\U{000B}' || c == '\U{000C}' || c == '\r' || c == ' '
    || c == '\U{00A0}' || c == '\U{1680}' || ('\U{2000}' <= c <= '\U{200A}')
    || c == '\U{2028}' || c == '\U{2029}' || c == '\U{202F}' || c == '\U{205F}'
    || c == '\U{3000}' || c == '\U{FEFF}'
  }

  /** `!s.trim()`: nothing but whitespace is left. */
  predicate IsBlank(s: string) {
    forall i :: 0 <= i < |s| ==> IsWhitespace(s[i])
  }

  function DigitChar(d: nat): char
    requires d < 10
  {
    ('0' as int + d) as char
  }

  predicate IsDigit(c: char) {
    '0' <= c <= '9'
  }

  function DigitValue(c: char): nat
    requires IsDigit(c)
  {
    c as int - '0' as int
  }

  /** Decimal rendering of a natural number, no leading zeros. */
  function NatToString(n: nat): (r: string)
    ensures |r| >= 1
    ensures forall i :: 0 <= i < |r| ==> IsDigit(r[i])
    decreases n
  {
    if n < 10 then [DigitChar(n)] else NatToString(n / 10) + [DigitChar(n % 10)]
  }

  /** `${n}` for an integer `n`. */
  function IntToString(n: int): string {
    if n < 0 then "-" + NatToString(-n) else NatToString(n)
  }

  /** Reads a string of decimal digits back as a number. */
  function ParseNat(s: string): nat
    requires forall i :: 0 <= i < |s| ==> IsDigit(s[i])
    decreases |s|
  {
    if s == [] then 0 else ParseNat(s[..|s| - 1]) * 10 + DigitValue(s[|s| - 1])
  }

  /** Rendering then reading back gives the number again. */
  lemma {:induction false} ParseNatToString(n: nat)
    ensures ParseNat(NatToString(n)) == n
    decreases n
  {
    if n >= 10 {
      ParseNatToString(n / 10);
      var s := NatToString(n);
      assert s[..|s| - 1] == NatToString(n / 10);
    }
  }

  /** Four-digit numbers render as exactly four digits. */
  lemma NatToStringFourDigits(n: nat)
    requires 1000 <= n <= 9999
    ensures |NatToString(n)| == 4
  {
    var a, b, c := n / 10, n / 100, n / 1000;
    assert a / 10 == b && b / 10 == c;
    assert 1 <= c < 10 && 10 <= b < 100 && 100 <= a < 1000;
    assert |NatToString(c)| == 1;
    assert |NatToString(b)| == 2;
    assert |NatToString(a)| == 3;
  }
}
