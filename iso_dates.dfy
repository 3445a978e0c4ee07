/**
 * Calendar dates in the complete extended representation of section 4.1.2.2 of
 * ISO 8601:2004 (YYYY-MM-DD). Because every field has a fixed width, comparing two such
 * strings character by character orders them chronologically, which is what the
 * "delayed project" count relies on.
 */
module IsoDates {
  import opened Text

  predicate IsDigit(c: char)
  {
    '0' <= c <= '9'
  }

  predicate AllDigits(s: string)
  {
    forall k :: 0 <= k < |s| ==> IsDigit(s[k])
  }

  function DigitValue(c: char): (v: nat)
    requires IsDigit(c)
    ensures v < 10
  {
    c as int - '0' as int
  }

  function Pow10(n: nat): (r: nat)
    ensures r >= 1
  {
    if n == 0 then 1 else 10 * Pow10(n - 1)
  }

  /** The decimal value of a string of digits. */
  function Number(s: string): nat
    requires AllDigits(s)
  {
    if s == [] then 0 else DigitValue(s[0]) * Pow10(|s| - 1) + Number(s[1..])
  }

  /** A digit times a power of ten, plus a lower part, stays below the next power of ten. */
  lemma {:induction false} DigitPlace(d: nat, n: nat, w: nat)
    requires d < 10 && n < w
    ensures d * w + n < 10 * w
  {
    if d > 0 {
      DigitPlace(d - 1, n, w);
      assert d * w == (d - 1) * w + w;
    }
  }

  lemma {:induction false} NumberBound(s: string)
    requires AllDigits(s)
    ensures Number(s) < Pow10(|s|)
  {
    if s != [] {
      NumberBound(s[1..]);
      DigitPlace(DigitValue(s[0]), Number(s[1..]), Pow10(|s| - 1));
    }
  }

  /** A smaller leading digit makes a smaller number, whatever the lower digits are. */
  lemma LeadingDigit(da: nat, db: nat, na: nat, nb: nat, w: nat)
    requires da < db && na < w && nb < w
    ensures da * w + na < db * w + nb
  {
    var k := db - da - 1;
    assert k * w >= 0;
    assert db * w == da * w + k * w + w;
  }

  /** Of two digit strings of one width, the one with the smaller first digit is the smaller number. */
  lemma LeadingDigitDecides(a: string, b: string)
    requires |a| == |b| && a != [] && AllDigits(a) && AllDigits(b) && a[0] < b[0]
    ensures Number(a) < Number(b)
  {
    NumberBound(a[1..]);
    NumberBound(b[1..]);
    LeadingDigit(DigitValue(a[0]), DigitValue(b[0]), Number(a[1..]), Number(b[1..]), Pow10(|a| - 1));
  }

  /** On digit strings of one width, lexicographic order is numeric order. */
  lemma {:induction false} LexLessDigits(a: string, b: string)
    requires |a| == |b| && AllDigits(a) && AllDigits(b)
    ensures LexLess(a, b) <==> Number(a) < Number(b)
  {
    if a != [] {
      if a[0] < b[0] {
        LeadingDigitDecides(a, b);
      } else if b[0] < a[0] {
        LeadingDigitDecides(b, a);
      } else {
        LexLessDigits(a[1..], b[1..]);
      }
    }
  }

  /** `s` has the shape YYYY-MM-DD with a month from 01 to 12 and a day from 01 to 31. */
  predicate IsIsoDate(s: string)
  {
    |s| == 10 && s[4] == '-' && s[7] == '-'
    && AllDigits(s[..4]) && AllDigits(s[5..7]) && AllDigits(s[8..])
    && 1 <= Number(s[5..7]) <= 12 && 1 <= Number(s[8..]) <= 31
  }

  function Year(s: string): nat
    requires IsIsoDate(s)
  {
    Number(s[..4])
  }

  function Month(s: string): nat
    requires IsIsoDate(s)
  {
    Number(s[5..7])
  }

  function Day(s: string): nat
    requires IsIsoDate(s)
  {
    Number(s[8..])
  }

  /** `a` is an earlier day than `b`: an earlier year, or the same year and an earlier month, or the same month and an earlier day. */
  predicate Before(a: string, b: string)
    requires IsIsoDate(a) && IsIsoDate(b)
  {
    Year(a) < Year(b)
    || (Year(a) == Year(b) && (Month(a) < Month(b) || (Month(a) == Month(b) && Day(a) < Day(b))))
  }

  /** For ISO 8601 calendar dates the string order `<` is the chronological order. */
  lemma LexLessIsChronological(a: string, b: string)
    requires IsIsoDate(a) && IsIsoDate(b)
    ensures LexLess(a, b) <==> Before(a, b)
  {
    assert a == a[..4] + ([a[4]] + (a[5..7] + ([a[7]] + a[8..])));
    assert b == b[..4] + ([b[4]] + (b[5..7] + ([b[7]] + b[8..])));
    LexLessConcat(a[..4], [a[4]] + (a[5..7] + ([a[7]] + a[8..])), b[..4], [b[4]] + (b[5..7] + ([b[7]] + b[8..])));
    LexLessConcat([a[4]], a[5..7] + ([a[7]] + a[8..]), [b[4]], b[5..7] + ([b[7]] + b[8..]));
    LexLessConcat(a[5..7], [a[7]] + a[8..], b[5..7], [b[7]] + b[8..]);
    LexLessConcat([a[7]], a[8..], [b[7]], b[8..]);
    LexLessIrreflexive([a[4]]);
    LexLessIrreflexive([a[7]]);
    LexLessDigits(a[..4], b[..4]);
    LexLessDigits(a[5..7], b[5..7]);
    LexLessDigits(a[8..], b[8..]);
    NumberInjective(a[..4], b[..4]);
    NumberInjective(a[5..7], b[5..7]);
  }

  /** Digit strings of one width with equal values are equal. */
  lemma {:induction false} NumberInjective(a: string, b: string)
    requires |a| == |b| && AllDigits(a) && AllDigits(b)
    ensures Number(a) == Number(b) <==> a == b
  {
    LexLessDigits(a, b);
    LexLessDigits(b, a);
    LexLessTrichotomy(a, b);
  }
}
