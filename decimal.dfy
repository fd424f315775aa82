/** Decimal conversion as Go's `strconv.Atoi` and `strconv.Itoa` perform it for a 64-bit `int`. */
module Decimal {
  import opened Results
  import Text

  const MinInt: int := -0x8000_0000_0000_0000
  const MaxInt: int := 0x7FFF_FFFF_FFFF_FFFF

  predicate InRange(n: int) { MinInt <= n <= MaxInt }

  predicate IsDigit(c: char) { '0' <= c <= '9' }

  predicate AllDigits(ds: string)
  {
    forall i :: 0 <= i < |ds| ==> IsDigit(ds[i])
  }

  /** The value of a run of decimal digits, read most significant first. */
  function Value(ds: string): nat
    requires AllDigits(ds)
  {
    if ds == [] then 0 else 10 * Value(ds[..|ds| - 1]) + (ds[|ds| - 1] - '0') as nat
  }

  /** The digits after an optional sign, and whether the sign was a minus. */
  function Unsigned(s: string): (r: (bool, string))
    ensures s == (if |r.1| < |s| then [s[0]] else []) + r.1
  {
    if s != [] && (s[0] == '+' || s[0] == '-') then (s[0] == '-', s[1..]) else (false, s)
  }

  /** `strconv.Atoi`: an optional sign followed by at least one decimal digit, nothing else
      (no white space, no underscores, no base prefix), and a value that fits in an `int`. */
  function Atoi(s: string): (r: Option<int>)
    ensures r.Some? ==> InRange(r.value)
    ensures r.Some? ==> s != [] && forall i :: 0 <= i < |s| ==> !Text.IsSpace(s[i])
  {
    var (neg, ds) := Unsigned(s);
    if ds == [] || !AllDigits(ds) then None
    else
      var v: int := if neg then 0 - Value(ds) else Value(ds);
      if InRange(v) then Some(v) else None
  }

  function DigitChar(d: nat): (c: char)
    requires d < 10
    ensures IsDigit(c) && (c - '0') as nat == d
  {
    ('0' as int + d) as char
  }

  /** The shortest decimal spelling of `n`; `DigitsSpelling` states what it is. */
  function Digits(n: nat): (r: string)
    ensures r != []
  {
    if n < 10 then [DigitChar(n)] else Digits(n / 10) + [DigitChar(n % 10)]
  }

  /** `Digits(n)` is made of digits, reads back as `n` and has no leading zero. */
  lemma {:induction false} DigitsSpelling(n: nat)
    ensures AllDigits(Digits(n))
    ensures Value(Digits(n)) == n
    ensures Digits(n)[0] == '0' ==> n == 0
  {
    if n >= 10 {
      DigitsSpelling(n / 10);
      var r := Digits(n);
      assert r[..|r| - 1] == Digits(n / 10);
    }
  }

  /** `strconv.Itoa`: a minus sign for negative numbers, then the shortest digits. */
  function Itoa(n: int): (r: string)
    ensures r != []
  {
    if n < 0 then "-" + Digits(-n) else Digits(n)
  }

  /** `Itoa` spells with a sign and digits only, so no white space or separator occurs in it. */
  lemma ItoaChars(n: int)
    ensures forall i :: 0 <= i < |Itoa(n)| ==> Itoa(n)[i] == '-' || IsDigit(Itoa(n)[i])
    ensures forall i :: 0 <= i < |Itoa(n)| ==> !Text.IsSpace(Itoa(n)[i])
  {
    DigitsSpelling(if n < 0 then -n else n);
  }

  /** Every `int` reads back from its decimal spelling. */
  lemma AtoiItoa(n: int)
    requires InRange(n)
    ensures Atoi(Itoa(n)) == Some(n)
  {
    var s := Itoa(n);
    DigitsSpelling(if n < 0 then -n else n);
    if n < 0 {
      assert Unsigned(s) == (true, Digits(-n));
    } else {
      assert Unsigned(s) == (false, Digits(n));
    }
  }

  /** Reading is injective on canonical spellings: two spellings that `Itoa` produced
      read back equal only when they are the same text. */
  lemma ItoaInjective(m: int, n: int)
    requires InRange(m) && InRange(n)
    requires Itoa(m) == Itoa(n)
    ensures m == n
  {
    AtoiItoa(m);
    AtoiItoa(n);
  }

  /** A text `Atoi` accepts may still be non-canonical ("+7", "007"), but its canonical
      spelling reads back to the same number. */
  lemma CanonicalAtoi(s: string)
    requires Atoi(s).Some?
    ensures Atoi(Itoa(Atoi(s).value)) == Atoi(s)
  {
    AtoiItoa(Atoi(s).value);
  }

  /** `strings.TrimSpace` leaves a spelling `Atoi` accepts alone. */
  lemma TrimAccepted(s: string)
    requires Atoi(s).Some?
    ensures Text.TrimSpace(s) == s
  {
    Text.TrimFixed(s, Text.Spaces);
  }
}
