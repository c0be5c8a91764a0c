/** Base-ten printing of integers over any alphabet, with a parser that inverts it.
    The byte alphabet serves the aggregation keys, the character alphabet serves printed texts. */
module Decimal {
  import opened Sequences

  datatype Alphabet<T(==)> = Alphabet(digits: seq<T>, minus: T) {
    predicate Valid() {
      && |digits| == 10
      && (forall i, j :: 0 <= i < j < 10 ==> digits[i] != digits[j])
      && minus !in digits
    }
  }

  /** The characters '0' to '9'. */
  function CharDigits(): Alphabet<char> { Alphabet(seq(10, i requires 0 <= i < 10 => (48 + i) as char), '-') }

  type ByteAlphabet = a: Alphabet<bv8> | a.Valid() witness Alphabet([48, 49, 50, 51, 52, 53, 54, 55, 56, 57], 45)
  type CharAlphabet = a: Alphabet<char> | a.Valid() witness CharDigits()

  const BYTES: ByteAlphabet := Alphabet([48, 49, 50, 51, 52, 53, 54, 55, 56, 57], 45)
  const CHARS: CharAlphabet := CharDigits()

  function PrintNat<T(==)>(a: Alphabet<T>, n: nat): (s: seq<T>)
    requires a.Valid()
    ensures s != []
    ensures forall c :: c in s ==> c in a.digits
  {
    if n < 10 then [a.digits[n]] else PrintNat(a, n / 10) + [a.digits[n % 10]]
  }

  function Print<T(==)>(a: Alphabet<T>, v: int): (s: seq<T>)
    requires a.Valid()
    ensures s != []
    ensures forall c :: c in s ==> c in a.digits || c == a.minus
  {
    if v < 0 then [a.minus] + PrintNat(a, -v) else PrintNat(a, v)
  }

  /** The value of a digit: the position at which it stands in the alphabet. */
  function DigitValue<T(==)>(a: Alphabet<T>, c: T): (d: nat)
    requires a.Valid() && c in a.digits
    ensures d < 10 && a.digits[d] == c
  {
    var d :| 0 <= d < 10 && a.digits[d] == c;
    d
  }

  function ParseNat<T(==)>(a: Alphabet<T>, s: seq<T>): nat
    requires a.Valid() && forall c :: c in s ==> c in a.digits
  {
    if s == [] then 0 else ParseNat(a, s[..|s| - 1]) * 10 + DigitValue(a, s[|s| - 1])
  }

  /** Reads an optional minus sign followed by at least one digit; anything else is rejected. */
  function Parse<T(==)>(a: Alphabet<T>, s: seq<T>): Option<int>
    requires a.Valid()
  {
    var negative := s != [] && s[0] == a.minus;
    var body := if negative then s[1..] else s;
    if body == [] || exists c :: c in body && c !in a.digits then None
    else
      var magnitude: int := ParseNat(a, body);
      Some(if negative then -magnitude else magnitude)
  }

  lemma {:induction false} ParseNatPrintNat<T>(a: Alphabet<T>, n: nat)
    requires a.Valid()
    ensures ParseNat(a, PrintNat(a, n)) == n
  {
    var s := PrintNat(a, n);
    if n >= 10 {
      ParseNatPrintNat(a, n / 10);
      assert s[..|s| - 1] == PrintNat(a, n / 10);
    } else {
      assert s[..|s| - 1] == [];
    }
  }

  /** No leading zero. */
  predicate Canonical<T(==)>(a: Alphabet<T>, s: seq<T>)
    requires a.Valid()
  {
    s != [] && (forall c :: c in s ==> c in a.digits) && (|s| > 1 ==> s[0] != a.digits[0])
  }

  lemma {:induction false} PrintNatCanonical<T>(a: Alphabet<T>, n: nat)
    requires a.Valid()
    ensures Canonical(a, PrintNat(a, n)) && (n > 0 ==> PrintNat(a, n)[0] != a.digits[0])
  {
    if n >= 10 {
      PrintNatCanonical(a, n / 10);
    }
  }

  lemma {:induction false} CanonicalPositive<T>(a: Alphabet<T>, s: seq<T>)
    requires a.Valid() && Canonical(a, s) && s[0] != a.digits[0]
    ensures ParseNat(a, s) > 0
  {
    var init := s[..|s| - 1];
    if init == [] {
      assert DigitValue(a, s[0]) != 0;
    } else {
      CanonicalPositive(a, init);
    }
  }

  /** The only text without leading zeros that reads as n is the printed one. */
  lemma {:induction false} PrintNatUnique<T>(a: Alphabet<T>, s: seq<T>, n: nat)
    requires a.Valid()
    ensures Canonical(a, s) && ParseNat(a, s) == n <==> s == PrintNat(a, n)
    decreases |s|
  {
    PrintNatCanonical(a, n);
    ParseNatPrintNat(a, n);
    if Canonical(a, s) && ParseNat(a, s) == n {
      var init, last := s[..|s| - 1], s[|s| - 1];
      if init == [] {
        assert s == [last] && ParseNat(a, init) == 0;
      } else {
        CanonicalPositive(a, init);
        PrintNatUnique(a, init, n / 10);
        assert s == init + [last];
      }
    }
  }

  /** The digits are those of ASCII. */
  lemma DigitsAreAscii(n: nat)
    requires n < 10
    ensures BYTES.digits[n] == (48 + n) as bv8 && CHARS.digits[n] == "0123456789"[n]
    ensures BYTES.minus == 45 && CHARS.minus == '-'
  {
  }

  /** Round trip: parsing a printed integer gives it back. */
  lemma ParsePrint<T>(a: Alphabet<T>, v: int)
    requires a.Valid()
    ensures Parse(a, Print(a, v)) == Some(v)
  {
    var s := Print(a, v);
    ParseNatPrintNat(a, if v < 0 then -v else v);
    if v < 0 {
      assert s[1..] == PrintNat(a, -v);
    } else {
      assert s[0] in a.digits;
    }
  }

  lemma PrintInjective<T>(a: Alphabet<T>, v: int, w: int)
    requires a.Valid()
    ensures Print(a, v) == Print(a, w) <==> v == w
  {
    ParsePrint(a, v);
    ParsePrint(a, w);
  }
}
