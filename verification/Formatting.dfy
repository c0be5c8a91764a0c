/** Printed uptimes, printed enumeration values and nanosecond timestamps. */
module Formatting {
  import opened Sequences
  import opened Decimal
  import opened Keys

  type Int32 = v: int | -0x8000_0000 <= v < 0x8000_0000
  type UInt32 = v: int | 0 <= v < 0x1_0000_0000
  type UInt64 = v: int | 0 <= v < 0x1_0000_0000_0000_0000

  // Uptimes.

  /** At least two digits, zero padded. */
  function TwoDigits(n: nat): string { if n < 10 then "0" + PrintNat(CHARS, n) else PrintNat(CHARS, n) }

  function DaysHoursMinutesSeconds(days: nat, hours: nat, minutes: nat, secs: nat): string {
    TwoDigits(days) + ":" + TwoDigits(hours) + ":" + TwoDigits(minutes) + ":" + TwoDigits(secs)
  }

  /** The formatter of the parser. */
  function ParserUptime(seconds: UInt32): string {
    if seconds == 0 then "00:00:00:00"
    else DaysHoursMinutesSeconds(seconds / 86400, seconds % 86400 / 3600, seconds % 3600 / 60, seconds % 60)
  }

  /** The formatter of the models. */
  function ModelsUptime(seconds: UInt32): string {
    DaysHoursMinutesSeconds(seconds / 86400, seconds % 86400 / 3600, seconds % 3600 / 60, seconds % 60)
  }

  /** The pieces of a text between separators. */
  function Fields(text: string, sep: char): (fields: seq<string>)
    ensures fields != []
  {
    if text == "" then [""]
    else
      var rest := Fields(text[1..], sep);
      if text[0] == sep then [""] + rest else [[text[0]] + rest[0]] + rest[1..]
  }

  predicate IsNumeral(text: string) { text != "" && forall c :: c in text ==> c in CHARS.digits }

  function InSeconds(d: nat, h: nat, m: nat, s: nat): nat { d * 86400 + h * 3600 + m * 60 + s }

  /** Reads dd:hh:mm:ss back. */
  function ParseUptime(text: string): Option<nat> {
    var f := Fields(text, ':');
    if |f| == 4 && IsNumeral(f[0]) && IsNumeral(f[1]) && IsNumeral(f[2]) && IsNumeral(f[3]) then
      Some(InSeconds(ParseNat(CHARS, f[0]), ParseNat(CHARS, f[1]), ParseNat(CHARS, f[2]), ParseNat(CHARS, f[3])))
    else None
  }

  lemma {:induction false} FieldsSplit(head: string, rest: string, sep: char)
    requires sep !in head
    ensures Fields(head + [sep] + rest, sep) == [head] + Fields(rest, sep)
  {
    var text := head + [sep] + rest;
    if head == "" {
      assert text[1..] == rest;
    } else {
      assert text[1..] == head[1..] + [sep] + rest;
      FieldsSplit(head[1..], rest, sep);
      assert text[0] == head[0] && [head[0]] + head[1..] == head;
    }
  }

  lemma {:induction false} FieldsWhole(text: string, sep: char)
    requires sep !in text
    ensures Fields(text, sep) == [text]
  {
    if text == "" {
    } else {
      FieldsWhole(text[1..], sep);
      assert [text[0]] + text[1..] == text;
    }
  }

  lemma {:induction false} LeadingZero<T>(a: Alphabet<T>, s: seq<T>)
    requires a.Valid() && forall c :: c in s ==> c in a.digits
    ensures ParseNat(a, [a.digits[0]] + s) == ParseNat(a, s)
  {
    var t := [a.digits[0]] + s;
    if s == [] {
      assert t[..0] == [];
      assert DigitValue(a, a.digits[0]) == 0;
    } else {
      assert t[..|t| - 1] == [a.digits[0]] + s[..|s| - 1];
      LeadingZero(a, s[..|s| - 1]);
    }
  }

  lemma TwoDigitsRead(n: nat)
    ensures IsNumeral(TwoDigits(n)) && ParseNat(CHARS, TwoDigits(n)) == n
  {
    ParseNatPrintNat(CHARS, n);
    LeadingZero(CHARS, PrintNat(CHARS, n));
    assert "0" == [CHARS.digits[0]];
  }

  lemma Regroup<T>(a: seq<T>, b: seq<T>, c: seq<T>, d: seq<T>)
    ensures a + b + c + d == a + (b + c + d)
  {
  }

  lemma FieldsOfFour(a: string, b: string, c: string, d: string, sep: char)
    requires sep !in a && sep !in b && sep !in c && sep !in d
    ensures Fields(a + [sep] + b + [sep] + c + [sep] + d, sep) == [a, b, c, d]
  {
    var cd := c + [sep] + d;
    Regroup(a + [sep] + b + [sep], c, [sep], d);
    Regroup(a + [sep], b, [sep], cd);
    FieldsSplit(a, b + [sep] + cd, sep);
    FieldsSplit(b, cd, sep);
    FieldsSplit(c, d, sep);
    FieldsWhole(d, sep);
  }

  lemma NumeralHasNoColon(text: string)
    requires IsNumeral(text)
    ensures ':' !in text
  {
    assert ':' !in CHARS.digits;
  }

  lemma ParseFields(d: nat, h: nat, m: nat, s: nat)
    ensures ParseUptime(DaysHoursMinutesSeconds(d, h, m, s)) == Some(InSeconds(d, h, m, s))
  {
    TwoDigitsRead(d);
    TwoDigitsRead(h);
    TwoDigitsRead(m);
    TwoDigitsRead(s);
    NumeralHasNoColon(TwoDigits(d));
    NumeralHasNoColon(TwoDigits(h));
    NumeralHasNoColon(TwoDigits(m));
    NumeralHasNoColon(TwoDigits(s));
    FieldsOfFour(TwoDigits(d), TwoDigits(h), TwoDigits(m), TwoDigits(s), ':');
  }

  /** The special case for zero makes no difference. */
  lemma UptimesAgree(seconds: UInt32)
    ensures ParserUptime(seconds) == ModelsUptime(seconds)
  {
    if seconds == 0 {
      assert PrintNat(CHARS, 0) == "0";
    }
  }

  lemma MinutesOfHours(n: nat)
    ensures n % 3600 % 60 == n % 60
  {
    assert n == 60 * (60 * (n / 3600) + n % 3600 / 60) + n % 3600 % 60;
  }

  lemma HoursOfDays(n: nat)
    ensures n % 86400 % 3600 == n % 3600
  {
    assert n == 3600 * (24 * (n / 86400) + n % 86400 / 3600) + n % 86400 % 3600;
  }

  lemma UnitsAddUp(n: nat)
    ensures InSeconds(n / 86400, n % 86400 / 3600, n % 3600 / 60, n % 60) == n
  {
    HoursOfDays(n);
    MinutesOfHours(n);
    var rest := n % 86400;
    assert n / 86400 * 86400 + rest == n && rest / 3600 * 3600 + rest % 3600 == rest;
  }

  /** Round trip over every uint32, also when the days need more than two digits. */
  lemma UptimeRoundTrip(seconds: UInt32)
    ensures ParseUptime(ParserUptime(seconds)) == Some(seconds)
  {
    UptimesAgree(seconds);
    UnitsAddUp(seconds);
    ParseFields(seconds / 86400, seconds % 86400 / 3600, seconds % 3600 / 60, seconds % 60);
  }

  lemma {:induction false} PrintNatLength(n: nat)
    ensures |PrintNat(CHARS, n)| == 1 <==> n < 10
    ensures |PrintNat(CHARS, n)| == 2 <==> 10 <= n < 100
  {
    if n >= 10 {
      PrintNatLength(n / 10);
    }
  }

  /** A field has at least two digits, and exactly two below 100. */
  lemma TwoDigitsWide(n: nat)
    ensures |TwoDigits(n)| >= 2 && (|TwoDigits(n)| == 2 <==> n < 100)
  {
    PrintNatLength(n);
  }

  /** The printed uptime has its hours below 24 and its minutes and seconds below 60, and is eleven characters
      long, which is the normal form, for uptimes below a hundred days and only for those. */
  lemma UptimeNormal(seconds: UInt32) returns (d: nat, h: nat, m: nat, s: nat)
    ensures ParserUptime(seconds) == TwoDigits(d) + ":" + TwoDigits(h) + ":" + TwoDigits(m) + ":" + TwoDigits(s)
    ensures InSeconds(d, h, m, s) == seconds && h < 24 && m < 60 && s < 60
    ensures |ParserUptime(seconds)| == 11 <==> seconds < 8_640_000
  {
    UptimesAgree(seconds);
    UnitsAddUp(seconds);
    d, h, m, s := seconds / 86400, seconds % 86400 / 3600, seconds % 3600 / 60, seconds % 60;
    TwoDigitsWide(d);
    TwoDigitsWide(h);
    TwoDigitsWide(m);
    TwoDigitsWide(s);
  }

  // Enumerations.

  const UNKNOWN := "UNKNOWN_"

  /** A switch over the values 0, 1, ...: a common stem, and what follows it for each value. */
  datatype Enumeration = Enumeration(stem: string, tails: seq<string>) {
    function Convert(value: Int32): string {
      if 0 <= value < |tails| then stem + tails[value] else stem + UNKNOWN + Print(CHARS, value)
    }

    predicate Valid() {
      && (forall i, j :: 0 <= i < j < |tails| ==> tails[i] != tails[j])
      && (forall i :: 0 <= i < |tails| ==> !(UNKNOWN <= tails[i]))
    }
  }

  const ALARM_STATUS := Enumeration("", ["INVALID", "NORMAL", "ALARM"])
  const ADMIN_STATUS := Enumeration("ADMIN_STATUS_", ["INVALID", "UP", "DOWN", "TESTING"])
  const OPER_STATUS := Enumeration("OPER_STATUS_",
    ["INVALID", "UP", "DOWN", "TESTING", "UNKNOWN", "DORMANT", "NOT_PRESENT", "LOWER_LAYER_DOWN"])
  const IPV4_OPER_STATUS := Enumeration("IPV4OPERSTATUS_STATUS_", ["INVALID", "UP", "DOWN"])
  const IPV6_OPER_STATUS := Enumeration("IPV6OPERSTATUS_STATUS_", ["INVALID", "UP", "DOWN"])
  const PHY_STATUS := Enumeration("PHY_STATUS_", ["INVALID", "UP", "DOWN"])

  lemma SameStem(stem: string, a: string, b: string)
    ensures stem + a == stem + b <==> a == b
  {
    assert a == (stem + a)[|stem|..] && b == (stem + b)[|stem|..];
  }

  function Tail(e: Enumeration, value: Int32): string {
    if 0 <= value < |e.tails| then e.tails[value] else UNKNOWN + Print(CHARS, value)
  }

  lemma ConvertTail(e: Enumeration, value: Int32)
    ensures e.Convert(value) == e.stem + Tail(e, value)
  {
    assert e.stem + UNKNOWN + Print(CHARS, value) == e.stem + (UNKNOWN + Print(CHARS, value));
  }

  lemma TailInjective(e: Enumeration, v: Int32, w: Int32)
    requires e.Valid()
    ensures Tail(e, v) == Tail(e, w) <==> v == w
  {
    PrintInjective(CHARS, v, w);
    SameStem(UNKNOWN, Print(CHARS, v), Print(CHARS, w));
    assert UNKNOWN <= UNKNOWN + Print(CHARS, v) && UNKNOWN <= UNKNOWN + Print(CHARS, w);
  }

  /** Distinct values, named or not, print distinctly. */
  lemma ConvertInjective(e: Enumeration, v: Int32, w: Int32)
    requires e.Valid()
    ensures e.Convert(v) == e.Convert(w) <==> v == w
  {
    ConvertTail(e, v);
    ConvertTail(e, w);
    SameStem(e.stem, Tail(e, v), Tail(e, w));
    TailInjective(e, v, w);
  }

  lemma OperStatusValid()
    ensures OPER_STATUS.Valid()
  {
    var t := OPER_STATUS.tails;
    assert t[0][0] == 'I' && t[1][0] == t[4][0] == 'U' && t[2][0] == t[5][0] == 'D' && t[3][0] == 'T' && t[6][0] == 'N' && t[7][0] == 'L';
    assert |t[1]| == 2 && |t[4]| == 7 && |t[2]| == 4 && |t[5]| == 7;
  }

  lemma ShortStatusesValid()
    ensures ALARM_STATUS.Valid() && ADMIN_STATUS.Valid() && IPV4_OPER_STATUS.Valid() && IPV6_OPER_STATUS.Valid() && PHY_STATUS.Valid()
  {
    var a, t := ALARM_STATUS.tails, ADMIN_STATUS.tails;
    assert a[0][0] == 'I' && a[1][0] == 'N' && a[2][0] == 'A';
    assert t[0][0] == 'I' && t[1][0] == 'U' && t[2][0] == 'D' && t[3][0] == 'T' && |t[1]| == 2;
    assert PHY_STATUS.tails == IPV4_OPER_STATUS.tails == IPV6_OPER_STATUS.tails == t[..3];
  }

  /** All six conversions of the parser are injective over the whole of int32. */
  lemma StatusesInjective(e: Enumeration, v: Int32, w: Int32)
    requires e in {ALARM_STATUS, ADMIN_STATUS, OPER_STATUS, IPV4_OPER_STATUS, IPV6_OPER_STATUS, PHY_STATUS}
    ensures e.Convert(v) == e.Convert(w) <==> v == w
  {
    OperStatusValid();
    ShortStatusesValid();
    ConvertInjective(e, v, w);
  }

  /** The values of an enumeration are spelled like this, and any other value as unknown, with its number. */
  ghost predicate Spells(e: Enumeration, names: seq<string>, unknown: string) {
    && |e.tails| == |names| && (forall v: Int32 :: 0 <= v < |names| ==> e.Convert(v) == names[v])
    && (forall v: Int32 :: v < 0 || |names| <= v ==> e.Convert(v) == unknown + Print(CHARS, v))
  }

  lemma SpellsAll(e: Enumeration, names: seq<string>, unknown: string)
    requires |e.tails| == |names| && (forall i :: 0 <= i < |names| ==> e.stem + e.tails[i] == names[i]) && e.stem + UNKNOWN == unknown
    ensures Spells(e, names, unknown)
  {
  }

  /** The texts of the six conversions. */
  lemma AlarmStatusNames()
    ensures Spells(ALARM_STATUS, ["INVALID", "NORMAL", "ALARM"], "UNKNOWN_")
  {
    SpellsAll(ALARM_STATUS, ["INVALID", "NORMAL", "ALARM"], "UNKNOWN_");
  }

  lemma AdminStatusNames()
    ensures Spells(ADMIN_STATUS, ["ADMIN_STATUS_INVALID", "ADMIN_STATUS_UP", "ADMIN_STATUS_DOWN", "ADMIN_STATUS_TESTING"], "ADMIN_STATUS_UNKNOWN_")
  {
    SpellsAll(ADMIN_STATUS, ["ADMIN_STATUS_INVALID", "ADMIN_STATUS_UP", "ADMIN_STATUS_DOWN", "ADMIN_STATUS_TESTING"], "ADMIN_STATUS_UNKNOWN_");
  }

  lemma OperStatusNames()
    ensures Spells(OPER_STATUS, ["OPER_STATUS_INVALID", "OPER_STATUS_UP", "OPER_STATUS_DOWN", "OPER_STATUS_TESTING", "OPER_STATUS_UNKNOWN",
      "OPER_STATUS_DORMANT", "OPER_STATUS_NOT_PRESENT", "OPER_STATUS_LOWER_LAYER_DOWN"], "OPER_STATUS_UNKNOWN_")
  {
    SpellsAll(OPER_STATUS, ["OPER_STATUS_INVALID", "OPER_STATUS_UP", "OPER_STATUS_DOWN", "OPER_STATUS_TESTING", "OPER_STATUS_UNKNOWN",
      "OPER_STATUS_DORMANT", "OPER_STATUS_NOT_PRESENT", "OPER_STATUS_LOWER_LAYER_DOWN"], "OPER_STATUS_UNKNOWN_");
  }

  lemma PhyStatusNames()
    ensures Spells(PHY_STATUS, ["PHY_STATUS_INVALID", "PHY_STATUS_UP", "PHY_STATUS_DOWN"], "PHY_STATUS_UNKNOWN_")
  {
    SpellsAll(PHY_STATUS, ["PHY_STATUS_INVALID", "PHY_STATUS_UP", "PHY_STATUS_DOWN"], "PHY_STATUS_UNKNOWN_");
  }

  lemma Ipv4OperStatusNames()
    ensures Spells(IPV4_OPER_STATUS, ["IPV4OPERSTATUS_STATUS_INVALID", "IPV4OPERSTATUS_STATUS_UP", "IPV4OPERSTATUS_STATUS_DOWN"], "IPV4OPERSTATUS_STATUS_UNKNOWN_")
  {
    SpellsAll(IPV4_OPER_STATUS, ["IPV4OPERSTATUS_STATUS_INVALID", "IPV4OPERSTATUS_STATUS_UP", "IPV4OPERSTATUS_STATUS_DOWN"], "IPV4OPERSTATUS_STATUS_UNKNOWN_");
  }

  lemma Ipv6OperStatusNames()
    ensures Spells(IPV6_OPER_STATUS, ["IPV6OPERSTATUS_STATUS_INVALID", "IPV6OPERSTATUS_STATUS_UP", "IPV6OPERSTATUS_STATUS_DOWN"], "IPV6OPERSTATUS_STATUS_UNKNOWN_")
  {
    SpellsAll(IPV6_OPER_STATUS, ["IPV6OPERSTATUS_STATUS_INVALID", "IPV6OPERSTATUS_STATUS_UP", "IPV6OPERSTATUS_STATUS_DOWN"], "IPV6OPERSTATUS_STATUS_UNKNOWN_");
  }

  // Timestamps.

  /** An instant: whole seconds, and nanoseconds within the second. */
  datatype Time = Time(sec: int, nsec: int) {
    predicate Normal() { 0 <= nsec < NANOS_PER_SECOND }
    function Nanos(): int { sec * NANOS_PER_SECOND + nsec }
  }

  /** Division that rounds towards zero. */
  function Quotient(a: int, b: int): int
    requires b > 0
  {
    if a >= 0 then a / b else -((-a) / b)
  }

  /** Makes an instant of seconds and any number of nanoseconds. */
  function Unix(sec: int, nsec: int): (t: Time)
    ensures t.Normal() && t.Nanos() == sec * NANOS_PER_SECOND + nsec
  {
    if 0 <= nsec < NANOS_PER_SECOND then Time(sec, nsec)
    else
      var n := Quotient(nsec, NANOS_PER_SECOND);
      var rest := nsec - n * NANOS_PER_SECOND;
      if rest < 0 then Time(sec + n - 1, rest + NANOS_PER_SECOND) else Time(sec + n, rest)
  }

  /** The conversion of uint64 to int64 keeps the bits. */
  function ToInt64(n: UInt64): int { if n < 0x8000_0000_0000_0000 then n else n - 0x1_0000_0000_0000_0000 }

  function NanosToTimestamp(nanos: UInt64): Time { Unix(ToInt64(nanos / NANOS_PER_SECOND), ToInt64(nanos % NANOS_PER_SECOND)) }

  function NanosecondsToTime(ns: UInt64): Time { Unix(0, ToInt64(ns)) }

  lemma NanosDetermineTime(t: Time, u: Time)
    requires t.Normal() && u.Normal()
    ensures t == u <==> t.Nanos() == u.Nanos()
  {
  }

  /** The parser's conversion is exact for every uint64; the models' one agrees with it exactly below 2^63. */
  lemma TimestampsAgreeIff(ns: UInt64)
    ensures NanosToTimestamp(ns) == Time(ns / NANOS_PER_SECOND, ns % NANOS_PER_SECOND) && NanosToTimestamp(ns).Nanos() == ns
    ensures NanosToTimestamp(ns) == NanosecondsToTime(ns) <==> ns < 0x8000_0000_0000_0000
  {
    NanosDetermineTime(NanosToTimestamp(ns), NanosecondsToTime(ns));
  }
}
