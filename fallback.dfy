/**
 * fallbackUsers: a batch of 50 synthetic records, used when the live fetch fails.
 * The values that Math.random() returns are supplied as an explicit oracle.
 */
module Fallback {
  import opened Wrappers
  import opened Numerals
  import opened Users

  const BatchSize: nat := 50

  const FirstNames: seq<string> := ["John", "Jane", "Peter", "Alice", "Bob", "Eve", "Mike", "Sarah", "Chris", "Laura"]
  const LastNames: seq<string> := ["Doe", "Smith", "Johnson", "Williams", "Brown", "Jones", "White", "Black", "Green", "King"]
  const Countries: seq<string> := ["USA", "Canada", "UK", "Australia", "Germany", "France"]
  const Cities: seq<string> := ["New York", "Toronto", "London", "Sydney", "Berlin", "Paris"]

  /** The placeholder image every generated record points to. */
  const Thumbnail: string := "https://via.placeholder.com/150/0000FF/FFFFFF?text=Mock"

  /** 365 * 24 * 60 * 60 * 1000: the window, in milliseconds, registration instants are drawn from. */
  const YearMs: nat := 31_536_000_000

  /**
   * What Math.random() yields during one iteration, in call order: first name, last name,
   * country, city, registration offset, id suffix, and the three phone groups. The id suffix
   * is kept as the string `Math.random().toString(36).substring(7)` makes of its draw.
   */
  datatype Draws = Draws(first: real, last: real, country: real, city: real, age: real,
                         suffix: string, area: real, exchange: real, line: real)

  /** Math.random() returns a number in [0, 1). */
  predicate UnitInterval(r: real) {
    0.0 <= r < 1.0
  }

  predicate ValidDraws(d: Draws) {
    && UnitInterval(d.first) && UnitInterval(d.last) && UnitInterval(d.country) && UnitInterval(d.city)
    && UnitInterval(d.age) && UnitInterval(d.area) && UnitInterval(d.exchange) && UnitInterval(d.line)
  }

  /** `Math.floor(r * n)`: an index into a pool of n elements. */
  function Pick(r: real, n: nat): (i: nat)
    requires UnitInterval(r) && n > 0
    ensures i < n
  {
    assert 0.0 <= r * n as real < n as real;
    (r * n as real).Floor
  }

  /** `Math.floor(lo + r * width)`: a number from lo to lo + width - 1. */
  function Between(lo: nat, width: nat, r: real): (v: nat)
    requires UnitInterval(r) && width > 0
    ensures lo <= v < lo + width
  {
    assert 0.0 <= r * width as real < width as real;
    (lo as real + r * width as real).Floor
  }

  /** The integer part of x, rounding toward zero, as the Date constructor does with a time value. */
  function Truncate(x: real): int {
    if x >= 0.0 then x.Floor else -((-x).Floor)
  }

  /** `new Date(now - r * 365 * 24 * 60 * 60 * 1000)` in milliseconds: within the year before now. */
  function RegistrationInstant(now: int, r: real): (t: int)
    requires UnitInterval(r)
    ensures now - YearMs <= t <= now
  {
    assert 0.0 <= r * YearMs as real < YearMs as real;
    Truncate(now as real - r * YearMs as real)
  }

  function LowerChar(c: char): char {
    if 'A' <= c <= 'Z' then (c as int - 'A' as int + 'a' as int) as char else c
  }

  /** `toLowerCase()` on the ASCII names of the pools. */
  function Lower(s: string): (r: string)
    ensures |r| == |s| && forall k :: 0 <= k < |s| ==> r[k] == LowerChar(s[k])
  {
    seq(|s|, k requires 0 <= k < |s| => LowerChar(s[k]))
  }

  /** The part of a generated id that precedes the random suffix. */
  function IdPrefix(i: nat): string {
    "mock-" + NatToString(i + 1) + "-"
  }

  /** `mock-${i + 1}-${suffix}` */
  function MockId(i: nat, suffix: string): string {
    IdPrefix(i) + suffix
  }

  /** `${first.toLowerCase()}.${last.toLowerCase()}${i}@example.com`: index i, not i + 1. */
  function MockEmail(i: nat, first: string, last: string): string {
    Lower(first) + "." + Lower(last) + NatToString(i) + "@example.com"
  }

  /** `+1-${area}-${exchange}-${line}` */
  function MockPhone(area: nat, exchange: nat, line: nat): string {
    "+1-" + NatToString(area) + "-" + NatToString(exchange) + "-" + NatToString(line)
  }

  /** The record pushed in iteration i, with the instant formatter `toISOString` as a parameter. */
  function FallbackRecord(i: nat, d: Draws, now: int, iso: int -> string): User
    requires ValidDraws(d)
  {
    var first := FirstNames[Pick(d.first, |FirstNames|)];
    var last := LastNames[Pick(d.last, |LastNames|)];
    User(
      Some(MockId(i, d.suffix)),
      Name(first, last),
      MockEmail(i, first, last),
      MockPhone(Between(100, 900, d.area), Between(100, 900, d.exchange), Between(1000, 9000, d.line)),
      Location(Countries[Pick(d.country, |Countries|)], Cities[Pick(d.city, |Cities|)]),
      iso(RegistrationInstant(now, d.age)),
      Thumbnail)
  }

  /** A phone number of the form +1-NNN-NNN-NNNN whose groups read 100-999, 100-999 and 1000-9999. */
  ghost predicate PhoneShaped(p: string) {
    && |p| == 15 && p[..3] == "+1-" && p[6] == '-' && p[10] == '-'
    && AllDigits(p[3..6]) && AllDigits(p[7..10]) && AllDigits(p[11..])
    && 100 <= ParseNat(p[3..6]) <= 999
    && 100 <= ParseNat(p[7..10]) <= 999
    && 1000 <= ParseNat(p[11..]) <= 9999
  }

  /** What every record of a fallback batch looks like, by its 0-based position i. */
  ghost predicate FallbackShaped(i: nat, u: User, now: int, iso: int -> string) {
    && u.id.Some? && |IdPrefix(i)| <= |u.id.value| && u.id.value[..|IdPrefix(i)|] == IdPrefix(i)
    && u.name.first in FirstNames && u.name.last in LastNames
    && u.email == Lower(u.name.first) + "." + Lower(u.name.last) + NatToString(i) + "@example.com"
    && PhoneShaped(u.phone)
    && u.location.country in Countries && u.location.city in Cities
    && (exists t :: now - YearMs <= t <= now && u.registeredDate == iso(t))
    && u.thumbnail == Thumbnail
    && Normal(u)
  }

  lemma PhoneIsShaped(area: nat, exchange: nat, line: nat)
    requires 100 <= area <= 999 && 100 <= exchange <= 999 && 1000 <= line <= 9999
    ensures PhoneShaped(MockPhone(area, exchange, line))
  {
    NatToStringWidth(area);
    NatToStringWidth(exchange);
    NatToStringWidth(line);
    ParseNatToString(area);
    ParseNatToString(exchange);
    ParseNatToString(line);
    var p := MockPhone(area, exchange, line);
    assert p[3..6] == NatToString(area);
    assert p[7..10] == NatToString(exchange);
    assert p[11..] == NatToString(line);
  }

  /** Every generated record has the fallback shape for its position. */
  lemma FallbackRecordShaped(i: nat, d: Draws, now: int, iso: int -> string)
    requires ValidDraws(d)
    ensures FallbackShaped(i, FallbackRecord(i, d, now, iso), now, iso)
  {
    var u := FallbackRecord(i, d, now, iso);
    PhoneIsShaped(Between(100, 900, d.area), Between(100, 900, d.exchange), Between(1000, 9000, d.line));
    var t := RegistrationInstant(now, d.age);
    assert now - YearMs <= t <= now && u.registeredDate == iso(t);
    assert u.id.value[..|IdPrefix(i)|] == IdPrefix(i);
  }

  /** Digits followed by a dash: the digits are determined. */
  lemma DigitsBeforeDash(x: string, y: string, s: string, t: string)
    requires AllDigits(x) && AllDigits(y)
    requires x + "-" + s == y + "-" + t
    ensures x == y
  {
    var line := x + "-" + s;
    assert line[|x|] == '-' && line[|y|] == '-';
    assert x == line[..|x|];
    assert y == line[..|y|];
  }

  /** Ids of different positions differ, whatever their random suffixes. */
  lemma MockIdsDistinct(i: nat, j: nat, s: string, t: string)
    requires i != j
    ensures MockId(i, s) != MockId(j, t)
  {
    if MockId(i, s) == MockId(j, t) {
      var x, y := NatToString(i + 1), NatToString(j + 1);
      assert MockId(i, s) == "mock-" + (x + "-" + s);
      assert MockId(j, t) == "mock-" + (y + "-" + t);
      assert x + "-" + s == MockId(i, s)[5..];
      DigitsBeforeDash(x, y, s, t);
      NatToStringInjective(i + 1, j + 1);
    }
  }

  /** A non-empty string ending in a non-digit, followed by digits: the digits are determined. */
  lemma DigitsAfterWord(a: string, b: string, x: string, y: string)
    requires a != [] && b != [] && !IsDigit(a[|a| - 1]) && !IsDigit(b[|b| - 1])
    requires AllDigits(x) && AllDigits(y)
    requires a + x == b + y
    ensures x == y
  {
    var word := a + x;
    var n := |word|;
    assert word[n - |x| - 1] == a[|a| - 1] && word[n - |y| - 1] == b[|b| - 1];
    assert x == word[|a|..];
    assert y == word[|b|..];
  }

  /** Every surname of the pool ends in a letter. */
  lemma LastNamesEndInLetter(last: string)
    requires last in LastNames
    ensures last != [] && !IsDigit(LowerChar(last[|last| - 1]))
  {
  }

  /** Emails of different positions differ, whatever names were drawn. */
  lemma MockEmailsDistinct(i: nat, j: nat, f1: string, l1: string, f2: string, l2: string)
    requires i != j && l1 in LastNames && l2 in LastNames
    ensures MockEmail(i, f1, l1) != MockEmail(j, f2, l2)
  {
    if MockEmail(i, f1, l1) == MockEmail(j, f2, l2) {
      var a, b := Lower(f1) + "." + Lower(l1), Lower(f2) + "." + Lower(l2);
      var x, y := NatToString(i), NatToString(j);
      var domain := "@example.com";
      assert MockEmail(i, f1, l1) == (a + x) + domain;
      assert MockEmail(j, f2, l2) == (b + y) + domain;
      assert a + x == MockEmail(i, f1, l1)[..|a + x|];
      assert b + y == MockEmail(j, f2, l2)[..|b + y|];
      LastNamesEndInLetter(l1);
      LastNamesEndInLetter(l2);
      assert a[|a| - 1] == LowerChar(l1[|l1| - 1]);
      assert b[|b| - 1] == LowerChar(l2[|l2| - 1]);
      DigitsAfterWord(a, b, x, y);
      NatToStringInjective(i, j);
    }
  }

  /** The loop of fallbackUsers, pushing one record per iteration. */
  method FallbackUsers(now: int, draws: seq<Draws>, iso: int -> string) returns (users: seq<User>)
    requires |draws| == BatchSize
    requires forall i :: 0 <= i < |draws| ==> ValidDraws(draws[i])
    ensures |users| == BatchSize
    ensures forall i :: 0 <= i < |users| ==> users[i] == FallbackRecord(i, draws[i], now, iso)
    ensures forall i :: 0 <= i < |users| ==> FallbackShaped(i, users[i], now, iso)
    ensures forall i, j :: 0 <= i < j < |users| ==> users[i].id != users[j].id && users[i].email != users[j].email
  {
    users := [];
    for i := 0 to BatchSize
      invariant |users| == i
      invariant forall k :: 0 <= k < i ==> users[k] == FallbackRecord(k, draws[k], now, iso)
    {
      var d := draws[i];
      var firstName := FirstNames[Pick(d.first, |FirstNames|)];
      var lastName := LastNames[Pick(d.last, |LastNames|)];
      var country := Countries[Pick(d.country, |Countries|)];
      var city := Cities[Pick(d.city, |Cities|)];
      var regDate := RegistrationInstant(now, d.age);
      users := users + [User(
        Some(MockId(i, d.suffix)),
        Name(firstName, lastName),
        MockEmail(i, firstName, lastName),
        MockPhone(Between(100, 900, d.area), Between(100, 900, d.exchange), Between(1000, 9000, d.line)),
        Location(country, city),
        iso(regDate),
        Thumbnail)];
    }
    forall i | 0 <= i < |users|
      ensures FallbackShaped(i, users[i], now, iso)
    {
      FallbackRecordShaped(i, draws[i], now, iso);
    }
    forall i, j | 0 <= i < j < |users|
      ensures users[i].id != users[j].id && users[i].email != users[j].email
    {
      MockIdsDistinct(i, j, draws[i].suffix, draws[j].suffix);
      FallbackRecordShaped(i, draws[i], now, iso);
      FallbackRecordShaped(j, draws[j], now, iso);
      MockEmailsDistinct(i, j, users[i].name.first, users[i].name.last, users[j].name.first, users[j].name.last);
    }
  }
}
