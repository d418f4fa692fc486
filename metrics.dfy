/**
 * buildMetrics: the number of records, the number of records per country and the
 * average registration age in whole days.
 */
module Metrics {
  import opened Wrappers
  import opened Users

  /** Milliseconds in a day: 1000 * 60 * 60 * 24. */
  const DayMs: nat := 86_400_000

  /** The key under which records without a country are counted. */
  const UnknownCountry: string := "Unknown"

  /**
   * The result of buildMetrics. The average is the exact ratio; the source rounds it
   * to two decimals.
   */
  datatype Summary = Summary(totalUsers: nat, usersByCountry: map<string, nat>, averageRegistrationAgeInDays: real)

  /** `user.location?.country || 'Unknown'` */
  function CountryKey(u: User): string {
    if u.location.country != "" then u.location.country else UnknownCountry
  }

  function Abs(x: int): nat {
    if x < 0 then -x else x
  }

  /** `Math.ceil(Math.abs(now - t) / 86400000)` on instants in milliseconds. */
  function RegistrationAge(now: int, t: int): (days: nat)
    ensures (days - 1) * DayMs < Abs(now - t) <= days * DayMs
    ensures days == 0 <==> now == t
  {
    var d := Abs(now - t);
    if d % DayMs == 0 then d / DayMs else d / DayMs + 1
  }

  /** The age does not depend on whether the instant lies in the past or in the future. */
  lemma AgeIgnoresDirection(now: int, t: int)
    ensures RegistrationAge(now, t) == RegistrationAge(t, now)
  {
  }

  /**
   * The registration instant of a record: None when `registered.date` is empty or does
   * not parse (`isNaN(new Date(date).getTime())`).
   */
  function Instant(u: User, parse: string -> Option<int>): Option<int> {
    if u.registeredDate == "" then None else parse(u.registeredDate)
  }

  /** The ages of the records with a valid registration instant, in record order. */
  function Ages(users: seq<User>, now: int, parse: string -> Option<int>): (ages: seq<nat>)
    ensures |ages| <= |users|
  {
    if users == [] then []
    else
      var rest := Ages(users[..|users| - 1], now, parse);
      match Instant(users[|users| - 1], parse)
      case None => rest
      case Some(t) => rest + [RegistrationAge(now, t)]
  }

  function Sum(s: seq<nat>): nat {
    if s == [] then 0 else Sum(s[..|s| - 1]) + s[|s| - 1]
  }

  /** `total / count`, or 0 when no age was counted. */
  function Mean(s: seq<nat>): real {
    if |s| == 0 then 0.0 else Sum(s) as real / |s| as real
  }

  function SeqMin(s: seq<nat>): (m: nat)
    requires s != []
    ensures m in s && forall k :: 0 <= k < |s| ==> m <= s[k]
  {
    if |s| == 1 then s[0] else
      var m := SeqMin(s[1..]);
      if s[0] <= m then s[0] else m
  }

  function SeqMax(s: seq<nat>): (m: nat)
    requires s != []
    ensures m in s && forall k :: 0 <= k < |s| ==> s[k] <= m
  {
    if |s| == 1 then s[0] else
      var m := SeqMax(s[1..]);
      if s[0] >= m then s[0] else m
  }

  /** The `reduce` over the records: counts keyed by CountryKey. */
  function CountByCountry(users: seq<User>): map<string, nat> {
    if users == [] then map[]
    else
      var acc := CountByCountry(users[..|users| - 1]);
      var key := CountryKey(users[|users| - 1]);
      acc[key := (if key in acc then acc[key] else 0) + 1]
  }

  /** The number of records counted under key, the reference for CountByCountry. */
  function CountOf(users: seq<User>, key: string): nat {
    if users == [] then 0
    else CountOf(users[..|users| - 1], key) + if CountryKey(users[|users| - 1]) == key then 1 else 0
  }

  /** The number of records whose `location.country` is exactly c. */
  function WithCountry(users: seq<User>, c: string): nat {
    if users == [] then 0
    else WithCountry(users[..|users| - 1], c) + if users[|users| - 1].location.country == c then 1 else 0
  }

  /** The sum of the values of a map. */
  ghost function MapSum(m: map<string, nat>): nat
    decreases |m|
  {
    if m == map[] then 0
    else
      var k :| k in m;
      m[k] + MapSum(m - {k})
  }

  // ---------------------------------------------------------------------------
  // buildMetrics

  /** The `reduce` that fills the `acc` dictionary, one record at a time. */
  method CountCountries(users: seq<User>) returns (usersByCountry: map<string, nat>)
    ensures usersByCountry == CountByCountry(users)
  {
    usersByCountry := map[];
    for i := 0 to |users|
      invariant usersByCountry == CountByCountry(users[..i])
    {
      assert users[..i + 1][..i] == users[..i];
      var country := if users[i].location.country != "" then users[i].location.country else UnknownCountry;
      usersByCountry := usersByCountry[country := (if country in usersByCountry then usersByCountry[country] else 0) + 1];
    }
    assert users[..|users|] == users;
  }

  /** The `forEach` that adds up the ages of the records with a valid registration date. */
  method AccumulateAges(users: seq<User>, now: int, parse: string -> Option<int>)
    returns (totalRegistrationAgeInDays: nat, validRegistrationDates: nat)
    ensures totalRegistrationAgeInDays == Sum(Ages(users, now, parse))
    ensures validRegistrationDates == |Ages(users, now, parse)|
  {
    totalRegistrationAgeInDays, validRegistrationDates := 0, 0;
    for i := 0 to |users|
      invariant totalRegistrationAgeInDays == Sum(Ages(users[..i], now, parse))
      invariant validRegistrationDates == |Ages(users[..i], now, parse)|
    {
      assert users[..i + 1][..i] == users[..i];
      if users[i].registeredDate != "" {
        var registered := parse(users[i].registeredDate);
        if registered.Some? {
          var diffDays := RegistrationAge(now, registered.value);
          totalRegistrationAgeInDays := totalRegistrationAgeInDays + diffDays;
          validRegistrationDates := validRegistrationDates + 1;
        }
      }
    }
    assert users[..|users|] == users;
  }

  method BuildMetrics(users: seq<User>, now: int, parse: string -> Option<int>) returns (m: Summary)
    ensures m.totalUsers == |users|
    ensures m.usersByCountry == CountByCountry(users)
    ensures m.averageRegistrationAgeInDays == Mean(Ages(users, now, parse))
    ensures users == [] ==> m == Summary(0, map[], 0.0)
  {
    var usersByCountry := CountCountries(users);
    var totalRegistrationAgeInDays, validRegistrationDates := AccumulateAges(users, now, parse);
    var average := if validRegistrationDates > 0
      then totalRegistrationAgeInDays as real / validRegistrationDates as real
      else 0.0;
    m := Summary(|users|, usersByCountry, average);
  }

  // ---------------------------------------------------------------------------
  // Properties of the country counts

  /** Each key of usersByCountry holds exactly the number of records counted under it; no other key appears. */
  lemma {:induction false} CountByCountryExact(users: seq<User>, key: string)
    ensures key in CountByCountry(users) <==> CountOf(users, key) > 0
    ensures key in CountByCountry(users) ==> CountByCountry(users)[key] == CountOf(users, key)
  {
    if users != [] {
      CountByCountryExact(users[..|users| - 1], key);
    }
  }

  /** A key that counts some record is the key of one of the records. */
  lemma {:induction false} CountedKeyOccurs(users: seq<User>, key: string)
    requires CountOf(users, key) > 0
    ensures exists i :: 0 <= i < |users| && CountryKey(users[i]) == key
  {
    var init := users[..|users| - 1];
    if CountryKey(users[|users| - 1]) != key {
      CountedKeyOccurs(init, key);
      var i :| 0 <= i < |init| && CountryKey(init[i]) == key;
      assert users[i] == init[i];
    }
  }

  /**
   * The sentinel key counts the records with an empty country together with any whose
   * country is literally "Unknown"; every other non-empty key counts the records carrying
   * that country; the empty string is never a key.
   */
  lemma {:induction false} CountOfByCountry(users: seq<User>, key: string)
    ensures key == UnknownCountry ==> CountOf(users, key) == WithCountry(users, "") + WithCountry(users, UnknownCountry)
    ensures key != UnknownCountry && key != "" ==> CountOf(users, key) == WithCountry(users, key)
    ensures CountOf(users, "") == 0
  {
    if users != [] {
      CountOfByCountry(users[..|users| - 1], key);
      CountOfByCountry(users[..|users| - 1], "");
    }
  }

  /** Removing one key from a map removes its value from the sum. */
  lemma {:induction false} MapSumRemove(m: map<string, nat>, k: string)
    requires k in m
    ensures MapSum(m) == m[k] + MapSum(m - {k})
    decreases |m|
  {
    var j :| j in m && MapSum(m) == m[j] + MapSum(m - {j});
    if j != k {
      MapSumRemove(m - {j}, k);
      MapSumRemove(m - {k}, j);
      assert m - {j} - {k} == m - {k} - {j};
    }
  }

  /** The country counts add up to totalUsers. */
  lemma {:induction false} CountsSumToTotal(users: seq<User>)
    ensures MapSum(CountByCountry(users)) == |users|
  {
    if users != [] {
      var init := users[..|users| - 1];
      CountsSumToTotal(init);
      var acc := CountByCountry(init);
      var key := CountryKey(users[|users| - 1]);
      var acc' := CountByCountry(users);
      MapSumRemove(acc', key);
      if key in acc {
        MapSumRemove(acc, key);
        assert acc' - {key} == acc - {key};
      } else {
        assert acc' - {key} == acc;
      }
    }
  }

  /**
   * Registration dates have no effect on the country counts: records that agree on
   * their locations are counted alike, whatever their dates (or other fields).
   */
  lemma {:induction false} CountsIgnoreDates(users: seq<User>, others: seq<User>)
    requires |users| == |others|
    requires forall i :: 0 <= i < |users| ==> users[i].location == others[i].location
    ensures CountByCountry(users) == CountByCountry(others)
  {
    if users != [] {
      CountsIgnoreDates(users[..|users| - 1], others[..|others| - 1]);
    }
  }

  // ---------------------------------------------------------------------------
  // Properties of the average

  /** With no valid registration instant the average is 0. */
  lemma {:induction false} NoValidDateMeansZero(users: seq<User>, now: int, parse: string -> Option<int>)
    requires forall i :: 0 <= i < |users| ==> Instant(users[i], parse).None?
    ensures Ages(users, now, parse) == []
    ensures Mean(Ages(users, now, parse)) == 0.0
  {
    if users != [] {
      NoValidDateMeansZero(users[..|users| - 1], now, parse);
    }
  }

  /** When every record has a valid instant, every record contributes an age. */
  lemma {:induction false} AllValidDatesCount(users: seq<User>, now: int, parse: string -> Option<int>)
    requires forall i :: 0 <= i < |users| ==> Instant(users[i], parse).Some?
    ensures |Ages(users, now, parse)| == |users|
  {
    if users != [] {
      AllValidDatesCount(users[..|users| - 1], now, parse);
    }
  }

  /** Ages lists, for each record with a valid instant, its ceiling-day distance to now. */
  lemma {:induction false} AgesAreRegistrationAges(users: seq<User>, now: int, parse: string -> Option<int>, k: nat)
    requires k < |Ages(users, now, parse)|
    ensures exists i :: 0 <= i < |users| && Instant(users[i], parse).Some?
                        && Ages(users, now, parse)[k] == RegistrationAge(now, Instant(users[i], parse).value)
  {
    var init := users[..|users| - 1];
    var last := users[|users| - 1];
    if k < |Ages(init, now, parse)| {
      AgesAreRegistrationAges(init, now, parse, k);
      var i :| 0 <= i < |init| && Instant(init[i], parse).Some?
               && Ages(init, now, parse)[k] == RegistrationAge(now, Instant(init[i], parse).value);
      assert users[i] == init[i];
    } else {
      assert Instant(last, parse).Some?;
    }
  }

  lemma {:induction false} SumBounds(s: seq<nat>, lo: nat, hi: nat)
    requires forall k :: 0 <= k < |s| ==> lo <= s[k] <= hi
    ensures lo * |s| <= Sum(s) <= hi * |s|
  {
    if s != [] {
      SumBounds(s[..|s| - 1], lo, hi);
      assert lo * |s| == lo * (|s| - 1) + lo;
      assert hi * |s| == hi * (|s| - 1) + hi;
    }
  }

  /** A mean of values between lo and hi lies between lo and hi. */
  lemma MeanBounds(s: seq<nat>, lo: nat, hi: nat)
    requires s != []
    requires forall k :: 0 <= k < |s| ==> lo <= s[k] <= hi
    ensures lo as real <= Mean(s) <= hi as real
  {
    SumBounds(s, lo, hi);
    IntQuotientBounds(lo, Sum(s), hi, |s|);
  }

  lemma IntQuotientBounds(lo: nat, x: nat, hi: nat, n: nat)
    requires n > 0 && lo * n <= x <= hi * n
    ensures lo as real <= x as real / n as real <= hi as real
  {
    assert (lo * n) as real == lo as real * n as real;
    assert (hi * n) as real == hi as real * n as real;
    QuotientBounds(lo as real, x as real, hi as real, n as real);
  }

  lemma QuotientBounds(lo: real, x: real, hi: real, n: real)
    requires n > 0.0 && lo * n <= x <= hi * n
    ensures lo <= x / n <= hi
  {
    assert x / n - lo == (x - lo * n) / n;
    assert hi - x / n == (hi * n - x) / n;
  }

  /** The average lies between the smallest and the largest valid age. */
  lemma AverageBetweenMinAndMax(users: seq<User>, now: int, parse: string -> Option<int>)
    requires Ages(users, now, parse) != []
    ensures SeqMin(Ages(users, now, parse)) as real <= Mean(Ages(users, now, parse))
    ensures Mean(Ages(users, now, parse)) <= SeqMax(Ages(users, now, parse)) as real
  {
    var ages := Ages(users, now, parse);
    MeanBounds(ages, SeqMin(ages), SeqMax(ages));
  }

  // ---------------------------------------------------------------------------
  // The tally as written: `acc` is a plain JavaScript object `{}`

  /** The properties that every `{}` inherits from Object.prototype, other than `__proto__`. */
  const InheritedNames: set<string> := {
    "constructor", "hasOwnProperty", "isPrototypeOf", "propertyIsEnumerable",
    "toLocaleString", "toString", "valueOf",
    "__defineGetter__", "__defineSetter__", "__lookupGetter__", "__lookupSetter__"}

  /** The accessor for an object's prototype, also inherited by every `{}`. */
  const ProtoKey: string := "__proto__"

  /**
   * An own property of the tally object: a count, or a string, which is what `+ 1`
   * makes of an inherited method or of such a string.
   */
  datatype Slot = Num(n: nat) | Text

  /** `acc[country] = (acc[country] || 0) + 1` on a plain object. */
  function TallyStep(acc: map<string, Slot>, key: string): map<string, Slot> {
    if key == ProtoKey then
      // acc.__proto__ is Object.prototype; the string it turns into is not an object,
      // so the __proto__ setter ignores it
      acc
    else if key in acc then
      match acc[key]
      case Num(n) => acc[key := Num(n + 1)]
      case Text => acc
    else if key in InheritedNames then
      acc[key := Text]
    else
      acc[key := Num(1)]
  }

  /** The `reduce` of buildMetrics as it runs on a plain object. */
  function TallyAsWritten(users: seq<User>): map<string, Slot> {
    if users == [] then map[]
    else TallyStep(TallyAsWritten(users[..|users| - 1]), CountryKey(users[|users| - 1]))
  }

  function AsSlots(m: map<string, nat>): map<string, Slot> {
    map k | k in m :: Num(m[k])
  }

  /** A record whose country is "__proto__" is not counted at all. */
  lemma ProtoCountryIsLost(u: User)
    requires u.location.country == ProtoKey
    ensures TallyAsWritten([u]) == map[]
    ensures CountByCountry([u]) == map[ProtoKey := 1]
  {
  }

  /** A record whose country is "toString" gets a string where a count belongs. */
  lemma InheritedNameCountIsText(u: User)
    requires u.location.country == "toString"
    ensures TallyAsWritten([u, u]) == map["toString" := Text]
    ensures CountByCountry([u, u]) == map["toString" := 2]
  {
    assert [u, u][..1] == [u];
    assert CountryKey(u) == "toString" && "toString" in InheritedNames;
    assert TallyAsWritten([u]) == map["toString" := Text];
    assert CountByCountry([u]) == map["toString" := 1];
  }

  /** Away from the inherited property names the object tally and the counts agree. */
  lemma {:induction false} TallyAgreesElsewhere(users: seq<User>)
    requires forall i :: 0 <= i < |users| ==> CountryKey(users[i]) != ProtoKey
    requires forall i :: 0 <= i < |users| ==> CountryKey(users[i]) !in InheritedNames
    ensures TallyAsWritten(users) == AsSlots(CountByCountry(users))
  {
    if users != [] {
      var init := users[..|users| - 1];
      TallyAgreesElsewhere(init);
      var key := CountryKey(users[|users| - 1]);
      var acc := CountByCountry(init);
      assert AsSlots(acc[key := (if key in acc then acc[key] else 0) + 1])
          == AsSlots(acc)[key := Num((if key in acc then acc[key] else 0) + 1)];
    }
  }
}
