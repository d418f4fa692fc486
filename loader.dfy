/**
 * loadUsers: the live records when the fetch and the mapping succeed, a fallback
 * batch otherwise. The request itself is abstracted as its outcome.
 */
module Loader {
  import opened Wrappers
  import opened Users
  import opened Fallback
  import opened Metrics

  /** What the request leaves for the mapping step. */
  datatype FetchOutcome =
      /** `fetch` rejected, the status was not ok, or `response.json()` rejected. */
    | Failed
      /** The parsed body; None when `data.results` cannot be read or has no `map` (not an array). */
    | Received(results: Option<seq<RawEntry>>)

  /** The records handed to the caller and whether the fallback batch replaced them. */
  datatype Loaded = Loaded(users: seq<User>, fallbackUsed: bool)

  /** The try block of loadUsers throws: the request failed, or `data.results.map(...)` threw. */
  predicate Throws(outcome: FetchOutcome) {
    || outcome.Failed?
    || outcome.results.None?
    || NormalizeResults(outcome.results.value).None?
  }

  /**
   * The branch of loadUsers. The fallback batch is generated only when the try block
   * throws; `draws` are the values Math.random() would then return.
   */
  method LoadUsers(outcome: FetchOutcome, now: int, draws: seq<Draws>, iso: int -> string) returns (r: Loaded)
    requires |draws| == BatchSize
    requires forall i :: 0 <= i < |draws| ==> ValidDraws(draws[i])
    ensures r.fallbackUsed <==> Throws(outcome)
    ensures !r.fallbackUsed ==> |r.users| == |outcome.results.value|
    ensures !r.fallbackUsed ==> forall i :: 0 <= i < |r.users| ==> r.users[i] == Normalize(outcome.results.value[i].user)
    ensures r.fallbackUsed ==> |r.users| == BatchSize
    ensures r.fallbackUsed ==> forall i :: 0 <= i < |r.users| ==> FallbackShaped(i, r.users[i], now, iso)
    ensures forall i :: 0 <= i < |r.users| ==> Normal(r.users[i])
  {
    var users: seq<User> := [];
    var fallbackUsed := false;
    var mapped := if outcome.Received? && outcome.results.Some? then NormalizeResults(outcome.results.value) else None;
    if mapped.Some? {
      users := mapped.value;
      fallbackUsed := false;
    } else {
      users := FallbackUsers(now, draws, iso);
      fallbackUsed := true;
    }
    r := Loaded(users, fallbackUsed);
  }

  /**
   * Metrics over a fallback batch generated at `now` and summarised at `later`, when every
   * generated date string parses back to its instant: 50 records, only pool countries as
   * keys, every date valid, and an average of at most 365 days plus the age of the
   * generation instant at `later`.
   */
  lemma FallbackBatchMetrics(users: seq<User>, now: int, later: int, iso: int -> string, parse: string -> Option<int>)
    requires now <= later
    requires |users| == BatchSize
    requires forall i :: 0 <= i < |users| ==> FallbackShaped(i, users[i], now, iso)
    requires forall t :: now - YearMs <= t <= now ==> iso(t) != "" && parse(iso(t)) == Some(t)
    ensures forall k :: k in CountByCountry(users) ==> k in Countries
    ensures |Ages(users, later, parse)| == BatchSize
    ensures 0.0 <= Mean(Ages(users, later, parse)) <= (365 + RegistrationAge(later, now)) as real
  {
    PoolCountriesOnly(users);
    FallbackBatchAges(users, now, later, iso, parse);
    AllValidDatesCount(users, later, parse);
    var bound := 365 + RegistrationAge(later, now);
    var ages := Ages(users, later, parse);
    forall k | 0 <= k < |ages|
      ensures ages[k] <= bound
    {
      AgesAreRegistrationAges(users, later, parse, k);
    }
    MeanBounds(ages, 0, bound);
  }

  /** When every record carries a pool country, every key of the country counts is a pool country. */
  lemma PoolCountriesOnly(users: seq<User>)
    requires forall i :: 0 <= i < |users| ==> users[i].location.country in Countries
    ensures forall k :: k in CountByCountry(users) ==> k in Countries
  {
    forall k | k in CountByCountry(users)
      ensures k in Countries
    {
      CountByCountryExact(users, k);
      PoolCountryKey(users, k);
    }
  }

  lemma PoolCountryKey(users: seq<User>, k: string)
    requires forall i :: 0 <= i < |users| ==> users[i].location.country in Countries
    requires CountOf(users, k) > 0
    ensures k in Countries
  {
    CountedKeyOccurs(users, k);
    var i :| 0 <= i < |users| && CountryKey(users[i]) == k;
    PoolCountryNonEmpty(users[i].location.country);
  }

  lemma PoolCountryNonEmpty(c: string)
    requires c in Countries
    ensures c != ""
  {
  }

  /** Every record of a fallback batch has a valid instant, whose age at `later` is bounded. */
  lemma FallbackBatchAges(users: seq<User>, now: int, later: int, iso: int -> string, parse: string -> Option<int>)
    requires now <= later
    requires forall i :: 0 <= i < |users| ==> FallbackShaped(i, users[i], now, iso)
    requires forall t :: now - YearMs <= t <= now ==> iso(t) != "" && parse(iso(t)) == Some(t)
    ensures forall i :: 0 <= i < |users| ==> Instant(users[i], parse).Some?
    ensures forall i :: 0 <= i < |users| ==>
              RegistrationAge(later, Instant(users[i], parse).value) <= 365 + RegistrationAge(later, now)
  {
    forall i | 0 <= i < |users|
      ensures Instant(users[i], parse).Some?
      ensures RegistrationAge(later, Instant(users[i], parse).value) <= 365 + RegistrationAge(later, now)
    {
      var t :| now - YearMs <= t <= now && users[i].registeredDate == iso(t);
      assert Instant(users[i], parse) == Some(t);
      AgeWithinWindow(now, later, t);
    }
  }

  /**
   * An instant at most 365 days before the generation instant `now` is, at `later`, at most
   * 365 days older than `now` is.
   */
  lemma AgeWithinWindow(now: int, later: int, t: int)
    requires now - YearMs <= t <= now <= later
    ensures RegistrationAge(later, t) <= 365 + RegistrationAge(later, now)
  {
    var days, base := RegistrationAge(later, t), RegistrationAge(later, now);
    assert (days - 1) * DayMs < later - t <= later - now + YearMs;
    assert later - now <= base * DayMs;
    assert YearMs == 365 * DayMs;
    assert (days - 1) * DayMs < (base + 365) * DayMs;
  }
}
