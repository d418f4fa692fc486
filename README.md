# randomuser: a verified model of user loading, fallback generation and metrics

This project models `src/lib/randomuser.js`. That module fetches a batch of user records from the randomuser.me API and normalises each record to one fixed shape. When the fetch or the mapping fails, it substitutes 50 synthetic records. It also summarises any list of records: the total, the count per country and the average registration age in whole days.

Modules:

- `Users` (`users.dfy`): the raw API record, in which any property may be missing. Also the normalised seven-property record, and the normalising lambda of `loadUsers`.
- `Metrics` (`metrics.dfy`): `buildMetrics`. Its `reduce` and its `forEach` become two loop methods, proved against recursive specification functions, with lemmas about those functions. It also holds the as-written tally over a plain JavaScript object (see "## Findings").
- `Fallback` (`fallback.dfy`): `fallbackUsers`, a loop that pushes 50 records. Every value `Math.random()` would return is supplied as an oracle.
- `Loader` (`loader.dfy`): the success/fallback branch of `loadUsers`, over an abstract fetch outcome.
- `Numerals` (`numerals.dfy`): how a template literal renders a number (`${n}`), and the parse that undoes it.
- `Wrappers` (`wrappers.dfy`): `Option`.

Modelling choices:

- A leaf of a raw record is `Option<string>`. `None` stands for missing, `null` or `undefined`.
- JavaScript truthiness of a leaf is "present and non-empty".
- An element of `data.results` that is `null` or `undefined` makes the mapping throw. The whole batch is then replaced by the fallback.
- Instants are integer milliseconds.
- Parsing a date string is a parameter `parse: string -> Option<int>`. `None` stands for an invalid Date.
- Formatting an instant (`toISOString`) is a parameter `iso: int -> string`.
- The current time is a parameter `now`.
- Ages use exact integer ceiling division.
- The average is an exact `real` ratio.

Notes on what the code does:

- Each phone group is drawn as a number: 100-999, 100-999 and 1000-9999. So no group starts with `0`.
- An unparseable `registered.date` string is kept as it is by normalisation. Only a missing or empty date becomes `''`. Unparseable dates are skipped only inside the metrics.
- Fallback records are never passed through the normalising lambda. They are built in the normalised shape directly. `Users.NormalizeAsRaw` shows that normalising such a record again changes nothing.

## Model

| member | source | states |
|---|---|---|
| `Users.Normalize` | src/lib/randomuser.js:44-52 | Every leaf of the result equals the raw leaf reached by optional chaining when that leaf is truthy. Otherwise it is `''`, or `null` for `id.value`. Every leaf except `id.value` is always present. The id is never the empty string. |
| `Users.NormalizeResults` | src/lib/randomuser.js:44-52 | The mapping succeeds exactly when no element of `results` is null or undefined. It then keeps length and order, and element i is the normalisation of raw element i. |
| `Users.NormalizeAsRaw` | src/lib/randomuser.js:44-52 | A record already in normal shape is returned unchanged by normalisation. |
| `Users.NormalizeIdempotent` | src/lib/randomuser.js:44-52 | Normalising twice is the same as normalising once. |
| `Metrics.RegistrationAge` | src/lib/randomuser.js:84-85 | The age is the ceiling of the distance in days: `(days-1)*86400000 < abs(now-t) <= days*86400000`. It is 0 exactly when the instants coincide. |
| `Metrics.AgeIgnoresDirection` | src/lib/randomuser.js:84 | The age is the same whether the registration instant lies before or after now. |
| `Metrics.Ages` | src/lib/randomuser.js:78-93 | The number of valid registration dates never exceeds the number of records. |
| `Metrics.CountCountries` | src/lib/randomuser.js:69-73 | The `reduce` loop produces exactly the country counts `CountByCountry`. This is the intended tally; on the property names inherited from `Object.prototype` the source's `{}` behaves as `TallyAsWritten` instead (see "## Findings"). |
| `Metrics.AccumulateAges` | src/lib/randomuser.js:75-93 | The `forEach` loop produces the sum and the number of the ages of the records whose date is non-empty and parses. |
| `Metrics.BuildMetrics` | src/lib/randomuser.js:66-104 | `totalUsers` is the input length. `usersByCountry` is the country count. The average is the mean of the valid ages, or 0 when there are none. An empty input gives `0`, an empty map and `0`. The country map is the intended tally; on the property names inherited from `Object.prototype` the source's `{}` behaves as `TallyAsWritten` instead (see "## Findings"). |
| `Metrics.CountByCountryExact` | src/lib/randomuser.js:69-73 | A key is present exactly when some record is counted under it. Its value is the number of such records. |
| `Metrics.CountOfByCountry` | src/lib/randomuser.js:70-71 | `"Unknown"` counts the records with an empty country plus those whose country is literally `"Unknown"`. Every other key counts exactly the records carrying that country. `''` is never a key. |
| `Metrics.CountsSumToTotal` | src/lib/randomuser.js:67-73 | The values of `usersByCountry` sum to `totalUsers`. |
| `Metrics.CountsIgnoreDates` | src/lib/randomuser.js:69-93 | Two lists whose records agree on their locations get the same country counts, whatever their dates. So invalid dates affect only the average. |
| `Metrics.NoValidDateMeansZero` | src/lib/randomuser.js:95-97 | When no record has a non-empty date that parses, no age is counted and the average is 0. |
| `Metrics.AllValidDatesCount` | src/lib/randomuser.js:78-93 | When every record has a valid date, every record contributes an age. |
| `Metrics.AgesAreRegistrationAges` | src/lib/randomuser.js:80-87 | Every counted age is the registration age of some record that has a valid instant. |
| `Metrics.MeanBounds` | src/lib/randomuser.js:95-97 | A mean of ages between two bounds lies between those bounds. |
| `Metrics.AverageBetweenMinAndMax` | src/lib/randomuser.js:95-97 | The average lies between the smallest and the largest valid age. |
| `Metrics.ProtoCountryIsLost` | src/lib/randomuser.js:69-73 | With the object tally as written, a record whose country is `"__proto__"` leaves no count at all. The intended count has it once. |
| `Metrics.InheritedNameCountIsText` | src/lib/randomuser.js:71 | With the object tally as written, two records with country `"toString"` leave a string under that key instead of the count 2. |
| `Metrics.TallyAgreesElsewhere` | src/lib/randomuser.js:69-73 | When no country key is a property name inherited from `Object.prototype`, the object tally as written equals the intended counts. |
| `Fallback.Pick` | src/lib/randomuser.js:12-15 | `Math.floor(Math.random() * n)` is an index into a pool of n elements. |
| `Fallback.Between` | src/lib/randomuser.js:22 | `Math.floor(lo + Math.random() * width)` lies in `[lo, lo + width)`. |
| `Fallback.RegistrationInstant` | src/lib/randomuser.js:16 | A generated registration instant lies within the 365 days before now, both ends included. |
| `Fallback.PhoneIsShaped` | src/lib/randomuser.js:22 | A generated phone number reads `+1-NNN-NNN-NNNN`. Its groups parse back to values in 100-999, 100-999 and 1000-9999. |
| `Fallback.FallbackRecordShaped` | src/lib/randomuser.js:11-26 | Record i has an id starting `mock-(i+1)-`. Its names, country and city come from the pools. Its email is `lower(first).lower(last)` followed by `i@example.com`. Its phone has the pattern above. Its date is the formatting of an instant in the last 365 days. Its thumbnail is the constant URL. |
| `Fallback.MockIdsDistinct` | src/lib/randomuser.js:19 | Ids generated at different positions differ, whatever their random suffixes. |
| `Fallback.MockEmailsDistinct` | src/lib/randomuser.js:21 | Emails generated at different positions differ, whatever names were drawn. |
| `Fallback.FallbackUsers` | src/lib/randomuser.js:3-29 | The loop returns exactly 50 records. Record i is the record built from the draws of iteration i and has the fallback shape. Ids and emails are pairwise distinct. |
| `Numerals.ParseNatToString` | src/lib/randomuser.js:19 | The decimal rendering of a number parses back to that number. |
| `Numerals.NatToStringWidth` | src/lib/randomuser.js:22 | Three-digit numbers render as three characters, four-digit numbers as four. |
| `Loader.LoadUsers` | src/lib/randomuser.js:37-58 | `fallbackUsed` holds exactly when the request failed, `results` could not be mapped, or an element of it was null. Without fallback the users are the normalised results, in order. With fallback they are a 50-record batch with the fallback shape. Either way every record is in normal shape. |
| `Loader.FallbackBatchMetrics` | src/lib/randomuser.js:14-16 | A fallback batch generated at `now` and summarised at any `later >= now`, whose date strings parse back to their instants, gives only pool countries as keys and 50 valid dates. Its average age is at most 365 days plus the age of `now` at `later`. |

## Left out

- The request is left out as I/O: `fetch`, `response.ok`, `response.json()`, `await` and the `RANDOMUSER_API_URL` lookup. They are abstracted as `Loader.FetchOutcome`.
- The metadata wrapper is left out as clock reads and passthrough: `withMeta`, `sourceUrl` and `fetchedAt`.
- The pseudo-random source is left out. Its values are the `Fallback.Draws` oracle, each in `[0, 1)`.
- The base-36 suffix `Math.random().toString(36).substring(7)` is an opaque string, because it comes from a runtime string routine.
- Date parsing and ISO-8601 formatting are the parameters `parse` and `iso`.
- Dates outside the JavaScript Date range are not modelled, because the runtime would produce an Invalid Date for them.
- Metrics.BuildMetrics: reads the clock once per call, as `now`. The source calls `new Date()` again for every record with a valid date.
- Metrics.BuildMetrics: counts countries in a map, the intended tally. On a country that names a property inherited from `Object.prototype` the source behaves as `Metrics.TallyAsWritten` instead (see "## Findings").
- Metrics.BuildMetrics: returns the exact average. The source rounds it with `parseFloat(x.toFixed(2))`. That is floating-point rendering, not modelled.
- Metrics.RegistrationAge: uses exact integer ceiling division. The source divides in floating point before `Math.ceil`. Within the JavaScript Date range both give the same result; this is argued, not proved.
- Fallback.Pick: multiplies exact reals, not binary64 values. Rounding of `Math.random() * n` is not modelled. The same holds for `Fallback.Between` and `Fallback.RegistrationInstant`.
- Raw leaves that are not strings, such as numbers or booleans, are not modelled. Every leaf is a string or absent.
- `buildMetrics` is modelled on normalised records. On a raw record, a missing `location` or `registered` object reads like an empty string.
- The `try`/`catch` inside the `forEach` is not modelled. Nothing in the model can throw there, because parsing a string never throws.
- `toLowerCase` is modelled for ASCII letters only. All pool names are ASCII.

## Findings

| source | as written | input that shows it | evidently intended | confidence | as-written member | corrected member |
|---|---|---|---|---|---|---|
| src/lib/randomuser.js:69-73 | The counts go into a plain object `{}`. `acc[country] || 0` reads properties inherited from `Object.prototype`. | One record with country `"__proto__"`: the assignment to the accessor is ignored and the record is never counted. Records with country `"toString"`: the inherited function plus 1 is a string. Either way the counts no longer sum to `totalUsers`. | One count per country string, summing to `totalUsers`, as with a `Map` or `Object.create(null)` | high; not executed | `Metrics.ProtoCountryIsLost` | `Metrics.CountsSumToTotal` |
