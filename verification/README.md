# Fleet expiry tracker: a Dafny model

This project models the domain logic of a small record-keeping service. The service tracks the
expiry dates of personnel licences (`licencias`, keyed by the personnel file number `legajo`)
and of vehicle fire extinguishers (`matafuegos`, keyed by a surrogate integer `id`). It flags
records that are close to or past expiry and keeps a history of renewals and replacements.

The model has six modules, one per file:

- `Expiry` (`expiry.dfy`) holds the status classifier `calcularEstado` and the day count
  `calcularDiasRestantes`. The source copies the classifier word for word into each of its three
  routers, so it is modelled once. Dates are whole day numbers, and the current date `today` is
  a parameter, so there is no clock and no floating-point division.
- `Collections` (`collections.dfy`) holds the result and error types and the array operations
  the handlers use. `findIndex` on a key becomes `IndexOf`, and `splice(index, 1)` becomes
  `RemoveAt`.
- `Licencias` (`licencias.dfy`) holds the `LicenseStore` class. Its `licencias` field is the
  sequence each handler loads and saves. Its methods are the create, update (with rename), renew
  and delete handlers. Create, update and renew return `Failure(InvalidInput | NotFound |
  DuplicateKey)` or the stored licence together with its status. Delete returns `Pass` or
  `Fail(NotFound)`, because the handler answers only with a message. `Valid()` means that `legajo` keys are unique.
  Every method keeps `Valid()` and leaves the collection unchanged when it fails.
- `Matafuegos` (`matafuegos.dfy`) holds the `ExtinguisherStore` class. Its methods are create
  (with id generation `max(ids)+1`, or 1 when empty), update, replace by vehicle, replace by id
  and delete. `Valid()` means that ids are unique.
- `Dashboard` (`dashboard.dfy`) holds the statistics endpoint as pure functions. For each
  collection it returns the total, the expired count, the count due in 0 to 15 days, and the
  list of records due in 0 to 30 days. That list is projected to a key and a date and sorted
  ascending by expiry date. These functions take the collections as values, so they cannot
  write to them.
- `DateParsing` (`date_parsing.dfy`) models how the code turns a stored `YYYY-MM-DD` date into a
  day count, instant by instant (see Findings).

Two behaviours of the source are easy to miss, and the model keeps both:

- The renewal handler checks for the new expiry date before it looks up the key
  (routes/licencias.js:154-163). A request that lacks the date and names an absent key therefore
  fails with `InvalidInput`, not `NotFound`.
- A new extinguisher id is `max(ids)+1` (routes/matafuegos.js:79-81). So after the record with
  the largest id is deleted, the next record created gets that id again
  (`Matafuegos.DeletedNewestIdIsReused`).

## Model

| member | source | states |
|---|---|---|
| `Expiry.Classify` | routes/licencias.js:39-47 | Each of the four statuses holds exactly on its band of days remaining: below 0, 0..7, 8..15, above 15. The bands therefore partition the integers. |
| `Expiry.StatusOf` | routes/matafuegos.js:31-48 | The status of an expiry date seen on `today`, in terms of the dates. It is VENCIDO iff the date is before today, URGENTE iff within today..today+7, PRÓXIMO iff within today+8..today+15, and OK after that. |
| `Expiry.DaysRemaining` | routes/dashboard.js:30-37 | The day count is negative exactly when the expiry date has passed. It is zero exactly on the expiry day. |
| `Expiry.StatusMatchesDaysRemaining` | routes/dashboard.js:10-37 | The dashboard's status is VENCIDO exactly when its days remaining are below 0. URGENTE or PRÓXIMO holds exactly for 0..15 days, and OK above 15. |
| `Dashboard.InWindow` | routes/dashboard.js:84-85 | A date is in the 30-day window iff it lies within today..today+30. No date in the window is VENCIDO. |
| `Expiry.BandBoundaries` | routes/dashboard.js:18-26 | At the band edges -1/0, 7/8 and 15/16 the status switches as the thresholds name. |
| `Collections.IndexOf` | routes/licencias.js:115 | `findIndex`: it returns -1 iff the key is absent. Otherwise it returns the first position holding the key. |
| `Collections.RemoveAt` | routes/licencias.js:221 | `splice(i, 1)`: the length drops by one. Elements before `i` keep their places, later ones shift down by one, and the multiset loses exactly the removed element. |
| `Licencias.LicenseStore.Create` | routes/licencias.js:67-96 | A form that fails `Complete` (a missing `legajo`, `nombre`, `apellido`, `dni` or expiry date, routes/licencias.js:72) gives InvalidInput, then an existing `legajo` gives DuplicateKey; both leave the collection unchanged. Otherwise exactly one licence is appended with an empty renewal history, and the answer carries its status. Key uniqueness is preserved. |
| `Licencias.LicenseStore.Update` | routes/licencias.js:104-141 | The error order is a form that fails `Complete` (routes/licencias.js:110), then absent key (NotFound), then rename onto another licence's key (DuplicateKey); each leaves the collection unchanged. On success the record at the found index is replaced with the form's fields and the OLD renewal history. Every other record is unchanged, and key uniqueness is preserved. |
| `Licencias.LicenseStore.Renew` | routes/licencias.js:149-185 | A missing new date is reported before an absent key, and both leave the collection unchanged. On success exactly one entry is appended to the found licence's history. The entry holds today, the previous expiry date, the new date and the notes, defaulting to "". The expiry date becomes the new date, and no other record or field changes. |
| `Licencias.LicenseStore.Delete` | routes/licencias.js:211-224 | An absent key gives NotFound and changes nothing. Otherwise exactly the found licence is removed and the rest keep their order. With unique keys, the key is then gone. |
| `Matafuegos.MaxOf` | routes/matafuegos.js:80 | The result is an element of the ids and is no smaller than any of them. |
| `Matafuegos.NextId` | routes/matafuegos.js:79-81 | The new id is 1 for an empty collection and `max(ids)+1` otherwise. It is greater than every existing id. |
| `Matafuegos.DeletedNewestIdIsReused` | routes/matafuegos.js:79-81 | A record created under `NextId` sits at the last position, where the delete handler's lookup of its id finds it. Once it is removed, the next id generated is its id again. |
| `Matafuegos.ExtinguisherStore.Create` | routes/matafuegos.js:67-95 | A form that fails `Complete` (a missing unit number, vehicle number or expiry date, routes/matafuegos.js:72) gives InvalidInput and changes nothing. Otherwise exactly one record is appended under `NextId` with an empty history. There is no uniqueness check on the unit or vehicle number, and id uniqueness is preserved. |
| `Matafuegos.ExtinguisherStore.Update` | routes/matafuegos.js:103-134 | A form that fails `Complete` (routes/matafuegos.js:109) gives InvalidInput, then an absent id gives NotFound, and both change nothing. On success the record at the found index keeps its id and history and takes the three new data fields. Other records and all ids are unchanged. |
| `Matafuegos.ExtinguisherStore.ReplaceByVehicle` | routes/matafuegos.js:142-179 | A missing vehicle number or date gives InvalidInput. No record with that vehicle gives NotFound. Otherwise the FIRST record with that vehicle gets one history entry whose previous and new unit numbers are both the current number. Only its expiry date changes, and no other record changes. |
| `Matafuegos.ExtinguisherStore.ReplaceById` | routes/matafuegos.js:187-226 | A missing new number or date gives InvalidInput, then an absent id gives NotFound. On success one history entry records the old and new unit number and expiry date. Both live fields take the new values, and no other record changes. |
| `Matafuegos.ExtinguisherStore.Delete` | routes/matafuegos.js:252-265 | An absent id gives NotFound and changes nothing. Otherwise exactly the record with that id is removed and the rest keep their order. With unique ids, the id is then gone. |
| `Dashboard.Count` | routes/dashboard.js:77-80 | The recursive `filter(...).length` over the status bands is bounded by the number of records. Its value is stated by `CountIsMatchingRecords`. |
| `Dashboard.CountIsMatchingRecords` | routes/dashboard.js:77-80 | The count equals the number of positions `i` whose record `ds[i]` has a status in the given bands. So it counts records, one per position, duplicates included. |
| `Dashboard.LicenseMatching` | routes/dashboard.js:77-80 | The positions counted over the projected licences are exactly the positions of the licences whose status is in the bands. |
| `Dashboard.ExtinguisherMatching` | routes/dashboard.js:97-100 | The positions counted over the projected extinguishers are exactly the positions of the extinguishers whose status is in the bands. |
| `Dashboard.CountDisjoint` | routes/dashboard.js:77-80 | Counts over disjoint sets of bands add up. So `vencidas + proximas` is the count of VENCIDO, URGENTE and PRÓXIMO records together. |
| `Dashboard.CountAllBands` | routes/dashboard.js:72-75 | Counting all four bands counts every record: each record has exactly one status. |
| `Dashboard.Within30` | routes/dashboard.js:83-86 | The filter keeps each record with `0 <= daysRemaining <= 30` with its multiplicity, and drops every other record. |
| `Dashboard.Insert` | routes/dashboard.js:89 | Inserting into a list sorted by expiry date keeps it sorted and adds exactly the one record. |
| `Dashboard.SortByExpiry` | routes/dashboard.js:89 | The result is sorted ascending by expiry date and is a permutation of the input. |
| `Dashboard.Summarize` | routes/dashboard.js:72-89 | The total is the record count. `vencidas` is the number of positions whose record is VENCIDO, and `proximas` the number whose record is URGENTE or PRÓXIMO, so `vencidas + proximas <= total`. The 30-day list is sorted, is a permutation of the window filter, and holds exactly the records in the window. Every record counted in `proximas` is on the list. |
| `Dashboard.LicenseDues` | routes/dashboard.js:86-88 | Each licence is projected, in order, to its `legajo` and expiry date. |
| `Dashboard.ExtinguisherDues` | routes/dashboard.js:106-108 | Each extinguisher is projected, in order, to its `numeroCoche` and expiry date. |
| `Dashboard.LicenseSummary` | routes/dashboard.js:71-89 | The licence statistics. The total is the number of licences. `vencidas` is the number of licences that are VENCIDO, and `proximas` the number that are URGENTE or PRÓXIMO. The 30-day list is, as a multiset, the window filter of the projected licences, duplicates included. The list is sorted, and it holds the projection of every licence in the window and nothing else. Each licence that is URGENTE or PRÓXIMO appears on it. |
| `Dashboard.ExtinguisherSummary` | routes/dashboard.js:91-109 | The extinguisher statistics. `vencidos` is the number of extinguishers that are VENCIDO, and `proximos` the number that are URGENTE or PRÓXIMO. The 30-day list is sorted, and as a multiset it is the window filter of the records projected to `numeroCoche` and expiry date. Each URGENTE or PRÓXIMO extinguisher appears on it. |
| `Dashboard.ComputeStatistics` | routes/dashboard.js:111-124 | On each side the total is the collection length. The expired and the due-soon counts are the numbers of records in those statuses, and their sum is at most the total. Each 30-day list is sorted and, as a multiset, is that collection's window filter. |
| `DateParsing.DaysRemainingAsWritten` | routes/dashboard.js:30-37 | The day count as the code computes it. At UTC or east of it, the count is never below the calendar difference. West of UTC, it is always below it. |
| `DateParsing.AsWrittenWestOfUtc` | routes/dashboard.js:30-37 | As written, in a time zone behind UTC, the day count is one less than the calendar difference. |
| `DateParsing.AsWrittenEastOfUtc` | routes/dashboard.js:30-37 | As written, at UTC or in a time zone ahead of it, the day count equals the calendar difference. |
| `DateParsing.ExpiryDayReportedExpired` | routes/licencias.js:31-48 | At UTC-3, the code classifies a record as VENCIDO on its own expiry day, where the calendar count says URGENTE. |

## Left out

- The Express routing, `req`/`res` objects and HTTP status codes are not modelled. Errors are the `Error` datatype: `InvalidInput` for 400 on a missing field, `NotFound` for 404, and `DuplicateKey` for 400 on a taken key.
- File reads and writes are not modelled. This covers `mkdir`, JSON parsing and encoding, the missing-file case that yields an empty collection, and storage failures (500). Each store's field is the collection a handler loads, and its final value is what the handler saves.
- `server.js`, the browser scripts under `public/`, and the passphrase login are not modelled. They are wiring, DOM rendering and I/O.
- The GET list and GET by key handlers are not modelled. They only attach `estado` to the records they answer with, and `View` states the same computation.
- Concurrent requests and the lost update between two writers are not modelled. Each method is one whole handler, run alone.
- Fields of the wrong JSON type are not modelled: a numeric `legajo`, a non-numeric `id` (which makes `Math.max` yield NaN), and `parseInt` of route parameters. Text fields are strings, where "" stands for a missing or empty value; dates are `Option<Date>`.
- The `historialRenovaciones || []` and `historialReemplazos || []` fallbacks for records stored without a history are not modelled. Every modelled record has a history sequence.
- The history entry's date is `today`. The source takes it from `toISOString()`, which is the UTC date and can differ from the local date used for the status.
- `Dashboard.SortByExpiry`: the sort is stable, like `Array.prototype.sort`, but only sortedness and permutation are proved, not stability.
- Unparseable dates are not modelled, because a `Date` is always a whole day number. In the source, a non-empty string that is not a date gives an Invalid Date, so the day count is NaN. Every comparison with NaN is false, so `calcularEstado` answers OK (routes/licencias.js:38-47). The 30-day filter drops the record (routes/dashboard.js:85), so the record never reaches the sort (routes/dashboard.js:89).
- Daylight-saving time is not modelled. Across a transition the source's `Math.ceil` of a millisecond difference can be off by one day. Outside `DateParsing`, days remaining is the calendar difference of day numbers.
- `Dashboard.Summarize` projects the records before filtering them, while the source filters first. This gives the same list because the window test reads only the expiry date, which the projection keeps.
- `Valid()` (key uniqueness) is a guarantee the methods keep (`old(Valid()) ==> Valid()`), not a precondition. The source never checks uniqueness of a collection it loads.

## Findings

| source | as written | input that shows it | evidently intended | confidence | as-written member | corrected member |
|---|---|---|---|---|---|---|
| routes/licencias.js:31-48 (also routes/matafuegos.js:31-48 and routes/dashboard.js:10-37) | `new Date("YYYY-MM-DD")` reads a date-only string as midnight UTC. `setHours(0,0,0,0)` then truncates that instant to its LOCAL day, which west of UTC is the previous day. | Time zone UTC-3, today 2024-01-10, expiry 2024-01-10: the code computes -1 days and answers VENCIDO. | 0 days remaining on the expiry day, hence URGENTE. | not executed; follows from the ECMAScript rule for date-only strings | `DateParsing.ExpiryDayReportedExpired` (with `DateParsing.AsWrittenWestOfUtc`) | `Expiry.DaysRemaining` (zero exactly on the expiry day), used by all statuses and by the dashboard |
