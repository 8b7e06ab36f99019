# HM-PLANE shipment store, modelled in Dafny

HM-PLANE is a browser demo dashboard for shipments carried on flights. Its
only logic with real structure is the in-memory record store in `js/main.js`:
three arrays (`shipments`, `flights`, `activity`) that the page handlers change
in place or replace with new arrays, seeded from the literals in `js/data.js` and written to browser
storage after every change. This project models that store, separated from the
DOM code around it.

- `records.dfy` (`Records`): the shipment, flight and history/activity line records, and the status names.
- `seqs.dfy` (`Seqs`): `filter`, `findIndex` and `indexOf` on sequences, with the fact that a filter keeps order.
- `text.dfy` (`Text`): `trim`, `toLowerCase`, `includes`, `String(n)` and `padStart`.
- `html.dfy` (`Html`): `escapeHtml`, written as the source's three chained replacements.
- `codes.dfy` (`Codes`): the default tracking code `HM-2025-NNNNN` and the flight number `HM` + draw.
- `shipments.dfy` (`Shipments`): the next id, the new-shipment record, the delete filter, the edit-form update, lookup by id, and the invariant those operations keep.
- `flights.dfy` (`Flights`): the new-flight record and lookup by flight number.
- `search.dfy` (`Search`): the shipments page's status and text filter.
- `tracking.dfy` (`Tracking`): lookup by tracking code and one tick of the status simulation.
- `dashboard.dfy` (`Dashboard`): the four counters of the dashboard.
- `activity.dfy` (`ActivityLog`): the bounded newest-first activity feed.
- `data.dfy` (`SeedData`): the seed shipments and flights, and what holds of them.
- `store.dfy` (`Store`): the `Store` class. Its fields are the three arrays and the storage slot. Each handler is a method that changes them in place. Each method's `ensures` ties the new state to the pure functions above.

Statuses are strings, as in the source. The edit form stores whatever status it
is given. The tracking tick sends a status outside Pending / In Transit /
Delivered (rank -1) to Pending. The status filter compares against the literal `all`.

Where the code and the design description of the system disagree, the model
follows the code:
- The code has no forward-only transition rule and no InvalidTransition outcome. Saving the edit form with any status is accepted, and a history line is added whenever the status differs (`js/main.js:326-330`).
- Deleting an id that no shipment has is not an error. The list is unchanged and an activity line is still written (`js/main.js:585`).
- The tracking code always takes the default form, with the year 2025 written into the code (`js/main.js:363`).
- Deleting a shipment leaves its id in the flights' assigned lists (`SeedData.DeleteLeavesDanglingAssignment`).

## Model

| member | source | states |
|---|---|---|
| Seqs.Filter | js/main.js:343-349 | `filter`: the result is no longer than the input |
| Seqs.FilterMembers | js/main.js:343-349 | the result of a filter holds exactly the elements of the input that pass the test |
| Seqs.FilterIsSubsequence | js/main.js:343-349 | a filter result is an order-preserving subsequence of the input (strictly increasing positions are returned as a witness), and every passing position is among them |
| Seqs.FilterFilter | js/main.js:343-349 | two filters in a row equal one filter by the conjunction of the tests |
| Seqs.FilterConcat | js/main.js:79-82 | filtering distributes over concatenation |
| Seqs.FilterAll | js/main.js:343-349 | a filter every element passes returns its input unchanged |
| Seqs.FilterDropsOne | js/main.js:287 | a filter that rejects only the element at k returns the input without that element |
| Seqs.FilterCount | js/main.js:80-82 | the length of a filter by "key equals k" is the number of times k occurs among the keys |
| Seqs.FilterDisjointCounts | js/main.js:81-82 | two mutually exclusive filters take at most the whole list between them |
| Seqs.FirstIndex | js/main.js:275 | `find`: the position returned passes the test and every earlier one fails; None only when no element passes |
| Seqs.IndexOf | js/main.js:523 | `indexOf`: the first position holding the value, or -1 exactly when it is absent |
| Text.Lower | js/main.js:340 | `toLowerCase` keeps the length and folds each ASCII letter |
| Text.LeadingSpaces | js/main.js:340 | the count of leading characters `trim` drops: all of them are white space, and the next one (if any) is not |
| Text.TrimmedEnd | js/main.js:340 | where `trim` cuts the end: everything after it is white space, and the character before it (if any) is not |
| Text.Trim | js/main.js:319-321 | `trim`: the result neither starts nor ends with white space, is empty exactly when the input is all white space, and otherwise is the input between the leading and the trailing white space |
| Text.Includes | js/main.js:346-348 | `includes` is true exactly when the query occurs at some position of the string |
| Text.NatToString | js/main.js:363 | `String(n)` is a non-empty string of digits with no leading zero unless n is 0 |
| Text.IntToString | js/main.js:585 | `String(id)` for any integer: the digits of the value, with a leading minus sign for negative values, and those digits read back give the value |
| Text.ParseNatToString | js/main.js:363 | reading the decimal text of n back gives n |
| Text.PadStart | js/main.js:363 | `padStart`: the result has length `max(len, width)`, ends with the input, and is filled in front with the pad character |
| Text.ParseLeadingZeros | js/main.js:363 | leading zeros do not change the value of a digit string |
| Text.ParseZeros | js/main.js:363 | a string of zeros reads as 0 |
| Html.ReplaceAll | js/main.js:555 | a global one-character `replace` leaves a string without that character unchanged |
| Html.ReplaceAllConcat | js/main.js:555 | a global replacement distributes over concatenation |
| Html.ReplaceSpecialsConcat | js/main.js:555 | the three chained replacements distribute over concatenation |
| Html.ReplaceSpecialsChar | js/main.js:555 | on one character the three chained replacements give that character's entity or the character itself |
| Html.ReplaceSpecialsIsEscaped | js/main.js:555 | the three chained replacements (`&` first) equal escaping each character once; no entity is escaped twice |
| Html.EscapeHtml | js/main.js:554-556 | `escapeHtml`, including its `\|\| s` fallback, equals per-character escaping (`Escaped`) |
| Html.EscapedIsSafe | js/main.js:554-556 | per-character escaping leaves no `<` or `>`, and every `&` starts `&amp;`, `&lt;` or `&gt;` |
| Html.EscapeHtmlIsSafe | js/main.js:554-556 | the output of `escapeHtml` has no `<` or `>`, and every `&` in it starts an entity |
| Html.UnescapeEntity | js/main.js:555 | each of the three entities decodes to its character, and decoding carries on right after it |
| Html.UnescapeChar | js/main.js:554-556 | decoding reads one escaped character back and carries on after it |
| Html.UnescapeEscaped | js/main.js:554-556 | decoding the three entities undoes per-character escaping |
| Html.EscapeHtmlRoundTrip | js/main.js:554-556 | `escapeHtml` loses nothing: decoding its output gives back the input |
| Codes.TrackingCode | js/main.js:363 | a default tracking code is `HM-2025-` followed by max(5, the number of digits of the id) digits, and those digits read back as the id |
| Codes.TrackingCodeRoundTrip | js/main.js:363 | reading a default tracking code back (`ParseTracking`) gives the id it was made from |
| Codes.TrackingCodeInjective | js/main.js:363 | distinct ids get distinct default tracking codes |
| Codes.NatToStringLength | js/main.js:363 | a number below 10^k has at most k digits |
| Codes.TrackingCodeLength | js/main.js:363 | ids below 100000 give 13-character codes |
| Codes.TrackingCodeExample | js/main.js:363 | id 4 gives `HM-2025-00004` |
| Codes.FlightNumber | js/main.js:460 | a flight number is `HM` followed by at least one character; for a draw n >= 0 those characters are digits that read back as n |
| Codes.FlightNumberShape | js/main.js:460 | for a draw n in [100, 999] the flight number is `HM` followed by exactly the three digits of n |
| Shipments.MaxId | js/main.js:362 | `Math.max(0, ...ids)` is at least 0 and at least every id, and is 0 or one of the ids |
| Shipments.NextId | js/main.js:362 | the new id is at least 1 and exceeds every existing id; it is 1 or one more than an existing id, so it is the smallest such number |
| Shipments.NewShipment | js/main.js:364-375 | the new record has the given id and a tracking code that reads back as that id, is Pending with no flight, and has one history line stamped with the creation time |
| Shipments.WithNewShipment | js/main.js:362-376 | creation puts one record in front and leaves the old records after it unchanged. The new record has a fresh id and that id's default tracking code. It is Pending, with flight null, weight 0 and one history line |
| Shipments.WithoutId | js/main.js:287 | the delete filter keeps exactly the records whose id differs from the given one |
| Shipments.WithoutAbsentId | js/main.js:585 | deleting an id no record has leaves the list unchanged |
| Shipments.WithoutIdKeepsOrder | js/main.js:287 | deletion keeps the surviving records in order, and keeps all of them |
| Shipments.WithoutIdRemovesOne | js/main.js:287 | with distinct ids, deleting the id of the record at k removes exactly that record, so the length drops by one |
| Shipments.Edited | js/main.js:319-330 | the save button trims sender and recipient, maps an empty trimmed flight to null, and stores weight and status (any status, no order check). History is append-only and grows by one line, naming the new status, exactly when the status changed. Id, tracking code and route are kept |
| Shipments.FindById | js/main.js:275 | lookup by id returns the first position with that id, or None exactly when no record has it |
| Shipments.TrackingsDistinct | js/main.js:362-376 | in a list where every code is its id's default code and the ids are distinct, no two shipments share a tracking code |
| Shipments.CreateKeepsConsistent | js/main.js:362-376 | creation keeps these true: distinct positive ids, each record carrying its id's default code, and a non-empty history |
| Shipments.DeleteKeepsConsistent | js/main.js:287 | deletion keeps that invariant |
| Shipments.EditKeepsConsistent | js/main.js:324-330 | saving the edit form keeps that invariant |
| Shipments.SameKeysKeepConsistent | js/main.js:324-330 | changing records without touching their ids or tracking codes, and without shortening their histories, keeps the invariant |
| Flights.NewFlight | js/main.js:460-465 | a new flight has id equal to its flight number, which is `HM` followed by three digits whose value is the draw n. It has no assigned shipments, status Upcoming, route LHR to CDG and the given times |
| Flights.FindFlight | js/main.js:428 | lookup by flight number returns the first match, or None exactly when there is none |
| Search.SearchFilter | js/main.js:339-352 | the search returns no more records than the list holds; what it keeps is stated by `Search.SearchIsOneFilter` and `Search.SearchSpec` |
| Search.SearchIsOneFilter | js/main.js:339-352 | the status filter followed by the text filter equals a single filter by the selection test |
| Search.SearchSpec | js/main.js:339-352 | a result is exactly a selected shipment of the list. Selected means: status equal to the filter unless it is `all`, and the trimmed lower-cased query (unless blank) inside the lower-cased sender, recipient or tracking code. The result keeps the list's order and drops no selected shipment |
| Search.SearchNothing | js/main.js:340-344 | with status `all` and a blank query the whole list comes back |
| Tracking.Rank | js/main.js:523 | the rank is the index in Pending, In Transit, Delivered, or -1 exactly for any other status |
| Tracking.NextStatus | js/main.js:523-525 | a tick has no next status exactly at Delivered. Pending goes to In Transit, In Transit to Delivered, and any other status to Pending |
| Tracking.NextStatusAdvances | js/main.js:523-526 | away from Delivered a tick raises the rank by exactly one |
| Tracking.Ticked | js/main.js:523-535 | at Delivered a tick changes nothing. Otherwise it raises the rank by one, appends one history line naming the new status, and leaves the other fields unchanged |
| Tracking.SimulationEnds | js/main.js:522-536 | after `2 - rank` ticks the shipment is Delivered with one history line per tick, and further ticks change nothing |
| Tracking.StaysDelivered | js/main.js:533-535 | any number of ticks leave a Delivered shipment unchanged |
| Tracking.FindByTracking | js/main.js:502-511 | a blank code is refused. Otherwise the result is the first shipment whose code equals the trimmed input, ignoring case, or NotFound exactly when none matches |
| Tracking.TickKeepsConsistent | js/main.js:523-528 | a tick keeps the store invariant |
| Dashboard.DashboardStats | js/main.js:78-83 | the total is the list length, and each other counter is how often its status occurs among the records: Active among the flight statuses, Pending and Delivered among the shipment statuses. Hence Active is at most the number of flights and Pending plus Delivered at most the total |
| Dashboard.StatsAfterCreate | js/main.js:79-82 | a new shipment adds one to the total and one to Pending and changes no other counter |
| Dashboard.StatsAfterDelete | js/main.js:79-82 | with distinct ids, deleting one shipment takes one off the total and one off its own status counter; the flight counter is unchanged |
| ActivityLog.Pushed | js/main.js:44-49 | the new entry is at index 0 and the old entries follow, shifted by one. The length grows by one below 200, and otherwise stays the same (one pop) |
| ActivityLog.PushedBounded | js/main.js:44-49 | a feed of at most 200 stays within 200, and a full feed loses exactly its oldest entry |
| ActivityLog.PushedAllBounded | js/main.js:44-49 | any number of pushes keeps a bounded feed bounded, with length `min(old + pushed, 200)` and the last entry pushed in front |
| SeedData.SeedIds | js/data.js:6-34 | the seed ids 1, 2 and 3 are positive and pairwise distinct, so the next shipment gets id 4 |
| SeedData.SeedIdsAre | js/data.js:6-34 | the seed shipment at position i has id i + 1, so the ids are distinct and positive |
| SeedData.SeedMaxId | js/data.js:6-34 | the largest seed id is 3, so the next id is 4 |
| SeedData.TrackingCodeSmall | js/main.js:363 | for a one-digit id the default code is `HM-2025-0000` and that digit |
| SeedData.SeedTrackings | js/data.js:9-37 | each seed tracking code is the default code of its id |
| SeedData.SeedStatusesAndHistories | js/data.js:10-45 | each seed status is Pending, In Transit or Delivered, and each seed shipment has one history line |
| SeedData.SeedConsistent | js/data.js:4-47 | the seed shipments satisfy the store invariant |
| SeedData.SeedFlightNumbers | js/data.js:50-81 | each seed flight's id equals its flight number, and the flight numbers are distinct |
| SeedData.SeedReferences | js/data.js:11-78 | every assigned id names a seed shipment, and every seed shipment's flight names a seed flight |
| SeedData.SeedAssignedExist | js/data.js:58-78 | each id a seed flight lists is found among the seed shipments |
| SeedData.SeedFlightsExist | js/data.js:11-73 | each seed shipment's flight is found among the seed flights |
| SeedData.DeleteLeavesDanglingAssignment | js/main.js:287 | after deleting shipment 1, flight HM451 still lists id 1, which no shipment has |
| SeedData.SeedSearchZara | js/main.js:339-352 | on the seed, status Pending with query "zara" returns exactly the Zara Store NY shipment |
| SeedData.ZaraQueryNormal | js/main.js:340 | the query "zara" is unchanged by trimming and lower-casing |
| SeedData.FirstSeedMatchesZara | js/main.js:345-349 | the first seed shipment passes the text filter for "zara" (on its recipient) |
| SeedData.OnlyFirstSeedPending | js/main.js:343 | only the first seed shipment is Pending |
| SeedData.SeedLookup | js/main.js:502-507 | the input " hm-2025-00002 " finds the second seed shipment (blanks trimmed, case ignored) |
| SeedData.SecondSeedFound | js/main.js:507 | the first case-insensitive match for `hm-2025-00002` in the seed is at position 1 |
| SeedData.CodesDiffer | js/main.js:507 | `HM-2025-00001` does not match `hm-2025-00002`, even with case ignored |
| SeedData.CodesMatch | js/main.js:507 | `HM-2025-00002` matches `hm-2025-00002` once case is ignored |
| Store.Store.constructor | js/main.js:6-8 | the store starts from the seed lists with an empty feed; the seed satisfies the invariant |
| Store.Store.Persist | js/main.js:12-15 | the storage slot holds the current shipments, flights and feed |
| Store.Store.LoadPersist | js/main.js:16-27 | a missing or unreadable payload changes nothing. Otherwise each part present replaces the one in memory, and the parts absent are kept |
| Store.Store.PushActivity | js/main.js:44-49 | the feed becomes the pushed feed, so at most 200 lines if it had at most 200, and the state is written out |
| Store.Store.ClearActivity | js/main.js:98-102 | the feed is emptied and the state written out |
| Store.Store.CreateShipment | js/main.js:361-378 | the new record, with a fresh id, is inserted in front of the unchanged old list. An activity line names its tracking code. The store invariant is kept and the state is written out |
| Store.Store.CreateFlight | js/main.js:459-469 | the new flight is inserted in front, with no uniqueness check, and an activity line names it. Shipments are untouched |
| Store.Store.DeleteShipment | js/main.js:285-293 | every record with the viewed shipment's id is removed and flights are untouched. With distinct ids the list shrinks by exactly one. An activity line names the tracking code, and the invariant is kept |
| Store.Store.AdminDeleteShipment | js/main.js:585 | records with the id are removed. An absent id leaves the list unchanged, and an activity line names the id |
| Store.Store.AdminAddShipment | js/main.js:584 | the given record is inserted in front with no id or code check, and an activity line names its code |
| Store.Store.SaveEdit | js/main.js:317-335 | the record at k becomes its edited form, the rest of the list is unchanged, an activity line is written, and the invariant is kept |
| Store.Store.TrackTick | js/main.js:522-536 | the tick reports "keep running" exactly when the shipment was not Delivered. When it advances, the rank rises by one and a history line and an activity line are written. At Delivered nothing changes |

## Left out

- Page rendering, DOM queries, modals, the confirmation dialog, the nav toggle and the active-link marking in `boot`: these are presentation code with no store logic.
- The Chart.js chart and its per-day bucketing of history timestamps: a foreign library and locale date formatting.
- `setInterval`/`clearInterval`: only one tick of the tracking simulation is modelled (`Store.Store.TrackTick`). Its result says whether the timer would keep running. `Tracking.SimulationEnds` covers a whole run.
- The timer and the edit dialog hold a reference to a shipment object. The model names that shipment by its position in `shipments` instead. Aliasing of one object from several places is not modelled.
- `localStorage` and `JSON.stringify`/`JSON.parse`: the storage slot is a `Snapshot` value. `LoadPersist` receives the already-decoded payload, and None stands for both a missing key and a parse failure. A payload part that is not an array is outside the model's types.
- `Store.Store.LoadPersist`: a loaded feed may be longer than 200 lines. The 200-line bound is therefore stated only for feeds that start within it (`ActivityLog.PushedBounded`).
- The clock (`new Date().toISOString()`), the departure/arrival times of a new flight, and `Math.random()`: these are parameters. Each operation takes one timestamp `now`. The source reads the clock separately for the history line and for the activity line, and those two stamps can differ.
- `Number(...) || 0` for the weight: the weight arrives as an already-parsed integer. Fractional weights and NaN are not modelled.
- `Text.Trim`: only ASCII white space (space, tab, line feed, carriage return, vertical tab, form feed) is removed. The other Unicode spaces that JavaScript's `trim` removes are kept.
- `Text.Lower`: only ASCII letters are folded, not the rest of Unicode.
- `escapeHtml` on a value that is not a string (the optional call `replace?.`) and its default argument: only string inputs are modelled.
- `s.history || []`: a shipment always has a history sequence, possibly empty.
- `HM.getShipments`, `HM.getFlights` and `HM.reloadData`: the first two are the public fields of `Store`. The third is `LoadPersist` followed by re-rendering.
- Ids are integers, so `Math.max` over an id that is not a number (NaN) is not modelled.
- Shipments.NextId: ids are exact unbounded integers, that is, JavaScript numbers below 2^53. From 2^53 on, `Math.max(...) + 1` in double precision can give back the maximum itself, so the new id is no longer fresh. Such an id can come from `HM.addShipment` or a loaded payload.
- Codes.TrackingCode: its digits are the exact decimal digits of the id. That matches JavaScript's `String(id)` only for ids below 2^53: from 2^53 on JavaScript prints the shortest digits that round-trip to the double (so `String(2**60)` ends in `000`, not `976`), and from 10^21 on it uses exponent notation.
- Codes.TrackingCodeRoundTrip: `String(n)` is modelled as the exact decimal digits. From 2^53 on JavaScript prints rounded digits, and from 10^21 on exponent notation (`1e+21`); the round trip does not cover those ids.
- Store.Store.CreateShipment: its promise that the new id exceeds every existing one holds for ids below 2^53 only, for the reason given under `Shipments.NextId`.
