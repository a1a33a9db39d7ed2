# Music track manager: a verified model

This project models the core of a small full-stack track manager. A REST server keeps music tracks (title, artist, album, timestamps) in a document store. A browser client lists, filters, sorts, pages, adds, edits and deletes them.

The model covers:

- **The list endpoint** (`TrackQuery`). It coerces `page` and `limit` with `Number(x) || default`. It builds a per-field, case-insensitive substring filter combined with AND, and counts the matches. It computes `totalPages = ceil(totalItems / limit)`, sorts by one field in one direction, and cuts out positions `[(page-1)*limit, page*limit)`. It returns these in the pagination envelope, which echoes the page without clamping it. The store is the sequence of records in natural order.
- **The CRUD handlers** (`TrackController`). Each of create, update and delete is a pure transition function `StoreState -> Step`, made of a response outcome and the new store. The class `TrackStore` holds the records as a map from id to record plus the natural order of the ids. Its methods change that state in place, and each is proved to agree with its transition function and to keep the store invariant. An outcome is either a reply or an error handed on with the status set so far. `Respond` turns error outcomes into responses through the error handler.
- **The error handler** (`ErrorHandler`). It picks the status: a preset status of 400 or more wins, then the error's own non-zero `statusCode`, then 500. It builds the `{status: "error", message, stack}` envelope. The stack is withheld in production.
- **The record schema** (`TrackSchema`). This covers JavaScript `trim` and the `required` validator with its per-field messages. It also covers the validation error messages (`"Track validation failed"` on create, `"Validation failed"` from the validators an update runs) and the creation and update timestamps.
- **The client's query-parameter builder** (`QueryParams`). It makes seven guarded appends in a fixed order and is proved to round-trip through the server's coercion.
- **The view state of the track list page** (`TrackListPage`, a class). It covers the handlers, the reset to page 1, the clamp after a fetch, and the add-or-update dispatch.
- **The pagination controls, the filter form and the track form** (`PaginationControls`, `SearchFilter`, `TrackForm`).

Shared modules:

- `Common` holds the Option and Result types and JavaScript truthiness of optional strings.
- `Strings` holds ASCII lower-casing, substring search, code-point order and decimal numerals.
- `TrackTypes` holds the shared value types.

Timestamps are integers, and the current time and new ids are parameters.

Three points where the model follows the code rather than a plain reading of it:

- A field made only of white space passes the controller's truthiness check. The schema's trim-then-required then rejects it. No status is set on that path, so the response is 500, not 400 (`TrackController.BlankFieldResponds500`).
- The final error status is 400 or more only when the preset status is, or the error has no usable code, or its own code is at least 400. An error carrying a code such as 302 with no preset error status is answered with 302 (`ErrorHandler.FinalStatusIsErrorIff`).
- Equal sort keys are not ordered by the store. The model sorts with a stable insertion sort, so ties keep natural order. Ties are a choice the model makes, not a promise of the original.

## Model

| member | source | states |
|---|---|---|
| Common.KeepTruthy | server/src/controllers/trackController.ts:35-44 | the `or undefined` idiom keeps a string exactly when it is present and non-empty, and then keeps it unchanged |
| TrackQuery.Coercion | server/src/controllers/trackController.ts:29-30 | page and limit are at least 1; a missing, zero or non-numeric page is 1 and such a limit is 10; any other value is used as given |
| TrackQuery.OrDefault | server/src/controllers/trackController.ts:29-30 | `Number(raw) or fallback`: a zero or not-a-number value gives the fallback (its properties are in `TrackQuery.Coercion`) |
| TrackQuery.PageOf | server/src/controllers/trackController.ts:29 | the page used: the query page, or 1 (see `TrackQuery.Coercion`) |
| TrackQuery.LimitOf | server/src/controllers/trackController.ts:30 | the page size used: the query limit, or 10 (see `TrackQuery.Coercion`) |
| TrackQuery.BuildFilter | server/src/controllers/trackController.ts:34-44 | a condition is present for a field exactly when its query value is non-empty, and it is that value |
| TrackQuery.Matches | server/src/controllers/trackController.ts:35-44 | a record matches when each present condition occurs, case-insensitively, in its field (see `TrackQuery.SelectMembership`, `TrackQuery.MatchesIgnoresCase`) |
| TrackQuery.UpperOption | server/src/controllers/trackController.ts:35-44 | models no operation of its own; it serves the case-insensitivity lemmas: a query value written in capitals is present, and truthy, exactly when the original is |
| TrackQuery.MatchesIgnoresCase | server/src/controllers/trackController.ts:37-43 | conditions written in capitals match exactly the records the original conditions match |
| TrackQuery.SelectSameMatches | server/src/controllers/trackController.ts:52-55 | filters that accept the same records select the same sequence |
| TrackQuery.RequestFilterIgnoresCase | server/src/controllers/trackController.ts:35-44 | query filters written in capitals select the same records in the same order |
| TrackQuery.Select | server/src/controllers/trackController.ts:52-55 | the selected records all match; each record occurs as often as in the store when it matches and not at all otherwise |
| TrackQuery.SelectMembership | server/src/controllers/trackController.ts:34-44 | a record is selected if and only if it is in the store and matches every present condition case-insensitively |
| TrackQuery.NoFilterSelectsAll | server/src/controllers/trackController.ts:34 | with no condition every record is selected, in store order |
| TrackQuery.TargetOf | server/src/controllers/trackController.ts:47-49 | a sort name selects a record field exactly when it is one of the five wire names, then that field; it selects the document id exactly when it is `_id`; any other name ties every record (the cases this covers are under "## Left out") |
| TrackQuery.KeyOf | server/src/controllers/trackController.ts:49 | a record is sorted on the selected field, on its id for `_id`, and on nothing (every record ties) for any other name |
| TrackQuery.SpecOf | server/src/controllers/trackController.ts:47-49 | the sort target defaults to `createdAt` and is otherwise what the given name selects (`TargetOf`); ascending if and only if `sortOrder` is exactly `"asc"` |
| TrackQuery.KeyLeTotal | server/src/controllers/trackController.ts:49 | any two sort keys of one field are comparable |
| TrackQuery.KeyLe | server/src/controllers/trackController.ts:49 | defines the key order: strings in code-point order, times numerically, a missing key first; its totality is `TrackQuery.KeyLeTotal` |
| TrackQuery.InOrder | server/src/controllers/trackController.ts:49 | defines the `1`/`-1` direction: ascending compares the keys as `KeyLe` does, descending compares them the other way round; its totality is `TrackQuery.InOrderTotal` |
| TrackQuery.SortedBy | server/src/controllers/trackController.ts:55-56 | defines "sorted": every adjacent pair is in the requested order; `TrackQuery.Sort` establishes it |
| TrackQuery.InOrderTotal | server/src/controllers/trackController.ts:49 | any two records are comparable in either direction |
| TrackQuery.Insert | server/src/controllers/trackController.ts:55-56 | inserting into a sorted sequence gives a sorted sequence with exactly one more occurrence of the record |
| TrackQuery.Sort | server/src/controllers/trackController.ts:55-56 | the result is sorted in the requested direction and is a permutation of the input |
| TrackQuery.NoTargetKeepsStoreOrder | server/src/controllers/trackController.ts:47-56 | under a sort name no record has, every record ties and the page keeps store order |
| TrackQuery.SortByIdOrdersIds | server/src/controllers/trackController.ts:47-56 | `sortBy=_id&sortOrder=asc` sorts ids "b", "a" into "a", "b" |
| TrackQuery.CeilDiv | server/src/controllers/trackController.ts:53 | there are no pages exactly when there are no items |
| TrackQuery.CeilDivIsCeiling | server/src/controllers/trackController.ts:53 | the page count is the least number of pages of size `limit` that hold all the items |
| TrackQuery.Skip | server/src/controllers/trackController.ts:31 | `(page - 1) * limit`, never negative for a page and limit of at least 1 |
| TrackQuery.Window | server/src/controllers/trackController.ts:57-58 | skip-then-limit holds at most `limit` records, namely those from position `skip` onwards, and is empty when `skip` is past the end |
| TrackQuery.WindowSorted | server/src/controllers/trackController.ts:55-58 | a window of a sorted sequence is sorted |
| TrackQuery.SortedMatchesMatch | server/src/controllers/trackController.ts:55-56 | every sorted match is a record of the store that matches the filter |
| TrackQuery.PageDataMatches | server/src/controllers/trackController.ts:55-58 | every record on the page is a record of the store that matches the filter |
| TrackQuery.SortedMatches | server/src/controllers/trackController.ts:52-56 | defines the filtered, sorted result the endpoint pages through; its properties are `TrackQuery.SortedMatchesMatch` and `TrackQuery.SortedMatchesCount` |
| TrackQuery.PageData | server/src/controllers/trackController.ts:55-58 | defines the `find(filter).sort(...).skip(skip).limit(limit)` chain: the window of the sorted matches; its properties are `TrackQuery.PageDataMatches`, `TrackQuery.PageDataSorted` and `TrackQuery.PageDataIsWindow` |
| TrackQuery.PageDataSorted | server/src/controllers/trackController.ts:55-58 | the page is in the requested order |
| TrackQuery.ListTracks | server/src/controllers/trackController.ts:52-67 | the envelope echoes the coerced page and limit unclamped, counts every match regardless of page, gives the ceiling page count, and holds at most `limit` records |
| TrackQuery.ListedTracksMatch | server/src/controllers/trackController.ts:35-58 | every listed record is in the store and contains each provided filter in its field |
| TrackQuery.ListedTracksSorted | server/src/controllers/trackController.ts:47-58 | adjacent listed records are in the requested order |
| TrackQuery.SortedMatchesCount | server/src/controllers/trackController.ts:52-56 | the sorted matches are as many as the counted items |
| TrackQuery.PageDataIsWindow | server/src/controllers/trackController.ts:55-58 | the page is the run of sorted matches starting at `(page-1)*limit`, of length `min(limit, rest)` |
| TrackQuery.DataIsSliceOfSortedMatches | server/src/controllers/trackController.ts:31-58 | `data` is exactly positions `[skip, skip+limit)` of the sorted matches, with `skip = (page-1)*limit`, and there are `totalItems` sorted matches |
| TrackQuery.PastLastPageIsEmpty | server/src/controllers/trackController.ts:53-63 | a page past the last one is empty and is still echoed as the current page |
| TrackQuery.SkipPastLastPage | server/src/controllers/trackController.ts:31-53 | the skip of a page past the page count is at least the item count |
| TrackQuery.SkipInRange | server/src/controllers/trackController.ts:31-53 | a page from 1 to the page count starts before the item count, and all but the last end within it |
| TrackQuery.InRangePageIsNonEmpty | server/src/controllers/trackController.ts:31-58 | every page from 1 to `totalPages` is non-empty, and every page but the last is full |
| TrackQuery.NoMatchesNoPages | server/src/controllers/trackController.ts:52-53 | no matches if and only if no pages, and then the page is empty |
| TrackQuery.PositionOnPage | server/src/controllers/trackController.ts:31 | every position lies on some page of at least 1 |
| TrackQuery.PositionInSortedMatches | server/src/controllers/trackController.ts:55-56 | every matching record of the store has a position among the sorted matches |
| TrackQuery.OtherPage | server/src/controllers/trackController.ts:29-49 | changing only the page changes neither the limit, the filter nor the sorted matches |
| TrackQuery.InWindow | server/src/controllers/trackController.ts:57-58 | a position between `skip` and `skip+limit` is on the window |
| TrackQuery.EveryMatchIsOnSomePage | server/src/controllers/trackController.ts:29-58 | every matching record of the store is listed on some page between 1 and `totalPages` |
| TrackQuery.LowerCaseFilterMatchesCapitalised | server/src/controllers/trackController.ts:39-40 | the artist filter `prodigy` matches the artist `The Prodigy` |
| TrackQuery.SortOrderedPair | server/src/controllers/trackController.ts:55-56 | two records already in order are left as they are |
| TrackQuery.InsertBehindPair | server/src/controllers/trackController.ts:55-56 | a record that may precede neither of two ordered records goes behind both |
| TrackQuery.SortMovesFirstToBack | server/src/controllers/trackController.ts:55-56 | a first record that belongs last ends up behind two ordered ones |
| TrackQuery.SortThreeTitles | server/src/controllers/trackController.ts:47-56 | titles C, A, B sorted ascending by title come out A, B, C |
| TrackQuery.ExampleSortedMatches | server/src/controllers/trackController.ts:34-56 | with no filter and title ascending, store C, A, B gives sorted matches A, B, C |
| TrackQuery.ExampleFirstPage | server/src/controllers/trackController.ts:29-58 | page 1 of size 2 of that store is A, B |
| TrackQuery.FirstPageByTitle | server/src/controllers/trackController.ts:29-67 | that request gives data A, B with currentPage 1, totalPages 2, totalItems 3 and pageSize 2 |
| Strings.Lower | server/src/controllers/trackController.ts:37 | the `i` option folds each character independently and keeps the length (ASCII folding) |
| Strings.ContainsIgnoreCase | server/src/controllers/trackController.ts:37 | defines the `$regex` test with option `i` on a literal pattern: the folded pattern occurs in the folded value; its properties are `Strings.PatternCaseIrrelevant`, `Strings.ValueCaseIrrelevant` and `Strings.EmptyOccursEverywhere` |
| Strings.Upper | server/src/controllers/trackController.ts:37 | models no operation of its own; it serves the case-insensitivity lemmas: capitalising keeps the length, changes each character on its own and leaves no ASCII lower-case letter |
| Strings.LowerForgetsCase | server/src/controllers/trackController.ts:37 | folding a capitalised or an already folded string gives the same as folding the original |
| Strings.PatternCaseIrrelevant | server/src/controllers/trackController.ts:37-43 | a pattern written in capitals or in lower case matches every value the original matches, and no other |
| Strings.ValueCaseIrrelevant | server/src/controllers/trackController.ts:37-43 | a value written in capitals or in lower case is matched by every pattern that matches the original, and no other |
| Strings.EmptyOccursEverywhere | server/src/controllers/trackController.ts:37 | the empty pattern matches every value |
| Strings.LexLeTotal | server/src/controllers/trackController.ts:49 | any two strings are comparable in code-point order |
| Strings.LexLeTransitive | server/src/controllers/trackController.ts:49 | code-point order on strings is transitive |
| Strings.LexLe | server/src/controllers/trackController.ts:49 | defines code-point lexicographic order: a prefix comes first, otherwise the first differing character decides; its properties are `Strings.LexLeTotal` and `Strings.LexLeTransitive` |
| Strings.DecimalString | client/src/services/api.ts:18-19 | `String(n)` of a non-negative number is a non-empty digit string with no leading zero |
| Strings.DecimalRoundTrip | client/src/services/api.ts:18-19 | reading the printed numeral back gives the number |
| TrackTypes.ParseSortBy | server/src/controllers/trackController.ts:47-49 | a sort name reads as the field with that wire name, and as no field when none has it |
| TrackTypes.ToClient | server/src/controllers/trackController.ts:61 | the client's copy of a record carries its id and its three text fields |
| TrackSchema.TrimStart | server/src/models/Track.ts:12 | leading white space is removed: the result is a suffix, everything cut is white space, and the result does not start with white space |
| TrackSchema.IsWhitespace | server/src/models/Track.ts:12 | defines the characters `trim` removes: the ECMAScript white space and line terminator characters |
| TrackSchema.TrimEnd | server/src/models/Track.ts:12 | trailing white space is removed: the result is a prefix, everything cut is white space, and the result does not end with white space |
| TrackSchema.Trim | server/src/models/Track.ts:12 | `trim: true`: leading then trailing white space removed (its properties are in `TrackSchema.TrimIsTrimmedSlice` and `TrackSchema.TrimIdempotent`) |
| TrackSchema.TrimIsTrimmedSlice | server/src/models/Track.ts:12-22 | trimming gives a contiguous slice of the input with no white space at either end, and only white space is cut |
| TrackSchema.TrimIdempotent | server/src/models/Track.ts:12-22 | trimming twice is trimming once |
| TrackSchema.TrimKeepsTrimmed | server/src/models/Track.ts:12-22 | text without white space at its ends is stored unchanged |
| TrackSchema.TrimEmptyIffBlank | server/src/models/Track.ts:9-23 | a value trims to nothing if and only if it is all white space |
| TrackSchema.PassesRequired | server/src/models/Track.ts:9-23 | defines `required` on a trimmed string: present, and non-empty after trimming |
| TrackSchema.AllRequiredPresent | server/src/models/Track.ts:9-23 | defines a document that passes all three `required` validators |
| TrackSchema.FailingFields | server/src/models/Track.ts:9-23 | a field is listed if and only if it fails its validator; the list holds no field twice and is in schema order (title, artist, album); it is empty if and only if all three pass |
| TrackSchema.FailingFieldsExactly | server/src/models/Track.ts:9-23 | for every field: listed as failing if and only if its value fails `required` |
| TrackSchema.RequiredMessageInjective | server/src/models/Track.ts:11-21 | different fields have different required messages |
| TrackSchema.RequiredMessages | server/src/models/Track.ts:11-21 | one required message per field, in the given order |
| TrackSchema.RequiredMessagesNameExactly | server/src/models/Track.ts:11-21 | a field's message is in the list if and only if the field is |
| TrackSchema.FailureMessages | server/src/models/Track.ts:9-23 | one message per failing field, in schema order: a field's required message is among them if and only if that field fails; there are none if and only if all three fields pass |
| TrackSchema.ValidationParts | server/src/models/Track.ts:9-23 | the error entries: one `path: message` entry per failing field, in schema order |
| TrackSchema.ValidationMessage | server/src/models/Track.ts:7-28 | defines the validation error message: the header, then the entries separated by `, `; its property is `TrackSchema.ValidationMessageNamesField` |
| TrackSchema.Join | server/src/models/Track.ts:7-28 | defines the `, `-separated list of entries; its property is `TrackSchema.JoinHasPart` |
| TrackSchema.JoinHasPart | server/src/models/Track.ts:7-28 | every entry occurs in the joined text |
| TrackSchema.ValidationMessageNamesField | server/src/models/Track.ts:9-23 | for each failing field, the error message contains that field's path followed by its required message |
| TrackSchema.Validate | server/src/models/Track.ts:7-28 | validation succeeds if and only if every field is present and non-blank after trimming; success gives the trimmed values, which are well formed; failure gives `FailureMessages`, which names exactly the failing fields in schema order |
| TrackSchema.StoredTextNeverBlank | server/src/models/Track.ts:9-23 | a stored field is never empty, even trimmed again |
| TrackSchema.NewRecord | server/src/models/Track.ts:26 | a new record from validated fields is well formed |
| TrackSchema.UpdatedRecord | server/src/models/Track.ts:26 | an updated record from validated fields is well formed |
| ErrorHandler.FinalStatus | server/src/middleware/errorHandler.ts:15-17 | a preset status of 400 or more is kept; otherwise the error's non-zero code is used; otherwise 500 |
| ErrorHandler.PresetIsError | server/src/middleware/errorHandler.ts:15 | defines the guard `res.statusCode && res.statusCode >= 400`; `ErrorHandler.FinalStatus` and `ErrorHandler.FinalStatusIsErrorIff` state what it decides |
| ErrorHandler.FinalStatusIsErrorIff | server/src/middleware/errorHandler.ts:15-17 | the final status is at least 400 if and only if the preset status is, or the error has no usable code, or its code is at least 400 |
| ErrorHandler.UnsetStatusIsServerError | server/src/middleware/errorHandler.ts:15-17 | an error with no code and no preset status is answered with 500 |
| ErrorHandler.Handle | server/src/middleware/errorHandler.ts:21-26 | the body has status `"error"` and the error's message; the stack is present if and only if not in production and the error has one, and then it is the error's stack |
| TrackController.Respond | server/src/controllers/trackController.ts:18-20 | a reply goes out as it is; an error goes through the error handler, with its status and envelope |
| TrackController.Thrown | server/src/controllers/trackController.ts:14 | defines the error a handler throws with `new Error(message)`: that message, no status code, and a stack that starts with `Error: ` and the message; `TrackController.NotFoundResponds404` states its envelope |
| TrackController.ValidationFailure | server/src/controllers/trackController.ts:17 | defines the schema's validation error: the validation message and no status code; `TrackController.BlankFieldResponds500` and `TrackController.FailingFieldNamedInResponse` state its response |
| TrackController.FailingFieldNamedInResponse | server/src/controllers/trackController.ts:17-20 | a response to a validation failure carries, for each failing field, its path followed by its required message |
| TrackController.AllTruthy | server/src/controllers/trackController.ts:12 | the controller's own check: title, artist and album are each present and non-empty |
| TrackController.NotFoundResponds404 | server/src/controllers/trackController.ts:80-83 | an unknown id is answered with 404 and the "Track not found" envelope |
| TrackController.MissingFieldResponds400 | server/src/controllers/trackController.ts:12-15 | a missing field is answered with 400 |
| TrackController.BlankFieldResponds500 | server/src/controllers/trackController.ts:12-18 | a field that is truthy but blank once trimmed is answered with 500 |
| TrackController.SpaceTitleIsTruthyButBlank | server/src/controllers/trackController.ts:12-17 | a title of one space passes the controller's check and fails the schema's |
| TrackController.Without | server/src/controllers/trackController.ts:133 | the ids left are exactly the old ones other than the removed id, still without duplicates |
| TrackController.DocumentsOf | server/src/controllers/trackController.ts:55 | the records in natural order are the records filed under the ids, position by position |
| TrackController.InsertKeepsInvariant | server/src/controllers/trackController.ts:17 | filing a well-formed record under a fresh id keeps the store invariant |
| TrackController.StoreInvariant | server/src/controllers/trackController.ts:17 | defines the store invariant: every record is filed under its own id and is well formed, and the natural order lists each stored id exactly once; the `...KeepsInvariant` lemmas state that every handler keeps it |
| TrackController.InsertAppendsDocument | server/src/controllers/trackController.ts:17 | the new record comes last in natural order and the others are unchanged |
| TrackController.ReplaceKeepsInvariant | server/src/controllers/trackController.ts:109-113 | replacing a record by a well-formed one with the same id keeps the store invariant |
| TrackController.RemoveKeepsInvariant | server/src/controllers/trackController.ts:133 | removing an id from the map and from the order keeps the store invariant |
| TrackController.Create | server/src/controllers/trackController.ts:8-22 | a missing or empty field gives 400; a blank field gives the schema's validation error with no status set; the store is unchanged in both cases; otherwise 201 and exactly one new record of the trimmed values, stamped now, appended to the natural order |
| TrackController.CreateKeepsInvariant | server/src/controllers/trackController.ts:17-18 | creating under a fresh id keeps the store invariant |
| TrackController.CreateAppendsDocument | server/src/controllers/trackController.ts:17-18 | after a successful create, the records in natural order are the old ones followed by the new one |
| TrackController.Update | server/src/controllers/trackController.ts:94-119 | an unknown id gives 404, checked before the 400 for a missing field; a blank field gives the update validation error; the store is unchanged in all three cases; otherwise 200 and only that record changes: trimmed fields, same id and `createdAt`, `updatedAt` now |
| TrackController.UpdateKeepsInvariant | server/src/controllers/trackController.ts:109-115 | an update keeps the store invariant and replies with the record of the requested id |
| TrackController.UpdateSucceeds | server/src/controllers/trackController.ts:109-115 | a successful update replies 200 with the updated record, replaces only that record, and keeps the store invariant |
| TrackController.Delete | server/src/controllers/trackController.ts:124-139 | an unknown id gives 404 and changes nothing; otherwise 200 echoing the id, and just that record leaves the map and the order |
| TrackController.DeleteKeepsInvariant | server/src/controllers/trackController.ts:133 | a deletion keeps the store invariant |
| TrackController.TrackStore.AddTrack | server/src/controllers/trackController.ts:8-22 | the outcome and the new state are those of `Create` on the old state, and the invariant is kept |
| TrackController.TrackStore.constructor | server/src/controllers/trackController.ts:17 | a new store is empty and satisfies the invariant |
| TrackController.TrackStore.GetAllTracks | server/src/controllers/trackController.ts:27-72 | replies 200 with the list envelope over the records in natural order |
| TrackController.TrackStore.GetTrackById | server/src/controllers/trackController.ts:77-88 | a stored id gives 200 with its record; an unknown id gives 404 |
| TrackController.TrackStore.UpdateTrack | server/src/controllers/trackController.ts:94-119 | the outcome and the new state are those of `Update` on the old state, and the invariant is kept |
| TrackController.TrackStore.DeleteTrack | server/src/controllers/trackController.ts:124-139 | the outcome and the new state are those of `Delete` on the old state, and the invariant is kept |
| QueryParams.NumberOf | server/src/controllers/trackController.ts:29-30 | `Number` of a digit string is its decimal value |
| QueryParams.NumberRoundTrip | client/src/services/api.ts:18-19 | `Number(String(n)) == n` for every integer |
| QueryParams.NumberString | client/src/services/api.ts:18-19 | defines `String(n)` for integers: a minus sign for a negative number, then the decimal digits; its property is `QueryParams.NumberRoundTrip` |
| QueryParams.Lookup | client/src/services/api.ts:17-26 | a parameter found is one that was sent; none is found when no parameter has the name |
| QueryParams.LookupIsFirst | client/src/services/api.ts:17-26 | a value found is that of the first parameter with that name, and no earlier parameter has the name |
| QueryParams.LookupAppend | client/src/services/api.ts:18-24 | an append is seen by a lookup only when the name was not already present |
| QueryParams.ExpectedEncodes | client/src/services/api.ts:17-24 | the parameters built so far are in the fixed order, each name at most once, and carry exactly the options sent |
| QueryParams.NoOptionsNoParams | client/src/services/api.ts:16-17 | the default options `{}` produce no parameters |
| QueryParams.Emitted | client/src/services/api.ts:18-24 | defines the guards `if (options.x)`: the value sent for each parameter, present only when the option is set and truthy; `QueryParams.BuildParams` states that exactly these are sent |
| QueryParams.Expected | client/src/services/api.ts:17-24 | defines the parameters after the first `n` guarded appends; `QueryParams.ExpectedEncodes` and `QueryParams.ExpectedNext` state what they hold |
| QueryParams.ExpectedNext | client/src/services/api.ts:18-24 | each guarded append extends the parameters by the next name exactly when its option is sent |
| QueryParams.AppendPaging | client/src/services/api.ts:18-19 | page and limit are appended, each when set and non-zero, as decimal numerals |
| QueryParams.AppendFilters | client/src/services/api.ts:20-22 | the three filter strings are appended verbatim, each when non-empty |
| QueryParams.AppendSort | client/src/services/api.ts:23-24 | the sort field and order are appended by their wire names, each when set |
| QueryParams.BuildParams | client/src/services/api.ts:16-24 | every set and truthy option appears exactly once, in the order page, limit, title, artist, album, sortBy, sortOrder, and nothing else; `{}` gives no parameters |
| QueryParams.NumberParamRoundTrip | client/src/services/api.ts:18-19 | the server reads back the page or limit the client set, and nothing for an unset or zero one |
| QueryParams.FilterRoundTrip | client/src/services/api.ts:20-22 | the server's filter is the client's non-empty filter strings |
| QueryParams.SortByNameReadsBack | client/src/services/api.ts:23 | a sort field's wire name is non-empty and reads back as that field |
| QueryParams.SortOrderNameIsAsc | client/src/services/api.ts:24 | the order's wire name is `"asc"` if and only if it is ascending |
| QueryParams.SortRoundTrip | client/src/services/api.ts:23-24 | the server sorts by the client's field and direction, by `createdAt` and descending when unset |
| QueryParams.RoundTrip | client/src/services/api.ts:16-26 | the server's page, limit, filter and sort are the client's options, with the server's defaults where an option is not sent |
| QueryParams.BuildParamsRoundTrip | client/src/services/api.ts:16-26 | what the builder produces, the server receives as the client asked |
| QueryParams.ReceivedRequest | server/src/controllers/trackController.ts:29-48 | defines what the server reads from the parameters: `Number` of page and limit, and the first value of each other name; `QueryParams.RoundTrip` states its agreement with the client |
| TrackListPage.PageQuery | client/src/pages/TrackListPage.tsx:30-36 | the query is the current page, limit 10, the filters and the sort pair |
| TrackListPage.PageQueryReachesServer | client/src/pages/TrackListPage.tsx:30-38 | from page 1 or more the server pages at that page, ten per page, with the non-empty filters and the chosen sort |
| TrackListPage.ClientPage | client/src/pages/TrackListPage.tsx:38-40 | the envelope the client receives: as many tracks as the server sent, each the client copy of the server record at that position, and the same page count |
| TrackListPage.FetchShowsServerPage | client/src/pages/TrackListPage.tsx:38-40 | a fetched page holds at most a page size of tracks, each the client copy of a stored record that matches the filter |
| TrackListPage.ClampAfterFetch | client/src/pages/TrackListPage.tsx:42-46 | past the last page the page becomes the last page, with no pages it becomes 1, otherwise it is kept (its range is in `TrackListPage.ClampInRange`) |
| TrackListPage.ClampInRange | client/src/pages/TrackListPage.tsx:42-46 | from a page of 1 or more, the page after a fetch is between 1 and `max(1, totalPages)`, and a page already in range is kept |
| TrackListPage.Dispatch | client/src/pages/TrackListPage.tsx:62-66 | a save is an update exactly when the data carries a non-empty `_id`, sent with that id and the data |
| TrackListPage.ErrorText | client/src/pages/TrackListPage.tsx:48 | an error's own message when it has one, otherwise the fallback text |
| TrackListPage.AtMostOneForm | client/src/pages/TrackListPage.tsx:132-135 | the add form and the edit form are never shown together |
| TrackListPage.TrackListPage.constructor | client/src/pages/TrackListPage.tsx:12-23 | the initial view: no tracks or error, not loading, no form, page 1 of 1, no filters, `createdAt` descending |
| TrackListPage.TrackListPage.BeginFetch | client/src/pages/TrackListPage.tsx:28-36 | loading is set and the error cleared, nothing else changes, and the query is that of the current view |
| TrackListPage.TrackListPage.CompleteFetch | client/src/pages/TrackListPage.tsx:37-52 | success takes the tracks and page count and clamps the page, which ends in range; failure sets only the error; loading ends either way |
| TrackListPage.TrackListPage.HandlePageChange | client/src/pages/TrackListPage.tsx:107-109 | the page is set verbatim and nothing else changes |
| TrackListPage.TrackListPage.HandleFilterChange | client/src/pages/TrackListPage.tsx:111-114 | the filters are replaced and the page reset to 1; nothing else changes |
| TrackListPage.TrackListPage.HandleSortChange | client/src/pages/TrackListPage.tsx:116-120 | both sort fields are set and the page reset to 1; nothing else changes |
| TrackListPage.TrackListPage.HandleEdit | client/src/pages/TrackListPage.tsx:95-97 | the edited track is set and the add form hidden, so only the edit form shows |
| TrackListPage.TrackListPage.ToggleAddForm | client/src/pages/TrackListPage.tsx:126 | the add form flips and any edit is dropped, so the add form shows exactly when it was hidden |
| TrackListPage.TrackListPage.CancelEdit | client/src/pages/TrackListPage.tsx:141 | only the edited track is cleared |
| TrackListPage.TrackListPage.HandleAddOrUpdate | client/src/pages/TrackListPage.tsx:59-76 | the request follows `Dispatch`; success closes both forms and refetches the current view; failure sets the error, ends loading and keeps the form |
| TrackListPage.TrackListPage.HandleDelete | client/src/pages/TrackListPage.tsx:78-93 | an empty id or a declined confirmation does nothing; otherwise the id is deleted, and success refetches while failure sets the error and ends loading |
| TrackListPage.ControlsThenFetch | client/src/pages/TrackListPage.tsx:39-46 | a page chosen with Next, then a fetch with an unchanged page count, leaves the page in range |
| PaginationControls.PreviousGuard | client/src/components/PaginationControls.tsx:14-18 | Previous asks for `currentPage - 1` if and only if `currentPage > 1` |
| PaginationControls.PreviousDisabled | client/src/components/PaginationControls.tsx:32 | defines `disabled={currentPage <= 1}`; `PaginationControls.HandlePrevious` and `PaginationControls.DisabledIffNoRequest` state that a disabled Previous requests nothing |
| PaginationControls.NextDisabled | client/src/components/PaginationControls.tsx:38 | defines `disabled={currentPage >= totalPages}`; `PaginationControls.HandleNext` and `PaginationControls.DisabledIffNoRequest` state that a disabled Next requests nothing |
| PaginationControls.HandlePrevious | client/src/components/PaginationControls.tsx:14-18 | Previous asks for a page exactly when its button is enabled, and that page is at least 1 |
| PaginationControls.HandleNext | client/src/components/PaginationControls.tsx:20-24 | Next asks for a page exactly when its button is enabled, and that page is at most `totalPages` |
| PaginationControls.Visible | client/src/components/PaginationControls.tsx:26-28 | the controls are rendered only from two pages on (see `PaginationControls.VisibleOffersAMove`) |
| PaginationControls.NextGuard | client/src/components/PaginationControls.tsx:20-24 | Next asks for `currentPage + 1` if and only if `currentPage < totalPages` |
| PaginationControls.DisabledIffNoRequest | client/src/components/PaginationControls.tsx:32-38 | each button is disabled exactly when its handler would ask for nothing |
| PaginationControls.RequestedPageInRange | client/src/components/PaginationControls.tsx:14-24 | from a page in `[1, totalPages]` every page asked for is in that range |
| PaginationControls.VisibleOffersAMove | client/src/components/PaginationControls.tsx:26-38 | when the controls are shown (two pages or more), at least one button is enabled |
| PaginationControls.NextThenPreviousReturns | client/src/components/PaginationControls.tsx:14-24 | Previous after Next comes back to the starting page |
| SearchFilter.OrAbsentKeepsNonEmpty | client/src/components/SearchFilter.tsx:18-22 | an input is sent as absent if and only if it is empty, and otherwise verbatim, white space included |
| SearchFilter.OrAbsent | client/src/components/SearchFilter.tsx:19-21 | an input becomes absent when empty and is kept otherwise (its properties are in `SearchFilter.OrAbsentKeepsNonEmpty`) |
| SearchFilter.HandleSortChange | client/src/components/SearchFilter.tsx:25-32 | a sortBy change sends the chosen offered field with the current order; a sortOrder change sends the current field with the chosen order; any other control sends nothing |
| SearchFilter.UpdatedAtNeverChosen | client/src/components/SearchFilter.tsx:65-70 | `updatedAt` is never handed on unless it already was the current field |
| SearchFilter.SearchFilter.constructor | client/src/components/SearchFilter.tsx:12-14 | the three inputs start empty |
| SearchFilter.SearchFilter.SetTitle | client/src/components/SearchFilter.tsx:43 | typing in the title input sets only the title |
| SearchFilter.SearchFilter.SetArtist | client/src/components/SearchFilter.tsx:50 | typing in the artist input sets only the artist |
| SearchFilter.SearchFilter.SetAlbum | client/src/components/SearchFilter.tsx:57 | typing in the album input sets only the album |
| SearchFilter.SearchFilter.HandleFilterSubmit | client/src/components/SearchFilter.tsx:16-23 | each field is sent as absent if and only if its input is empty, and otherwise as typed |
| TrackForm.CarriedId | client/src/components/TrackForm.tsx:53-55 | the submission carries an id if and only if editing with initial data whose `_id` is non-empty, and then it is that `_id` |
| TrackForm.TrackForm.constructor | client/src/components/TrackForm.tsx:22-26 | the form starts as three empty strings |
| TrackForm.TrackForm.SyncFromProps | client/src/components/TrackForm.tsx:28-39 | when editing with initial data the form copies its three fields; otherwise it is reset to empty |
| TrackForm.TrackForm.HandleChange | client/src/components/TrackForm.tsx:41-44 | the named field takes the value and the other two are unchanged |
| TrackForm.TrackForm.HandleSubmit | client/src/components/TrackForm.tsx:46-58 | nothing is submitted if and only if some field is empty; otherwise the three values with the carried id |
| TrackForm.EditRoundTrip | client/src/components/TrackForm.tsx:28-57 | loading a complete track with an id for editing and submitting it unchanged gives back that track |

## Left out

- HTTP transport is not modelled: the axios client, routing, CORS, body parsing, the server bootstrap and the database connection and seeding. Handlers take and return values.
- The index declared in server/src/models/Track.ts:31 is not modelled; it affects performance only.
- `$regex` semantics are not modelled. A filter value is a literal substring, so regular-expression metacharacters in user input are not modelled. Case folding is ASCII only.
- The order of records with equal sort keys is not modelled as the database has it. The model breaks ties by natural order (a stable insertion sort).
- `Number(x)` is modelled only for an optional minus sign followed by decimal digits. Every other string is taken as `NaN`. Fractional, exponent, hexadecimal and white-space-padded numerals are not modelled.
- TrackQuery.ListTracks: requires a page and limit that are not negative (`Admissible`). Negative values, and with them negative skips, are not modelled.
- TrackController.TrackStore.GetAllTracks: requires a page and limit that are not negative (`Admissible`), for the same reason.
- A malformed id fails the database's id cast and reaches the error handler with no status (500). That path is not modelled; ids are plain strings, and an unknown id is the 404 case.
- A create or update body is modelled as the three text fields. Extra fields in the body, non-string values and the cast errors they raise are not modelled.
- The record vanishing between the lookup and the update in `updateTrack` (a concurrent delete) is not modelled.
- Stack traces keep only their header line, and logging with `console.error` is left out.
- Timestamps are integers. The clock, new ids, `window.confirm`'s answer and the result of each request are parameters.
- React rendering, `alert`, the scroll `setTimeout` and the form's `isLoading` prop are not modelled.
- The `useEffect` refetch trigger and overlapping requests are not modelled. This is concurrency; each fetch is one atomic step (`BeginFetch`, then `CompleteFetch`).
- TrackItem.tsx, App.tsx, main.tsx, the entry files and the bundler configuration are not part of this model; they are presentational or configuration only.
- SearchFilter.HandleSortChange: requires the value to be one of the select's own options (`Offered`). A value the browser cannot report is not modelled.
- TrackQuery.KeyOf: a sort name other than the five record fields and `_id` ties every record, and the model then keeps store order. For a misspelt field the database agrees. For the version key `__v`, which every record carries with the same value, the records tie in the database too. For `$natural` the database sorts by natural order, so `sortOrder=desc` gives reverse insertion order where the model keeps store order. Any other name starting with `$` is refused by the database, and the list request ends in a 500 error envelope instead of a page. Document ids compare as their strings; for the database's ids, fixed-length lower-case hexadecimal, that is the same order as the ids' bytes.
- TrackController.Delete: states the order left behind by membership only. The body keeps the remaining ids in their order (via `Without`), but the contract does not claim the order.
- The URL's `URLSearchParams` object is modelled as a sequence of name and value pairs, built in three steps of guarded appends. Its percent-encoding is not modelled.
