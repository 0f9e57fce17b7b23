# arcgis-rest-cli in Dafny

A model of the extraction core of `arcgis-rest-cli`, a scraper that walks the
REST catalogue of an ArcGIS map server and saves every queryable layer as
GeoJSON files of at most 1000 features. The core exists twice: in the library
module `lib/arcgis-rest.js` and in the standalone script
`arcgis-rest-batch.js`. Both are modelled, and where they part the model says
how.

The modules, one file each:

- `common.dfy` (`Common`): parsed JSON values with JavaScript truthiness,
  `Option`, `Result` (a value or an uncaught exception) and the configuration,
  passed as an explicit value.
- `intersect.dfy` (`Intersect`): `intersect(a, b)`, the nested loops as a
  method proved against a recursive definition. The lemmas cover membership,
  multiplicity (count in `a` times count in `b`) and order (that of `a`).
- `text.dfy` (`Text`): printing integers, `split(',')` and `join(',')`, the
  layer-name sanitiser `replace(/([^a-z0-9]+)/gi, '_')` and the textual
  `NaN → null` repair of response bodies.
- `windows.dfy` (`Paging`): the window arithmetic of `parseResult` (`top`,
  `lower`, `upper`, the continuation test) and the fail-stop cursor loop as an
  abstract trace.
- `requests.dfy` (`Requests`): what one window sends and writes. This covers:
  - the where clauses of both versions;
  - `objectIds.slice(fmin, top).join(',')`;
  - the choice of strategy from `idcolumn`;
  - the POST form;
  - the output file name;
  - the merge format of `createShape`.
- `extraction.dfy` (`Extraction`): the batch script's `parseResult` for one
  layer. It is a loop over an abstract sequence of per-window outcomes
  (features present, absent or not an array, and whether the write succeeded),
  written as methods proved against the event trace `Run`. Lemmas prove
  coverage, alternation, fail-stop, one finaliser call and distinct files.
- `libparse.dfy` (`LibraryParse`): the library's `parseResult`. Its
  `testOnly` is `config.testOnly || true`, so it posts the first window only
  and hands the reply to its callback raw, or annotated with the request.
- `catalog.dfy` (`Catalog`): `getLists` (library) and `processLists` (batch):
  MapServer names in order, the folder and service allow-lists, and where the
  two versions differ.
- `layers.dfy` (`Layers`): `processLayers` deciding each layer's fate,
  `getIdfield` (the last OID field wins) and `getObjectIds`.
- `transport.dfy` (`Transport`): what the four HTTP helpers hand to their
  callbacks once a request has ended. It also holds the shared `options`
  object as a class whose methods update it in place, and the two loggers.

The transport, `JSON.parse`, the feature conversion of
`terraformer-arcgis-parser` and the filesystem are parameters. A request ends
in an `Outcome`, `parse` is a function from text to a JSON value or an
exception, and `convert` is a total function on features. The environment of
a layer's loop is `outcome: nat -> WindowOutcome`.

Facts about the source that shape the model:

- `intersect` keeps the order of its first argument, which at both call sites
  is the configured list (lib/arcgis-rest.js:415, 437;
  arcgis-rest-batch.js:416, 436).
- `intersect` pushes an element once per pair of equal elements, so each
  value occurs (count in the first list) × (count in the second) times
  (lib/arcgis-rest.js:46-56, arcgis-rest-batch.js:61-71).
- The layer allow-list is a membership test with `indexOf`
  (lib/arcgis-rest.js:555, arcgis-rest-batch.js:488).
- A `features: []` reply is truthy, so the batch script writes it as a file
  with no features and goes on (arcgis-rest-batch.js:331).
- A body that `JSON.parse` rejects is handled differently by each helper. The
  library's `get` has no `try`, so the exception escapes
  (lib/arcgis-rest.js:244). Its `post` hands the error object to the callback
  (lib/arcgis-rest.js:178-192).
- The cursor loop continues while `fmin + 1000 < fmax + 1`
  (arcgis-rest-batch.js:344-345), so its windows do not always partition the
  id range (see Findings).

## Model

| member | source | states |
|---|---|---|
| Intersect.Intersect | lib/arcgis-rest.js:46-56 | the two nested loops build exactly `Intersection(a, b)`: for each `a[i]` in order, one copy per equal `b[j]` |
| Intersect.Matches | arcgis-rest-batch.js:64-68 | the inner loop pushes `x` exactly as many times as it occurs in `b`, and nothing else |
| Intersect.IntersectionMembers | arcgis-rest-batch.js:61-71 | an element is in the result iff it occurs in both inputs |
| Intersect.IntersectionCount | lib/arcgis-rest.js:46-56 | each value occurs (count in `a`) × (count in `b`) times in the result |
| Intersect.MatchesMultiset | lib/arcgis-rest.js:49-53 | the inner loop's pushes hold `b`'s count of `y` copies of `y` and no other value |
| Intersect.MatchesSingle | lib/arcgis-rest.js:49-53 | against a list without duplicates the inner loop pushes `x` once if it is in `b`, else nothing |
| Intersect.IntersectionFollowsFirst | lib/arcgis-rest.js:46-56 | against a list without duplicates the result is the first list filtered to the common elements, in the first list's order |
| Intersect.IntersectionExample | test/test-arcgis-rest.js:26 | `intersect(['12','2','hi'], ['2','3','boo'])` is `['2']`, for any pairwise different elements |
| Intersect.IntersectionOrderExample | lib/arcgis-rest.js:415 | the configured (first) list decides the order: `intersect([y, x], [x, y]) == [y, x]` |
| Text.DigitChar | arcgis-rest-batch.js:326 | the digit character printed for `d < 10` denotes `d` |
| Text.NatToString | arcgis-rest-batch.js:326 | a natural number prints as a non-empty string of digits without a leading zero |
| Text.NatToStringRoundTrip | arcgis-rest-batch.js:338 | the printed digits denote the number again |
| Text.IntToString | arcgis-rest-batch.js:326 | `String(i)` is non-empty and holds only digits and `-` |
| Text.IntToStringRoundTrip | lib/arcgis-rest.js:496 | reading back a printed integer gives the integer |
| Text.IntToStringInjective | arcgis-rest-batch.js:338 | distinct integers print differently |
| Text.SplitAtFirst | lib/arcgis-rest.js:496 | text split at the first occurrence of a character absent from both prefixes determines both parts |
| Text.Split | lib/arcgis-rest.js:566 | `split(sep)` yields at least one piece, none containing `sep` |
| Text.JoinSplit | lib/arcgis-rest.js:566 | joining the pieces of a split gives the text back |
| Text.SplitWithout | lib/arcgis-rest.js:566 | text without the separator splits into itself alone |
| Text.SplitAfterPiece | lib/arcgis-rest.js:566 | splitting `p + sep + t` gives `p` followed by the pieces of `t` |
| Text.SplitJoin | lib/arcgis-rest.js:499 | splitting a join of separator-free pieces gives the pieces back |
| Text.SanitizeFrom | arcgis-rest-batch.js:338 | the left-to-right scan of the sanitiser never lengthens the text |
| Text.SanitizeFromIsClean | arcgis-rest-batch.js:338 | the scan's output holds only letters, digits and `_`, and no `_` after a run |
| Text.Sanitize | arcgis-rest-batch.js:294 | the sanitised name holds only `[A-Za-z0-9_]`, never `__`, and is no longer than the name |
| Text.SanitizeFromKeepsAlnum | arcgis-rest-batch.js:338 | the scan keeps every letter and digit in order |
| Text.SanitizeKeepsAlnum | lib/arcgis-rest.js:658 | sanitising keeps every letter and digit of the name, in order |
| Text.SanitizeFromClean | arcgis-rest-batch.js:338 | the scan leaves clean text unchanged |
| Text.SanitizeIdempotent | arcgis-rest-batch.js:338 | sanitising a sanitised name changes nothing |
| Text.SanitizeFromStep | arcgis-rest-batch.js:338 | one step of the scan, for a letter or digit and for any other character |
| Text.SanitizeFromAppend | arcgis-rest-batch.js:338 | the scan of `a + b` is the scan of `a` followed by the scan of `b` from the state after `a` |
| Text.SanitizeFromWord | arcgis-rest-batch.js:338 | a word of letters and digits is copied as it is |
| Text.SanitizeWordThen | arcgis-rest-batch.js:338 | a word is copied and ends any run before it |
| Text.SanitizeRunThen | arcgis-rest-batch.js:338 | a maximal run of other characters becomes exactly one `_` |
| Text.SanitizeParenthesised | arcgis-rest-batch.js:338 | ` (NL)` becomes `_NL_` |
| Text.SanitizeSeparatorsTail | arcgis-rest-batch.js:338 | ` / Objects (NL)` becomes `_Objects_NL_` |
| Text.SanitizeSeparators | arcgis-rest-batch.js:294 | names shaped like `Rail / Objects (NL)` become `Rail_Objects_NL_` |
| Text.ReplaceNaN | arcgis-rest-batch.js:156 | the repaired body contains no `NaN`, is empty iff the body is, and is the body itself when the body has no `NaN` |
| Text.ReplaceNaNFirst | arcgis-rest-batch.js:156 | the first `NaN` becomes `null`, the text before it is kept and the replacement continues after it; with the no-`NaN` clause this fixes the result for every body |
| Text.ReplaceNaNExample | lib/arcgis-rest.js:177 | `xNaN` is repaired to `xnull` |
| Paging.WindowAt | lib/arcgis-rest.js:474-484 | `top = min(fmin+1000, fmax)+1`, `lower = fmin+1`, `upper = top-1 <= fmax`, at most 1000 wide, empty iff `fmin >= fmax`; the window selects exactly `lower..upper` |
| Paging.Windows | arcgis-rest-batch.js:344-348 | the windows the cursor loop visits start with the window at `fmin` |
| Paging.WindowsShape | arcgis-rest-batch.js:344-347 | window `k` is at cursor `fmin + 1000k`, and there are `(fmax-fmin)/1000 + 1` of them |
| Paging.WindowsContiguous | arcgis-rest-batch.js:313-323 | the first window starts at `fmin+1`, each starts right after its predecessor ends, and the last ends at `fmax` |
| Paging.WindowsIncrease | arcgis-rest-batch.js:344 | later windows lie strictly above earlier ones |
| Paging.WindowsCover | arcgis-rest-batch.js:313-347 | every id in `fmin+1..fmax` is selected by exactly one window |
| Paging.ContinuesAdvances | lib/arcgis-rest.js:522-525 | each continuation raises the cursor by 1000 and keeps it at most `fmax`, so the loop terminates |
| Paging.WindowsExample | arcgis-rest-batch.js:310-351 | from 0 with `fmax = 2500` the windows are [1,1000], [1001,2000] and [2001,2500] |
| Paging.Trace | arcgis-rest-batch.js:339-356 | the fail-stop trace starts with the first window's fetch and its outcome |
| Paging.TraceWindow | arcgis-rest-batch.js:339-356 | while earlier windows succeeded, event `2j` is window `j`'s fetch and event `2j+1` its outcome; a failed window is the last |
| Paging.TraceAt | arcgis-rest-batch.js:339-356 | the event at `2b+1` is window `b`'s outcome, and every earlier window succeeded |
| Paging.TraceComplete | arcgis-rest-batch.js:344-351 | when every window succeeds the final step comes once, after all of them |
| Paging.LeadingOks | arcgis-rest-batch.js:340-347 | the count of leading successes: all before it succeed, the one at it does not |
| Paging.TraceLength | arcgis-rest-batch.js:339-356 | the trace stops right after the first failure; only without one does it reach the final step |
| Paging.WindowsStep | arcgis-rest-batch.js:344-348 | the cursor sequence unrolled by one window |
| Paging.TrailingEmptyWindow | arcgis-rest-batch.js:344-345 | as written, when `fmax - fmin` is a positive multiple of 1000 the last window is empty, after the one ending at `fmax` |
| Paging.TrailingEmptyWindowExample | arcgis-rest-batch.js:344-345 | from 0 with `fmax = 1000`: a second window [1001, 1000] |
| Paging.WindowsIntended | arcgis-rest-batch.js:344-345 | the corrected cursor sequence starts with the window at `fmin` |
| Paging.WindowsIntendedCount | arcgis-rest-batch.js:344-345 | with the corrected test there are `ceil((fmax-fmin)/1000)` windows |
| Paging.WindowsIntendedShape | arcgis-rest-batch.js:344-345 | with the corrected test window `k` is at cursor `fmin + 1000k` |
| Paging.WindowsIntendedNonEmpty | arcgis-rest-batch.js:344-345 | with the corrected test no window is empty and the last ends at `fmax` |
| Requests.SliceIndex | arcgis-rest-batch.js:369 | a `slice` bound is clamped to the list; a non-negative one is `min(k, len)` |
| Requests.JsSlice | lib/arcgis-rest.js:499 | `slice(start, end)` for `0 <= start <= end` is the clamped sub-sequence, and holds only list elements |
| Requests.JsTexts | lib/arcgis-rest.js:499 | `join` turns each element into one text |
| Requests.JsTextsNumbers | lib/arcgis-rest.js:499 | integer ids are joined as their decimal text |
| Requests.JoinIds | arcgis-rest-batch.js:369 | `join(',')` of the posted ids; JoinIdsRoundTrip reads integer ids back in order |
| Requests.JoinIdsRoundTrip | arcgis-rest-batch.js:369 | splitting the joined `objectIds` on commas and reading each piece gives the integer ids back, in order |
| Requests.IdSliceBounds | lib/arcgis-rest.js:499 | from a non-negative cursor the slice is the ids at positions `fmin..top-1` clamped to the list: at most 1001 |
| Requests.IdSlice | arcgis-rest-batch.js:369 | `objectIds.slice(fmin, top)` with the window's `top`: the ids one window of the id-list strategy posts, located by IdSliceBounds |
| Requests.IdSliceIntended | arcgis-rest-batch.js:369 | the corrected slice: at most 1000 ids, the positions `fmin..fmin+999` clamped to the list |
| Requests.IdPagesIntended | arcgis-rest-batch.js:344-369 | the corrected slices of every window the cursor loop visits, concatenated; IdPagesIntendedPartition proves they make up `ids[fmin..]` |
| Requests.IdSlicesOverlap | arcgis-rest-batch.js:369 | as written, consecutive id slices share the id at position `fmin + 1000` |
| Requests.IdSlicesOverlapExample | arcgis-rest-batch.js:369 | 1001 ids, `fmax = 1000`: the first slice holds all 1001, the second the last one again |
| Requests.IdPagesBeyondEnd | arcgis-rest-batch.js:369 | corrected slices beyond the end of the list are empty |
| Requests.IdPagesIntendedPartition | arcgis-rest-batch.js:369 | the corrected slices concatenate to every id from the cursor on, each once, in order |
| Requests.PrefixCancel | lib/arcgis-rest.js:496 | a common prefix cancels |
| Requests.SuffixCancel | arcgis-rest-batch.js:338 | a common suffix cancels |
| Requests.IntToStringNoChar | lib/arcgis-rest.js:496 | a printed integer holds no `+` or `_` |
| Requests.WhereBoundsDetermined | lib/arcgis-rest.js:496 | the two bounds can be read back from a clause |
| Requests.BatchWhere | arcgis-rest-batch.js:326 | the URL-encoded clause `col+%3E+fmin+AND+col+%3C+top` of the batch GET; BatchWhereInjective reads the bounds back |
| Requests.LibWhere | lib/arcgis-rest.js:496 | the clause `col+>+fmin+AND+col+<+top` of the library's form; LibWhereInjective reads the bounds back |
| Requests.BatchWhereSplit | arcgis-rest-batch.js:326 | the batch clause regrouped around its lower bound |
| Requests.LibWhereSplit | lib/arcgis-rest.js:496 | the library clause regrouped around its lower bound |
| Requests.BatchWhereInjective | arcgis-rest-batch.js:326 | the URL-encoded clause `col+%3E+fmin+AND+col+%3C+top` determines `fmin` and `top` |
| Requests.LibWhereInjective | lib/arcgis-rest.js:496 | the clause `col+>+fmin+AND+col+<+top` determines `fmin` and `top` |
| Requests.ClassifyIdColumn | lib/arcgis-rest.js:495-503 | a string selects the range strategy on that column; an object with a truthy `objectIdFieldName` and an array `objectIds` selects the id list; otherwise nothing is usable unless reading throws (`null`, ids not an array) |
| Requests.BaseForm | lib/arcgis-rest.js:488-493 | every POST carries `outFields`, `returnGeometry`, `outSR` and `f=json` |
| Requests.ObjectIdsQueryForm | arcgis-rest-batch.js:245-249 | the id query posts `where`, `returnIdsOnly` and `f` |
| Requests.FileNameInjective | arcgis-rest-batch.js:338 | within one layer the file name determines the window's `lower` and `upper` |
| Requests.FileName | arcgis-rest-batch.js:338 | `outputdir/service/id_name_lower_upper.geojson` with the sanitised layer name; FileNameInjective and FileNameSplit state what it determines |
| Requests.FileNameFields | arcgis-rest-batch.js:338 | equal file names of one layer have equal bounds |
| Requests.FileNameSplit | arcgis-rest-batch.js:338 | the file name is the layer's prefix followed by `lower_upper.geojson` |
| Requests.WindowFilesDistinct | arcgis-rest-batch.js:338 | the windows of one layer's loop go to pairwise distinct files |
| Requests.MergeFormat | lib/arcgis-rest.js:646-657 | Polygon gives POLYGON, Polyline gives LINESTRING, anything else POINT (the `switch` only; the library's `createShape` then throws at its bare `shspawn`, see Left out) |
| Extraction.ReplyFeatures | arcgis-rest-batch.js:331-332 | the callback finds no features iff the reply or its `features` is falsy, and an array of items exactly when `features` is a truthy array |
| Extraction.ConvertAll | arcgis-rest-batch.js:332-335 | the collection has one converted feature per feature, in order |
| Extraction.ConvertFeatures | arcgis-rest-batch.js:330-335 | the `forEach` that pushes converted features builds `ConvertAll` |
| Extraction.WindowFilesDiffer | arcgis-rest-batch.js:338 | windows with different lower bounds go to different files |
| Extraction.StepEvent | arcgis-rest-batch.js:331-356 | a window is saved iff the reply has an array of features and the write succeeds; no features, features that are not an array, and a failed write each end the layer |
| Extraction.FinalEvent | arcgis-rest-batch.js:348-351 | after the last write the range branch calls `createShape`; the id-list branch throws on `geometrytype` |
| Extraction.Fetches | arcgis-rest-batch.js:329 | one fetch per window, in order |
| Extraction.BatchRequest | arcgis-rest-batch.js:326-370 | a range strategy sends a GET and an id list a POST to the layer's query path; the POST carries the base fields plus the window's joined ids, and every request names a spatial reference: the configured one, or `4326` after the startup default of arcgis-rest-batch.js:39-41 |
| Extraction.BatchRangeDefaultSr | arcgis-rest-batch.js:39-41 | with no `outSr` configured, the range query's path asks for `outSR=4326` |
| Extraction.Run | arcgis-rest-batch.js:329-356 | the events of the cursor loop from `fmin`, over `Windows(fmin, fmax)`; RunComplete, RunStops and RunAlternates state its shape |
| Extraction.Steps | arcgis-rest-batch.js:331-356 | window `i`'s event is its outcome under the `k+i`-th environment step |
| Extraction.Saves | arcgis-rest-batch.js:339-342 | window `i` is saved iff the `k+i`-th outcome succeeds |
| Extraction.ParseResult | arcgis-rest-batch.js:325-398 | an unusable `idcolumn` fetches nothing; one whose reading throws ends with that exception; otherwise the first event fetches the window at `fmin` |
| Extraction.ExtractLayer | arcgis-rest-batch.js:310-399 | `parseResult` for one layer produces exactly the trace `ParseResult` |
| Extraction.CursorLoop | arcgis-rest-batch.js:339-351 | the self-call after each successful write produces exactly the trace of the windows from `fmin` |
| Extraction.ExtractWindow | arcgis-rest-batch.js:329-356 | one call handles the window at `fmin`; it asks for the next window only if `fmin + 1000 <= fmax`, and its events are that window's part of the trace |
| Extraction.RunFromUnfold | arcgis-rest-batch.js:339-351 | one pass of the loop: the window, then the rest only after a successful write |
| Extraction.RunWindow | arcgis-rest-batch.js:339-356 | while earlier windows were saved, event `2j` fetches window `j` and event `2j+1` saves it or ends the layer |
| Extraction.RunComplete | arcgis-rest-batch.js:344-351 | when every write succeeds each window is fetched and saved once, and `createShape` (or the crash) comes once, last |
| Extraction.SavedWindows | arcgis-rest-batch.js:339-356 | the number of leading saved windows: all before it are saved, the next is not |
| Extraction.RunStops | arcgis-rest-batch.js:340-356 | fail-stop: after the first window that is not saved nothing more is requested and `createShape` is never reached |
| Extraction.RunAlternates | arcgis-rest-batch.js:329-347 | before the last event the loop alternates fetch and save |
| Extraction.SavedWindowsIncrease | arcgis-rest-batch.js:344-347 | saved windows come in increasing order |
| Extraction.SavedFilesDistinct | arcgis-rest-batch.js:338-339 | no file is written twice in one layer's loop |
| Extraction.RunExample | arcgis-rest-batch.js:310-351 | from 0 with 2500 features: [1,1000], [1001,2000], [2001,2500] are saved, then `createShape` once |
| Requests.OutSr | lib/arcgis-rest.js:468 | `config.outSr \|\| "4326"` (and the batch script's startup default at arcgis-rest-batch.js:39-41): never empty, the configured value when there is one, else `4326` |
| LibraryParse.LibTestOnly | lib/arcgis-rest.js:470 | `config.testOnly \|\| true` is true whatever is configured |
| LibraryParse.LibForm | lib/arcgis-rest.js:486-503 | the POST form is the base fields plus `where` iff the range strategy and `objectIds` iff the id list |
| LibraryParse.LibFormRangeDetermined | lib/arcgis-rest.js:495-496 | the range form determines the window it queries |
| LibraryParse.LibFormIds | lib/arcgis-rest.js:497-499 | the id form names exactly the ids at positions `fmin..top-1`, in order |
| LibraryParse.Handle | lib/arcgis-rest.js:505-538 | features in an array: the reply goes to the callback raw; no features on an object or array: annotated with `urlpath`, `hostname` and `postdata`; features not an array: the `forEach` exception |
| LibraryParse.OnReply | lib/arcgis-rest.js:504-540 | an exception inside `post`'s `try` comes back as the error object, annotated |
| LibraryParse.LibParseResult | lib/arcgis-rest.js:467-541 | one POST of the first window's form to the layer's query path; an unusable `idcolumn` first calls `callback()` and still posts; a throwing one stops before the POST |
| LibraryParse.FeaturesHandedRaw | lib/arcgis-rest.js:470 | whatever `config.testOnly` says, a reply with features is handed back raw: nothing is written and the cursor never moves |
| LibraryParse.FailuresAnnotated | lib/arcgis-rest.js:190-202 | a request error or a parse failure reaches the callback as the error object annotated with the request |
| LibraryParse.NonOkStatusThrows | lib/arcgis-rest.js:533-535 | a non-200 status leaves `result6` undefined, and annotating it throws |
| LibraryParse.FeaturesNotArrayAnnotated | lib/arcgis-rest.js:506-510 | features that are not an array come back as an annotated error object |
| LibraryParse.RangeFormExample | test/test-arcgis-rest.js:99 | `parseResult(0, 1, ..., 'OBJECTID')` posts `OBJECTID+>+0+AND+OBJECTID+<+2` |
| LibraryParse.IdFormExample | test/test-arcgis-rest.js:106 | `parseResult(0, 1, ..., {objectIds: [1]})` posts `objectIds=1` |
| LibraryParse.ErrorReplyExample | test/test-arcgis-rest.js:98-104 | a server error reply reaches the callback annotated, its `error.code` 400 intact |
| LibraryParse.IdListExample | test/test-arcgis-rest.js:105-111 | a one-feature reply to the id-list POST reaches the callback raw, with one feature |
| Catalog.CollectMapServers | lib/arcgis-rest.js:423-428 | the loop collects exactly the names of the `MapServer` entries, in order |
| Catalog.MapServerNames | lib/arcgis-rest.js:423-428 | the names of the `MapServer` entries in reply order; MapServerNamesMembers and MapServerNamesAppend state membership and order |
| Catalog.MapServerNamesMembers | arcgis-rest-batch.js:426-431 | a name is collected iff some `MapServer` entry carries it |
| Catalog.MapServerNamesAppend | lib/arcgis-rest.js:424-428 | the filter keeps the reply's order |
| Catalog.MapServerNamesLength | arcgis-rest-batch.js:427-431 | no more names than entries; all when every entry is a `MapServer` |
| Catalog.MapServerNamesExample | lib/arcgis-rest.js:425 | a `FeatureServer` between two map services is dropped |
| Catalog.GetLists | lib/arcgis-rest.js:396-451 | `getLists` builds exactly `LibLists`: all folders, none when `folderList` is unset, or the allowed ones; services always collected; an unset `servicesList` clears `folders`; no value for a falsy reply |
| Catalog.ProcessLists | arcgis-rest-batch.js:406-451 | `processLists` builds exactly `BatchLists`: services only with `useRootServices`; an allow-list on but unset gives no lists |
| Catalog.ServicesAreMapServers | arcgis-rest-batch.js:425-441 | every service handed on by either version is a `MapServer` entry of the reply, and is allow-listed when the list applies |
| Catalog.FoldersAreListed | lib/arcgis-rest.js:408-417 | every folder handed on is a folder of the reply, and is allow-listed when the list applies |
| Catalog.LibServicesExactly | lib/arcgis-rest.js:420-441 | the library hands on a service iff it names a `MapServer` entry of the reply and a set allow-list, when switched on, names it; a switched-on but unset list filters nothing |
| Catalog.LibFoldersExactly | lib/arcgis-rest.js:405-436 | the library hands on a folder iff the reply lists it, the folder allow-list (when switched on) is set and names it, and no unset services allow-list clears the folders |
| Catalog.BatchListsNone | arcgis-rest-batch.js:406-445 | the batch script gives no lists iff an allow-list it reads is switched on but unset |
| Catalog.BatchServicesExactly | arcgis-rest-batch.js:425-441 | when the batch gives lists, a service is handed on iff root services are on, it names a `MapServer` entry, and the switched-on allow-list names it |
| Catalog.BatchFoldersExactly | arcgis-rest-batch.js:408-418 | when the batch gives lists, a folder is handed on iff the reply lists it and the switched-on allow-list names it |
| Catalog.ListsAgree | lib/arcgis-rest.js:400 | with `useRootServices` on and every enabled allow-list set, both versions select the same lists |
| Catalog.ListsDiffer | lib/arcgis-rest.js:429-439 | the library collects services with `useRootServices` off; an unset allow-list empties the library's folders but leaves the batch script without lists |
| Catalog.NoReplyNoLists | arcgis-rest-batch.js:446-449 | a falsy reply gives `callback()` with no value, in both |
| Layers.FirstNull | arcgis-rest-batch.js:265-266 | the position of the first `null` field, where reading `field.type` throws |
| Layers.IdfieldAfter | arcgis-rest-batch.js:265-269 | the identifier column after scanning well-formed fields in order: the last OID field's `name`, else `OBJECTID` (LastOidWins, NoOidDefault) |
| Layers.LastOidWins | arcgis-rest-batch.js:265-269 | the name of the last `esriFieldTypeOID` field wins |
| Layers.NoOidDefault | arcgis-rest-batch.js:262 | without an OID field the column is `OBJECTID` |
| Layers.ScanFields | lib/arcgis-rest.js:273-277 | the `forEach` updating `idcolumn` in place ends with the last OID name before the first `null`, and throws iff there is one |
| Layers.GetIdfield | arcgis-rest-batch.js:260-274 | a falsy reply gives `OBJECTID`; only the library's `get` lets a throw escape |
| Layers.GetIdfieldWellFormed | lib/arcgis-rest.js:267-282 | with well-formed fields both versions give the last OID field's name, or `OBJECTID` |
| Layers.NullFieldExample | arcgis-rest-batch.js:263-271 | a `null` after an OID field: the batch script still hands on the name, the library throws |
| Layers.ObjectIdsOrEmpty | arcgis-rest-batch.js:252-258 | a truthy reply is handed on, otherwise `[]` |
| Layers.ObjectIdsFailureFetchesNothing | arcgis-rest-batch.js:256 | a failed id query makes `parseResult` find no usable strategy |
| Layers.ObjectIdsReply | lib/arcgis-rest.js:292-298 | a well-formed id reply selects the id list over its ids |
| Layers.QueryableExample | lib/arcgis-rest.js:566 | `Map,Query,Data` is queryable |
| Layers.Admitted | lib/arcgis-rest.js:552-557 | `yesContinue`: every layer without the allow-list, a listed id with it, a throw when the list is unset |
| Layers.AdmittedCases | lib/arcgis-rest.js:552-557 | admitted iff the allow-list is off or lists the id; throws iff the list is on but unset |
| Layers.Queryable | lib/arcgis-rest.js:565-566 | a string `capabilities` is split on `,` and searched for `Query`; a truthy non-string throws |
| Layers.QueryableCases | lib/arcgis-rest.js:565-566 | queryable iff `capabilities` is a non-empty string with the token `Query`; throws iff it is truthy and not a string |
| Layers.SpacedNotQueryableExample | lib/arcgis-rest.js:566 | `Map, Query` is not: the token must match exactly |
| Layers.PrefixNotQueryableExample | lib/arcgis-rest.js:566 | `Map,Querying` is not |
| Layers.PlanLayer | lib/arcgis-rest.js:550-588 | a layer is extracted iff it is no group layer, is admitted, is queryable, has a numeric non-zero count and `testOnly` is off; then from `offsetStart` to the count with `OBJECTID` or the id reply and its geometry type; an unset allow-list throws |
| Layers.PlanFrom | arcgis-rest-batch.js:482-530 | the `forEach` plans each layer in turn until an exception ends it |
| Layers.ProcessLayers | lib/arcgis-rest.js:543-603 | `processLayers` produces exactly `PlanService`: skipped unless a `MapServer`, no layers on a falsy reply, else the plans of the loop and how it ended |
| Layers.ExtractedLayer | arcgis-rest-batch.js:483-517 | the extraction criteria and arguments, per layer of a service |
| Layers.TestOnlyExtractsNothing | lib/arcgis-rest.js:573-574 | with `testOnly` counts are only logged |
| Layers.LoopCoversLayers | lib/arcgis-rest.js:549-555 | with the allow-list set whenever used, every layer is planned |
| Layers.PlanLayerAgree | lib/arcgis-rest.js:561-568 | without a non-string `capabilities` a layer's plan does not depend on the helper |
| Layers.PlanFromAgree | arcgis-rest-batch.js:482-530 | the plans agree from any position on under the same condition |
| Layers.HelpersAgree | lib/arcgis-rest.js:543-603 | the two versions of `processLayers` differ only in whether an exception is caught |
| Layers.CapabilitiesListExample | arcgis-rest-batch.js:498-499 | a list-valued `capabilities`: the batch script reports no count, the library throws |
| Transport.Select | arcgis-rest-batch.js:219-228 | `''` gives the whole result; otherwise the member if truthy, else the whole result; reading `null` throws |
| Transport.Reply | arcgis-rest-batch.js:216-228 | a 200 body has every `NaN` replaced by `null`, is parsed, then selected; a parse exception is passed on |
| Transport.ErrorValue | lib/arcgis-rest.js:190-191 | the error object handed on carries its `message` |
| Transport.Deliver | lib/arcgis-rest.js:175-202 | non-200 gives `undefined`; a reply is handed on inside the `try` except in `get`; failures give `undefined` in the batch helpers, the error object in `post`, and an exception in `get` |
| Transport.Redeliver | arcgis-rest-batch.js:169-172 | a throw inside the `try` calls back again outside it: `undefined` in the batch helpers, the error in `post`, never in `get` |
| Transport.DeliverSeesNoNaN | arcgis-rest-batch.js:156-158 | the parser only ever sees text without `NaN` |
| Transport.PostErrorAsIdColumn | lib/arcgis-rest.js:292-298 | a failed id query in the library hands on an error object, with which `parseResult` finds no strategy |
| Transport.SelectLayersExample | arcgis-rest-batch.js:480-482 | an empty layer list is handed on; a missing one hands on the whole reply |
| Transport.RequestOptions.constructor | arcgis-rest-batch.js:131 | the options as configured: no path, method or headers yet |
| Transport.RequestOptions.PrepareGet | arcgis-rest-batch.js:198-199 | a GET sets only `path`, leaving the method and headers as they were |
| Transport.RequestOptions.PreparePost | arcgis-rest-batch.js:131-138 | a POST sets `path`, `method` and the form headers |
| Transport.RequestOptions.PrepareGetIntended | lib/arcgis-rest.js:225-226 | the corrected GET also resets the method and headers |
| Transport.PostHeaders | lib/arcgis-rest.js:156-159 | the form content type and a `Content-Length` that reads back as the body length |
| Transport.GetAfterPost | arcgis-rest-batch.js:130-200 | as written, a GET after a POST goes out with method `POST` and the POST's headers |
| Transport.GetAfterPostIntended | arcgis-rest-batch.js:198-200 | with the reset, the same sequence sends a plain GET without `Content-Length` |
| Transport.LogLine | lib/arcgis-rest.js:89-95 | the library's log line `[type] message\n` |
| Transport.BatchLogLine | arcgis-rest-batch.js:83 | the batch line has two spaces after the tag |
| Transport.LogLineExample | test/test-arcgis-rest.js:30 | `logger('info', 'this is a message')` returns `[info] this is a message\n` |
| Transport.LogLineInjective | lib/arcgis-rest.js:95 | the tag and the message can be read back from the line |
| Transport.LoggersDiffer | lib/arcgis-rest.js:90-94 | once configured the library prints only in debug mode; the batch script prints everything but `debug` messages otherwise |

## Left out

- HTTP and SOCKS transport, the response stream and the Node-version check: a request is an `Outcome`.
- The `'readable'` handler appending `res.read()`, which can append `"null"` at the end of a stream. The body is taken as delivered.
- `JSON.parse`, `JSON.stringify` and `ArcGIS.parse` are foreign library calls. They are the parameters `parse` and `convert`, and `convert` is assumed never to throw.
- `querystring.stringify` and `Buffer.byteLength`: the form is a map, and its byte length is a parameter.
- `fs.writeFile`, `mkdirSync`, `mkdirpSync`, `shspawn` and `merge.sh` are filesystem and process I/O. A write is success or failure, and `createShape` is the `Finalize` event with its service, unit and format.
- Configuration loading through `require`, `process.argv`, `setConfig` and `getConfig`: the configuration is an explicit value.
- The asynchronous fan-out of `run`, `_main_` and `processServices`: layers run concurrently through callbacks, and the model covers one service's loop and one layer's windows.
- The superseded definitions in lib/arcgis-rest.js at 58-79 and 301-389 are overridden by the later assignments.
- Requests.MergeFormat: only the format `switch` of the library's `createShape` (lib/arcgis-rest.js:646-657) is modelled. The function then calls a bare `shspawn` (lib/arcgis-rest.js:659), but the module defines only `exports.shspawn` (lib/arcgis-rest.js:638) and runs in strict mode (lib/arcgis-rest.js:20). So the library's `createShape` throws a ReferenceError after its two log lines and never runs `merge.sh`. That throw is not modelled. The batch script's `createShape` calls its own `shspawn` (arcgis-rest-batch.js:275, 295), and that is the `Finalize` event of Extraction.
- JSON numbers are integers only. A non-integer `count`, id or `offsetStart` is not modelled. With a non-integer value, the window arithmetic, the clause text and the file names of `parseResult` would differ from the model's. Text.IntToString prints plain decimal digits. JavaScript prints numbers of 1e21 or more in exponent form, and integers above 2^53 lose precision, so for such ids, counts or bounds the model's request and file-name text differs from the source's.
- Extraction.ParseResult: a throwing `idcolumn` ends the trace with `Threw`. In the batch script such an `idcolumn` comes only from `getObjectIds`, whose call runs inside `postRetrieve`'s `try` (arcgis-rest-batch.js:157-171, 252-258). The throw is caught and logged, `getObjectIds` calls back with `[]`, and `parseResult` runs a second time and finds nothing usable. The pieces are Transport.Redeliver and Layers.ObjectIdsFailureFetchesNothing. The model does not chain them into one trace.
- LibraryParse.LibParseResult: stops at the first callback. `processLayers` calls the library's `parseResult` without a callback, so `callback()` would throw, and the library's unreachable write path (guarded by the always-true `testOnly`) is not modelled.
- LibraryParse.LibParseResult: a throw from the caller's own callback inside `post`'s `try`, which would make `post` call it again with the error, is not modelled. Callbacks are assumed not to throw.
- Layers.PlanLayer: a truthy count that is not a number is `OddCount`. JavaScript would compare and concatenate it as text inside `parseResult`.
- Layers.ProcessLayers: models one service. What the caller's `callback()` does after "Could not get layers" is not modelled; `processServices` passes none. A `null` entry in `layers`, where reading `.subLayerIds` throws (arcgis-rest-batch.js:483, lib/arcgis-rest.js:550), and a `layer.id` that is not an integer are not modelled: a layer entry always has an integer id.
- Catalog.GetLists: a `folders` or `services` member that is truthy but not an array is not modelled. The reply is read as the two optional lists. A `null` entry in `services`, where reading `.type` throws (lib/arcgis-rest.js:425, arcgis-rest-batch.js:428), is not modelled either: an entry is always a name and a type.
- Error messages of exceptions are given for the cases the model names. The exact text Node prints for a slice of a non-array `objectIds` is not modelled.
- Node's `http.get` behaviour with a leftover `method` is assumed from the library's documentation; it is not part of this model.
- The network-dependent tests are not modelled beyond the two `parseResult` scenarios and the helper examples.

## Findings

The main model follows the code as written. The corrected definitions stand beside it with their intended property proved.

| source | as written | input that shows it | evidently intended | confidence | as-written member | corrected member |
|---|---|---|---|---|---|---|
| arcgis-rest-batch.js:369 | `objectIds.slice(fmin, top)` with `top = fmin + 1001` posts 1001 ids, and the next window starts at `fmin + 1000` | 1001 ids, `fmin = 0`, `fmax = 1000`: both windows request the id at position 1000 | each window posts the 1000 ids from its cursor, so the windows partition the list | high, not executed | Requests.IdSlicesOverlap, Requests.IdSlicesOverlapExample | Requests.IdSliceIntended, Requests.IdPagesIntendedPartition |
| arcgis-rest-batch.js:344-345 | the loop continues while `fmin + 1000 < fmax + 1` | `fmin = 0`, `fmax = 1000`: after [1, 1000] a window [1001, 1000] is requested and written | stop once the window ending at `fmax` is written (`fmin + 1000 < fmax`) | medium, not executed | Paging.TrailingEmptyWindow, Paging.TrailingEmptyWindowExample | Paging.WindowsIntended, Paging.WindowsIntendedNonEmpty |
| arcgis-rest-batch.js:198-200 | `retrieve` sets only `options.path` on the object `postRetrieve` gave `method: 'POST'` and a `Content-Length` | `getObjectIds` for one layer, then the next layer's `retrieve` | a GET without the POST's method and headers | medium, not executed | Transport.GetAfterPost | Transport.GetAfterPostIntended, Transport.RequestOptions.PrepareGetIntended |
