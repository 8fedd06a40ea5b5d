# random-internet-archive, modelled in Dafny

`randomInternetArchive(opts, allDone)` turns search criteria into one randomly chosen
downloadable file from the Internet Archive. It first asks how many items match the query, then
samples a page and a row inside the first 10000 results and fetches that search page. It then
fetches the chosen item's metadata, keeps the files that pass the extension and size filters,
and picks a server and a file. All of this runs as one waterfall (`tryToGet`). A failing pass is
retried by `decideWithResult` while fewer than `maxTries` passes have run.

The model covers `index.js`:

| module | models |
|---|---|
| `Wrappers` | `Option` (JavaScript `undefined`) and `Result` (a value, or the error that ends an attempt). |
| `Decimal` | Decimal rendering of `${n}`, and the unary `+` that `fileIsUsable` applies to a file's size. |
| `Uri` | `encodeURIComponent`: UTF-8 bytes, then `%XX` escapes for everything outside `A-Z a-z 0-9 - _ . ! ~ * ' ( )` (section 2.1 of RFC 3986). `decodeURIComponent` is its partner for the round trip. |
| `Query` | `makeIAQuery`, `formatField`, `createSearchURL`, and the count and metadata URLs built inline by `searchForTotal` and `getMetadata`. |
| `Random` | The injected `random()` as a stream of exact fractions in [0, 1). `probable.roll(n)` is `floor(random() * n)` and `pickFromArray(a)` is `a[roll(a.length)]`. `Probable` counts the values it has consumed. |
| `Sampling` | `pickRandomPosition` (a method that reassigns its working total) and `getItem`. |
| `Files` | `fileIsUsable` and `filterFiles`. |
| `Format` | `formatResult`. |
| `Pipeline` | The shared `channel` record (a class whose fields each stage fills in), one pass of the waterfall (`TryToGet`), and the retry loop (`RandomInternetArchive`). Each is proved against a specification function: `AttemptOf`, and `Run` / `Trace`. |

The three network endpoints become the `Archive` parameter. It holds one function per endpoint,
which maps the attempt number and the requested URL to the decoded body or the transport error.
The sequence of values `random()` returns is the `random: nat -> Draw` parameter.

`index.js:30-36` creates the channel once, before the first attempt, and every attempt reuses it.
A failed attempt can leave fields from an earlier attempt in place: a failed count writes
nothing, and a failed sampling writes only `total`. Those stale fields are never observed,
because within a pass each stage writes the field it needs before any later stage of that pass
reads it. The model keeps that one shared record, and `Pipeline.SharedChannelIsUnobservable`
proves that the reuse makes no difference to what an invocation reports.

## Model

| member | source | states |
|---|---|---|
| Uri.EncodeURIComponent | index.js:225 | Every character of the result is unescaped or `%`; the result is never shorter than the input. The `%XX` structure is what `Uri.DecodeEncode` reads back. |
| Uri.DecodeEncode | index.js:231 | Decoding `encodeURIComponent(s)` gives back exactly `s`, for every string, including non-ASCII characters encoded as 2, 3 or 4 UTF-8 bytes. |
| Uri.EncodeInjective | index.js:231 | Two strings with the same encoding are equal. |
| Query.MakeIAQuery | index.js:222-234 | The query contains only the characters `encodeURIComponent` can emit and the `+` of `+AND+`, so it cannot end its URL parameter early. |
| Query.MakeIAQueryClauses | index.js:222-233 | The query is the encoded `(q) AND ` prefix (only when the free-form query is truthy), then one encoded `key:(value)` clause per truthy field, in the order collection, mediatype, format, joined by `+AND+`. Absent and empty fields give no clause. |
| Query.MakeIAQueryDecodes | index.js:222-233 | The query decodes to the plain-text prefix followed by the plain-text clauses joined by `+AND+`. |
| Query.MakeIAQueryInjective | index.js:222-233 | Two invocations with the same query string asked for the same plain-text search. |
| Query.FormatField | index.js:236-238 | A field name containing no `&` gives a parameter containing no `&`. `Query.SearchURLParameters` states where these parameters go. |
| Query.CreateSearchURL | index.js:204-218 | Its meaning is stated by `Query.SearchURLParameters` and `Query.PageSearchURL`. |
| Query.CountURL | index.js:172-177 | Its meaning is stated by `Query.CountURLParameters`. |
| Query.MetadataURL | index.js:166 | The canonical host, never the proxy, followed by the identifier. `Pipeline.MetadataRequest` states when it is requested. |
| Query.SearchURLParameters | index.js:204-218 | `createSearchURL` is `proxyBaseURL/advancedsearch.php?` followed by `q=`, one `fl[]=field` per field (each field free of `&`), `rows=`, `page=`, `output=json` and `callback=`, all joined by `&`. Splitting the query string at `&` gives back exactly these parameters, so no value can inject another. |
| Query.PageSearchURL | index.js:184-218 | The page search of `searchIA` asks for `fl[]=identifier`, `fl[]=item_size` and `fl[]=title`, `rows=100`, and the sampled page in decimal. Its query string splits at `&` into exactly these eight parameters. |
| Query.CountURLParameters | index.js:172-182 | The count request is `proxyBaseURL/services/search/v1/scrape?` with exactly the parameters `debug=false`, `xvar=production`, `total_only=true` and `q=` followed by the query, which a split at `&` gives back. |
| Query.SplitJoin | index.js:209 | Joining a non-empty list of items that contain no separator and splitting the result at that separator gives back the items. |
| Decimal.NatToString | index.js:211-213 | `${n}` is canonical decimal (no leading zero), and it is `"0"` exactly when n is 0. |
| Decimal.DigitsValueOfNatToString | index.js:211-213 | Reading back the decimal rendering of n gives n. |
| Decimal.NatToStringOfDigitsValue | index.js:211-213 | Every canonical digit string is the rendering of its value, so the rendering is a bijection onto canonical digit strings. |
| Decimal.ToNumber | index.js:131-134 | In the model, `+file.size` is numeric exactly when the size is present and all digits; its value is then non-negative. |
| Decimal.ToNumberOfNatToString | index.js:131-134 | A size written in decimal reads back as its number. |
| Random.Scale | index.js:101-102 | `roll(n)` is below n when n > 0, and 0 when n = 0. |
| Random.ScaleReaches | index.js:101-102 | Every index below n is rolled by some value of `random()`. |
| Random.Pick | index.js:148-149 | `pickFromArray(a)` yields an element of a, and yields one exactly when a is non-empty. |
| Random.PickReaches | index.js:148-149 | Every element of a non-empty array is picked by some value of `random()`. |
| Random.Probable.Roll | index.js:101-102 | One roll consumes exactly one value of `random()` and returns `floor(u * n)` for it. |
| Random.Probable.PickFromArray | index.js:148-149 | One pick consumes exactly one value of `random()` and returns the element at the rolled index. |
| Sampling.RandomPosition | index.js:86-105 | The sampler as a function of two values of `random()`. Its meaning is stated by `Sampling.RandomPositionFails`, `Sampling.RandomPositionBounds`, `Sampling.PositionWithinResults` and `Sampling.RandomPositionReaches`. |
| Sampling.PickRandomPosition | index.js:86-105 | The method consumes two values of `random()` (none when the total is below 1). Its result is the position `RandomPosition` defines for those values. |
| Sampling.RandomPositionFails | index.js:87-88 | Sampling fails, with exactly "No items found.", if and only if the total is below 1. |
| Sampling.RandomPositionBounds | index.js:90-102 | The row is below 100. The page is below floor(min(total, 10000) / 100), and is 0 when that bound is 0. So the page is always below 100. |
| Sampling.PositionWithinResults | index.js:90-102 | With at least one full page of matches, the sampled position lies inside the full pages of the clamped result list. |
| Sampling.RandomPositionReaches | index.js:99-102 | Every page below the page count and every row below 100 is sampled by some pair of values of `random()`. With fewer than 100 matches the page count is 0, the page is always 0, and every row below 100 is still sampled. |
| Sampling.GetItem | index.js:109-113 | The doc at the sampled row is returned exactly when the page has that row; otherwise the item is `undefined`. |
| Files.SomeExtension | index.js:128-141 | `fileExtensions.some(endsWith)` holds exactly when the name ends with one of the listed extensions. |
| Files.FileIsUsable | index.js:127-142 | The filter predicate. Its meaning is stated by `Files.FileIsUsableMeaning`, `Files.NameIrrelevantWithoutExtensions` and `Files.EmptyExtensionListRejects`. |
| Files.FileIsUsableMeaning | index.js:127-137 | A file is usable exactly when three conditions hold. With an extension list, its name ends with a listed extension. With a positive minimum and a numeric size, the size is at least the minimum. With a maximum and a numeric size, the size is at most the maximum. Both bounds are inclusive. |
| Files.NameIrrelevantWithoutExtensions | index.js:128 | Without an extension list, renaming a file does not change whether it is usable. |
| Files.EmptyExtensionListRejects | index.js:128 | A present but empty extension list rejects every file. |
| Files.UsableFiles | index.js:116 | Every kept file is usable. Each usable file is kept exactly as many times as it occurs among the present entries, and absent entries are dropped. |
| Files.UsableFilesInOrder | index.js:116 | The kept files appear in the order of the input. |
| Files.UsableFilesEmpty | index.js:116-117 | Nothing is kept exactly when no present entry is usable. |
| Files.FilterFiles | index.js:115-125 | Fails, with exactly `No usable files found for <identifier>.`, if and only if no present entry is usable. Otherwise it returns the usable files, which are never empty. |
| Format.FormatResultOf | index.js:144-159 | The result for a given server draw and file draw. Its meaning is stated by `Format.FormatResultFields`, `Format.FormatResultReaches` and `Format.NoServerRendersUndefined`. |
| Format.FormatResult | index.js:144-159 | The method consumes two values of `random()`, the server's first and then the file's, and returns the result `FormatResultOf` defines for them. |
| Format.FormatResultFields | index.js:148-157 | The URL is `https://` + a listed server + dir + `/` + the name of one of the files. Size and format come from that same file; title and `detailsURL` (`https://archive.org/details/<identifier>`) come from the item; `collection` is the caller's `collection` option, passed through unchanged. |
| Format.FormatResultReaches | index.js:144-159 | Every combination of server and file is produced by some pair of values of `random()`, and the whole result is then fixed: the URL `https://` + server + `dir` + `/` + file name, the collection, the item's title, that file's size and format, and the item's details URL. |
| Format.NoServerRendersUndefined | index.js:148-150 | With no workable servers, the URL starts with `https://undefined`. |
| Pipeline.MetadataRequestAsWritten | index.js:161-166 | As written, `getMetadata` throws exactly when the channel's item is `undefined`, and otherwise requests the item's metadata URL. |
| Pipeline.ShortPageThrowsAsWritten | index.js:161-166 | Every search page with no doc at the sampled row (row at or beyond the page's length) makes the metadata stage throw. |
| Pipeline.ConsistentPageThrowsAsWritten | index.js:86-113 | An archive that agrees with itself triggers the throw. A total of 50 samples page 0; a page 0 of 50 docs and a second draw of 0.99 give row 99, where there is no doc. |
| Pipeline.MetadataRequest | index.js:161-169 | Corrected stage: the metadata URL of the item when there is one, and otherwise an ordinary error naming the sampled page and row. |
| Pipeline.Channel.constructor | index.js:30-36 | The channel starts with the query fields of the options, page 0, and nothing collected yet. |
| Pipeline.AttemptOf | index.js:40-72 | One pass as a function of the attempt number, the random values used so far and the channel before it. Its meaning is stated by `Pipeline.AttemptIgnoresStaleChannel`, `Pipeline.RunResultIsUsable` and `Pipeline.EmptyPageIsRetried`; `Pipeline.TryToGet` is proved against it. |
| Pipeline.TryToGet | index.js:40-72 | One pass of the waterfall. The outcome, the number of `random()` values consumed, and the channel's new fields are exactly those `AttemptOf` gives for the channel and the random source as they were before the pass. |
| Pipeline.GetMetadataAndFormat | index.js:60-68 | The pass from `getMetadata` on: outcome, `random()` values consumed and channel fields are exactly those of the metadata stage of `AttemptOf`. |
| Pipeline.FilterAndFormat | index.js:66-68 | The pass from `filterFiles` on: outcome, `random()` values consumed and channel fields are exactly those of the filter stage of `AttemptOf`. |
| Pipeline.RandomInternetArchive | index.js:74-84 | What reaches `allDone` is the outcome of the last attempt of the trace `Trace` defines. The loop keeps `tries` equal to the number of attempts made and the trace seen so far a prefix of that trace. |
| Pipeline.Run | index.js:74-84 | The outcomes of the attempts from a given count onwards; never empty. Its meaning is stated by `Pipeline.TraceShape`, `Pipeline.AlwaysFailingTransport` and `Pipeline.NoItemsFound`. |
| Pipeline.Trace | index.js:29-38 | The outcomes of all attempts of one invocation, starting from the fresh channel and the first value of `random()`; never empty. |
| Pipeline.RunAdvances | index.js:74-84 | After each attempt, the outcomes seen so far plus the outcomes still to come make up the whole trace. When no retry follows, the trace is complete. |
| Pipeline.TraceShape | index.js:74-84 | An invocation makes between 1 and max(maxTries, 1) attempts, and every attempt but the last failed. An invocation fails only after exactly max(maxTries, 1) failing attempts, so a success is reported at once. |
| Pipeline.AlwaysFailingTransport | index.js:74-84 | When every count request fails, exactly max(maxTries, 1) attempts run and the last attempt's error is reported unchanged. |
| Pipeline.NoItemsFound | index.js:74-88 | A query that matches nothing fails every attempt and reports exactly "No items found." after max(maxTries, 1) attempts. |
| Pipeline.RunIgnoresStaleChannel | index.js:45-67 | The outcomes of all remaining attempts do not depend on what earlier attempts left in the channel. |
| Pipeline.SharedChannelIsUnobservable | index.js:30-36 | Running the attempts on any starting channel gives the same outcomes as the one shared channel, so reusing the record behaves like a fresh record per attempt. |
| Pipeline.RunResultIsUsable | index.js:115-157 | If the last attempt of any run of attempts succeeds, its result comes from a file the filter accepts. |
| Pipeline.SuccessIsUsable | index.js:115-157 | A successful invocation reports a file the filter accepts. Its size and format are that file's, and its URL ends with `/` and that file's name. |
| Pipeline.EmptyPageIsRetried | index.js:161-169 | With the corrected metadata stage, an empty search page makes the first attempt fail with the sampling-miss error for the sampled position. When maxTries allows, a second attempt follows. |

## Left out

- The HTTP requests (`request`, `BodyMover`) in `searchForTotal`, `searchIA` and `getMetadata`. The `Archive` parameter stands in for them and returns each body already decoded.
- Missing or malformed fields of a response body are not modelled. This covers a count body without a numeric `total`, a search body without `response.docs`, and metadata without `dir`, `files` or `workable_servers`. Each endpoint yields either a well-formed body or an error.
- The `item_size` field of a search doc, which the pipeline requests but never reads.
- The scheduling through `callNextTick` and `async-waterfall`, and the callback plumbing of `collect-in-channel`. The waterfall becomes a sequence of stages, and the first error ends the pass.
- The internals of `probable` and `seedrandom`, and floating point. A value of `random()` is an exact fraction in [0, 1), and a roll is its exact floor.
- The `console.log` notice printed when the total is clamped.
- Decimal.ToNumber: JavaScript's other numeric coercions are not modelled. `+file.size` is modelled for digit strings (numeric) and for everything else (NaN). Signs, decimals, exponents and whitespace are not modelled. `maximumSize` is a number or absent.
- Values of the search criteria other than strings: the query, collection, mediatype and format are strings or absent.
- `tests/basictests.js` runs against the live archive and is not part of this model.
- Query.PageSearchURL: states the search URL as its list of `&`-separated parameters rather than as one literal string. The two are the same text.
- Pipeline.RandomInternetArchive: does not model `allDone` being called from a later tick. It reports the outcome as a return value.
- Pipeline.GetMetadataAndFormat: runs the corrected metadata stage (`Pipeline.MetadataRequest`). When the channel holds no item, it ends the pass with the error "No item at page P, row R.", where `getMetadata` as written reads `item.identifier` on `undefined` and throws a TypeError at `index.js:166` (see Findings).
- Pipeline.TryToGet: models the corrected metadata stage (`Pipeline.MetadataRequest`). When the sampled row has no doc, the pass ends with the error "No item at page P, row R." and is retried. As written, `getMetadata` reads `item.identifier` on `undefined` and throws (see Findings).
- Pipeline.RandomInternetArchive: runs the attempts of `Pipeline.TryToGet`, so it has the corrected metadata stage too. As written, a short search page stops the invocation instead of retrying it.
- Pipeline.AttemptOf: its metadata stage is the corrected `Pipeline.MetadataRequest`. A missing doc ends the pass with the sampling-miss error "No item at page P, row R.", where `index.js:166` throws a TypeError (see Findings).
- Pipeline.Run: built from `Pipeline.AttemptOf`, so a missing doc is an error that is retried, where the code as written stops the invocation at the TypeError.
- Pipeline.Trace: built from `Pipeline.Run`, with the same corrected metadata stage; as written, the trace would end at the first missing doc with no outcome reaching `allDone`.
- Pipeline.SharedChannelIsUnobservable: assumes `collect-in-channel` writes every listed property on each pass, `undefined` included, as `Pipeline.TryToGet` does. If it skipped `undefined` values, a pass whose `getItem` found nothing would keep an earlier pass's `item`, and that reuse would be observable. The same holds for `Pipeline.RunIgnoresStaleChannel`.
- Format.FormatResult: assumes `pickFromArray(a)` is `a[roll(a.length)]` and so consumes one value of `random()` even when `a` is empty. `probable` is not part of this model; if its `pickFromArray` returned early on an empty array, a pass with no workable servers would consume one value fewer.
- Uri.EncodeURIComponent: a Dafny `char` is a Unicode scalar value, so a JavaScript string holding a lone surrogate cannot be represented. On such a string `encodeURIComponent` throws `URIError`; the model has no such input.

## Findings

| source | as written | input that shows it | evidently intended | confidence | as-written member | corrected member |
|---|---|---|---|---|---|---|
| index.js:109-113, 161-166 | When the search page has no doc at the sampled row, `getItem` returns `undefined`. `getMetadata` then reads `item.identifier`, and the TypeError is thrown inside a later tick, never reaching `decideWithResult`. The invocation neither retries nor calls `allDone`. | A total of 50, so there is no full page and page 0 is searched. Page 0 holds all 50 docs, and the row draw of 0.99 picks row 99 (`Pipeline.ConsistentPageThrowsAsWritten`). On a first attempt the channel created at `index.js:30-36` has no `item`, so the throw follows from `index.js:166` alone. From the second attempt on, it also assumes `collect-in-channel` stores the `undefined` rather than keeping an earlier `item`. In both cases it assumes `async-waterfall` does not catch the throw. | The miss is an ordinary error of the attempt, and the attempt is retried like any other failure. | medium, not executed | Pipeline.MetadataRequestAsWritten, Pipeline.ShortPageThrowsAsWritten, Pipeline.ConsistentPageThrowsAsWritten | Pipeline.MetadataRequest, Pipeline.EmptyPageIsRetried |
