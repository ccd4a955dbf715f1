# Tracker rule pipeline of TrackerBlockingMVP, in Dafny

TrackerBlockingMVP is an iOS browser that blocks trackers with WebKit content rule
lists. This project models the pipeline behind that, from the tracker dataset on the
network to a compiled rule list on a web view, and proves what the Swift code
promises about it:

- **ETag handling.** `cleanETag` and `removeWeakIndicator` are modelled as `RemoveAll`, a
  left-to-right, non-overlapping deletion. A per-URL ETag store sits on a UserDefaults
  map. The ETag decorator makes requests conditional (`If-None-Match`, section 3.2 of
  RFC 7232) and records each response's `Etag` with only the weak `W/` removed.
- **HTTP result classification.** The guard chain of `URLSessionHTTPClient.get` is
  modelled with `ResponseStatus`, `isOK` and `status`.
- **Dataset storage and the fetcher.** A save replaces the stored file. A
  not-modified response falls back to the stored bytes. A failed save becomes
  `storageError`, and missing stored data becomes `invalidResponse`.
- **Rule generator.** The primary dataset is decoded first, with the stored one as a
  fallback. The two generator errors are modelled, and an encoding failure degrades
  to `"[]"`.
- **Rule cache.** It keeps two files in a cache directory. Reads are bounded by a
  strict age test, and every read failure is a miss.
- **Allowlist manager.** Each mutation reads the whole set, changes it and writes it
  back.
- **Tracker blocker adapter.** It computes the rule list identifier: the cleaned
  etag, or a 64-bit wrapping hash of the rules text. It skips allowlisted hosts and
  does lookup-or-compile-then-apply.
- **Errors.** `GeneralError.localizedDescription`.

There is one Dafny module per Swift file, named after it. Objects whose state the
Swift code changes in place are classes: the ETag store, the dataset storage, the
fetcher, the rule cache, the allowlist manager, the web view and the rule list
store. Their methods say in `modifies` and `ensures` exactly how that state changes.
Each such method is tied to a pure function of the old state: `Resolve`,
`CachedRulesIn`, `Toggled` and `RuleListIdentifier`. The lemmas are proved about those
functions. The foreign collaborators are abstract interfaces:

- `FileOperations` is a path-to-content map that can fail on chosen paths.
- `UserDefaults` is a key-to-value map.
- The WebKit content rule list store is a map from identifier to compiled list,
  with the compiler as a function.
- TrackerRadarKit's decoder, rule builder and encoder are a `Toolkit` of functions.
- The transport behind the HTTP client is a function from request to result.

Callbacks become return values, so each operation delivers exactly one result. Time
is a whole number of seconds that the caller passes in as `now`.

Two behaviours of the code are easy to miss:

- `getMostRecentRules` (TrackerBlockingMVP/RulesGeneration/RuleCache.swift:83-106)
  starts from `getCachedRules`. A snapshot older than `maxCacheDuration` is therefore
  never returned, not even as a "most recent" fallback (`RuleCache.ExpiredSnapshotIsGone`).
- `ETagDecorator.get` stores `removeWeakIndicator(etag)`
  (TrackerBlockingMVP/Networking/HTTPClient/ETagDecorator.swift:48). The quotes
  stay on the stored tag, and it is sent back with them in `If-None-Match`
  (`ETagDecorator.WeakTagBecomesValidator`).

## Model

| member | source | states |
|---|---|---|
| Strings.RemoveAll | TrackerBlockingMVP/Common/Extension/String.swift:17 | deleting every occurrence of a non-empty pattern never lengthens the string |
| Strings.RemoveAllAbsent | TrackerBlockingMVP/Common/Extension/String.swift:17 | a string without an occurrence of the pattern comes back unchanged |
| Strings.RemoveAllShortens | TrackerBlockingMVP/Common/Extension/String.swift:17 | a string with an occurrence of the pattern comes back strictly shorter |
| Strings.RemoveAllKeeps | TrackerBlockingMVP/Common/Extension/String.swift:17 | every character not in the pattern keeps its number of occurrences |
| Strings.RemoveAllErases | TrackerBlockingMVP/Common/Extension/String.swift:13 | removing a one-character pattern leaves no occurrence of that character |
| Strings.RemoveWeakIndicator | TrackerBlockingMVP/Common/Extension/String.swift:16-18 | removeWeakIndicator never lengthens its input |
| Strings.RemoveWeakIndicatorIdentity | TrackerBlockingMVP/Common/Extension/String.swift:16-18 | removeWeakIndicator is the identity on strings without `W/` |
| Strings.RemoveWeakIndicatorEffect | TrackerBlockingMVP/Common/Extension/String.swift:16-18 | the result is shorter exactly when the input contains `W/`, and every character other than `W` and `/` is kept, quotes included |
| Strings.RemoveWeakIndicatorKeepsQuotes | TrackerBlockingMVP/Common/Extension/String.swift:16-18 | a weak tag `W/"x"` becomes the strong tag `"x"` when `x` has no `W/` |
| Strings.RemoveWeakIndicatorJoins | TrackerBlockingMVP/Common/Extension/String.swift:16-18 | deletion is one pass: `WW//` gives `W/`, so the function is not idempotent |
| Strings.CleanETag | TrackerBlockingMVP/Common/Extension/String.swift:11-14 | cleanETag never lengthens its input |
| Strings.CleanETagUnquoted | TrackerBlockingMVP/Common/Extension/String.swift:11-14 | the output of cleanETag contains no `"` |
| Strings.CleanETagIdempotent | TrackerBlockingMVP/Common/Extension/String.swift:11-14 | cleanETag is idempotent |
| Strings.CleanETagUnwraps | TrackerBlockingMVP/Common/Extension/String.swift:11-14 | `W/"x"` and `"x"` both clean to `x` for a quote-free `x` not ending in `W/` |
| Strings.CleanETagDropsTrailingWeak | TrackerBlockingMVP/Common/Extension/String.swift:11-14 | as written, `W/"abW/"` cleans to `ab`, not `abW/` |
| Strings.CleanETagIntended | TrackerBlockingMVP/Common/Extension/String.swift:11-14 | the corrected cleaning never lengthens its input |
| Strings.CleanETagIntendedUnwraps | TrackerBlockingMVP/Common/Extension/String.swift:11-14 | corrected: `W/"x"` and `"x"` both clean to `x` for every quote-free `x` |
| Strings.CleanETagIntendedIdempotent | TrackerBlockingMVP/Common/Extension/String.swift:11-14 | corrected: the output has no `"` and cleaning is idempotent |
| HttpStatus.RawValue | TrackerBlockingMVP/Networking/HTTPClient/ResponseStatus.swift:11-22 | every case's raw value is one of the ten listed codes |
| HttpStatus.FromRawValue | TrackerBlockingMVP/Networking/HTTPClient/ResponseStatus.swift:11-22 | `ResponseStatus(rawValue:)` succeeds exactly on the listed codes and gives the case with that raw value |
| HttpStatus.Status | TrackerBlockingMVP/Networking/HTTPClient/ResponseStatus.swift:29-31 | a listed code maps to its case, and any other code maps to `.unknown` |
| HttpStatus.RawValueRoundTrip | TrackerBlockingMVP/Networking/HTTPClient/ResponseStatus.swift:11-22 | every case survives the raw-value round trip, through both `init(rawValue:)` and `status` |
| HttpStatus.RawValueInjective | TrackerBlockingMVP/Networking/HTTPClient/ResponseStatus.swift:11-22 | distinct cases have distinct raw values |
| HttpStatus.IsOK | TrackerBlockingMVP/Networking/HTTPClient/ResponseStatus.swift:25-27 | an OK code has status `.ok` or `.unknown`, and the `.ok` case is OK |
| HttpStatus.IsOKWithoutCase | TrackerBlockingMVP/Networking/HTTPClient/ResponseStatus.swift:24-31 | 204 is OK but has status `.unknown`; the only OK code with a known case is 200 |
| HttpClient.RequestFor | TrackerBlockingMVP/Networking/TrackerData/TrackerDataFetcher.swift:27 | `URLRequest(url:)` carries the URL, method GET and no headers |
| HttpClient.Classify | TrackerBlockingMVP/Networking/HTTPClient/URLSessionHTTPClient.swift:18-42 | a transport error gives `connectivity`. A non-HTTP response or nil data gives `invalidResponse`, checked before 304. A 304 gives success with nil data. A 2xx gives success with the data unchanged. Any other status `n` gives `statusCode(n)`. The result is `connectivity` exactly when the transport failed |
| HttpClient.NotModifiedNeedsBody | TrackerBlockingMVP/Networking/HTTPClient/URLSessionHTTPClient.swift:24-34 | a 304 without data is `invalidResponse`; a 304 with any body is success with nil data |
| HttpClient.ClassifyErrors | TrackerBlockingMVP/Networking/HTTPClient/URLSessionHTTPClient.swift:19-39 | the only errors classification yields are connectivity, invalidResponse and a non-2xx, non-304 status code |
| UserDefaultsStore.UserDefaults.Object | TrackerBlockingMVP/Networking/Caching/EtagStorage.swift:22 | `object(forKey:)` is the stored value, nil for an absent key |
| UserDefaultsStore.UserDefaults.Set | TrackerBlockingMVP/Networking/Caching/EtagStorage.swift:18 | `set(_:forKey:)` replaces that key's value and no other |
| EtagStorage.EtagStorage.constructor | TrackerBlockingMVP/Networking/Caching/EtagStorage.swift:13-15 | the store wraps the given UserDefaults |
| EtagStorage.EtagStorage.RetrieveETag | TrackerBlockingMVP/Networking/Caching/EtagStorage.swift:21-23 | a tag is returned exactly when the key holds a string; an absent key or a non-string gives nil |
| EtagStorage.EtagStorage.Store | TrackerBlockingMVP/Networking/Caching/EtagStorage.swift:17-19 | after storing `e` under `k`, retrieving `k` gives `e` and every other key reads as before |
| EtagStorage.LastWriteWins | TrackerBlockingMVP/Networking/Caching/EtagStorage.swift:17-23 | on any store, two stores under one key leave exactly the second tag under that key; every other key reads as before |
| ETagDecorator.AddValue | TrackerBlockingMVP/Networking/HTTPClient/ETagDecorator.swift:39 | `addValue` sets an absent field to the value, appends `,` and the value to a present one, and leaves every other header alone |
| ETagDecorator.Conditional | TrackerBlockingMVP/Networking/HTTPClient/ETagDecorator.swift:33-40 | the forwarded request keeps its URL. Its method is GET and its cache policy `reloadIgnoringLocalCacheData`. It gains `If-None-Match` with the stored tag exactly when a tag is stored. No other header changes |
| ETagDecorator.TagToStore | TrackerBlockingMVP/Networking/HTTPClient/ETagDecorator.swift:46-49 | a tag is stored exactly for a success, with or without data, that carries an `Etag` header; what is stored is that header with `W/` removed |
| ETagDecorator.ETagDecorator.constructor | TrackerBlockingMVP/Networking/HTTPClient/ETagDecorator.swift:23-26 | the decorator keeps the given ETag store |
| ETagDecorator.ETagDecorator.Get | TrackerBlockingMVP/Networking/HTTPClient/ETagDecorator.swift:28-56 | no URL means `invalidURL`, with nothing forwarded and nothing stored. Otherwise the conditional request is forwarded and its result passed through unchanged. The store is written under the URL exactly when there is a tag to store; a failure leaves it unchanged |
| ETagDecorator.WeakTagBecomesValidator | TrackerBlockingMVP/Networking/HTTPClient/ETagDecorator.swift:38-49 | a weak tag `W/"x"` is stored as `"x"`, quotes kept, and is the `If-None-Match` value of the next request to that URL |
| TrackerDataStorage.TryLoad | TrackerBlockingMVP/Networking/TrackerData/TrackerDataFetcher.swift:42 | `try? storage.load()` gives the stored bytes, and nil for both a nil result and a throw |
| TrackerDataStorage.TrackerDataStorage.constructor | TrackerBlockingMVP/Storage/TrackerDataStorage.swift:15-17 | the storage starts from the given directory, file and failure behaviour |
| TrackerDataStorage.TrackerDataStorage.StorageURL | TrackerBlockingMVP/Storage/TrackerDataStorage.swift:52-57 | the storage URL exists exactly when a documents directory exists, and names `tracker_data.json` in it |
| TrackerDataStorage.TrackerDataStorage.Save | TrackerBlockingMVP/Storage/TrackerDataStorage.swift:19-31 | without a documents directory it is `documentsDirectoryNotFound` and nothing is written. A failed write is `saveFailed` and leaves the file. Otherwise the whole file becomes the data, and a later `load` returns it |
| TrackerDataStorage.TrackerDataStorage.Load | TrackerBlockingMVP/Storage/TrackerDataStorage.swift:33-49 | nil, without throwing, when the directory or the file is absent; `loadFailed` exactly when an existing file cannot be read; a readable file gives exactly its bytes |
| TrackerDataFetcher.ResponseETag | TrackerBlockingMVP/Networking/TrackerData/TrackerDataFetcher.swift:32 | the etag is the raw `Etag` header when present and nil otherwise |
| TrackerDataFetcher.Resolve | TrackerBlockingMVP/Networking/TrackerData/TrackerDataFetcher.swift:30-50 | a dataset comes only from a client success and carries that response's etag; its bytes are the new body, which was then saved, or the stored bytes when the body is nil |
| TrackerDataFetcher.ResolveFailure | TrackerBlockingMVP/Networking/TrackerData/TrackerDataFetcher.swift:48-49 | a client failure is propagated verbatim |
| TrackerDataFetcher.ResolveNewData | TrackerBlockingMVP/Networking/TrackerData/TrackerDataFetcher.swift:34-40 | new data is returned byte for byte with the response's etag when the save succeeds, and is `storageError` when it throws |
| TrackerDataFetcher.ResolveNotModified | TrackerBlockingMVP/Networking/TrackerData/TrackerDataFetcher.swift:41-46 | nil data falls back to the stored bytes with the response's etag, or is `invalidResponse` when nothing loads |
| TrackerDataFetcher.ResolveErrors | TrackerBlockingMVP/Networking/TrackerData/TrackerDataFetcher.swift:30-50 | the fetcher's own errors are only `storageError` and `invalidResponse`; a client error comes out as it came in |
| TrackerDataFetcher.TrackerDataFetcher.constructor | TrackerBlockingMVP/Networking/TrackerData/TrackerDataFetcher.swift:16-20 | the fetcher keeps the given URL and storage |
| TrackerDataFetcher.TrackerDataFetcher.HandleResult | TrackerBlockingMVP/Networking/TrackerData/TrackerDataFetcher.swift:30-50 | the delivered result is `Resolve` of the client result, of what the store loaded before and of whether a save succeeds. The stored file changes only when new data is saved successfully, and on success it holds the returned bytes |
| TrackerDataFetcher.TrackerDataFetcher.FetchTrackerData | TrackerBlockingMVP/Networking/TrackerData/TrackerDataFetcher.swift:22-27 | one fetch sends exactly one GET for `trackerDataURL` and no retry, and delivers `Resolve` of its result. The dataset file becomes the new body exactly when new data is saved and the fetch succeeds; otherwise it is unchanged |
| TrackerDataFetcher.FetchComposed | TrackerBlockingMVP/Networking/TrackerData/TrackerDataFetcher.swift:56-60 | through the composed decorator and client, the transport sees the conditional request for `trackerDataURL`, and the fetch delivers `Resolve` of the classified transport outcome. The dataset file changes only when new data is saved. The ETag store gains the cleaned tag under `trackerDataURL` exactly when the classified result has a tag to store, and is otherwise unchanged |
| TrackerRulesGenerator.ConvertToRuleList | TrackerBlockingMVP/RulesGeneration/TrackerRulesGenerator.swift:58-74 | never fails: the encoded rules, or `"[]"` when encoding fails |
| TrackerRulesGenerator.GenerateRules | TrackerBlockingMVP/RulesGeneration/TrackerRulesGenerator.swift:29-56 | rules are generated exactly when the primary data decodes or a stored dataset loads and decodes |
| TrackerRulesGenerator.PrimaryWins | TrackerBlockingMVP/RulesGeneration/TrackerRulesGenerator.swift:31-35 | decodable primary data gives its own rules whatever storage holds or throws |
| TrackerRulesGenerator.FallbackEquivalence | TrackerBlockingMVP/RulesGeneration/TrackerRulesGenerator.swift:29-46 | for undecodable primary data and a decodable stored dataset, the result equals generating from the stored bytes |
| TrackerRulesGenerator.GenerateRulesErrors | TrackerBlockingMVP/RulesGeneration/TrackerRulesGenerator.swift:40-54 | `decodingFailed` exactly when both datasets exist and fail to decode; `fallbackNotAvailable` exactly when the primary fails and the load gives nil or throws |
| TrackerRulesGenerator.GeneratedRulesOrigin | TrackerBlockingMVP/RulesGeneration/TrackerRulesGenerator.swift:29-56 | every generated rule list is the conversion of a decodable dataset, either the primary or the stored one |
| FileSystem.ParseMetadata | TrackerBlockingMVP/RulesGeneration/RuleCache.swift:61 | only data that parses as a JSON object yields a metadata dictionary |
| FileSystem.FileOperations.constructor | TrackerBlockingMVP/Common/FileOperation/FileOperations.swift:10-19 | a file system with the given directories, files and failing operations |
| FileSystem.FileOperations.CreateDirectory | TrackerBlockingMVP/Common/FileOperation/FileOperations.swift:17 | the directory exists afterwards unless creation fails; no file changes |
| FileSystem.FileOperations.WriteString | TrackerBlockingMVP/Common/FileOperation/FileOperations.swift:11 | an atomic write: the file holds the text, or on a throw nothing changes |
| FileSystem.FileOperations.WriteData | TrackerBlockingMVP/Common/FileOperation/FileOperations.swift:12 | the file holds the data, or on a throw nothing changes |
| FileSystem.FileOperations.RemoveItem | TrackerBlockingMVP/Common/FileOperation/FileOperations.swift:16 | removes an existing file and throws for a missing one or a failing removal |
| FileSystem.ReadData | TrackerBlockingMVP/Common/FileOperation/FileOperations.swift:13 | reading succeeds exactly for an existing, readable file and gives its content |
| FileSystem.ReadString | TrackerBlockingMVP/Common/FileOperation/FileOperations.swift:14 | reading as text succeeds exactly for an existing, readable text file |
| RuleCache.MetadataRecord | TrackerBlockingMVP/RulesGeneration/RuleCache.swift:39-43 | the metadata parses back as the store time and the etag, with a nil etag written as `""` |
| RuleCache.ReadMetadata | TrackerBlockingMVP/RulesGeneration/RuleCache.swift:60-64 | the metadata is read only when it exists, reads, parses as an object and has a numeric timestamp |
| RuleCache.CachedRulesIn | TrackerBlockingMVP/RulesGeneration/RuleCache.swift:47-81 | a hit needs the rules file, readable metadata younger than `maxCacheDuration` and a readable rules text; it returns that text and the recorded etag |
| RuleCache.MostRecentIn | TrackerBlockingMVP/RulesGeneration/RuleCache.swift:83-106 | a snapshot is the cached rules and etag with a timestamp younger than `maxCacheDuration` |
| RuleCache.CachedRulesHit | TrackerBlockingMVP/RulesGeneration/RuleCache.swift:47-81 | a hit needs both files, readable metadata with a timestamp, `now - timestamp < maxCacheDuration` and a readable rules text. It returns that text and the recorded etag; every failure is nil |
| RuleCache.ExpiryIsStrict | TrackerBlockingMVP/RulesGeneration/RuleCache.swift:66-70 | with readable files, the cache misses exactly when `now - timestamp >= maxCacheDuration` |
| RuleCache.MostRecentFollowsCached | TrackerBlockingMVP/RulesGeneration/RuleCache.swift:83-106 | getMostRecentRules is nil exactly when getCachedRules is. Otherwise it has the same rules and etag, plus the stored timestamp, which is younger than the limit |
| RuleCache.ExpiredSnapshotIsGone | TrackerBlockingMVP/RulesGeneration/RuleCache.swift:83-106 | an entry older than the limit is a miss for both read paths |
| RuleCache.RuleCache.constructor | TrackerBlockingMVP/RulesGeneration/RuleCache.swift:18-28 | the cache directory is `TrackerRulesCache` under the documents directory. It is created unless creation fails, which is ignored. No file changes |
| RuleCache.RuleCache.GetCachedRules | TrackerBlockingMVP/RulesGeneration/RuleCache.swift:47-81 | a hit returns exactly the text of the rules file, and both cache files exist |
| RuleCache.RuleCache.GetMostRecentRules | TrackerBlockingMVP/RulesGeneration/RuleCache.swift:83-106 | a snapshot holds getCachedRules' rules and etag, with a timestamp younger than `maxCacheDuration` |
| RuleCache.RuleCache.StoreCachedRules | TrackerBlockingMVP/RulesGeneration/RuleCache.swift:30-45 | a failing rules write throws and changes nothing. A failing metadata write leaves the new rules beside the old metadata. On success both files are replaced, and every read before `maxCacheDuration` has passed returns the rules with the etag (nil as `""`), while every later one misses |
| RuleCache.RuleCache.ClearCache | TrackerBlockingMVP/RulesGeneration/RuleCache.swift:108-114 | both files are removed where removal can succeed, no throw escapes, and once either is gone every read misses |
| AllowlistManager.DecodedAllowlist | TrackerBlockingMVP/TrackerBlocking/AllowlistManager.swift:61-67 | the allowlist is the decoded set, and empty when the key is absent or undecodable |
| AllowlistManager.Toggled | TrackerBlockingMVP/TrackerBlocking/AllowlistManager.swift:48-58 | toggling flips one domain's membership and keeps every other domain's |
| AllowlistManager.ToggleTwice | TrackerBlockingMVP/TrackerBlocking/AllowlistManager.swift:48-58 | two toggles of a domain restore the set |
| AllowlistManager.AllowlistManager.constructor | TrackerBlockingMVP/TrackerBlocking/AllowlistManager.swift:23-25 | the manager uses the given UserDefaults |
| AllowlistManager.AllowlistManager.GetAllowlist | TrackerBlockingMVP/TrackerBlocking/AllowlistManager.swift:61-67 | the decoded set under `website_allowlist`, and the empty set when the key is absent or undecodable |
| AllowlistManager.AllowlistManager.IsAllowlisted | TrackerBlockingMVP/TrackerBlocking/AllowlistManager.swift:28-31 | a domain is allowlisted exactly when it is in the decoded stored set |
| AllowlistManager.AllowlistManager.SaveAllowlist | TrackerBlockingMVP/TrackerBlocking/AllowlistManager.swift:70-74 | the whole set is written under `website_allowlist`; no other key changes |
| AllowlistManager.AllowlistManager.AddToAllowlist | TrackerBlockingMVP/TrackerBlocking/AllowlistManager.swift:34-38 | the persisted set becomes the old set plus the domain, which is then allowlisted |
| AllowlistManager.AllowlistManager.RemoveFromAllowlist | TrackerBlockingMVP/TrackerBlocking/AllowlistManager.swift:41-45 | the persisted set becomes the old set minus the domain, which is then not allowlisted |
| AllowlistManager.AllowlistManager.ToggleAllowlist | TrackerBlockingMVP/TrackerBlocking/AllowlistManager.swift:48-58 | returns the negation of the old membership, which is the new membership; the set is the toggled set |
| AllowlistManager.AddTwice | TrackerBlockingMVP/TrackerBlocking/AllowlistManager.swift:34-38 | adding twice stores what adding once stores |
| AllowlistManager.RemoveTwice | TrackerBlockingMVP/TrackerBlocking/AllowlistManager.swift:41-45 | removing twice stores what removing once stores |
| AllowlistManager.ToggleTwiceRestores | TrackerBlockingMVP/TrackerBlocking/AllowlistManager.swift:48-58 | two toggles return opposite answers and restore the allowlist |
| ContentRuleLists.WebView.RemoveAllContentRuleLists | TrackerBlockingMVP/TrackerBlocking/WebViewProtocol.swift:13 | the web view is left without rule lists |
| ContentRuleLists.WebView.AddContentRuleList | TrackerBlockingMVP/TrackerBlocking/WebViewProtocol.swift:14 | the list is appended to the web view's lists |
| ContentRuleLists.ContentRuleListStore.LookUp | TrackerBlockingMVP/TrackerBlocking/ContentRuleListStoreProtocol.swift:11 | a lookup finds exactly the list stored under the identifier |
| ContentRuleLists.ContentRuleListStore.Compile | TrackerBlockingMVP/TrackerBlocking/ContentRuleListStoreProtocol.swift:13-15 | the reply is the compiler's, and a list compiled without error is kept under the identifier |
| ContentRuleLists.ContentRuleListStore.Remove | TrackerBlockingMVP/TrackerBlocking/ContentRuleListStoreProtocol.swift:12 | removal succeeds exactly for a stored identifier, and the identifier is gone afterwards |
| Errors.LocalizedDescription | TrackerBlockingMVP/Common/Errors/GeneralError.swift:30-37 | the six pass-through cases describe themselves by their payload; every other case gives the fixed default message |
| Errors.DescriptionNilIff | TrackerBlockingMVP/Common/Errors/GeneralError.swift:32-33 | the description is nil exactly for a pass-through case with a nil payload |
| Errors.RemovedPermanentlyIgnoresPayload | TrackerBlockingMVP/Common/Errors/GeneralError.swift:27 | `removedPermanently(s)` gives the default message, never its payload `s` |
| TrackerBlockerAdapter.Wrap64 | TrackerBlockingMVP/TrackerBlocking/TrackerBlockerAdapter.swift:76 | a wrapped value lies in the 64-bit Int range |
| TrackerBlockerAdapter.Hash | TrackerBlockingMVP/TrackerBlocking/TrackerBlockerAdapter.swift:74-77 | the content hash is always a 64-bit Int |
| TrackerBlockerAdapter.HashIsWrappedPoly | TrackerBlockingMVP/TrackerBlocking/TrackerBlockerAdapter.swift:74-77 | the wrapping `h*31+scalar` fold equals the exact base-31 polynomial of the scalars reduced once to 64 bits |
| TrackerBlockerAdapter.HashScalars | TrackerBlockingMVP/TrackerBlocking/TrackerBlockerAdapter.swift:74-77 | the loop over the Unicode scalars computes the content hash |
| TrackerBlockerAdapter.DecimalString | TrackerBlockingMVP/TrackerBlocking/TrackerBlockerAdapter.swift:79 | the interpolated number is a non-empty run of digits without a leading zero |
| TrackerBlockerAdapter.DecimalRoundTrip | TrackerBlockingMVP/TrackerBlocking/TrackerBlockerAdapter.swift:79 | parsing the rendered digits gives the number back |
| TrackerBlockerAdapter.SwiftAbs | TrackerBlockingMVP/TrackerBlocking/TrackerBlockerAdapter.swift:79 | `abs` traps exactly on Int.min and otherwise gives the non-negative magnitude |
| TrackerBlockerAdapter.Magnitude | TrackerBlockingMVP/TrackerBlocking/TrackerBlockerAdapter.swift:79 | the corrected absolute value is the hash or its negation |
| TrackerBlockerAdapter.IdentifierCorrectionAgrees | TrackerBlockingMVP/TrackerBlocking/TrackerBlockerAdapter.swift:68-80 | wherever the identifier as written does not trap, it equals the corrected identifier |
| TrackerBlockerAdapter.HashTrapInput | TrackerBlockingMVP/TrackerBlocking/TrackerBlockerAdapter.swift:74-79 | the rules text `8KylYK7swmnkG` hashes to Int.min; as written the identifier traps, and corrected it renders 2^63 |
| TrackerBlockerAdapter.EtagIdentifierPartUnwraps | TrackerBlockingMVP/TrackerBlocking/TrackerBlockerAdapter.swift:69-71 | the etag part of `W/"x"` or `"x"` is `x` when `x` has no quote and no `W/` |
| TrackerBlockerAdapter.EtagIdentifierPart | TrackerBlockingMVP/TrackerBlocking/TrackerBlockerAdapter.swift:69 | the etag part never holds a `"` and is never longer than the etag |
| TrackerBlockerAdapter.RuleListIdentifierAsWritten | TrackerBlockingMVP/TrackerBlocking/TrackerBlockerAdapter.swift:68-80 | as written, the identifier traps exactly without an etag and with a hash of Int.min; otherwise it starts with `TrackerRules_` |
| TrackerBlockerAdapter.RuleListIdentifier | TrackerBlockingMVP/TrackerBlocking/TrackerBlockerAdapter.swift:68-80 | corrected: with an etag, `TrackerRules_` and a quote-free remainder; without one, `TrackerRules_hash_` and digits that parse back to the hash's magnitude |
| TrackerBlockerAdapter.EtagIdentifierIgnoresRules | TrackerBlockingMVP/TrackerBlocking/TrackerBlockerAdapter.swift:69-71 | with an etag the identifier is `TrackerRules_` plus the cleaned etag, whatever the rules text |
| TrackerBlockerAdapter.HashIdentifierIff | TrackerBlockingMVP/TrackerBlocking/TrackerBlockerAdapter.swift:74-79 | without an etag two rules texts share an identifier exactly when their hashes have equal magnitude |
| TrackerBlockerAdapter.GenerateRuleListIdentifier | TrackerBlockingMVP/TrackerBlocking/TrackerBlockerAdapter.swift:68-80 | the method, loop included, computes the corrected identifier |
| TrackerBlockerAdapter.TrackerBlockerAdapter.constructor | TrackerBlockingMVP/TrackerBlocking/TrackerBlockerAdapter.swift:20-24 | the adapter keeps the given allowlist manager and rule list store |
| TrackerBlockerAdapter.TrackerBlockerAdapter.HostAllowlisted | TrackerBlockingMVP/TrackerBlocking/TrackerBlockerAdapter.swift:34 | a page without a host is never allowlisted; a host is allowlisted exactly when it is in the allowlist |
| TrackerBlockerAdapter.TrackerBlockerAdapter.ApplyRuleList | TrackerBlockingMVP/TrackerBlocking/TrackerBlockerAdapter.swift:82-89 | applying removes every list and adds one, so the web view holds exactly that list, and completion gets nil |
| TrackerBlockerAdapter.TrackerBlockerAdapter.CompileRuleList | TrackerBlockingMVP/TrackerBlocking/TrackerBlockerAdapter.swift:91-111 | a compiler error is passed on with nothing applied. A nil list without an error gives `ruleListCompilationError`. A compiled list is kept in the store and applied |
| TrackerBlockerAdapter.TrackerBlockerAdapter.CompileAndApplyContentRuleList | TrackerBlockingMVP/TrackerBlocking/TrackerBlockerAdapter.swift:26-58 | an allowlisted host loses every list, with no lookup or compile and a nil completion. A list already stored under the identifier is applied without compiling. Otherwise the compiler's reply decides as in compileRuleList: an error or a nil list changes neither the store nor the web view, and a compiled list is stored under the identifier and applied. A nil completion leaves at most one list on the web view |
| TrackerBlockerAdapter.TrackerBlockerAdapter.RemoveContentRuleList | TrackerBlockingMVP/TrackerBlocking/TrackerBlockerAdapter.swift:61-65 | delegates to the store and passes its error, if any, to completion |

## Left out

- Network I/O (`URLSession.dataTask`, `resume`): the transport is a function from request to outcome.
- Asynchrony: completion handlers, `[weak self]` early returns and queue hops are not modelled. Each operation returns its one result.
- Wall-clock time: the caller passes `now` in whole seconds. `TimeInterval` doubles and their rounding are not modelled.
- `JSONSerialization`, `JSONEncoder` and `JSONDecoder` of the cache metadata and the allowlist: the model stores the decoded record or set, with an undecodable case. The byte format is not modelled.
- TrackerRadarKit decoding, `ContentBlockerRulesBuilder` and rule JSON encoding are uninterpreted functions. The shape of the rules is not modelled.
- The WebKit content rule list compiler is an uninterpreted function. `DefaultContentRuleListStore` and the `WKWebView` extension are represented by their interfaces. The store reports only a removal of a missing identifier as an error.
- `DefaultFileOperations`: a path-to-content map with chosen failing paths stands in for FileManager. A failed non-atomic `writeData` is taken to leave the old file, not a partial one.
- `TrackerDataStorage` asks `FileManager.default` for the documents directory rather than its injected file manager. The model keeps only whether that directory exists.
- Foundation `replacingOccurrences` matches by Unicode canonical equivalence. The model matches scalar for scalar, which agrees on the ASCII tags involved.
- `URL` parsing: a URL is its `absoluteString`, and a web view's page is its `host`, or nil.
- UserDefaults keeps only the kinds of object the core reads: strings, encoded sets, other data and other objects.
- HTTP header lookup is an exact match of the field name `Etag`.
- The UI (view controllers, views, the tab bar), `BrowserViewModel`'s Combine wrappers, `retry(2)` and the 30-minute reapply check are not part of this model.
- TrackerRulesGenerator.GenerateRules: the generator's `storage.load()` enters as the load result it would return, not as a stored object.
- RuleCache.RuleCache.GetMostRecentRules: the second metadata read sees the same files as the first, since there are no concurrent writers.
- TrackerBlockerAdapter.TrackerBlockerAdapter.CompileAndApplyContentRuleList: it uses the corrected identifier, so it does not model the trap of `abs(Int.min)` (see Findings).

## Findings

| source | as written | input that shows it | evidently intended | confidence | as-written member | corrected member |
|---|---|---|---|---|---|---|
| TrackerBlockingMVP/Common/Extension/String.swift:11-14 | every `W/"` anywhere in the tag is deleted, then every `"` | `W/"abW/"` cleans to `ab` | only the leading weak indicator and the quotes go, giving `abW/` | low: not executed; `cleanETag` has no caller in the repository | Strings.CleanETagDropsTrailingWeak | Strings.CleanETagIntended |
| TrackerBlockingMVP/TrackerBlocking/TrackerBlockerAdapter.swift:74-79 | `abs` of the wrapped hash, which traps on Int.min | rules text `8KylYK7swmnkG` with no etag hashes to Int.min | a non-negative identifier for every rules text, here `TrackerRules_hash_9223372036854775808` | medium: not executed; needs a rules text with that exact hash | TrackerBlockerAdapter.HashTrapInput | TrackerBlockerAdapter.GenerateRuleListIdentifier |
