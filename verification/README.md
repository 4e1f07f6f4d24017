# OSS review admin — a Dafny model

This project models the core of the OSS review admin web application, a
Next.js front end for reviewing open-source package records (OSS masters and
their versions) held by an upstream license database service.

The model covers both halves of the application:

- **Server side.** The five local API routes (`GET /api/oss`,
  `GET /api/oss-versions`, `GET /api/licenses`,
  `POST /api/oss-versions/bulk-review`, `POST /api/oss-versions/bulk-delete`).
  Each route checks the `X-Auth-Token` header, validates its input, calls the
  upstream service through `externalFetch` and wraps the answer in the
  uniform `{ success, data, error, meta }` envelope. Also modelled: the
  upstream client (`externalFetch`'s status handling, `buildQueryString`,
  `getErrorMessage`).
- **Client side.** The browser's API client: request paths, its own
  query-string builder, the license search, and token payload decoding. Also:
  the pagination bar, the state of the OSS list and OSS version hooks, the
  license picker, and the authentication context that keeps the token in
  session storage.

## How it is modelled

**Module layout.**
- One module per source file.
- Two shared modules:
  - `JsCore` for the JavaScript semantics the code relies on: JSON values, `??`, `Number()` and `String()` on integers, `trim()` and `split()`;
  - `RouteCommon` for replies, upstream calls and the envelope.

**Pure code.**
- The routes, the upstream client, the query builders, pagination and the selection logic are pure code.
- They are functions. Their contracts state the error replies and what a success carries, some directly and some through lemmas beside the function.
- Lemmas connect them: round trips, counting, injectivity, idempotence.

**Stateful code.**
- The hooks, the license picker and the authentication provider change state.
- Each is a class whose fields are the component's state.
- Each method's postcondition gives the new state as a function of the old one (`State() == AfterLoad(old(State()), outcome)`).
- The lemmas are about those transition functions.

**The network as input.**
- Nothing touches the network. What an awaited call produced is a parameter of the operation:
  - `Upstream`: an upstream reply, or the error `externalFetch` threw;
  - `FetchEvent`: the HTTP exchange inside `externalFetch`;
  - `Settled`: a client call's envelope, or its error.
- In the bulk routes, the answer for the id at position `i` is `get(i)` / `put(i)` / `del(i)`.

**Two behaviours of the code worth noting:**
- The version route normalises `reviewed` to `'Y'` only for `1`, `'1'` and `'Y'`. So `true` and `'true'` become `'N'`.
- The OSS list route passes the client's page to the upstream unchanged. Only the version route converts the 1-based client page to the 0-based upstream page.

## Model

| member | source | states |
|---|---|---|
| Types.ParseStatus | src/lib/types.ts:1 | only `'Y'` and `'N'` parse, each to the status it spells |
| Types.StatusCodeRoundTrip | src/lib/types.ts:1 | parsing a status's code gives the status back, and no other string parses to it |
| Types.StatusLabels | src/lib/types.ts:3-6 | the badge labels are `리뷰 완료` for Y and `미리뷰` for N, and they differ |
| Types.MergeVersionLaws | src/lib/types.ts:29-45 | `{...v, ...p}` with an empty patch is `v`; merging a patch twice equals merging it once; a full patch yields the patch's record |
| Types.ReviewedPatchOnlyStatus | src/lib/types.ts:29-45 | `{...v, reviewed}` changes the review status and nothing else |
| Types.MergeMasterLaws | src/lib/types.ts:8-27 | the same merge laws for a master; `{...m, reviewed: 'Y'}` only sets the status |
| JsCore.Field | src/app/api/oss/route.ts:38-39 | `m.k ?? …` sees a key exactly when it is present and not null |
| JsCore.FirstPresent | src/app/api/oss-versions/route.ts:51-52 | a `??` chain yields the first present, non-null key's value, and nothing when none is |
| JsCore.FirstPresentHead | src/app/api/oss-versions/route.ts:51 | a `??` chain is decided by its first key when that key is present |
| JsCore.FirstPresentIgnores | src/app/api/oss/route.ts:38-39 | keys a `??` chain does not consult do not influence it |
| JsCore.IntToString | src/app/api/oss-versions/route.ts:34 | `String(n)` is non-empty and starts with `-` exactly for negative `n` |
| JsCore.IntToStringRoundTrip | src/app/api/oss-versions/route.ts:26 | `Number(String(n)) == n` for every integer |
| JsCore.IntToStringInjective | src/lib/api-client.ts:56 | different integers render differently |
| JsCore.ToNumber | src/app/api/oss-versions/route.ts:26 | `Number(s)` reads a string of digits as its value |
| JsCore.Trim | src/app/api/licenses/route.ts:25 | `trim()` gives the slice of the string that starts right after its leading whitespace and has only whitespace after it; the slice has no whitespace at either end |
| JsCore.TrimEmptyIff | src/components/LicenseSelect.tsx:31 | a string trims to empty exactly when it is all whitespace |
| JsCore.TrimIdempotent | src/contexts/AuthContext.tsx:29 | trimming twice is trimming once |
| JsCore.Split | src/lib/api-client.ts:98 | `split(c)` yields at least one part, none containing `c` |
| JsCore.SplitCount | src/lib/api-client.ts:98-99 | splitting yields one more part than there are separators |
| JsCore.SplitJoin | src/lib/api-client.ts:98 | joining the parts of a split with the separator restores the string |
| JsCore.JoinSplit | src/lib/api-client.ts:98 | parts without the separator, joined then split, come back unchanged |
| JsCore.Spread | src/app/api/oss-versions/route.ts:54-55 | spreading an object copies its own properties; spreading `null`, a number or a boolean gives no properties |
| JsCore.Indexed | src/app/api/oss-versions/route.ts:54-55 | spreading an array gives exactly the keys `"0"` to `String(n - 1)`, each holding the element at that index |
| UrlEncoding.Utf8 | src/lib/external-api.ts:58-69 | UTF-8 gives 1 to 4 bytes, and one byte exactly for ASCII, equal to the code point |
| UrlEncoding.FormEncode | src/lib/external-api.ts:67 | the form serializer emits only alphanumerics, `*-._`, `+` and `%XX` escapes (within the shared alphabet that excludes `&` and `=`) |
| UrlEncoding.EncodeUriComponent | src/app/api/licenses/route.ts:25 | `encodeURIComponent` emits only alphanumerics, `-_.!~*'()` and `%XX` escapes (within the shared alphabet that excludes `&` and `=`) |
| UrlEncoding.EncodedHasNoDelimiters | src/lib/external-api.ts:67 | encoded text never contains `&` or `=`, so a value cannot forge a parameter |
| UrlEncoding.FormEncodeAlphaNumeric | src/lib/api-client.ts:118-123 | alphanumeric text is serialized unchanged |
| ExternalApi.Classify | src/lib/external-api.ts:25-55 | an abort gives `TIMEOUT`; another exception propagates. 401 and 403 give empty failures; another non-2xx gives its status as code and its text as `error`; 204 succeeds with an empty message list. Any other 2xx returns the parsed body; a body that fails to parse throws its error, and an abort while reading it gives `TIMEOUT` |
| ExternalApi.FailureCodeIsStatus | src/lib/external-api.ts:25-40 | every non-2xx status fails with a code that reads back as that status |
| ExternalApi.OkRepliesPassBodyThrough | src/lib/external-api.ts:42-47 | a 2xx reply other than 204 resolves with exactly its parsed body |
| ExternalApi.TimeoutOnlyFromAbort | src/lib/external-api.ts:48-52 | code `TIMEOUT` arises only from an abort or from a body that itself says `TIMEOUT` |
| ExternalApi.KeptPairs | src/lib/external-api.ts:61-65 | only entries with a value other than undefined, null and `''` survive, and every such entry does |
| ExternalApi.Lookup | src/lib/external-api.ts:63 | a key is found exactly when some pair has it, with that pair's value |
| ExternalApi.Segment | src/lib/external-api.ts:67 | one serialized pair never contains `&` |
| ExternalApi.Serialize | src/lib/external-api.ts:67 | the serialization is empty exactly when there are no pairs |
| ExternalApi.SerializeIsJoin | src/lib/external-api.ts:67 | serializing joins the `k=v` segments with `&` |
| ExternalApi.SerializeSplits | src/lib/external-api.ts:67 | a serialized query splits on `&` into exactly one segment per pair, in order |
| ExternalApi.QueryString | src/lib/external-api.ts:67-68 | the query is `''` exactly when no entry survives, and starts with `?` otherwise |
| ExternalApi.QuerySegments | src/lib/external-api.ts:58-69 | after `?` the query carries one `k=v` segment per surviving entry, in order |
| ExternalApi.BuildQueryString | src/lib/external-api.ts:58-69 | the loop that feeds `URLSearchParams.set` yields exactly the query of the surviving entries |
| ExternalApi.LookupKept | src/lib/external-api.ts:61-65 | with distinct keys, reading a key back gives its value exactly when the entry survived |
| ExternalApi.GetErrorMessage | src/lib/external-api.ts:71-82 | fixed messages for `401`, `403` and `TIMEOUT`; any other code gets the generic message with the code embedded |
| ExternalApi.ErrorMessageInjective | src/lib/external-api.ts:71-82 | different codes give different messages |
| RouteCommon.QueryGet | src/app/api/oss/route.ts:18-25 | `searchParams.get(k)` is present exactly when the parameter is |
| RouteCommon.MapAll | src/app/api/oss-versions/route.ts:54-57 | `.map` with a throwing callback succeeds exactly when every item does, keeping length and order, and otherwise throws one item's error |
| RouteCommon.NumJson | src/app/api/oss-versions/route.ts:64-65 | a number serializes to `null` exactly when it is NaN |
| RouteCommon.Failure | src/app/api/oss-versions/route.ts:19-24 | an error reply carries the given status and exactly the body `{ success: false, error: message }` |
| RouteCommon.SuccessReply | src/app/api/oss-versions/route.ts:59-67 | a success reply has status 200, `success: true`, the data, and the meta when given |
| RouteCommon.Crashed | src/app/api/oss-versions/route.ts:68-74 | a caught exception becomes a 500 reply whose body is exactly `{ success: false, error: prefix + message }` |
| RouteCommon.UpstreamFailure | src/app/api/oss-versions/route.ts:43-48 | an upstream failure becomes 401 exactly for code `401`, otherwise 502, with `getErrorMessage(code)` as the error |
| RouteCommon.Destructure | src/app/api/oss-versions/bulk-review/route.ts:17-18 | destructuring throws exactly for a `null` body, and otherwise yields the property or undefined |
| RouteCommon.IdList | src/app/api/oss-versions/bulk-review/route.ts:20-25 | the id list passes exactly when it is a non-empty array, and yields its items |
| RouteCommon.Outcomes | src/app/api/oss-versions/bulk-review/route.ts:34-56 | `allSettled` gives one outcome per task, in order |
| RouteCommon.TallyAddsUp | src/app/api/oss-versions/bulk-review/route.ts:58-65 | succeeded + failed = total = number of ids; all succeeded (or all failed) exactly when every outcome says so |
| RouteCommon.UpstreamStatusMapping | src/lib/external-api.ts:25-40 | an upstream HTTP failure reaches the client as 401 exactly for 401, else 502, never as success |
| OssRoute.OssListKeysDistinct | src/app/api/oss/route.ts:17-25 | the parameter record the route builds has distinct keys |
| OssRoute.OssListQuery | src/app/api/oss/route.ts:17-25 | the upstream query carries the name and status filters only when non-empty; flag, page, size, sort and direction default to `N`, `0`, `20`, `name` and `ASC`; the page is not converted |
| OssRoute.Get | src/app/api/oss/route.ts:8-58 | no token: 401, no call. Otherwise exactly one GET of the list path; a throw gives 500; an upstream failure gives the mapped 401/502. Success exactly when the upstream succeeded |
| OssRoute.ListAndCountFallBack | src/app/api/oss/route.ts:38-39 | the list is `ossList`, else `content`, else `[]`; the total is `totalCount`, else `totalElements`, else 0; a `null` value counts as missing |
| OssRoute.ListPassesThrough | src/app/api/oss/route.ts:37-49 | a success replies with the upstream list as it came, its total, and the client's page and size converted by `Number()` (defaults 0 and 20) as meta; its total ignores any `count` key |
| OssVersionsRoute.PageTranslation | src/app/api/oss-versions/route.ts:26-27 | client page `k >= 1` becomes `k - 1`; a missing page means page 1; zero, negative, empty and unreadable pages become 0 |
| OssVersionsRoute.VersionListQuery | src/app/api/oss-versions/route.ts:29-38 | the upstream query carries the master id and the translated page; optional filters appear only when non-empty; flag, size, sort and direction default to `N`, `20`, `version` and `ASC` |
| OssVersionsRoute.VersionListKeysDistinct | src/app/api/oss-versions/route.ts:29-38 | the route's parameter record has distinct keys |
| OssVersionsRoute.NormalizeItem | src/app/api/oss-versions/route.ts:54-57 | normalizing throws exactly for a `null` item (reading `item.reviewed`), and otherwise yields an object with `reviewed` |
| OssVersionsRoute.NormalizeItemKeepsFields | src/app/api/oss-versions/route.ts:54-57 | every other property is kept; `reviewed` is `'Y'` exactly for `1`, `'1'` or `'Y'` and `'N'` otherwise |
| OssVersionsRoute.NormalizeItemIdempotent | src/app/api/oss-versions/route.ts:54-57 | normalizing twice is normalizing once |
| OssVersionsRoute.NormalizeList | src/app/api/oss-versions/route.ts:51-57 | a non-array list throws; otherwise each item is normalized, and any `null` item throws. A success has one normalized item per input item, in order |
| OssVersionsRoute.Get | src/app/api/oss-versions/route.ts:8-24 | no token: 401; no `ossMasterId`: 400 without a call; otherwise one GET of the translated list path |
| OssVersionsRoute.Respond | src/app/api/oss-versions/route.ts:40-74 | a throw from the call gives 500; an upstream failure gives the mapped 401/502; a throw while normalizing the list gives 500 with the route's prefix and that error; status 200 exactly on success, i.e. the upstream succeeded and the list normalized |
| OssVersionsRoute.SuccessfulReply | src/app/api/oss-versions/route.ts:59-67 | a success lists exactly the upstream items in order, each the item normalized, with `reviewed` in Y/N. Its meta echoes the client's page read by `Number()` without the 0-based translation, and its total comes from the first present count key |
| LicensesRoute.LicenseQuerySegments | src/app/api/licenses/route.ts:16-25 | when the client's page and size contain no `&`, the hand-built query splits on `&` into the five fixed parameters, then `name` exactly when the trimmed name is not blank. Page and size are inserted unencoded, so one holding `&` adds parameters of its own |
| LicensesRoute.ExactMatchByDefault | src/app/api/licenses/route.ts:21-24 | the upstream sees `equalFlag=N` only when the client sent exactly `exactMatch=false` |
| LicensesRoute.Project | src/app/api/licenses/route.ts:39-44 | projecting throws exactly for `null`, and keeps no key but `id` and `name` |
| LicensesRoute.ProjectKeepsIdAndName | src/app/api/licenses/route.ts:41-44 | `id` and `name` are kept exactly when present, with their values; projecting twice is projecting once |
| LicensesRoute.ProjectList | src/app/api/licenses/route.ts:39-44 | a non-array list throws, and otherwise every item is projected |
| LicensesRoute.Get | src/app/api/licenses/route.ts:8-30 | no token: 401 without a call; otherwise one GET of the license path |
| LicensesRoute.Respond | src/app/api/licenses/route.ts:32-53 | a throw from the call gives 500; an upstream failure gives the mapped 401/502; a throw while projecting the list gives 500 with the route's prefix and that error. A success carries exactly the projected list |
| BulkReviewRoute.StatusOf | src/app/api/oss-versions/bulk-review/route.ts:27-32 | only exactly `'Y'` or `'N'` is accepted |
| BulkReviewRoute.WithReviewed | src/app/api/oss-versions/bulk-review/route.ts:42-43 | the record written back differs from the fetched one only in `reviewed` |
| BulkReviewRoute.ReviewOne | src/app/api/oss-versions/bulk-review/route.ts:35-55 | one GET per id, and a PUT exactly when the GET succeeded; the id counts as done exactly when both succeeded |
| BulkReviewRoute.Check | src/app/api/oss-versions/bulk-review/route.ts:16-32 | an unparsable or `null` body gives 500; a bad id list gives 400; a bad status gives 400. Validation order: ids, then status. A body passing both is accepted with its ids and status, and the id list is never empty |
| BulkReviewRoute.Post | src/app/api/oss-versions/bulk-review/route.ts:8-75 | no token: 401; a rejected body: its reply without calls; otherwise all per-id calls in order and the tally |
| BulkReviewRoute.AcceptedAlwaysSucceeds | src/app/api/oss-versions/bulk-review/route.ts:58-67 | an accepted request always answers 200 with `success: true`; the counters add up, and an id succeeds exactly when its GET and PUT did |
| BulkReviewRoute.CallCount | src/app/api/oss-versions/bulk-review/route.ts:34-56 | the request makes one call per id plus one per successful GET |
| BulkReviewRoute.OutcomeIsPerId | src/app/api/oss-versions/bulk-review/route.ts:34-56 | an id's outcome depends only on the upstream's answers for that id |
| BulkDeleteRoute.DeleteOne | src/app/api/oss-versions/bulk-delete/route.ts:27-39 | one DELETE per id, counted as done exactly when the upstream succeeded |
| BulkDeleteRoute.Post | src/app/api/oss-versions/bulk-delete/route.ts:8-58 | no token: 401; a bad or `null` body: 500; a bad id list: 400; otherwise all DELETEs and the tally |
| BulkDeleteRoute.OneDeletePerEntry | src/app/api/oss-versions/bulk-delete/route.ts:27-39 | exactly one DELETE per list entry, duplicates included, in order, each to that entry's path |
| BulkDeleteRoute.ValidRequestCounts | src/app/api/oss-versions/bulk-delete/route.ts:41-50 | a valid request answers 200 with `success: true`; the counters add up, and an entry succeeds exactly when its DELETE did |
| ApiClient.SentPairs | src/lib/api-client.ts:34-38 | nothing is sent exactly when every value is undefined, null or `''`; every sent key is one of the record's |
| ApiClient.ClientQueryString | src/lib/api-client.ts:40-41 | the query is `''` exactly when nothing is sent; otherwise `?` and one segment per sent entry, in order |
| ApiClient.ToQueryString | src/lib/api-client.ts:31-42 | the builder loop yields exactly the query of the sent entries |
| ApiClient.SameAsBuildQueryString | src/lib/api-client.ts:31-42 | for scalar values the client's builder and the server's `buildQueryString` agree |
| ApiClient.ItemPathsIdentifyIds | src/lib/api-client.ts:52-72 | two ids share a detail path only when equal, and a master's path is never a version's |
| ApiClient.BulkDeleteBodyChecked | src/lib/api-client.ts:127-136 | the bulk-delete route accepts the client's body exactly when the id list is non-empty, and then sees exactly those ids, in order |
| ApiClient.Defined | src/hooks/useOssList.ts:49-50 | `s \|\| undefined` leaves the value undefined exactly for `''` |
| ApiClient.KeySegment | src/lib/api-client.ts:118-124 | an alphanumeric key is written as it is, followed by `=` and its form-encoded value |
| ApiClient.LicenseSearchQuery | src/lib/api-client.ts:111-125 | the license search sends exactly `name`, `page`, `size`, `exactMatch`, in that order, with the name form-encoded |
| ApiClient.DefaultLicenseSearch | src/lib/api-client.ts:114-116 | with the defaults the search asks for page `0`, size `20` and `exactMatch=false` |
| ApiClient.Claim | src/lib/api-client.ts:102-104 | a claim is its value when present and not null, and `''` otherwise |
| ApiClient.ParseUserInfoFromToken | src/lib/api-client.ts:96-109 | a result needs exactly three parts. With three parts, a result exists exactly when the middle part decodes to a non-null value. An object payload gives its `userId`, `companyName` and `key`, each `''` when missing or `null`; a non-object payload gives empty claims |
| ApiClient.TokenNeedsThreeParts | src/lib/api-client.ts:98-99 | a token without exactly two dots gives `null` |
| ApiClient.SignatureNotVerified | src/lib/api-client.ts:96-109 | the result does not depend on the header or the signature |
| Pagination.CeilDiv | src/components/Pagination.tsx:16 | `Math.ceil(a / b)` is the least `q` with `a <= q * b` |
| Pagination.TotalPages | src/components/Pagination.tsx:16 | at least one page; exactly one when the items fit on a page; otherwise just enough pages for every item |
| Pagination.PageNumbers | src/components/Pagination.tsx:22-34 | `min(5, totalPages)` consecutive pages within `1..totalPages`, containing the current page when it is in range |
| Pagination.WindowPlacement | src/components/Pagination.tsx:22-34 | away from the ends the current page is in the middle; near page 1 the window starts at 1; near the last page it ends there |
| Pagination.Render | src/components/Pagination.tsx:16-20 | the bar is not rendered exactly when the items fit on one page |
| Pagination.StepsAndTargets | src/components/Pagination.tsx:40-47 | previous is disabled exactly on page 1, next exactly on the last page; with the current page in range, every enabled button targets an existing page |
| Pagination.WindowContents | src/components/Pagination.tsx:62-75 | the window buttons are consecutive, and a button is highlighted exactly when it is the current page |
| Pagination.EveryPageAccountedFor | src/components/Pagination.tsx:49-90 | every page is in the window, a shortcut, or inside a gap. The `1` and last-page shortcuts appear exactly when the window misses those pages. An ellipsis appears exactly when the window misses both an end page and its neighbour |
| UseOssList.ListQuery | src/hooks/useOssList.ts:48-53 | the list request carries the search text and the status only when set, then page and size |
| UseOssList.LoadEffects | src/hooks/useOssList.ts:42-70 | a load ends not loading and leaves the controls alone; it reports an error exactly when it failed; only success replaces the masters and the total |
| UseOssList.LoadIdempotent | src/hooks/useOssList.ts:42-70 | loading twice with the same answer ends as loading once |
| UseOssList.OssListHook.constructor | src/hooks/useOssList.ts:31-40 | page 1 of 20, no search text, every status, nothing loaded |
| UseOssList.OssListHook.SetSearchQuery | src/hooks/useOssList.ts:76-78 | new search text and back to page 1, nothing else changed |
| UseOssList.OssListHook.SetReviewFilter | src/hooks/useOssList.ts:80-82 | new filter and back to page 1, nothing else changed |
| UseOssList.OssListHook.SetCurrentPage | src/hooks/useOssList.ts:84-86 | only the page changes |
| UseOssList.OssListHook.Load | src/hooks/useOssList.ts:42-70 | without a token nothing happens; otherwise it requests the page the controls describe and the state becomes `AfterLoad` |
| UseOssList.OssListHook.Settle | src/hooks/useOssList.ts:45-69 | the state after the busy update and the answer is `AfterLoad` of the state before |
| UseOssVersions.Toggled | src/hooks/useOssVersions.ts:114-124 | toggling flips the membership of that id and of no other |
| UseOssVersions.PageIds | src/hooks/useOssVersions.ts:134 | exactly the ids of the versions on the page |
| UseOssVersions.SelectAllFlips | src/hooks/useOssVersions.ts:126-137 | on a non-empty page select-all leaves the page fully selected exactly when it was not before, and selects nothing or exactly the page |
| UseOssVersions.UnreviewedIds | src/hooks/useOssVersions.ts:139-148 | exactly the ids of the page's versions with status `N`, all of them on the page |
| UseOssVersions.VersionListQuery | src/hooks/useOssVersions.ts:61-66 | the version request carries the master id, the status only when filtered, the page and the size |
| UseOssVersions.LoadEffects | src/hooks/useOssVersions.ts:53-100 | a load ends not loading and keeps paging, filter and busy flag. It reports an error exactly when it did not fully succeed; only full success replaces versions and total and clears the selection; a failed master fetch keeps the master |
| UseOssVersions.PatchWhere | src/hooks/useOssVersions.ts:230-232 | exactly the versions with that id get the patch, and the rest are unchanged |
| UseOssVersions.FindVersion | src/hooks/useOssVersions.ts:217 | nothing exactly when no version has the id; otherwise the first version on the page with that id |
| UseOssVersions.ArrayFrom | src/hooks/useOssVersions.ts:282 | the list holds every id of the set exactly once |
| UseOssVersions.ReviewChangesUnreviewed | src/hooks/useOssVersions.ts:259-265 | marking reviewed removes the id from the unreviewed ids; marking unreviewed adds it when on the page; the page keeps the same ids |
| UseOssVersions.VersionUpdateAnyPatch | src/hooks/useOssVersions.ts:210-240 | for any patch: a success merges it into exactly the versions with that id and keeps the error; a throw reports its message, a failed reply its error or the operation's fallback, and both keep the versions; only versions, error and busy flag change, and the hook ends not busy |
| UseOssVersions.VersionUpdateEffects | src/hooks/useOssVersions.ts:242-272 | a successful review update changes only the status of the versions with that id; a failed one keeps the versions and reports an error; only versions, error and busy flag change |
| UseOssVersions.BulkReportLost | src/hooks/useOssVersions.ts:291-302 | as written, the final state is the same whether or not the bulk call reported failures, and a successful reload clears the error |
| UseOssVersions.BulkReportKept | src/hooks/useOssVersions.ts:291-302 | reporting after the reload, a reported failure always leaves its report as the error; nothing else differs from the code as written |
| UseOssVersions.OssVersionsHook.constructor | src/hooks/useOssVersions.ts:40-51 | page 1 of 20, unreviewed filter, nothing loaded or selected |
| UseOssVersions.OssVersionsHook.SetCurrentPage | src/hooks/useOssVersions.ts:106-108 | the new page and an empty selection |
| UseOssVersions.OssVersionsHook.SetReviewFilter | src/hooks/useOssVersions.ts:110-112 | the new filter, page 1 and an empty selection |
| UseOssVersions.OssVersionsHook.ToggleSelection | src/hooks/useOssVersions.ts:114-124 | only the selection changes, flipped at that id |
| UseOssVersions.OssVersionsHook.ToggleSelectAll | src/hooks/useOssVersions.ts:126-137 | the `every` loop decides a full selection; the selection becomes empty or exactly the page |
| UseOssVersions.OssVersionsHook.SelectUnreviewed | src/hooks/useOssVersions.ts:139-148 | the selection becomes exactly the unreviewed ids |
| UseOssVersions.OssVersionsHook.Load | src/hooks/useOssVersions.ts:53-100 | without a token nothing happens; otherwise the master and version requests go out and the state becomes `AfterLoad` |
| UseOssVersions.OssVersionsHook.Settle | src/hooks/useOssVersions.ts:56-99 | the state after the busy update and both answers is `AfterLoad` of the state before |
| UseOssVersions.OssVersionsHook.UpdateVersion | src/hooks/useOssVersions.ts:210-240 | without a token nothing happens; an id not on the page leaves the hook busy; otherwise the merged version is sent by PUT to that id's version path and the answer is applied |
| UseOssVersions.OssVersionsHook.UpdateReviewStatus | src/hooks/useOssVersions.ts:242-272 | the found version is sent to its id's version path with only `reviewed` replaced, and the answer is applied |
| UseOssVersions.OssVersionsHook.SaveVersion | src/hooks/useOssVersions.ts:210-240 | the found version is sent to its id's version path merged with the patch, and the answer is applied |
| UseOssVersions.OssVersionsHook.UpdateMaster | src/hooks/useOssVersions.ts:150-208 | without a token or a loaded master nothing happens; otherwise the merged master is sent by PUT to the detail path of the hook's own master id, not the loaded record's id, and the answer is applied |
| UseOssVersions.OssVersionsHook.UpdateOssMasterReview | src/hooks/useOssVersions.ts:150-178 | the master is sent to the hook's master path with only `reviewed` replaced |
| UseOssVersions.OssVersionsHook.SaveOssMaster | src/hooks/useOssVersions.ts:180-208 | the master is sent to the hook's master path merged with the patch |
| UseOssVersions.OssVersionsHook.BulkUpdateReview | src/hooks/useOssVersions.ts:274-309 | without a token or a selection nothing happens; otherwise the request carries each selected id once and the requested status, and the state becomes `AfterBulkUpdate` (report, then reload) |
| UseOssVersions.OssVersionsHook.BulkUpdateReviewReported | src/hooks/useOssVersions.ts:274-309 | the same request, with the report written after the reload (`AfterBulkUpdateReported`) |
| LicenseSelect.Removed | src/components/LicenseSelect.tsx:77-79 | the name is gone, and every other name keeps its number of copies |
| LicenseSelect.RemovedAbsent | src/components/LicenseSelect.tsx:68 | removing a name that is not selected changes nothing |
| LicenseSelect.RemovedAppend | src/components/LicenseSelect.tsx:68 | removal keeps the order of the rest: it commutes with concatenation |
| LicenseSelect.HandleSelect | src/components/LicenseSelect.tsx:66-71 | the name is selected afterwards exactly when it was not before; other names are unaffected. A new name is appended at the end; a selected one is filtered out, every copy, the rest in order |
| LicenseSelect.SelectTwiceRestores | src/components/LicenseSelect.tsx:66-71 | picking an unselected name twice restores the list |
| LicenseSelect.SelectTwiceMovesLast | src/components/LicenseSelect.tsx:66-71 | picking a selected name twice moves it, as a single copy, to the end |
| LicenseSelect.Rows | src/components/LicenseSelect.tsx:137-162 | while loading only the spinner shows; otherwise one choice per result, in order, checked exactly when selected |
| LicenseSelect.DropdownNeverEmpty | src/components/LicenseSelect.tsx:100 | the dropdown shows exactly when open and loading, with results, or with a non-blank query; when shown it is never empty; with no results for a query it says so |
| LicenseSelect.SearchResults | src/components/LicenseSelect.tsx:38-45 | the results are the response's data when the call succeeded with data, and empty otherwise |
| LicenseSelect.LicensePicker.constructor | src/components/LicenseSelect.tsx:20-23 | empty query and results, not loading, closed |
| LicenseSelect.LicensePicker.QueryChanged | src/components/LicenseSelect.tsx:53-55 | the new text, and the dropdown opens |
| LicenseSelect.LicensePicker.Search | src/components/LicenseSelect.tsx:29-51 | a blank name clears the results without a request. Otherwise it requests the default search for the name and ends not loading, showing `SearchResults` |
| LicenseSelect.LicensePicker.Select | src/components/LicenseSelect.tsx:66-75 | `onChange` gets `HandleSelect`; the query and results are cleared |
| LicenseSelect.LicensePicker.Remove | src/components/LicenseSelect.tsx:77-79 | `onChange` gets the list without the name |
| LicenseSelect.LicensePicker.ClickOutside | src/components/LicenseSelect.tsx:81-90 | the dropdown closes and nothing else changes |
| LicenseSelect.LicensePicker.Focus | src/components/LicenseSelect.tsx:130 | focusing opens the dropdown exactly when the query is not blank |
| AuthContext.Provided | src/contexts/AuthContext.tsx:40-50 | children see a context value exactly once the stored token was read |
| AuthContext.OperationsStayConsistent | src/contexts/AuthContext.tsx:17-38 | every operation keeps a present token non-empty and equal to the stored one |
| AuthContext.SetAndClear | src/contexts/AuthContext.tsx:28-38 | a non-blank token is adopted trimmed and signs in; a blank one changes nothing; clearing signs out and forgets the stored token; setting the same token twice is setting it once |
| AuthContext.TokenSurvivesReload | src/contexts/AuthContext.tsx:20-33 | a new provider over the storage the old one left starts with the same token; after a sign-out it starts signed out |
| AuthContext.AuthenticatedMeansTruthy | src/contexts/AuthContext.tsx:50 | in a consistent state `token !== null` agrees with the hooks' `!token` test |
| AuthContext.AuthProvider.constructor | src/contexts/AuthContext.tsx:17-18 | no token and not initialized, over the given storage |
| AuthContext.AuthProvider.Initialize | src/contexts/AuthContext.tsx:20-26 | the state becomes `Initialized` of the old one |
| AuthContext.AuthProvider.SetToken | src/contexts/AuthContext.tsx:28-33 | the state becomes `WithToken` of the old one |
| AuthContext.AuthProvider.ClearToken | src/contexts/AuthContext.tsx:35-38 | the state becomes `Cleared` of the old one |

## Left out

**Not modelled at all.**
- Network I/O is not modelled: `fetch`, `apiFetch` and the upstream base URL. What an awaited call returned or threw is an input of each operation.
- The 30-second abort timer and `clearTimeout` are not modelled. An abort is one of the inputs of `Classify`.
- The license picker's 300 ms debounce, focusing the input, and DOM event listeners are not modelled.
- React's scheduling is not modelled. The hooks' effect that reloads after the page, the filter or the search text changed is a separate call of `Load`. Interleavings of concurrent async operations are not modelled.
- `atob` and `JSON.parse` are not modelled: `ParseUserInfoFromToken` takes the decoding as a parameter (`None` when it throws).
- The `[id]` routes (`/api/oss/[id]`, `/api/oss-versions/[id]`) are not part of this model. Their paths are modelled on the client side only.
- `bulkReviewVersions` is imported by the version hook, but the API client does not define it. So the client side of the bulk review is an input of `BulkUpdateReview`.
- The `License`, `BulkDeleteRequest` and `BulkDeleteResult` types are not part of `src/lib/types.ts`. `LicenseSelect.License` keeps only the `id` and `name` the picker reads.

**Value domains.**
- JSON numbers are integers only. `Number()` accepts an optional sign and decimal digits, with surrounding whitespace, and treats the empty string as 0. Fractions, exponents, hex, `Infinity` and wide-number rounding all give NaN or are not modelled.
- The engine's exception texts (for example destructuring `null`, `.map` on a non-array) are fixed constants. They are not the engine's exact wording.
- A successful upstream reply is assumed to have the `ExternalApiResponse` shape, its `messageList` an object. With `messageList: null` every `messageList.x` read throws and the route answers 500; that reply is not representable here.
- Strings are sequences of Dafny characters, so a lone UTF-16 surrogate is not representable. On one, `encodeURIComponent` throws `URIError`, which the licenses route turns into a 500.

**Contracts stated weaker than the source.**
- Pagination.TotalPages: requires a positive page size. The source divides by it, and a zero or negative size (Infinity or NaN pages) is not modelled.
- UseOssVersions.ArrayFrom: the ids come out once each, in an order left open. The insertion order `Array.from` gives them is not modelled.
- UseOssVersions.OssVersionsHook.BulkUpdateReview: the order of the sent ids is left open, as for `ArrayFrom`.
- UseOssVersions.OssVersionsHook.BulkUpdateReviewReported: the same as `BulkUpdateReview`.
- BulkReviewRoute.Post: the per-id tasks run one after the other, not concurrently. The tally does not depend on the order.
- BulkDeleteRoute.Post: the same as `BulkReviewRoute.Post`.
- ApiClient.ToQueryString: requires distinct keys. A JavaScript object literal always has them.
- ExternalApi.BuildQueryString: the same as `ApiClient.ToQueryString`.
- Types.MergeVersionLaws: a `Partial<…>` patch slot is either missing or filled. An explicit `undefined` value, which overwrites a field in a JavaScript spread, is not modelled.

## Findings

| source | as written | input that shows it | evidently intended | confidence | as-written member | corrected member |
|---|---|---|---|---|---|---|
| src/hooks/useOssVersions.ts:291-302 | `bulkUpdateReview` stores the "n succeeded, m failed" report as `error`, then awaits `load()`; the first update `load` makes sets `error` back to `null` | a bulk call answering `{ success: true, data: { total: 2, succeeded: 1, failed: 1 } }`, then a successful reload: the final error is `null`, the report is never shown | the partial-failure report stays visible after the list is reloaded | not executed | UseOssVersions.BulkReportLost | UseOssVersions.BulkReportKept |
