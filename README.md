# A Dafny model of the pixx.io asset source for Neos

This project models the core of `flownative/neos-pixxio`. That package makes assets kept in the
pixx.io digital-asset-management service available inside the Neos media browser. It also keeps
pixx.io keywords in step with how Neos uses each asset. The model covers:

- **Record mapping.** `PixxioAssetProxy::fromJsonObject` turns one JSON asset record of the pixx.io
  API into an asset proxy. It applies the per-media-type "use the pixx.io thumbnail as original"
  rule, reads the derivative URIs from either a list or an object with keys `0`, `1` and `2`, and
  applies the `originalPath` override (module `AssetProxies`).
- **The API client.** `PixxioClient` fills the image-option presets, builds the search options
  (pagination, category, search term, sort mapping), checks the `updateFile` keywords, tests the
  `authenticate` reply, and builds the requests it sends (module `PixxioService`).
- **The asset source.** `PixxioAssetSource` validates its configuration: the identifier pattern, each
  option in turn, and the sanitised in-use tag. It selects credentials from the per-account secret or
  the shared refresh token, and it creates the pixx.io client and the asset proxy repository lazily
  and keeps them (modules `SourceConfiguration` and `AssetSources`).
- **Repository, query and result.** The repository's `getAssetProxy` reads through an
  identifier-keyed cache and sorts the reply into three cases. The query has a type-filter table, a
  `count` that falls back to 0 and a listing loop that reads and fills the cache. The query result is
  loaded lazily, memoises its count and is iterated over the loaded list (module `AssetSources`).
- **Tag maintenance.** The auto-tagger adds or removes the in-use tag when Neos reports a new asset
  (module `AutoTagging`). The `pixxio:tagusedassets` command does the same over all assets, sorting
  and comparing the lists first, and `pixxio:updatemetadata` copies title, caption and copyright
  notice from pixx.io into Neos (module `PixxioCommands`).

The outside world is a parameter:

- **HTTP.** Each request the client would send is a `Request` value. The `Transport` class logs
  every request sent and answers from a fixed `Remote` oracle, so each answer is either
  `Received(body)` or `TransportFailure(message)`. The logged sequence of requests lets contracts
  state which calls are made, and that none are made.
- **Library helpers.** The helpers the code calls are uninterpreted fields of `Externals.Library`:
  - the Flow `MediaTypes` tables and `Transliterator::urlize`;
  - `sha1` and `urlencode`;
  - Guzzle's `Uri` normalisation;
  - the JSON encoder and decoder.
  
  Hypotheses about them, such as a JSON record reading back as itself, are `requires` on the lemmas
  that need them (`JsonCodecSound`).
- **Neos.** The Neos media model appears only as far as the commands and the auto-tagger touch it,
  in `NeosMedia`:
  - an asset's source identifier and usage count;
  - its editable title, caption and copyright notice;
  - the result of resolving its proxy;
  - the repository's `update`.

PHP's own rules are written out where the code relies on them:

- **Truthiness.** `empty("0")` is true, `isset` treats `null` as absent, and a missing array key
  reads as `null`.
- **Type errors.** A return-type violation or a `null` passed as a `string` parameter throws a
  `TypeError`.
- **Division.** The pagination's float division is truncated with `(int)`.
- **Regular expressions.** `preg_match`'s `$` also matches before a final newline.
- **Catch blocks.** A `catch (Exception)` in the package catches only the package's own exception
  classes.

Where the documented behaviour and the code disagree, or the code cannot run as written, the model takes
the side stated below:

- **Thumbnail as original.** The thumbnail serves as the original when the media type has *no*
  `mediaTypes` entry, or when the entry's `usePixxioThumbnailAsOriginal` flag is `=== false`. This
  follows `Classes/AssetSource/PixxioAssetProxy.php:124`.
- **Tags are not trimmed.** Keywords are split on `,` and nothing more, so the empty keywords text
  gives one empty tag.
- **The search call.** `PixxioAssetProxyQuery::sendSearchRequest` calls `search` with arguments that
  do not fit the signature of `PixxioClient::search`. It passes a string where the array
  `$formatTypes` is declared, and it skips the collection filter. The model passes the format type as
  a string, the file types, no collection filter (as the call passes none), the offset, the limit and
  the orderings. As written, PHP refuses the call before `search` runs: the string `$formatType` is
  not the declared `array`, and the shifted `$orderings` array lands on `int $limit`. So every
  `count` and `getArrayResult` ends in an uncaught `TypeError`, which no `catch (Exception)` stops;
  the model follows the evidently intended call instead. A collection filter set on the repository is kept by the query but never reaches a
  search, so the search options never carry a `category`.
- **`setAssetCollectionFilter`.** The repository calls it, but the query class does not define it.
  The model gives the query that field and a setter for it.
- **`count` and `getArrayResult`.** Both read `quantity` and `files` of what the search call returns.
  The model takes that to be the decoded JSON reply body, whose fields these reads address.
- **The client factory.** `getPixxioClient` passes the account, endpoint, API key and client options
  in an order that does not match `PixxioServiceFactory`. The model builds the client from endpoint,
  API key and client options, with no configured image options, so all three presets apply.
- **Empty listing.** `getFirst` on an empty listing returns `false`, which its `?AssetProxyInterface`
  return type refuses. It is modelled as a `TypeError`.
- **The proxy cache.** One cache is shared by a source's repository and its queries.

## Model

| member | source | states |
|---|---|---|
| PhpStrings.ExplodeImplode | Classes/AssetSource/PixxioAssetProxy.php:135 | splitting the comma-join of a non-empty list of comma-free tags gives back the list |
| PhpStrings.ImplodeExplode | Classes/AssetSource/PixxioAssetProxy.php:135 | joining the pieces of any keywords text gives back the text |
| PhpStrings.Explode | Classes/AssetSource/PixxioAssetProxy.php:135 | `explode` gives at least one piece and no piece holds the separator |
| PhpStrings.AsciiLowerNormalises | Classes/AssetSource/PixxioAssetProxy.php:123 | `strtolower` keeps the length, leaves no upper-case ASCII letter and is idempotent |
| PhpStrings.TruncatedQuotient | Classes/Service/PixxioClient.php:224 | `(int)($a / $b)` has the sign of the exact quotient and its magnitude is the floor of the magnitudes' quotient |
| PhpStrings.ParseNatToString | Classes/Service/PixxioClient.php:224 | the decimal text of a number reads back as that number |
| PhpStrings.NatToStringInjective | Classes/Service/PixxioClient.php:224 | different numbers have different decimal texts |
| PhpValues.Lookup | Classes/Service/PixxioClient.php:238-246 | an array lookup finds a value exactly when the key is present, and the value is the one stored under it |
| TagLists.DistinctElements | Classes/AssetSource/PixxioAutoTagger.php:73 | `array_unique` keeps exactly the elements of its input and leaves no duplicate |
| TagLists.DistinctKeepsFirstOccurrenceOrder | Classes/AssetSource/PixxioAutoTagger.php:73 | `array_unique` orders elements by their first occurrence in the input |
| TagLists.DistinctOfDistinctFree | Classes/AssetSource/PixxioAutoTagger.php:73 | `array_unique` leaves a duplicate-free list as it is |
| TagLists.Without | Classes/AssetSource/PixxioAutoTagger.php:77-79 | removing the in-use tag keeps exactly the other elements |
| TagLists.WithoutKeepsNoDuplicates | Classes/AssetSource/PixxioAutoTagger.php:77-79 | removing a tag from a duplicate-free list keeps it duplicate-free |
| TagLists.WithoutKeepsOrder | Classes/AssetSource/PixxioAutoTagger.php:77-79 | removing a tag keeps the relative order of the rest |
| TagLists.WithoutAbsent | Classes/AssetSource/PixxioAutoTagger.php:77-79 | removing an absent tag changes nothing |
| TagLists.BeforeIrreflexive | Classes/Command/PixxioCommandController.php:80 | the byte-wise string order used by `sort` is irreflexive |
| TagLists.BeforeTransitive | Classes/Command/PixxioCommandController.php:80 | the byte-wise order is transitive |
| TagLists.BeforeTotal | Classes/Command/PixxioCommandController.php:80 | any two different strings are ordered one way or the other |
| TagLists.BeforeAsymmetric | Classes/Command/PixxioCommandController.php:80 | the byte-wise order is asymmetric |
| TagLists.Insert | Classes/Command/PixxioCommandController.php:80 | inserting adds exactly one occurrence of the element |
| TagLists.InsertSorted | Classes/Command/PixxioCommandController.php:80 | inserting into a sorted list keeps it sorted |
| TagLists.SortStringsSorted | Classes/Command/PixxioCommandController.php:80 | `sort` yields a sorted permutation of its input |
| TagLists.SortedUnique | Classes/Command/PixxioCommandController.php:80 | two sorted permutations of the same multiset are equal, so the sorted form is unique |
| TagLists.SortStringsOfSorted | Classes/Command/PixxioCommandController.php:83 | sorting a sorted list changes nothing |
| TagLists.SortedNoDuplicatesStrict | Classes/Command/PixxioCommandController.php:83 | in a sorted duplicate-free list each element is strictly before the later ones |
| TagLists.NoDuplicatesCounts | Classes/Command/PixxioCommandController.php:82 | a list has no duplicates exactly when no element occurs twice in its multiset |
| TagLists.SameElementsSameMultiset | Classes/Command/PixxioCommandController.php:82-83 | duplicate-free lists with the same elements are permutations of each other |
| TagLists.SortStringsKeepsElements | Classes/Command/PixxioCommandController.php:80 | sorting keeps the elements and keeps (or lacks) duplicates |
| TagLists.SortStringsOfSameElements | Classes/Command/PixxioCommandController.php:82-83 | duplicate-free lists with the same elements sort to the same list |
| TagLists.DistinctAppendPresent | Classes/AssetSource/PixxioAutoTagger.php:73 | appending a tag that is already in a duplicate-free list and removing duplicates gives the list back |
| Externals.IndexMapAt | Classes/AssetSource/PixxioAssetProxyRepository.php:111 | a list forced into an object keeps entry `i` under the key `"i"` |
| Externals.IndexMapBeyond | Classes/AssetSource/PixxioAssetProxyRepository.php:111 | the forced object has no key for positions past the list |
| Externals.ForceObject | Classes/AssetSource/PixxioAssetProxyRepository.php:111 | `JSON_FORCE_OBJECT` keeps the presence of the derivative paths and never leaves them a list |
| AssetProxies.PixxioAssetProxy.GetIdentifier | Classes/AssetSource/PixxioAssetProxy.php:185-188 | the identifier is returned when present; a missing one is the `TypeError` of the `string` return type |
| AssetProxies.PixxioAssetProxy.GetLabel | Classes/AssetSource/PixxioAssetProxy.php:193-196 | the label is returned when present; a missing `subject` is the `TypeError` of the `string` return type |
| AssetProxies.PixxioAssetProxy.GetIptcProperty | Classes/AssetSource/PixxioAssetProxy.php:234-246 | a stored property is returned as stored, and any other name gives `''` |
| AssetProxies.MediaTypeEntry | Classes/AssetSource/PixxioAssetProxy.php:124 | `isset($options['mediaTypes'][$mediaType])`: an entry is found exactly when `mediaTypes` is an array holding the media type with a non-`null` value, and the entry found is that stored value |
| AssetProxies.MapsIdentifierAndLabel | Classes/AssetSource/PixxioAssetProxy.php:129-133 | identifier, label and file size are the record's `id`, `subject` and `fileSize` |
| AssetProxies.ThumbnailRuleDecidesFileType | Classes/AssetSource/PixxioAssetProxy.php:123-134 | with no entry for the media type, or the flag `=== false`, filename extension and media type are those of `jpg`; otherwise both come from the lower-cased `fileType` |
| AssetProxies.ConfiguredTypeKeepsOwnFileType | Classes/AssetSource/PixxioAssetProxy.php:124-125 | a configured type whose flag is not `false` keeps its own file type and takes `originalPath` as its original |
| AssetProxies.TagsSplitKeywords | Classes/AssetSource/PixxioAssetProxy.php:135 | tags are the `keywords` split on `,` with nothing trimmed or dropped (so `""` gives `[""]`), and empty when `keywords` is absent |
| AssetProxies.IptcPropertiesAlwaysPresent | Classes/AssetSource/PixxioAssetProxy.php:137-139 | Title, CaptionAbstract and CopyrightNotice are always present, defaulting to `''`; the copyright notice comes only from `dynamicMetadata`; no other property is present |
| AssetProxies.DimensionsAndDateDefaults | Classes/AssetSource/PixxioAssetProxy.php:132-142 | width and height are copied and stay null when absent; a missing `modifyDate` becomes `'1.1.2000'` |
| AssetProxies.DerivativeSlots | Classes/AssetSource/PixxioAssetProxy.php:144-170 | paths 0 and 1 set thumbnail and preview; path 2 sets the original unless the thumbnail rule is off and `originalPath` is present, which then overrides it |
| AssetProxies.ListAndObjectShapesAgree | Classes/AssetSource/PixxioAssetProxy.php:146-165 | a list of paths and the object with keys `0`, `1`, `2` give the same derivative at every position |
| AssetProxies.ForcedObjectMapsAlike | Classes/AssetSource/PixxioAssetProxyRepository.php:111-113 | a record stored with `JSON_FORCE_OBJECT` maps to the same proxy as the record itself |
| PixxioService.Transport.PostAccessToken | Classes/Service/PixxioClient.php:126-135 | the token request is logged and answered by the remote |
| PixxioService.Transport.GetFile | Classes/Service/PixxioClient.php:168 | the file request is logged and answered by the remote |
| PixxioService.Transport.PutFile | Classes/Service/PixxioClient.php:196-207 | the update request is logged and answered by the remote |
| PixxioService.Transport.GetFiles | Classes/Service/PixxioClient.php:254-259 | the search request is logged and answered by the remote |
| PixxioService.Transport.GetCategories | Classes/Service/PixxioClient.php:266-279 | the categories request is logged and answered by the remote |
| PixxioService.WithoutKeys | Classes/Service/PixxioClient.php:111-115 | the `unset` calls keep exactly the entries whose key is not removed |
| PixxioService.WithoutKeysFilters | Classes/Service/PixxioClient.php:111-115 | removal from a joined list is removal from each part, and a single entry is kept exactly when its key is not removed, so the kept entries stay in their order and multiplicity |
| PixxioService.ConfigureImageOptionsWithFallback | Classes/Service/PixxioClient.php:85-117 | the loop over the three presets builds the option list `ImageOptionsWithFallback` describes |
| PixxioService.ImageOptionsFallBackToPresets | Classes/Service/PixxioClient.php:87-116 | exactly three options in the order thumbnail, preview, original; a missing key takes its preset; `crop === false` with a height drops `height` and `crop` and keeps every other key; any other given option is kept as given |
| PixxioService.PaginationNamesPageOfOffset | Classes/Service/PixxioClient.php:224 | for `limit > 0` and `offset >= 0` the pagination is `limit-page` where page `offset div limit + 1` is the page holding the offset |
| PixxioService.CategoryOnlyWithCollectionFilter | Classes/Service/PixxioClient.php:230-232 | `category` is set, to `sub/` and the filter, exactly when a collection filter is given |
| PixxioService.SearchTermOnlyWhenNotEmpty | Classes/Service/PixxioClient.php:234-236 | the url-encoded search term is sent exactly when the expression is not PHP-empty (neither `''` nor `'0'`) |
| PixxioService.FileTypeJoinsFileTypes | Classes/Service/PixxioClient.php:228 | the `fileType` option splits back into the file-type list |
| PixxioService.SortMapping | Classes/Service/PixxioClient.php:238-246 | sorting is requested exactly when `lastModified` or `resource.filename` is set; `lastModified` wins as `uploadDate`, else `fileName`; the direction is `descending` exactly when the ordering is `DESC` |
| PixxioService.LookupIgnoresOtherKey | Classes/Service/PixxioClient.php:238-246 | an ordering under another key does not change a lookup |
| PixxioService.SortIgnoresOtherKeys | Classes/Service/PixxioClient.php:238-246 | ordering keys other than the two sort fields do not change the sort options |
| PixxioService.AuthenticationAcceptsOnlyTrueReply | Classes/Service/PixxioClient.php:136-146 | a reply is accepted exactly when it arrived with `success === 'true'` and an access token, which is then the token; a boolean `true` is refused; every refusal is an authentication failure |
| PixxioService.PixxioClient.constructor | Classes/Service/PixxioClient.php:76-83 | the client stores endpoint, key and client options, fills the image options from the presets and has no token |
| PixxioService.PixxioClient.Authenticate | Classes/Service/PixxioClient.php:123-147 | one token request is sent; the token is stored exactly when the reply is accepted, otherwise the error is an authentication failure and the token is unchanged |
| PixxioService.PixxioClient.GetFile | Classes/Service/PixxioClient.php:154-172 | one file request is sent; the body is returned, or the transport failure becomes a connection error |
| PixxioService.PixxioClient.UpdateFile | Classes/Service/PixxioClient.php:180-208 | without `keywords` nothing is sent and the update is refused; otherwise one request carrying only the keywords is sent |
| PixxioService.PixxioClient.Search | Classes/Service/PixxioClient.php:221-260 | a zero limit is a division by zero and sends nothing; otherwise one search request with the built options is sent |
| PixxioService.PixxioClient.GetCategories | Classes/Service/PixxioClient.php:266-279 | one categories request is sent; its body or a connection error is returned |
| PixxioService.PixxioClient.GetAccessToken | Classes/Service/PixxioClient.php:284-287 | the stored token is returned when there is one |
| SourceConfiguration.AcceptedIdentifierShape | Classes/AssetSource/PixxioAssetSource.php:116-118 | an accepted identifier (less a final newline) is 2 to 64 characters, starts and ends with `[a-z]` and holds only `[a-z0-9-]` |
| SourceConfiguration.TrailingNewlineAccepted | Classes/AssetSource/PixxioAssetSource.php:116 | the pattern's `$` lets an identifier with a final newline through |
| SourceConfiguration.SanitizeTag | Classes/AssetSource/PixxioAssetSource.php:167 | the sanitised tag holds exactly the allowed characters of the input and is no longer |
| SourceConfiguration.SanitizeTagFilters | Classes/AssetSource/PixxioAssetSource.php:167 | sanitising a joined text sanitises each part, and a single character is kept exactly when it is allowed, so the kept characters stay in their order and multiplicity |
| SourceConfiguration.SanitizeKeepsAllowed | Classes/AssetSource/PixxioAssetSource.php:167 | a tag of allowed characters is left as it is |
| SourceConfiguration.FirstUnknownMediaType | Classes/AssetSource/PixxioAssetSource.php:151-155 | an unknown media type is reported exactly when some configured type has no file extension |
| SourceConfiguration.CheckMediaTypes | Classes/AssetSource/PixxioAssetSource.php:151-155 | the loop finds the first configured media type without file extensions |
| SourceConfiguration.ConfigureAutoTagging | Classes/AssetSource/PixxioAssetSource.php:161-172 | the loop applies `enable` and `inUseTag` and refuses any other key, as `ApplyAutoTagging` describes |
| SourceConfiguration.ValidateOptions | Classes/AssetSource/PixxioAssetSource.php:114-184 | the constructor's checks and loop give the settings `Configure` describes |
| SourceConfiguration.AutoTaggingAcceptanceIndependent | Classes/AssetSource/PixxioAssetSource.php:161-172 | whether the auto-tagging options are accepted does not depend on earlier settings |
| SourceConfiguration.OptionAcceptanceIndependent | Classes/AssetSource/PixxioAssetSource.php:124-182 | whether one option is accepted depends only on its name and value |
| SourceConfiguration.ApplyOptionsOkIff | Classes/AssetSource/PixxioAssetSource.php:123-183 | the options are accepted exactly when each option is |
| SourceConfiguration.ConfigureSucceedsIff | Classes/AssetSource/PixxioAssetSource.php:114-184 | configuration succeeds exactly when the identifier matches and every option is accepted |
| SourceConfiguration.OptionChecks | Classes/AssetSource/PixxioAssetSource.php:129-181 | `apiKey` and `sharedRefreshToken` must be non-empty strings; `apiClientOptions`, `mediaTypes` and `autoTagging` must be arrays; media types must be known; `autoTagging` takes only `enable` and `inUseTag`; `icon` and `description` take anything; unknown names are refused |
| SourceConfiguration.AutoTaggingOkIff | Classes/AssetSource/PixxioAssetSource.php:161-172 | the auto-tagging options are accepted exactly when every key is `enable` or `inUseTag` |
| SourceConfiguration.AutoTaggingKeepsTagClean | Classes/AssetSource/PixxioAssetSource.php:161-172 | the auto-tagging loop keeps the in-use tag sanitised and changes no other setting |
| SourceConfiguration.OptionsKeepTagClean | Classes/AssetSource/PixxioAssetSource.php:123-183 | every option keeps the in-use tag sanitised |
| SourceConfiguration.InUseTagIsClean | Classes/AssetSource/PixxioAssetSource.php:157-173 | a configured source's in-use tag holds only `A-Za-z0-9&_+ßäöüÄÖÜ.@ -` |
| SourceConfiguration.OptionsWithoutAutoTaggingKeepIt | Classes/AssetSource/PixxioAssetSource.php:123-183 | options other than `autoTagging` leave the auto-tagging settings alone |
| SourceConfiguration.AutoTaggingDefaults | Classes/AssetSource/PixxioAssetSource.php:88-93 | without an `autoTagging` option, tagging is off and the tag is `used-by-neos` |
| SourceConfiguration.OptionsKeepKeyAndTokenUsable | Classes/AssetSource/PixxioAssetSource.php:129-146 | every option keeps the API key and shared token PHP-non-empty where set |
| SourceConfiguration.AutoTaggingKeepsRest | Classes/AssetSource/PixxioAssetSource.php:161-172 | the auto-tagging loop keeps key, token, identifier and options |
| SourceConfiguration.OptionsKeepIdentity | Classes/AssetSource/PixxioAssetSource.php:120-121 | the options loop keeps the stored identifier and options |
| SourceConfiguration.ConfiguredIdentity | Classes/AssetSource/PixxioAssetSource.php:116-121 | a configured source has a matching identifier and stores it and its options as given |
| SourceConfiguration.ConfiguredKeyAndTokenUsable | Classes/AssetSource/PixxioAssetSource.php:129-146 | a configured API key or shared token is never PHP-empty |
| SourceConfiguration.CredentialSelection | Classes/AssetSource/PixxioAssetSource.php:265-282 | the account's secret wins when its refresh token is not `''`; otherwise a usable shared token is used; otherwise the selection fails with MissingClientSecret for the account; a selected refresh token is never `''` |
| AssetSources.StringCache.Get | Classes/AssetSource/PixxioAssetProxyRepository.php:91 | the cache answers exactly for stored keys, with the stored entry |
| AssetSources.StringCache.Set | Classes/AssetSource/PixxioAssetProxyRepository.php:111 | the entry is stored under the key and nothing else changes |
| AssetSources.StringCache.Flush | Classes/Command/PixxioCommandController.php:53 | the cache is empty afterwards |
| AssetSources.SearchReplyOutcome | Classes/Service/PixxioClient.php:255-259 | a search fails exactly on a transport failure, as `Search failed: ` and the message; otherwise the body is returned |
| AssetSources.FileReplyClassification | Classes/AssetSource/PixxioAssetProxyRepository.php:99-108 | a reply is accepted exactly when it is an object with `success === 'true'`; a refused object whose status is loosely 403 (the integer, `true`, or a numeric string of integer form with value 403) is access denied; every other failure is asset not found |
| AssetSources.LooseStatusExamples | Classes/AssetSource/PixxioAssetProxyRepository.php:103-104 | the statuses `"0403"` and `" +403\n"` match `case 403`, while `"403abc"` does not |
| PhpStrings.IntegerStringValueOfIntToString | Classes/AssetSource/PixxioAssetProxyRepository.php:103-104 | the decimal text of any integer is a numeric string with that value, so `"403"` matches `case 403` |
| AssetSources.CacheEntryMapsLikeFetchedRecord | Classes/AssetSource/PixxioAssetProxyRepository.php:93-113 | a stored record is a hit and maps to the same proxy as the record that was fetched |
| AssetSources.ListingLength | Classes/AssetSource/PixxioAssetProxyQuery.php:143-157 | a listing that does not fail has one proxy per record; the only way it fails is a malformed cache entry |
| AssetSources.ListingKeepsHits | Classes/AssetSource/PixxioAssetProxyQuery.php:145-153 | the loop never drops or rewrites a cached entry, and leaves keys of no listed record alone |
| AssetSources.DistinctKeysOfTail | Classes/AssetSource/PixxioAssetProxyQuery.php:144 | with distinct keys, the first record's key does not recur later |
| AssetSources.ListingFromEmptyCache | Classes/AssetSource/PixxioAssetProxyQuery.php:151-155 | with nothing cached, every record is mapped as fetched and stored under `sha1(id)` |
| AssetSources.ListingIsIdempotent | Classes/AssetSource/PixxioAssetProxyQuery.php:143-157 | listing the same records again over the filled cache gives the same proxies and writes nothing |
| AssetSources.ArrayResultFallbacks | Classes/AssetSource/PixxioAssetProxyQuery.php:136-162 | a failing search gives `[]` for package exceptions and leaves the cache; no `files` gives `[]`; otherwise one proxy per file; only non-package errors escape |
| AssetSources.ListFilesStep | Classes/AssetSource/PixxioAssetProxyQuery.php:144-156 | one turn of the loop: a miss stores and maps the raw record, a hit maps the decoded entry, and a malformed entry stops the listing |
| AssetSources.ListInto | Classes/AssetSource/PixxioAssetProxyQuery.php:137-157 | the loop over the files returns the listing's proxies and leaves the cache as `ListFiles` describes |
| AssetSources.CountFallsBackToZero | Classes/AssetSource/PixxioAssetProxyQuery.php:111-129 | `count` is the reply's `quantity`, 0 when it is missing, 0 on authentication or connection failure, and any other error escapes |
| AssetSources.TypeFilterOptions | Classes/AssetSource/PixxioAssetProxyQuery.php:172-187 | Image, Video and Audio give formats `image`, `video`, `audio`; Document gives `''` with `['.pdf']`; anything else gives `''` and `[]` |
| AssetSources.ClientArguments | Classes/AssetSource/PixxioAssetSource.php:284-289 | the client can be built exactly when endpoint and API key are configured, from those two |
| AssetSources.Authentication | Classes/AssetSource/PixxioAssetSource.php:263-291 | a token results only from configured client arguments and selected credentials; a failed selection is the error |
| AssetSources.AuthenticationRequests | Classes/AssetSource/PixxioAssetSource.php:274-291 | at most one token request is sent, exactly when credentials are selected and the client can be built, with the selected refresh token |
| AssetSources.PixxioAssetSource.constructor | Classes/AssetSource/PixxioAssetSource.php:114-121 | a new source holds its settings and collaborators, with no client and no repository yet |
| AssetSources.PixxioAssetSource.CreateFromConfiguration | Classes/AssetSource/PixxioAssetSource.php:191-194 | a configuration error is passed on; otherwise a fresh source with the validated settings, the identifier and options as given, and no client or repository |
| AssetSources.PixxioAssetSource.GetLabel | Classes/AssetSource/PixxioAssetSource.php:207-210 | the label is always `pixx.io` |
| AssetSources.PixxioAssetSource.IsReadOnly | Classes/AssetSource/PixxioAssetSource.php:227-230 | the source is always read-only |
| AssetSources.PixxioAssetSource.GetDescription | Classes/AssetSource/PixxioAssetSource.php:301-304 | a string description is returned; `null` or an array is the `TypeError` of the `string` return type |
| AssetSources.PixxioAssetSource.GetPixxioClient | Classes/AssetSource/PixxioAssetSource.php:261-294 | an existing client is returned unchanged with nothing sent; otherwise the token request is sent once; a failed authentication still keeps the new, tokenless client; a failed selection creates none |
| AssetSources.PixxioAssetSource.GetAssetProxyRepository | Classes/AssetSource/PixxioAssetSource.php:215-222 | the repository is created once, unfiltered and unordered, and returned unchanged afterwards |
| AssetSources.PixxioAssetProxyRepository.constructor | Classes/AssetSource/PixxioAssetProxyRepository.php:69-72 | a new repository belongs to its source with type filter `All`, no collection filter and no orderings |
| AssetSources.PixxioAssetProxyRepository.GetAssetProxy | Classes/AssetSource/PixxioAssetProxyRepository.php:86-114 | the client comes first and its error is passed on; a cache hit on `sha1(identifier)` maps the entry and fetches nothing; a miss sends one file request, and its failure leaves the cache alone while its success stores the object-forced record and maps it |
| AssetSources.PixxioAssetProxyRepository.FilterByType | Classes/AssetSource/PixxioAssetProxyRepository.php:119-122 | a null or empty filter stores `All`, otherwise the filter; nothing else changes |
| AssetSources.PixxioAssetProxyRepository.FilterByCollection | Classes/AssetSource/PixxioAssetProxyRepository.php:124-127 | the collection title (or none) is stored; nothing else changes |
| AssetSources.PixxioAssetProxyRepository.OrderBy | Classes/AssetSource/PixxioAssetProxyRepository.php:200-203 | the orderings are replaced wholesale; nothing else changes |
| AssetSources.PixxioAssetProxyRepository.FindAll | Classes/AssetSource/PixxioAssetProxyRepository.php:132-139 | a fresh, unloaded result over a fresh query with term `''` and the repository's filters and orderings |
| AssetSources.PixxioAssetProxyRepository.FindBySearchTerm | Classes/AssetSource/PixxioAssetProxyRepository.php:145-153 | as `findAll`, with the given search term |
| AssetSources.PixxioAssetProxyRepository.FindByTag | Classes/AssetSource/PixxioAssetProxyRepository.php:159-167 | as `findAll`, with the tag label as search term |
| AssetSources.PixxioAssetProxyRepository.FindUntagged | Classes/AssetSource/PixxioAssetProxyRepository.php:172-179 | as `findAll` |
| AssetSources.PixxioAssetProxyRepository.CountAll | Classes/AssetSource/PixxioAssetProxyRepository.php:184-187 | the count of a fresh unfiltered query: one search with limit 1, no term, type `All` and no orderings |
| AssetSources.PixxioAssetProxyQuery.constructor | Classes/AssetSource/PixxioAssetProxyQuery.php:29-53 | a new query has term `''`, type `All`, no collection filter, no orderings, offset 0 and limit 30 |
| AssetSources.PixxioAssetProxyQuery.SetOffset | Classes/AssetSource/PixxioAssetProxyQuery.php:55-58 | only the offset changes and the getter returns it |
| AssetSources.PixxioAssetProxyQuery.SetLimit | Classes/AssetSource/PixxioAssetProxyQuery.php:66-69 | only the limit changes and the getter returns it |
| AssetSources.PixxioAssetProxyQuery.SetSearchTerm | Classes/AssetSource/PixxioAssetProxyQuery.php:76-79 | only the search term changes and the getter returns it |
| AssetSources.PixxioAssetProxyQuery.SetAssetTypeFilter | Classes/AssetSource/PixxioAssetProxyQuery.php:86-89 | only the type filter changes and the getter returns it |
| AssetSources.PixxioAssetProxyQuery.SetAssetCollectionFilter | Classes/AssetSource/PixxioAssetProxyRepository.php:136 | only the collection filter changes |
| AssetSources.PixxioAssetProxyQuery.SetOrderings | Classes/AssetSource/PixxioAssetProxyQuery.php:101-104 | only the orderings change and the getter returns them |
| AssetSources.PixxioAssetProxyQuery.SendSearchRequest | Classes/AssetSource/PixxioAssetProxyQuery.php:170-190 | the client is obtained and searched with the type table's format and file types, the query's term, offset and the given limit and orderings, and no collection filter |
| AssetSources.PixxioAssetProxyQuery.Count | Classes/AssetSource/PixxioAssetProxyQuery.php:111-129 | one search with limit 1 and no orderings, read as `CountFromReply` describes |
| AssetSources.PixxioAssetProxyQuery.GetArrayResult | Classes/AssetSource/PixxioAssetProxyQuery.php:134-163 | one search with the query's limit and orderings, then the listing loop; result and cache are as `ArrayResultOf` describes |
| AssetSources.Indexed | Classes/AssetSource/PixxioAssetProxyQueryResult.php:61 | the iterator over the loaded list has key `i` for element `i` |
| AssetSources.IndexOfKey | Classes/AssetSource/PixxioAssetProxyQueryResult.php:121-137 | a key is found exactly when some iterator entry holds it |
| AssetSources.NextFreeKey | Classes/AssetSource/PixxioAssetProxyQueryResult.php:133-137 | an appended entry gets a key above every present key |
| AssetSources.PixxioAssetProxyQueryResult.constructor | Classes/AssetSource/PixxioAssetProxyQueryResult.php:49-52 | a new result holds its query and has loaded nothing and counted nothing |
| AssetSources.PixxioAssetProxyQueryResult.Initialize | Classes/AssetSource/PixxioAssetProxyQueryResult.php:57-63 | a loaded result changes nothing and sends nothing; otherwise one `getArrayResult`, whose list is loaded and iterated from its start |
| AssetSources.PixxioAssetProxyQueryResult.GetQuery | Classes/AssetSource/PixxioAssetProxyQueryResult.php:68-71 | a fresh copy of the query with the same fields |
| AssetSources.PixxioAssetProxyQueryResult.ToArray | Classes/AssetSource/PixxioAssetProxyQueryResult.php:85-89 | a loaded result returns its list and changes and sends nothing; on a fresh one the query's array result is returned, and when it succeeds it is loaded and iterated from its start; a fresh load appends exactly the query's search requests to the log and leaves the proxy cache as the array result filled it, and a loaded result sends nothing and leaves the cache alone |
| AssetSources.PixxioAssetProxyQueryResult.GetFirst | Classes/AssetSource/PixxioAssetProxyQueryResult.php:76-80 | the first proxy of the list loaded before, with nothing changed or sent, or on a fresh result of the query's array result, which is then loaded; a loaded non-empty list always gives its first proxy; an empty list is the `TypeError` of `false`; a failed load is its error; a fresh load appends exactly the query's search requests to the log and leaves the proxy cache as the array result filled it, and a loaded result sends nothing and leaves the cache alone |
| AssetSources.PixxioAssetProxyQueryResult.Count | Classes/AssetSource/PixxioAssetProxyQueryResult.php:147-158 | a memoised count is returned as it is; otherwise the loaded list's length, else the query's count, which is then memoised; only that last case sends a request, the query's count request |
| AssetSources.PixxioAssetProxyQueryResult.Current | Classes/AssetSource/PixxioAssetProxyQueryResult.php:91-95 | the proxy at the iterator position, none past the end; a loaded result changes nothing; on a fresh result the query's array result is loaded first and iterated from its start, or its error is returned; a fresh load appends exactly the query's search requests to the log and leaves the proxy cache as the array result filled it, and a loaded result sends nothing and leaves the cache alone |
| AssetSources.PixxioAssetProxyQueryResult.Key | Classes/AssetSource/PixxioAssetProxyQueryResult.php:103-107 | the key at the iterator position, none past the end; a loaded result changes nothing; on a fresh result the query's array result is loaded first and iterated from its start, or its error is returned; a fresh load appends exactly the query's search requests to the log and leaves the proxy cache as the array result filled it, and a loaded result sends nothing and leaves the cache alone |
| AssetSources.PixxioAssetProxyQueryResult.Next | Classes/AssetSource/PixxioAssetProxyQueryResult.php:97-101 | the position moves one step, never past the end; on a fresh result the query's array result is loaded and the position is 1 after its first entry (0 for an empty list), or its error is returned; a fresh load appends exactly the query's search requests to the log and leaves the proxy cache as the array result filled it, and a loaded result sends nothing and leaves the cache alone |
| AssetSources.PixxioAssetProxyQueryResult.IsValidPosition | Classes/AssetSource/PixxioAssetProxyQueryResult.php:109-113 | the position is valid exactly when it is before the end; a loaded result changes nothing; on a fresh result the query's array result is loaded first and iterated from its start, or its error is returned; a fresh load appends exactly the query's search requests to the log and leaves the proxy cache as the array result filled it, and a loaded result sends nothing and leaves the cache alone |
| AssetSources.PixxioAssetProxyQueryResult.Rewind | Classes/AssetSource/PixxioAssetProxyQueryResult.php:115-119 | the position goes back to the start over the same entries; on a fresh result the query's array result is loaded first and iterated from its start, or its error is returned; a fresh load appends exactly the query's search requests to the log and leaves the proxy cache as the array result filled it, and a loaded result sends nothing and leaves the cache alone |
| AssetSources.PixxioAssetProxyQueryResult.Iterate | Classes/AssetSource/PixxioAssetProxyQueryResult.php:91-119 | a `foreach` over the result (`rewind`, then `current` and `next` while `valid`) visits exactly the iterator's entries in order; on a fresh result exactly the query's array result, or its error; a fresh load appends exactly the query's search requests to the log and leaves the proxy cache as the array result filled it, and a loaded result sends nothing and leaves the cache alone |
| AssetSources.PixxioAssetProxyQueryResult.VisitRest | Classes/AssetSource/PixxioAssetProxyQueryResult.php:91-113 | the `current`/`next` loop visits the entries from the position on, in order, and leaves the list and the entries alone |
| AssetSources.EntryValues | Classes/AssetSource/PixxioAssetProxyQueryResult.php:91-95 | the proxies of the iterator entries, in order |
| AssetSources.PixxioAssetProxyQueryResult.OffsetExists | Classes/AssetSource/PixxioAssetProxyQueryResult.php:121-125 | an offset exists exactly when some iterator entry has that key; a loaded result changes nothing; on a fresh result the query's array result is loaded first and iterated from its start, or its error is returned; a fresh load appends exactly the query's search requests to the log and leaves the proxy cache as the array result filled it, and a loaded result sends nothing and leaves the cache alone |
| AssetSources.PixxioAssetProxyQueryResult.OffsetGet | Classes/AssetSource/PixxioAssetProxyQueryResult.php:127-131 | the entry under the offset, none when there is none; a loaded result changes nothing; on a fresh result the query's array result is loaded first and iterated from its start, or its error is returned; a fresh load appends exactly the query's search requests to the log and leaves the proxy cache as the array result filled it, and a loaded result sends nothing and leaves the cache alone |
| AssetSources.PixxioAssetProxyQueryResult.OffsetSet | Classes/AssetSource/PixxioAssetProxyQueryResult.php:133-137 | the entry under the key is replaced, or a new one is appended (under the next free key when none is given); a fresh load appends exactly the query's search requests to the log and leaves the proxy cache as the array result filled it, and a loaded result sends nothing and leaves the cache alone |
| AssetSources.PixxioAssetProxyQueryResult.OffsetUnset | Classes/AssetSource/PixxioAssetProxyQueryResult.php:139-141 | nothing changes |
| AutoTagging.CreatedTagsShape | Classes/AssetSource/PixxioAutoTagger.php:72-81 | the tags sent have no duplicates; with usage they are the tags and the in-use tag, without usage the tags other than the in-use tag |
| AutoTagging.CreatedTagsKeepFirstOccurrenceOrder | Classes/AssetSource/PixxioAutoTagger.php:73-79 | the tags sent keep first-occurrence order |
| AutoTagging.CreatedTagsStable | Classes/AssetSource/PixxioAutoTagger.php:72-81 | tagging the tags sent again sends the same list |
| AutoTagging.CreatedKeywordsReadBack | Classes/AssetSource/PixxioAutoTagger.php:72-81 | the keywords sent read back as the list sent, unless the list is empty, which reads back as one empty tag |
| AutoTagging.InUseTagHasNoComma | Classes/AssetSource/PixxioAssetSource.php:167 | the configured in-use tag holds no keyword separator |
| AutoTagging.PixxioAutoTagger.InitializeObject | Classes/AssetSource/PixxioAutoTagger.php:36-39 | the registry of asset sources is stored |
| AutoTagging.PixxioAutoTagger.TaggingSource | Classes/AssetSource/PixxioAutoTagger.php:55-66 | tagging happens only through a registered pixx.io source with a pixx.io proxy and tagging enabled |
| AutoTagging.PixxioAutoTagger.RegisterCreatedAsset | Classes/AssetSource/PixxioAutoTagger.php:46-87 | an unregistered source does nothing; a failed proxy lookup escapes; another source or proxy sends nothing; tagging disabled sends nothing and is the `TypeError` of `getLabel()` exactly when the proxy has no label; otherwise one unconditional update with the computed tags; package exceptions are swallowed |
| AutoTagging.PixxioAutoTagger.RegisterRemovedAsset | Classes/AssetSource/PixxioAutoTagger.php:96-100 | nothing changes |
| PixxioCommands.ExamineCases | Classes/Command/PixxioCommandController.php:57-77 | an asset is considered exactly when it is a Neos asset of this source with a pixx.io proxy; a lookup error other than access denied aborts; everything else is skipped |
| PixxioCommands.CommandTagsShape | Classes/Command/PixxioCommandController.php:79-95 | the new tags are sorted and duplicate-free; with usage the tags and the in-use tag, without usage the tags other than the in-use tag |
| PixxioCommands.CommandNoUpdateIff | Classes/Command/PixxioCommandController.php:85-98 | no update is needed exactly when the tags are duplicate-free and hold the in-use tag exactly when the asset is used |
| PixxioCommands.CommandTagsIdempotent | Classes/Command/PixxioCommandController.php:79-101 | a second run over the new tags computes them again and sends no update |
| PixxioCommands.CommandAgreesWithAutoTagger | Classes/Command/PixxioCommandController.php:79-95 | the command's tags are the auto-tagger's tags, sorted |
| PixxioCommands.SettledAssetIsKept | Classes/Command/PixxioCommandController.php:85-101 | an asset whose tags are already the computed ones is not updated; a used one whose proxy has no identifier ends the run with the `TypeError` of the `getIdentifier()` its "(tagged)" line prints |
| PixxioCommands.TagActions | Classes/Command/PixxioCommandController.php:56-104 | one action per asset |
| PixxioCommands.TagActionsAt | Classes/Command/PixxioCommandController.php:56-104 | action `i` is the action for asset `i` |
| PixxioCommands.TagRunSendsNeededUpdates | Classes/Command/PixxioCommandController.php:56-104 | the run sends a prefix of the needed updates, and all of them when it completes |
| PixxioCommands.TagRunCompletes | Classes/Command/PixxioCommandController.php:56-104 | the run completes exactly when no asset aborts it (a lookup exception, or a missing identifier where one is sent or printed) and every update is received |
| PixxioCommands.SettledRunSendsNothing | Classes/Command/PixxioCommandController.php:85-101 | a run where every asset is skipped or settled sends nothing |
| PixxioCommands.TagRunStep | Classes/Command/PixxioCommandController.php:56-104 | the run is its first step followed by the run of the rest, unless that step fails |
| PixxioCommands.TagAsset | Classes/Command/PixxioCommandController.php:57-103 | one loop turn sends the updates and gives the failure its action describes, including the `TypeError` of a missing identifier at the update or the "(tagged)" line |
| PixxioCommands.TagAt | Classes/Command/PixxioCommandController.php:56-104 | one loop turn advances the run by the asset at position `i` |
| PixxioCommands.TagAssets | Classes/Command/PixxioCommandController.php:55-104 | the loop sends what `TagRun` describes and passes its failure on |
| PixxioCommands.TagUsedAssets | Classes/Command/PixxioCommandController.php:37-105 | a missing configuration is a type error; a configuration or credential error sends nothing more; disabled tagging stops after authentication; otherwise the cache is flushed and the run of all assets is sent |
| PixxioCommands.RefreshAsWrittenMisplacesCopyright | Classes/Command/PixxioCommandController.php:170-174 | as written, a changed copyright notice overwrites the title and the copyright stays stale, so every later run reports a change |
| PixxioCommands.RefreshAsWrittenExample | Classes/Command/PixxioCommandController.php:170-174 | title "Sunset" and copyright "ACME" against a blank asset give the title "ACME" |
| PixxioCommands.RefreshCopiesProxyMetadata | Classes/Command/PixxioCommandController.php:153-179 | the corrected refresh copies the proxy's metadata, reports a change exactly when it differed, and a second refresh changes nothing |
| PixxioCommands.MetadataOf | Classes/Command/PixxioCommandController.php:128 | the metadata of each asset, in order |
| PixxioCommands.Outcomes | Classes/Command/PixxioCommandController.php:128-180 | one outcome per asset |
| PixxioCommands.OutcomesAt | Classes/Command/PixxioCommandController.php:128-180 | outcome `i` is the outcome for asset `i` |
| PixxioCommands.JoinAssociative | Classes/Command/PixxioCommandController.php:128-180 | joining run segments is associative |
| PixxioCommands.MetadataRun | Classes/Command/PixxioCommandController.php:128-180 | the run visits at most the remaining assets, and all of them when it does not stop |
| PixxioCommands.MetadataRunHalts | Classes/Command/PixxioCommandController.php:139-144 | a failed lookup stops the run with its error |
| PixxioCommands.MetadataRunAdvance | Classes/Command/PixxioCommandController.php:128-180 | a visited asset is one step followed by the run of the rest |
| PixxioCommands.VisitedOutcome | Classes/Command/PixxioCommandController.php:153-179 | a visited asset gets the refreshed metadata, and is modified exactly when it was stale |
| PixxioCommands.MetadataRunRefreshes | Classes/Command/PixxioCommandController.php:153-175 | a completed run leaves every asset with its refreshed metadata |
| PixxioCommands.MetadataRunReportsUpdates | Classes/Command/PixxioCommandController.php:176-179 | a completed run reports updates exactly when some asset was stale |
| PixxioCommands.MetadataRunStops | Classes/Command/PixxioCommandController.php:139-151 | the run completes exactly when no asset stops it (a lookup exception, or unless `quiet` a proxy without identifier); otherwise it stops at the first such asset with its error |
| PixxioCommands.CopyProxyMetadata | Classes/Command/PixxioCommandController.php:153-179 | the asset gets the refreshed metadata and is passed to `update` exactly when it changed |
| PixxioCommands.RefreshAsset | Classes/Command/PixxioCommandController.php:129-179 | one loop turn stops with the lookup error or, unless `quiet`, the `TypeError` of a missing identifier, and otherwise refreshes the asset as its outcome describes |
| PixxioCommands.RefreshAt | Classes/Command/PixxioCommandController.php:128-180 | one loop turn advances the run by the asset at position `i` |
| PixxioCommands.RefreshMetadata | Classes/Command/PixxioCommandController.php:126-180 | the loop, with or without `quiet`, leaves the assets and the repository as `MetadataRun` describes, and reports its failure or whether anything was updated |
| PixxioCommands.UpdateMetadata | Classes/Command/PixxioCommandController.php:113-187 | a missing configuration is a type error and a configuration error stops; otherwise the cache is flushed and the metadata run over all assets is performed, with the given `quiet` |

## Left out

- HTTP transport: Guzzle, request bodies and streams, status codes and `getImportStream`. Each call is one answer of a fixed remote oracle, so the model does not capture retries, timing or a remote whose answers change.
- JSON encoding and decoding, the construction of the endpoint URI and query-string encoding: they are uninterpreted helpers, and only the round trip a lemma needs is assumed (`JsonCodecSound`).
- AssetProxies.FromJsonObject: `lastModified` is kept as the text `new \DateTime` would parse. A `modifyDate` it cannot parse throws a plain `\Exception`, which escapes `getArrayResult`'s package-only catch and `getAssetProxy`; the model maps every record. The derivative paths and `originalPath` are likewise kept as the raw text handed to `new Uri(...)`: the PHP normalises them, and a path `Uri` refuses throws `MalformedUriException` (an `InvalidArgumentException`), which escapes the same catches, while the model maps the record.
- `sha1`, `urlize`, `urlencode` and the `MediaTypes` tables: they are uninterpreted helpers.
- Logging, console output and the `exit(1)` of `tagUsedAssetsCommand`. The exit is the `AutoTaggingDisabled` outcome. The `getIdentifier()` calls inside printed lines, and the proxy's `getLabel()` in the auto-tagger's debug line for disabled tagging, are modelled, since a missing identifier or label throws there.
- `Classes/Controller/PixxioController.php`: it is a backend module of views, redirects and persistence calls.
- `Classes/Domain/Model/ClientSecret.php` and `Classes/Domain/Repository/ClientSecretRepository.php`: a client secret is a map from account identifier to refresh token.
- `Classes/Service/PixxioServiceFactory.php`: the client is built directly from endpoint, API key and client options.
- `Classes/Package.php`: the signal wiring is not modelled.
- Migrations: database schema only.
- `getIconUri`, `getImportStream` and `getLocalAssetIdentifier`: framework resource resolution, streaming and the imported-asset registry.
- `PixxioAssetProxyQuery::execute`: it only wraps the query in a result (the `NewResult` helper of the repository).
- The `shouldBeImportedAsAssetCollection` behaviour in the unit test: neither the command controller nor the asset source implements it.
- How Neos resolves `getAssetProxy()` for a stored asset: each asset carries the outcome as a value (`NeosMedia.ProxyLookup`).
- PixxioCommands.TagUsedAssets and PixxioCommands.UpdateMetadata: the proxy-cache writes and the API requests made by each asset's `getAssetProxy()` lookup are not modelled, because the lookup is a value (`NeosMedia.ProxyLookup`). The empty proxy cache and the request log these two state after the run therefore describe the flush before the loop and the requests the loop itself sends; in the PHP the lookups may refill the cache and add requests.
- The expiry and tagging of cache entries: the cache is a plain map.
- Concurrency: two runs of a command, or a command beside the auto-tagger, are not modelled.
- PixxioService.PaginationNamesPageOfOffset: covers `limit > 0` and `offset >= 0`. Other signs use `TruncatedQuotient`, but no page-naming property is stated for them.
- PixxioService.Pagination: the float division `$offset / $limit` is exact in the model. Floating-point rounding for offsets beyond 2^53 is not captured.
- AssetSources.CountFromReply: `quantity` is taken as an integer. PHP's `(int)` conversion of a non-integer `quantity` is not modelled.
- AssetSources.FileReplyClassification: a JSON float status (403.0) and numeric strings of float form (`"403.0"`, `"4.03e2"`), which PHP's loose `case 403` also matches, are not modelled, because `Value` has no floats.
- TagLists.SortStrings: `sort` is byte-wise lexicographic. PHP's default comparison treats two numeric strings as numbers, which is not modelled.
- TagLists.Without: tags are removed by string equality. `array_flip` would turn numeric-string tags into integer keys, which is not modelled. In the command's untag branch (`Classes/Command/PixxioCommandController.php:91-96`) the double flip turns such a tag into an integer, so the strict `!==` always holds and the PHP sends an update on every run for an unused asset carrying one; PixxioCommands.CommandNoUpdateIff and PixxioCommands.SettledRunSendsNothing do not hold for such tags.
- SourceConfiguration.SanitizeTag: works on code points. How `preg_replace` with `/u` treats invalid UTF-8 (it returns `null`) is not modelled.
- AssetSources.PixxioAssetProxyQueryResult.OffsetSet: iterator keys are integers. `ArrayIterator`'s string keys are not modelled.
- PixxioCommands.RefreshMetadata and PixxioCommands.UpdateMetadata: require the assets to be distinct objects. `findAllIterator` yields each stored asset once.
- PixxioCommands.TagUsedAssets and PixxioCommands.UpdateMetadata: iterate over the given assets. Whether the list holds every asset is Neos's `findAllIterator`, not modelled.

## Findings

| source | as written | input that shows it | evidently intended | confidence | as-written member | corrected member |
|---|---|---|---|---|---|---|
| Classes/Command/PixxioCommandController.php:172 | a copyright notice that differs from the asset's is stored with `setTitle` | a proxy with title "Sunset" and copyright notice "ACME", and an asset whose title, caption and copyright are all `''`: the asset ends with the title "ACME" and no copyright notice, and every later run reports the asset as updated again | `setCopyrightNotice($newCopyrightNotice)` | not executed | PixxioCommands.RefreshAsWritten (see RefreshAsWrittenMisplacesCopyright, RefreshAsWrittenExample) | PixxioCommands.Refresh (see RefreshCopiesProxyMetadata, used by CopyProxyMetadata and UpdateMetadata) |
