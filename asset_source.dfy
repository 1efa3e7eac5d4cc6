/**
 * The asset source with its lazily created client and repository, the
 * repository with its identifier-keyed cache, the search query and the lazy
 * query result. The classes refer to each other, so they share one module.
 *
 * The repository and the query share one string cache; the client talks to
 * the remote API through the source's `Transport`.
 */
module AssetSources {
  import opened Wrappers
  import opened PhpStrings
  import opened PhpValues
  import opened PixxioApi
  import opened Externals
  import opened AssetProxies
  import opened PixxioService
  import opened SourceConfiguration

  // ---------------------------------------------------------------------
  // The asset proxy cache

  /** A string cache frontend: entries by identifier. */
  class StringCache {
    var entries: map<string, string>

    constructor()
      ensures entries == map[]
    {
      entries := map[];
    }

    /** `get`: the stored string, or `None` (PHP `false`) for a missing entry. */
    function Get(key: string): (r: Option<string>)
      reads this
      ensures r.Some? <==> key in entries
      ensures r.Some? ==> r.value == entries[key]
    {
      if key in entries then Some(entries[key]) else None
    }

    method Set(key: string, value: string)
      modifies this
      ensures entries == old(entries)[key := value]
    {
      entries := entries[key := value];
    }

    method Flush()
      modifies this
      ensures entries == map[]
    {
      entries := map[];
    }
  }

  /** `if ($cacheEntry)`: an entry is used only when present and not PHP-falsy. */
  predicate IsHit(entries: map<string, string>, key: string) {
    key in entries && !IsEmptyString(entries[key])
  }

  // ---------------------------------------------------------------------
  // Replies

  /** `search` hands the decoded body back; a transport failure is a connection error. */
  function SearchReplyOutcome(o: HttpOutcome<SearchBody>): (r: Result<SearchBody, PixxioError>)
    ensures r.Err? <==> o.TransportFailure?
    ensures r.Err? ==> r.error == ConnectionFailed("Search failed: " + o.message)
    ensures r.Ok? ==> r.value == o.body
  {
    match o
    case Received(body) => Ok(body)
    case TransportFailure(m) => Err(ConnectionFailed("Search failed: " + m))
  }

  /** `getAssetProxy`'s checks of a fetched reply: not an object, or no `success` of "true". */
  function ClassifyFileReply(body: FileBody): Result<JsonAsset, PixxioError> {
    match body
    case NotAnObject => Err(AssetNotFound)
    case FileObject(a) =>
      if a.success == Some(Str("true")) then Ok(a)
      else if LooselyEqualsNonZero(a.status.GetOr(Null), 403) then Err(AccessToAssetDenied)
      else Err(AssetNotFound)
  }

  /** The record `getAssetProxy` maps after a fetch, or why it fails. */
  function FetchedRecord(o: HttpOutcome<FileBody>): Result<JsonAsset, PixxioError> {
    match o
    case TransportFailure(m) => Err(ConnectionFailed("Retrieving file failed: " + m))
    case Received(body) => ClassifyFileReply(body)
  }

  /**
   * The three-way classification: a record is accepted only with `success`
   * the string "true"; otherwise a status loosely equal to 403 (the integer,
   * a numeric string of that value, or `true`) means access denied and
   * anything else not found.
   */
  lemma FileReplyClassification(body: FileBody)
    ensures ClassifyFileReply(body).Ok? <==> body.FileObject? && body.asset.success == Some(Str("true"))
    ensures ClassifyFileReply(body).Ok? ==> ClassifyFileReply(body).value == body.asset
    ensures ClassifyFileReply(body) == Err(AccessToAssetDenied) <==>
            body.FileObject? && body.asset.success != Some(Str("true")) &&
            (body.asset.status == Some(Int(403)) || body.asset.status == Some(Bool(true)) ||
             (body.asset.status.Some? && body.asset.status.value.Str? &&
              IntegerStringValue(body.asset.status.value.s) == Some(403)))
    ensures ClassifyFileReply(body).Err? ==> ClassifyFileReply(body).error in {AssetNotFound, AccessToAssetDenied}
  {
  }

  /** `case 403` also takes padded, signed and zero-led numeric strings, but not a leading-numeric one. */
  lemma LooseStatusExamples()
    ensures LooselyEqualsNonZero(Str("0403"), 403) && LooselyEqualsNonZero(Str(" +403\n"), 403)
    ensures !LooselyEqualsNonZero(Str("403abc"), 403)
  {
    ZeroLedValue();
    PaddedValue();
    LeadingNumericValue();
  }

  /** A zero-led integer string reads as its value. */
  lemma ZeroLedValue()
    ensures IntegerStringValue("0403") == Some(403)
  {
    assert TrimNumericWhitespace("0403") == "0403";
    assert AllDigits("0403");
    assert "0403"[..3] == "040" && "040"[..2] == "04" && "04"[..1] == "0" && "0"[..0] == "";
  }

  /** White space around a signed integer string is ignored. */
  lemma PaddedValue()
    ensures IntegerStringValue(" +403\n") == Some(403)
  {
    assert TrimNumericWhitespace(" +403\n") == "+403" by {
      assert " +403\n"[1..] == "+403\n" && "+403\n"[..4] == "+403";
    }
    assert "+403"[1..] == "403" && AllDigits("403");
    assert "403"[..2] == "40" && "40"[..1] == "4" && "4"[..0] == "";
  }

  /** Trailing letters make a string non-numeric. */
  lemma LeadingNumericValue()
    ensures IntegerStringValue("403abc") == None
  {
    assert TrimNumericWhitespace("403abc") == "403abc";
    assert !IsDigit("403abc"[3]);
  }

  /** Decoding a cache entry: malformed text (or a non-object) is not mapped. */
  function ProxyFromCacheEntry(entry: string, options: seq<(string, Value)>, lib: Library): Result<PixxioAssetProxy, PixxioError> {
    match lib.decode(entry)
    case None => Err(MalformedCacheEntry)
    case Some(a) => Ok(FromJsonObject(a, options, lib))
  }

  /**
   * What `getAssetProxy` writes on a successful fetch is a hit that maps to
   * the same proxy as the fetched record, so the cache is transparent.
   */
  lemma CacheEntryMapsLikeFetchedRecord(a: JsonAsset, options: seq<(string, Value)>, lib: Library)
    requires JsonCodecSound(lib)
    ensures forall key :: IsHit(map[key := lib.encodeForced(a)], key)
    ensures ProxyFromCacheEntry(lib.encodeForced(a), options, lib) == Ok(FromJsonObject(a, options, lib))
  {
    ForcedObjectMapsAlike(a, options, lib);
  }

  // ---------------------------------------------------------------------
  // The listing loop of `getArrayResult`

  /** The proxies, the cache afterwards, and the error that stopped the loop, if any. */
  datatype Listing = Listing(proxies: seq<PixxioAssetProxy>, entries: map<string, string>, failure: Option<PixxioError>)

  /** `sha1((string)$rawAsset->id)`; a missing id converts to "". */
  function CacheKey(rec: JsonAsset, lib: Library): string {
    lib.sha1(rec.id.GetOr(""))
  }

  function Prepend(p: PixxioAssetProxy, l: Listing): Listing {
    l.(proxies := [p] + l.proxies)
  }

  /**
   * The loop over `files`: a hit is decoded and mapped (malformed text stops
   * the loop), a miss stores the raw record and maps it.
   */
  function ListFiles(files: seq<JsonAsset>, entries: map<string, string>, toProxy: JsonAsset -> PixxioAssetProxy, lib: Library): Listing
    decreases |files|
  {
    if |files| == 0 then Listing([], entries, None)
    else
      var key := CacheKey(files[0], lib);
      if IsHit(entries, key) then
        match lib.decode(entries[key])
        case None => Listing([], entries, Some(MalformedCacheEntry))
        case Some(cached) => Prepend(toProxy(cached), ListFiles(files[1..], entries, toProxy, lib))
      else
        Prepend(toProxy(files[0]),
                ListFiles(files[1..], entries[key := lib.encode(files[0])], toProxy, lib))
  }

  /** The result `getArrayResult` returns from a listing. */
  function ListingResult(l: Listing): Result<seq<PixxioAssetProxy>, PixxioError> {
    if l.failure.Some? then Err(l.failure.value) else Ok(l.proxies)
  }

  /**
   * A completed listing has one proxy per file; the only way it stops early
   * is a malformed cache entry.
   */
  lemma {:induction false} ListingLength(files: seq<JsonAsset>, entries: map<string, string>, toProxy: JsonAsset -> PixxioAssetProxy, lib: Library)
    ensures ListFiles(files, entries, toProxy, lib).failure.None? ==> |ListFiles(files, entries, toProxy, lib).proxies| == |files|
    ensures ListFiles(files, entries, toProxy, lib).failure.Some? ==> ListFiles(files, entries, toProxy, lib).failure == Some(MalformedCacheEntry)
    decreases |files|
  {
    if |files| > 0 {
      var key := CacheKey(files[0], lib);
      if IsHit(entries, key) {
        ListingLength(files[1..], entries, toProxy, lib);
      } else {
        ListingLength(files[1..], entries[key := lib.encode(files[0])], toProxy, lib);
      }
    }
  }

  /** No key of any file: the listing neither adds nor changes it. */
  ghost predicate KeyOfNoFile(files: seq<JsonAsset>, lib: Library, k: string) {
    forall i :: 0 <= i < |files| ==> CacheKey(files[i], lib) != k
  }

  /**
   * The listing only adds entries, never rewrites a hit, and leaves alone
   * every key that is not the key of one of the files.
   */
  lemma {:induction false} ListingKeepsHits(files: seq<JsonAsset>, entries: map<string, string>, toProxy: JsonAsset -> PixxioAssetProxy, lib: Library)
    ensures var out := ListFiles(files, entries, toProxy, lib).entries;
            (forall k :: k in entries ==> k in out) &&
            (forall k :: IsHit(entries, k) ==> out[k] == entries[k]) &&
            (forall k :: KeyOfNoFile(files, lib, k) ==> (k in out <==> k in entries) && (k in out ==> out[k] == entries[k]))
    decreases |files|
  {
    if |files| > 0 {
      var key := CacheKey(files[0], lib);
      var next := if IsHit(entries, key) then entries else entries[key := lib.encode(files[0])];
      ListingKeepsHits(files[1..], next, toProxy, lib);
      forall k | KeyOfNoFile(files, lib, k)
        ensures KeyOfNoFile(files[1..], lib, k) && k != key
      {
        assert CacheKey(files[0], lib) != k;
        forall i | 0 <= i < |files[1..]|
          ensures CacheKey(files[1..][i], lib) != k
        {
          assert files[1..][i] == files[i + 1];
        }
      }
    }
  }

  /** The listing maps each file to its record's proxy, in order. */
  ghost predicate MapsEach(files: seq<JsonAsset>, l: Listing, toProxy: JsonAsset -> PixxioAssetProxy, lib: Library) {
    l.failure.None? && |l.proxies| == |files| &&
    forall i :: 0 <= i < |files| ==> l.proxies[i] == toProxy(files[i])
  }

  /** The cache holds each file's record under its key. */
  ghost predicate StoresEach(files: seq<JsonAsset>, out: map<string, string>, lib: Library) {
    forall i :: 0 <= i < |files| ==> CacheKey(files[i], lib) in out && out[CacheKey(files[i], lib)] == lib.encode(files[i])
  }

  ghost predicate DistinctKeys(files: seq<JsonAsset>, lib: Library) {
    forall i, j :: 0 <= i < j < |files| ==> CacheKey(files[i], lib) != CacheKey(files[j], lib)
  }

  lemma DistinctKeysOfTail(files: seq<JsonAsset>, lib: Library)
    requires |files| > 0 && DistinctKeys(files, lib)
    ensures DistinctKeys(files[1..], lib) && KeyOfNoFile(files[1..], lib, CacheKey(files[0], lib))
  {
    forall i, j | 0 <= i < j < |files[1..]|
      ensures CacheKey(files[1..][i], lib) != CacheKey(files[1..][j], lib)
    {
      assert files[1..][i] == files[i + 1] && files[1..][j] == files[j + 1];
    }
    forall i | 0 <= i < |files[1..]|
      ensures CacheKey(files[1..][i], lib) != CacheKey(files[0], lib)
    {
      assert files[1..][i] == files[i + 1];
    }
  }

  /**
   * With no file's key in the cache (as after a flush) and pairwise
   * different keys, every file is a miss: the proxies are the mapped records
   * in order, and the cache afterwards holds each record under its key.
   */
  lemma {:induction false} ListingFromEmptyCache(files: seq<JsonAsset>, entries: map<string, string>, toProxy: JsonAsset -> PixxioAssetProxy, lib: Library)
    requires DistinctKeys(files, lib)
    requires forall i :: 0 <= i < |files| ==> CacheKey(files[i], lib) !in entries
    ensures MapsEach(files, ListFiles(files, entries, toProxy, lib), toProxy, lib)
    ensures StoresEach(files, ListFiles(files, entries, toProxy, lib).entries, lib)
    decreases |files|
  {
    if |files| > 0 {
      var key := CacheKey(files[0], lib);
      var next := entries[key := lib.encode(files[0])];
      DistinctKeysOfTail(files, lib);
      forall i | 0 <= i < |files[1..]|
        ensures CacheKey(files[1..][i], lib) !in next
      {
        assert files[1..][i] == files[i + 1];
      }
      ListingFromEmptyCache(files[1..], next, toProxy, lib);
      ListingKeepsHits(files[1..], next, toProxy, lib);
      var rest := ListFiles(files[1..], next, toProxy, lib);
      var l := ListFiles(files, entries, toProxy, lib);
      assert l == Prepend(toProxy(files[0]), rest);
      forall i | 1 <= i < |files|
        ensures l.proxies[i] == toProxy(files[i])
        ensures CacheKey(files[i], lib) in l.entries && l.entries[CacheKey(files[i], lib)] == lib.encode(files[i])
      {
        assert files[1..][i - 1] == files[i];
      }
    }
  }

  /**
   * Listing the same files again over the cache the first listing left gives
   * the same proxies and leaves the cache as it is: every file is then a hit
   * on the entry the first listing used for it.
   */
  lemma {:induction false} ListingIsIdempotent(files: seq<JsonAsset>, entries: map<string, string>, after: map<string, string>,
                                               toProxy: JsonAsset -> PixxioAssetProxy, lib: Library)
    requires JsonCodecSound(lib)
    requires ListFiles(files, entries, toProxy, lib).failure.None?
    requires after == ListFiles(files, entries, toProxy, lib).entries
    ensures ListFiles(files, after, toProxy, lib) == Listing(ListFiles(files, entries, toProxy, lib).proxies, after, None)
    decreases |files|
  {
    if |files| > 0 {
      var key := CacheKey(files[0], lib);
      if IsHit(entries, key) {
        ListingKeepsHits(files[1..], entries, toProxy, lib);
        ListingIsIdempotent(files[1..], entries, after, toProxy, lib);
      } else {
        var next := entries[key := lib.encode(files[0])];
        assert IsHit(next, key);
        ListingKeepsHits(files[1..], next, toProxy, lib);
        ListingIsIdempotent(files[1..], next, after, toProxy, lib);
      }
    }
  }

  /** `getArrayResult` after the search: package exceptions and a missing `files` give `[]`. */
  function ArrayResultOf(reply: Result<SearchBody, PixxioError>, entries: map<string, string>,
                         toProxy: JsonAsset -> PixxioAssetProxy, lib: Library): (Result<seq<PixxioAssetProxy>, PixxioError>, map<string, string>)
  {
    match reply
    case Err(e) => (if IsPackageException(e) then Ok([]) else Err(e), entries)
    case Ok(body) =>
      if body.files.None? then (Ok([]), entries)
      else
        var l := ListFiles(body.files.value, entries, toProxy, lib);
        (ListingResult(l), l.entries)
  }

  /**
   * The fallbacks of `getArrayResult`: no error of the package's own escapes,
   * and without `files` the result is empty and the cache untouched.
   */
  lemma ArrayResultFallbacks(reply: Result<SearchBody, PixxioError>, entries: map<string, string>,
                             toProxy: JsonAsset -> PixxioAssetProxy, lib: Library)
    ensures var (r, out) := ArrayResultOf(reply, entries, toProxy, lib);
            (r.Err? ==> !IsPackageException(r.error)) &&
            (reply.Err? ==> out == entries && (r.Ok? <==> IsPackageException(reply.error)) && (r.Ok? ==> r.value == [])) &&
            (reply.Ok? && reply.value.files.None? ==> r == Ok([]) && out == entries) &&
            (reply.Ok? && reply.value.files.Some? && r.Ok? ==> |r.value| == |reply.value.files.value|)
  {
    if reply.Ok? && reply.value.files.Some? {
      ListingLength(reply.value.files.value, entries, toProxy, lib);
    }
  }

  /** The proxies listed so far, followed by the listing of the remaining files. */
  function Combine(done: seq<PixxioAssetProxy>, rest: Listing): Listing {
    rest.(proxies := done + rest.proxies)
  }

  /** One step of the listing, from position `i` on. */
  lemma ListFilesStep(files: seq<JsonAsset>, i: nat, entries: map<string, string>, done: seq<PixxioAssetProxy>,
                      toProxy: JsonAsset -> PixxioAssetProxy, lib: Library)
    requires i < |files|
    ensures var key := CacheKey(files[i], lib);
            var here := Combine(done, ListFiles(files[i..], entries, toProxy, lib));
            if !IsHit(entries, key) then
              here == Combine(done + [toProxy(files[i])], ListFiles(files[i + 1..], entries[key := lib.encode(files[i])], toProxy, lib))
            else if lib.decode(entries[key]).None? then
              here == Listing(done, entries, Some(MalformedCacheEntry))
            else
              here == Combine(done + [toProxy(lib.decode(entries[key]).value)], ListFiles(files[i + 1..], entries, toProxy, lib))
  {
    assert files[i..][0] == files[i];
    assert files[i..][1..] == files[i + 1..];
    assert done + [] == done;
    forall p: PixxioAssetProxy, ps: seq<PixxioAssetProxy>
      ensures done + ([p] + ps) == (done + [p]) + ps
    {
    }
  }

  /** The loop of `getArrayResult` over the cache. */
  method ListInto(cache: StringCache, files: seq<JsonAsset>, toProxy: JsonAsset -> PixxioAssetProxy, lib: Library)
    returns (r: Result<seq<PixxioAssetProxy>, PixxioError>)
    modifies cache
    ensures var l := ListFiles(files, old(cache.entries), toProxy, lib);
            r == ListingResult(l) && cache.entries == l.entries
  {
    ghost var whole := ListFiles(files, cache.entries, toProxy, lib);
    var proxies: seq<PixxioAssetProxy> := [];
    var i := 0;
    assert files[0..] == files;
    assert Combine([], whole) == whole;
    while i < |files|
      invariant 0 <= i <= |files|
      invariant whole == Combine(proxies, ListFiles(files[i..], cache.entries, toProxy, lib))
    {
      ListFilesStep(files, i, cache.entries, proxies, toProxy, lib);
      var rec := files[i];
      var key := lib.sha1(rec.id.GetOr(""));
      var entry := cache.Get(key);
      if entry.Some? && !IsEmptyString(entry.value) {
        var cached := lib.decode(entry.value);
        if cached.None? {
          return Err(MalformedCacheEntry);
        }
        proxies := proxies + [toProxy(cached.value)];
      } else {
        cache.Set(key, lib.encode(rec));
        proxies := proxies + [toProxy(rec)];
      }
      i := i + 1;
    }
    assert files[i..] == [];
    assert proxies + [] == proxies;
    return Ok(proxies);
  }

  /** `count` after the search: the quantity, or 0 on a missing quantity or a failed connection. */
  function CountFromReply(reply: Result<SearchBody, PixxioError>): Result<int, PixxioError> {
    match reply
    case Err(e) => if e.AuthenticationFailed? || e.ConnectionFailed? then Ok(0) else Err(e)
    case Ok(body) => if body.quantity.Some? then Ok(body.quantity.value) else Ok(0)
  }

  /**
   * `count` falls back to 0 exactly on a missing quantity and on the two
   * exceptions it catches; other errors (a missing client secret, type
   * errors) escape.
   */
  lemma CountFallsBackToZero(reply: Result<SearchBody, PixxioError>)
    ensures CountFromReply(reply).Err? <==> reply.Err? && !reply.error.AuthenticationFailed? && !reply.error.ConnectionFailed?
    ensures CountFromReply(reply).Err? ==> CountFromReply(reply).error == reply.error
    ensures reply.Ok? && reply.value.quantity.Some? ==> CountFromReply(reply) == Ok(reply.value.quantity.value)
    ensures reply.Ok? && reply.value.quantity.None? ==> CountFromReply(reply) == Ok(0)
    ensures reply.Err? && (reply.error.AuthenticationFailed? || reply.error.ConnectionFailed?) ==> CountFromReply(reply) == Ok(0)
  {
  }

  /** `sendSearchRequest`'s table from the type filter to the format type and the file types. */
  function TypeFilterOptions(filter: string): (r: (string, seq<string>))
    ensures r.1 != [] <==> filter == "Document"
    ensures r.1 != [] ==> r == ("", [".pdf"])
    ensures r.0 != "" <==> filter in {"Image", "Video", "Audio"}
    ensures filter == "Image" ==> r == ("image", [])
    ensures filter == "Video" ==> r == ("video", [])
    ensures filter == "Audio" ==> r == ("audio", [])
    ensures filter !in {"Image", "Video", "Audio", "Document"} ==> r == ("", [])
  {
    if filter == "Image" then ("image", [])
    else if filter == "Video" then ("video", [])
    else if filter == "Audio" then ("audio", [])
    else if filter == "Document" then ("", [".pdf"])
    else ("", [])
  }

  /** The client's constructor arguments: a missing endpoint or key is `null` passed to a `string` parameter. */
  function ClientArguments(s: Settings): (r: Result<(string, string), PixxioError>)
    ensures r.Ok? <==> s.apiEndpointUri.Some? && s.apiKey.Some?
    ensures r.Ok? ==> r.value == (s.apiEndpointUri.value, s.apiKey.value)
  {
    if s.apiEndpointUri.None? then Err(TypeError("apiEndpointUri is null"))
    else if s.apiKey.None? then Err(TypeError("apiKey is null"))
    else Ok((s.apiEndpointUri.value, s.apiKey.value))
  }

  // ---------------------------------------------------------------------
  // The asset source

  /**
   * The token a source without a client obtains: the credentials, the
   * client's constructor arguments, then the authentication reply.
   */
  function Authentication(settings: Settings, securityContext: SecurityContext, clientSecrets: map<string, string>,
                          remote: Remote): (r: Result<string, PixxioError>)
    ensures r.Ok? ==> ClientArguments(settings).Ok? && SelectCredentials(settings.sharedRefreshToken, securityContext, clientSecrets).Ok?
    ensures SelectCredentials(settings.sharedRefreshToken, securityContext, clientSecrets).Err? ==>
            r == Err(SelectCredentials(settings.sharedRefreshToken, securityContext, clientSecrets).error)
  {
    var credentials := SelectCredentials(settings.sharedRefreshToken, securityContext, clientSecrets);
    var arguments := ClientArguments(settings);
    if credentials.Err? then Err(credentials.error)
    else if arguments.Err? then Err(arguments.error)
    else AuthenticationOutcome(remote.accessToken(AuthenticationRequests(settings, securityContext, clientSecrets)[0]))
  }

  /** The token request of a new client: none when the credentials or the arguments fail. */
  function AuthenticationRequests(settings: Settings, securityContext: SecurityContext, clientSecrets: map<string, string>): (r: seq<Request>)
    ensures |r| <= 1
    ensures |r| == 1 <==> SelectCredentials(settings.sharedRefreshToken, securityContext, clientSecrets).Ok? && ClientArguments(settings).Ok?
    ensures |r| == 1 ==> r[0].AccessTokenRequest? &&
                         r[0].refreshToken == SelectCredentials(settings.sharedRefreshToken, securityContext, clientSecrets).value.refreshToken
  {
    var credentials := SelectCredentials(settings.sharedRefreshToken, securityContext, clientSecrets);
    var arguments := ClientArguments(settings);
    if credentials.Err? || arguments.Err? then []
    else [AccessTokenRequest(arguments.value.0 + "/json/accessToken", arguments.value.1, credentials.value.refreshToken)]
  }

  class PixxioAssetSource {
    const settings: Settings
    const lib: Library
    const transport: Transport
    /** Neos's security context and the stored client secrets (account identifier to refresh token). */
    const securityContext: SecurityContext
    const clientSecrets: map<string, string>
    const assetProxyCache: StringCache
    var pixxioClient: PixxioClient?
    var assetProxyRepository: PixxioAssetProxyRepository?

    /** A stored client uses this source's transport and configuration; a stored repository belongs to this source. */
    predicate Valid()
      reads this, pixxioClient, assetProxyRepository
    {
      (pixxioClient != null ==>
         pixxioClient.transport == transport &&
         ClientArguments(settings) == Ok((pixxioClient.apiEndpointUri, pixxioClient.apiKey)) &&
         pixxioClient.apiClientOptions == settings.apiClientOptions &&
         pixxioClient.imageOptions == ImageOptionsWithFallback([])) &&
      (assetProxyRepository != null ==> assetProxyRepository.assetSource == this)
    }

    constructor(settings: Settings, lib: Library, transport: Transport, securityContext: SecurityContext,
                clientSecrets: map<string, string>, assetProxyCache: StringCache)
      ensures this.settings == settings && this.lib == lib && this.transport == transport
      ensures this.securityContext == securityContext && this.clientSecrets == clientSecrets
      ensures this.assetProxyCache == assetProxyCache
      ensures pixxioClient == null && assetProxyRepository == null
      ensures Valid()
    {
      this.settings := settings;
      this.lib := lib;
      this.transport := transport;
      this.securityContext := securityContext;
      this.clientSecrets := clientSecrets;
      this.assetProxyCache := assetProxyCache;
      pixxioClient := null;
      assetProxyRepository := null;
    }

    /** `createFromConfiguration`: the constructor's checks, then a source without client or repository. */
    static method CreateFromConfiguration(identifier: string, options: seq<(string, Value)>, lib: Library,
                                          transport: Transport, securityContext: SecurityContext,
                                          clientSecrets: map<string, string>, assetProxyCache: StringCache)
      returns (r: Result<PixxioAssetSource, ConfigError>)
      ensures Configure(identifier, options, lib).Err? ==> r == Err(Configure(identifier, options, lib).error)
      ensures Configure(identifier, options, lib).Ok? ==>
              r.Ok? && fresh(r.value) && r.value.Valid() &&
              r.value.settings == Configure(identifier, options, lib).value &&
              r.value.lib == lib && r.value.transport == transport && r.value.assetProxyCache == assetProxyCache &&
              r.value.securityContext == securityContext && r.value.clientSecrets == clientSecrets &&
              r.value.pixxioClient == null && r.value.assetProxyRepository == null &&
              r.value.GetIdentifier() == identifier && IdentifierMatches(identifier) &&
              r.value.GetAssetSourceOptions() == options
    {
      var settings := ValidateOptions(identifier, options, lib);
      if settings.Err? {
        return Err(settings.error);
      }
      ConfiguredIdentity(identifier, options, lib);
      var source := new PixxioAssetSource(settings.value, lib, transport, securityContext, clientSecrets, assetProxyCache);
      return Ok(source);
    }

    function GetIdentifier(): string {
      settings.assetSourceIdentifier
    }

    /** The label and the read-only flag are fixed. */
    function GetLabel(): (r: string)
      ensures r == "pixx.io"
    {
      "pixx.io"
    }

    function IsReadOnly(): (r: bool)
      ensures r
    {
      true
    }

    function GetAssetSourceOptions(): seq<(string, Value)> {
      settings.assetSourceOptions
    }

    predicate IsAutoTaggingEnabled() {
      settings.autoTaggingEnable
    }

    function GetAutoTaggingInUseTag(): string {
      settings.autoTaggingInUseTag
    }

    /** `getDescription(): string`: a scalar description is converted, null or an array is a type error. */
    function GetDescription(): (r: Result<string, PixxioError>)
      ensures r.Err? <==> settings.description.Null? || settings.description.Arr?
      ensures settings.description.Str? ==> r == Ok(settings.description.s)
    {
      match settings.description
      case Null => Err(TypeError("getDescription() returned null"))
      case Arr(_) => Err(TypeError("getDescription() returned an array"))
      case _ => Ok(ToText(settings.description))
    }

    /**
     * The outcome `getPixxioClient` has from this state: the access token
     * (as it goes into query strings) or the error.
     */
    ghost function Acquisition(): (r: Result<string, PixxioError>)
      requires Valid()
      reads this, pixxioClient, assetProxyRepository
      ensures r.Ok? ==> ClientArguments(settings).Ok?
    {
      if pixxioClient != null then Ok(pixxioClient.TokenText())
      else Authentication(settings, securityContext, clientSecrets, transport.remote)
    }

    /** The requests `getPixxioClient` sends from this state: the token request of a new client, or none. */
    ghost function AcquisitionRequests(): seq<Request>
      reads this
    {
      if pixxioClient != null then [] else AuthenticationRequests(settings, securityContext, clientSecrets)
    }

    /**
     * `getPixxioClient`: the first call selects the credentials, creates the
     * client, stores it and then authenticates it; every later call returns
     * the stored client and sends nothing, even when the first
     * authentication failed.
     */
    method GetPixxioClient() returns (r: Result<PixxioClient, PixxioError>)
      requires Valid()
      modifies this, transport
      ensures Valid() && assetProxyRepository == old(assetProxyRepository)
      ensures transport.sent == old(transport.sent) + old(AcquisitionRequests())
      ensures r.Err? <==> old(Acquisition()).Err?
      ensures r.Err? ==> r.error == old(Acquisition()).error
      ensures r.Ok? ==> pixxioClient == r.value && r.value.TokenText() == old(Acquisition()).value
      ensures old(pixxioClient) != null ==> pixxioClient == old(pixxioClient) && unchanged(pixxioClient)
      ensures old(pixxioClient) == null && r.Err? && r.error.AuthenticationFailed? ==>
              pixxioClient != null && fresh(pixxioClient) && pixxioClient.accessToken.None?
      ensures old(pixxioClient) == null && r.Err? && !r.error.AuthenticationFailed? ==> pixxioClient == null
      ensures pixxioClient != null ==> old(pixxioClient) != null || fresh(pixxioClient)
    {
      if pixxioClient != null {
        var client: PixxioClient := pixxioClient;
        return Ok(client);
      }
      var credentials := SelectCredentials(settings.sharedRefreshToken, securityContext, clientSecrets);
      if credentials.Err? {
        return Err(credentials.error);
      }
      var arguments := ClientArguments(settings);
      if arguments.Err? {
        return Err(arguments.error);
      }
      var client := new PixxioClient(transport, arguments.value.0, arguments.value.1, settings.apiClientOptions, []);
      pixxioClient := client;
      var authenticated := client.Authenticate(credentials.value.refreshToken);
      if authenticated.Err? {
        return Err(authenticated.error);
      }
      return Ok(client);
    }

    /** `getAssetProxyRepository`: created on the first call, the same object afterwards. */
    method GetAssetProxyRepository() returns (r: PixxioAssetProxyRepository)
      requires Valid()
      modifies this
      ensures Valid() && pixxioClient == old(pixxioClient) && assetProxyRepository == r
      ensures old(assetProxyRepository) != null ==> r == old(assetProxyRepository) && unchanged(r)
      ensures old(assetProxyRepository) == null ==>
              fresh(r) && r.assetSource == this && r.assetTypeFilter == "All" &&
              r.assetCollectionFilter.None? && r.orderings == []
    {
      if assetProxyRepository != null {
        return assetProxyRepository;
      }
      r := new PixxioAssetProxyRepository(this);
      assetProxyRepository := r;
    }

    /** The request for one file with the token `getPixxioClient` yields. */
    function FileRequestWith(token: string, identifier: string): Request
      requires ClientArguments(settings).Ok?
    {
      GetFileRequest(ClientArguments(settings).value.0 + "/json/files/" + identifier, token,
                     FileOptions(ImageOptionsWithFallback([]), Fields))
    }

    /** The search request for the given query fields with the token `getPixxioClient` yields. */
    function SearchRequestWith(token: string, searchTerm: string, assetTypeFilter: string,
                               offset: int, limit: int, orderings: seq<(string, Value)>): Request
      requires ClientArguments(settings).Ok? && limit != 0
    {
      var (formatType, fileTypes) := TypeFilterOptions(assetTypeFilter);
      SearchRequest(ClientArguments(settings).value.0 + "/json/files", token,
                    SearchOptionsFor(ImageOptionsWithFallback([]), lib.urlencode, searchTerm, formatType, fileTypes,
                                     None, offset, limit, orderings))
    }

    /** What `sendSearchRequest` yields from this state for the given query fields. */
    ghost function SearchReply(searchTerm: string, assetTypeFilter: string,
                               offset: int, limit: int, orderings: seq<(string, Value)>): Result<SearchBody, PixxioError>
      requires Valid()
      reads this, pixxioClient, assetProxyRepository
    {
      var acquired := Acquisition();
      if acquired.Err? then Err(acquired.error)
      else if limit == 0 then Err(DivisionByZero)
      else SearchReplyOutcome(transport.remote.search(SearchRequestWith(acquired.value, searchTerm, assetTypeFilter, offset, limit, orderings)))
    }

    /** The requests `sendSearchRequest` sends from this state. */
    ghost function SearchRequests(searchTerm: string, assetTypeFilter: string,
                                  offset: int, limit: int, orderings: seq<(string, Value)>): seq<Request>
      requires Valid()
      reads this, pixxioClient, assetProxyRepository
    {
      var acquired := Acquisition();
      AcquisitionRequests() +
      if acquired.Err? || limit == 0 then []
      else [SearchRequestWith(acquired.value, searchTerm, assetTypeFilter, offset, limit, orderings)]
    }
  }

  // ---------------------------------------------------------------------
  // The repository

  class PixxioAssetProxyRepository {
    const assetSource: PixxioAssetSource
    var assetCollectionFilter: Option<string>
    var assetTypeFilter: string
    var orderings: seq<(string, Value)>

    constructor(assetSource: PixxioAssetSource)
      ensures this.assetSource == assetSource
      ensures assetTypeFilter == "All" && assetCollectionFilter.None? && orderings == []
    {
      this.assetSource := assetSource;
      assetCollectionFilter := None;
      assetTypeFilter := "All";
      orderings := [];
    }

    /** `getAssetProxyCache`: the cache shared with the source's queries. */
    function GetAssetProxyCache(): StringCache {
      assetSource.assetProxyCache
    }

    /**
     * `getAssetProxy`: after `getPixxioClient`, a hit on `sha1(identifier)`
     * is mapped without a request; otherwise the file is fetched, checked,
     * and only an accepted record is stored (object-forced) before mapping.
     */
    method GetAssetProxy(identifier: string) returns (r: Result<PixxioAssetProxy, PixxioError>)
      requires assetSource.Valid()
      modifies assetSource, assetSource.transport, assetSource.assetProxyCache
      ensures assetSource.Valid() && assetSource.assetProxyRepository == old(assetSource.assetProxyRepository)
      ensures var acquired := old(assetSource.Acquisition());
              var key := assetSource.lib.sha1(identifier);
              var before := old(assetSource.assetProxyCache.entries);
              var options := assetSource.settings.assetSourceOptions;
              if acquired.Err? then
                r == Err(acquired.error) && assetSource.assetProxyCache.entries == before &&
                assetSource.transport.sent == old(assetSource.transport.sent) + old(assetSource.AcquisitionRequests())
              else if IsHit(before, key) then
                r == ProxyFromCacheEntry(before[key], options, assetSource.lib) &&
                assetSource.assetProxyCache.entries == before &&
                assetSource.transport.sent == old(assetSource.transport.sent) + old(assetSource.AcquisitionRequests())
              else
                var request := assetSource.FileRequestWith(acquired.value, identifier);
                var fetched := FetchedRecord(assetSource.transport.remote.getFile(request));
                assetSource.transport.sent == old(assetSource.transport.sent) + old(assetSource.AcquisitionRequests()) + [request] &&
                (fetched.Err? ==> r == Err(fetched.error) && assetSource.assetProxyCache.entries == before) &&
                (fetched.Ok? ==> r == Ok(FromJsonObject(fetched.value, options, assetSource.lib)) &&
                                 assetSource.assetProxyCache.entries == before[key := assetSource.lib.encodeForced(fetched.value)])
    {
      var client := assetSource.GetPixxioClient();
      if client.Err? {
        return Err(client.error);
      }
      var lib := assetSource.lib;
      var options := assetSource.settings.assetSourceOptions;
      var key := lib.sha1(identifier);
      var entry := assetSource.assetProxyCache.Get(key);
      if entry.Some? && !IsEmptyString(entry.value) {
        return ProxyFromCacheEntry(entry.value, options, lib);
      }
      var reply := client.value.GetFile(identifier);
      if reply.Err? {
        return Err(reply.error);
      }
      var checked := ClassifyFileReply(reply.value);
      if checked.Err? {
        return Err(checked.error);
      }
      assetSource.assetProxyCache.Set(key, lib.encodeForced(checked.value));
      return Ok(FromJsonObject(checked.value, options, lib));
    }

    /** `filterByType`: `(string)$assetType ?: 'All'`, so null, "" and "0" select all types. */
    method FilterByType(assetType: Option<string>)
      modifies this
      ensures assetTypeFilter == if IsEmptyString(assetType.GetOr("")) then "All" else assetType.value
      ensures assetCollectionFilter == old(assetCollectionFilter) && orderings == old(orderings)
    {
      var text := assetType.GetOr("");
      assetTypeFilter := if IsEmptyString(text) then "All" else text;
    }

    /** `filterByCollection`: the collection's title, or none. */
    method FilterByCollection(collectionTitle: Option<string>)
      modifies this
      ensures assetCollectionFilter == collectionTitle
      ensures assetTypeFilter == old(assetTypeFilter) && orderings == old(orderings)
    {
      assetCollectionFilter := collectionTitle;
    }

    /** `orderBy`: replaces the orderings wholesale. */
    method OrderBy(orderings: seq<(string, Value)>)
      modifies this
      ensures this.orderings == orderings
      ensures assetTypeFilter == old(assetTypeFilter) && assetCollectionFilter == old(assetCollectionFilter)
    {
      this.orderings := orderings;
    }

    /** A new query carrying the repository's filters and orderings, wrapped in a fresh result. */
    method NewResult(searchTerm: string) returns (r: PixxioAssetProxyQueryResult)
      ensures fresh(r) && fresh(r.query) && r.query.assetSource == assetSource
      ensures r.query.searchTerm == searchTerm && r.query.assetTypeFilter == assetTypeFilter
      ensures r.query.assetCollectionFilter == assetCollectionFilter && r.query.orderings == orderings
      ensures r.query.offset == 0 && r.query.limit == 30
      ensures r.assetProxies.None? && r.numberOfAssetProxies.None?
    {
      var query := new PixxioAssetProxyQuery(assetSource);
      query.SetSearchTerm(searchTerm);
      query.SetAssetTypeFilter(assetTypeFilter);
      query.SetAssetCollectionFilter(assetCollectionFilter);
      query.SetOrderings(orderings);
      r := new PixxioAssetProxyQueryResult(query);
    }

    /** `findAll` and `findUntagged`: no search term. */
    method FindAll() returns (r: PixxioAssetProxyQueryResult)
      ensures fresh(r) && fresh(r.query) && r.query.assetSource == assetSource
      ensures r.query.searchTerm == "" && r.query.assetTypeFilter == assetTypeFilter
      ensures r.query.assetCollectionFilter == assetCollectionFilter && r.query.orderings == orderings
      ensures r.query.offset == 0 && r.query.limit == 30
      ensures r.assetProxies.None? && r.numberOfAssetProxies.None?
    {
      r := NewResult("");
    }

    method FindUntagged() returns (r: PixxioAssetProxyQueryResult)
      ensures fresh(r) && fresh(r.query) && r.query.assetSource == assetSource
      ensures r.query.searchTerm == "" && r.query.assetTypeFilter == assetTypeFilter
      ensures r.query.assetCollectionFilter == assetCollectionFilter && r.query.orderings == orderings
      ensures r.query.offset == 0 && r.query.limit == 30
      ensures r.assetProxies.None? && r.numberOfAssetProxies.None?
    {
      r := NewResult("");
    }

    method FindBySearchTerm(searchTerm: string) returns (r: PixxioAssetProxyQueryResult)
      ensures fresh(r) && fresh(r.query) && r.query.assetSource == assetSource
      ensures r.query.searchTerm == searchTerm && r.query.assetTypeFilter == assetTypeFilter
      ensures r.query.assetCollectionFilter == assetCollectionFilter && r.query.orderings == orderings
      ensures r.query.offset == 0 && r.query.limit == 30
      ensures r.assetProxies.None? && r.numberOfAssetProxies.None?
    {
      r := NewResult(searchTerm);
    }

    /** `findByTag`: searches for the tag's label. */
    method FindByTag(tagLabel: string) returns (r: PixxioAssetProxyQueryResult)
      ensures fresh(r) && fresh(r.query) && r.query.assetSource == assetSource
      ensures r.query.searchTerm == tagLabel && r.query.assetTypeFilter == assetTypeFilter
      ensures r.query.assetCollectionFilter == assetCollectionFilter && r.query.orderings == orderings
      ensures r.query.offset == 0 && r.query.limit == 30
      ensures r.assetProxies.None? && r.numberOfAssetProxies.None?
    {
      r := NewResult(tagLabel);
    }

    /** `countAll`: the count of a fresh query, which ignores the repository's filters and orderings. */
    method CountAll() returns (r: Result<int, PixxioError>)
      requires assetSource.Valid()
      modifies assetSource, assetSource.transport
      ensures assetSource.Valid() && assetSource.assetProxyRepository == old(assetSource.assetProxyRepository)
      ensures r == CountFromReply(old(assetSource.SearchReply("", "All", 0, 1, [])))
      ensures assetSource.transport.sent == old(assetSource.transport.sent) + old(assetSource.SearchRequests("", "All", 0, 1, []))
    {
      var query := new PixxioAssetProxyQuery(assetSource);
      r := query.Count();
    }
  }

  // ---------------------------------------------------------------------
  // The query

  class PixxioAssetProxyQuery {
    const assetSource: PixxioAssetSource
    var searchTerm: string
    var assetTypeFilter: string
    /** Set by the repository; `sendSearchRequest` does not pass it on. */
    var assetCollectionFilter: Option<string>
    var orderings: seq<(string, Value)>
    var offset: int
    var limit: int

    constructor(assetSource: PixxioAssetSource)
      ensures this.assetSource == assetSource
      ensures searchTerm == "" && assetTypeFilter == "All" && assetCollectionFilter.None?
      ensures orderings == [] && offset == 0 && limit == 30
    {
      this.assetSource := assetSource;
      searchTerm := "";
      assetTypeFilter := "All";
      assetCollectionFilter := None;
      orderings := [];
      offset := 0;
      limit := 30;
    }

    function GetOffset(): int reads this { offset }
    function GetLimit(): int reads this { limit }
    function GetSearchTerm(): string reads this { searchTerm }
    function GetAssetTypeFilter(): string reads this { assetTypeFilter }
    function GetOrderings(): seq<(string, Value)> reads this { orderings }

    /** The query's fields as a tuple, to state that a setter changes only its own. */
    function Fields(): (string, string, Option<string>, seq<(string, Value)>, int, int)
      reads this
    {
      (searchTerm, assetTypeFilter, assetCollectionFilter, orderings, offset, limit)
    }

    method SetOffset(offset: int)
      modifies this
      ensures GetOffset() == offset && Fields() == old(Fields()).(4 := offset)
    {
      this.offset := offset;
    }

    method SetLimit(limit: int)
      modifies this
      ensures GetLimit() == limit && Fields() == old(Fields()).(5 := limit)
    {
      this.limit := limit;
    }

    method SetSearchTerm(searchTerm: string)
      modifies this
      ensures GetSearchTerm() == searchTerm && Fields() == old(Fields()).(0 := searchTerm)
    {
      this.searchTerm := searchTerm;
    }

    method SetAssetTypeFilter(assetTypeFilter: string)
      modifies this
      ensures GetAssetTypeFilter() == assetTypeFilter && Fields() == old(Fields()).(1 := assetTypeFilter)
    {
      this.assetTypeFilter := assetTypeFilter;
    }

    method SetAssetCollectionFilter(assetCollectionFilter: Option<string>)
      modifies this
      ensures Fields() == old(Fields()).(2 := assetCollectionFilter)
    {
      this.assetCollectionFilter := assetCollectionFilter;
    }

    method SetOrderings(orderings: seq<(string, Value)>)
      modifies this
      ensures GetOrderings() == orderings && Fields() == old(Fields()).(3 := orderings)
    {
      this.orderings := orderings;
    }

    /** What `sendSearchRequest($limit, $orderings)` yields from this state. */
    ghost function SearchReplyFor(limit: int, orderings: seq<(string, Value)>): Result<SearchBody, PixxioError>
      requires assetSource.Valid()
      reads this, assetSource, assetSource.pixxioClient, assetSource.assetProxyRepository
    {
      assetSource.SearchReply(searchTerm, assetTypeFilter, offset, limit, orderings)
    }

    ghost function SearchRequestsFor(limit: int, orderings: seq<(string, Value)>): seq<Request>
      requires assetSource.Valid()
      reads this, assetSource, assetSource.pixxioClient, assetSource.assetProxyRepository
    {
      assetSource.SearchRequests(searchTerm, assetTypeFilter, offset, limit, orderings)
    }

    /** What `getArrayResult` yields from this state, with the cache it leaves. */
    ghost function ArrayResult(): (Result<seq<PixxioAssetProxy>, PixxioError>, map<string, string>)
      requires assetSource.Valid()
      reads this, assetSource, assetSource.pixxioClient, assetSource.assetProxyRepository, assetSource.assetProxyCache
    {
      ArrayResultOf(SearchReplyFor(limit, orderings), assetSource.assetProxyCache.entries,
                    (rec => FromJsonObject(rec, assetSource.settings.assetSourceOptions, assetSource.lib)), assetSource.lib)
    }

    /** `sendSearchRequest`: the type table, the client, then its `search`. */
    method SendSearchRequest(limit: int, orderings: seq<(string, Value)>) returns (r: Result<SearchBody, PixxioError>)
      requires assetSource.Valid()
      modifies assetSource, assetSource.transport
      ensures assetSource.Valid() && assetSource.assetProxyRepository == old(assetSource.assetProxyRepository)
      ensures r == old(SearchReplyFor(limit, orderings))
      ensures assetSource.transport.sent == old(assetSource.transport.sent) + old(SearchRequestsFor(limit, orderings))
    {
      var client := assetSource.GetPixxioClient();
      if client.Err? {
        return Err(client.error);
      }
      var (formatType, fileTypes) := TypeFilterOptions(assetTypeFilter);
      r := client.value.Search(assetSource.lib.urlencode, searchTerm, formatType, fileTypes, None, offset, limit, orderings);
    }

    /** `count`: one result requested, no orderings. */
    method Count() returns (r: Result<int, PixxioError>)
      requires assetSource.Valid()
      modifies assetSource, assetSource.transport
      ensures assetSource.Valid() && assetSource.assetProxyRepository == old(assetSource.assetProxyRepository)
      ensures r == CountFromReply(old(SearchReplyFor(1, [])))
      ensures assetSource.transport.sent == old(assetSource.transport.sent) + old(SearchRequestsFor(1, []))
    {
      var reply := SendSearchRequest(1, []);
      if reply.Err? {
        if reply.error.AuthenticationFailed? || reply.error.ConnectionFailed? {
          return Ok(0);
        }
        return Err(reply.error);
      }
      if reply.value.quantity.None? {
        return Ok(0);
      }
      return Ok(reply.value.quantity.value);
    }

    /** `getArrayResult`: the search, then the cache loop over `files`. */
    method GetArrayResult() returns (r: Result<seq<PixxioAssetProxy>, PixxioError>)
      requires assetSource.Valid()
      modifies assetSource, assetSource.transport, assetSource.assetProxyCache
      ensures assetSource.Valid() && assetSource.assetProxyRepository == old(assetSource.assetProxyRepository)
      ensures (r, assetSource.assetProxyCache.entries) == old(ArrayResult())
      ensures assetSource.transport.sent == old(assetSource.transport.sent) + old(SearchRequestsFor(limit, orderings))
    {
      var reply := SendSearchRequest(limit, orderings);
      if reply.Err? {
        if IsPackageException(reply.error) {
          return Ok([]);
        }
        return Err(reply.error);
      }
      if reply.value.files.None? {
        return Ok([]);
      }
      r := ListInto(assetSource.assetProxyCache, reply.value.files.value,
                    (rec => FromJsonObject(rec, assetSource.settings.assetSourceOptions, assetSource.lib)), assetSource.lib);
    }
  }

  // ---------------------------------------------------------------------
  // The query result

  /** The entries of an `ArrayIterator` over a list: keys 0, 1, ... */
  function Indexed(list: seq<PixxioAssetProxy>): (r: seq<(int, PixxioAssetProxy)>)
    ensures |r| == |list| && forall i :: 0 <= i < |list| ==> r[i] == (i, list[i])
  {
    seq(|list|, i requires 0 <= i < |list| => (i, list[i]))
  }

  /** The proxies of the iterator entries, in order. */
  function EntryValues(entries: seq<(int, PixxioAssetProxy)>): (r: seq<PixxioAssetProxy>)
    ensures |r| == |entries| && forall i :: 0 <= i < |entries| ==> r[i] == entries[i].1
  {
    seq(|entries|, i requires 0 <= i < |entries| => entries[i].1)
  }

  /** The first index holding `key`, if any. */
  function IndexOfKey(entries: seq<(int, PixxioAssetProxy)>, key: int): (r: Option<nat>)
    ensures r.Some? ==> r.value < |entries| && entries[r.value].0 == key
    ensures r.None? ==> forall i :: 0 <= i < |entries| ==> entries[i].0 != key
    decreases |entries|
  {
    if |entries| == 0 then None
    else if entries[|entries| - 1].0 == key then
      match IndexOfKey(entries[..|entries| - 1], key)
      case Some(i) => Some(i)
      case None => Some(|entries| - 1)
    else IndexOfKey(entries[..|entries| - 1], key)
  }

  /** The key an append (`offsetSet(null, ...)`) gets: one above the largest key, 0 when empty. */
  function NextFreeKey(entries: seq<(int, PixxioAssetProxy)>): (k: int)
    ensures forall i :: 0 <= i < |entries| ==> entries[i].0 < k
    decreases |entries|
  {
    if |entries| == 0 then 0
    else
      var rest := NextFreeKey(entries[..|entries| - 1]);
      if entries[|entries| - 1].0 + 1 > rest then entries[|entries| - 1].0 + 1 else rest
  }

  class PixxioAssetProxyQueryResult {
    const query: PixxioAssetProxyQuery
    /** `null` until loaded. */
    var assetProxies: Option<seq<PixxioAssetProxy>>
    var numberOfAssetProxies: Option<int>
    /** The iterator's own copy of the list and its position. */
    var iteratorEntries: seq<(int, PixxioAssetProxy)>
    var position: nat

    constructor(query: PixxioAssetProxyQuery)
      ensures this.query == query && assetProxies.None? && numberOfAssetProxies.None?
      ensures iteratorEntries == [] && position == 0
    {
      this.query := query;
      assetProxies := None;
      numberOfAssetProxies := None;
      iteratorEntries := [];
      position := 0;
    }

    predicate Valid()
      reads this, query, query.assetSource, query.assetSource.pixxioClient, query.assetSource.assetProxyRepository
    {
      query.assetSource.Valid() && (assetProxies.None? ==> iteratorEntries == [] && position == 0)
    }

    /** The loaded list, with the iterator at its start. */
    predicate LoadedFrom(list: seq<PixxioAssetProxy>)
      reads this
    {
      LoadedAt(list, 0)
    }

    /** The loaded list, with the iterator over it at the given position. */
    predicate LoadedAt(list: seq<PixxioAssetProxy>, at: nat)
      reads this
    {
      assetProxies == Some(list) && iteratorEntries == Indexed(list) && position == at
    }

    /**
     * `initialize`: the first successful call loads the query's array result
     * and starts the iterator over it; once loaded, nothing is requested again.
     */
    method Initialize() returns (r: Result<(), PixxioError>)
      requires Valid()
      modifies this, query.assetSource, query.assetSource.transport, query.assetSource.assetProxyCache
      ensures Valid() && numberOfAssetProxies == old(numberOfAssetProxies)
      ensures query.assetSource.assetProxyRepository == old(query.assetSource.assetProxyRepository)
      ensures old(assetProxies).Some? ==>
              r.Ok? && unchanged(this) && unchanged(query.assetSource) && unchanged(query.assetSource.transport) &&
              unchanged(query.assetSource.assetProxyCache)
      ensures old(assetProxies).None? ==>
              var (loaded, entries) := old(query.ArrayResult());
              query.assetSource.assetProxyCache.entries == entries &&
              query.assetSource.transport.sent ==
                old(query.assetSource.transport.sent) + old(query.SearchRequestsFor(query.limit, query.orderings)) &&
              (loaded.Ok? ==> r.Ok? && LoadedFrom(loaded.value)) &&
              (loaded.Err? ==> r == Err(loaded.error) && assetProxies.None? && iteratorEntries == [] && position == 0)
    {
      if assetProxies.Some? {
        return Ok(());
      }
      var loaded := query.GetArrayResult();
      if loaded.Err? {
        return Err(loaded.error);
      }
      assetProxies := Some(loaded.value);
      iteratorEntries := Indexed(loaded.value);
      position := 0;
      return Ok(());
    }

    /** `getQuery`: a copy of the query, not the stored one. */
    method GetQuery() returns (q: PixxioAssetProxyQuery)
      ensures fresh(q) && q.assetSource == query.assetSource && q.Fields() == query.Fields()
    {
      q := new PixxioAssetProxyQuery(query.assetSource);
      q.SetSearchTerm(query.searchTerm);
      q.SetAssetTypeFilter(query.assetTypeFilter);
      q.SetAssetCollectionFilter(query.assetCollectionFilter);
      q.SetOrderings(query.orderings);
      q.SetOffset(query.offset);
      q.SetLimit(query.limit);
    }

    /** `toArray`: the loaded list. */
    method ToArray() returns (r: Result<seq<PixxioAssetProxy>, PixxioError>)
      requires Valid()
      modifies this, query.assetSource, query.assetSource.transport, query.assetSource.assetProxyCache
      ensures Valid() && numberOfAssetProxies == old(numberOfAssetProxies)
      ensures old(assetProxies).None? ==>
              query.assetSource.transport.sent ==
                old(query.assetSource.transport.sent) + old(query.SearchRequestsFor(query.limit, query.orderings)) &&
              query.assetSource.assetProxyCache.entries == old(query.ArrayResult()).1
      ensures old(assetProxies).Some? ==>
              r == Ok(old(assetProxies).value) && unchanged(this) && unchanged(query.assetSource.transport) &&
              unchanged(query.assetSource.assetProxyCache)
      ensures old(assetProxies).None? ==> r == old(query.ArrayResult()).0
      ensures r.Ok? && old(assetProxies).None? ==> LoadedFrom(r.value)
      ensures r.Ok? ==> assetProxies == Some(r.value)
    {
      var loaded := Initialize();
      if loaded.Err? {
        return Err(loaded.error);
      }
      return Ok(assetProxies.value);
    }

    /** `getFirst`: the first loaded proxy; `reset` on an empty list gives `false`, which the return type refuses. */
    method GetFirst() returns (r: Result<PixxioAssetProxy, PixxioError>)
      requires Valid()
      modifies this, query.assetSource, query.assetSource.transport, query.assetSource.assetProxyCache
      ensures Valid() && numberOfAssetProxies == old(numberOfAssetProxies)
      ensures old(assetProxies).None? ==>
              query.assetSource.transport.sent ==
                old(query.assetSource.transport.sent) + old(query.SearchRequestsFor(query.limit, query.orderings)) &&
              query.assetSource.assetProxyCache.entries == old(query.ArrayResult()).1
      ensures old(assetProxies).Some? ==>
              unchanged(this) && unchanged(query.assetSource.transport) &&
              unchanged(query.assetSource.assetProxyCache)
      ensures old(assetProxies).None? && old(query.ArrayResult()).0.Ok? ==> LoadedFrom(old(query.ArrayResult()).0.value)
      ensures r.Ok? ==> assetProxies.Some? && |assetProxies.value| > 0 && r.value == assetProxies.value[0]
      ensures assetProxies.Some? && |assetProxies.value| > 0 ==> r == Ok(assetProxies.value[0])
      ensures assetProxies.Some? && |assetProxies.value| == 0 ==> r.Err? && r.error.TypeError?
      ensures old(assetProxies).None? && old(query.ArrayResult()).0.Err? ==> r == old(query.ArrayResult()).0.PropagateFailure()
    {
      var loaded := Initialize();
      if loaded.Err? {
        return Err(loaded.error);
      }
      var list := assetProxies.value;
      if |list| == 0 {
        return Err(TypeError("getFirst() returned false"));
      }
      return Ok(list[0]);
    }

    /** `count`: memoised; the loaded list's length, or else the query's count. */
    method Count() returns (r: Result<int, PixxioError>)
      requires Valid()
      modifies this, query.assetSource, query.assetSource.transport
      ensures Valid() && assetProxies == old(assetProxies)
      ensures iteratorEntries == old(iteratorEntries) && position == old(position)
      ensures old(numberOfAssetProxies).Some? ==>
              r == Ok(old(numberOfAssetProxies).value) && numberOfAssetProxies == old(numberOfAssetProxies) &&
              unchanged(query.assetSource.transport)
      ensures old(numberOfAssetProxies).None? && old(assetProxies).Some? ==>
              r == Ok(|old(assetProxies).value|) && unchanged(query.assetSource.transport)
      ensures old(numberOfAssetProxies).None? && old(assetProxies).None? ==>
              r == CountFromReply(old(query.SearchReplyFor(1, []))) &&
              query.assetSource.transport.sent == old(query.assetSource.transport.sent) + old(query.SearchRequestsFor(1, []))
      ensures r.Ok? ==> numberOfAssetProxies == Some(r.value)
      ensures r.Err? ==> numberOfAssetProxies.None?
    {
      if numberOfAssetProxies.None? {
        if assetProxies.Some? {
          numberOfAssetProxies := Some(|assetProxies.value|);
        } else {
          var counted := query.Count();
          if counted.Err? {
            return Err(counted.error);
          }
          numberOfAssetProxies := Some(counted.value);
        }
      }
      return Ok(numberOfAssetProxies.value);
    }

    /** `current`: the entry at the position, or null past the end. */
    method Current() returns (r: Result<Option<PixxioAssetProxy>, PixxioError>)
      requires Valid()
      modifies this, query.assetSource, query.assetSource.transport, query.assetSource.assetProxyCache
      ensures Valid() && numberOfAssetProxies == old(numberOfAssetProxies)
      ensures old(assetProxies).None? ==>
              query.assetSource.transport.sent ==
                old(query.assetSource.transport.sent) + old(query.SearchRequestsFor(query.limit, query.orderings)) &&
              query.assetSource.assetProxyCache.entries == old(query.ArrayResult()).1
      ensures old(assetProxies).Some? ==>
              r.Ok? && unchanged(this) && unchanged(query.assetSource.transport) &&
              unchanged(query.assetSource.assetProxyCache)
      ensures old(assetProxies).None? ==>
              var loaded := old(query.ArrayResult()).0;
              (loaded.Ok? ==> r.Ok? && LoadedAt(loaded.value, 0)) && (loaded.Err? ==> r.Err? && r.error == loaded.error)
      ensures r.Ok? ==> r.value == if position < |iteratorEntries| then Some(iteratorEntries[position].1) else None
    {
      var loaded := Initialize();
      if loaded.Err? {
        return Err(loaded.error);
      }
      if position < |iteratorEntries| {
        return Ok(Some(iteratorEntries[position].1));
      }
      return Ok(None);
    }

    /** `key`: the key at the position, or null past the end. */
    method Key() returns (r: Result<Option<int>, PixxioError>)
      requires Valid()
      modifies this, query.assetSource, query.assetSource.transport, query.assetSource.assetProxyCache
      ensures Valid() && numberOfAssetProxies == old(numberOfAssetProxies)
      ensures old(assetProxies).None? ==>
              query.assetSource.transport.sent ==
                old(query.assetSource.transport.sent) + old(query.SearchRequestsFor(query.limit, query.orderings)) &&
              query.assetSource.assetProxyCache.entries == old(query.ArrayResult()).1
      ensures old(assetProxies).Some? ==>
              r.Ok? && unchanged(this) && unchanged(query.assetSource.transport) &&
              unchanged(query.assetSource.assetProxyCache)
      ensures old(assetProxies).None? ==>
              var loaded := old(query.ArrayResult()).0;
              (loaded.Ok? ==> r.Ok? && LoadedAt(loaded.value, 0)) && (loaded.Err? ==> r.Err? && r.error == loaded.error)
      ensures r.Ok? ==> r.value == if position < |iteratorEntries| then Some(iteratorEntries[position].0) else None
    {
      var loaded := Initialize();
      if loaded.Err? {
        return Err(loaded.error);
      }
      if position < |iteratorEntries| {
        return Ok(Some(iteratorEntries[position].0));
      }
      return Ok(None);
    }

    /** `next`: one step on; the position stays at the end once there. */
    method Next() returns (r: Result<(), PixxioError>)
      requires Valid()
      modifies this, query.assetSource, query.assetSource.transport, query.assetSource.assetProxyCache
      ensures Valid() && numberOfAssetProxies == old(numberOfAssetProxies)
      ensures old(assetProxies).None? ==>
              query.assetSource.transport.sent ==
                old(query.assetSource.transport.sent) + old(query.SearchRequestsFor(query.limit, query.orderings)) &&
              query.assetSource.assetProxyCache.entries == old(query.ArrayResult()).1
      ensures old(assetProxies).Some? ==>
              r.Ok? && assetProxies == old(assetProxies) && iteratorEntries == old(iteratorEntries) &&
              position == (if old(position) < |old(iteratorEntries)| then old(position) + 1 else old(position)) &&
              unchanged(query.assetSource.transport) &&
              unchanged(query.assetSource.assetProxyCache)
      ensures old(assetProxies).None? ==>
              var loaded := old(query.ArrayResult()).0;
              (loaded.Ok? ==> r.Ok? && LoadedAt(loaded.value, if |loaded.value| > 0 then 1 else 0)) && (loaded.Err? ==> r.Err? && r.error == loaded.error)
      ensures r.Ok? ==> assetProxies.Some?
    {
      var loaded := Initialize();
      if loaded.Err? {
        return Err(loaded.error);
      }
      if position < |iteratorEntries| {
        position := position + 1;
      }
      return Ok(());
    }

    /** `valid`: whether the position holds an entry. */
    method IsValidPosition() returns (r: Result<bool, PixxioError>)
      requires Valid()
      modifies this, query.assetSource, query.assetSource.transport, query.assetSource.assetProxyCache
      ensures Valid() && numberOfAssetProxies == old(numberOfAssetProxies)
      ensures old(assetProxies).None? ==>
              query.assetSource.transport.sent ==
                old(query.assetSource.transport.sent) + old(query.SearchRequestsFor(query.limit, query.orderings)) &&
              query.assetSource.assetProxyCache.entries == old(query.ArrayResult()).1
      ensures old(assetProxies).Some? ==>
              r.Ok? && unchanged(this) && unchanged(query.assetSource.transport) &&
              unchanged(query.assetSource.assetProxyCache)
      ensures old(assetProxies).None? ==>
              var loaded := old(query.ArrayResult()).0;
              (loaded.Ok? ==> r.Ok? && LoadedAt(loaded.value, 0)) && (loaded.Err? ==> r.Err? && r.error == loaded.error)
      ensures r.Ok? ==> r.value == (position < |iteratorEntries|)
    {
      var loaded := Initialize();
      if loaded.Err? {
        return Err(loaded.error);
      }
      return Ok(position < |iteratorEntries|);
    }

    /** `rewind`: back to the first entry. */
    method Rewind() returns (r: Result<(), PixxioError>)
      requires Valid()
      modifies this, query.assetSource, query.assetSource.transport, query.assetSource.assetProxyCache
      ensures Valid() && numberOfAssetProxies == old(numberOfAssetProxies)
      ensures old(assetProxies).None? ==>
              query.assetSource.transport.sent ==
                old(query.assetSource.transport.sent) + old(query.SearchRequestsFor(query.limit, query.orderings)) &&
              query.assetSource.assetProxyCache.entries == old(query.ArrayResult()).1
      ensures old(assetProxies).Some? ==>
              r.Ok? && assetProxies == old(assetProxies) && iteratorEntries == old(iteratorEntries) &&
              unchanged(query.assetSource.transport) &&
              unchanged(query.assetSource.assetProxyCache)
      ensures old(assetProxies).None? ==>
              var loaded := old(query.ArrayResult()).0;
              (loaded.Ok? ==> r.Ok? && LoadedAt(loaded.value, 0)) && (loaded.Err? ==> r.Err? && r.error == loaded.error)
      ensures r.Ok? ==> assetProxies.Some? && position == 0
    {
      var loaded := Initialize();
      if loaded.Err? {
        return Err(loaded.error);
      }
      position := 0;
      return Ok(());
    }

    /**
     * A `foreach` over the result, as the media browser runs one: `rewind`,
     * then `current` and `next` while `valid`. It visits the iterator's
     * entries in order, which on a fresh result are the query's array result.
     */
    method Iterate() returns (r: Result<seq<PixxioAssetProxy>, PixxioError>)
      requires Valid()
      modifies this, query.assetSource, query.assetSource.transport, query.assetSource.assetProxyCache
      ensures Valid()
      ensures old(assetProxies).None? ==>
              query.assetSource.transport.sent ==
                old(query.assetSource.transport.sent) + old(query.SearchRequestsFor(query.limit, query.orderings)) &&
              query.assetSource.assetProxyCache.entries == old(query.ArrayResult()).1
      ensures old(assetProxies).Some? ==>
              r == Ok(EntryValues(old(iteratorEntries))) && unchanged(query.assetSource.transport) &&
              unchanged(query.assetSource.assetProxyCache)
      ensures old(assetProxies).None? ==>
              var loaded := old(query.ArrayResult()).0;
              (loaded.Ok? ==> r == Ok(loaded.value)) && (loaded.Err? ==> r.Err? && r.error == loaded.error)
    {
      var rewound := Rewind();
      if rewound.Err? {
        return Err(rewound.error);
      }
      ghost var proxies := assetProxies.value;
      ghost var sent := query.assetSource.transport.sent;
      ghost var cached := query.assetSource.assetProxyCache.entries;
      var visited := VisitRest();
      assert query.assetSource.transport.sent == sent && query.assetSource.assetProxyCache.entries == cached;
      if old(assetProxies).None? {
        assert EntryValues(Indexed(proxies)) == proxies;
      }
      return Ok(visited);
    }

    /** The loop of `Iterate`: `current` and `next` while `valid`, from the present position on. */
    method VisitRest() returns (visited: seq<PixxioAssetProxy>)
      requires Valid() && assetProxies.Some? && position <= |iteratorEntries|
      modifies this, query.assetSource, query.assetSource.transport, query.assetSource.assetProxyCache
      ensures Valid() && assetProxies == old(assetProxies) && iteratorEntries == old(iteratorEntries)
      ensures unchanged(query.assetSource.transport) && unchanged(query.assetSource.assetProxyCache)
      ensures visited == EntryValues(old(iteratorEntries)[old(position)..])
    {
      ghost var entries := iteratorEntries;
      ghost var start := position;
      visited := [];
      while true
        invariant Valid() && assetProxies == old(assetProxies) && iteratorEntries == entries
        invariant unchanged(query.assetSource.transport) && unchanged(query.assetSource.assetProxyCache)
        invariant start <= position <= |entries| && visited == EntryValues(entries[start..position])
        decreases |entries| - position
      {
        var valid := IsValidPosition();
        assert valid.Ok?;
        if !valid.value {
          break;
        }
        var current := Current();
        assert current.Ok?;
        assert entries[start..position + 1] == entries[start..position] + [entries[position]];
        visited := visited + [current.value.value];
        var next := Next();
      }
    }

    /** `offsetExists` */
    method OffsetExists(offset: int) returns (r: Result<bool, PixxioError>)
      requires Valid()
      modifies this, query.assetSource, query.assetSource.transport, query.assetSource.assetProxyCache
      ensures Valid() && numberOfAssetProxies == old(numberOfAssetProxies)
      ensures old(assetProxies).None? ==>
              query.assetSource.transport.sent ==
                old(query.assetSource.transport.sent) + old(query.SearchRequestsFor(query.limit, query.orderings)) &&
              query.assetSource.assetProxyCache.entries == old(query.ArrayResult()).1
      ensures old(assetProxies).Some? ==>
              r.Ok? && unchanged(this) && unchanged(query.assetSource.transport) &&
              unchanged(query.assetSource.assetProxyCache)
      ensures old(assetProxies).None? ==>
              var loaded := old(query.ArrayResult()).0;
              (loaded.Ok? ==> r.Ok? && LoadedAt(loaded.value, 0)) && (loaded.Err? ==> r.Err? && r.error == loaded.error)
      ensures r.Ok? ==> (r.value <==> exists i :: 0 <= i < |iteratorEntries| && iteratorEntries[i].0 == offset)
    {
      var loaded := Initialize();
      if loaded.Err? {
        return Err(loaded.error);
      }
      return Ok(IndexOfKey(iteratorEntries, offset).Some?);
    }

    /** `offsetGet`: the entry under the key, or null for a missing key. */
    method OffsetGet(offset: int) returns (r: Result<Option<PixxioAssetProxy>, PixxioError>)
      requires Valid()
      modifies this, query.assetSource, query.assetSource.transport, query.assetSource.assetProxyCache
      ensures Valid() && numberOfAssetProxies == old(numberOfAssetProxies)
      ensures old(assetProxies).None? ==>
              query.assetSource.transport.sent ==
                old(query.assetSource.transport.sent) + old(query.SearchRequestsFor(query.limit, query.orderings)) &&
              query.assetSource.assetProxyCache.entries == old(query.ArrayResult()).1
      ensures old(assetProxies).Some? ==>
              r.Ok? && unchanged(this) && unchanged(query.assetSource.transport) &&
              unchanged(query.assetSource.assetProxyCache)
      ensures old(assetProxies).None? ==>
              var loaded := old(query.ArrayResult()).0;
              (loaded.Ok? ==> r.Ok? && LoadedAt(loaded.value, 0)) && (loaded.Err? ==> r.Err? && r.error == loaded.error)
      ensures r.Ok? ==> (r.value.Some? <==> exists i :: 0 <= i < |iteratorEntries| && iteratorEntries[i].0 == offset)
      ensures r.Ok? && r.value.Some? ==> (offset, r.value.value) in iteratorEntries
    {
      var loaded := Initialize();
      if loaded.Err? {
        return Err(loaded.error);
      }
      var index := IndexOfKey(iteratorEntries, offset);
      if index.None? {
        return Ok(None);
      }
      return Ok(Some(iteratorEntries[index.value].1));
    }

    /**
     * `offsetSet`: writes into the iterator's copy (a null offset appends
     * under the next free key); the loaded list itself is not changed.
     */
    method OffsetSet(offset: Option<int>, value: PixxioAssetProxy) returns (r: Result<(), PixxioError>)
      requires Valid()
      modifies this, query.assetSource, query.assetSource.transport, query.assetSource.assetProxyCache
      ensures Valid() && numberOfAssetProxies == old(numberOfAssetProxies)
      ensures old(assetProxies).None? ==>
              query.assetSource.transport.sent ==
                old(query.assetSource.transport.sent) + old(query.SearchRequestsFor(query.limit, query.orderings)) &&
              query.assetSource.assetProxyCache.entries == old(query.ArrayResult()).1
      ensures old(assetProxies).Some? ==>
              r.Ok? && assetProxies == old(assetProxies) && position == old(position) &&
              unchanged(query.assetSource.transport) &&
              unchanged(query.assetSource.assetProxyCache)
      ensures r.Ok? ==>
              var before := old(if assetProxies.Some? then iteratorEntries
                                else if query.ArrayResult().0.Ok? then Indexed(query.ArrayResult().0.value) else []);
              var key := if offset.Some? then offset.value else NextFreeKey(before);
              var index := IndexOfKey(before, key);
              iteratorEntries == if index.Some? then before[index.value := (key, value)] else before + [(key, value)]
    {
      var loaded := Initialize();
      if loaded.Err? {
        return Err(loaded.error);
      }
      var key := if offset.Some? then offset.value else NextFreeKey(iteratorEntries);
      var index := IndexOfKey(iteratorEntries, key);
      if index.Some? {
        iteratorEntries := iteratorEntries[index.value := (key, value)];
      } else {
        iteratorEntries := iteratorEntries + [(key, value)];
      }
      return Ok(());
    }

    /** `offsetUnset` does nothing. */
    method OffsetUnset(offset: int)
      ensures unchanged(this)
    {
    }
  }
}
