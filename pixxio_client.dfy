/**
 * `PixxioClient`: the pixx.io API client. It builds the request options,
 * sends them through a `Transport` and checks the replies it interprets
 * itself (authentication); the other replies are handed back decoded.
 */
module PixxioService {
  import opened Wrappers
  import opened PhpStrings
  import opened PhpValues
  import opened PixxioApi

  /**
   * The HTTP side: the remote API's answers and, as a ghost record, the
   * requests sent so far in order. The answers are a fixed function of the
   * request.
   */
  class Transport {
    const remote: Remote
    ghost var sent: seq<Request>

    constructor(remote: Remote)
      ensures this.remote == remote && sent == []
    {
      this.remote := remote;
      sent := [];
    }

    method PostAccessToken(req: Request) returns (o: HttpOutcome<AuthBody>)
      modifies this
      ensures o == remote.accessToken(req) && sent == old(sent) + [req]
    {
      o := remote.accessToken(req);
      sent := sent + [req];
    }

    method GetFile(req: Request) returns (o: HttpOutcome<FileBody>)
      modifies this
      ensures o == remote.getFile(req) && sent == old(sent) + [req]
    {
      o := remote.getFile(req);
      sent := sent + [req];
    }

    method PutFile(req: Request) returns (o: HttpOutcome<string>)
      modifies this
      ensures o == remote.updateFile(req) && sent == old(sent) + [req]
    {
      o := remote.updateFile(req);
      sent := sent + [req];
    }

    method GetFiles(req: Request) returns (o: HttpOutcome<SearchBody>)
      modifies this
      ensures o == remote.search(req) && sent == old(sent) + [req]
    {
      o := remote.search(req);
      sent := sent + [req];
    }

    method GetCategories(req: Request) returns (o: HttpOutcome<string>)
      modifies this
      ensures o == remote.categories(req) && sent == old(sent) + [req]
    {
      o := remote.categories(req);
      sent := sent + [req];
    }
  }

  // ---------------------------------------------------------------------
  // Image options

  /** The presets, in order: thumbnail, preview, original. */
  const ImageOptionPresets: seq<(string, Value)> := [
    ("thumbnailUri", Arr([("width", Int(400)), ("height", Int(400)), ("quality", Int(90))])),
    ("previewUri", Arr([("width", Int(1500)), ("height", Int(1500)), ("quality", Int(90))])),
    ("originalUri", Arr([("sizeMax", Int(1920)), ("quality", Int(90))]))]

  /** `isset($o['crop'], $o['height']) && $o['crop'] === false` */
  predicate CropDisabledWithHeight(option: Value) {
    option.Arr? && IsSet(option.entries, "crop") && IsSet(option.entries, "height") &&
    Lookup(option.entries, "crop") == Some(Bool(false))
  }

  /**
   * Removing the entries of two lists one after the other is removing them
   * from the joined list, and a single entry is kept exactly when its key is
   * not removed: so the kept entries stay in their order and multiplicity.
   */
  lemma {:induction false} WithoutKeysFilters(a: seq<(string, Value)>, b: seq<(string, Value)>, keys: set<string>)
    ensures WithoutKeys(a + b, keys) == WithoutKeys(a, keys) + WithoutKeys(b, keys)
    ensures forall e :: WithoutKeys([e], keys) == if e.0 in keys then [] else [e]
    decreases |a|
  {
    forall e ensures WithoutKeys([e], keys) == if e.0 in keys then [] else [e] {
      assert [e][1..] == [];
    }
    if |a| > 0 {
      assert (a + b)[0] == a[0] && (a + b)[1..] == a[1..] + b;
      WithoutKeysFilters(a[1..], b, keys);
    } else {
      assert a + b == b;
    }
  }

  /** The entries whose key is not in `keys` (`unset` of those keys). */
  function WithoutKeys(entries: seq<(string, Value)>, keys: set<string>): (r: seq<(string, Value)>)
    ensures forall e :: e in r <==> e in entries && e.0 !in keys
    decreases |entries|
  {
    if |entries| == 0 then []
    else
      assert entries == [entries[0]] + entries[1..];
      if entries[0].0 in keys then WithoutKeys(entries[1..], keys)
      else [entries[0]] + WithoutKeys(entries[1..], keys)
  }

  /** The option sent for one preset: the supplied one (cropping switched off by dropping height and crop), else the preset. */
  function ConfiguredImageOption(given: seq<(string, Value)>, preset: (string, Value)): ImageOption {
    if !IsSet(given, preset.0) then preset.1
    else
      var option := Lookup(given, preset.0).value;
      if CropDisabledWithHeight(option) then Arr(WithoutKeys(option.entries, {"height", "crop"}))
      else option
  }

  /** What `configureImageOptionsWithFallback` leaves in `imageOptions`. */
  function ImageOptionsWithFallback(given: seq<(string, Value)>): seq<ImageOption> {
    seq(|ImageOptionPresets|, k requires 0 <= k < |ImageOptionPresets| => ConfiguredImageOption(given, ImageOptionPresets[k]))
  }

  /** `configureImageOptionsWithFallback`: one option per preset, appended in preset order. */
  method ConfigureImageOptionsWithFallback(given: seq<(string, Value)>) returns (options: seq<ImageOption>)
    ensures options == ImageOptionsWithFallback(given)
  {
    options := [];
    var i := 0;
    while i < |ImageOptionPresets|
      invariant 0 <= i <= |ImageOptionPresets|
      invariant |options| == i
      invariant forall k :: 0 <= k < i ==> options[k] == ConfiguredImageOption(given, ImageOptionPresets[k])
    {
      var key := ImageOptionPresets[i].0;
      if !IsSet(given, key) {
        options := options + [ImageOptionPresets[i].1];
      } else {
        var option := Lookup(given, key).value;
        if CropDisabledWithHeight(option) {
          option := Arr(WithoutKeys(option.entries, {"height", "crop"}));
        }
        options := options + [option];
      }
      i := i + 1;
    }
  }

  /**
   * Three options, thumbnail first, then preview, then original; a preset
   * that is not supplied is used as is; a supplied option with `crop ===
   * false` and a height loses exactly those two keys; any other supplied
   * option is sent unchanged.
   */
  lemma ImageOptionsFallBackToPresets(given: seq<(string, Value)>, k: nat)
    requires k < 3
    ensures |ImageOptionsWithFallback(given)| == 3
    ensures |ImageOptionPresets| == 3 && ImageOptionPresets[0].0 == "thumbnailUri" &&
            ImageOptionPresets[1].0 == "previewUri" && ImageOptionPresets[2].0 == "originalUri"
    ensures var key := ImageOptionPresets[k].0;
            var option := ImageOptionsWithFallback(given)[k];
            (!IsSet(given, key) ==> option == ImageOptionPresets[k].1) &&
            (IsSet(given, key) && CropDisabledWithHeight(Lookup(given, key).value) ==>
               option.Arr? &&
               forall e :: e in option.entries <==>
                 e in Lookup(given, key).value.entries && e.0 != "height" && e.0 != "crop") &&
            (IsSet(given, key) && !CropDisabledWithHeight(Lookup(given, key).value) ==>
               option == Lookup(given, key).value)
  {
  }

  // ---------------------------------------------------------------------
  // Search options

  /** The fields requested for every file. */
  const Fields: seq<string> := [
    "id", "originalFilename", "fileType", "keywords", "createDate", "imageHeight", "imageWidth",
    "originalPath", "subject", "description", "modifyDate", "fileSize", "modifiedImagePaths",
    "imagePath", "dynamicMetadata"]

  /** `SupportsSortingInterface::ORDER_DESCENDING` */
  const OrderDescending := "DESC"

  /** `$limit . '-' . (int)($offset / $limit + 1)` */
  function Pagination(offset: int, limit: int): string
    requires limit != 0
  {
    IntToString(limit) + "-" + IntToString(TruncatedQuotient(offset + limit, limit))
  }

  function SortDirection(ordering: Value): string {
    if ordering == Str(OrderDescending) then "descending" else "ascending"
  }

  /** `sortBy` and `sortDirection`: the `lastModified` ordering is applied after, and so overrides, the file name one. */
  function SortOptions(orderings: seq<(string, Value)>): (Option<string>, Option<string>) {
    if IsSet(orderings, "lastModified") then
      (Some("uploadDate"), Some(SortDirection(Lookup(orderings, "lastModified").value)))
    else if IsSet(orderings, "resource.filename") then
      (Some("fileName"), Some(SortDirection(Lookup(orderings, "resource.filename").value)))
    else (None, None)
  }

  /** The `options` object of `search`. */
  function SearchOptionsFor(
    imageOptions: seq<ImageOption>, urlencode: string -> string,
    queryExpression: string, formatType: string, fileTypes: seq<string>,
    assetCollectionFilter: Option<string>, offset: int, limit: int, orderings: seq<(string, Value)>): SearchOptions
    requires limit != 0
  {
    var sort := SortOptions(orderings);
    SearchOptions(
      pagination := Pagination(offset, limit),
      imageOptions := imageOptions,
      fields := Fields,
      formatType := formatType,
      fileType := Implode(',', fileTypes),
      category := if assetCollectionFilter.Some? then Some("sub/" + assetCollectionFilter.value) else None,
      searchTerm := if !IsEmptyString(queryExpression) then Some(urlencode(queryExpression)) else None,
      sortBy := sort.0,
      sortDirection := sort.1)
  }

  /**
   * For a positive limit and a non-negative offset the pagination is
   * "limit-page" with page `offset div limit + 1`, the page that holds the
   * offset; both numbers read back from the text.
   */
  lemma PaginationNamesPageOfOffset(offset: int, limit: int)
    requires limit > 0 && offset >= 0
    ensures Pagination(offset, limit) == NatToString(limit) + "-" + NatToString(offset / limit + 1)
    ensures (offset / limit) * limit <= offset < (offset / limit + 1) * limit
    ensures ParseNat(NatToString(limit)) == limit && ParseNat(NatToString(offset / limit + 1)) == offset / limit + 1
  {
    var q := TruncatedQuotient(offset + limit, limit);
    var p := offset / limit + 1;
    QuotientBounds(offset, limit, offset / limit);
    ShiftedQuotientBounds(offset, limit, offset / limit);
    QuotientUnique(offset + limit, limit, q, p);
    ParseNatToString(limit);
    ParseNatToString(p);
  }

  /** Adding the divisor once moves the quotient up by one. */
  lemma ShiftedQuotientBounds(x: int, y: int, n: int)
    requires n * y <= x < (n + 1) * y
    ensures (n + 1) * y <= x + y < (n + 1 + 1) * y
  {
    assert (n + 1) * y == n * y + y;
    assert (n + 1 + 1) * y == (n + 1) * y + y;
  }

  /** A quotient is fixed by the bounds it satisfies. */
  lemma QuotientUnique(a: int, b: int, q1: int, q2: int)
    requires b > 0
    requires q1 * b <= a < (q1 + 1) * b
    requires q2 * b <= a < (q2 + 1) * b
    ensures q1 == q2
  {
    if q1 < q2 {
      MultiplyMonotone(q1 + 1, q2, b);
    } else if q2 < q1 {
      MultiplyMonotone(q2 + 1, q1, b);
    }
  }

  lemma MultiplyMonotone(x: int, y: int, b: int)
    requires x <= y && b >= 0
    ensures x * b <= y * b
  {
    assert y * b == x * b + (y - x) * b;
  }

  /** `category` is sent exactly when a collection filter is given, prefixed with "sub/". */
  lemma CategoryOnlyWithCollectionFilter(
    imageOptions: seq<ImageOption>, urlencode: string -> string, q: string, formatType: string, fileTypes: seq<string>,
    collection: Option<string>, offset: int, limit: int, orderings: seq<(string, Value)>)
    requires limit != 0
    ensures var o := SearchOptionsFor(imageOptions, urlencode, q, formatType, fileTypes, collection, offset, limit, orderings);
            (o.category.Some? <==> collection.Some?) &&
            (collection.Some? ==> o.category.value == "sub/" + collection.value)
  {
  }

  /** `searchTerm` is sent exactly when the expression is not PHP-empty ("" and "0" are), url-encoded. */
  lemma SearchTermOnlyWhenNotEmpty(
    imageOptions: seq<ImageOption>, urlencode: string -> string, q: string, formatType: string, fileTypes: seq<string>,
    collection: Option<string>, offset: int, limit: int, orderings: seq<(string, Value)>)
    requires limit != 0
    ensures var o := SearchOptionsFor(imageOptions, urlencode, q, formatType, fileTypes, collection, offset, limit, orderings);
            (o.searchTerm.Some? <==> q != "" && q != "0") &&
            (o.searchTerm.Some? ==> o.searchTerm.value == urlencode(q))
  {
  }

  /** `fileType` is the comma-join of the file types, and splits back into them when none holds a comma. */
  lemma FileTypeJoinsFileTypes(
    imageOptions: seq<ImageOption>, urlencode: string -> string, q: string, formatType: string, fileTypes: seq<string>,
    collection: Option<string>, offset: int, limit: int, orderings: seq<(string, Value)>)
    requires limit != 0
    requires |fileTypes| >= 1 && forall i :: 0 <= i < |fileTypes| ==> ',' !in fileTypes[i]
    ensures Explode(',', SearchOptionsFor(imageOptions, urlencode, q, formatType, fileTypes, collection, offset, limit, orderings).fileType) == fileTypes
  {
    ExplodeImplode(',', fileTypes);
  }

  /**
   * `resource.filename` sorts by `fileName`, `lastModified` by `uploadDate`
   * and wins when both are given; the direction is descending exactly for
   * ORDER_DESCENDING.
   */
  lemma SortMapping(orderings: seq<(string, Value)>)
    ensures var (sortBy, dir) := SortOptions(orderings);
            (sortBy.Some? <==> IsSet(orderings, "lastModified") || IsSet(orderings, "resource.filename")) &&
            (sortBy.Some? <==> dir.Some?) &&
            (IsSet(orderings, "lastModified") ==>
               (sortBy == Some("uploadDate") &&
                (dir == Some("descending") <==> Lookup(orderings, "lastModified") == Some(Str("DESC"))))) &&
            (!IsSet(orderings, "lastModified") && IsSet(orderings, "resource.filename") ==>
               (sortBy == Some("fileName") &&
                (dir == Some("descending") <==> Lookup(orderings, "resource.filename") == Some(Str("DESC")))))
  {
  }

  /** Appending an entry with another key does not change a lookup. */
  lemma {:induction false} LookupIgnoresOtherKey(entries: seq<(string, Value)>, key: string, other: (string, Value))
    requires other.0 != key
    ensures Lookup(entries + [other], key) == Lookup(entries, key)
    decreases |entries|
  {
    if |entries| == 0 {
      assert Lookup([other], key) == Lookup([other][1..], key);
    } else {
      assert (entries + [other])[1..] == entries[1..] + [other];
      LookupIgnoresOtherKey(entries[1..], key, other);
    }
  }

  /** Ordering keys other than `resource.filename` and `lastModified` are ignored. */
  lemma SortIgnoresOtherKeys(orderings: seq<(string, Value)>, other: (string, Value))
    requires other.0 != "lastModified" && other.0 != "resource.filename"
    ensures SortOptions(orderings + [other]) == SortOptions(orderings)
  {
    LookupIgnoresOtherKey(orderings, "lastModified", other);
    LookupIgnoresOtherKey(orderings, "resource.filename", other);
  }

  // ---------------------------------------------------------------------
  // Authentication

  /** Reads the reply to the token request: the token, or why authentication failed. */
  function AuthenticationOutcome(o: HttpOutcome<AuthBody>): Result<string, PixxioError> {
    match o
    case TransportFailure(message) => Err(AuthenticationFailed("Authentication failed: " + message))
    case Received(body) =>
      if body.success == Some(Str("true")) && body.accessToken.Some? then Ok(body.accessToken.value)
      else Err(AuthenticationFailed("Authentication failed: " + body.help.GetOr("Unknown cause")))
  }

  /**
   * A token is accepted only from a reply whose `success` is the string
   * "true" (not the boolean) and that carries a token; everything else is an
   * authentication failure.
   */
  lemma AuthenticationAcceptsOnlyTrueReply(o: HttpOutcome<AuthBody>)
    ensures AuthenticationOutcome(o).Ok? <==>
            o.Received? && o.body.success == Some(Str("true")) && o.body.accessToken.Some?
    ensures AuthenticationOutcome(o).Ok? ==> AuthenticationOutcome(o).value == o.body.accessToken.value
    ensures AuthenticationOutcome(o).Err? ==> AuthenticationOutcome(o).error.AuthenticationFailed?
    ensures o.Received? && o.body.success == Some(Bool(true)) ==> AuthenticationOutcome(o).Err?
  {
  }

  // ---------------------------------------------------------------------
  // The client

  class PixxioClient {
    const transport: Transport
    const apiEndpointUri: string
    const apiKey: string
    const apiClientOptions: seq<(string, Value)>
    const imageOptions: seq<ImageOption>
    var accessToken: Option<string>

    constructor(transport: Transport, apiEndpointUri: string, apiKey: string,
                apiClientOptions: seq<(string, Value)>, imageOptions: seq<(string, Value)>)
      ensures this.transport == transport && this.apiEndpointUri == apiEndpointUri && this.apiKey == apiKey
      ensures this.apiClientOptions == apiClientOptions
      ensures this.imageOptions == ImageOptionsWithFallback(imageOptions)
      ensures accessToken == None
    {
      this.transport := transport;
      this.apiEndpointUri := apiEndpointUri;
      this.apiKey := apiKey;
      this.apiClientOptions := apiClientOptions;
      var options := ConfigureImageOptionsWithFallback(imageOptions);
      this.imageOptions := options;
      accessToken := None;
    }

    /** The token as it is put into a query string (`null` concatenates as ""). */
    function TokenText(): string
      reads this
    {
      accessToken.GetOr("")
    }

    function AccessTokenRequestFor(refreshToken: string): Request {
      AccessTokenRequest(apiEndpointUri + "/json/accessToken", apiKey, refreshToken)
    }

    function GetFileRequestFor(id: string): Request
      reads this
    {
      GetFileRequest(apiEndpointUri + "/json/files/" + id, TokenText(), FileOptions(imageOptions, Fields))
    }

    function SearchRequestFor(urlencode: string -> string, queryExpression: string, formatType: string,
                              fileTypes: seq<string>, assetCollectionFilter: Option<string>,
                              offset: int, limit: int, orderings: seq<(string, Value)>): Request
      requires limit != 0
      reads this
    {
      SearchRequest(apiEndpointUri + "/json/files", TokenText(),
        SearchOptionsFor(imageOptions, urlencode, queryExpression, formatType, fileTypes,
                         assetCollectionFilter, offset, limit, orderings))
    }

    /** `authenticate`: stores the token of a successful reply; otherwise fails and keeps the old token. */
    method Authenticate(refreshToken: string) returns (r: Result<(), PixxioError>)
      modifies this, transport
      ensures transport.sent == old(transport.sent) + [AccessTokenRequestFor(refreshToken)]
      ensures var outcome := AuthenticationOutcome(transport.remote.accessToken(AccessTokenRequestFor(refreshToken)));
              (r.Ok? <==> outcome.Ok?) &&
              (outcome.Ok? ==> accessToken == Some(outcome.value)) &&
              (outcome.Err? ==> r.error == outcome.error && accessToken == old(accessToken))
    {
      var reply := transport.PostAccessToken(AccessTokenRequestFor(refreshToken));
      var outcome := AuthenticationOutcome(reply);
      if outcome.Ok? {
        accessToken := Some(outcome.value);
        r := Ok(());
      } else {
        r := Err(outcome.error);
      }
    }

    /** `getFile`: requests one file with the image options and fields; a transport failure is a connection error. */
    method GetFile(id: string) returns (r: Result<FileBody, PixxioError>)
      modifies transport
      ensures transport.sent == old(transport.sent) + [GetFileRequestFor(id)]
      ensures match transport.remote.getFile(GetFileRequestFor(id))
              case Received(body) => r == Ok(body)
              case TransportFailure(m) => r == Err(ConnectionFailed("Retrieving file failed: " + m))
    {
      var reply := transport.GetFile(GetFileRequestFor(id));
      match reply
      case Received(body) => r := Ok(body);
      case TransportFailure(m) => r := Err(ConnectionFailed("Retrieving file failed: " + m));
    }

    /**
     * `updateFile`: only keyword updates are supported; without `keywords`
     * nothing is sent, otherwise the payload carries the keywords alone.
     */
    method UpdateFile(id: string, metadata: seq<(string, Value)>) returns (r: Result<string, PixxioError>)
      modifies transport
      ensures !IsSet(metadata, "keywords") ==> r == Err(UpdateNotSupported) && transport.sent == old(transport.sent)
      ensures IsSet(metadata, "keywords") ==>
              var req := UpdateFileRequest(apiEndpointUri + "/json/files/" + id, TokenText(),
                                           UpdateOptions(Lookup(metadata, "keywords").value));
              transport.sent == old(transport.sent) + [req] &&
              match transport.remote.updateFile(req)
              case Received(body) => r == Ok(body)
              case TransportFailure(m) => r == Err(ConnectionFailed("Updating file failed: " + m))
    {
      if !IsSet(metadata, "keywords") {
        return Err(UpdateNotSupported);
      }
      var req := UpdateFileRequest(apiEndpointUri + "/json/files/" + id, TokenText(),
                                   UpdateOptions(Lookup(metadata, "keywords").value));
      var reply := transport.PutFile(req);
      match reply
      case Received(body) => r := Ok(body);
      case TransportFailure(m) => r := Err(ConnectionFailed("Updating file failed: " + m));
    }

    /** `search`: a limit of 0 divides by zero before anything is sent. */
    method Search(urlencode: string -> string, queryExpression: string, formatType: string, fileTypes: seq<string>,
                  assetCollectionFilter: Option<string>, offset: int, limit: int, orderings: seq<(string, Value)>)
      returns (r: Result<SearchBody, PixxioError>)
      modifies transport
      ensures limit == 0 ==> r == Err(DivisionByZero) && transport.sent == old(transport.sent)
      ensures limit != 0 ==>
              var req := SearchRequestFor(urlencode, queryExpression, formatType, fileTypes,
                                          assetCollectionFilter, offset, limit, orderings);
              transport.sent == old(transport.sent) + [req] &&
              match transport.remote.search(req)
              case Received(body) => r == Ok(body)
              case TransportFailure(m) => r == Err(ConnectionFailed("Search failed: " + m))
    {
      if limit == 0 {
        return Err(DivisionByZero);
      }
      var req := SearchRequestFor(urlencode, queryExpression, formatType, fileTypes,
                                  assetCollectionFilter, offset, limit, orderings);
      var reply := transport.GetFiles(req);
      match reply
      case Received(body) => r := Ok(body);
      case TransportFailure(m) => r := Err(ConnectionFailed("Search failed: " + m));
    }

    /** `getCategories` */
    method GetCategories() returns (r: Result<string, PixxioError>)
      modifies transport
      ensures var req := CategoriesRequest(apiEndpointUri + "/json/categories", TokenText());
              transport.sent == old(transport.sent) + [req] &&
              match transport.remote.categories(req)
              case Received(body) => r == Ok(body)
              case TransportFailure(m) => r == Err(ConnectionFailed("Retrieving categories failed: " + m))
    {
      var reply := transport.GetCategories(CategoriesRequest(apiEndpointUri + "/json/categories", TokenText()));
      match reply
      case Received(body) => r := Ok(body);
      case TransportFailure(m) => r := Err(ConnectionFailed("Retrieving categories failed: " + m));
    }

    /** `getAccessToken(): string`, a type error before authentication succeeded. */
    function GetAccessToken(): (r: Result<string, PixxioError>)
      reads this
      ensures r.Ok? <==> accessToken.Some?
      ensures r.Ok? ==> r.value == accessToken.value
    {
      if accessToken.Some? then Ok(accessToken.value) else Err(TypeError("getAccessToken() returned null"))
    }
  }
}
