/**
 * The vocabulary shared with the pixx.io REST API: the (already decoded) JSON
 * records and response bodies the plugin reads, the requests it sends, the
 * remote side as an oracle from request to outcome, and the exceptions the
 * plugin raises.
 *
 * HTTP transport and JSON decoding are not modelled: a reply is either a
 * transport failure (any Guzzle exception) or a decoded body.
 */
module PixxioApi {
  import opened Wrappers
  import opened PhpValues

  // ---------------------------------------------------------------------
  // Decoded JSON

  /** `modifiedImagePaths`: a JSON list, a JSON object (keys "0", "1", ...) or some other value. */
  datatype ImagePaths =
    | PathList(items: seq<Option<string>>)
    | PathObject(members: map<string, Option<string>>)
    | PathOther

  /**
   * One asset record as the API returns it (every field optional). `success`
   * and `status` are only present on the reply to a single-file request.
   */
  datatype JsonAsset = JsonAsset(
    id: Option<string>,
    subject: Option<string>,
    description: Option<string>,
    fileType: Option<string>,
    modifyDate: Option<string>,
    fileSize: Option<int>,
    keywords: Option<string>,
    imageWidth: Option<int>,
    imageHeight: Option<int>,
    dynamicMetadata: Option<map<string, string>>,
    modifiedImagePaths: Option<ImagePaths>,
    originalPath: Option<string>,
    success: Option<Value>,
    status: Option<Value>)

  /** The reply to `POST /json/accessToken`. */
  datatype AuthBody = AuthBody(success: Option<Value>, accessToken: Option<string>, help: Option<string>)

  /** The decoded reply to `GET /json/files/{id}`: an object (the record) or anything else. */
  datatype FileBody = NotAnObject | FileObject(asset: JsonAsset)

  /** The decoded reply to `GET /json/files` (a search). */
  datatype SearchBody = SearchBody(quantity: Option<int>, files: Option<seq<JsonAsset>>, errorMessage: Option<string>)

  /** What the transport delivers: a Guzzle exception, or a response with a decoded body. */
  datatype HttpOutcome<B> = TransportFailure(message: string) | Received(body: B)

  // ---------------------------------------------------------------------
  // Requests

  /** One entry of the `imageOptions` list; normally an array with `width`, `height`, `quality`, `crop` or `sizeMax`. */
  type ImageOption = Value

  /** The `options` object of a single-file request. */
  datatype FileOptions = FileOptions(imageOptions: seq<ImageOption>, fields: seq<string>)

  /** The `options` object of an update: only keywords are supported. */
  datatype UpdateOptions = UpdateOptions(keywords: Value)

  /** The `options` object of a search request; absent members are `None`. */
  datatype SearchOptions = SearchOptions(
    pagination: string,
    imageOptions: seq<ImageOption>,
    fields: seq<string>,
    formatType: string,
    fileType: string,
    category: Option<string>,
    searchTerm: Option<string>,
    sortBy: Option<string>,
    sortDirection: Option<string>)

  /** A request sent to the API; `url` is the endpoint plus the path. */
  datatype Request =
    | AccessTokenRequest(url: string, apiKey: string, refreshToken: string)
    | GetFileRequest(url: string, accessToken: string, fileOptions: FileOptions)
    | UpdateFileRequest(url: string, accessToken: string, updateOptions: UpdateOptions)
    | SearchRequest(url: string, accessToken: string, searchOptions: SearchOptions)
    | CategoriesRequest(url: string, accessToken: string)

  /** The remote API: what it answers to each kind of request. */
  datatype Remote = Remote(
    accessToken: Request -> HttpOutcome<AuthBody>,
    getFile: Request -> HttpOutcome<FileBody>,
    search: Request -> HttpOutcome<SearchBody>,
    updateFile: Request -> HttpOutcome<string>,
    categories: Request -> HttpOutcome<string>)

  // ---------------------------------------------------------------------
  // Exceptions

  /** The exceptions and errors the core raises. */
  datatype PixxioError =
    | AuthenticationFailed(reason: string)
    | ConnectionFailed(reason: string)
    | MissingClientSecret(accountIdentifier: string)
    | AssetNotFound
    | AccessToAssetDenied
    | UpdateNotSupported
    | DivisionByZero
    | MalformedCacheEntry
    /** A PHP engine `Error`: a `TypeError`, or a member call on `null`; the package catches neither. */
    | TypeError(reason: string)

  /**
   * The errors that are the package's own exceptions (subclasses of
   * `Flownative\Pixxio\Exception\Exception`); the others are PHP errors or
   * library exceptions that the package's `catch` blocks do not catch.
   */
  predicate IsPackageException(e: PixxioError) {
    !(e.DivisionByZero? || e.MalformedCacheEntry? || e.TypeError?)
  }
}
