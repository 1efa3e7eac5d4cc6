/**
 * The foreign helpers the core calls but does not define: the media-type
 * table of `Neos\Utility\MediaTypes`, `Transliterator::urlize`, `sha1`,
 * `urlencode`, URI normalisation of `GuzzleHttp\Psr7\Uri` and JSON encoding
 * and decoding. They are uninterpreted: a `Library` value is one choice of
 * all of them, and the properties that need more than their types state
 * their hypotheses (`JsonCodecSound`) as preconditions.
 */
module Externals {
  import opened Wrappers
  import opened PhpStrings
  import opened PixxioApi

  datatype Library = Library(
    /** `MediaTypes::getMediaTypeFromFilename` */
    mediaTypeFromFilename: string -> string,
    /** `MediaTypes::getFilenameExtensionsFromMediaType` */
    extensionsFromMediaType: string -> seq<string>,
    /** `Transliterator::urlize` */
    urlize: string -> string,
    /** `sha1` */
    sha1: string -> string,
    /** `urlencode` */
    urlencode: string -> string,
    /** `(new Uri($s))->__toString()`; `None` when the URI is malformed */
    normalizeUri: string -> Option<string>,
    /** `json_encode` of a record */
    encode: JsonAsset -> string,
    /** `json_encode($record, JSON_FORCE_OBJECT)` */
    encodeForced: JsonAsset -> string,
    /** `json_decode` to an object; `None` for malformed text or a non-object */
    decode: string -> Option<JsonAsset>)

  // ---------------------------------------------------------------------
  // JSON_FORCE_OBJECT

  /** A list turned into an object whose keys are the decimal indexes. */
  function IndexMap(items: seq<Option<string>>): map<string, Option<string>>
    decreases |items|
  {
    if |items| == 0 then map[]
    else IndexMap(items[..|items| - 1])[NatToString(|items| - 1) := items[|items| - 1]]
  }

  /** Index `i` of the list is member `"i"` of the object. */
  lemma {:induction false} IndexMapAt(items: seq<Option<string>>, i: nat)
    requires i < |items|
    ensures NatToString(i) in IndexMap(items) && IndexMap(items)[NatToString(i)] == items[i]
    decreases |items|
  {
    var n := |items| - 1;
    if i < n {
      IndexMapAt(items[..n], i);
      if NatToString(n) == NatToString(i) {
        NatToStringInjective(n, i);
      }
    }
  }

  /** Indexes beyond the list are not members of the object. */
  lemma {:induction false} IndexMapBeyond(items: seq<Option<string>>, i: nat)
    requires i >= |items|
    ensures NatToString(i) !in IndexMap(items)
    decreases |items|
  {
    if |items| > 0 {
      var n := |items| - 1;
      IndexMapBeyond(items[..n], i);
      if NatToString(n) == NatToString(i) {
        NatToStringInjective(n, i);
      }
    }
  }

  /**
   * What `json_decode(json_encode($record, JSON_FORCE_OBJECT))` gives back:
   * the same record, with the one list it holds turned into an object.
   */
  function ForceObject(a: JsonAsset): (r: JsonAsset)
    ensures r.modifiedImagePaths.Some? <==> a.modifiedImagePaths.Some?
    ensures r.modifiedImagePaths.Some? ==> !r.modifiedImagePaths.value.PathList?
  {
    match a.modifiedImagePaths
    case Some(PathList(items)) => a.(modifiedImagePaths := Some(PathObject(IndexMap(items))))
    case _ => a
  }

  /**
   * The JSON hypotheses: decoding an encoding gives the record back (as
   * objects when forced), and an encoded record is object text, which is
   * never PHP-falsy ("" or "0").
   */
  ghost predicate JsonCodecSound(lib: Library) {
    (forall a :: lib.decode(lib.encode(a)) == Some(a)) &&
    (forall a :: lib.decode(lib.encodeForced(a)) == Some(ForceObject(a))) &&
    (forall a :: !IsEmptyString(lib.encode(a))) &&
    (forall a :: !IsEmptyString(lib.encodeForced(a)))
  }
}
