/**
 * `PixxioAssetProxy`: the Neos view of one pixx.io asset, built from one JSON
 * record by `fromJsonObject` and read through plain getters.
 */
module AssetProxies {
  import opened Wrappers
  import opened PhpStrings
  import opened PhpValues
  import opened PixxioApi
  import opened Externals

  /** The `modifyDate` used when the record has none. */
  const DefaultLastModified := "1.1.2000"

  /** The extension (and thereby media type) of a pixx.io thumbnail used as original. */
  const ThumbnailFileType := "jpg"

  /** The IPTC properties every proxy carries. */
  const IptcTitle := "Title"
  const IptcCaption := "CaptionAbstract"
  const IptcCopyright := "CopyrightNotice"

  /**
   * The proxy's fields. `lastModified` is the text handed to `DateTime`;
   * the three URIs are the texts handed to `Uri`.
   */
  datatype PixxioAssetProxy = PixxioAssetProxy(
    identifier: Option<string>,
    assetLabel: Option<string>,
    filename: string,
    lastModified: string,
    fileSize: Option<int>,
    mediaType: string,
    tags: seq<string>,
    iptcProperties: map<string, string>,
    thumbnailUri: Option<string>,
    previewUri: Option<string>,
    originalUri: Option<string>,
    widthInPixels: Option<int>,
    heightInPixels: Option<int>)
  {
    /** `getIdentifier(): string`, which cannot return null. */
    function GetIdentifier(): (r: Result<string, PixxioError>)
      ensures r.Ok? <==> identifier.Some?
      ensures r.Ok? ==> r.value == identifier.value
    {
      if identifier.Some? then Ok(identifier.value) else Err(TypeError("getIdentifier() returned null"))
    }

    /** `getLabel(): string`: the record's `subject`, which cannot be null either. */
    function GetLabel(): (r: Result<string, PixxioError>)
      ensures r.Ok? <==> assetLabel.Some?
      ensures r.Ok? ==> r.value == assetLabel.value
      ensures r.Err? ==> r.error.TypeError?
    {
      if assetLabel.Some? then Ok(assetLabel.value) else Err(TypeError("getLabel() returned null"))
    }

    /** `hasIptcProperty`: the property was filled in (its value is never null). */
    predicate HasIptcProperty(name: string) {
      name in iptcProperties
    }

    /** `getIptcProperty`, with '' for a property that is not there. */
    function GetIptcProperty(name: string): (value: string)
      ensures HasIptcProperty(name) ==> value == iptcProperties[name]
      ensures !HasIptcProperty(name) ==> value == ""
    {
      if name in iptcProperties then iptcProperties[name] else ""
    }

    /** Assets of this source are always imported. */
    predicate IsImported() {
      true
    }
  }

  // ---------------------------------------------------------------------
  // The thumbnail-as-original rule

  /** The media type of the record's own file type, `strtolower` applied. */
  function OriginalMediaType(rec: JsonAsset, lib: Library): string {
    lib.mediaTypeFromFilename("foo." + AsciiLower(rec.fileType.GetOr("")))
  }

  /** `isset($options['mediaTypes'][$mediaType])`: the configured entry for a media type. */
  function MediaTypeEntry(options: seq<(string, Value)>, mediaType: string): (entry: Option<Value>)
    ensures var types := Lookup(options, "mediaTypes");
            (entry.Some? <==> types.Some? && types.value.Arr? && IsSet(types.value.entries, mediaType)) &&
            (entry.Some? ==> entry.value != Null && (mediaType, entry.value) in types.value.entries &&
                             entry == Lookup(types.value.entries, mediaType))
  {
    match Lookup(options, "mediaTypes")
    case Some(Arr(types)) =>
      if IsSet(types, mediaType) then Lookup(types, mediaType) else None
    case _ => None
  }

  /**
   * `$entry['usePixxioThumbnailAsOriginal'] === false`; an entry that is not
   * an array is read as one without the flag.
   */
  predicate FlagIsFalse(entry: Value) {
    entry.Arr? && Lookup(entry.entries, "usePixxioThumbnailAsOriginal") == Some(Bool(false))
  }

  /** pixx.io's thumbnail stands in for the original unless the media type is configured otherwise. */
  predicate UsesThumbnailAsOriginal(options: seq<(string, Value)>, mediaType: string) {
    var entry := MediaTypeEntry(options, mediaType);
    entry.None? || FlagIsFalse(entry.value)
  }

  /** The file type the proxy presents: `jpg` for a thumbnail, else the lower-cased own type. */
  function PresentedFileType(rec: JsonAsset, options: seq<(string, Value)>, lib: Library): string {
    if UsesThumbnailAsOriginal(options, OriginalMediaType(rec, lib)) then ThumbnailFileType
    else AsciiLower(rec.fileType.GetOr(""))
  }

  // ---------------------------------------------------------------------
  // Derivatives

  /** `isset($paths[i])` / `isset($paths->{'i'})`: entry `i` of `modifiedImagePaths`, if present and not null. */
  function DerivativePath(paths: Option<ImagePaths>, i: nat): Option<string> {
    match paths
    case Some(PathList(items)) => if i < |items| then items[i] else None
    case Some(PathObject(members)) => if NatToString(i) in members then members[NatToString(i)] else None
    case _ => None
  }

  /** `$record->dynamicMetadata->CopyrightNotice ?? ''` */
  function CopyrightNoticeOf(rec: JsonAsset): string {
    if rec.dynamicMetadata.Some? && IptcCopyright in rec.dynamicMetadata.value
    then rec.dynamicMetadata.value[IptcCopyright] else ""
  }

  // ---------------------------------------------------------------------
  // fromJsonObject

  /** `PixxioAssetProxy::fromJsonObject`: the proxy for one record under the source's options. */
  function FromJsonObject(rec: JsonAsset, options: seq<(string, Value)>, lib: Library): PixxioAssetProxy {
    var useThumbnail := UsesThumbnailAsOriginal(options, OriginalMediaType(rec, lib));
    var fileType := PresentedFileType(rec, options, lib);
    PixxioAssetProxy(
      identifier := rec.id,
      assetLabel := rec.subject,
      filename := lib.urlize(rec.subject.GetOr("")) + "." + fileType,
      lastModified := rec.modifyDate.GetOr(DefaultLastModified),
      fileSize := rec.fileSize,
      mediaType := lib.mediaTypeFromFilename("foo." + fileType),
      tags := if rec.keywords.Some? then Explode(',', rec.keywords.value) else [],
      iptcProperties := map[
        IptcTitle := rec.subject.GetOr(""),
        IptcCaption := rec.description.GetOr(""),
        IptcCopyright := CopyrightNoticeOf(rec)],
      thumbnailUri := DerivativePath(rec.modifiedImagePaths, 0),
      previewUri := DerivativePath(rec.modifiedImagePaths, 1),
      originalUri :=
        if !useThumbnail && rec.originalPath.Some? then rec.originalPath
        else DerivativePath(rec.modifiedImagePaths, 2),
      widthInPixels := rec.imageWidth,
      heightInPixels := rec.imageHeight)
  }

  // ---------------------------------------------------------------------
  // Properties of the mapping

  /** The proxy is identified by the record's `id` and labelled by its `subject`. */
  lemma MapsIdentifierAndLabel(rec: JsonAsset, options: seq<(string, Value)>, lib: Library)
    ensures FromJsonObject(rec, options, lib).identifier == rec.id
    ensures FromJsonObject(rec, options, lib).assetLabel == rec.subject
    ensures FromJsonObject(rec, options, lib).fileSize == rec.fileSize
  {
  }

  /**
   * The thumbnail rule: when the record's media type has no `mediaTypes`
   * entry, or its flag is exactly `false`, file name and media type are those
   * of a `jpg`; otherwise they follow the lower-cased `fileType`.
   */
  lemma ThumbnailRuleDecidesFileType(rec: JsonAsset, options: seq<(string, Value)>, lib: Library)
    ensures var p := FromJsonObject(rec, options, lib);
            var entry := MediaTypeEntry(options, OriginalMediaType(rec, lib));
            var ext := if entry.None? || FlagIsFalse(entry.value) then "jpg" else AsciiLower(rec.fileType.GetOr(""));
            p.filename == lib.urlize(rec.subject.GetOr("")) + "." + ext &&
            p.mediaType == lib.mediaTypeFromFilename("foo." + ext)
  {
  }

  /** An entry whose flag is anything but `false` (missing, `true`, `0`, ...) keeps the own file type. */
  lemma ConfiguredTypeKeepsOwnFileType(rec: JsonAsset, options: seq<(string, Value)>, lib: Library)
    requires MediaTypeEntry(options, OriginalMediaType(rec, lib)).Some?
    requires !FlagIsFalse(MediaTypeEntry(options, OriginalMediaType(rec, lib)).value)
    ensures PresentedFileType(rec, options, lib) == AsciiLower(rec.fileType.GetOr(""))
    ensures rec.originalPath.Some? ==> FromJsonObject(rec, options, lib).originalUri == rec.originalPath
  {
  }

  /**
   * Tags are the comma-separated pieces of `keywords`, untrimmed: they join
   * back to `keywords` exactly, none holds a comma, and "" gives [""].
   */
  lemma {:induction false} TagsSplitKeywords(rec: JsonAsset, options: seq<(string, Value)>, lib: Library)
    ensures var tags := FromJsonObject(rec, options, lib).tags;
            (rec.keywords.None? ==> tags == []) &&
            (rec.keywords.Some? ==>
               |tags| >= 1 && Implode(',', tags) == rec.keywords.value &&
               (forall i :: 0 <= i < |tags| ==> ',' !in tags[i])) &&
            (rec.keywords == Some("") ==> tags == [""])
  {
    if rec.keywords.Some? {
      ImplodeExplode(',', rec.keywords.value);
    }
  }

  /** Title, caption and copyright are always there, '' by default; any other property reads as ''. */
  lemma IptcPropertiesAlwaysPresent(rec: JsonAsset, options: seq<(string, Value)>, lib: Library, other: string)
    requires other != IptcTitle && other != IptcCaption && other != IptcCopyright
    ensures var p := FromJsonObject(rec, options, lib);
            p.HasIptcProperty(IptcTitle) && p.GetIptcProperty(IptcTitle) == rec.subject.GetOr("") &&
            p.HasIptcProperty(IptcCaption) && p.GetIptcProperty(IptcCaption) == rec.description.GetOr("") &&
            p.HasIptcProperty(IptcCopyright) && p.GetIptcProperty(IptcCopyright) == CopyrightNoticeOf(rec) &&
            !p.HasIptcProperty(other) && p.GetIptcProperty(other) == ""
  {
  }

  /** Width and height are copied (absent stays absent); a missing `modifyDate` becomes "1.1.2000". */
  lemma DimensionsAndDateDefaults(rec: JsonAsset, options: seq<(string, Value)>, lib: Library)
    ensures var p := FromJsonObject(rec, options, lib);
            p.widthInPixels == rec.imageWidth && p.heightInPixels == rec.imageHeight &&
            (rec.modifyDate.None? ==> p.lastModified == DefaultLastModified) &&
            (rec.modifyDate.Some? ==> p.lastModified == rec.modifyDate.value)
  {
  }

  /**
   * Entries 0 and 1 give thumbnail and preview; the original is `originalPath`
   * when the own file is served and the record has one, otherwise entry 2.
   */
  lemma DerivativeSlots(rec: JsonAsset, options: seq<(string, Value)>, lib: Library)
    ensures var p := FromJsonObject(rec, options, lib);
            var useThumbnail := UsesThumbnailAsOriginal(options, OriginalMediaType(rec, lib));
            p.thumbnailUri == DerivativePath(rec.modifiedImagePaths, 0) &&
            p.previewUri == DerivativePath(rec.modifiedImagePaths, 1) &&
            (!useThumbnail && rec.originalPath.Some? ==> p.originalUri == rec.originalPath) &&
            (useThumbnail || rec.originalPath.None? ==> p.originalUri == DerivativePath(rec.modifiedImagePaths, 2))
  {
  }

  /** A list of derivatives and the same list as an object with keys "0", "1", ... give the same entries. */
  lemma ListAndObjectShapesAgree(items: seq<Option<string>>, i: nat)
    ensures DerivativePath(Some(PathList(items)), i) == DerivativePath(Some(PathObject(IndexMap(items))), i)
  {
    if i < |items| {
      IndexMapAt(items, i);
    } else {
      IndexMapBeyond(items, i);
    }
  }

  /**
   * Mapping the object-forced copy of a record (what a cache entry written
   * with JSON_FORCE_OBJECT decodes to) gives the same proxy as the record.
   */
  lemma ForcedObjectMapsAlike(rec: JsonAsset, options: seq<(string, Value)>, lib: Library)
    ensures FromJsonObject(ForceObject(rec), options, lib) == FromJsonObject(rec, options, lib)
  {
    if rec.modifiedImagePaths.Some? && rec.modifiedImagePaths.value.PathList? {
      var items := rec.modifiedImagePaths.value.items;
      ListAndObjectShapesAgree(items, 0);
      ListAndObjectShapesAgree(items, 1);
      ListAndObjectShapesAgree(items, 2);
    }
  }
}
