/**
 * The auto-tagger: when Neos reports a new asset of a pixx.io source with
 * auto-tagging enabled, the in-use tag is added to (usage above 0) or
 * removed from (usage 0) the asset's keywords on pixx.io.
 */
module AutoTagging {
  import opened Wrappers
  import opened PhpStrings
  import opened PhpValues
  import opened PixxioApi
  import opened Externals
  import opened AssetProxies
  import opened PixxioService
  import opened SourceConfiguration
  import opened AssetSources
  import opened TagLists
  import opened NeosMedia

  /** An entry of the asset source registry: a pixx.io source or a source of another kind. */
  datatype RegisteredSource = PixxioSource(source: PixxioAssetSource) | OtherSource

  /**
   * The keyword list `registerCreatedAsset` sends: the tags plus the in-use
   * tag (`array_unique(array_merge(...))`), or the distinct tags without it
   * (`array_flip` / `unset` / `array_flip`).
   */
  function CreatedAssetTags(used: bool, tags: seq<string>, tag: string): seq<string> {
    if used then Distinct(tags + [tag]) else Without(Distinct(tags), tag)
  }

  /**
   * The tags sent are duplicate-free; with usage they are the tags and the
   * in-use tag, without usage the tags other than the in-use tag.
   */
  lemma CreatedTagsShape(used: bool, tags: seq<string>, tag: string)
    ensures var r := CreatedAssetTags(used, tags, tag);
            NoDuplicates(r) &&
            (used ==> forall x :: x in r <==> x in tags || x == tag) &&
            (!used ==> forall x :: x in r <==> x in tags && x != tag)
  {
    DistinctElements(tags + [tag]);
    DistinctElements(tags);
    WithoutKeepsNoDuplicates(Distinct(tags), tag);
  }

  /** The tags sent keep the order in which they first occur in the tags followed by the in-use tag. */
  lemma CreatedTagsKeepFirstOccurrenceOrder(used: bool, tags: seq<string>, tag: string, i: nat, j: nat)
    requires i < j < |CreatedAssetTags(used, tags, tag)|
    ensures var r := CreatedAssetTags(used, tags, tag);
            r[i] in tags + [tag] && r[j] in tags + [tag] &&
            FirstIndex(tags + [tag], r[i]) < FirstIndex(tags + [tag], r[j])
  {
    var r := CreatedAssetTags(used, tags, tag);
    if used {
      DistinctKeepsFirstOccurrenceOrder(tags + [tag], i, j);
    } else {
      var d := Distinct(tags);
      WithoutKeepsOrder(d, tag, i, j);
      var a, b :| 0 <= a < b < |d| && d[a] == r[i] && d[b] == r[j];
      DistinctKeepsFirstOccurrenceOrder(tags, a, b);
      FirstIndexOfPrefix(tags, [tag], r[i]);
      FirstIndexOfPrefix(tags, [tag], r[j]);
    }
  }

  /** Once the tags sent are read back, tagging the asset again sends the same list. */
  lemma CreatedTagsStable(used: bool, tags: seq<string>, tag: string)
    ensures CreatedAssetTags(used, CreatedAssetTags(used, tags, tag), tag) == CreatedAssetTags(used, tags, tag)
  {
    var r := CreatedAssetTags(used, tags, tag);
    CreatedTagsShape(used, tags, tag);
    if used {
      DistinctAppendPresent(r, tag);
    } else {
      DistinctOfDistinctFree(r);
      WithoutAbsent(r, tag);
    }
  }

  /**
   * The keywords text reads back (as `fromJsonObject` splits it) as the
   * list sent, as long as the list is not empty and no tag holds a comma;
   * an empty list is sent as "", which reads back as one empty tag.
   */
  lemma CreatedKeywordsReadBack(used: bool, tags: seq<string>, tag: string)
    requires forall i :: 0 <= i < |tags| ==> ',' !in tags[i]
    requires ',' !in tag
    ensures var r := CreatedAssetTags(used, tags, tag);
            (r != [] ==> Explode(',', Implode(',', r)) == r) &&
            (r == [] ==> Explode(',', Implode(',', r)) == [""])
  {
    var r := CreatedAssetTags(used, tags, tag);
    CreatedTagsShape(used, tags, tag);
    forall i | 0 <= i < |r|
      ensures ',' !in r[i]
    {
      assert r[i] in r;
      if r[i] != tag {
        var k :| 0 <= k < |tags| && tags[k] == r[i];
      }
    }
    if r != [] {
      ExplodeImplode(',', r);
    }
  }

  /** The configured in-use tag never holds the comma that separates keywords. */
  lemma InUseTagHasNoComma(identifier: string, options: seq<(string, Value)>, lib: Library)
    requires Configure(identifier, options, lib).Ok?
    ensures ',' !in Configure(identifier, options, lib).value.autoTaggingInUseTag
  {
    InUseTagIsClean(identifier, options, lib);
  }

  /** The update request for one asset with the client's endpoint and token. */
  function KeywordsUpdate(endpoint: string, token: string, identifier: string, tags: seq<string>): Request {
    UpdateFileRequest(endpoint + "/json/files/" + identifier, token, UpdateOptions(Str(Implode(',', tags))))
  }

  class PixxioAutoTagger {
    var assetSources: map<string, RegisteredSource>

    constructor()
      ensures assetSources == map[]
    {
      assetSources := map[];
    }

    /** `initializeObject`: the registry of the asset source service. */
    method InitializeObject(registered: map<string, RegisteredSource>)
      modifies this
      ensures assetSources == registered
    {
      assetSources := registered;
    }

    /** The pixx.io source the asset's source identifier is registered with, if any. */
    function RegisteredPixxioSource(asset: MediaAsset): Option<PixxioAssetSource>
      reads this
    {
      if asset.assetSourceIdentifier in assetSources && assetSources[asset.assetSourceIdentifier].PixxioSource?
      then Some(assetSources[asset.assetSourceIdentifier].source) else None
    }

    /** The source through which the asset is tagged: registered pixx.io source, pixx.io proxy, tagging enabled. */
    function TaggingSource(asset: MediaAsset): (r: Option<PixxioAssetSource>)
      reads this
      ensures r.Some? ==> RegisteredPixxioSource(asset) == r && asset.assetProxy.PixxioProxy? &&
                          r.value.IsAutoTaggingEnabled()
    {
      var registered := RegisteredPixxioSource(asset);
      if registered.Some? && asset.assetProxy.PixxioProxy? && registered.value.IsAutoTaggingEnabled()
      then registered else None
    }

    function TaggingFrame(asset: MediaAsset): set<object>
      reads this
    {
      if TaggingSource(asset).Some? then {TaggingSource(asset).value, TaggingSource(asset).value.transport} else {}
    }

    /**
     * `registerCreatedAsset`: the guard chain, then the client and one
     * unconditional `updateFile`; the package's own exceptions are caught,
     * so only a lookup failure or a type error comes out; the debug line of
     * the disabled case reads the proxy's label before any `try`.
     */
    method RegisterCreatedAsset(asset: MediaAsset) returns (r: Result<(), PixxioError>)
      requires TaggingSource(asset).Some? ==> TaggingSource(asset).value.Valid()
      modifies TaggingFrame(asset)
      ensures asset.assetSourceIdentifier !in assetSources ==> r == Ok(())
      ensures asset.assetSourceIdentifier in assetSources && asset.assetProxy.LookupFailed? ==>
              r == Err(asset.assetProxy.error)
      ensures asset.assetSourceIdentifier in assetSources && !asset.assetProxy.LookupFailed? &&
              (RegisteredPixxioSource(asset).None? || !asset.assetProxy.PixxioProxy?) ==>
              r == Ok(())
      ensures RegisteredPixxioSource(asset).Some? && asset.assetProxy.PixxioProxy? &&
              !RegisteredPixxioSource(asset).value.IsAutoTaggingEnabled() ==>
              (r.Ok? <==> asset.assetProxy.proxy.assetLabel.Some?) && (r.Err? ==> r.error.TypeError?)
      ensures RegisteredPixxioSource(asset).Some? && TaggingSource(asset).None? ==>
              unchanged(RegisteredPixxioSource(asset).value) && unchanged(RegisteredPixxioSource(asset).value.transport)
      ensures TaggingSource(asset).Some? ==>
              var source := TaggingSource(asset).value;
              var proxy := asset.assetProxy.proxy;
              var acquired := old(source.Acquisition());
              var sent := old(source.transport.sent) + old(source.AcquisitionRequests());
              source.Valid() &&
              if acquired.Err? then
                r == (if IsPackageException(acquired.error) then Ok(()) else Err(acquired.error)) &&
                source.transport.sent == sent
              else if proxy.identifier.None? then
                r.Err? && r.error.TypeError? && source.transport.sent == sent
              else
                r == Ok(()) &&
                source.transport.sent ==
                  sent + [KeywordsUpdate(ClientArguments(source.settings).value.0, acquired.value, proxy.identifier.value,
                                         CreatedAssetTags(asset.usageCount > 0, proxy.tags, source.GetAutoTaggingInUseTag()))]
    {
      var assetSourceIdentifier := asset.assetSourceIdentifier;
      if assetSourceIdentifier !in assetSources {
        return Ok(());
      }
      var registered := assetSources[assetSourceIdentifier];
      var lookup := asset.assetProxy;
      if lookup.LookupFailed? {
        return Err(lookup.error);
      }
      if !registered.PixxioSource? || !lookup.PixxioProxy? {
        return Ok(());
      }
      var source := registered.source;
      if !source.IsAutoTaggingEnabled() {
        // the debug line names the proxy by its label
        var proxyLabel := lookup.proxy.GetLabel();
        if proxyLabel.Err? {
          return Err(proxyLabel.error);
        }
        return Ok(());
      }
      var client := source.GetPixxioClient();
      match client
      case Err(e) =>
        r := if IsPackageException(e) then Ok(()) else Err(e);
      case Ok(pixxioClient) =>
        var tags := CreatedAssetTags(asset.usageCount > 0, lookup.proxy.tags, source.GetAutoTaggingInUseTag());
        var identifier := lookup.proxy.GetIdentifier();
        if identifier.Err? {
          return Err(identifier.error);
        }
        var updated := pixxioClient.UpdateFile(identifier.value, [("keywords", Str(Implode(',', tags)))]);
        match updated
        case Err(e) =>
          r := if IsPackageException(e) then Ok(()) else Err(e);
        case Ok(_) =>
          r := Ok(());
    }

    /** `registerRemovedAsset` only logs. */
    method RegisterRemovedAsset(asset: MediaAsset)
      ensures unchanged(this)
    {
    }
  }
}
