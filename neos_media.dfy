/**
 * The parts of Neos's media model the tagging and metadata code touches:
 * a stored asset with its source identifier, usage count, editable metadata
 * and the outcome of resolving its remote proxy, and the asset repository's
 * `update`.
 *
 * How Neos resolves an asset's proxy (the imported-asset registry and the
 * exceptions it swallows) is not part of this model: each asset carries the
 * outcome of `getAssetProxy()` as a value.
 */
module NeosMedia {
  import opened PixxioApi
  import opened AssetProxies

  /** What `$asset->getAssetProxy()` gives: null, a proxy of another source, a pixx.io proxy, or an exception. */
  datatype ProxyLookup =
    | NoProxy
    | ForeignProxy
    | PixxioProxy(proxy: PixxioAssetProxy)
    | LookupFailed(error: PixxioError)

  /** Title, caption and copyright notice of an asset. */
  datatype Metadata = Metadata(title: string, caption: string, copyrightNotice: string)

  class MediaAsset {
    /** Whether the object is a `Neos\Media\Domain\Model\Asset` (and so source-aware). */
    const isAsset: bool
    const assetLabel: string
    const assetSourceIdentifier: string
    const usageCount: int
    const assetProxy: ProxyLookup
    var title: string
    var caption: string
    var copyrightNotice: string

    constructor(isAsset: bool, assetLabel: string, assetSourceIdentifier: string, usageCount: int,
                assetProxy: ProxyLookup, metadata: Metadata)
      ensures this.isAsset == isAsset && this.assetLabel == assetLabel && this.assetSourceIdentifier == assetSourceIdentifier
      ensures this.usageCount == usageCount && this.assetProxy == assetProxy
      ensures Current() == metadata
    {
      this.isAsset := isAsset;
      this.assetLabel := assetLabel;
      this.assetSourceIdentifier := assetSourceIdentifier;
      this.usageCount := usageCount;
      this.assetProxy := assetProxy;
      title := metadata.title;
      caption := metadata.caption;
      copyrightNotice := metadata.copyrightNotice;
    }

    function Current(): Metadata
      reads this
    {
      Metadata(title, caption, copyrightNotice)
    }

    method SetTitle(title: string)
      modifies this
      ensures Current() == old(Current()).(title := title)
    {
      this.title := title;
    }

    method SetCaption(caption: string)
      modifies this
      ensures Current() == old(Current()).(caption := caption)
    {
      this.caption := caption;
    }

    method SetCopyrightNotice(copyrightNotice: string)
      modifies this
      ensures Current() == old(Current()).(copyrightNotice := copyrightNotice)
    {
      this.copyrightNotice := copyrightNotice;
    }
  }

  /** The asset repository, reduced to the log of assets passed to `update`. */
  class AssetRepository {
    var updated: seq<MediaAsset>

    constructor()
      ensures updated == []
    {
      updated := [];
    }

    method Update(asset: MediaAsset)
      modifies this
      ensures updated == old(updated) + [asset]
    {
      updated := updated + [asset];
    }
  }
}
