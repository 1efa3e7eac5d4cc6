/**
 * The two console commands: `pixxio:tagusedassets`, which brings the
 * in-use tag of every asset of one source in line with its usage, and
 * `pixxio:updatemetadata`, which copies title, caption and copyright
 * notice from pixx.io into the local assets.
 */
module PixxioCommands {
  import opened Wrappers
  import opened PhpStrings
  import opened PhpValues
  import opened PixxioApi
  import opened Externals
  import opened AssetProxies
  import opened PixxioService
  import opened SourceConfiguration
  import opened AssetSources
  import opened TagLists
  import opened NeosMedia
  import opened AutoTagging

  /** Why a command stops: the source's configuration, or an exception on the way. */
  datatype CommandError = ConfigurationFailed(configError: ConfigError) | Failed(error: PixxioError)

  datatype TagOutcome = AutoTaggingDisabled | AssetsTagged

  // ---------------------------------------------------------------------
  // Which assets are looked at

  datatype Examined = Skipped | Aborted(error: PixxioError) | Considered(proxy: PixxioAssetProxy)

  /**
   * The guards both commands apply to each stored asset: only assets of the
   * given source; a denied lookup is reported and skipped, any other lookup
   * exception ends the command, and an asset without a pixx.io proxy is
   * reported and skipped.
   */
  function Examine(asset: MediaAsset, assetSourceIdentifier: string): Examined {
    if !asset.isAsset || asset.assetSourceIdentifier != assetSourceIdentifier then Skipped
    else match asset.assetProxy
      case LookupFailed(e) => if e == AccessToAssetDenied then Skipped else Aborted(e)
      case PixxioProxy(p) => Considered(p)
      case _ => Skipped
  }

  /**
   * An asset is considered iff it is an asset of the source with a pixx.io
   * proxy, and the command stops at it iff its lookup threw anything but a
   * denied access.
   */
  lemma ExamineCases(asset: MediaAsset, assetSourceIdentifier: string)
    ensures var r := Examine(asset, assetSourceIdentifier);
            (r.Considered? <==> asset.isAsset && asset.assetSourceIdentifier == assetSourceIdentifier && asset.assetProxy.PixxioProxy?) &&
            (r.Considered? ==> r.proxy == asset.assetProxy.proxy) &&
            (r.Aborted? <==> asset.isAsset && asset.assetSourceIdentifier == assetSourceIdentifier &&
                             asset.assetProxy.LookupFailed? && asset.assetProxy.error != AccessToAssetDenied) &&
            (r.Aborted? ==> r.error == asset.assetProxy.error)
  {
  }

  // ---------------------------------------------------------------------
  // Tag computation of tagUsedAssets

  /**
   * The new keyword list: the sorted current tags plus the in-use tag, or
   * without it, deduplicated and sorted again.
   */
  function CommandTags(used: bool, tags: seq<string>, tag: string): seq<string> {
    var currentTags := SortStrings(tags);
    if used then SortStrings(Distinct(currentTags + [tag]))
    else SortStrings(Without(Distinct(currentTags), tag))
  }

  /**
   * The new list is sorted and duplicate-free; with usage it holds the tags
   * and the in-use tag, without usage the tags other than the in-use tag.
   */
  lemma CommandTagsShape(used: bool, tags: seq<string>, tag: string)
    ensures var r := CommandTags(used, tags, tag);
            Sorted(r) && NoDuplicates(r) &&
            (used ==> forall x :: x in r <==> x in tags || x == tag) &&
            (!used ==> forall x :: x in r <==> x in tags && x != tag)
  {
    var currentTags := SortStrings(tags);
    SortStringsKeepsElements(tags);
    var unsorted := if used then Distinct(currentTags + [tag]) else Without(Distinct(currentTags), tag);
    DistinctElements(currentTags + [tag]);
    DistinctElements(currentTags);
    WithoutKeepsNoDuplicates(Distinct(currentTags), tag);
    SortStringsSorted(unsorted);
    SortStringsKeepsElements(unsorted);
  }

  /**
   * `updateFile` is skipped exactly when the sorted current tags are
   * already duplicate-free and carry the in-use tag iff the asset is used.
   */
  lemma CommandNoUpdateIff(used: bool, tags: seq<string>, tag: string)
    ensures SortStrings(tags) == CommandTags(used, tags, tag) <==>
            NoDuplicates(tags) && (used <==> tag in tags)
  {
    var currentTags := SortStrings(tags);
    var r := CommandTags(used, tags, tag);
    CommandTagsShape(used, tags, tag);
    SortStringsKeepsElements(tags);
    SortStringsSorted(tags);
    if NoDuplicates(tags) && (used <==> tag in tags) {
      if used {
        DistinctAppendPresent(currentTags, tag);
      } else {
        DistinctOfDistinctFree(currentTags);
        WithoutAbsent(currentTags, tag);
      }
      SortStringsOfSorted(currentTags);
    }
  }

  /** Running the command again on the written tags issues no update. */
  lemma CommandTagsIdempotent(used: bool, tags: seq<string>, tag: string)
    ensures var r := CommandTags(used, tags, tag);
            SortStrings(r) == CommandTags(used, r, tag) && CommandTags(used, r, tag) == r
  {
    var r := CommandTags(used, tags, tag);
    CommandTagsShape(used, tags, tag);
    CommandNoUpdateIff(used, r, tag);
    SortStringsOfSorted(r);
  }

  /** The command writes what the auto-tagger writes, sorted. */
  lemma CommandAgreesWithAutoTagger(used: bool, tags: seq<string>, tag: string)
    ensures SortStrings(CreatedAssetTags(used, tags, tag)) == CommandTags(used, tags, tag)
  {
    var currentTags := SortStrings(tags);
    SortStringsKeepsElements(tags);
    var unsorted := if used then Distinct(currentTags + [tag]) else Without(Distinct(currentTags), tag);
    DistinctElements(currentTags + [tag]);
    DistinctElements(currentTags);
    WithoutKeepsNoDuplicates(Distinct(currentTags), tag);
    CreatedTagsShape(used, tags, tag);
    SortStringsOfSameElements(CreatedAssetTags(used, tags, tag), unsorted);
  }

  // ---------------------------------------------------------------------
  // The tagging loop

  datatype TagAction = Skip | Abort(error: PixxioError) | KeepTags | Retag(identifier: string, tags: seq<string>)

  /** What the loop does with one asset. */
  function TagActionFor(asset: MediaAsset, assetSourceIdentifier: string, tag: string): TagAction {
    match Examine(asset, assetSourceIdentifier)
    case Skipped => Skip
    case Aborted(e) => Abort(e)
    case Considered(p) => ProxyActionFor(asset.usageCount > 0, p, tag)
  }

  /** What the loop does with a considered asset's proxy, given whether the asset is used. */
  function ProxyActionFor(used: bool, p: PixxioAssetProxy, tag: string): TagAction {
    var newTags := CommandTags(used, p.tags, tag);
    if SortStrings(p.tags) == newTags then
      // the "(tagged)" line of a used asset prints the identifier
      if used && p.GetIdentifier().Err? then Abort(p.GetIdentifier().error) else KeepTags
    else match p.GetIdentifier()
      case Err(e) => Abort(e)
      case Ok(identifier) => Retag(identifier, newTags)
  }

  /**
   * An asset whose pixx.io keywords are already what the command writes is
   * left alone, except that a used one whose proxy has no identifier ends
   * the command with the `TypeError` of `getIdentifier` (its "(tagged)"
   * line prints the identifier; the "(removed)" line does not).
   */
  lemma SettledAssetIsKept(asset: MediaAsset, assetSourceIdentifier: string, tag: string, earlier: seq<string>)
    requires Examine(asset, assetSourceIdentifier).Considered?
    requires asset.assetProxy.proxy.tags == CommandTags(asset.usageCount > 0, earlier, tag)
    ensures var identifier := asset.assetProxy.proxy.GetIdentifier();
            TagActionFor(asset, assetSourceIdentifier, tag) ==
              if asset.usageCount > 0 && identifier.Err? then Abort(identifier.error) else KeepTags
  {
    CommandTagsIdempotent(asset.usageCount > 0, earlier, tag);
  }

  /** The action for each asset, in order. */
  function TagActions(assets: seq<MediaAsset>, assetSourceIdentifier: string, tag: string): (r: seq<TagAction>)
    ensures |r| == |assets|
    decreases |assets|
  {
    if |assets| == 0 then [] else [TagActionFor(assets[0], assetSourceIdentifier, tag)] + TagActions(assets[1..], assetSourceIdentifier, tag)
  }

  /** The action at each position is the one for the asset there. */
  lemma {:induction false} TagActionsAt(assets: seq<MediaAsset>, assetSourceIdentifier: string, tag: string, i: nat)
    requires i < |assets|
    ensures TagActions(assets, assetSourceIdentifier, tag)[i] == TagActionFor(assets[i], assetSourceIdentifier, tag)
    decreases i
  {
    if i > 0 {
      TagActionsAt(assets[1..], assetSourceIdentifier, tag, i - 1);
      assert assets[1..][i - 1] == assets[i];
    }
  }

  /** The requests one action sends and the error it ends the loop with, if any. */
  function StepRun(action: TagAction, endpoint: string, token: string,
                   updateFile: Request -> HttpOutcome<string>): (seq<Request>, Option<PixxioError>)
  {
    match action
    case Abort(e) => ([], Some(e))
    case Retag(identifier, tags) =>
      var request := KeywordsUpdate(endpoint, token, identifier, tags);
      (match updateFile(request)
       case TransportFailure(m) => ([request], Some(ConnectionFailed("Updating file failed: " + m)))
       case Received(_) => ([request], None))
    case _ => ([], None)
  }

  /**
   * The requests the loop sends for the given actions, and the error that
   * ended it, if any: an aborting asset, or the first failed update.
   */
  function TagRun(actions: seq<TagAction>, endpoint: string, token: string,
                  updateFile: Request -> HttpOutcome<string>): (seq<Request>, Option<PixxioError>)
    decreases |actions|
  {
    if |actions| == 0 then ([], None)
    else
      var first := StepRun(actions[0], endpoint, token, updateFile);
      if first.1.Some? then first else Then(first.0, TagRun(actions[1..], endpoint, token, updateFile))
  }

  /** The updates of all assets that need retagging, in order: what a run without errors sends. */
  function RetagRequests(actions: seq<TagAction>, endpoint: string, token: string): seq<Request>
    decreases |actions|
  {
    if |actions| == 0 then []
    else if actions[0].Retag? then
      [KeywordsUpdate(endpoint, token, actions[0].identifier, actions[0].tags)] + RetagRequests(actions[1..], endpoint, token)
    else RetagRequests(actions[1..], endpoint, token)
  }

  /**
   * The loop sends a prefix of the updates the assets need, in their order,
   * and all of them when it completes.
   */
  lemma {:induction false} TagRunSendsNeededUpdates(actions: seq<TagAction>, endpoint: string, token: string,
                                                    updateFile: Request -> HttpOutcome<string>)
    ensures var run := TagRun(actions, endpoint, token, updateFile);
            var needed := RetagRequests(actions, endpoint, token);
            run.0 <= needed && (run.1.None? ==> run.0 == needed)
    decreases |actions|
  {
    if |actions| > 0 {
      TagRunSendsNeededUpdates(actions[1..], endpoint, token, updateFile);
    }
  }

  /** The loop completes iff no asset aborts it and every update it needs goes through. */
  lemma {:induction false} TagRunCompletes(actions: seq<TagAction>, endpoint: string, token: string,
                                           updateFile: Request -> HttpOutcome<string>)
    ensures TagRun(actions, endpoint, token, updateFile).1.None? <==>
            forall k :: 0 <= k < |actions| ==>
              !actions[k].Abort? &&
              (actions[k].Retag? ==> updateFile(KeywordsUpdate(endpoint, token, actions[k].identifier, actions[k].tags)).Received?)
    decreases |actions|
  {
    if |actions| > 0 {
      TagRunCompletes(actions[1..], endpoint, token, updateFile);
      forall k | 1 <= k < |actions|
        ensures actions[k] == actions[1..][k - 1]
      {
      }
    }
  }

  /** With every asset skipped or already settled, the loop sends nothing and completes. */
  lemma {:induction false} SettledRunSendsNothing(actions: seq<TagAction>, endpoint: string, token: string,
                                                  updateFile: Request -> HttpOutcome<string>)
    requires forall k :: 0 <= k < |actions| ==> actions[k].Skip? || actions[k].KeepTags?
    ensures TagRun(actions, endpoint, token, updateFile) == ([], None)
    decreases |actions|
  {
    if |actions| > 0 {
      assert forall k :: 0 <= k < |actions[1..]| ==> actions[1..][k] == actions[k + 1];
      SettledRunSendsNothing(actions[1..], endpoint, token, updateFile);
      var nothing: seq<Request> := [];
      assert nothing + nothing == nothing;
    }
  }

  /** Requests already sent, followed by a run. */
  function Then(done: seq<Request>, run: (seq<Request>, Option<PixxioError>)): (seq<Request>, Option<PixxioError>) {
    (done + run.0, run.1)
  }

  /** The run from position `i` is the run of that action, then (if it completed) the run from `i + 1`. */
  lemma TagRunStep(actions: seq<TagAction>, endpoint: string, token: string, updateFile: Request -> HttpOutcome<string>,
                   i: nat, done: seq<Request>)
    requires i < |actions|
    ensures var first := StepRun(actions[i], endpoint, token, updateFile);
            Then(done, TagRun(actions[i..], endpoint, token, updateFile)) ==
            (if first.1.Some? then Then(done, first) else Then(done + first.0, TagRun(actions[i + 1..], endpoint, token, updateFile)))
  {
    assert actions[i..][0] == actions[i] && actions[i..][1..] == actions[i + 1..];
    var first := StepRun(actions[i], endpoint, token, updateFile);
    var rest := TagRun(actions[i + 1..], endpoint, token, updateFile);
    assert done + (first.0 + rest.0) == (done + first.0) + rest.0;
  }

  /**
   * The body of the loop for one asset: the guards, then `updateFile` with
   * the new keywords where they differ from the sorted current tags.
   */
  method TagAsset(client: PixxioClient, asset: MediaAsset, assetSourceIdentifier: string, tag: string)
    returns (failure: Option<PixxioError>)
    modifies client.transport
    ensures var step := StepRun(TagActionFor(asset, assetSourceIdentifier, tag), client.apiEndpointUri, client.TokenText(),
                               client.transport.remote.updateFile);
            client.transport.sent == old(client.transport.sent) + step.0 && failure == step.1
  {
    var examined := Examine(asset, assetSourceIdentifier);
    if examined.Skipped? {
      return None;
    }
    if examined.Aborted? {
      return Some(examined.error);
    }
    failure := TagProxy(client, examined.proxy, asset.usageCount > 0, tag);
  }

  /** The loop body past the guards: `updateFile` with the new keywords where they differ from the sorted current tags. */
  method TagProxy(client: PixxioClient, proxy: PixxioAssetProxy, used: bool, tag: string) returns (failure: Option<PixxioError>)
    modifies client.transport
    ensures var step := StepRun(ProxyActionFor(used, proxy, tag), client.apiEndpointUri, client.TokenText(),
                               client.transport.remote.updateFile);
            client.transport.sent == old(client.transport.sent) + step.0 && failure == step.1
  {
    ghost var action := ProxyActionFor(used, proxy, tag);
    var newTags := CommandTags(used, proxy.tags, tag);
    var identifier := proxy.GetIdentifier();
    if SortStrings(proxy.tags) == newTags {
      if used && identifier.Err? {
        assert action == Abort(identifier.error);
        return Some(identifier.error);
      }
      assert action == KeepTags;
      return None;
    }
    if identifier.Err? {
      assert action == Abort(identifier.error);
      return Some(identifier.error);
    }
    assert action == Retag(identifier.value, newTags);
    var keywords := [("keywords", Str(Implode(',', newTags)))];
    assert IsSet(keywords, "keywords") && Lookup(keywords, "keywords") == Some(Str(Implode(',', newTags)));
    var updated := client.UpdateFile(identifier.value, keywords);
    if updated.Err? {
      return Some(updated.error);
    }
    return None;
  }

  /**
   * One turn of the tagging loop at position `i`: the requests sent so far
   * followed by the run from `i` make up the whole run; after the turn the
   * same holds from `i + 1`, or the run stopped here.
   */
  method TagAt(client: PixxioClient, assets: seq<MediaAsset>, i: nat, assetSourceIdentifier: string, tag: string,
               ghost actions: seq<TagAction>, ghost whole: (seq<Request>, Option<PixxioError>),
               ghost sent0: seq<Request>, ghost done: seq<Request>)
    returns (failure: Option<PixxioError>, ghost next: seq<Request>)
    requires i < |assets| && actions == TagActions(assets, assetSourceIdentifier, tag)
    requires client.transport.sent == sent0 + done
    requires whole == Then(done, TagRun(actions[i..], client.apiEndpointUri, client.TokenText(), client.transport.remote.updateFile))
    modifies client.transport
    ensures client.transport.sent == sent0 + next
    ensures failure.Some? ==> whole == (next, failure)
    ensures failure.None? ==>
              whole == Then(next, TagRun(actions[i + 1..], client.apiEndpointUri, client.TokenText(), client.transport.remote.updateFile))
  {
    ghost var endpoint := client.apiEndpointUri;
    ghost var token := client.TokenText();
    ghost var updateFile := client.transport.remote.updateFile;
    TagRunStep(actions, endpoint, token, updateFile, i, done);
    TagActionsAt(assets, assetSourceIdentifier, tag, i);
    ghost var first := StepRun(actions[i], endpoint, token, updateFile);
    failure := TagAsset(client, assets[i], assetSourceIdentifier, tag);
    next := done + first.0;
  }

  /** The loop of `tagUsedAssetsCommand` over the stored assets, with the source's client. */
  method TagAssets(client: PixxioClient, assets: seq<MediaAsset>, assetSourceIdentifier: string, tag: string)
    returns (r: Result<(), PixxioError>)
    modifies client.transport
    ensures var run := TagRun(TagActions(assets, assetSourceIdentifier, tag), client.apiEndpointUri, client.TokenText(),
                              client.transport.remote.updateFile);
            client.transport.sent == old(client.transport.sent) + run.0 &&
            r == (if run.1.Some? then Err(run.1.value) else Ok(()))
  {
    ghost var endpoint := client.apiEndpointUri;
    ghost var token := client.TokenText();
    ghost var updateFile := client.transport.remote.updateFile;
    ghost var actions := TagActions(assets, assetSourceIdentifier, tag);
    ghost var whole := TagRun(actions, endpoint, token, updateFile);
    ghost var sent0 := client.transport.sent;
    ghost var done: seq<Request> := [];
    var i := 0;
    assert actions[0..] == actions;
    assert done + whole.0 == whole.0 && sent0 + done == sent0;
    while i < |assets|
      invariant 0 <= i <= |assets|
      invariant client.TokenText() == token && client.transport.remote.updateFile == updateFile
      invariant client.transport.sent == sent0 + done
      invariant whole == Then(done, TagRun(actions[i..], endpoint, token, updateFile))
    {
      var failure;
      failure, done := TagAt(client, assets, i, assetSourceIdentifier, tag, actions, whole, sent0, done);
      if failure.Some? {
        return Err(failure.value);
      }
      i := i + 1;
    }
    assert actions[i..] == [];
    return Ok(());
  }

  /**
   * `tagUsedAssetsCommand`: the source from its configuration, its client
   * (authenticated before the enabled check), the flushed proxy cache, then
   * the loop. A disabled auto-tagging ends the command (`exit(1)`).
   * `assetSourcesConfiguration` maps each configured source to its
   * `assetSourceOptions` directly, so a source configured without that
   * key (a `TypeError` in the PHP) is not expressible here.
   */
  method TagUsedAssets(assetSourceIdentifier: string, assetSourcesConfiguration: map<string, seq<(string, Value)>>,
                       lib: Library, transport: Transport, securityContext: SecurityContext,
                       clientSecrets: map<string, string>, cache: StringCache, assets: seq<MediaAsset>)
    returns (r: Result<TagOutcome, CommandError>)
    modifies transport, cache
    ensures assetSourceIdentifier !in assetSourcesConfiguration ==>
            r.Err? && r.error.Failed? && r.error.error.TypeError? && unchanged(transport) && unchanged(cache)
    ensures assetSourceIdentifier in assetSourcesConfiguration ==>
            var configured := Configure(assetSourceIdentifier, assetSourcesConfiguration[assetSourceIdentifier], lib);
            if configured.Err? then
              r == Err(ConfigurationFailed(configured.error)) && unchanged(transport) && unchanged(cache)
            else
              var s := configured.value;
              var token := Authentication(s, securityContext, clientSecrets, transport.remote);
              var sent := old(transport.sent) + AuthenticationRequests(s, securityContext, clientSecrets);
              if token.Err? then
                r == Err(Failed(token.error)) && transport.sent == sent && unchanged(cache)
              else if !s.autoTaggingEnable then
                r == Ok(AutoTaggingDisabled) && transport.sent == sent && unchanged(cache)
              else
                var run := TagRun(TagActions(assets, assetSourceIdentifier, s.autoTaggingInUseTag), ClientArguments(s).value.0,
                                  token.value, transport.remote.updateFile);
                cache.entries == map[] && transport.sent == sent + run.0 &&
                r == (if run.1.Some? then Err(Failed(run.1.value)) else Ok(AssetsTagged))
  {
    if assetSourceIdentifier !in assetSourcesConfiguration {
      return Err(Failed(TypeError("createFromConfiguration(): null given for array $assetSourceOptions")));
    }
    var created := PixxioAssetSource.CreateFromConfiguration(assetSourceIdentifier, assetSourcesConfiguration[assetSourceIdentifier],
                                                            lib, transport, securityContext, clientSecrets, cache);
    if created.Err? {
      return Err(ConfigurationFailed(created.error));
    }
    var source := created.value;
    var client := source.GetPixxioClient();
    if client.Err? {
      return Err(Failed(client.error));
    }
    if !source.IsAutoTaggingEnabled() {
      return Ok(AutoTaggingDisabled);
    }
    var repository := source.GetAssetProxyRepository();
    repository.GetAssetProxyCache().Flush();
    var tagged := TagAssets(client.value, assets, assetSourceIdentifier, source.GetAutoTaggingInUseTag());
    if tagged.Err? {
      return Err(Failed(tagged.error));
    }
    return Ok(AssetsTagged);
  }

  // ---------------------------------------------------------------------
  // Metadata refresh of updateMetadata

  /** The proxy's IPTC title, caption and copyright notice. */
  function MetadataOfProxy(p: PixxioAssetProxy): Metadata {
    Metadata(p.GetIptcProperty(IptcTitle), p.GetIptcProperty(IptcCaption), p.GetIptcProperty(IptcCopyright))
  }

  /**
   * The three comparisons of `updateMetadataCommand` as written: the third
   * passes the copyright notice to `setTitle`.
   */
  function RefreshAsWritten(current: Metadata, p: PixxioAssetProxy): (Metadata, bool) {
    var remote := MetadataOfProxy(p);
    var titled := if remote.title != current.title then current.(title := remote.title) else current;
    var captioned := if remote.caption != titled.caption then titled.(caption := remote.caption) else titled;
    var noticed := if remote.copyrightNotice != captioned.copyrightNotice then captioned.(title := remote.copyrightNotice) else captioned;
    (noticed, remote.title != current.title || remote.caption != current.caption || remote.copyrightNotice != current.copyrightNotice)
  }

  /**
   * As written, a differing copyright notice is never stored: the title
   * receives it instead, and every later run finds the notice still
   * different and updates the asset again.
   */
  lemma RefreshAsWrittenMisplacesCopyright(current: Metadata, p: PixxioAssetProxy)
    requires MetadataOfProxy(p).copyrightNotice != current.copyrightNotice
    ensures RefreshAsWritten(current, p).0.copyrightNotice == current.copyrightNotice
    ensures RefreshAsWritten(current, p).0.title == MetadataOfProxy(p).copyrightNotice
    ensures RefreshAsWritten(RefreshAsWritten(current, p).0, p).1
  {
  }

  /** A concrete case: title "Sunset" and notice "ACME" on pixx.io turn a blank asset's title into "ACME". */
  lemma RefreshAsWrittenExample()
    ensures var p := PixxioAssetProxy(Some("1"), Some("Sunset"), "sunset.jpg", "1.1.2000", None, "image/jpeg", [],
                                      map[IptcTitle := "Sunset", IptcCaption := "", IptcCopyright := "ACME"],
                                      None, None, None, None, None);
            RefreshAsWritten(Metadata("", "", ""), p) == (Metadata("ACME", "", ""), true)
  {
  }

  /** The intended refresh: each of the three fields takes the proxy's value where it differs. */
  function Refresh(current: Metadata, p: PixxioAssetProxy): (Metadata, bool) {
    var remote := MetadataOfProxy(p);
    var titled := if remote.title != current.title then current.(title := remote.title) else current;
    var captioned := if remote.caption != titled.caption then titled.(caption := remote.caption) else titled;
    var noticed := if remote.copyrightNotice != captioned.copyrightNotice then captioned.(copyrightNotice := remote.copyrightNotice) else captioned;
    (noticed, remote.title != current.title || remote.caption != current.caption || remote.copyrightNotice != current.copyrightNotice)
  }

  /**
   * After the refresh the asset carries the proxy's metadata, the update
   * happens iff one of the three fields differed, and a second refresh
   * changes nothing.
   */
  lemma RefreshCopiesProxyMetadata(current: Metadata, p: PixxioAssetProxy)
    ensures Refresh(current, p).0 == MetadataOfProxy(p)
    ensures Refresh(current, p).1 <==> current != MetadataOfProxy(p)
    ensures Refresh(Refresh(current, p).0, p) == (MetadataOfProxy(p), false)
  {
  }

  /** Each asset's metadata, in order. */
  function MetadataOf(assets: seq<MediaAsset>): (r: seq<Metadata>)
    reads assets
    ensures |r| == |assets| && forall k :: 0 <= k < |assets| ==> r[k] == assets[k].Current()
    decreases |assets|
  {
    if |assets| == 0 then [] else [assets[0].Current()] + MetadataOf(assets[1..])
  }

  /** What the loop does with one asset: stop with an error, or leave it with some metadata, modified or not. */
  datatype AssetOutcome = Stopped(error: PixxioError) | Visited(after: Metadata, modified: bool)

  /**
   * The outcome for one asset with the given metadata: a considered asset is
   * refreshed, a skipped one kept. Unless `quiet`, the line naming a
   * considered asset prints its proxy's identifier first, so a proxy without
   * one ends the command with the `TypeError` of `getIdentifier`.
   */
  function OutcomeFor(asset: MediaAsset, current: Metadata, assetSourceIdentifier: string, quiet: bool): AssetOutcome {
    match Examine(asset, assetSourceIdentifier)
    case Aborted(e) => Stopped(e)
    case Considered(p) =>
      if !quiet && p.GetIdentifier().Err? then Stopped(p.GetIdentifier().error)
      else Visited(Refresh(current, p).0, Refresh(current, p).1)
    case Skipped => Visited(current, false)
  }

  /**
   * The exception the command stops with at an asset, if any: a lookup that
   * threw anything but a denied access, or, unless `quiet`, a considered
   * proxy without identifier.
   */
  function StopOf(asset: MediaAsset, assetSourceIdentifier: string, quiet: bool): Option<PixxioError> {
    var examined := Examine(asset, assetSourceIdentifier);
    if examined.Aborted? then Some(examined.error)
    else if examined.Considered? && !quiet && examined.proxy.identifier.None? then Some(examined.proxy.GetIdentifier().error)
    else None
  }

  /** The outcome for each asset, in order. */
  function Outcomes(assets: seq<MediaAsset>, before: seq<Metadata>, assetSourceIdentifier: string, quiet: bool): (r: seq<AssetOutcome>)
    requires |before| == |assets|
    ensures |r| == |assets|
    decreases |assets|
  {
    if |assets| == 0 then []
    else [OutcomeFor(assets[0], before[0], assetSourceIdentifier, quiet)] + Outcomes(assets[1..], before[1..], assetSourceIdentifier, quiet)
  }

  lemma {:induction false} OutcomesAt(assets: seq<MediaAsset>, before: seq<Metadata>, assetSourceIdentifier: string, quiet: bool, i: nat)
    requires |before| == |assets| && i < |assets|
    ensures Outcomes(assets, before, assetSourceIdentifier, quiet)[i] == OutcomeFor(assets[i], before[i], assetSourceIdentifier, quiet)
    decreases i
  {
    if i > 0 {
      OutcomesAt(assets[1..], before[1..], assetSourceIdentifier, quiet, i - 1);
      assert assets[1..][i - 1] == assets[i] && before[1..][i - 1] == before[i];
    }
  }

  /**
   * What the metadata loop leaves: the metadata of the assets it got past,
   * the assets updated, whether any was, and the error that ended it.
   */
  datatype MetadataRunResult = MetadataRunResult(after: seq<Metadata>, updated: seq<MediaAsset>, anyUpdated: bool,
                                                 failure: Option<PixxioError>)

  /** One run followed by another: metadata and updates concatenated, the later run's error. */
  function Join(done: MetadataRunResult, rest: MetadataRunResult): MetadataRunResult {
    MetadataRunResult(done.after + rest.after, done.updated + rest.updated, done.anyUpdated || rest.anyUpdated, rest.failure)
  }

  /** Joining runs is associative. */
  lemma JoinAssociative(a: MetadataRunResult, b: MetadataRunResult, c: MetadataRunResult)
    ensures Join(Join(a, b), c) == Join(a, Join(b, c))
  {
    assert (a.after + b.after) + c.after == a.after + (b.after + c.after);
    assert (a.updated + b.updated) + c.updated == a.updated + (b.updated + c.updated);
  }

  /** The loop of `updateMetadataCommand` from position `from` on, given each asset's outcome. */
  function MetadataRun(assets: seq<MediaAsset>, outcomes: seq<AssetOutcome>, from: nat): (r: MetadataRunResult)
    requires |outcomes| == |assets| && from <= |assets|
    ensures |r.after| <= |assets| - from && (r.failure.None? ==> |r.after| == |assets| - from)
    decreases |assets| - from
  {
    if from == |assets| then MetadataRunResult([], [], false, None)
    else if outcomes[from].Stopped? then MetadataRunResult([], [], false, Some(outcomes[from].error))
    else Join(StepOf(assets, outcomes, from), MetadataRun(assets, outcomes, from + 1))
  }

  /** The part of the run one visited asset contributes. */
  function StepOf(assets: seq<MediaAsset>, outcomes: seq<AssetOutcome>, i: nat): MetadataRunResult
    requires |outcomes| == |assets| && i < |assets| && outcomes[i].Visited?
  {
    MetadataRunResult([outcomes[i].after], if outcomes[i].modified then [assets[i]] else [], outcomes[i].modified, None)
  }

  /** At a stopped asset, the run ends with what was done before it and the asset's error. */
  lemma MetadataRunHalts(assets: seq<MediaAsset>, outcomes: seq<AssetOutcome>, i: nat, done: MetadataRunResult)
    requires |outcomes| == |assets| && i < |assets| && outcomes[i].Stopped?
    ensures Join(done, MetadataRun(assets, outcomes, i)) ==
            MetadataRunResult(done.after, done.updated, done.anyUpdated, Some(outcomes[i].error))
  {
    assert done.after + [] == done.after && done.updated + [] == done.updated;
  }

  /** Past a visited asset, the run is its step followed by the rest. */
  lemma MetadataRunAdvance(assets: seq<MediaAsset>, outcomes: seq<AssetOutcome>, i: nat, done: MetadataRunResult)
    requires |outcomes| == |assets| && i < |assets| && outcomes[i].Visited?
    ensures Join(done, MetadataRun(assets, outcomes, i)) ==
            Join(Join(done, StepOf(assets, outcomes, i)), MetadataRun(assets, outcomes, i + 1))
  {
    JoinAssociative(done, StepOf(assets, outcomes, i), MetadataRun(assets, outcomes, i + 1));
  }

  /** The metadata an asset should end with: its proxy's if it is considered, its own otherwise. */
  function RefreshedMetadata(asset: MediaAsset, current: Metadata, assetSourceIdentifier: string): Metadata {
    match Examine(asset, assetSourceIdentifier)
    case Considered(p) => MetadataOfProxy(p)
    case _ => current
  }

  /** Whether an asset is considered and its metadata differs from its proxy's. */
  predicate Stale(asset: MediaAsset, current: Metadata, assetSourceIdentifier: string) {
    Examine(asset, assetSourceIdentifier).Considered? &&
    current != MetadataOfProxy(Examine(asset, assetSourceIdentifier).proxy)
  }

  /** A visited asset ends with the metadata it should, and is modified iff it was stale. */
  lemma VisitedOutcome(asset: MediaAsset, current: Metadata, assetSourceIdentifier: string, quiet: bool)
    requires OutcomeFor(asset, current, assetSourceIdentifier, quiet).Visited?
    ensures OutcomeFor(asset, current, assetSourceIdentifier, quiet).after == RefreshedMetadata(asset, current, assetSourceIdentifier)
    ensures OutcomeFor(asset, current, assetSourceIdentifier, quiet).modified == Stale(asset, current, assetSourceIdentifier)
  {
    var e := Examine(asset, assetSourceIdentifier);
    if e.Considered? {
      RefreshCopiesProxyMetadata(current, e.proxy);
    }
  }

  /**
   * A completed run leaves every considered asset with its proxy's metadata
   * and every other asset as it was.
   */
  lemma {:induction false} MetadataRunRefreshes(assets: seq<MediaAsset>, before: seq<Metadata>, assetSourceIdentifier: string,
                                                quiet: bool, from: nat)
    requires |before| == |assets| && from <= |assets|
    ensures var run := MetadataRun(assets, Outcomes(assets, before, assetSourceIdentifier, quiet), from);
            run.failure.None? ==>
              forall k :: from <= k < |assets| ==> run.after[k - from] == RefreshedMetadata(assets[k], before[k], assetSourceIdentifier)
    decreases |assets| - from
  {
    var outcomes := Outcomes(assets, before, assetSourceIdentifier, quiet);
    var run := MetadataRun(assets, outcomes, from);
    if from < |assets| && run.failure.None? {
      var rest := MetadataRun(assets, outcomes, from + 1);
      MetadataRunRefreshes(assets, before, assetSourceIdentifier, quiet, from + 1);
      OutcomesAt(assets, before, assetSourceIdentifier, quiet, from);
      VisitedOutcome(assets[from], before[from], assetSourceIdentifier, quiet);
      assert run.after == [outcomes[from].after] + rest.after;
      forall k | from <= k < |assets|
        ensures run.after[k - from] == RefreshedMetadata(assets[k], before[k], assetSourceIdentifier)
      {
        if k > from {
          assert run.after[k - from] == rest.after[k - (from + 1)];
        }
      }
    }
  }

  /** A completed run reports an update iff some asset it visited was stale. */
  lemma {:induction false} MetadataRunReportsUpdates(assets: seq<MediaAsset>, before: seq<Metadata>, assetSourceIdentifier: string,
                                                     quiet: bool, from: nat)
    requires |before| == |assets| && from <= |assets|
    ensures var run := MetadataRun(assets, Outcomes(assets, before, assetSourceIdentifier, quiet), from);
            run.failure.None? ==>
              (run.anyUpdated <==> exists k :: from <= k < |assets| && Stale(assets[k], before[k], assetSourceIdentifier))
    decreases |assets| - from
  {
    var outcomes := Outcomes(assets, before, assetSourceIdentifier, quiet);
    var run := MetadataRun(assets, outcomes, from);
    if from < |assets| && run.failure.None? {
      var rest := MetadataRun(assets, outcomes, from + 1);
      MetadataRunReportsUpdates(assets, before, assetSourceIdentifier, quiet, from + 1);
      OutcomesAt(assets, before, assetSourceIdentifier, quiet, from);
      VisitedOutcome(assets[from], before[from], assetSourceIdentifier, quiet);
      assert run.anyUpdated == (outcomes[from].modified || rest.anyUpdated);
      if exists k :: from <= k < |assets| && Stale(assets[k], before[k], assetSourceIdentifier) {
        var k :| from <= k < |assets| && Stale(assets[k], before[k], assetSourceIdentifier);
        if k > from {
          assert rest.anyUpdated;
        }
      }
    }
  }

  /** The run stops exactly at the first asset that throws, with that exception. */
  lemma {:induction false} MetadataRunStops(assets: seq<MediaAsset>, before: seq<Metadata>, assetSourceIdentifier: string,
                                            quiet: bool, from: nat)
    requires |before| == |assets| && from <= |assets|
    ensures var run := MetadataRun(assets, Outcomes(assets, before, assetSourceIdentifier, quiet), from);
            (run.failure.None? <==> forall k :: from <= k < |assets| ==> StopOf(assets[k], assetSourceIdentifier, quiet).None?) &&
            (run.failure.Some? ==> var k := from + |run.after|;
               k < |assets| && StopOf(assets[k], assetSourceIdentifier, quiet) == run.failure)
    decreases |assets| - from
  {
    if from < |assets| {
      MetadataRunStops(assets, before, assetSourceIdentifier, quiet, from + 1);
      OutcomesAt(assets, before, assetSourceIdentifier, quiet, from);
    }
  }

  /**
   * Title, caption and copyright notice are each set where the proxy's value
   * differs, and a modified asset is passed to the repository's `update`.
   */
  method CopyProxyMetadata(asset: MediaAsset, proxy: PixxioAssetProxy, repository: AssetRepository) returns (assetModified: bool)
    modifies asset, repository
    ensures (asset.Current(), assetModified) == Refresh(old(asset.Current()), proxy)
    ensures repository.updated == old(repository.updated) + (if assetModified then [asset] else [])
  {
    assetModified := false;
    var newTitle := proxy.GetIptcProperty(IptcTitle);
    var newCaption := proxy.GetIptcProperty(IptcCaption);
    var newCopyrightNotice := proxy.GetIptcProperty(IptcCopyright);
    if newTitle != asset.title {
      asset.SetTitle(newTitle);
      assetModified := true;
    }
    if newCaption != asset.caption {
      asset.SetCaption(newCaption);
      assetModified := true;
    }
    if newCopyrightNotice != asset.copyrightNotice {
      asset.SetCopyrightNotice(newCopyrightNotice);
      assetModified := true;
    }
    if assetModified {
      repository.Update(asset);
    }
  }

  /**
   * The body of the metadata loop for one asset: the guards, the line naming
   * the asset and its proxy's identifier unless `quiet`, then the copy for a
   * pixx.io proxy.
   */
  method RefreshAsset(asset: MediaAsset, ghost current: Metadata, assetSourceIdentifier: string, quiet: bool,
                      repository: AssetRepository)
    returns (failure: Option<PixxioError>, assetModified: bool)
    requires asset.Current() == current
    modifies asset, repository
    ensures match OutcomeFor(asset, current, assetSourceIdentifier, quiet)
            case Stopped(e) =>
              failure == Some(e) && asset.Current() == old(asset.Current()) && repository.updated == old(repository.updated)
            case Visited(m, modified) =>
              failure.None? && asset.Current() == m && assetModified == modified &&
              repository.updated == old(repository.updated) + (if modified then [asset] else [])
  {
    if asset.isAsset && asset.assetSourceIdentifier == assetSourceIdentifier {
      var lookup := asset.assetProxy;
      if lookup.LookupFailed? && lookup.error != AccessToAssetDenied {
        return Some(lookup.error), false;
      }
      if lookup.PixxioProxy? {
        if !quiet {
          var identifier := lookup.proxy.GetIdentifier();
          if identifier.Err? {
            return Some(identifier.error), false;
          }
        }
        assetModified := CopyProxyMetadata(asset, lookup.proxy, repository);
        return None, assetModified;
      }
    }
    return None, false;
  }

  /**
   * The assets the loop got past carry the metadata `done` gave them, the
   * others their metadata from `before`.
   */
  ghost predicate Reached(assets: seq<MediaAsset>, before: seq<Metadata>, done: MetadataRunResult)
    reads assets
  {
    |before| == |assets| && |done.after| <= |assets| &&
    forall k :: 0 <= k < |assets| ==> assets[k].Current() == if k < |done.after| then done.after[k] else before[k]
  }

  /**
   * One turn of the metadata loop at position `i`: the assets before `i`
   * hold the run's metadata so far, the rest their original metadata; after
   * the turn the same holds one position further on, or the run stops.
   */
  method RefreshAt(assets: seq<MediaAsset>, i: nat, ghost before: seq<Metadata>, ghost outcomes: seq<AssetOutcome>,
                   ghost whole: MetadataRunResult, assetSourceIdentifier: string, quiet: bool, repository: AssetRepository,
                   ghost updated0: seq<MediaAsset>, ghost done: MetadataRunResult)
    returns (failure: Option<PixxioError>, assetModified: bool, ghost next: MetadataRunResult)
    requires forall i, j :: 0 <= i < j < |assets| ==> assets[i] != assets[j]
    requires |before| == |assets| && |outcomes| == |assets| && i < |assets|
    requires outcomes[i] == OutcomeFor(assets[i], before[i], assetSourceIdentifier, quiet)
    requires done.failure.None? && |done.after| == i && Reached(assets, before, done)
    requires whole == Join(done, MetadataRun(assets, outcomes, i)) && repository.updated == updated0 + done.updated
    modifies assets[i], repository
    ensures Reached(assets, before, next) && repository.updated == updated0 + next.updated
    ensures failure.Some? ==> whole == next.(failure := failure)
    ensures failure.None? ==> next.failure.None? && |next.after| == i + 1 && next.anyUpdated == (done.anyUpdated || assetModified) &&
                              whole == Join(next, MetadataRun(assets, outcomes, i + 1))
  {
    failure, assetModified := RefreshAsset(assets[i], before[i], assetSourceIdentifier, quiet, repository);
    if failure.Some? {
      MetadataRunHalts(assets, outcomes, i, done);
      next := done;
    } else {
      MetadataRunAdvance(assets, outcomes, i, done);
      assert updated0 + done.updated + StepOf(assets, outcomes, i).updated == updated0 + (done.updated + StepOf(assets, outcomes, i).updated);
      next := Join(done, StepOf(assets, outcomes, i));
    }
  }

  /**
   * The metadata loop of `updateMetadataCommand` (with the copyright notice
   * stored as intended): the assets the loop got past carry the run's
   * metadata, the others are untouched.
   */
  method RefreshMetadata(assets: seq<MediaAsset>, assetSourceIdentifier: string, quiet: bool, repository: AssetRepository)
    returns (r: Result<bool, PixxioError>)
    requires forall i, j :: 0 <= i < j < |assets| ==> assets[i] != assets[j]
    modifies assets
    modifies repository
    ensures var run := MetadataRun(assets, Outcomes(assets, old(MetadataOf(assets)), assetSourceIdentifier, quiet), 0);
            Reached(assets, old(MetadataOf(assets)), run) &&
            repository.updated == old(repository.updated) + run.updated &&
            r == (if run.failure.Some? then Err(run.failure.value) else Ok(run.anyUpdated))
  {
    ghost var before := MetadataOf(assets);
    ghost var outcomes := Outcomes(assets, before, assetSourceIdentifier, quiet);
    ghost var whole := MetadataRun(assets, outcomes, 0);
    ghost var done := MetadataRunResult([], [], false, None);
    ghost var updated0 := repository.updated;
    var assetsWereUpdated := false;
    var i := 0;
    assert [] + whole.after == whole.after && [] + whole.updated == whole.updated && updated0 + [] == updated0;
    while i < |assets|
      invariant 0 <= i <= |assets|
      invariant done.failure.None? && |done.after| == i && assetsWereUpdated == done.anyUpdated
      invariant whole == Join(done, MetadataRun(assets, outcomes, i))
      invariant Reached(assets, before, done) && repository.updated == updated0 + done.updated
    {
      var failure, assetModified;
      OutcomesAt(assets, before, assetSourceIdentifier, quiet, i);
      failure, assetModified, done := RefreshAt(assets, i, before, outcomes, whole, assetSourceIdentifier, quiet, repository,
                                                updated0, done);
      if failure.Some? {
        return Err(failure.value);
      }
      if assetModified {
        assetsWereUpdated := true;
      }
      i := i + 1;
    }
    assert done.after + [] == done.after && done.updated + [] == done.updated;
    return Ok(assetsWereUpdated);
  }

  /**
   * `updateMetadataCommand`: the source from its configuration, the flushed
   * proxy cache, then the loop; the result says whether any asset was
   * updated (which decides the closing hint). As for `TagUsedAssets`,
   * `assetSourcesConfiguration` maps each source to its `assetSourceOptions`
   * directly, so a source without that key is not expressible here.
   */
  method UpdateMetadata(assetSourceIdentifier: string, assetSourcesConfiguration: map<string, seq<(string, Value)>>,
                        lib: Library, transport: Transport, securityContext: SecurityContext,
                        clientSecrets: map<string, string>, cache: StringCache, assets: seq<MediaAsset>,
                        repository: AssetRepository, quiet: bool)
    returns (r: Result<bool, CommandError>)
    requires forall i, j :: 0 <= i < j < |assets| ==> assets[i] != assets[j]
    modifies cache, repository
    modifies assets
    ensures assetSourceIdentifier !in assetSourcesConfiguration ==>
            r.Err? && r.error.Failed? && r.error.error.TypeError? && unchanged(cache) && unchanged(repository)
    ensures assetSourceIdentifier in assetSourcesConfiguration ==>
            var configured := Configure(assetSourceIdentifier, assetSourcesConfiguration[assetSourceIdentifier], lib);
            var run := MetadataRun(assets, Outcomes(assets, old(MetadataOf(assets)), assetSourceIdentifier, quiet), 0);
            if configured.Err? then
              r == Err(ConfigurationFailed(configured.error)) && unchanged(cache) && unchanged(repository)
            else
              cache.entries == map[] &&
              Reached(assets, old(MetadataOf(assets)), run) &&
              repository.updated == old(repository.updated) + run.updated &&
              r == (if run.failure.Some? then Err(Failed(run.failure.value)) else Ok(run.anyUpdated))
  {
    if assetSourceIdentifier !in assetSourcesConfiguration {
      return Err(Failed(TypeError("createFromConfiguration(): null given for array $assetSourceOptions")));
    }
    var created := PixxioAssetSource.CreateFromConfiguration(assetSourceIdentifier, assetSourcesConfiguration[assetSourceIdentifier],
                                                            lib, transport, securityContext, clientSecrets, cache);
    if created.Err? {
      return Err(ConfigurationFailed(created.error));
    }
    var source := created.value;
    var assetProxyRepository := source.GetAssetProxyRepository();
    assetProxyRepository.GetAssetProxyCache().Flush();
    assert unchanged(assets) && unchanged(repository);
    ghost var before := MetadataOf(assets);
    assert before == old(MetadataOf(assets));
    var refreshed := RefreshMetadata(assets, assetSourceIdentifier, quiet, repository);
    if refreshed.Err? {
      return Err(Failed(refreshed.error));
    }
    return Ok(refreshed.value);
  }
}
