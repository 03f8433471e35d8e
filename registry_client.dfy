/**
 * The registry client's process-wide caches and the four operations over them.
 * Every request to the registry is replaced by a parameter holding what that
 * request would have produced; `requested` reports whether the operation
 * issued it.
 */
module RegistryClient {
  import opened Wrappers
  import opened RegistryTypes
  import ChainListing
  import AssetLookup

  class Client {
    /** The chain set, once a listing has been fetched. */
    var chains: Option<set<string>>
    /** Chain metadata documents by chain name. */
    var info: map<string, ChainInfo>
    /** Asset-list documents by chain name. */
    var assets: map<string, ChainAssetList>

    /** Every cached document carries the schema URL the client injected into it. */
    ghost predicate Valid()
      reads this
    {
      && (forall c :: c in info ==> info[c].schema == CHAIN_SCHEMA_URL)
      && (forall c :: c in assets ==> assets[c].schema == ASSETLIST_SCHEMA_URL)
    }

    /** All three caches start empty. */
    constructor ()
      ensures Valid()
      ensures chains == None && info == map[] && assets == map[]
    {
      chains := None;
      info := map[];
      assets := map[];
    }

    /**
     * `getChains`: on the first successful call, the chain names of the listing
     * are cached; afterwards the cached set is returned and no request is made.
     */
    method GetChains(listing: Fetch<seq<DirEntry>>) returns (r: Result<set<string>, Error>, requested: bool)
      requires Valid()
      modifies this
      ensures Valid()
      ensures requested <==> old(chains).None?
      ensures old(chains).Some? ==> r == Success(old(chains).value) && chains == old(chains)
      ensures old(chains).None? && listing.Ok? ==>
        r == Success(ChainListing.ChainNames(listing.doc)) && chains == Some(r.value)
      ensures old(chains).None? && listing.Failed? ==>
        r == Failure(Transport(listing.reason)) && chains == None
      ensures info == old(info) && assets == old(assets)
    {
      requested := chains.None?;
      if chains.None? {
        match listing
        case Failed(reason) =>
          return Failure(Transport(reason)), requested;
        case Ok(contents) =>
          chains := Some(ChainListing.ChainNames(contents));
      }
      r := Success(chains.value);
    }

    /**
     * `getChainInfo`: on a miss the fetched document is stored under `chain` and
     * its `$schema` overwritten; on a hit the cached document is returned and no
     * request is made. Only `info[chain]` can change.
     */
    method GetChainInfo(chain: string, fetched: Fetch<ChainInfo>) returns (r: Result<ChainInfo, Error>, requested: bool)
      requires Valid()
      modifies this
      ensures Valid()
      ensures requested <==> chain !in old(info)
      ensures chain in old(info) ==> r == Success(old(info)[chain]) && info == old(info)
      ensures chain !in old(info) && fetched.Ok? ==>
        r == Success(fetched.doc.(schema := CHAIN_SCHEMA_URL)) && info == old(info)[chain := r.value]
      ensures chain !in old(info) && fetched.Failed? ==>
        r == Failure(Transport(fetched.reason)) && info == old(info)
      ensures r.Success? ==> r.value.schema == CHAIN_SCHEMA_URL && chain in info && info[chain] == r.value
      ensures chains == old(chains) && assets == old(assets)
    {
      requested := chain !in info;
      if chain !in info {
        match fetched
        case Failed(reason) =>
          return Failure(Transport(reason)), requested;
        case Ok(doc) =>
          info := info[chain := doc];
          info := info[chain := info[chain].(schema := CHAIN_SCHEMA_URL)];
      }
      r := Success(info[chain]);
    }

    /**
     * `getChainAssets`: as `GetChainInfo`, over the independent asset-list cache
     * and with the asset-list schema URL.
     */
    method GetChainAssets(chain: string, fetched: Fetch<ChainAssetList>)
      returns (r: Result<ChainAssetList, Error>, requested: bool)
      requires Valid()
      modifies this
      ensures Valid()
      ensures requested <==> chain !in old(assets)
      ensures chain in old(assets) ==> r == Success(old(assets)[chain]) && assets == old(assets)
      ensures chain !in old(assets) && fetched.Ok? ==>
        r == Success(fetched.doc.(schema := ASSETLIST_SCHEMA_URL)) && assets == old(assets)[chain := r.value]
      ensures chain !in old(assets) && fetched.Failed? ==>
        r == Failure(Transport(fetched.reason)) && assets == old(assets)
      ensures r.Success? ==> r.value.schema == ASSETLIST_SCHEMA_URL && chain in assets && assets[chain] == r.value
      ensures chains == old(chains) && info == old(info)
    {
      requested := chain !in assets;
      if chain !in assets {
        match fetched
        case Failed(reason) =>
          return Failure(Transport(reason)), requested;
        case Ok(doc) =>
          assets := assets[chain := doc];
          assets := assets[chain := assets[chain].(schema := ASSETLIST_SCHEMA_URL)];
      }
      r := Success(assets[chain]);
    }

    /**
     * `getChainAsset`: obtains the chain's asset list through the cache, then
     * resolves the asset in it; a failed list fetch is propagated unchanged.
     */
    method GetChainAsset(chain: string, asset: string, fetched: Fetch<ChainAssetList>)
      returns (r: Result<ChainAsset, Error>, requested: bool)
      requires Valid()
      modifies this
      ensures Valid()
      ensures requested <==> chain !in old(assets)
      ensures chain in old(assets) ==>
        r == AssetLookup.Resolve(old(assets)[chain].assets, asset, chain) && assets == old(assets)
      ensures chain !in old(assets) && fetched.Ok? ==>
        r == AssetLookup.Resolve(fetched.doc.assets, asset, chain)
        && assets == old(assets)[chain := fetched.doc.(schema := ASSETLIST_SCHEMA_URL)]
      ensures chain !in old(assets) && fetched.Failed? ==>
        r == Failure(Transport(fetched.reason)) && assets == old(assets)
      ensures r.Success? ==> chain in assets && r.value in assets[chain].assets
      ensures chains == old(chains) && info == old(info)
    {
      var list;
      list, requested := GetChainAssets(chain, fetched);
      match list
      case Failure(e) =>
        r := Failure(e);
      case Success(l) =>
        r := AssetLookup.Resolve(l.assets, asset, chain);
    }
  }

  /**
   * Two `getChainInfo` calls for one chain: once the first has succeeded, the
   * second makes no request, returns the same document and leaves every cache
   * as the first call left it, whatever its own fetch would have produced.
   */
  method GetChainInfoTwice(client: Client, chain: string, first: Fetch<ChainInfo>, second: Fetch<ChainInfo>)
    returns (r1: Result<ChainInfo, Error>, r2: Result<ChainInfo, Error>, requested2: bool)
    requires client.Valid()
    modifies client
    ensures client.Valid()
    ensures r1.Success? ==> !requested2 && r2 == r1
    ensures r1.Success? ==> client.info == old(client.info)[chain := r1.value]
    ensures client.assets == old(client.assets) && client.chains == old(client.chains)
  {
    var requested1;
    r1, requested1 := client.GetChainInfo(chain, first);
    r2, requested2 := client.GetChainInfo(chain, second);
  }

  /**
   * Two `getChains` calls: once the first has succeeded, the second makes no
   * request and returns the identical set.
   */
  method GetChainsTwice(client: Client, first: Fetch<seq<DirEntry>>, second: Fetch<seq<DirEntry>>)
    returns (r1: Result<set<string>, Error>, r2: Result<set<string>, Error>, requested2: bool)
    requires client.Valid()
    modifies client
    ensures client.Valid()
    ensures r1.Success? ==> !requested2 && r2 == r1 && client.chains == Some(r1.value)
    ensures client.info == old(client.info) && client.assets == old(client.assets)
  {
    var requested1;
    r1, requested1 := client.GetChains(first);
    r2, requested2 := client.GetChains(second);
  }
}
