/**
 * The documents of the chain registry, reduced to the fields the client logic
 * reads or writes (`$schema`, `assets`, and an asset's `name` and `symbol`),
 * plus `chain_name`, which is carried along unchanged; together with the fixed
 * schema URLs and the error conditions.
 */
module RegistryTypes {

  /** Root of the raw content host the documents are served from. */
  const BASE_CNT_URL := "https://raw.githubusercontent.com/cosmos/chain-registry/master"

  /** The `$schema` value injected into every fetched chain document. */
  const CHAIN_SCHEMA_URL := BASE_CNT_URL + "/chain.schema.json"

  /** The `$schema` value injected into every fetched asset-list document. */
  const ASSETLIST_SCHEMA_URL := BASE_CNT_URL + "/assetlist.schema.json"

  /** One entry of the registry's directory listing: its name and its size (0 for a directory). */
  datatype DirEntry = DirEntry(name: string, size: int)

  /** A chain's metadata document (`chain.json`): `$schema`, which the client overwrites, and `chain_name`, carried along unchanged. */
  datatype ChainInfo = ChainInfo(schema: string, chainName: string)

  /** One asset of a chain; only the two fields used for resolution are kept. */
  datatype ChainAsset = ChainAsset(name: string, symbol: string)

  /** A chain's asset-list document (`assetlist.json`), assets in document order. */
  datatype ChainAssetList = ChainAssetList(schema: string, chainName: string, assets: seq<ChainAsset>)

  /** What a request to the registry produced: the parsed document, or a transport/parse failure. */
  datatype Fetch<+T> = Ok(doc: T) | Failed(reason: string)

  /** The errors a caller of the client can observe. */
  datatype Error =
    | Transport(reason: string)              // a failed request, propagated unchanged
    | NotFound(asset: string, chain: string) // no resolution rule matched the asset
  {
    /** The text the caller sees; a not-found message names the asset and then the chain. */
    function Message(): (msg: string)
      ensures Transport? ==> msg == reason
      ensures NotFound? ==>
        |msg| == 6 + |asset| + 20 + |chain|
        && msg[..6] == "Asset "
        && msg[6..6 + |asset|] == asset
        && msg[|msg| - |chain|..] == chain
    {
      match this
      case Transport(reason) => reason
      case NotFound(asset, chain) => "Asset " + asset + " not found on chain " + chain
    }
  }
}
