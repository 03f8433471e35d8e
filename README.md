# Cosmos chain registry client, modelled in Dafny

This project models the core of a small TypeScript client for the Cosmos chain
registry, a static, file-based repository of per-chain metadata. The client:

- lists the registry's chains: the directory listing is filtered to chain
  directories and their names are collected into a set;
- fetches a chain's `chain.json` and `assetlist.json`;
- resolves one asset of a chain by name or symbol.

The chain set, and each chain's metadata and asset-list documents, are cached
in process-wide caches that are filled on first use and never invalidated. On
a miss of the metadata or asset-list cache, the client overwrites that
document's `$schema` field with a canonical URL.

Modules:

- `Wrappers`: `Option` and `Result`.
- `RegistryTypes`: the documents, reduced to the fields the logic touches
  (`$schema`, `assets`, and an asset's `name` and `symbol`), plus
  `chain_name`, which is carried along unchanged. It also holds the schema
  URLs and the errors a caller sees.
- `ChainListing`: the `filter`/`filter`/`map` pipeline of `getChains` as
  functions, with the exact characterisation of the resulting set.
- `AssetLookup`: the three `find` calls of `getChainAsset` as one function
  `Resolve`. Its contract states the precedence between the rules and the
  first-match behaviour within each rule.
- `RegistryClient`: class `Client`. Its fields `chains`, `info` and `assets`
  are the three module-level caches. Its methods update them in place, as the
  source does.

Requests to the registry are not modelled. Each operation that may issue one
takes a `Fetch<T>` parameter: either the parsed document (`Ok`) or a transport
or parse failure (`Failed`). The operation returns `requested`, which says
whether the request was actually issued. A failed request leaves every cache
untouched and is passed to the caller as `Transport(reason)`.

## Model

| member | source | states |
|---|---|---|
| `ChainListing.Directories` | index.ts:17 | the result holds exactly the entries of the listing whose size is 0, and it is no longer than the listing |
| `ChainListing.Visible` | index.ts:18 | the result holds exactly the entries whose name starts with neither `.` nor `_` and is not `testnets` |
| `ChainListing.Names` | index.ts:19 | the result has one name per entry, position by position |
| `ChainListing.ChainNames` | index.ts:15-20 | a name is in the chain set if and only if some entry of the listing has that name, has size 0, starts with neither `.` nor `_`, and is not `testnets` |
| `ChainListing.ChainNamesNeverExcluded` | index.ts:18 | no name in the chain set is `testnets` or begins with `.` or `_` |
| `ChainListing.ChainNamesDependOnlyOnEntries` | index.ts:15-20 | two listings with the same entries, in any order and with any repetition, give the same chain set |
| `ChainListing.ChainNamesSingleton` | index.ts:15-20 | a listing with at least one chain directory, all of them sharing one name, yields exactly that name |
| `ChainListing.ChainNamesExample` | index.ts:15-20 | a listing of `osmosis`, `.github`, `_IBC`, `testnets` (all size 0) and a 1234-byte `chain.schema.json` gives exactly `{"osmosis"}` |
| `RegistryTypes.Error.Message` | index.ts:54 | a not-found message starts with `Asset `, holds the queried asset right after it, and ends with the chain name; a transport error keeps the underlying reason |
| `AssetLookup.LowerChar` | index.ts:52 | ASCII upper-case letters are mapped to their lower-case counterparts; every other character is unchanged |
| `AssetLookup.Lower` | index.ts:52 | the ASCII approximation of lower-casing keeps the length and lower-cases each character in place |
| `AssetLookup.FindFirst` | index.ts:48 | `find` with one rule returns the earliest position whose asset satisfies the rule, and returns nothing exactly when no asset does |
| `AssetLookup.Resolve` | index.ts:46-55 | the result is an element of the list: the first exact-name match if there is one (whatever the symbols say), else the first exact-symbol match, else the first case-insensitive name match; it fails with `NotFound(asset, chain)` exactly when none of the three rules matches any asset |
| `AssetLookup.ResolveFindsExactMatches` | index.ts:48-51 | if any asset's name or symbol equals the query, resolution succeeds |
| `AssetLookup.ResolveByReturnedName` | index.ts:48-49 | resolving by the name of a resolved asset succeeds and yields an asset with that same name |
| `AssetLookup.ResolveNameBeatsSymbol` | index.ts:48-49 | given `{Atom, ATOM}` then `{atom-alias, Atom}`, the query `Atom` returns the first asset, by its exact name |
| `AssetLookup.ResolveNameBeatsEarlierSymbol` | index.ts:48-49 | given `{atom-alias, Atom}` then `{Atom, ATOM}`, the query `Atom` returns the second asset: an exact name match beats an exact symbol match on an earlier asset |
| `AssetLookup.ResolveBySymbol` | index.ts:50-51 | given only `{Cosmos Hub Atom, ATOM}`, the query `ATOM` returns it by its symbol |
| `AssetLookup.ResolveCaseInsensitively` | index.ts:52-53 | given only `{ATOM, XYZ}`, the query `atom` returns it by its case-insensitive name |
| `RegistryClient.Client.constructor` | index.ts:5-36 | all three caches start empty (the initialisers at lines 5, 26 and 36), and the schema invariant holds |
| `RegistryClient.Client.GetChains` | index.ts:6-23 | a request is issued only when the chain set is unset; a hit returns the cached set unchanged; a successful miss caches and returns `ChainNames` of the listing; a failed miss returns the failure and leaves the set unset; the other caches never change |
| `RegistryClient.Client.GetChainInfo` | index.ts:26-34 | a request is issued only when `info` has no entry for the chain; a hit returns the cached document and changes nothing; a successful miss stores the fetched document with `$schema` replaced by the chain schema URL under that chain only; a failure changes nothing; every success carries the chain schema URL; `chains` and `assets` never change |
| `RegistryClient.Client.GetChainAssets` | index.ts:36-44 | the same as `GetChainInfo`, over the asset-list cache and with the asset-list schema URL; `chains` and `info` never change |
| `RegistryClient.Client.GetChainAsset` | index.ts:46-55 | the result is `Resolve` applied to the cached list (on a hit) or to the fetched list (on a miss, which caches that list with its schema injected); a failed list fetch is passed through and changes nothing; a success is an asset of the cached list |
| `RegistryClient.GetChainInfoTwice` | index.ts:27-34 | after a successful `getChainInfo`, a second call for the same chain issues no request and returns the same document, whatever its own fetch would have produced |
| `RegistryClient.GetChainsTwice` | index.ts:6-23 | after a successful `getChains`, a second call issues no request and returns the identical set, which stays cached |

## Left out

- Requests and parsing are not modelled: `fetch`, the request headers, URL construction and `res.json()` (index.ts:8-14, 29-30, 39-40). Their outcome is the `Fetch<T>` parameter of each operation.
- Concurrency is not modelled. Two overlapping misses for the same key can both issue a request, and the last write wins. The model runs each operation to completion, one at a time.
- `AssetLookup.LowerChar`: only ASCII `A`-`Z` are lower-cased. JavaScript's `toLowerCase` also folds non-ASCII letters, so for non-ASCII names the case-insensitive rule matches less often in the model.
- `AssetLookup.Lower`: it inherits the ASCII-only approximation of `LowerChar`. Its length preservation holds only for that approximation: JavaScript's `toLowerCase` can change the length, since U+0130 (`İ`) becomes two code units.
- `RegistryClient.Client.GetChains`: the cached value is a mathematical set. The insertion order of the JavaScript `Set` is not modelled.
- Aliasing is not modelled. The source returns a reference to the cached object, and a caller that mutates it would change the cache, `$schema` included. The model returns values, so the `Valid()` invariant relies on callers not writing to cached documents.
- The model ignores JavaScript truthiness in the cache tests (index.ts:7, 28, 38) and uses key membership instead. In the source, a chain name that is a property of `Object.prototype` (such as `constructor`) looks cached before any fetch. A document that parses to a non-object primitive makes the `$schema` write throw after it has been cached.
- Only `$schema`, `chain_name`, `assets`, `name` and `symbol` of the registry documents are kept. The remaining interface fields (index.ts:57-181) have no behaviour; a miss copies them unchanged, as it does `chain_name`.
- Malformed documents are not modelled. In the source, a listing that is not an array, or an asset list without `assets`, fails with a type error inside the operation. In the model, every parsed document has the expected shape.
