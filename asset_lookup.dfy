/**
 * The pure part of `getChainAsset`: an ordered search over a chain's asset list
 * by exact name, then exact symbol, then case-insensitive name.
 */
module AssetLookup {
  import opened Wrappers
  import opened RegistryTypes

  /** Lower-casing of one character (ASCII letters only). */
  function LowerChar(c: char): (d: char)
    ensures 'A' <= c <= 'Z' ==> 'a' <= d <= 'z' && d as int - c as int == 'a' as int - 'A' as int
    ensures !('A' <= c <= 'Z') ==> d == c
  {
    if 'A' <= c <= 'Z' then (c as int - 'A' as int + 'a' as int) as char else c
  }

  /** `toLowerCase`, restricted to ASCII letters: every character is lower-cased in place. */
  function Lower(s: string): (r: string)
    ensures |r| == |s|
    ensures forall i :: 0 <= i < |s| ==> r[i] == LowerChar(s[i])
  {
    if s == [] then [] else [LowerChar(s[0])] + Lower(s[1..])
  }

  /** The three resolution rules, in the order they are tried. */
  datatype Rule = ExactName | ExactSymbol | CaseInsensitiveName

  /** Whether asset `a` satisfies `rule` for the query string. */
  predicate Matches(rule: Rule, a: ChainAsset, query: string) {
    match rule
    case ExactName => a.name == query
    case ExactSymbol => a.symbol == query
    case CaseInsensitiveName => Lower(a.name) == Lower(query)
  }

  /** `i` is the earliest position in `assets` whose asset satisfies `rule`. */
  predicate IsFirstMatch(assets: seq<ChainAsset>, rule: Rule, query: string, i: int) {
    0 <= i < |assets| && Matches(rule, assets[i], query)
    && forall j :: 0 <= j < i ==> !Matches(rule, assets[j], query)
  }

  /** No asset in the list satisfies `rule`. */
  predicate NoMatch(assets: seq<ChainAsset>, rule: Rule, query: string) {
    forall j :: 0 <= j < |assets| ==> !Matches(rule, assets[j], query)
  }

  /** `Array.prototype.find` with one rule, reporting the position of the asset it finds. */
  function FindFirst(assets: seq<ChainAsset>, rule: Rule, query: string): (r: Option<nat>)
    ensures r.Some? ==> IsFirstMatch(assets, rule, query, r.value)
    ensures r.None? <==> NoMatch(assets, rule, query)
  {
    if assets == [] then None
    else if Matches(rule, assets[0], query) then Some(0)
    else match FindFirst(assets[1..], rule, query)
      case None => None
      case Some(i) => Some(i + 1)
  }

  /** The earliest match of a rule is unique. */
  lemma FirstMatchUnique(assets: seq<ChainAsset>, rule: Rule, query: string, i: int, k: int)
    requires IsFirstMatch(assets, rule, query, i) && IsFirstMatch(assets, rule, query, k)
    ensures i == k
  {
  }

  /**
   * The asset `getChainAsset(chain, query)` returns from `assets`: the earliest
   * exact-name match; failing that, the earliest exact-symbol match; failing that,
   * the earliest case-insensitive name match; otherwise a not-found error naming
   * the query and the chain.
   */
  function Resolve(assets: seq<ChainAsset>, query: string, chain: string): (r: Result<ChainAsset, Error>)
    ensures r.Success? ==> r.value in assets
    ensures r.Failure? <==>
      NoMatch(assets, ExactName, query) && NoMatch(assets, ExactSymbol, query)
      && NoMatch(assets, CaseInsensitiveName, query)
    ensures r.Failure? ==> r.error == NotFound(query, chain)
    ensures forall i :: IsFirstMatch(assets, ExactName, query, i) ==> r == Success(assets[i])
    ensures NoMatch(assets, ExactName, query) ==>
      forall i :: IsFirstMatch(assets, ExactSymbol, query, i) ==> r == Success(assets[i])
    ensures NoMatch(assets, ExactName, query) && NoMatch(assets, ExactSymbol, query) ==>
      forall i :: IsFirstMatch(assets, CaseInsensitiveName, query, i) ==> r == Success(assets[i])
  {
    match FindFirst(assets, ExactName, query)
    case Some(i) =>
      assert forall k :: IsFirstMatch(assets, ExactName, query, k) ==> k == i by {
        forall k | IsFirstMatch(assets, ExactName, query, k) ensures k == i {
          FirstMatchUnique(assets, ExactName, query, i, k);
        }
      }
      Success(assets[i])
    case None =>
      match FindFirst(assets, ExactSymbol, query)
      case Some(i) =>
        assert forall k :: IsFirstMatch(assets, ExactSymbol, query, k) ==> k == i by {
          forall k | IsFirstMatch(assets, ExactSymbol, query, k) ensures k == i {
            FirstMatchUnique(assets, ExactSymbol, query, i, k);
          }
        }
        Success(assets[i])
      case None =>
        match FindFirst(assets, CaseInsensitiveName, query)
        case Some(i) =>
          assert forall k :: IsFirstMatch(assets, CaseInsensitiveName, query, k) ==> k == i by {
            forall k | IsFirstMatch(assets, CaseInsensitiveName, query, k) ensures k == i {
              FirstMatchUnique(assets, CaseInsensitiveName, query, i, k);
            }
          }
          Success(assets[i])
        case None => Failure(NotFound(query, chain))
  }

  /** Whenever an asset's name or symbol equals the query exactly, resolution succeeds. */
  lemma ResolveFindsExactMatches(assets: seq<ChainAsset>, query: string, chain: string, j: int)
    requires 0 <= j < |assets| && (assets[j].name == query || assets[j].symbol == query)
    ensures Resolve(assets, query, chain).Success?
  {
  }

  /** Resolving by the name of the asset resolution returned finds an asset with that same name. */
  lemma ResolveByReturnedName(assets: seq<ChainAsset>, query: string, chain: string)
    requires Resolve(assets, query, chain).Success?
    ensures Resolve(assets, Resolve(assets, query, chain).value.name, chain).Success?
    ensures Resolve(assets, Resolve(assets, query, chain).value.name, chain).value.name
      == Resolve(assets, query, chain).value.name
  {
  }

  /** An exact name match wins over an exact symbol match on a later asset. */
  lemma ResolveNameBeatsSymbol()
    ensures Resolve([ChainAsset("Atom", "ATOM"), ChainAsset("atom-alias", "Atom")], "Atom", "cosmoshub")
      == Success(ChainAsset("Atom", "ATOM"))
  {
  }

  /** An exact name match wins even over an exact symbol match on an earlier asset. */
  lemma ResolveNameBeatsEarlierSymbol()
    ensures Resolve([ChainAsset("atom-alias", "Atom"), ChainAsset("Atom", "ATOM")], "Atom", "cosmoshub")
      == Success(ChainAsset("Atom", "ATOM"))
  {
    var assets := [ChainAsset("atom-alias", "Atom"), ChainAsset("Atom", "ATOM")];
    assert IsFirstMatch(assets, ExactName, "Atom", 1);
  }

  /** With no exact name match, an exact symbol match is used. */
  lemma ResolveBySymbol()
    ensures Resolve([ChainAsset("Cosmos Hub Atom", "ATOM")], "ATOM", "cosmoshub")
      == Success(ChainAsset("Cosmos Hub Atom", "ATOM"))
  {
  }

  /** With neither an exact name nor an exact symbol match, the case-insensitive name match is used. */
  lemma ResolveCaseInsensitively()
    ensures Resolve([ChainAsset("ATOM", "XYZ")], "atom", "cosmoshub") == Success(ChainAsset("ATOM", "XYZ"))
  {
  }
}
