/**
 * The pure part of `getChains`: the directory listing of the registry is
 * filtered down to chain directories and their names are collected into a set.
 */
module ChainListing {
  import opened RegistryTypes

  /** `s.startsWith(p)` on strings. */
  predicate StartsWith(s: string, p: string) {
    |p| <= |s| && s[..|p|] == p
  }

  /** Names the listing never reports as chains: dot- and underscore-prefixed entries and `testnets`. */
  predicate Excluded(name: string) {
    StartsWith(name, ".") || StartsWith(name, "_") || name == "testnets"
  }

  /** The entries `getChains` turns into chain names. */
  predicate IsChainDirectory(e: DirEntry) {
    e.size == 0 && !Excluded(e.name)
  }

  /** First filter of the pipeline: keep zero-size entries (directories), in order. */
  function Directories(entries: seq<DirEntry>): (r: seq<DirEntry>)
    ensures |r| <= |entries|
    ensures forall e :: e in r <==> e in entries && e.size == 0
  {
    if entries == [] then []
    else if entries[0].size == 0 then [entries[0]] + Directories(entries[1..])
    else Directories(entries[1..])
  }

  /** Second filter of the pipeline: drop excluded names, in order. */
  function Visible(entries: seq<DirEntry>): (r: seq<DirEntry>)
    ensures |r| <= |entries|
    ensures forall e :: e in r <==> e in entries && !Excluded(e.name)
  {
    if entries == [] then []
    else if !Excluded(entries[0].name) then [entries[0]] + Visible(entries[1..])
    else Visible(entries[1..])
  }

  /** The `map` step: the name of each entry, position by position. */
  function Names(entries: seq<DirEntry>): (r: seq<string>)
    ensures |r| == |entries|
    ensures forall i :: 0 <= i < |entries| ==> r[i] == entries[i].name
  {
    if entries == [] then [] else [entries[0].name] + Names(entries[1..])
  }

  /**
   * The set `getChains` caches: exactly the names of the zero-size entries
   * whose name starts with neither `.` nor `_` and is not `testnets`.
   */
  function ChainNames(listing: seq<DirEntry>): (r: set<string>)
    ensures forall e :: e in listing && IsChainDirectory(e) ==> e.name in r
    ensures forall n :: n in r ==> exists e :: e in listing && IsChainDirectory(e) && e.name == n
  {
    var kept := Visible(Directories(listing));
    var names := Names(kept);
    assert forall e :: e in kept ==> e.name in names by {
      forall e | e in kept ensures e.name in names {
        var i :| 0 <= i < |kept| && kept[i] == e;
        assert names[i] == e.name;
      }
    }
    assert forall n :: n in names ==> exists e :: e in kept && e.name == n by {
      forall n | n in names ensures exists e :: e in kept && e.name == n {
        var i :| 0 <= i < |names| && names[i] == n;
        assert kept[i] in kept;
      }
    }
    set n | n in names
  }

  /** A chain's name is in the result only if no entry excluded it by name. */
  lemma ChainNamesNeverExcluded(listing: seq<DirEntry>, n: string)
    requires n in ChainNames(listing)
    ensures !Excluded(n) && n != "testnets" && (n == [] || (n[0] != '.' && n[0] != '_'))
  {
  }

  /** The result depends only on which entries occur, not on their order or repetition. */
  lemma ChainNamesDependOnlyOnEntries(a: seq<DirEntry>, b: seq<DirEntry>)
    requires forall e :: e in a <==> e in b
    ensures ChainNames(a) == ChainNames(b)
  {
  }

  /** A listing whose chain directories all carry one name, at least one of them, yields that name alone. */
  lemma ChainNamesSingleton(listing: seq<DirEntry>, k: int, x: string)
    requires 0 <= k < |listing| && IsChainDirectory(listing[k]) && listing[k].name == x
    requires forall e :: e in listing && IsChainDirectory(e) ==> e.name == x
    ensures ChainNames(listing) == {x}
  {
  }

  /** The listing of a registry root with one chain, two hidden folders, `testnets` and a schema file. */
  lemma ChainNamesExample(listing: seq<DirEntry>)
    requires listing == [
      DirEntry("osmosis", 0), DirEntry(".github", 0), DirEntry("_IBC", 0),
      DirEntry("testnets", 0), DirEntry("chain.schema.json", 1234)]
    ensures ChainNames(listing) == {"osmosis"}
  {
    assert "osmosis"[..1] == "o" && "osmosis" != "testnets";
    assert StartsWith(".github", ".") && StartsWith("_IBC", "_");
    ChainNamesSingleton(listing, 0, "osmosis");
  }
}
