/** Resolution of a provider's collection from the parsed configuration: both
    providers walk `config['resources']` in order and stop at the first resource
    whose `providers` list holds an entry with this provider's `name`. Any
    exception inside the walk ends it (the source catches and logs it). */
module ConfigScan {
  import opened PyJson

  /** How the walk ends: at a matching resource, without a match, or by an exception. */
  datatype Scan = Matched(resource: Fields) | NoMatch | Raised

  /** How the walk over one `providers` list ends. */
  datatype ProviderScan = Hit | Miss | Fault

  /** `for p in providers: if p.get('name') == name`: every entry must be a dict. */
  function ScanProviders(ps: seq<Json>, name: Json): ProviderScan
    decreases |ps|
  {
    if ps == [] then Miss
    else match ps[0]
      case JObj(p) => if GetOr(p, "name", JNull) == name then Hit else ScanProviders(ps[1..], name)
      case _ => Fault
  }

  /** One resource `res`: `res.get('providers', [])` and the walk over it. */
  function ScanEntry(res: Json, name: Json): Scan {
    match res
    case JObj(fs) =>
      (match Iterate(GetOr(fs, "providers", JArr([])))
       case None => Raised
       case Some(ps) =>
         match ScanProviders(ps, name)
         case Hit => Matched(fs)
         case Miss => NoMatch
         case Fault => Raised)
    case _ => Raised
  }

  /** The outer walk over `resources.items()`, in insertion order. */
  function ScanEntries(es: Fields, name: Json): Scan
    decreases |es|
  {
    if es == [] then NoMatch
    else
      match ScanEntry(es[0].1, name)
      case NoMatch => ScanEntries(es[1..], name)
      case s => s
  }

  /** `config.get('resources', {}).items()`: the config and its resources must be dicts. */
  function ScanConfig(config: Json, name: Json): Scan {
    match config
    case JObj(c) =>
      (match GetOr(c, "resources", JObj([]))
       case JObj(es) => ScanEntries(es, name)
       case _ => Raised)
    case _ => Raised
  }

  /** The inner loop of `_load_collection_from_config`, over one `providers` list. */
  method ScanProviderList(ps: seq<Json>, name: Json) returns (r: ProviderScan)
    ensures r == ScanProviders(ps, name)
  {
    var j := 0;
    while j < |ps|
      invariant 0 <= j <= |ps|
      invariant ScanProviders(ps[j..], name) == ScanProviders(ps, name)
    {
      assert ps[j..][1..] == ps[j + 1..];
      var p := ps[j];
      if !p.JObj? {
        return Fault;
      }
      if GetOr(p.fields, "name", JNull) == name {
        return Hit;
      }
      j := j + 1;
    }
    return Miss;
  }

  /** The outer loop of `_load_collection_from_config`, up to the early return. */
  method FindCollection(config: Json, name: Json) returns (s: Scan)
    ensures s == ScanConfig(config, name)
  {
    if !config.JObj? {
      return Raised;
    }
    var resources := GetOr(config.fields, "resources", JObj([]));
    if !resources.JObj? {
      return Raised;
    }
    var es := resources.fields;
    var i := 0;
    while i < |es|
      invariant 0 <= i <= |es|
      invariant ScanEntries(es[i..], name) == ScanEntries(es, name)
    {
      assert es[i..][1..] == es[i + 1..];
      var res := es[i].1;
      if !res.JObj? {
        return Raised;
      }
      var providers := Iterate(GetOr(res.fields, "providers", JArr([])));
      if providers.None? {
        return Raised;
      }
      var found := ScanProviderList(providers.value, name);
      if found == Fault {
        return Raised;
      }
      if found == Hit {
        return Matched(res.fields);
      }
      i := i + 1;
    }
    return NoMatch;
  }

  /** A resource the walk passes over: a dict whose `providers` iterate to dicts that
      all carry another `name`. */
  predicate Skipped(res: Json, name: Json) {
    res.JObj? &&
    match Iterate(GetOr(res.fields, "providers", JArr([])))
    case None => false
    case Some(ps) => forall k :: 0 <= k < |ps| ==> ps[k].JObj? && GetOr(ps[k].fields, "name", JNull) != name
  }

  /** A matched resource is the first entry whose walk matches: its `providers` list
      holds, at position `i`, a dict named `name` after only dicts with other names,
      and every resource before it is skipped. */
  lemma MatchedIsFirst(es: Fields, name: Json) returns (j: nat, i: nat)
    requires ScanEntries(es, name).Matched?
    ensures j < |es|
    ensures es[j].1 == JObj(ScanEntries(es, name).resource)
    ensures ScanEntry(es[j].1, name) == ScanEntries(es, name)
    ensures forall k :: 0 <= k < j ==> ScanEntry(es[k].1, name) == NoMatch && Skipped(es[k].1, name)
    ensures var ps := Iterate(GetOr(ScanEntries(es, name).resource, "providers", JArr([])));
      ps.Some? && i < |ps.value| && ps.value[i].JObj? && GetOr(ps.value[i].fields, "name", JNull) == name &&
      forall k :: 0 <= k < i ==> ps.value[k].JObj? && GetOr(ps.value[k].fields, "name", JNull) != name
  {
    j := MatchedEntry(es, name);
    var ps := Iterate(GetOr(es[j].1.fields, "providers", JArr([]))).value;
    i := ProviderHitWitness(ps, name);
    forall k | 0 <= k < j
      ensures Skipped(es[k].1, name)
    {
      ScanEntryOutcome(es[k].1, name);
    }
  }

  /** The position of the resource a matched walk stops at. */
  lemma {:induction false} MatchedEntry(es: Fields, name: Json) returns (j: nat)
    requires ScanEntries(es, name).Matched?
    ensures j < |es|
    ensures es[j].1 == JObj(ScanEntries(es, name).resource)
    ensures ScanEntry(es[j].1, name) == ScanEntries(es, name)
    ensures forall k :: 0 <= k < j ==> ScanEntry(es[k].1, name) == NoMatch
    decreases |es|
  {
    if ScanEntry(es[0].1, name) == NoMatch {
      var j' := MatchedEntry(es[1..], name);
      j := j' + 1;
    } else {
      j := 0;
    }
  }

  /** The first matching entry is the one selected. */
  lemma {:induction false} FirstMatchSelected(es: Fields, name: Json, j: nat)
    requires j < |es|
    requires ScanEntry(es[j].1, name).Matched?
    requires forall k :: 0 <= k < j ==> ScanEntry(es[k].1, name) == NoMatch
    ensures ScanEntries(es, name) == ScanEntry(es[j].1, name)
    decreases j
  {
    if j > 0 {
      FirstMatchSelected(es[1..], name, j - 1);
    }
  }

  /** Entries after the match are never consulted (the early `return`). */
  lemma {:induction false} LaterEntriesIgnored(es: Fields, rest: Fields, name: Json)
    requires ScanEntries(es, name).Matched?
    ensures ScanEntries(es + rest, name) == ScanEntries(es, name)
    decreases |es|
  {
    assert (es + rest)[0] == es[0];
    if ScanEntry(es[0].1, name) == NoMatch {
      assert (es + rest)[1..] == es[1..] + rest;
      LaterEntriesIgnored(es[1..], rest, name);
    }
  }

  /** A provider list hits exactly at its first entry named `name`, all earlier entries being dicts. */
  lemma {:induction false} ProviderHitWitness(ps: seq<Json>, name: Json) returns (j: nat)
    requires ScanProviders(ps, name) == Hit
    ensures j < |ps| && ps[j].JObj? && GetOr(ps[j].fields, "name", JNull) == name
    ensures forall k :: 0 <= k < j ==> ps[k].JObj? && GetOr(ps[k].fields, "name", JNull) != name
    decreases |ps|
  {
    if GetOr(ps[0].fields, "name", JNull) == name {
      j := 0;
    } else {
      var j' := ProviderHitWitness(ps[1..], name);
      j := j' + 1;
    }
  }

  /** Conversely, the first dict entry named `name`, after only dicts with other names,
      is a hit; a non-dict entry met before any named one is a fault; a list of dicts
      with other names is a miss. */
  lemma {:induction false} ProviderScanOutcome(ps: seq<Json>, name: Json, j: nat)
    requires j <= |ps|
    requires forall k :: 0 <= k < j ==> ps[k].JObj? && GetOr(ps[k].fields, "name", JNull) != name
    ensures j < |ps| && ps[j].JObj? && GetOr(ps[j].fields, "name", JNull) == name ==>
      ScanProviders(ps, name) == Hit
    ensures j < |ps| && !ps[j].JObj? ==> ScanProviders(ps, name) == Fault
    ensures j == |ps| ==> ScanProviders(ps, name) == Miss
    decreases j
  {
    if j > 0 {
      ProviderScanOutcome(ps[1..], name, j - 1);
    }
  }

  /** A miss means every entry is a dict with another name. */
  lemma {:induction false} ProviderMissAll(ps: seq<Json>, name: Json)
    requires ScanProviders(ps, name) == Miss
    ensures forall k :: 0 <= k < |ps| ==> ps[k].JObj? && GetOr(ps[k].fields, "name", JNull) != name
    decreases |ps|
  {
    if ps != [] {
      ProviderMissAll(ps[1..], name);
      assert forall k :: 1 <= k < |ps| ==> ps[k] == ps[1..][k - 1];
    }
  }

  /** One resource in input terms: a non-dict resource or a non-iterable `providers`
      raises, and the walk passes over a resource exactly when it is skipped. */
  lemma ScanEntryOutcome(res: Json, name: Json)
    ensures !res.JObj? ==> ScanEntry(res, name) == Raised
    ensures res.JObj? && Iterate(GetOr(res.fields, "providers", JArr([]))).None? ==>
      ScanEntry(res, name) == Raised
    ensures ScanEntry(res, name) == NoMatch <==> Skipped(res, name)
  {
    if res.JObj? && Iterate(GetOr(res.fields, "providers", JArr([]))).Some? {
      var ps := Iterate(GetOr(res.fields, "providers", JArr([]))).value;
      if ScanProviders(ps, name) == Miss {
        ProviderMissAll(ps, name);
      }
      if Skipped(res, name) {
        ProviderScanOutcome(ps, name, |ps|);
      }
    }
  }

  /** A resource whose `providers` list holds, at position `i`, after only dicts with
      other names, a dict named `name` is matched; a non-dict there raises. */
  lemma ResourceOutcome(fs: Fields, name: Json, ps: seq<Json>, i: nat)
    requires Iterate(GetOr(fs, "providers", JArr([]))) == Some(ps)
    requires i < |ps|
    requires forall k :: 0 <= k < i ==> ps[k].JObj? && GetOr(ps[k].fields, "name", JNull) != name
    ensures ps[i].JObj? && GetOr(ps[i].fields, "name", JNull) == name ==> ScanEntry(JObj(fs), name) == Matched(fs)
    ensures !ps[i].JObj? ==> ScanEntry(JObj(fs), name) == Raised
  {
    ProviderScanOutcome(ps, name, i);
  }

  /** The walk over resources in input terms: after skipped resources, the first one
      not skipped decides the outcome (a match, or an exception that ends the walk);
      when every resource is skipped there is no match. */
  lemma {:induction false} FirstUnskippedDecides(es: Fields, name: Json, j: nat)
    requires j <= |es|
    requires forall k :: 0 <= k < j ==> Skipped(es[k].1, name)
    ensures j < |es| && !Skipped(es[j].1, name) ==> ScanEntries(es, name) == ScanEntry(es[j].1, name)
    ensures j == |es| ==> ScanEntries(es, name) == NoMatch
    decreases j
  {
    if j > 0 {
      ScanEntryOutcome(es[0].1, name);
      FirstUnskippedDecides(es[1..], name, j - 1);
    } else if j < |es| {
      ScanEntryOutcome(es[0].1, name);
    }
  }

  /** The existence direction for the whole walk: a resource whose `providers` list
      names this provider, after resources that were skipped, is selected. */
  lemma ResourceSelected(es: Fields, name: Json, j: nat, fs: Fields, ps: seq<Json>, i: nat)
    requires j < |es| && es[j].1 == JObj(fs)
    requires Iterate(GetOr(fs, "providers", JArr([]))) == Some(ps)
    requires i < |ps| && ps[i].JObj? && GetOr(ps[i].fields, "name", JNull) == name
    requires forall k :: 0 <= k < i ==> ps[k].JObj? && GetOr(ps[k].fields, "name", JNull) != name
    requires forall k :: 0 <= k < j ==> Skipped(es[k].1, name)
    ensures ScanEntries(es, name) == Matched(fs)
  {
    ResourceOutcome(fs, name, ps, i);
    forall k | 0 <= k < j
      ensures ScanEntry(es[k].1, name) == NoMatch
    {
      ScanEntryOutcome(es[k].1, name);
    }
    FirstMatchSelected(es, name, j);
  }

  /** The CRS and bbox read from a matched resource. */
  datatype Extent = Extent(bbox: Json, crs: Option<string>)

  /** `str(crs_value) if crs_value is not None else None`. */
  function CrsText(b: Builtins, v: Json): Option<string> {
    if v == JNull then None else Some(Str(b, v))
  }

  /** `res.get('extents', {}).get('spatial', {})` then `bbox` and `crs`; None when
      `extents` or `spatial` is not a dict (the `.get` raises). */
  function ReadExtent(b: Builtins, res: Fields): Option<Extent> {
    match GetOr(res, "extents", JObj([]))
    case JObj(ext) =>
      (match GetOr(ext, "spatial", JObj([]))
       case JObj(spatial) =>
         Some(Extent(GetOr(spatial, "bbox", JNull), CrsText(b, GetOr(spatial, "crs", JNull))))
       case _ => None)
    case _ => None
  }
}
