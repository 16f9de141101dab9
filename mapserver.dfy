/** The provider of arcgis_mapserver.py: it keeps the EPSG code as text, requests
    `f=json`, hands each ESRI item to arcgis2geojson's `convert`, fills in a missing
    identifier, applies an optional geometry transform, and also serves single items. */
module MapServerProvider {
  import opened PyJson
  import opened CrsCode
  import opened ConfigScan
  import opened QueryCommon

  /** arcgis2geojson's `convert(item, idAttribute=id_field)`: a GeoJSON feature dict,
      or the exception it raises. */
  type Converter = (Json, Json) -> Result<Fields, string>

  /** `'id' not in feature or feature['id'] is None`. */
  predicate NeedsId(feature: Fields) {
    Lookup(feature, "id").None? || Lookup(feature, "id") == Some(JNull)
  }

  /** `item.get(id_field) or attrs.get(id_field) or str(uuid.uuid4())`, with `generated`
      standing for the new uuid; `attrs.get` is reached only when the first value is falsy. */
  function FallbackId(item: Json, attrs: Json, idField: Json, generated: string): Result<Json, string> {
    match item
    case JObj(ifs) =>
      (match KeyGet(ifs, idField)
       case Err(e) => Err(e)
       case Ok(top) =>
         if Truthy(top) then Ok(top)
         else
           match attrs
           case JObj(afs) =>
             (match KeyGet(afs, idField)
              case Err(e) => Err(e)
              case Ok(inner) => Ok(Or(inner, JStr(generated))))
           case _ => Err(NoGet))
    case _ => Err(NoGet)
  }

  /** `_apply_geometry_transform(feature, fn)`: a truthy geometry is replaced by `fn(geometry)`. */
  function TransformedGeometry(feature: Fields, fn: Json -> Json): Fields {
    var geom := GetOr(feature, "geometry", JNull);
    if Truthy(geom) then Set(feature, "geometry", fn(geom)) else feature
  }

  /** `_custom_convert(item, transform_fn)`. */
  function ConvertFeature(convert: Converter, idField: Json, transform: Option<Json -> Json>,
                          item: Json, generated: string): Result<Fields, string>
  {
    match convert(item, idField)
    case Err(e) => Err(e)
    case Ok(converted) =>
      var identified :=
        if NeedsId(converted) then
          match FallbackId(item, GetOr(converted, "properties", JObj([])), idField, generated)
          case Err(e) => Err(e)
          case Ok(id) => Ok(Set(converted, "id", id))
        else Ok(converted);
      match identified
      case Err(e) => Err(e)
      case Ok(feature) =>
        if transform.Some? && Truthy(GetOr(feature, "geometry", JNull))
        then Ok(TransformedGeometry(feature, transform.value))
        else Ok(feature)
  }

  /** `feature.get('geometry') is not None`: the test for keeping a feature. */
  predicate HasGeometry(feature: Fields) {
    Lookup(feature, "geometry").Some? && Lookup(feature, "geometry") != Some(JNull)
  }

  /** One pass of the loop in `query`; the item at position `j` gets `uuids(j)` as
      its generated identifier. */
  function QueryStep(convert: Converter, idField: Json, transform: Option<Json -> Json>,
                     uuids: nat -> string): (nat, Json) -> Result<Option<Fields>, string>
  {
    (j: nat, item: Json) =>
      match ConvertFeature(convert, idField, transform, item, uuids(j))
      case Err(e) => Err(e)
      case Ok(f) => Ok(if HasGeometry(f) then Some(f) else None)
  }

  /** The features `query` builds from the decoded body: `data.get('results', [])`
      and the loop over it. */
  function QueryFeatures(convert: Converter, idField: Json, transform: Option<Json -> Json>,
                         uuids: nat -> string, body: Json): Result<seq<Fields>, string>
  {
    match Get(body, "results", JArr([]))
    case Err(e) => Err(e)
    case Ok(results) =>
      match Iterate(results)
      case None => Err(NotIterable)
      case Some(items) => CollectKept(QueryStep(convert, idField, transform, uuids), items)
  }

  /** Identifier precedence: a truthy value in the item wins, then a truthy value
      in the converted feature's properties, then the generated identifier. */
  lemma FallbackIdPrecedence(ifs: Fields, attrs: Json, k: string, generated: string)
    ensures Truthy(GetOr(ifs, k, JNull)) ==>
      FallbackId(JObj(ifs), attrs, JStr(k), generated) == Ok(GetOr(ifs, k, JNull))
    ensures !Truthy(GetOr(ifs, k, JNull)) && attrs.JObj? && Truthy(GetOr(attrs.fields, k, JNull)) ==>
      FallbackId(JObj(ifs), attrs, JStr(k), generated) == Ok(GetOr(attrs.fields, k, JNull))
    ensures !Truthy(GetOr(ifs, k, JNull)) && attrs.JObj? && !Truthy(GetOr(attrs.fields, k, JNull)) ==>
      FallbackId(JObj(ifs), attrs, JStr(k), generated) == Ok(JStr(generated))
    ensures !Truthy(GetOr(ifs, k, JNull)) && !attrs.JObj? ==>
      FallbackId(JObj(ifs), attrs, JStr(k), generated).Err?
  {
  }

  /** An `id_field` that is not a string, as the default None when the provider
      configuration has none: no key matches, so a dict item gets the generated
      identifier; a list or dict `id_field` raises as unhashable. */
  lemma FallbackIdNonStringField(item: Json, attrs: Json, idField: Json, generated: string)
    requires !idField.JStr?
    ensures idField.JArr? || idField.JObj? ==> FallbackId(item, attrs, idField, generated).Err?
    ensures !idField.JArr? && !idField.JObj? && item.JObj? && attrs.JObj? ==>
      FallbackId(item, attrs, idField, generated) == Ok(JStr(generated))
    ensures !idField.JArr? && !idField.JObj? && item.JObj? && !attrs.JObj? ==>
      FallbackId(item, attrs, idField, generated) == Err(NoGet)
    ensures !item.JObj? ==> FallbackId(item, attrs, idField, generated) == Err(NoGet)
  {
  }

  /** A generated identifier is never empty, so every fallback identifier is truthy. */
  lemma FallbackIdTruthy(item: Json, attrs: Json, idField: Json, generated: string)
    requires generated != ""
    ensures FallbackId(item, attrs, idField, generated).Ok? ==> Truthy(FallbackId(item, attrs, idField, generated).value)
  {
  }

  /** The transform touches only `geometry`, replaces a truthy one by its image, and
      leaves a falsy one as it is. */
  lemma TransformedGeometrySpec(feature: Fields, fn: Json -> Json, k: string)
    ensures var g := GetOr(feature, "geometry", JNull);
      Truthy(g) ==> Lookup(TransformedGeometry(feature, fn), "geometry") == Some(fn(g))
    ensures !Truthy(GetOr(feature, "geometry", JNull)) ==> TransformedGeometry(feature, fn) == feature
    ensures k != "geometry" ==> Lookup(TransformedGeometry(feature, fn), k) == Lookup(feature, k)
  {
    LookupSet(feature, "geometry", fn(GetOr(feature, "geometry", JNull)), k);
  }

  /** What `_custom_convert` does to the feature `convert` returns: an identifier that
      is present and not None is kept, a missing one is the fallback chain's value; the
      transform is applied to the geometry exactly once, and only when a transform is
      given and the geometry is truthy; every other key is left as `convert` made it. */
  lemma ConvertFeatureSpec(convert: Converter, idField: Json, transform: Option<Json -> Json>,
                           item: Json, generated: string, k: string)
    requires convert(item, idField).Ok?
    requires ConvertFeature(convert, idField, transform, item, generated).Ok?
    ensures var c := convert(item, idField).value;
      var f := ConvertFeature(convert, idField, transform, item, generated).value;
      var g := GetOr(c, "geometry", JNull);
      (!NeedsId(c) ==> Lookup(f, "id") == Lookup(c, "id")) &&
      (NeedsId(c) ==>
        Lookup(f, "id") == Some(FallbackId(item, GetOr(c, "properties", JObj([])), idField, generated).value)) &&
      (transform.Some? && Truthy(g) ==> Lookup(f, "geometry") == Some(transform.value(g))) &&
      (!(transform.Some? && Truthy(g)) ==> Lookup(f, "geometry") == Lookup(c, "geometry")) &&
      (k != "id" && k != "geometry" ==> Lookup(f, k) == Lookup(c, k))
  {
    var c := convert(item, idField).value;
    var g := GetOr(c, "geometry", JNull);
    var e := c;
    if NeedsId(c) {
      var id := FallbackId(item, GetOr(c, "properties", JObj([])), idField, generated).value;
      e := Set(c, "id", id);
      LookupSet(c, "id", id, "geometry");
      LookupSet(c, "id", id, k);
    }
    assert GetOr(e, "geometry", JNull) == g;
    if transform.Some? && Truthy(g) {
      TransformedGeometrySpec(e, transform.value, "id");
      TransformedGeometrySpec(e, transform.value, k);
    }
  }

  /** When `_custom_convert` succeeds: exactly when `convert` does and, for a feature
      without an identifier, the fallback chain does; otherwise it raises the first of
      their exceptions. The geometry transform cannot make it fail. */
  lemma ConvertFeatureOutcome(convert: Converter, idField: Json, transform: Option<Json -> Json>,
                              item: Json, generated: string)
    ensures convert(item, idField).Err? ==>
      ConvertFeature(convert, idField, transform, item, generated) == Err(convert(item, idField).error)
    ensures convert(item, idField).Ok? ==>
      var c := convert(item, idField).value;
      var fallback := FallbackId(item, GetOr(c, "properties", JObj([])), idField, generated);
      (ConvertFeature(convert, idField, transform, item, generated).Ok? <==> (!NeedsId(c) || fallback.Ok?)) &&
      (NeedsId(c) && fallback.Err? ==> ConvertFeature(convert, idField, transform, item, generated) == Err(fallback.error))
  {
  }

  /** The features returned follow the `results` order, each is the converted item
      at its position, none lacks a geometry, and no kept item is missing. */
  lemma QueryFeaturesOrder(convert: Converter, idField: Json, transform: Option<Json -> Json>,
                           uuids: nat -> string, rfs: Fields) returns (idx: seq<nat>)
    requires Lookup(rfs, "results").Some? && Lookup(rfs, "results").value.JArr?
    requires QueryFeatures(convert, idField, transform, uuids, JObj(rfs)).Ok?
    ensures var items := Lookup(rfs, "results").value.items;
      var fs := QueryFeatures(convert, idField, transform, uuids, JObj(rfs)).value;
      |idx| == |fs| <= |items| &&
      (forall k, k' :: 0 <= k < k' < |idx| ==> idx[k] < idx[k']) &&
      (forall k :: 0 <= k < |idx| ==>
        idx[k] < |items| && HasGeometry(fs[k]) &&
        ConvertFeature(convert, idField, transform, items[idx[k]], uuids(idx[k])) == Ok(fs[k])) &&
      (forall j :: (0 <= j < |items| &&
                    ConvertFeature(convert, idField, transform, items[j], uuids(j)).Ok? &&
                    HasGeometry(ConvertFeature(convert, idField, transform, items[j], uuids(j)).value)) ==> j in idx)
  {
    var items := Lookup(rfs, "results").value.items;
    var step := QueryStep(convert, idField, transform, uuids);
    idx := CollectKeptExact(step, items);
    CollectKeptOk(step, items);
  }

  /** The loop of `query` completes exactly when every item converts: an item whose
      converted feature has no geometry is dropped and the loop goes on. */
  lemma QueryFeaturesSucceeds(convert: Converter, idField: Json, transform: Option<Json -> Json>,
                              uuids: nat -> string, rfs: Fields)
    requires Iterate(GetOr(rfs, "results", JArr([]))).Some?
    ensures var items := Iterate(GetOr(rfs, "results", JArr([]))).value;
      QueryFeatures(convert, idField, transform, uuids, JObj(rfs)).Ok? <==>
        forall j :: 0 <= j < |items| ==> ConvertFeature(convert, idField, transform, items[j], uuids(j)).Ok?
  {
    var items := Iterate(GetOr(rfs, "results", JArr([]))).value;
    var step := QueryStep(convert, idField, transform, uuids);
    CollectKeptOk(step, items);
    forall j | 0 <= j < |items|
      ensures step(j, items[j]).Ok? <==> ConvertFeature(convert, idField, transform, items[j], uuids(j)).Ok?
    {
    }
  }

  /** A body without `results` gives no features. */
  lemma NoResultsNoFeatures(convert: Converter, idField: Json, transform: Option<Json -> Json>,
                            uuids: nat -> string, rfs: Fields)
    requires Lookup(rfs, "results").None?
    ensures QueryFeatures(convert, idField, transform, uuids, JObj(rfs)) == Ok([])
  {
  }

  class ArcGISMapServer {
    const layer: Json
    const idField: Json
    const params: Json
    const data: Json
    /** `provider_def.get('name')`, compared with each provider entry of the config. */
    const name: Json
    var extentBbox: Json
    var extentCrs: Option<string>
    var defaultEpsg: Option<string>
    var collection: Json

    /** `__init__`: reads the provider definition, then resolves the collection. */
    constructor (providerDef: Fields, config: Json, b: Builtins)
      ensures layer == GetOr(providerDef, "layer", JNull) && idField == GetOr(providerDef, "id_field", JNull)
      ensures params == GetOr(providerDef, "params", JObj([])) && data == GetOr(providerDef, "data", JNull)
      ensures name == GetOr(providerDef, "name", JNull)
      ensures match ScanConfig(config, name)
        case Matched(res) =>
          collection == JObj(res) &&
          (match ReadExtent(b, res)
           case None => extentBbox == JNull && extentCrs == None && defaultEpsg == None
           case Some(e) => extentBbox == e.bbox && extentCrs == e.crs && defaultEpsg == TextCode(e.crs))
        case _ => collection == JNull && extentBbox == JNull && extentCrs == None && defaultEpsg == None
    {
      layer := GetOr(providerDef, "layer", JNull);
      idField := GetOr(providerDef, "id_field", JNull);
      params := GetOr(providerDef, "params", JObj([]));
      data := GetOr(providerDef, "data", JNull);
      name := GetOr(providerDef, "name", JNull);
      extentBbox := JNull;
      extentCrs := None;
      defaultEpsg := None;
      collection := JNull;
      new;
      LoadCollectionFromConfig(config, b);
    }

    /** `_load_collection_from_config`: the first matching resource sets `collection`,
        then bbox, CRS and the textual EPSG code; an exception leaves the rest as it was. */
    method LoadCollectionFromConfig(config: Json, b: Builtins)
      modifies this
      ensures match ScanConfig(config, name)
        case Matched(res) =>
          collection == JObj(res) &&
          (match ReadExtent(b, res)
           case None => extentBbox == old(extentBbox) && extentCrs == old(extentCrs) && defaultEpsg == old(defaultEpsg)
           case Some(e) =>
             extentBbox == e.bbox && extentCrs == e.crs &&
             defaultEpsg == if TextCode(e.crs).Some? then TextCode(e.crs) else old(defaultEpsg))
        case _ =>
          collection == old(collection) && extentBbox == old(extentBbox) &&
          extentCrs == old(extentCrs) && defaultEpsg == old(defaultEpsg)
    {
      var s := FindCollection(config, name);
      if s.Matched? {
        collection := JObj(s.resource);
        var e := ReadExtent(b, s.resource);
        if e.Some? {
          extentBbox := e.value.bbox;
          extentCrs := e.value.crs;
          if extentCrs.Some? && extentCrs.value != "" {
            var m := TrailingCode(extentCrs.value);
            if m.Some? {
              defaultEpsg := m;
            }
          } else {
            defaultEpsg := Some("4326");
          }
        }
      }
    }

    /** `_apply_geometry_transform`: `feature['geometry'] = fn(geom)` on a truthy geometry. */
    method ApplyGeometryTransform(feature: Fields, fn: Json -> Json) returns (result: Fields)
      ensures result == TransformedGeometry(feature, fn)
    {
      result := feature;
      var geom := GetOr(result, "geometry", JNull);
      if Truthy(geom) {
        result := Set(result, "geometry", fn(geom));
      }
    }

    /** `_custom_convert`: convert, fill in a missing identifier, transform the geometry. */
    method CustomConvert(convert: Converter, item: Json, transform: Option<Json -> Json>, generated: string)
      returns (r: Result<Fields, string>)
      ensures r == ConvertFeature(convert, idField, transform, item, generated)
    {
      var converted := convert(item, idField);
      if converted.Err? {
        return Err(converted.error);
      }
      var feature := converted.value;
      if NeedsId(feature) {
        var attrs := GetOr(feature, "properties", JObj([]));
        var id := FallbackId(item, attrs, idField, generated);
        if id.Err? {
          return Err(id.error);
        }
        feature := Set(feature, "id", id.value);
      }
      if transform.Some? && Truthy(GetOr(feature, "geometry", JNull)) {
        feature := ApplyGeometryTransform(feature, transform.value);
      }
      return Ok(feature);
    }

    /** `query`: the checks, the `f=json` request, the conversion loop, and the
        FeatureCollection. */
    method Query(startindex: Json, limit: Json, offset: Json, transform: Option<Json -> Json>,
                 b: Builtins, get: string -> Result<Json, string>, convert: Converter, uuids: nat -> string)
      returns (r: Result<FeatureCollection<Fields>, Failure>, sent: Option<string>)
      ensures match PrepareQuery(b, collection, extentBbox, params)
        case Err(f) => r == Err(f) && sent == None
        case Ok(p) =>
          var url := QueryUrl(Str(b, data), JsonQueryParams(
            TextSr(defaultEpsg), p.geometry, p.tolerance, Str(b, layer),
            Str(b, OffsetValue(offset, startindex)), Str(b, limit)));
          sent == Some(url) &&
          r == match get(url)
               case Err(e) => Err(ConnectionError(e))
               case Ok(body) =>
                 (match QueryFeatures(convert, idField, transform, uuids, body)
                  case Err(e) => Err(ApiError(e))
                  case Ok(fs) => Ok(Collection(fs)))
      ensures r.Ok? ==> r.value.numberMatched == r.value.numberReturned == |r.value.features|
      ensures r.Ok? ==> forall k :: 0 <= k < |r.value.features| ==> HasGeometry(r.value.features[k])
    {
      var prepared := PrepareQuery(b, collection, extentBbox, params);
      if prepared.Err? {
        return Err(prepared.error), None;
      }
      var url := QueryUrl(Str(b, data), JsonQueryParams(
        TextSr(defaultEpsg), prepared.value.geometry, prepared.value.tolerance, Str(b, layer),
        Str(b, OffsetValue(offset, startindex)), Str(b, limit)));
      sent := Some(url);
      var resp := get(url);
      if resp.Err? {
        return Err(ConnectionError(resp.error)), sent;
      }
      var features := ConvertResults(resp.value, convert, transform, uuids);
      if features.Err? {
        return Err(ApiError(features.error)), sent;
      }
      r := Ok(Collection(features.value));
    }

    /** The `try` body of `query` after the response is decoded: `data.get('results', [])`
        and the loop that converts each item and keeps those with a geometry. */
    method ConvertResults(body: Json, convert: Converter, transform: Option<Json -> Json>, uuids: nat -> string)
      returns (r: Result<seq<Fields>, string>)
      ensures r == QueryFeatures(convert, idField, transform, uuids, body)
      ensures r.Ok? ==> forall k :: 0 <= k < |r.value| ==> HasGeometry(r.value[k])
    {
      var step := QueryStep(convert, idField, transform, uuids);
      var results := Get(body, "results", JArr([]));
      if results.Err? {
        return Err(results.error);
      }
      var iter := Iterate(results.value);
      if iter.None? {
        return Err(NotIterable);
      }
      var items := iter.value;
      var features: seq<Fields> := [];
      var i := 0;
      while i < |items|
        invariant 0 <= i <= |items|
        invariant CollectKept(step, items[..i]) == Ok(features)
        invariant forall k :: 0 <= k < |features| ==> HasGeometry(features[k])
      {
        assert items[..i + 1][..i] == items[..i];
        var feature := CustomConvert(convert, items[i], transform, uuids(i));
        if feature.Err? {
          CollectKeptStopsAtError(step, items, i + 1);
          return Err(feature.error);
        }
        if HasGeometry(feature.value) {
          features := features + [feature.value];
        }
        i := i + 1;
      }
      assert items[..|items|] == items;
      return Ok(features);
    }

    /** `get_item`: one item from `{data}/{item_id}`, converted like a query result;
        an item without geometry is an error, reported with the item's id. */
    method GetItem(itemId: string, transform: Option<Json -> Json>, b: Builtins,
                   get: string -> Result<Json, string>, convert: Converter, generated: string)
      returns (r: Result<Fields, Failure>, sent: Option<string>)
      ensures !Truthy(collection) ==> r == Err(NoCollection) && sent == None
      ensures Truthy(collection) ==>
        var url := Str(b, data) + "/" + itemId;
        sent == Some(url) &&
        r == match get(url)
             case Err(e) => Err(ConnectionError(e))
             case Ok(item) =>
               (match ConvertFeature(convert, idField, transform, item, generated)
                case Err(e) => Err(ItemApiError(itemId, e))
                case Ok(f) =>
                  if HasGeometry(f) then Ok(f)
                  else Err(ItemApiError(itemId, "No geometry found for item " + itemId)))
      ensures r.Ok? ==> HasGeometry(r.value)
      ensures r.Err? && r.error.ItemApiError? ==> r.error.itemId == itemId
    {
      if !Truthy(collection) {
        return Err(NoCollection), None;
      }
      var url := Str(b, data) + "/" + itemId;
      sent := Some(url);
      var resp := get(url);
      if resp.Err? {
        return Err(ConnectionError(resp.error)), sent;
      }
      var feature := CustomConvert(convert, resp.value, transform, generated);
      if feature.Err? {
        return Err(ItemApiError(itemId, feature.error)), sent;
      }
      if !HasGeometry(feature.value) {
        return Err(ItemApiError(itemId, "No geometry found for item " + itemId)), sent;
      }
      r := Ok(feature.value);
    }
  }
}
