/** The provider of arcgis_mapserver_standalone.py: it resolves its collection like
    the other provider but keeps the EPSG code as an integer, requests `f=geojson`,
    and builds GeoJSON features itself from the ESRI `results`. */
module StandaloneProvider {
  import opened Text
  import opened PyJson
  import opened CrsCode
  import opened ConfigScan
  import opened QueryCommon
  import opened EsriGeometry

  /** The feature dict `{"type": "Feature", "id", "geometry", "properties"}`. */
  datatype Feature = Feature(id: Json, geometry: Geometry, properties: Json)

  /** `item.get(self.id_field) or attrs.get(self.id_field) or item.get('featureId')`;
      `attrs.get` is reached (and raises when `attrs` is not a dict) only when the
      first value is falsy. */
  function FeatureId(item: Fields, attrs: Json, idField: Json): Result<Json, string> {
    match KeyGet(item, idField)
    case Err(e) => Err(e)
    case Ok(top) =>
      if Truthy(top) then Ok(top)
      else
        match attrs
        case JObj(afs) =>
          (match KeyGet(afs, idField)
           case Err(e) => Err(e)
           case Ok(inner) => Ok(Or(inner, GetOr(item, "featureId", JNull))))
        case _ => Err(NoGet)
  }

  /** One pass of the loop in `_transform_geojson`: None when the item is skipped. */
  function ItemFeature(sh: Shapely, idField: Json, item: Json): Result<Option<Feature>, string> {
    match item
    case JObj(fs) =>
      var geom := GetOr(fs, "geometry", JNull);
      var attrs := GetOr(fs, "attributes", JObj([]));
      if !Truthy(geom) then Ok(None)
      else
        (match ConvertGeometry(sh, geom)
         case Err(e) => Err(e)
         case Ok(geometry) =>
           match FeatureId(fs, attrs, idField)
           case Err(e) => Err(e)
           case Ok(id) => Ok(if geometry.Some? then Some(Feature(id, geometry.value, attrs)) else None))
    case _ => Err(NoGet)
  }

  function ItemStep(sh: Shapely, idField: Json): (nat, Json) -> Result<Option<Feature>, string> {
    (j: nat, item: Json) => ItemFeature(sh, idField, item)
  }

  /** `_transform_geojson(data)`: `[]` when `'results' not in data`, otherwise the
      features of `data['results']`. */
  function TransformResults(sh: Shapely, idField: Json, body: Json): Result<seq<Feature>, string> {
    match Contains(body, "results")
    case None => Err(NotIterable)
    case Some(false) => Ok([])
    case Some(true) =>
      match Get(body, "results", JArr([]))
      case Err(e) => Err(e)
      case Ok(results) =>
        match Iterate(results)
        case None => Err(NotIterable)
        case Some(items) => CollectKept(ItemStep(sh, idField), items)
  }

  /** Identifier precedence for a string `id_field`: a truthy top-level value wins even
      when `attributes` holds another one; then a truthy attribute; then whatever
      `featureId` holds, None included. No identifier is generated. */
  lemma FeatureIdPrecedence(item: Fields, attrs: Json, k: string)
    ensures Truthy(GetOr(item, k, JNull)) ==> FeatureId(item, attrs, JStr(k)) == Ok(GetOr(item, k, JNull))
    ensures !Truthy(GetOr(item, k, JNull)) && attrs.JObj? && Truthy(GetOr(attrs.fields, k, JNull)) ==>
      FeatureId(item, attrs, JStr(k)) == Ok(GetOr(attrs.fields, k, JNull))
    ensures !Truthy(GetOr(item, k, JNull)) && attrs.JObj? && !Truthy(GetOr(attrs.fields, k, JNull)) ==>
      FeatureId(item, attrs, JStr(k)) == Ok(GetOr(item, "featureId", JNull))
    ensures !Truthy(GetOr(item, k, JNull)) && !attrs.JObj? ==> FeatureId(item, attrs, JStr(k)).Err?
  {
  }

  /** An `id_field` that is not a string, as the default None when the provider
      configuration has none: no key matches, so the chain gives `featureId`; a list
      or dict `id_field` raises as unhashable. */
  lemma FeatureIdNonStringField(item: Fields, attrs: Json, idField: Json)
    requires !idField.JStr?
    ensures idField.JArr? || idField.JObj? ==> FeatureId(item, attrs, idField).Err?
    ensures !idField.JArr? && !idField.JObj? && attrs.JObj? ==>
      FeatureId(item, attrs, idField) == Ok(GetOr(item, "featureId", JNull))
    ensures !idField.JArr? && !idField.JObj? && !attrs.JObj? ==>
      FeatureId(item, attrs, idField) == Err(NoGet)
  {
  }

  /** An item is emitted exactly when it is a dict with a truthy geometry that converts
      to a geometry; the feature carries that geometry, the item's `attributes` (or `{}`)
      as properties, and the identifier chain's value. */
  lemma ItemFeatureSpec(sh: Shapely, idField: Json, item: Json)
    ensures ItemFeature(sh, idField, item).Ok? && ItemFeature(sh, idField, item).value.Some? ==>
      var f := ItemFeature(sh, idField, item).value.value;
      item.JObj? &&
      var geom := GetOr(item.fields, "geometry", JNull);
      var attrs := GetOr(item.fields, "attributes", JObj([]));
      Truthy(geom) &&
      ConvertGeometry(sh, geom) == Ok(Some(f.geometry)) &&
      f.properties == attrs &&
      FeatureId(item.fields, attrs, idField) == Ok(f.id)
    ensures item.JObj? && !Truthy(GetOr(item.fields, "geometry", JNull)) ==>
      ItemFeature(sh, idField, item) == Ok(None)
    ensures !item.JObj? ==> ItemFeature(sh, idField, item) == Err(NoGet)
    ensures item.JObj? ==>
      var geom := GetOr(item.fields, "geometry", JNull);
      var attrs := GetOr(item.fields, "attributes", JObj([]));
      var g := ConvertGeometry(sh, geom);
      var id := FeatureId(item.fields, attrs, idField);
      (Truthy(geom) && g.Err? ==> ItemFeature(sh, idField, item) == Err(g.error)) &&
      (Truthy(geom) && g.Ok? && id.Err? ==> ItemFeature(sh, idField, item) == Err(id.error)) &&
      (Truthy(geom) && g.Ok? && g.value.Some? && id.Ok? ==>
        ItemFeature(sh, idField, item) == Ok(Some(Feature(id.value, g.value.value, attrs)))) &&
      (Truthy(geom) && g == Ok(None) && id.Ok? ==> ItemFeature(sh, idField, item) == Ok(None))
  {
  }

  /** A response without `results` gives no features. */
  lemma NoResultsNoFeatures(sh: Shapely, idField: Json, fs: Fields)
    requires Lookup(fs, "results").None?
    ensures TransformResults(sh, idField, JObj(fs)) == Ok([])
  {
  }

  /** `_transform_geojson` returns normally exactly when no item raises: skipped items
      (falsy or unconvertible geometry) never end the loop. */
  lemma TransformResultsSucceeds(sh: Shapely, idField: Json, fs: Fields)
    requires Lookup(fs, "results").Some? && Iterate(Lookup(fs, "results").value).Some?
    ensures var items := Iterate(Lookup(fs, "results").value).value;
      TransformResults(sh, idField, JObj(fs)).Ok? <==>
        forall j :: 0 <= j < |items| ==> ItemFeature(sh, idField, items[j]).Ok?
  {
    var items := Iterate(Lookup(fs, "results").value).value;
    CollectKeptOk(ItemStep(sh, idField), items);
  }

  /** The features returned follow the `results` order, one per emitted item, never
      more than there are results, and each is what its item yields. */
  lemma TransformResultsOrder(sh: Shapely, idField: Json, body: Json) returns (idx: seq<nat>)
    requires TransformResults(sh, idField, body).Ok?
    requires body.JObj? && Lookup(body.fields, "results").Some?
    requires Lookup(body.fields, "results").value.JArr?
    ensures var items := Lookup(body.fields, "results").value.items;
      var fs := TransformResults(sh, idField, body).value;
      |idx| == |fs| <= |items| &&
      (forall k, k' :: 0 <= k < k' < |idx| ==> idx[k] < idx[k']) &&
      (forall k :: 0 <= k < |idx| ==> idx[k] < |items| && ItemFeature(sh, idField, items[idx[k]]) == Ok(Some(fs[k]))) &&
      (forall j :: (0 <= j < |items| && ItemFeature(sh, idField, items[j]).Ok? &&
                    ItemFeature(sh, idField, items[j]).value.Some?) ==> j in idx)
  {
    var items := Lookup(body.fields, "results").value.items;
    idx := CollectKeptExact(ItemStep(sh, idField), items);
  }

  class ArcGISMapServer {
    const layer: Json
    const idField: Json
    const params: Json
    const data: Json
    /** `provider_def.get('name')`, compared with each provider entry of the config. */
    const name: Json
    var extentBbox: Json
    var extentCrs: Option<string>
    var defaultEpsg: Option<int>
    var collection: Json

    /** `__init__`: reads the provider definition, then resolves the collection. */
    constructor (providerDef: Fields, config: Json, b: Builtins)
      ensures layer == GetOr(providerDef, "layer", JNull) && idField == GetOr(providerDef, "id_field", JNull)
      ensures params == GetOr(providerDef, "params", JObj([])) && data == GetOr(providerDef, "data", JNull)
      ensures name == GetOr(providerDef, "name", JNull)
      ensures match ScanConfig(config, name)
        case Matched(res) =>
          collection == JObj(res) &&
          (match ReadExtent(b, res)
           case None => extentBbox == JNull && extentCrs == None && defaultEpsg == None
           case Some(e) => extentBbox == e.bbox && extentCrs == e.crs && defaultEpsg == IntCode(e.crs))
        case _ => collection == JNull && extentBbox == JNull && extentCrs == None && defaultEpsg == None
    {
      layer := GetOr(providerDef, "layer", JNull);
      idField := GetOr(providerDef, "id_field", JNull);
      params := GetOr(providerDef, "params", JObj([]));
      data := GetOr(providerDef, "data", JNull);
      name := GetOr(providerDef, "name", JNull);
      extentBbox := JNull;
      extentCrs := None;
      defaultEpsg := None;
      collection := JNull;
      new;
      LoadCollectionFromConfig(config, b);
    }

    /** `_load_collection_from_config`: the first matching resource sets `collection`,
        then bbox, CRS and the integer EPSG code; an exception leaves the rest as it was. */
    method LoadCollectionFromConfig(config: Json, b: Builtins)
      modifies this
      ensures match ScanConfig(config, name)
        case Matched(res) =>
          collection == JObj(res) &&
          (match ReadExtent(b, res)
           case None => extentBbox == old(extentBbox) && extentCrs == old(extentCrs) && defaultEpsg == old(defaultEpsg)
           case Some(e) =>
             extentBbox == e.bbox && extentCrs == e.crs &&
             defaultEpsg == if IntCode(e.crs).Some? then IntCode(e.crs) else old(defaultEpsg))
        case _ =>
          collection == old(collection) && extentBbox == old(extentBbox) &&
          extentCrs == old(extentCrs) && defaultEpsg == old(defaultEpsg)
    {
      var s := FindCollection(config, name);
      if s.Matched? {
        collection := JObj(s.resource);
        var e := ReadExtent(b, s.resource);
        if e.Some? {
          extentBbox := e.value.bbox;
          extentCrs := e.value.crs;
          if extentCrs.Some? && extentCrs.value != "" {
            var m := TrailingCode(extentCrs.value);
            if m.Some? {
              TrailingCodeDigits(extentCrs.value);
              defaultEpsg := Some(ParseDigits(m.value));
            }
          } else {
            defaultEpsg := Some(4326);
          }
        }
      }
    }

    /** `query`: the checks, the `f=geojson` request, and the FeatureCollection. */
    method Query(startindex: Json, limit: Json, offset: Json, b: Builtins,
                 get: string -> Result<Json, string>, sh: Shapely)
      returns (r: Result<FeatureCollection<Feature>, Failure>, sent: Option<string>)
      ensures match PrepareQuery(b, collection, extentBbox, params)
        case Err(f) => r == Err(f) && sent == None
        case Ok(p) =>
          var url := QueryUrl(Str(b, data), GeojsonQueryParams(
            IntToString(IntSr(defaultEpsg)), p.geometry, p.tolerance, Str(b, layer),
            Str(b, OffsetValue(offset, startindex)), Str(b, limit)));
          sent == Some(url) &&
          r == match get(url)
               case Err(e) => Err(ConnectionError(e))
               case Ok(body) =>
                 (match TransformResults(sh, idField, body)
                  case Err(e) => Err(ApiError(e))
                  case Ok(fs) => Ok(Collection(fs)))
      ensures r.Ok? ==> r.value.numberMatched == r.value.numberReturned == |r.value.features|
    {
      var prepared := PrepareQuery(b, collection, extentBbox, params);
      if prepared.Err? {
        return Err(prepared.error), None;
      }
      var sr := IntSr(defaultEpsg);
      var url := QueryUrl(Str(b, data), GeojsonQueryParams(
        IntToString(sr), prepared.value.geometry, prepared.value.tolerance, Str(b, layer),
        Str(b, OffsetValue(offset, startindex)), Str(b, limit)));
      sent := Some(url);
      var resp := get(url);
      if resp.Err? {
        return Err(ConnectionError(resp.error)), sent;
      }
      var features := TransformGeojson(resp.value, sh);
      if features.Err? {
        return Err(ApiError(features.error)), sent;
      }
      r := Ok(Collection(features.value));
    }

    /** `_transform_geojson`: the loop over `results` with its `continue`. */
    method TransformGeojson(body: Json, sh: Shapely) returns (r: Result<seq<Feature>, string>)
      ensures r == TransformResults(sh, idField, body)
    {
      var features: seq<Feature> := [];
      var has := Contains(body, "results");
      if has.None? {
        return Err(NotIterable);
      }
      if !has.value {
        return Ok(features);
      }
      var results := Get(body, "results", JArr([]));
      if results.Err? {
        return Err(results.error);
      }
      var iter := Iterate(results.value);
      if iter.None? {
        return Err(NotIterable);
      }
      var items := iter.value;
      var i := 0;
      while i < |items|
        invariant 0 <= i <= |items|
        invariant CollectKept(ItemStep(sh, idField), items[..i]) == Ok(features)
      {
        assert items[..i + 1][..i] == items[..i];
        var item := items[i];
        if !item.JObj? {
          CollectKeptStopsAtError(ItemStep(sh, idField), items, i + 1);
          return Err(NoGet);
        }
        var geom := GetOr(item.fields, "geometry", JNull);
        var attrs := GetOr(item.fields, "attributes", JObj([]));
        if !Truthy(geom) {
          i := i + 1;
          continue;
        }
        var geometry := ConvertGeometry(sh, geom);
        if geometry.Err? {
          CollectKeptStopsAtError(ItemStep(sh, idField), items, i + 1);
          return Err(geometry.error);
        }
        var id := FeatureId(item.fields, attrs, idField);
        if id.Err? {
          CollectKeptStopsAtError(ItemStep(sh, idField), items, i + 1);
          return Err(id.error);
        }
        if geometry.value.Some? {
          features := features + [Feature(id.value, geometry.value.value, attrs)];
        }
        i := i + 1;
      }
      assert items[..|items|] == items;
      return Ok(features);
    }
  }
}
