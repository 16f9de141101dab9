/** What both providers' `query` share: the failures they report, the checks made
    before any request is sent, the `sr`, `geometry` and `offset` parameters, the
    two request URLs, the loop that turns `results` into features, and the
    FeatureCollection they return. */
module QueryCommon {
  import opened Text
  import opened PyJson

  /** The failures a caller sees. All but `Uncaught` are raised as
      ProviderQueryError; `Uncaught` is an exception raised outside any `try`. */
  datatype Failure =
    | NoCollection
    | InvalidBbox
    | ConnectionError(cause: string)
    | ApiError(cause: string)
    | ItemApiError(itemId: string, cause: string)
    | Uncaught(exception: string)

  /** The message the caller reads. */
  function Message(f: Failure): string {
    match f
    case NoCollection => "No collection found in config or set manually."
    case InvalidBbox => "Invalid or missing bbox in collection extents.spatial.bbox"
    case ConnectionError(c) => "Connection error: " + c
    case ApiError(c) => "Error querying MapServer API: " + c
    case ItemApiError(id, c) => "Error querying MapServer API for item " + id + ": " + c
    case Uncaught(e) => e
  }

  lemma {:induction false} SubstringOfConcat(a: string, p: string, c: string)
    ensures IsSubstring(p, a + p + c)
    decreases |a|
  {
    if a == [] {
      assert (a + p + c)[..|p|] == p;
    } else {
      assert (a + p + c)[1..] == a[1..] + p + c;
      SubstringOfConcat(a[1..], p, c);
    }
  }

  /** An item failure always names the requested item in its message. */
  lemma ItemFailureNamesItem(id: string, cause: string)
    ensures IsSubstring(id, Message(ItemApiError(id, cause)))
  {
    SubstringOfConcat("Error querying MapServer API for item ", id, ": " + cause);
    assert Message(ItemApiError(id, cause)) ==
      "Error querying MapServer API for item " + id + (": " + cause);
  }

  /** `bbox` passes `not bbox or not isinstance(bbox, (list, tuple)) or len(bbox) != 4`. */
  predicate BboxOk(bbox: Json) {
    Truthy(bbox) && bbox.JArr? && |bbox.items| == 4
  }

  /** `str(float(x))` for each coordinate; None when some `float(x)` raises. */
  function FloatTexts(b: Builtins, xs: seq<Json>): (r: Option<seq<string>>)
    ensures r.Some? ==> |r.value| == |xs|
    decreases |xs|
  {
    if xs == [] then Some([])
    else
      match ToFloat(b, xs[0])
      case None => None
      case Some(v) =>
        match FloatTexts(b, xs[1..])
        case None => None
        case Some(rest) => Some([b.floatRepr(v)] + rest)
  }

  /** The values `query` computes before building the URL. */
  datatype Prepared = Prepared(geometry: string, tolerance: string)

  /** Lines before the request in both `query` methods: the collection check, the
      bbox check (both before anything else), `float()` of each bbox value, the
      comma join, and `params.get('tolerance', 0)`. */
  function PrepareQuery(b: Builtins, collection: Json, bbox: Json, params: Json): Result<Prepared, Failure> {
    if !Truthy(collection) then Err(NoCollection)
    else if !BboxOk(bbox) then Err(InvalidBbox)
    else
      match FloatTexts(b, bbox.items)
      case None => Err(Uncaught("ValueError: could not convert bbox value to float"))
      case Some(texts) =>
        match Get(params, "tolerance", JInt(0))
        case Err(e) => Err(Uncaught(e))
        case Ok(t) => Ok(Prepared(Join(texts, ','), Str(b, t)))
  }

  /** The checks fail fast, in order, and a prepared query carries an envelope of
      exactly four comma-separated values in minX, minY, maxX, maxY order. */
  lemma PrepareQueryContract(b: Builtins, collection: Json, bbox: Json, params: Json)
    requires forall v: real :: ',' !in b.floatRepr(v)
    ensures !Truthy(collection) ==> PrepareQuery(b, collection, bbox, params) == Err(NoCollection)
    ensures Truthy(collection) && !BboxOk(bbox) ==> PrepareQuery(b, collection, bbox, params) == Err(InvalidBbox)
    ensures PrepareQuery(b, collection, bbox, params).Ok? ==>
      var g := PrepareQuery(b, collection, bbox, params).value.geometry;
      BboxOk(bbox) && Count(g, ',') == 3 && |Split(g, ',')| == 4 &&
      forall k :: 0 <= k < 4 ==>
        (ToFloat(b, bbox.items[k]).Some? &&
         Split(g, ',')[k] == b.floatRepr(ToFloat(b, bbox.items[k]).value))
    ensures (Truthy(collection) && BboxOk(bbox) && params.JObj? &&
             forall k :: 0 <= k < 4 ==> ToFloat(b, bbox.items[k]).Some?) ==>
      PrepareQuery(b, collection, bbox, params).Ok?
  {
    if BboxOk(bbox) && forall k :: 0 <= k < 4 ==> ToFloat(b, bbox.items[k]).Some? {
      FloatTextsSome(b, bbox.items);
    }
    if PrepareQuery(b, collection, bbox, params).Ok? {
      assert PrepareQuery(b, collection, bbox, params).value.geometry == Join(FloatTexts(b, bbox.items).value, ',');
      EnvelopeParts(b, bbox.items);
    }
  }

  /** The comma join of the float texts splits back into them, with one comma fewer
      than there are values. */
  lemma EnvelopeParts(b: Builtins, xs: seq<Json>)
    requires forall v: real :: ',' !in b.floatRepr(v)
    requires |xs| >= 1 && FloatTexts(b, xs).Some?
    ensures var g := Join(FloatTexts(b, xs).value, ',');
      Count(g, ',') == |xs| - 1 && |Split(g, ',')| == |xs| &&
      forall k :: 0 <= k < |xs| ==>
        (ToFloat(b, xs[k]).Some? && Split(g, ',')[k] == b.floatRepr(ToFloat(b, xs[k]).value))
  {
    var texts := FloatTexts(b, xs).value;
    FloatTextsAt(b, xs);
    forall i | 0 <= i < |texts|
      ensures ',' !in texts[i]
    {
      var v := ToFloat(b, xs[i]).value;
      assert texts[i] == b.floatRepr(v);
    }
    SplitJoin(texts, ',');
    JoinSeparatorCount(texts, ',');
  }

  /** `float()` of every value succeeding is enough for the texts to exist. */
  lemma {:induction false} FloatTextsSome(b: Builtins, xs: seq<Json>)
    requires forall k :: 0 <= k < |xs| ==> ToFloat(b, xs[k]).Some?
    ensures FloatTexts(b, xs).Some?
    decreases |xs|
  {
    if xs != [] {
      assert forall k :: 0 <= k < |xs| - 1 ==> xs[1..][k] == xs[k + 1];
      FloatTextsSome(b, xs[1..]);
    }
  }

  lemma {:induction false} FloatTextsAt(b: Builtins, xs: seq<Json>)
    ensures FloatTexts(b, xs).Some? ==>
      forall k :: 0 <= k < |xs| ==>
        (ToFloat(b, xs[k]).Some? &&
         FloatTexts(b, xs).value[k] == b.floatRepr(ToFloat(b, xs[k]).value))
    decreases |xs|
  {
    if xs != [] {
      FloatTextsAt(b, xs[1..]);
    }
  }

  /** `sr` in arcgis_mapserver.py: the text code when set, else "2056". */
  function TextSr(epsg: Option<string>): string {
    if epsg.Some? && epsg.value != "" then epsg.value else "2056"
  }

  /** `sr` in arcgis_mapserver_standalone.py: the integer code when truthy, else 4326. */
  function IntSr(epsg: Option<int>): int {
    if epsg.Some? && epsg.value != 0 then epsg.value else 4326
  }

  /** `offset or startindex`. */
  function OffsetValue(offset: Json, startindex: Json): Json {
    Or(offset, startindex)
  }

  /** The request URL: the base, `?`, and the parameters joined by `&` (the f-string
      of both `query` methods, written out as its list of parameters). */
  function QueryUrl(data: string, params: seq<string>): string {
    data + "?" + Join(params, '&')
  }

  /** The parameters of arcgis_mapserver.py: `f=json`, offset before limit. */
  function JsonQueryParams(sr: string, geometry: string, tolerance: string,
                           layer: string, offset: string, limit: string): seq<string>
  {
    ["geometryType=esriGeometryEnvelope", "sr=" + sr, "geometry=" + geometry,
     "tolerance=" + tolerance, "layers=all:" + layer, "f=json",
     "offset=" + offset, "limit=" + limit]
  }

  /** The parameters of arcgis_mapserver_standalone.py: `f=geojson`, limit before offset. */
  function GeojsonQueryParams(sr: string, geometry: string, tolerance: string,
                              layer: string, offset: string, limit: string): seq<string>
  {
    ["geometryType=esriGeometryEnvelope", "sr=" + sr, "geometry=" + geometry,
     "tolerance=" + tolerance, "layers=all:" + layer, "f=geojson",
     "limit=" + limit, "offset=" + offset]
  }

  /** No value holds an `&`, so the parameters can be read back from the URL. */
  predicate NoAmpersand(values: seq<string>) {
    forall i :: 0 <= i < |values| ==> '&' !in values[i]
  }

  lemma {:induction false} AmpersandFreeConcat(key: string, v: string)
    requires '&' !in key && '&' !in v
    ensures '&' !in key + v
  {
    assert forall c :: c in key + v ==> c in key || c in v;
  }

  /** Reading the parameters back: splitting the query string of either request on
      `&` gives its eight parameters in the order sent, when no value holds an `&`. */
  lemma QueryParamsReadBack(sr: string, geometry: string, tolerance: string,
                            layer: string, offset: string, limit: string)
    requires NoAmpersand([sr, geometry, tolerance, layer, offset, limit])
    ensures var ps := JsonQueryParams(sr, geometry, tolerance, layer, offset, limit);
      Split(Join(ps, '&'), '&') == ps
    ensures var ps := GeojsonQueryParams(sr, geometry, tolerance, layer, offset, limit);
      Split(Join(ps, '&'), '&') == ps
  {
    var vs := [sr, geometry, tolerance, layer, offset, limit];
    assert '&' !in sr && '&' !in geometry && '&' !in tolerance by { assert vs[0] == sr && vs[1] == geometry && vs[2] == tolerance; }
    assert '&' !in layer && '&' !in offset && '&' !in limit by { assert vs[3] == layer && vs[4] == offset && vs[5] == limit; }
    AmpersandFreeConcat("sr=", sr);
    AmpersandFreeConcat("geometry=", geometry);
    AmpersandFreeConcat("tolerance=", tolerance);
    AmpersandFreeConcat("layers=all:", layer);
    AmpersandFreeConcat("offset=", offset);
    AmpersandFreeConcat("limit=", limit);
    SplitJoin(JsonQueryParams(sr, geometry, tolerance, layer, offset, limit), '&');
    SplitJoin(GeojsonQueryParams(sr, geometry, tolerance, layer, offset, limit), '&');
  }

  /** The two requests differ only in `f` and in the order of `limit` and `offset`. */
  lemma ParamVariants(sr: string, geometry: string, tolerance: string,
                      layer: string, offset: string, limit: string)
    ensures var j := JsonQueryParams(sr, geometry, tolerance, layer, offset, limit);
      var g := GeojsonQueryParams(sr, geometry, tolerance, layer, offset, limit);
      j[..5] == g[..5] && j[5] == "f=json" && g[5] == "f=geojson" &&
      j[6] == g[7] == "offset=" + offset && j[7] == g[6] == "limit=" + limit
  {
  }

  /** The FeatureCollection dict: both counts are the number of features returned. */
  datatype FeatureCollection<F> = FeatureCollection(features: seq<F>, numberMatched: nat, numberReturned: nat)

  function Collection<F>(features: seq<F>): FeatureCollection<F> {
    FeatureCollection(features, |features|, |features|)
  }

  /** The loop both providers run over `results`: items are visited in order, the
      first exception aborts the whole loop, and each item either appends one
      feature (Some) or is skipped (None). `step` gets the item's position. */
  function CollectKept<A, T>(step: (nat, A) -> Result<Option<T>, string>, items: seq<A>): Result<seq<T>, string>
    decreases |items|
  {
    if items == [] then Ok([])
    else
      match CollectKept(step, items[..|items| - 1])
      case Err(e) => Err(e)
      case Ok(kept) =>
        match step(|items| - 1, items[|items| - 1])
        case Err(e) => Err(e)
        case Ok(None) => Ok(kept)
        case Ok(Some(t)) => Ok(kept + [t])
  }

  /** The loop succeeds exactly when every item's step does. */
  lemma {:induction false} CollectKeptOk<A, T>(step: (nat, A) -> Result<Option<T>, string>, items: seq<A>)
    ensures CollectKept(step, items).Ok? <==> forall j :: 0 <= j < |items| ==> step(j, items[j]).Ok?
    decreases |items|
  {
    if items != [] {
      var n := |items| - 1;
      CollectKeptOk(step, items[..n]);
      assert forall j :: 0 <= j < n ==> items[..n][j] == items[j];
    }
  }

  /** The first failing step ends the loop: its exception is the one reported,
      whatever the items after it hold. */
  lemma {:induction false} CollectKeptStopsAtError<A, T>(step: (nat, A) -> Result<Option<T>, string>,
                                                       items: seq<A>, i: nat)
    requires i <= |items| && CollectKept(step, items[..i]).Err?
    ensures CollectKept(step, items) == CollectKept(step, items[..i])
    decreases |items| - i
  {
    if i < |items| {
      assert items[..i + 1][..i] == items[..i];
      CollectKeptStopsAtError(step, items, i + 1);
    } else {
      assert items[..i] == items;
    }
  }

  /** The kept values are exactly the Some results, in item order: `idx` lists the
      positions that produced them, strictly increasing, and misses none. */
  lemma {:induction false} CollectKeptExact<A, T>(step: (nat, A) -> Result<Option<T>, string>, items: seq<A>)
    returns (idx: seq<nat>)
    requires CollectKept(step, items).Ok?
    ensures var kept := CollectKept(step, items).value;
      |idx| == |kept| <= |items| &&
      (forall k :: 0 <= k < |idx| ==> idx[k] < |items| && step(idx[k], items[idx[k]]) == Ok(Some(kept[k]))) &&
      (forall k, k' :: 0 <= k < k' < |idx| ==> idx[k] < idx[k']) &&
      (forall j :: 0 <= j < |items| && step(j, items[j]).Ok? && step(j, items[j]).value.Some? ==> j in idx)
    decreases |items|
  {
    if items == [] {
      idx := [];
    } else {
      var n := |items| - 1;
      var prev := CollectKeptExact(step, items[..n]);
      assert forall j :: 0 <= j < n ==> items[..n][j] == items[j];
      if step(n, items[n]).value.Some? {
        idx := prev + [n];
      } else {
        idx := prev;
      }
    }
  }
}
