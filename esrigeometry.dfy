/** ESRI JSON geometry to GeoJSON geometry, as arcgis_mapserver_standalone.py does it
    natively: a `rings` geometry becomes a Polygon or a MultiPolygon of its valid,
    non-empty rings, an `x`/`y` geometry becomes a Point, anything else no geometry. */
module EsriGeometry {
  import opened PyJson

  /** The computational geometry the source takes from shapely.
      `accepts(r)` is `Polygon(r).is_valid and not Polygon(r).is_empty`, None when
      `Polygon(r)` raises; `orient(r)` is the exterior ring of `orient(Polygon(r), sign=1.0)`. */
  datatype Shapely = Shapely(accepts: Json -> Option<bool>, orient: Json -> Json)

  /** A GeoJSON geometry (`__geo_interface__`). A polygon built from one ESRI ring has
      that ring as its exterior and no holes. */
  datatype Geometry =
    | Point(x: Json, y: Json)
    | Polygon(exterior: Json)
    | MultiPolygon(exteriors: seq<Json>)

  /** The filter of the list comprehension: the rings that make a valid, non-empty
      polygon, in order; the first `Polygon(r)` that raises aborts it. */
  function AcceptedRings(sh: Shapely, rs: seq<Json>): Result<seq<Json>, string>
    decreases |rs|
  {
    if rs == [] then Ok([])
    else
      match sh.accepts(rs[0])
      case None => Err("ValueError: ring does not make a polygon")
      case Some(ok) =>
        match AcceptedRings(sh, rs[1..])
        case Err(e) => Err(e)
        case Ok(rest) => Ok(if ok then [rs[0]] + rest else rest)
  }

  function OrientAll(sh: Shapely, rs: seq<Json>): (r: seq<Json>)
    ensures |r| == |rs| && forall i :: 0 <= i < |rs| ==> r[i] == sh.orient(rs[i])
  {
    seq(|rs|, i requires 0 <= i < |rs| => sh.orient(rs[i]))
  }

  /** `_esri_rings_to_geojson(rings)`. */
  function RingsToGeoJson(sh: Shapely, rings: Json): Result<Option<Geometry>, string> {
    if !Truthy(rings) then Ok(None)
    else
      match Iterate(rings)
      case None => Err(NotIterable)
      case Some(rs) =>
        match AcceptedRings(sh, rs)
        case Err(e) => Err(e)
        case Ok(kept) =>
          var polys := OrientAll(sh, kept);
          if polys == [] then Ok(None)
          else if |polys| == 1 then Ok(Some(Polygon(polys[0])))
          else Ok(Some(MultiPolygon(OrientAll(sh, polys))))
  }

  /** The filter keeps exactly the accepted rings, in input order, and fails exactly
      when some `Polygon(r)` raises. */
  lemma {:induction false} AcceptedRingsSpec(sh: Shapely, rs: seq<Json>)
    ensures AcceptedRings(sh, rs).Ok? <==> forall i :: 0 <= i < |rs| ==> sh.accepts(rs[i]).Some?
    ensures AcceptedRings(sh, rs).Ok? ==>
      var kept := AcceptedRings(sh, rs).value;
      |kept| <= |rs| &&
      (forall r :: r in kept <==> r in rs && sh.accepts(r) == Some(true)) &&
      ((forall i :: 0 <= i < |rs| ==> sh.accepts(rs[i]) == Some(true)) ==> kept == rs)
    decreases |rs|
  {
    if rs != [] {
      AcceptedRingsSpec(sh, rs[1..]);
      assert forall i :: 0 < i < |rs| ==> rs[i] == rs[1..][i - 1];
      assert forall r :: r in rs <==> r == rs[0] || r in rs[1..];
      if AcceptedRings(sh, rs).Ok? && (forall i :: 0 <= i < |rs| ==> sh.accepts(rs[i]) == Some(true)) {
        assert [rs[0]] + rs[1..] == rs;
      }
    }
  }

  /** `idx` lists, strictly increasing, the positions in `rs` of the rings in `kept`,
      and every accepted ring's position. */
  predicate OrderWitness(sh: Shapely, rs: seq<Json>, kept: seq<Json>, idx: seq<nat>) {
    |idx| == |kept| &&
    (forall k, k' :: 0 <= k < k' < |idx| ==> idx[k] < idx[k']) &&
    (forall k :: 0 <= k < |idx| ==> idx[k] < |rs| && kept[k] == rs[idx[k]] && sh.accepts(rs[idx[k]]) == Some(true)) &&
    (forall j :: 0 <= j < |rs| && sh.accepts(rs[j]) == Some(true) ==> j in idx)
  }

  /** A witness for the tail, shifted by one, is a witness for the whole list without its head. */
  lemma OrderWitnessShift(sh: Shapely, rs: seq<Json>, keptTail: seq<Json>, rest: seq<nat>) returns (shifted: seq<nat>)
    requires |rs| >= 1 && OrderWitness(sh, rs[1..], keptTail, rest)
    ensures |shifted| == |keptTail|
    ensures forall k :: 0 <= k < |shifted| ==> 1 <= shifted[k]
    ensures forall k, k' :: 0 <= k < k' < |shifted| ==> shifted[k] < shifted[k']
    ensures forall k :: 0 <= k < |shifted| ==>
      shifted[k] < |rs| && keptTail[k] == rs[shifted[k]] && sh.accepts(rs[shifted[k]]) == Some(true)
    ensures forall j :: 1 <= j < |rs| && sh.accepts(rs[j]) == Some(true) ==> j in shifted
  {
    var tail := rs[1..];
    shifted := seq(|rest|, k requires 0 <= k < |rest| => rest[k] + 1);
    forall k | 0 <= k < |shifted|
      ensures shifted[k] == rest[k] + 1
    {
    }
    forall k | 0 <= k < |shifted|
      ensures shifted[k] < |rs| && keptTail[k] == rs[shifted[k]] && sh.accepts(rs[shifted[k]]) == Some(true)
    {
      assert rest[k] < |tail| && keptTail[k] == tail[rest[k]];
      assert rs[shifted[k]] == tail[rest[k]];
    }
    forall j | 1 <= j < |rs| && sh.accepts(rs[j]) == Some(true)
      ensures j in shifted
    {
      assert tail[j - 1] == rs[j];
      assert j - 1 in rest;
      var k :| 0 <= k < |rest| && rest[k] == j - 1;
      assert shifted[k] == j;
    }
  }

  /** With an accepted head, the shifted tail witness behind position 0 is a witness. */
  lemma OrderWitnessPrepend(sh: Shapely, rs: seq<Json>, keptTail: seq<Json>, shifted: seq<nat>) returns (idx: seq<nat>)
    requires |rs| >= 1 && sh.accepts(rs[0]) == Some(true)
    requires |shifted| == |keptTail|
    requires forall k :: 0 <= k < |shifted| ==> 1 <= shifted[k]
    requires forall k, k' :: 0 <= k < k' < |shifted| ==> shifted[k] < shifted[k']
    requires forall k :: 0 <= k < |shifted| ==>
      shifted[k] < |rs| && keptTail[k] == rs[shifted[k]] && sh.accepts(rs[shifted[k]]) == Some(true)
    requires forall j :: 1 <= j < |rs| && sh.accepts(rs[j]) == Some(true) ==> j in shifted
    ensures OrderWitness(sh, rs, [rs[0]] + keptTail, idx)
  {
    var kept := [rs[0]] + keptTail;
    idx := [0] + shifted;
    forall k | 1 <= k < |idx|
      ensures idx[k] == shifted[k - 1] && kept[k] == keptTail[k - 1]
    {
    }
    forall k, k' | 0 <= k < k' < |idx|
      ensures idx[k] < idx[k']
    {
      assert idx[k'] == shifted[k' - 1];
      if k > 0 {
        assert idx[k] == shifted[k - 1];
      }
    }
    forall k | 0 <= k < |idx|
      ensures idx[k] < |rs| && kept[k] == rs[idx[k]] && sh.accepts(rs[idx[k]]) == Some(true)
    {
    }
    forall j | 0 <= j < |rs| && sh.accepts(rs[j]) == Some(true)
      ensures j in idx
    {
      if j > 0 {
        assert j in shifted;
        var m :| 0 <= m < |shifted| && shifted[m] == j;
        assert idx[m + 1] == j;
      }
    }
  }

  /** A witness for the tail extends to one for the whole list. */
  lemma OrderWitnessCons(sh: Shapely, rs: seq<Json>, keptTail: seq<Json>, rest: seq<nat>) returns (idx: seq<nat>)
    requires |rs| >= 1 && OrderWitness(sh, rs[1..], keptTail, rest)
    ensures OrderWitness(sh, rs, if sh.accepts(rs[0]) == Some(true) then [rs[0]] + keptTail else keptTail, idx)
  {
    var shifted := OrderWitnessShift(sh, rs, keptTail, rest);
    if sh.accepts(rs[0]) == Some(true) {
      idx := OrderWitnessPrepend(sh, rs, keptTail, shifted);
    } else {
      forall j | 0 <= j < |rs| && sh.accepts(rs[j]) == Some(true)
        ensures j in shifted
      {
        assert j != 0;
      }
      idx := shifted;
    }
  }

  /** The filter keeps the accepted rings in input order, each once: `idx` lists the
      positions of the kept rings, strictly increasing, and misses no accepted ring. */
  lemma {:induction false} AcceptedRingsOrder(sh: Shapely, rs: seq<Json>) returns (idx: seq<nat>)
    requires AcceptedRings(sh, rs).Ok?
    ensures OrderWitness(sh, rs, AcceptedRings(sh, rs).value, idx)
    decreases |rs|
  {
    if rs == [] {
      idx := [];
    } else {
      var rest := AcceptedRingsOrder(sh, rs[1..]);
      idx := OrderWitnessCons(sh, rs, AcceptedRings(sh, rs[1..]).value, rest);
    }
  }

  /** No geometry comes out when `rings` is falsy or no ring survives the filter. */
  lemma RingsNoGeometry(sh: Shapely, rings: Json)
    ensures RingsToGeoJson(sh, rings) == Ok(None) <==>
      !Truthy(rings) ||
      (Iterate(rings).Some? && AcceptedRings(sh, Iterate(rings).value) == Ok([]))
  {
  }

  /** Exactly one surviving ring gives a Polygon, two or more a MultiPolygon with one
      polygon per surviving ring, in input order; a MultiPolygon never holds just one. */
  lemma RingsShape(sh: Shapely, rings: Json)
    ensures var r := RingsToGeoJson(sh, rings);
      r.Ok? && r.value.Some? ==>
        Truthy(rings) && Iterate(rings).Some? &&
        var kept := AcceptedRings(sh, Iterate(rings).value).value;
        (r.value.value.Polygon? <==> |kept| == 1) &&
        (r.value.value.Polygon? ==> r.value.value.exterior == sh.orient(kept[0])) &&
        (r.value.value.MultiPolygon? ==>
          |kept| >= 2 && |r.value.value.exteriors| == |kept| &&
          forall i :: 0 <= i < |kept| ==> r.value.value.exteriors[i] == sh.orient(sh.orient(kept[i]))) &&
        !r.value.value.Point?
    ensures Truthy(rings) && Iterate(rings).Some? && AcceptedRings(sh, Iterate(rings).value).Err? ==>
      RingsToGeoJson(sh, rings) == Err(AcceptedRings(sh, Iterate(rings).value).error)
    ensures Truthy(rings) && Iterate(rings).Some? && AcceptedRings(sh, Iterate(rings).value).Ok? ==>
      var kept := AcceptedRings(sh, Iterate(rings).value).value;
        (|kept| == 1 ==> RingsToGeoJson(sh, rings) == Ok(Some(Polygon(sh.orient(kept[0]))))) &&
        (|kept| >= 2 ==> RingsToGeoJson(sh, rings) == Ok(Some(MultiPolygon(OrientAll(sh, OrientAll(sh, kept))))))
    ensures Truthy(rings) && Iterate(rings).None? ==> RingsToGeoJson(sh, rings) == Err(NotIterable)
  {
  }

  /** Winding: if `orient` always yields a counter-clockwise ring (`ccw`), every ring
      of a produced polygon or multipolygon is counter-clockwise, whatever the input's winding. */
  lemma RingsCounterClockwise(sh: Shapely, ccw: Json -> bool, rings: Json)
    requires forall r :: ccw(sh.orient(r))
    ensures var res := RingsToGeoJson(sh, rings);
      res.Ok? && res.value.Some? ==>
        match res.value.value
        case Point(_, _) => false
        case Polygon(e) => ccw(e)
        case MultiPolygon(es) => forall i :: 0 <= i < |es| ==> ccw(es[i])
  {
    var res := RingsToGeoJson(sh, rings);
    if res.Ok? && res.value.Some? {
      RingsShape(sh, rings);
      var kept := AcceptedRings(sh, Iterate(rings).value).value;
      if res.value.value.MultiPolygon? {
        forall i | 0 <= i < |res.value.value.exteriors|
          ensures ccw(res.value.value.exteriors[i])
        {
          assert res.value.value.exteriors[i] == sh.orient(sh.orient(kept[i]));
        }
      }
    }
  }

  /** When `orient` is idempotent, the second `orient` on the MultiPolygon changes
      nothing: each member is its ring oriented once. */
  lemma MultiPolygonOrientedOnce(sh: Shapely, rings: Json)
    requires forall r :: sh.orient(sh.orient(r)) == sh.orient(r)
    ensures var res := RingsToGeoJson(sh, rings);
      res.Ok? && res.value.Some? && res.value.value.MultiPolygon? ==>
        var kept := AcceptedRings(sh, Iterate(rings).value).value;
        res.value.value.exteriors == OrientAll(sh, kept)
  {
    RingsShape(sh, rings);
  }

  /** The dispatch of `_transform_geojson` on a truthy `geom`: `'rings' in geom` is
      tested first, then `'x' in geom and 'y' in geom`; the `in` tests and the
      subscripts raise on values that are not dicts. */
  function ConvertGeometry(sh: Shapely, geom: Json): Result<Option<Geometry>, string> {
    match Contains(geom, "rings")
    case None => Err(NotIterable)
    case Some(true) =>
      (match geom
       case JObj(fs) => RingsToGeoJson(sh, GetOr(fs, "rings", JNull))
       case _ => Err(NoGet))
    case Some(false) =>
      if Contains(geom, "x") == Some(true) && Contains(geom, "y") == Some(true) then
        match geom
        case JObj(fs) => Ok(Some(Point(GetOr(fs, "x", JNull), GetOr(fs, "y", JNull))))
        case _ => Err("TypeError: indices must be integers")
      else Ok(None)
  }

  /** Dispatch order on a dict geometry: `rings` wins even when `x` and `y` are also
      present; otherwise `x` and `y` give a Point with the coordinates unchanged;
      otherwise there is no geometry. */
  lemma DispatchOrder(sh: Shapely, fs: Fields)
    ensures Lookup(fs, "rings").Some? ==>
      ConvertGeometry(sh, JObj(fs)) == RingsToGeoJson(sh, Lookup(fs, "rings").value)
    ensures Lookup(fs, "rings").None? && Lookup(fs, "x").Some? && Lookup(fs, "y").Some? ==>
      ConvertGeometry(sh, JObj(fs)) == Ok(Some(Point(Lookup(fs, "x").value, Lookup(fs, "y").value)))
    ensures Lookup(fs, "rings").None? && (Lookup(fs, "x").None? || Lookup(fs, "y").None?) ==>
      ConvertGeometry(sh, JObj(fs)) == Ok(None)
  {
  }
}
