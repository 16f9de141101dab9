/** How the two providers differ on the same input: the `sr` request parameter for
    the same configured CRS, and which items with an empty geometry they keep. */
module Variants {
  import opened Text
  import opened PyJson
  import opened CrsCode
  import opened QueryCommon
  import opened EsriGeometry
  import MapServerProvider
  import StandaloneProvider

  /** `sr` as arcgis_mapserver.py sends it, after a CRS value has been read. */
  function TextProviderSr(crs: Option<string>): string {
    TextSr(TextCode(crs))
  }

  /** `sr` as arcgis_mapserver_standalone.py sends it, after a CRS value has been read. */
  function IntProviderSr(crs: Option<string>): string {
    IntToString(IntSr(IntCode(crs)))
  }

  /** A code such as "02056", which `int()` shortens. */
  predicate LeadingZero(code: string) {
    |code| > 0 && code[0] == '0'
  }

  /** The two providers send the same `sr` exactly when the CRS yields a code that
      does not start with `0`. A code with a leading zero loses it through `int()`
      (and an all-zero code becomes 4326), and a non-empty CRS without a code falls
      back to "2056" in one provider and 4326 in the other. */
  lemma SrAgreement(crs: Option<string>)
    ensures IntProviderSr(crs) == TextProviderSr(crs) <==>
      (TextCode(crs).Some? && !LeadingZero(TextCode(crs).value))
  {
    IntCodeIsParsedTextCode(crs);
    if crs.Some? && crs.value != "" {
      TrailingCodeDigits(crs.value);
    }
    if TextCode(crs).None? {
      ParseNatToString(4326);
      assert ParseDigits("2056") == 2056 by {
        assert "2056"[..3] == "205" && "205"[..2] == "20" && "20"[..1] == "2";
      }
      assert IntProviderSr(crs) == NatToString(4326);
    } else {
      var g := TextCode(crs).value;
      assert |g| >= 1;
      var n := ParseDigits(g);
      if g[0] != '0' {
        ParsePositive(g);
        NatToStringParse(g);
      } else {
        var m: nat := IntSr(Some(n as int));
        assert IntProviderSr(crs) == NatToString(m);
        assert NatToString(m)[0] != '0';
      }
    }
  }

  /** The Swiss CRS `urn:ogc:def:crs:EPSG::2056` gives the same request in both. */
  lemma SwissCrsSameSr()
    ensures TextProviderSr(Some("urn:ogc:def:crs:EPSG::2056")) == "2056"
    ensures IntProviderSr(Some("urn:ogc:def:crs:EPSG::2056")) == "2056"
  {
    SwissCrsExample();
    SrAgreement(Some("urn:ogc:def:crs:EPSG::2056"));
  }

  /** An item whose geometry is an empty dict: arcgis_mapserver.py keeps the converted
      feature when `convert` passes that geometry through (the test is `is not None`),
      while arcgis_mapserver_standalone.py skips the item (the test is `not geom`). */
  lemma EmptyGeometryKeptOnlyByMapServer(convert: MapServerProvider.Converter, idField: Json,
                                         transform: Option<Json -> Json>, uuids: nat -> string,
                                         j: nat, sh: Shapely, item: Json)
    requires item.JObj? && Lookup(item.fields, "geometry") == Some(JObj([]))
    requires MapServerProvider.ConvertFeature(convert, idField, transform, item, uuids(j)).Ok?
    requires Lookup(MapServerProvider.ConvertFeature(convert, idField, transform, item, uuids(j)).value, "geometry")
             == Some(JObj([]))
    ensures MapServerProvider.QueryStep(convert, idField, transform, uuids)(j, item)
            == Ok(Some(MapServerProvider.ConvertFeature(convert, idField, transform, item, uuids(j)).value))
    ensures StandaloneProvider.ItemFeature(sh, idField, item) == Ok(None)
  {
  }
}
