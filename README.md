# ArcGIS MapServer provider for pygeoapi, modelled in Dafny

This project models the two ArcGIS MapServer feature providers that the pygeoapi
deployment ships under `docker/arcgis_mapserver/`. Each provider:

- finds its collection in the pygeoapi configuration: the first resource that lists a
  provider with the same `name`;
- reads the collection's spatial extent and derives an EPSG code from the trailing digits
  of its CRS (`(\d{4,5})$`, default 4326);
- checks the bounding box;
- sends one envelope query to the MapServer;
- turns the `results` into a GeoJSON FeatureCollection.

The two providers differ in these ways:

- `arcgis_mapserver.py` (module `MapServerProvider`):
  - keeps the code as text and falls back to `sr=2056`;
  - asks for `f=json` (offset before limit);
  - converts each item with arcgis2geojson;
  - fills in a missing identifier from the item, then the properties, then a fresh uuid;
  - applies an optional geometry transform;
  - keeps every feature whose geometry is not None;
  - serves single items with `get_item`.
- `arcgis_mapserver_standalone.py` (module `StandaloneProvider`):
  - keeps the code as an integer and falls back to `sr=4326`;
  - asks for `f=geojson` (limit before offset);
  - converts ESRI geometries itself: `rings` become a Polygon (one valid ring) or a
    MultiPolygon (two or more), and `x`/`y` become a Point;
  - takes the identifier from the item, then its attributes, then `featureId`;
  - drops items without geometry.

Modules:

- `PyJson`: the Python values involved (None, bools, numbers, strings, lists, dicts in
  insertion order), with truthiness, `or`, `dict.get`, item assignment, iteration, `in`
  and `str()`.
- `Text`: digit strings, `int()`/`str()` on naturals, `','.join` and `split`.
- `CrsCode`: `re.search(r'(\d{4,5})$', crs)`, written out as a leftmost search, and the
  code each provider stores.
- `ConfigScan`: the walk over `resources` and `providers`, shared by both providers.
- `QueryCommon`:
  - the failures (the `ProviderQueryError` messages);
  - the checks before the request;
  - `sr`, `geometry`, `tolerance` and `offset or startindex`;
  - both URLs, as their parameter lists;
  - the result loop (`CollectKept`) and the FeatureCollection.
- `EsriGeometry`: the standalone provider's ring and point conversion.
- `MapServerProvider`, `StandaloneProvider`: one class each, with the source's fields and
  methods.
- `Variants`: how the two providers' `sr` compare for the same CRS.

Python exceptions are modelled as `Result` values.

- `Failure` is what a caller of `query`/`get_item` sees. Its `Message` gives the exact
  `ProviderQueryError` text.
- `Uncaught` stands for the exceptions the source raises outside its `try` blocks:
  `float()` of a bbox value and `params.get`.

Code the model cannot see is passed in as function parameters:

- the HTTP transport `get`;
- arcgis2geojson's `convert`;
- shapely's validity test and `orient`;
- `uuid4`;
- Python's float `repr`, `float()` of a string and `str()` of a container.

The operations hold for any such parameters. A few lemmas state a hypothesis about a
parameter, in their `requires`:

- `QueryCommon.PrepareQueryContract`: a float's `repr` holds no comma;
- `EsriGeometry.RingsCounterClockwise`: `orient` yields counter-clockwise rings;
- `EsriGeometry.MultiPolygonOrientedOnce`: `orient` is idempotent;
- `Variants.EmptyGeometryKeptOnlyByMapServer`: `convert` passes an empty geometry dict
  through as an empty dict.

Behaviours of the code worth knowing, which the model reproduces:

- The code has no step that collapses a one-polygon MultiPolygon into a Polygon: a
  MultiPolygon only arises from two or more surviving rings (`EsriGeometry.RingsShape`).
- `get_item` has no envelope (`feature`) fallback for the identifier or the geometry. It
  converts the item like a query result and fails when the geometry is None.
- There is no explicit `sr` override. A CRS with no trailing code does not give a fixed
  constant: it leaves `default_epsg` as it was (None after construction), and `query` then
  sends `2056` or `4326` depending on the provider.
- Both providers drop a feature whose geometry is missing or None. Only the standalone
  provider also drops a falsy geometry; `arcgis_mapserver.py` keeps a feature whose
  geometry is falsy but not None, such as an empty dict
  (`Variants.EmptyGeometryKeptOnlyByMapServer`).

## Model

| member | source | states |
|---|---|---|
| `PyJson.LookupSet` | docker/arcgis_mapserver/arcgis_mapserver.py:71 | after `d[k] = v`, `d[k]` is `v` and every other key reads as before |
| `Text.ParseNatToString` | docker/arcgis_mapserver/arcgis_mapserver_standalone.py:57 | `int(str(n)) == n` for every natural `n` |
| `Text.NatToStringParse` | docker/arcgis_mapserver/arcgis_mapserver_standalone.py:57 | `str(int(s)) == s` for a digit string without a leading zero |
| `Text.SplitJoin` | docker/arcgis_mapserver/arcgis_mapserver.py:108 | splitting a separator-joined list whose parts hold no separator gives the list back |
| `Text.JoinSeparatorCount` | docker/arcgis_mapserver/arcgis_mapserver.py:108 | `n` separator-free parts joined hold exactly `n - 1` separators |
| `CrsCode.TrailingDigits` | docker/arcgis_mapserver/arcgis_mapserver.py:54 | the last `k` characters are all digits iff the trailing digit run is at least `k` long |
| `CrsCode.SearchFromShape` | docker/arcgis_mapserver/arcgis_mapserver.py:54 | the leftmost search from position `i` finds the last 5 digits when they are trailing digits at or after `i`, else the last 4 likewise, else nothing |
| `CrsCode.TrailingCodeSpec` | docker/arcgis_mapserver/arcgis_mapserver.py:54 | `re.search(r'(\d{4,5})$', s)` captures the last 5 digits when the trailing run is 5 or longer, the last 4 when it is exactly 4, and fails otherwise |
| `CrsCode.TrailingCodeDigits` | docker/arcgis_mapserver/arcgis_mapserver.py:54-56 | a captured code is a 4- or 5-digit suffix of the CRS |
| `CrsCode.TextCodeCases` | docker/arcgis_mapserver/arcgis_mapserver.py:53-58 | the text code per case: `'4326'` for an absent or empty CRS, the trailing 5 or 4 digits, or no code (the attribute keeps its value) |
| `CrsCode.IntCodeIsParsedTextCode` | docker/arcgis_mapserver/arcgis_mapserver_standalone.py:54-59 | the integer code exists exactly when the text code does and is `int()` of it |
| `CrsCode.SwissCrsExample` | docker/arcgis_mapserver/arcgis_mapserver.py:53-56 | `urn:ogc:def:crs:EPSG::2056` yields `'2056'` and `2056` |
| `ConfigScan.ScanProviderList` | docker/arcgis_mapserver/arcgis_mapserver.py:44-46 | the inner loop over `providers` ends as the specification function says: hit, miss, or an exception on a non-dict entry |
| `ConfigScan.FindCollection` | docker/arcgis_mapserver/arcgis_mapserver.py:42-59 | the nested walk over `resources.items()` returns the scan's outcome: the matched resource, no match, or an exception |
| `ConfigScan.MatchedIsFirst` | docker/arcgis_mapserver/arcgis_mapserver.py:42-46 | a matched resource is the first entry whose walk matches; its `providers` list holds a dict named this provider after only dicts with other names, and every earlier resource is skipped (a dict whose providers are all dicts with other names) |
| `ConfigScan.FirstMatchSelected` | docker/arcgis_mapserver/arcgis_mapserver.py:42-59 | conversely, the first matching entry after clean non-matches is the one selected |
| `ConfigScan.LaterEntriesIgnored` | docker/arcgis_mapserver/arcgis_mapserver.py:59 | entries after a match never change the outcome (the early `return`) |
| `ConfigScan.ProviderHitWitness` | docker/arcgis_mapserver/arcgis_mapserver.py:44-46 | a hit is at the first provider entry whose `name` equals this provider's, all earlier entries being dicts with another name |
| `ConfigScan.ProviderScanOutcome` | docker/arcgis_mapserver/arcgis_mapserver.py:44-45 | conversely, the first dict entry whose `name` equals this provider's, after only dicts with other names, is a hit; a non-dict entry met before it raises; a list of dicts with other names is a miss |
| `ConfigScan.ResourceSelected` | docker/arcgis_mapserver/arcgis_mapserver.py:42-46 | a resource whose `providers` list names this provider, after resources whose providers are all dicts with other names, is the one selected |
| `ConfigScan.ProviderMissAll` | docker/arcgis_mapserver/arcgis_mapserver.py:44-45 | a providers list without a hit or an exception holds only dicts with other names |
| `ConfigScan.ScanEntryOutcome` | docker/arcgis_mapserver/arcgis_mapserver.py:42-45 | a non-dict resource or a non-iterable `providers` raises, and the walk passes over a resource exactly when its providers are all dicts with other names |
| `ConfigScan.ResourceOutcome` | docker/arcgis_mapserver/arcgis_mapserver.py:43-46 | a resource whose providers list reaches a dict named this provider, after only dicts with other names, is matched; a non-dict entry reached first raises |
| `ConfigScan.FirstUnskippedDecides` | docker/arcgis_mapserver/arcgis_mapserver.py:42-63 | after skipped resources the first resource not skipped decides the walk: its match is selected, its exception ends the walk with nothing set; when all are skipped there is no match |
| `QueryCommon.ItemFailureNamesItem` | docker/arcgis_mapserver/arcgis_mapserver.py:169-170 | every item-level failure message contains the requested `item_id` |
| `QueryCommon.PrepareQueryContract` | docker/arcgis_mapserver/arcgis_mapserver.py:99-109 | the missing-collection check comes first, then the bbox check, both before any request; a prepared envelope holds exactly 3 commas and its 4 parts are `str(float(v))` of the bbox values in order; a truthy collection, a 4-item bbox whose values all convert with `float()` and a dict `params` always prepare a query |
| `QueryCommon.FloatTextsAt` | docker/arcgis_mapserver/arcgis_mapserver.py:106-108 | the `k`-th text is `str(float(bbox[k]))`, and every value converts when the list does |
| `QueryCommon.QueryParamsReadBack` | docker/arcgis_mapserver/arcgis_mapserver.py:111-121 | splitting either query string on `&` gives back its eight parameters in the order sent, when no value holds `&` |
| `QueryCommon.ParamVariants` | docker/arcgis_mapserver/arcgis_mapserver_standalone.py:84-94 | the two requests share their first five parameters and differ only in `f` and in the order of `limit` and `offset` |
| `QueryCommon.CollectKeptOk` | docker/arcgis_mapserver/arcgis_mapserver.py:131-134 | the result loop succeeds exactly when every item's step succeeds |
| `QueryCommon.CollectKeptStopsAtError` | docker/arcgis_mapserver/arcgis_mapserver.py:125-146 | the first item that raises ends the loop with its exception, whatever follows |
| `QueryCommon.CollectKeptExact` | docker/arcgis_mapserver/arcgis_mapserver.py:131-134 | the kept features are exactly the items' kept outputs, in item order, none missed, at most one per item |
| `EsriGeometry.AcceptedRingsSpec` | docker/arcgis_mapserver/arcgis_mapserver_standalone.py:120-124 | every kept ring is a valid, non-empty input ring and every such ring is kept; the filter fails exactly when a ring cannot make a polygon, and keeps all rings when all are valid (order and multiplicity: `EsriGeometry.AcceptedRingsOrder`) |
| `EsriGeometry.AcceptedRingsOrder` | docker/arcgis_mapserver/arcgis_mapserver_standalone.py:120-124 | the kept rings are the accepted rings in input order, each once: a strictly increasing list of positions maps every kept ring to its input ring and holds every accepted position |
| `EsriGeometry.RingsNoGeometry` | docker/arcgis_mapserver/arcgis_mapserver_standalone.py:117-126 | no geometry iff `rings` is falsy or no ring survives the filter |
| `EsriGeometry.RingsShape` | docker/arcgis_mapserver/arcgis_mapserver_standalone.py:127-131 | one surviving ring gives a Polygon of that ring oriented, two or more a MultiPolygon with one member per ring in order, and conversely a produced geometry has that shape (never a Point, never a one-member MultiPolygon); a ring that cannot make a polygon or a non-iterable `rings` raises |
| `EsriGeometry.RingsCounterClockwise` | docker/arcgis_mapserver/arcgis_mapserver_standalone.py:120-131 | when `orient` yields counter-clockwise rings, every produced exterior is counter-clockwise whatever the input winding |
| `EsriGeometry.MultiPolygonOrientedOnce` | docker/arcgis_mapserver/arcgis_mapserver_standalone.py:130-131 | with an idempotent `orient`, the second orientation of the MultiPolygon changes nothing |
| `EsriGeometry.DispatchOrder` | docker/arcgis_mapserver/arcgis_mapserver_standalone.py:146-155 | `rings` wins over `x`/`y`; `x` and `y` give a Point with the coordinates unchanged; anything else gives no geometry |
| `StandaloneProvider.FeatureIdPrecedence` | docker/arcgis_mapserver/arcgis_mapserver_standalone.py:157-161 | a truthy top-level id wins, then a truthy attribute, then `featureId` even when it is None; non-dict attributes raise; no identifier is generated |
| `StandaloneProvider.FeatureIdNonStringField` | docker/arcgis_mapserver/arcgis_mapserver_standalone.py:157-161 | with the default None `id_field` (or any other non-string hashable), no key matches and the id is `featureId`, non-dict attributes raise; a list or dict `id_field` raises |
| `StandaloneProvider.ItemFeatureSpec` | docker/arcgis_mapserver/arcgis_mapserver_standalone.py:139-169 | a dict item with a truthy geometry that converts to a geometry is emitted with that geometry, the item's attributes as properties and the chain's id, and every emitted feature arises so; a falsy geometry, or a truthy one that converts to no geometry with a valid identifier, is skipped without raising; a non-dict item, a conversion error or an identifier error raises |
| `StandaloneProvider.NoResultsNoFeatures` | docker/arcgis_mapserver/arcgis_mapserver_standalone.py:135-137 | a response without `results` gives an empty list |
| `StandaloneProvider.TransformResultsOrder` | docker/arcgis_mapserver/arcgis_mapserver_standalone.py:139-171 | the features follow the `results` order, one per emitted item, none missed, never more than the results |
| `StandaloneProvider.TransformResultsSucceeds` | docker/arcgis_mapserver/arcgis_mapserver_standalone.py:139-169 | the loop returns normally exactly when no item raises; skipped items never end it |
| `StandaloneProvider.ArcGISMapServer.constructor` | docker/arcgis_mapserver/arcgis_mapserver_standalone.py:16-28 | the provider's fields after `__init__`, including the integer EPSG code of the matched extent |
| `StandaloneProvider.ArcGISMapServer.LoadCollectionFromConfig` | docker/arcgis_mapserver/arcgis_mapserver_standalone.py:35-64 | the first matching resource sets the collection, bbox, CRS and `int()` code; a failure after the match leaves the extent fields as they were; no match changes nothing |
| `StandaloneProvider.ArcGISMapServer.Query` | docker/arcgis_mapserver/arcgis_mapserver_standalone.py:67-114 | the checks fail before any request; the `f=geojson` URL with `sr` the code or 4326; transport errors become "Connection error", conversion errors "Error querying MapServer API"; both counts equal the feature count |
| `StandaloneProvider.ArcGISMapServer.TransformGeojson` | docker/arcgis_mapserver/arcgis_mapserver_standalone.py:133-171 | the loop with `continue` returns what the result specification gives |
| `MapServerProvider.FallbackIdPrecedence` | docker/arcgis_mapserver/arcgis_mapserver.py:82-87 | a truthy item id wins, then a truthy property, then the generated uuid; non-dict properties raise |
| `MapServerProvider.FallbackIdNonStringField` | docker/arcgis_mapserver/arcgis_mapserver.py:82-87 | with the default None `id_field` (or any other non-string hashable), no key matches and a dict item gets the generated uuid; non-dict properties or item raise; a list or dict `id_field` raises |
| `MapServerProvider.FallbackIdTruthy` | docker/arcgis_mapserver/arcgis_mapserver.py:86 | a filled-in identifier is never falsy |
| `MapServerProvider.TransformedGeometrySpec` | docker/arcgis_mapserver/arcgis_mapserver.py:65-72 | a truthy geometry is replaced by its image, a falsy one left alone, and no other key changes |
| `MapServerProvider.ConvertFeatureSpec` | docker/arcgis_mapserver/arcgis_mapserver.py:74-93 | an id that is present and not None is kept, a missing one is the fallback chain's value; the transform reaches the geometry exactly once, only when given and the geometry is truthy; other keys are as `convert` made them |
| `MapServerProvider.ConvertFeatureOutcome` | docker/arcgis_mapserver/arcgis_mapserver.py:74-93 | `_custom_convert` succeeds exactly when `convert` does and, for a feature without an identifier, the fallback chain does; otherwise it raises the first of their exceptions |
| `MapServerProvider.QueryFeaturesOrder` | docker/arcgis_mapserver/arcgis_mapserver.py:130-134 | the features are the converted items with a geometry, in `results` order, each converted with its position's uuid, none missed |
| `MapServerProvider.QueryFeaturesSucceeds` | docker/arcgis_mapserver/arcgis_mapserver.py:130-134 | the loop completes exactly when every item converts; a converted feature without a geometry is dropped and the loop goes on |
| `MapServerProvider.NoResultsNoFeatures` | docker/arcgis_mapserver/arcgis_mapserver.py:131 | a body without `results` gives no features |
| `MapServerProvider.ArcGISMapServer.constructor` | docker/arcgis_mapserver/arcgis_mapserver.py:16-28 | the provider's fields after `__init__`, including the text EPSG code of the matched extent |
| `MapServerProvider.ArcGISMapServer.LoadCollectionFromConfig` | docker/arcgis_mapserver/arcgis_mapserver.py:34-63 | the first matching resource sets the collection, bbox, CRS and text code; a failure after the match leaves the extent fields as they were; no match changes nothing |
| `MapServerProvider.ArcGISMapServer.ApplyGeometryTransform` | docker/arcgis_mapserver/arcgis_mapserver.py:65-72 | the dict update gives the transformed feature |
| `MapServerProvider.ArcGISMapServer.CustomConvert` | docker/arcgis_mapserver/arcgis_mapserver.py:74-93 | the in-place conversion gives the converted feature |
| `MapServerProvider.ArcGISMapServer.Query` | docker/arcgis_mapserver/arcgis_mapserver.py:95-146 | the checks fail before any request; the `f=json` URL with `sr` the code or `2056`; transport and conversion errors wrapped as in the source; every returned feature has a geometry and both counts equal the feature count |
| `MapServerProvider.ArcGISMapServer.ConvertResults` | docker/arcgis_mapserver/arcgis_mapserver.py:130-134 | the conversion loop returns what the result specification gives, and every kept feature has a geometry |
| `MapServerProvider.ArcGISMapServer.GetItem` | docker/arcgis_mapserver/arcgis_mapserver.py:148-170 | no request without a collection; the request goes to `{data}/{item_id}`; a feature without geometry fails with "No geometry found for item {item_id}" inside the item error; a returned feature always has a geometry; every item error names `item_id` |
| `Variants.SrAgreement` | docker/arcgis_mapserver/arcgis_mapserver.py:107 | the two providers send the same `sr` iff the CRS yields a code without a leading zero; a code like `0000` or `02056`, or a CRS with no code, makes them differ |
| `Variants.EmptyGeometryKeptOnlyByMapServer` | docker/arcgis_mapserver/arcgis_mapserver.py:133-134 | when `convert` succeeds and passes the empty geometry dict through as an empty dict, an item whose geometry is an empty dict is kept by `arcgis_mapserver.py` (`is not None`) and skipped by the standalone provider (`not geom`, arcgis_mapserver_standalone.py:142-143) |
| `Variants.SwissCrsSameSr` | docker/arcgis_mapserver/arcgis_mapserver_standalone.py:80 | for `urn:ogc:def:crs:EPSG::2056` both providers send `sr=2056` |

## Left out

- Reading `/pygeoapi/local.config.yml` and parsing YAML: the parsed configuration is a
  parameter. A failure to open or parse it behaves like any other exception in the walk:
  nothing is set.
- HTTP: the transport `get` is a parameter. It returns a decoded body or an error text. The
  timeout, `raise_for_status` and `resp.json()` failures are all `RequestException`s, so
  they are folded into its error, which becomes "Connection error".
- Logging, and `BaseProvider.__init__` (`super().__init__`): BaseProvider is not part of this
  model.
- arcgis2geojson's `convert` and shapely are parameters. Ring validity, orientation and
  polygon holes are not computed. `Polygon` and `MultiPolygon` record the exterior rings
  only.
- `uuid.uuid4()`: the model takes one string per result position and does not model the
  uniqueness of those strings.
- Python floats are modelled as exact reals. NaN and infinities cannot be represented
  (for example a `.nan` bbox value in YAML), rounding is not modelled, and `float()` of an
  integer too large for a double, which raises OverflowError, succeeds in the model.
- Python's float `repr`, `float()` of a string and `str()` of a list or dict are
  parameters. `PrepareQueryContract` assumes only that a float's `repr` holds no comma.
- A transform function that raises is not modelled: `transform_fn` is a total function.
- Python `==` across numeric types (`True == 1`, `1 == 1.0`) in the provider-name
  comparison: the model compares values structurally.
- `\d` and `$`: the model matches ASCII digits only, and `$` only at the very end. Python
  also matches other Unicode digits, and `$` before a final newline.
- Exception texts other than the `ProviderQueryError` messages are placeholder strings, not
  Python's exact wording.
- Dict keys are strings. An `id_field` that is not a string never matches a key, and a
  list or dict `id_field` raises as unhashable.
- `isinstance(bbox, (list, tuple))`: parsed configuration has no tuples, so only lists are
  modelled.
- Extra keyword arguments of `query` are ignored by the source and are not modelled.
- Default arguments of `query` (`startindex=0`, `limit=10`, `offset=None`, and
  `transform_fn=None` in arcgis_mapserver.py): the model's `Query` methods take every
  argument. A bare `query()` is the call with 0, 10 and None, which sends offset 0 and
  limit 10.
