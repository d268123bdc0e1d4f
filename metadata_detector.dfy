/**
 * Universal metadata format detector: classifies a parsed document into one of
 * four dialects (GeoCroissant, NASA CMR-UMM, STAC, generic) and reads the
 * normalised fields of each dialect, every read falling back to a fixed default.
 *
 * Where the source would raise on an ill-typed shape (a `.get` on something
 * that is not a dict, a `[0]` on a number), the accessor's `requires` names the
 * shape the code relies on; every other missing or empty field is handled as
 * the source handles it.
 */
module MetadataDetector {
  import opened Wrappers
  import opened JsonData
  import opened Strings

  datatype Format = GeoCroissant | CmrUmm | Stac | Generic

  /** The only keys whose presence or value takes part in detection. */
  const MarkerKeys: set<string> :=
    {"umm", "meta", "stac_version", "type", "links", "recordSet", "distribution"}

  const UnknownName: Json := Str("Unknown Dataset")
  const DefaultCrs: Json := Str("EPSG:4326")

  /** Format detection: the first matching marker test wins. */
  function Detect(doc: Fields): Format {
    if Has(doc, "umm") && Has(doc, "meta") then CmrUmm
    else if Truthy(Get(doc, "stac_version", Null))
         || (Get(doc, "type", Null) == Str("FeatureCollection") && Has(doc, "links")) then Stac
    else if Has(doc, "recordSet") || Has(doc, "distribution") then GeoCroissant
    else Generic
  }

  /** The marker test of one format on its own, without regard to the others. */
  predicate Marked(doc: Fields, f: Format) {
    match f
    case CmrUmm => Has(doc, "umm") && Has(doc, "meta")
    case Stac =>
      Truthy(Get(doc, "stac_version", Null))
      || (Get(doc, "type", Null) == Str("FeatureCollection") && Has(doc, "links"))
    case GeoCroissant => Has(doc, "recordSet") || Has(doc, "distribution")
    case Generic => true
  }

  /** The order in which the formats are tried. */
  const Precedence: seq<Format> := [CmrUmm, Stac, GeoCroissant, Generic]

  /** Detection is total and picks the first format, in precedence order, whose marker test holds. */
  lemma DetectIsFirstMarked(doc: Fields)
    ensures exists i :: (0 <= i < |Precedence| && Precedence[i] == Detect(doc)
      && Marked(doc, Precedence[i]) && forall j :: 0 <= j < i ==> !Marked(doc, Precedence[j]))
  {
    var i := match Detect(doc) case CmrUmm => 0 case Stac => 1 case GeoCroissant => 2 case Generic => 3;
    assert Precedence[i] == Detect(doc);
  }

  /** Keys that are not marker keys, wherever they are added, do not change the format. */
  lemma DetectIgnoresOtherKeys(doc: Fields, before: Fields, after: Fields)
    requires forall i :: 0 <= i < |before| ==> before[i].0 !in MarkerKeys
    requires forall i :: 0 <= i < |after| ==> after[i].0 !in MarkerKeys
    ensures Detect(before + doc + after) == Detect(doc)
  {
    forall k | k in MarkerKeys ensures Lookup(before + doc + after, k) == Lookup(doc, k) {
      LookupAppend(before + doc, after, k);
      LookupAppend(before, doc, k);
      assert !Has(before, k);
      assert !Has(after, k);
      assert Has(before + doc, k) <==> Has(doc, k);
    }
    var whole := before + doc + after;
    assert Get(whole, "stac_version", Null) == Get(doc, "stac_version", Null);
    assert Get(whole, "type", Null) == Get(doc, "type", Null);
    assert forall k :: k in MarkerKeys ==> (Has(whole, k) <==> Has(doc, k));
  }

  /** A document with both "umm" and "meta" is CMR-UMM whatever else it holds, STAC or GeoCroissant markers included. */
  lemma CmrWinsOverAnyKeys(doc: Fields, before: Fields, after: Fields)
    requires Has(doc, "umm") && Has(doc, "meta")
    ensures Detect(before + doc + after) == CmrUmm
  {
    forall k | k == "umm" || k == "meta" ensures Has(before + doc + after, k) {
      LookupAppend(before + doc, after, k);
      LookupAppend(before, doc, k);
    }
  }

  /** The detector of `__init__`: the document and the format computed once from it. */
  datatype Detector = Detector(data: Fields, format: Format)

  function NewDetector(data: Fields): (d: Detector)
    ensures d.data == data && d.format == Detect(data)
  {
    Detector(data, Detect(data))
  }

  // ---------------------------------------------------------------- name, description

  /**
   * Reference definition of a `.get` chain: the value of the first key of
   * `keys` that is present in `o`, or `default` when none is.
   */
  function FirstPresent(o: Fields, keys: seq<string>, default: Json): (r: Json)
    ensures (forall i :: 0 <= i < |keys| ==> !Has(o, keys[i])) ==> r == default
    ensures forall i ::
      (0 <= i < |keys| && Has(o, keys[i]) && (forall j :: 0 <= j < i ==> !Has(o, keys[j])))
      ==> Lookup(o, keys[i]) == Some(r)
  {
    if keys == [] then default
    else
      var rest := FirstPresent(o, keys[1..], default);
      assert forall i :: 1 <= i < |keys| ==> keys[i] == keys[1..][i - 1];
      Get(o, keys[0], rest)
  }

  const CollectionRefPath: seq<string> := ["umm", "CollectionReference"]

  predicate CollectionRefShaped(d: Detector) {
    d.format == CmrUmm ==> DictPathOk(d.data, CollectionRefPath)
  }

  /** The dataset name, by the presence-based chain of each format. */
  function GetName(d: Detector): (r: Json)
    requires CollectionRefShaped(d)
    ensures d.format == CmrUmm ==>
      r == FirstPresent(DictPath(d.data, CollectionRefPath), ["EntryTitle"],
                        FirstPresent(DictPath(d.data, ["umm"]), ["GranuleUR"], UnknownName))
    ensures d.format == Stac ==> r == FirstPresent(d.data, ["title", "id"], UnknownName)
    ensures d.format == GeoCroissant ==> r == FirstPresent(d.data, ["name"], UnknownName)
    ensures d.format == Generic ==> r == FirstPresent(d.data, ["name", "title", "id"], UnknownName)
  {
    match d.format
    case CmrUmm =>
      var umm := GetDict(d.data, "umm");
      var collectionRef := GetDict(umm, "CollectionReference");
      Get(collectionRef, "EntryTitle", Get(umm, "GranuleUR", UnknownName))
    case Stac => Get(d.data, "title", Get(d.data, "id", UnknownName))
    case GeoCroissant => Get(d.data, "name", UnknownName)
    case Generic =>
      assert ["name", "title", "id"][1..] == ["title", "id"] && ["title", "id"][1..] == ["id"];
      assert ["id"][1..] == [];
      assert FirstPresent(d.data, ["id"], UnknownName) == Get(d.data, "id", UnknownName);
      assert FirstPresent(d.data, ["title", "id"], UnknownName) == Get(d.data, "title", Get(d.data, "id", UnknownName));
      Get(d.data, "name", Get(d.data, "title", Get(d.data, "id", UnknownName)))
  }

  /** The dataset description: a truthy value from the format's keys, else "". */
  function GetDescription(d: Detector): (r: Json)
    requires CollectionRefShaped(d)
    ensures Truthy(r) || r == Str("")
    ensures d.format == CmrUmm && Truthy(r) ==> Lookup(DictPath(d.data, CollectionRefPath), "EntryTitle") == Some(r)
    ensures d.format == CmrUmm && !Truthy(r) ==> !Truthy(Get(DictPath(d.data, CollectionRefPath), "EntryTitle", Null))
    ensures d.format != CmrUmm ==>
      if Truthy(Get(d.data, "description", Null)) then Lookup(d.data, "description") == Some(r)
      else if Truthy(Get(d.data, "abstract", Null)) then Lookup(d.data, "abstract") == Some(r)
      else r == Str("")
  {
    if d.format == CmrUmm then
      var umm := GetDict(d.data, "umm");
      var collectionRef := GetDict(umm, "CollectionReference");
      var entryTitle := Get(collectionRef, "EntryTitle", Str(""));
      if Truthy(entryTitle) then entryTitle else Str("")
    else
      Or(Or(Get(d.data, "description", Null), Get(d.data, "abstract", Null)), Str(""))
  }

  // ---------------------------------------------------------------- spatial extent

  datatype Extent = Extent(west: Json, south: Json, east: Json, north: Json)

  const GeometryPath: seq<string> := ["umm", "SpatialExtent", "HorizontalSpatialDomain", "Geometry"]

  /** A CMR boundary point: a dict whose coordinates, where given, are numbers. */
  predicate PointShaped(p: Json) {
    p.Obj? && NumOrAbsent(p.fields, "Longitude") && NumOrAbsent(p.fields, "Latitude")
  }

  /** `if points:` then iterate: falsy, or a list of points. */
  predicate PointsShaped(v: Json) {
    !Truthy(v) || (v.Arr? && forall i :: 0 <= i < |v.elems| ==> PointShaped(v.elems[i]))
  }

  /** `if polygons:` then `polygons[0].get("Boundary", {}).get("Points", [])`. */
  predicate PolygonsShaped(v: Json) {
    !Truthy(v) ||
    (v.Arr? && v.elems[0].Obj? && DictOrAbsent(v.elems[0].fields, "Boundary")
     && PointsShaped(Get(GetDict(v.elems[0].fields, "Boundary"), "Points", Arr([]))))
  }

  predicate CmrExtentShaped(data: Fields) {
    DictPathOk(data, GeometryPath) && PolygonsShaped(Get(DictPath(data, GeometryPath), "GPolygons", Arr([])))
  }

  /** The boundary points of the first polygon, or none when there is no polygon or no point. */
  function CmrPoints(data: Fields): (pts: seq<Json>)
    requires CmrExtentShaped(data)
    ensures forall i :: 0 <= i < |pts| ==> PointShaped(pts[i])
  {
    var polygons := Get(DictPath(data, GeometryPath), "GPolygons", Arr([]));
    if !Truthy(polygons) then []
    else
      var points := Get(GetDict(polygons.elems[0].fields, "Boundary"), "Points", Arr([]));
      if !Truthy(points) then [] else points.elems
  }

  /** `p.get(k, 0)` */
  function Coord(p: Json, k: string): real
    requires PointShaped(p) && (k == "Longitude" || k == "Latitude")
  {
    match Lookup(p.fields, k)
    case Some(v) => v.n
    case None => 0.0
  }

  function Coords(pts: seq<Json>, k: string): (cs: seq<real>)
    requires forall i :: 0 <= i < |pts| ==> PointShaped(pts[i])
    requires k == "Longitude" || k == "Latitude"
    ensures |cs| == |pts|
    ensures forall i :: 0 <= i < |pts| ==> cs[i] == Coord(pts[i], k)
  {
    seq(|pts|, i requires 0 <= i < |pts| => Coord(pts[i], k))
  }

  /** `min(s)` */
  function Min(s: seq<real>): (m: real)
    requires |s| > 0
    ensures m in s && forall i :: 0 <= i < |s| ==> m <= s[i]
  {
    if |s| == 1 then s[0]
    else
      var m := Min(s[1..]);
      assert forall i :: 1 <= i < |s| ==> s[i] == s[1..][i - 1];
      if s[0] <= m then s[0] else m
  }

  /** `max(s)` */
  function Max(s: seq<real>): (m: real)
    requires |s| > 0
    ensures m in s && forall i :: 0 <= i < |s| ==> s[i] <= m
  {
    if |s| == 1 then s[0]
    else
      var m := Max(s[1..]);
      assert forall i :: 1 <= i < |s| ==> s[i] == s[1..][i - 1];
      if s[0] >= m then s[0] else m
  }

  /**
   * The CMR extent: the bounding rectangle of the first polygon's points, a
   * missing coordinate counting as 0. It exists exactly when there is a point,
   * and it is well ordered: west <= east, south <= north.
   */
  function CmrExtent(data: Fields): (r: Option<Extent>)
    requires CmrExtentShaped(data)
    ensures r.Some? <==> |CmrPoints(data)| > 0
    ensures r.Some? ==> r.value.west.Num? && r.value.east.Num? && r.value.south.Num? && r.value.north.Num?
    ensures r.Some? ==> r.value.west.n <= r.value.east.n && r.value.south.n <= r.value.north.n
    ensures r.Some? ==> forall i :: 0 <= i < |CmrPoints(data)| ==>
      r.value.west.n <= Coord(CmrPoints(data)[i], "Longitude") <= r.value.east.n
      && r.value.south.n <= Coord(CmrPoints(data)[i], "Latitude") <= r.value.north.n
    ensures r.Some? ==>
      (exists i :: 0 <= i < |CmrPoints(data)| && Coord(CmrPoints(data)[i], "Longitude") == r.value.west.n)
      && (exists i :: 0 <= i < |CmrPoints(data)| && Coord(CmrPoints(data)[i], "Longitude") == r.value.east.n)
      && (exists i :: 0 <= i < |CmrPoints(data)| && Coord(CmrPoints(data)[i], "Latitude") == r.value.south.n)
      && (exists i :: 0 <= i < |CmrPoints(data)| && Coord(CmrPoints(data)[i], "Latitude") == r.value.north.n)
  {
    var pts := CmrPoints(data);
    if pts == [] then None
    else
      var lons := Coords(pts, "Longitude");
      var lats := Coords(pts, "Latitude");
      Some(Extent(Num(Min(lons)), Num(Min(lats)), Num(Max(lons)), Num(Max(lats))))
  }

  /** A positional bounding box: the first four entries as west, south, east, north. */
  function BboxExtent(bbox: Json): (r: Option<Extent>)
    requires FirstFourShaped(bbox)
    ensures r.Some? <==> Truthy(bbox) && Indexable(bbox) && Len(bbox) >= 4
    ensures r.Some? ==> (r.value.west == At(bbox, 0) && r.value.south == At(bbox, 1)
                      && r.value.east == At(bbox, 2) && r.value.north == At(bbox, 3))
  {
    if Truthy(bbox) && Len(bbox) >= 4 then Some(Extent(At(bbox, 0), At(bbox, 1), At(bbox, 2), At(bbox, 3)))
    else None
  }

  predicate ExtentShaped(d: Detector) {
    match d.format
    case CmrUmm => CmrExtentShaped(d.data)
    case Stac => FirstFourShaped(Get(d.data, "bbox", Null))
    case GeoCroissant => FirstFourShaped(Get(d.data, "geocr:BoundingBox", Null))
    case Generic => true
  }

  /** The spatial extent of each format; a generic document never has one. */
  function GetSpatialExtent(d: Detector): (r: Option<Extent>)
    requires ExtentShaped(d)
    ensures d.format == CmrUmm ==> r == CmrExtent(d.data)
    ensures d.format == Stac ==> r == BboxExtent(Get(d.data, "bbox", Null))
    ensures d.format == GeoCroissant ==> r == BboxExtent(Get(d.data, "geocr:BoundingBox", Null))
    ensures d.format == Generic ==> r == None
  {
    match d.format
    case CmrUmm => CmrExtent(d.data)
    case Stac => BboxExtent(Get(d.data, "bbox", Null))
    case GeoCroissant => BboxExtent(Get(d.data, "geocr:BoundingBox", Null))
    case Generic => None
  }

  // ---------------------------------------------------------------- temporal extent

  const RangePath: seq<string> := ["umm", "TemporalExtent", "RangeDateTime"]

  predicate TemporalShaped(d: Detector) {
    d.format == CmrUmm ==> DictPathOk(d.data, RangePath)
  }

  /**
   * `{"start": start or "", "end": end or ""}` when either is truthy, else None:
   * a missing side becomes "" and a present one is kept.
   */
  function DateRange(start: Json, end: Json): (r: Json)
    ensures r == Null <==> !Truthy(start) && !Truthy(end)
    ensures r != Null ==> r.Obj? && Truthy(r)
    ensures r != Null ==> (Lookup(r.fields, "start") == Some(if Truthy(start) then start else Str(""))
                        && Lookup(r.fields, "end") == Some(if Truthy(end) then end else Str("")))
  {
    if Truthy(start) || Truthy(end) then Obj([("start", Or(start, Str(""))), ("end", Or(end, Str("")))])
    else Null
  }

  /** The temporal extent (None is `Null`). */
  function GetTemporalExtent(d: Detector): (r: Json)
    requires TemporalShaped(d)
    ensures r == Null || Truthy(r)
    ensures d.format == CmrUmm ==>
      r == DateRange(Get(DictPath(d.data, RangePath), "BeginningDateTime", Null),
                     Get(DictPath(d.data, RangePath), "EndingDateTime", Null))
    ensures d.format == Stac ==> r == DateRange(Get(d.data, "start_datetime", Null), Get(d.data, "end_datetime", Null))
    ensures d.format == GeoCroissant ==>
      r == if Truthy(Get(d.data, "geocr:temporalExtent", Null)) then Get(d.data, "geocr:temporalExtent", Null) else Null
    ensures d.format == Generic ==> r == Null
  {
    match d.format
    case CmrUmm =>
      var rangeDt := DictPath(d.data, RangePath);
      DateRange(Get(rangeDt, "BeginningDateTime", Null), Get(rangeDt, "EndingDateTime", Null))
    case Stac => DateRange(Get(d.data, "start_datetime", Null), Get(d.data, "end_datetime", Null))
    case GeoCroissant =>
      var temporal := Get(d.data, "geocr:temporalExtent", Null);
      if Truthy(temporal) then temporal else Null
    case Generic => Null
  }

  // ---------------------------------------------------------------- additional attributes

  /** `umm` is a dict and `AdditionalAttributes` can be iterated. */
  predicate AttributeListShaped(data: Fields) {
    DictOrAbsent(data, "umm") && Container(Get(GetDict(data, "umm"), "AdditionalAttributes", Arr([])))
  }

  /** `umm.get("AdditionalAttributes", [])`, as the `for` loop visits it. */
  function Attributes(data: Fields): seq<Json>
    requires AttributeListShaped(data)
  {
    Elements(Get(GetDict(data, "umm"), "AdditionalAttributes", Arr([])))
  }

  /** `attr.get("Name")`; a non-dict attribute has no name. */
  function NameOf(a: Json): Json {
    if a.Obj? then Get(a.fields, "Name", Null) else Null
  }

  /** `attr.get("Values", [])` */
  function ValuesOf(a: Json): Json {
    if a.Obj? then Get(a.fields, "Values", Arr([])) else Arr([])
  }

  /** `values[0]` */
  function First(v: Json): Json
    requires Truthy(v) && Indexable(v)
  {
    At(v, 0)
  }

  /** The attribute scan stops at this: a dict called `name` whose values are non-empty. */
  predicate AttributeHit(a: Json, name: string) {
    a.Obj? && NameOf(a) == Str(name) && Truthy(ValuesOf(a))
  }

  /**
   * The scan for `name` raises nothing: every attribute it reaches is a dict
   * (`attr.get` needs one), and the values of the hit it stops at can be
   * indexed. Attributes after the hit are never looked at.
   */
  predicate ScanSafe(attrs: seq<Json>, name: string)
    decreases |attrs|
  {
    attrs == []
    || (attrs[0].Obj?
        && if AttributeHit(attrs[0], name) then Indexable(ValuesOf(attrs[0])) else ScanSafe(attrs[1..], name))
  }

  /** A CMR document whose attribute scan for `name` raises nothing. */
  predicate ScanShaped(d: Detector, name: string) {
    d.format == CmrUmm ==> AttributeListShaped(d.data) && ScanSafe(Attributes(d.data), name)
  }

  /** The first value of the first attribute called `name` whose values are non-empty. */
  function FirstAttributeValue(attrs: seq<Json>, name: string): (r: Option<Json>)
    requires ScanSafe(attrs, name)
    decreases |attrs|
  {
    if attrs == [] then None
    else if AttributeHit(attrs[0], name) then Some(First(ValuesOf(attrs[0])))
    else FirstAttributeValue(attrs[1..], name)
  }

  /** What the scan finds: the hit with the smallest index, and nothing when there is no hit. */
  lemma FirstAttributeValueIsFirstHit(attrs: seq<Json>, name: string)
    requires ScanSafe(attrs, name)
    ensures FirstAttributeValue(attrs, name).None? <==> forall i :: 0 <= i < |attrs| ==> !AttributeHit(attrs[i], name)
    ensures FirstAttributeValue(attrs, name).Some? ==>
      exists i :: 0 <= i < |attrs| && AttributeHit(attrs[i], name)
        && (forall j :: 0 <= j < i ==> !AttributeHit(attrs[j], name))
        && Indexable(ValuesOf(attrs[i]))
        && FirstAttributeValue(attrs, name).value == First(ValuesOf(attrs[i]))
  {
    forall i | 0 <= i < |attrs| && AttributeHit(attrs[i], name)
      ensures FirstAttributeValue(attrs, name).Some?
    {
      HitIsFound(attrs, name, i);
    }
    if FirstAttributeValue(attrs, name).Some? {
      var i := FirstHitIndex(attrs, name);
    }
  }

  /** A hit anywhere makes the scan find something. */
  lemma {:induction false} HitIsFound(attrs: seq<Json>, name: string, i: nat)
    requires ScanSafe(attrs, name)
    requires i < |attrs| && AttributeHit(attrs[i], name)
    ensures FirstAttributeValue(attrs, name).Some?
    decreases |attrs|
  {
    if !AttributeHit(attrs[0], name) {
      assert attrs[1..][i - 1] == attrs[i];
      HitIsFound(attrs[1..], name, i - 1);
    }
  }

  /** The index of the hit the scan stops at: nothing before it is a hit. */
  lemma {:induction false} FirstHitIndex(attrs: seq<Json>, name: string) returns (i: nat)
    requires ScanSafe(attrs, name)
    requires FirstAttributeValue(attrs, name).Some?
    ensures i < |attrs| && AttributeHit(attrs[i], name) && Indexable(ValuesOf(attrs[i]))
    ensures FirstAttributeValue(attrs, name).value == First(ValuesOf(attrs[i]))
    ensures forall j :: 0 <= j < i ==> !AttributeHit(attrs[j], name)
    decreases |attrs|
  {
    if AttributeHit(attrs[0], name) {
      i := 0;
    } else {
      var k := FirstHitIndex(attrs[1..], name);
      i := k + 1;
      assert attrs[i] == attrs[1..][k];
      forall j | 0 <= j < i ensures !AttributeHit(attrs[j], name) {
        if j > 0 { assert attrs[j] == attrs[1..][j - 1]; }
      }
    }
  }

  /**
   * Once the scan has found a value, whatever follows is never read: any
   * attributes, dicts or not, may be appended without changing the result.
   */
  lemma {:induction false} ScanStopsAtHit(attrs: seq<Json>, rest: seq<Json>, name: string)
    requires ScanSafe(attrs, name) && FirstAttributeValue(attrs, name).Some?
    ensures ScanSafe(attrs + rest, name)
    ensures FirstAttributeValue(attrs + rest, name) == FirstAttributeValue(attrs, name)
    decreases |attrs|
  {
    assert (attrs + rest)[0] == attrs[0];
    if !AttributeHit(attrs[0], name) {
      assert (attrs + rest)[1..] == attrs[1..] + rest;
      ScanStopsAtHit(attrs[1..], rest, name);
    }
  }

  /** The loop of `get_crs` and `get_spatial_resolution`: scan in order, stop at the first hit. */
  method ScanAttributes(attrs: seq<Json>, name: string) returns (found: Option<Json>)
    requires ScanSafe(attrs, name)
    ensures found == FirstAttributeValue(attrs, name)
  {
    var i := 0;
    while i < |attrs|
      invariant 0 <= i <= |attrs|
      invariant ScanSafe(attrs[i..], name)
      invariant FirstAttributeValue(attrs, name) == FirstAttributeValue(attrs[i..], name)
    {
      var attr := attrs[i];
      assert attrs[i..][0] == attr;
      if NameOf(attr) == Str(name) {
        var values := ValuesOf(attr);
        if Truthy(values) {
          return Some(First(values));
        }
      }
      assert attrs[i..][1..] == attrs[i + 1..];
      i := i + 1;
    }
    return None;
  }

  /** The coordinate reference system each format reports. */
  function CrsOf(d: Detector): Json
    requires ScanShaped(d, "HORIZONTAL_CS_CODE")
  {
    match d.format
    case CmrUmm =>
      (match FirstAttributeValue(Attributes(d.data), "HORIZONTAL_CS_CODE")
       case Some(v) => v
       case None => DefaultCrs)
    case GeoCroissant => Get(d.data, "geocr:coordinateReferenceSystem", DefaultCrs)
    case _ => DefaultCrs
  }

  method GetCrs(d: Detector) returns (crs: Json)
    requires ScanShaped(d, "HORIZONTAL_CS_CODE")
    ensures crs == CrsOf(d)
    ensures d.format == Stac || d.format == Generic ==> crs == DefaultCrs
    ensures d.format == CmrUmm && crs != DefaultCrs ==>
      exists i :: 0 <= i < |Attributes(d.data)| && AttributeHit(Attributes(d.data)[i], "HORIZONTAL_CS_CODE")
  {
    if d.format == CmrUmm {
      var attrs := Attributes(d.data);
      FirstAttributeValueIsFirstHit(attrs, "HORIZONTAL_CS_CODE");
      var found := ScanAttributes(attrs, "HORIZONTAL_CS_CODE");
      crs := if found.Some? then found.value else DefaultCrs;
    } else if d.format == GeoCroissant {
      crs := Get(d.data, "geocr:coordinateReferenceSystem", DefaultCrs);
    } else {
      crs := DefaultCrs;
    }
  }

  /** The spatial resolution each format reports (None is `Null`); CMR renders it as "<value> m". */
  function ResolutionOf(d: Detector, render: Json -> string): Json
    requires ScanShaped(d, "SPATIAL_RESOLUTION")
  {
    match d.format
    case CmrUmm =>
      (match FirstAttributeValue(Attributes(d.data), "SPATIAL_RESOLUTION")
       case Some(v) => Str(render(v) + " m")
       case None => Null)
    case GeoCroissant => Get(d.data, "geocr:spatialResolution", Null)
    case _ => Null
  }

  method GetSpatialResolution(d: Detector, render: Json -> string) returns (resolution: Json)
    requires ScanShaped(d, "SPATIAL_RESOLUTION")
    ensures resolution == ResolutionOf(d, render)
    ensures d.format == Stac || d.format == Generic ==> resolution == Null
    ensures d.format == CmrUmm && resolution != Null ==>
      resolution.Str? && |resolution.s| >= 2 && resolution.s[|resolution.s| - 2..] == " m"
  {
    if d.format == CmrUmm {
      var found := ScanAttributes(Attributes(d.data), "SPATIAL_RESOLUTION");
      resolution := if found.Some? then Str(render(found.value) + " m") else Null;
    } else if d.format == GeoCroissant {
      resolution := Get(d.data, "geocr:spatialResolution", Null);
    } else {
      resolution := Null;
    }
  }

  // ---------------------------------------------------------------- download URLs

  /** A download link: `{"url": …, "name": …, "type": …}`. */
  datatype Link = Link(url: Json, name: Json, kind: Json)

  /** `needle in hay`: substring of a string, element of a list, key of a dict. */
  predicate PyIn(needle: string, hay: Json)
    requires Container(hay)
  {
    match hay
    case Str(s) => Contains(s, needle)
    case Arr(e) => Str(needle) in e
    case Obj(f) => Has(f, needle)
  }

  /** A CMR related URL: a dict whose `Type` can be searched with `in`. */
  predicate RelatedUrlShaped(u: Json) {
    u.Obj? && Container(Get(u.fields, "Type", Str("")))
  }

  function UrlType(u: Json): Json
    requires u.Obj?
  {
    Get(u.fields, "Type", Str(""))
  }

  predicate IsDownload(u: Json)
    requires RelatedUrlShaped(u)
  {
    PyIn("GET DATA", UrlType(u)) || PyIn("DOWNLOAD", UrlType(u))
  }

  function CmrLink(u: Json): Link
    requires u.Obj?
  {
    Link(Get(u.fields, "URL", Str("")), Get(u.fields, "Description", Str("")), UrlType(u))
  }

  /** The download links among CMR related URLs, in document order. */
  function CmrLinks(us: seq<Json>): (r: seq<Link>)
    requires forall i :: 0 <= i < |us| ==> RelatedUrlShaped(us[i])
    ensures |r| <= |us|
    decreases |us|
  {
    if us == [] then []
    else
      var last := us[|us| - 1];
      CmrLinks(us[..|us| - 1]) + (if IsDownload(last) then [CmrLink(last)] else [])
  }

  /**
   * Order is kept and entries are judged one by one: the links of a
   * concatenation are the links of each part, one after the other.
   */
  lemma {:induction false} CmrLinksConcat(a: seq<Json>, b: seq<Json>)
    requires forall i :: 0 <= i < |a| ==> RelatedUrlShaped(a[i])
    requires forall i :: 0 <= i < |b| ==> RelatedUrlShaped(b[i])
    ensures CmrLinks(a + b) == CmrLinks(a) + CmrLinks(b)
    decreases |b|
  {
    if b == [] {
      assert a + b == a;
    } else {
      var init, last := b[..|b| - 1], b[|b| - 1];
      assert b == init + [last];
      assert a + b == (a + init) + [last];
      CmrLinksConcat(a, init);
      CmrLinksSnoc(a + init, last);
      CmrLinksSnoc(init, last);
    }
  }

  /** Appending one entry appends at most its own link. */
  lemma CmrLinksSnoc(xs: seq<Json>, x: Json)
    requires forall i :: 0 <= i < |xs| ==> RelatedUrlShaped(xs[i])
    requires RelatedUrlShaped(x)
    ensures forall i :: 0 <= i < |xs + [x]| ==> RelatedUrlShaped((xs + [x])[i])
    ensures CmrLinks(xs + [x]) == CmrLinks(xs) + (if IsDownload(x) then [CmrLink(x)] else [])
  {
    assert (xs + [x])[..|xs|] == xs;
  }

  /** Each related URL on its own: kept, as its link, exactly when its type names a download. */
  lemma CmrLinksSingle(u: Json)
    requires RelatedUrlShaped(u)
    ensures CmrLinks([u]) == if IsDownload(u) then [CmrLink(u)] else []
  {
    assert [u][..0] == [];
  }

  predicate FileObject(v: Json)
    requires v.Obj?
  {
    Get(v.fields, "@type", Null) == Str("cr:FileObject")
  }

  function FileLink(v: Json): Link
    requires v.Obj?
  {
    Link(Get(v.fields, "contentUrl", Str("")), Get(v.fields, "name", Str("")), Get(v.fields, "encodingFormat", Str("")))
  }

  /** The links of the `cr:FileObject` distribution entries, in document order. */
  function FileLinks(dist: seq<Json>): (r: seq<Link>)
    requires forall i :: 0 <= i < |dist| ==> dist[i].Obj?
    ensures |r| <= |dist|
    decreases |dist|
  {
    if dist == [] then []
    else
      var last := dist[|dist| - 1];
      FileLinks(dist[..|dist| - 1]) + (if FileObject(last) then [FileLink(last)] else [])
  }

  lemma {:induction false} FileLinksConcat(a: seq<Json>, b: seq<Json>)
    requires forall i :: 0 <= i < |a| ==> a[i].Obj?
    requires forall i :: 0 <= i < |b| ==> b[i].Obj?
    ensures FileLinks(a + b) == FileLinks(a) + FileLinks(b)
    decreases |b|
  {
    if b == [] {
      assert a + b == a;
    } else {
      var init, last := b[..|b| - 1], b[|b| - 1];
      assert b == init + [last];
      assert a + b == (a + init) + [last];
      FileLinksConcat(a, init);
      FileLinksSnoc(a + init, last);
      FileLinksSnoc(init, last);
    }
  }

  /** Appending one entry appends at most its own link. */
  lemma FileLinksSnoc(xs: seq<Json>, x: Json)
    requires forall i :: 0 <= i < |xs| ==> xs[i].Obj?
    requires x.Obj?
    ensures forall i :: 0 <= i < |xs + [x]| ==> (xs + [x])[i].Obj?
    ensures FileLinks(xs + [x]) == FileLinks(xs) + (if FileObject(x) then [FileLink(x)] else [])
  {
    assert (xs + [x])[..|xs|] == xs;
  }

  predicate CmrRelatedShaped(data: Fields) {
    DictOrAbsent(data, "umm") && ListOrAbsent(GetDict(data, "umm"), "RelatedUrls")
    && forall i :: 0 <= i < |GetList(GetDict(data, "umm"), "RelatedUrls")| ==>
         RelatedUrlShaped(GetList(GetDict(data, "umm"), "RelatedUrls")[i])
  }

  /** `data.get("distribution", [])`, a list of dicts. */
  predicate DistributionShaped(data: Fields) {
    ListOfDicts(data, "distribution")
  }

  predicate DownloadShaped(d: Detector) {
    && (d.format == CmrUmm ==> CmrRelatedShaped(d.data))
    && (d.format == GeoCroissant ==> DistributionShaped(d.data))
  }

  function DownloadUrlsOf(d: Detector): seq<Link>
    requires DownloadShaped(d)
  {
    match d.format
    case CmrUmm => CmrLinks(GetList(GetDict(d.data, "umm"), "RelatedUrls"))
    case GeoCroissant => FileLinks(GetList(d.data, "distribution"))
    case _ => []
  }

  method GetDownloadUrls(d: Detector) returns (urls: seq<Link>)
    requires DownloadShaped(d)
    ensures urls == DownloadUrlsOf(d)
  {
    urls := [];
    if d.format == CmrUmm {
      var related := GetList(GetDict(d.data, "umm"), "RelatedUrls");
      for i := 0 to |related|
        invariant urls == CmrLinks(related[..i])
      {
        var urlObj := related[i];
        var urlType := UrlType(urlObj);
        assert related[..i + 1][..i] == related[..i];
        if PyIn("GET DATA", urlType) || PyIn("DOWNLOAD", urlType) {
          urls := urls + [CmrLink(urlObj)];
        }
      }
      assert related[..|related|] == related;
    } else if d.format == GeoCroissant {
      var distribution := GetList(d.data, "distribution");
      for i := 0 to |distribution|
        invariant urls == FileLinks(distribution[..i])
      {
        var item := distribution[i];
        assert distribution[..i + 1][..i] == distribution[..i];
        if Get(item.fields, "@type", Null) == Str("cr:FileObject") {
          urls := urls + [FileLink(item)];
        }
      }
      assert distribution[..|distribution|] == distribution;
    }
  }

  // ---------------------------------------------------------------- metadata items

  /**
   * The attributes reported, in this order, by `get_metadata_items`, each with
   * the caption it is shown under (see ReportedLabels).
   */
  const ReportedAttributes: seq<(string, string)> :=
    [("CLOUD_COVERAGE", "CLOUD COVERAGE"), ("MGRS_TILE_ID", "MGRS TILE ID"),
     ("SPATIAL_COVERAGE", "SPATIAL COVERAGE"), ("ACCODE", "ACCODE")]

  /** Each caption is its attribute name with every underscore replaced by a space. */
  lemma ReportedLabels()
    ensures forall i :: 0 <= i < |ReportedAttributes| ==>
      ReportedAttributes[i].1 == ReplaceAll(ReportedAttributes[i].0, "_", " ")
  {
    forall i | 0 <= i < |ReportedAttributes|
      ensures ReportedAttributes[i].1 == ReplaceAll(ReportedAttributes[i].0, "_", " ")
    {
      CaptionOf(ReportedAttributes[i].0, ReportedAttributes[i].1);
    }
  }

  lemma CaptionOf(key: string, caption: string)
    requires |caption| == |key|
    requires forall j :: 0 <= j < |key| ==> caption[j] == if key[j] == '_' then ' ' else key[j]
    ensures caption == ReplaceAll(key, "_", " ")
  {
    ReplaceAllChar(key, '_', ' ');
  }

  /** `{attr.get("Name"): attr.get("Values", []) for attr in attributes}`: a later attribute overwrites an earlier one of the same name. */
  function AttributeDict(attrs: seq<Json>): (m: map<Json, Json>)
    decreases |attrs|
  {
    if attrs == [] then map[]
    else
      var last := attrs[|attrs| - 1];
      AttributeDict(attrs[..|attrs| - 1])[NameOf(last) := ValuesOf(last)]
  }

  /** The dict's keys are exactly the names that occur. */
  lemma AttributeDictKeys(attrs: seq<Json>, k: Json)
    ensures k in AttributeDict(attrs) <==> exists i :: 0 <= i < |attrs| && NameOf(attrs[i]) == k
  {
    if k in AttributeDict(attrs) {
      var i := AttributeDictKeySource(attrs, k);
    }
    if exists i :: 0 <= i < |attrs| && NameOf(attrs[i]) == k {
      var i :| 0 <= i < |attrs| && NameOf(attrs[i]) == k;
      AttributeDictHasName(attrs, i);
    }
  }

  /** Every key of the dict is the name of some attribute. */
  lemma {:induction false} AttributeDictKeySource(attrs: seq<Json>, k: Json) returns (i: nat)
    requires k in AttributeDict(attrs)
    ensures i < |attrs| && NameOf(attrs[i]) == k
    decreases |attrs|
  {
    var n := |attrs| - 1;
    if NameOf(attrs[n]) == k {
      i := n;
    } else {
      var init := attrs[..n];
      assert forall j :: 0 <= j < n ==> init[j] == attrs[j];
      i := AttributeDictKeySource(init, k);
    }
  }

  /** Every attribute's name is a key of the dict. */
  lemma {:induction false} AttributeDictHasName(attrs: seq<Json>, i: nat)
    requires i < |attrs|
    ensures NameOf(attrs[i]) in AttributeDict(attrs)
    decreases |attrs|
  {
    var n := |attrs| - 1;
    if i < n {
      var init := attrs[..n];
      assert forall j :: 0 <= j < n ==> init[j] == attrs[j];
      AttributeDictHasName(init, i);
    }
  }

  /** A name maps to the values of its LAST occurrence: later attributes overwrite earlier ones. */
  lemma {:induction false} AttributeDictLastWins(attrs: seq<Json>, i: nat)
    requires i < |attrs| && forall j :: i < j < |attrs| ==> NameOf(attrs[j]) != NameOf(attrs[i])
    ensures NameOf(attrs[i]) in AttributeDict(attrs)
    ensures AttributeDict(attrs)[NameOf(attrs[i])] == ValuesOf(attrs[i])
    decreases |attrs|
  {
    var n := |attrs| - 1;
    if i < n {
      var init := attrs[..n];
      assert forall j :: 0 <= j < n ==> init[j] == attrs[j];
      AttributeDictLastWins(init, i);
      assert AttributeDict(attrs) == AttributeDict(init)[NameOf(attrs[n]) := ValuesOf(attrs[n])];
    }
  }

  /** `key in attr_dict and attr_dict[key]`: the reported key is present with non-empty values. */
  predicate Reported(m: map<Json, Json>, key: string) {
    Str(key) in m && Truthy(m[Str(key)])
  }

  /** `attr_dict[key][0]` raises nothing for any of `keys`: the values of a reported key can be indexed. */
  predicate ReportedIndexable(m: map<Json, Json>, keys: seq<(string, string)>) {
    forall i :: 0 <= i < |keys| && Str(keys[i].0) in m ==> FalsyOrIndexable(m[Str(keys[i].0)])
  }

  /** `(key.replace("_", " "), str(attr_dict[key][0]))`, with the caption precomputed. */
  function AttributeLine(m: map<Json, Json>, key: (string, string), render: Json -> string): (string, Json)
    requires Reported(m, key.0) && Indexable(m[Str(key.0)])
  {
    (key.1, Str(render(First(m[Str(key.0)]))))
  }

  /** The lines of the reported keys, in key order, skipping keys that are absent or have empty values. */
  function AttributeItems(m: map<Json, Json>, keys: seq<(string, string)>, render: Json -> string): (r: seq<(string, Json)>)
    requires ReportedIndexable(m, keys)
    ensures |r| <= |keys|
    decreases |keys|
  {
    if keys == [] then []
    else
      var n := |keys| - 1;
      assert forall i :: 0 <= i < n ==> keys[..n][i] == keys[i];
      AttributeItems(m, keys[..n], render)
      + (if Reported(m, keys[n].0) then [AttributeLine(m, keys[n], render)] else [])
  }

  /** `line` is the line of one of `keys` that is reported. */
  predicate LineOfSome(m: map<Json, Json>, keys: seq<(string, string)>, render: Json -> string, line: (string, Json))
    requires ReportedIndexable(m, keys)
  {
    exists i :: 0 <= i < |keys| && Reported(m, keys[i].0) && line == AttributeLine(m, keys[i], render)
  }

  /**
   * Every line belongs to a reported key and shows its first value, and every
   * reported key gets its line.
   */
  lemma AttributeItemsLines(m: map<Json, Json>, keys: seq<(string, string)>, render: Json -> string)
    requires ReportedIndexable(m, keys)
    ensures forall j :: 0 <= j < |AttributeItems(m, keys, render)| ==>
      LineOfSome(m, keys, render, AttributeItems(m, keys, render)[j])
    ensures forall i :: 0 <= i < |keys| && Reported(m, keys[i].0) ==>
      AttributeLine(m, keys[i], render) in AttributeItems(m, keys, render)
  {
    forall j | 0 <= j < |AttributeItems(m, keys, render)|
      ensures LineOfSome(m, keys, render, AttributeItems(m, keys, render)[j])
    {
      var i := AttributeLineSource(m, keys, render, j);
    }
    forall i | 0 <= i < |keys| && Reported(m, keys[i].0)
      ensures AttributeLine(m, keys[i], render) in AttributeItems(m, keys, render)
    {
      AttributeLineShown(m, keys, render, i);
    }
  }

  /** The reported key a line comes from. */
  lemma {:induction false} AttributeLineSource(m: map<Json, Json>, keys: seq<(string, string)>, render: Json -> string, j: nat)
    returns (i: nat)
    requires ReportedIndexable(m, keys) && j < |AttributeItems(m, keys, render)|
    ensures i < |keys| && Reported(m, keys[i].0)
    ensures AttributeItems(m, keys, render)[j] == AttributeLine(m, keys[i], render)
    decreases |keys|
  {
    var n := |keys| - 1;
    var init := keys[..n];
    assert forall k :: 0 <= k < n ==> init[k] == keys[k];
    var ri := AttributeItems(m, init, render);
    if j < |ri| {
      i := AttributeLineSource(m, init, render, j);
      assert init[i] == keys[i];
    } else {
      i := n;
    }
  }

  /** A reported key's line is among the lines. */
  lemma {:induction false} AttributeLineShown(m: map<Json, Json>, keys: seq<(string, string)>, render: Json -> string, i: nat)
    requires ReportedIndexable(m, keys) && i < |keys| && Reported(m, keys[i].0)
    ensures AttributeLine(m, keys[i], render) in AttributeItems(m, keys, render)
    decreases |keys|
  {
    var n := |keys| - 1;
    var init := keys[..n];
    assert forall k :: 0 <= k < n ==> init[k] == keys[k];
    if i < n {
      AttributeLineShown(m, init, render, i);
      assert init[i] == keys[i];
    }
  }

  /** A dict key must be hashable: an attribute name is never a list or a dict. */
  predicate HashableName(a: Json)
    requires a.Obj?
  {
    !NameOf(a).Arr? && !NameOf(a).Obj?
  }

  /**
   * The comprehension and the report loop raise nothing: every attribute is a
   * dict with a hashable name, and the reported keys' values can be indexed.
   */
  predicate ReportedShaped(attrs: seq<Json>) {
    && (forall i :: 0 <= i < |attrs| ==> attrs[i].Obj? && HashableName(attrs[i]))
    && ReportedIndexable(AttributeDict(attrs), ReportedAttributes)
  }

  predicate MetadataShaped(d: Detector) {
    d.format == CmrUmm ==>
      DictOrAbsent(d.data, "meta") && TemporalShaped(d) && AttributeListShaped(d.data)
      && ReportedShaped(Attributes(d.data))
  }

  /** The dates entries shown when the CMR temporal extent exists. */
  function DateItems(temporal: Json): seq<(string, Json)>
    requires temporal == Null || (temporal.Obj? && Truthy(temporal))
  {
    if Truthy(temporal) then
      [("Start Date", Get(temporal.fields, "start", Str("-"))), ("End Date", Get(temporal.fields, "end", Str("-")))]
    else []
  }

  /**
   * The reported attribute lines: one per reported key present with non-empty
   * values, showing the first of those values, and no other line.
   */
  function ReportedItemsOf(attrs: seq<Json>, render: Json -> string): (r: seq<(string, Json)>)
    requires ReportedShaped(attrs)
    ensures |r| <= 4
    ensures forall j :: 0 <= j < |r| ==> LineOfSome(AttributeDict(attrs), ReportedAttributes, render, r[j])
    ensures forall i :: 0 <= i < |ReportedAttributes| && Reported(AttributeDict(attrs), ReportedAttributes[i].0) ==>
      AttributeLine(AttributeDict(attrs), ReportedAttributes[i], render) in r
  {
    AttributeItemsLines(AttributeDict(attrs), ReportedAttributes, render);
    AttributeItems(AttributeDict(attrs), ReportedAttributes, render)
  }

  /** Provider, concept id and format from `meta`, `"-"` where missing. */
  function CmrHeader(meta: Fields): (r: seq<(string, Json)>)
    ensures |r| == 3 && r[0].0 == "Provider"
  {
    [("Provider", Get(meta, "provider-id", Str("-"))),
     ("Concept ID", Get(meta, "concept-id", Str("-"))),
     ("Format", Get(meta, "format", Str("-")))]
  }

  function MetadataItemsOf(d: Detector, render: Json -> string): seq<(string, Json)>
    requires MetadataShaped(d)
  {
    match d.format
    case CmrUmm =>
      CmrHeader(GetDict(d.data, "meta"))
      + DateItems(GetTemporalExtent(d))
      + ReportedItemsOf(Attributes(d.data), render)
    case GeoCroissant =>
      [("Version", Get(d.data, "version", Str("-"))),
       ("License", Get(d.data, "license", Str("-"))),
       ("Conforms To", Get(d.data, "conformsTo", Str("-")))]
    case _ => []
  }

  /** The reported attribute lines, one per reported key whose values are non-empty. */
  method ReportedItems(attrs: seq<Json>, render: Json -> string) returns (items: seq<(string, Json)>)
    requires ReportedShaped(attrs)
    ensures items == ReportedItemsOf(attrs, render)
  {
    var attrDict := AttributeDict(attrs);
    items := [];
    for i := 0 to |ReportedAttributes|
      invariant items == AttributeItems(attrDict, ReportedAttributes[..i], render)
    {
      var (key, caption) := ReportedAttributes[i];
      assert ReportedAttributes[..i + 1][..i] == ReportedAttributes[..i];
      if Str(key) in attrDict && Truthy(attrDict[Str(key)]) {
        items := items + [(caption, Str(render(First(attrDict[Str(key)]))))];
      }
    }
    assert ReportedAttributes[..|ReportedAttributes|] == ReportedAttributes;
  }

  /** The CMR lines: header, then dates when a temporal extent exists, then reported attributes. */
  method CmrMetadataItems(meta: Fields, temporal: Json, attrs: seq<Json>, render: Json -> string)
    returns (items: seq<(string, Json)>)
    requires temporal == Null || (temporal.Obj? && Truthy(temporal))
    requires ReportedShaped(attrs)
    ensures items == CmrHeader(meta) + DateItems(temporal) + ReportedItemsOf(attrs, render)
  {
    items := [];
    items := items + [("Provider", Get(meta, "provider-id", Str("-")))];
    items := items + [("Concept ID", Get(meta, "concept-id", Str("-")))];
    items := items + [("Format", Get(meta, "format", Str("-")))];
    if Truthy(temporal) {
      items := items + [("Start Date", Get(temporal.fields, "start", Str("-")))];
      items := items + [("End Date", Get(temporal.fields, "end", Str("-")))];
    }
    var reported := ReportedItems(attrs, render);
    items := items + reported;
  }

  method GetMetadataItems(d: Detector, render: Json -> string) returns (items: seq<(string, Json)>)
    requires MetadataShaped(d)
    ensures items == MetadataItemsOf(d, render)
    ensures d.format == CmrUmm ==> 3 <= |items| <= 9 && items[0].0 == "Provider"
    ensures d.format == GeoCroissant ==> |items| == 3
    ensures d.format == Stac || d.format == Generic ==> items == []
  {
    items := [];
    if d.format == CmrUmm {
      var temporal := GetTemporalExtent(d);
      items := CmrMetadataItems(GetDict(d.data, "meta"), temporal, Attributes(d.data), render);
    } else if d.format == GeoCroissant {
      items := items + [("Version", Get(d.data, "version", Str("-")))];
      items := items + [("License", Get(d.data, "license", Str("-")))];
      items := items + [("Conforms To", Get(d.data, "conformsTo", Str("-")))];
    }
  }

  // ---------------------------------------------------------------- assets

  /** An asset; CMR assets carry no `media_type` key. */
  datatype Asset = Asset(id: Json, url: Json, title: Json, description: Json, mediaType: Option<Json>)

  function CmrAsset(i: nat, link: Link): Asset {
    Asset(Str("asset_" + NatToString(i)), link.url, link.name, link.kind, None)
  }

  function StacAsset(key: string, info: Json): Asset
    requires info.Obj?
  {
    Asset(Str(key), Get(info.fields, "href", Str("")), Get(info.fields, "title", Str(key)),
          Get(info.fields, "description", Str("")), Some(Get(info.fields, "type", Str(""))))
  }

  function DistributionAsset(item: Json): Asset
    requires item.Obj?
  {
    Asset(Get(item.fields, "@id", Str("")), Get(item.fields, "contentUrl", Str("")), Get(item.fields, "name", Str("")),
          Get(item.fields, "description", Str("")), Some(Get(item.fields, "encodingFormat", Str(""))))
  }

  /** `data.get("assets", {})`, a dict of dicts. */
  predicate StacAssetsShaped(data: Fields) {
    DictOrAbsent(data, "assets")
    && forall i :: 0 <= i < |GetDict(data, "assets")| ==> GetDict(data, "assets")[i].1.Obj?
  }

  predicate AssetsShaped(d: Detector) {
    DownloadShaped(d) && (d.format == Stac ==> StacAssetsShaped(d.data))
  }

  function CmrAssetsOf(links: seq<Link>): (r: seq<Asset>)
    ensures |r| == |links|
  {
    seq(|links|, i requires 0 <= i < |links| => CmrAsset(i, links[i]))
  }

  function StacAssetsOf(entries: Fields): (r: seq<Asset>)
    requires forall i :: 0 <= i < |entries| ==> entries[i].1.Obj?
    ensures |r| == |entries|
  {
    seq(|entries|, i requires 0 <= i < |entries| => StacAsset(entries[i].0, entries[i].1))
  }

  function DistributionAssetsOf(distribution: seq<Json>): (r: seq<Asset>)
    requires forall i :: 0 <= i < |distribution| ==> distribution[i].Obj?
    ensures |r| == |distribution|
  {
    seq(|distribution|, i requires 0 <= i < |distribution| => DistributionAsset(distribution[i]))
  }

  function AssetsOf(d: Detector): seq<Asset>
    requires AssetsShaped(d)
  {
    match d.format
    case CmrUmm => CmrAssetsOf(DownloadUrlsOf(d))
    case Stac => StacAssetsOf(GetDict(d.data, "assets"))
    case GeoCroissant => DistributionAssetsOf(GetList(d.data, "distribution"))
    case Generic => []
  }

  /** One CMR asset per download link, numbered from 0. */
  method CmrAssets(urls: seq<Link>) returns (assets: seq<Asset>)
    ensures assets == CmrAssetsOf(urls)
    ensures forall i :: 0 <= i < |assets| ==> assets[i].id == Str("asset_" + NatToString(i)) && assets[i].url == urls[i].url
  {
    assets := [];
    for i := 0 to |urls|
      invariant |assets| == i
      invariant forall j :: 0 <= j < i ==> assets[j] == CmrAsset(j, urls[j])
    {
      assets := assets + [CmrAsset(i, urls[i])];
    }
  }

  /** One STAC asset per entry of the `assets` dict, keyed by the entry's key. */
  method StacAssets(entries: Fields) returns (assets: seq<Asset>)
    requires forall i :: 0 <= i < |entries| ==> entries[i].1.Obj?
    ensures assets == StacAssetsOf(entries)
    ensures forall i :: 0 <= i < |assets| ==> assets[i].id == Str(entries[i].0)
  {
    assets := [];
    for i := 0 to |entries|
      invariant |assets| == i
      invariant forall j :: 0 <= j < i ==> assets[j] == StacAsset(entries[j].0, entries[j].1)
    {
      var (assetId, assetInfo) := entries[i];
      assets := assets + [StacAsset(assetId, assetInfo)];
    }
  }

  /** One asset per distribution entry, whatever its `@type`. */
  method DistributionAssets(distribution: seq<Json>) returns (assets: seq<Asset>)
    requires forall i :: 0 <= i < |distribution| ==> distribution[i].Obj?
    ensures assets == DistributionAssetsOf(distribution)
  {
    assets := [];
    for i := 0 to |distribution|
      invariant assets == DistributionAssetsOf(distribution)[..i]
    {
      assets := assets + [DistributionAsset(distribution[i])];
    }
    assert DistributionAssetsOf(distribution)[..|distribution|] == DistributionAssetsOf(distribution);
  }

  method GetAssets(d: Detector) returns (assets: seq<Asset>)
    requires AssetsShaped(d)
    ensures assets == AssetsOf(d)
    ensures d.format == CmrUmm ==> |assets| == |DownloadUrlsOf(d)|
    ensures d.format == Stac ==> |assets| == |GetDict(d.data, "assets")|
    ensures d.format == GeoCroissant ==> |assets| == |GetList(d.data, "distribution")|
    ensures d.format == Generic ==> assets == []
  {
    assets := [];
    if d.format == CmrUmm {
      var urls := GetDownloadUrls(d);
      assets := CmrAssets(urls);
    } else if d.format == Stac {
      assets := StacAssets(GetDict(d.data, "assets"));
    } else if d.format == GeoCroissant {
      assets := DistributionAssets(GetList(d.data, "distribution"));
    }
  }

  /** CMR asset ids `asset_0`, `asset_1`, … are pairwise distinct. */
  lemma CmrAssetIdsDistinct(d: Detector, i: nat, j: nat)
    requires AssetsShaped(d) && d.format == CmrUmm
    requires i < j < |AssetsOf(d)|
    ensures AssetsOf(d)[i].id != AssetsOf(d)[j].id
  {
    var a := "asset_";
    if ("asset_" + NatToString(i)) == ("asset_" + NatToString(j)) {
      assert NatToString(i) == ("asset_" + NatToString(i))[|a|..];
      assert NatToString(j) == ("asset_" + NatToString(j))[|a|..];
      NatToStringInjective(i, j);
    }
  }
}
