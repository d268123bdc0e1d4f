/**
 * The layer builders: a tile-index layer with one polygon per item that has a
 * bounding box, and an extent layer with the dataset's bounding box.
 *
 * A QGIS memory layer is modelled by `MemoryLayer`, which keeps what the
 * builders put into it: the declared attribute fields and the features, each a
 * closed ring of points with its attribute values. Whether QGIS accepts the
 * layer URI is an oracle `valid(uri)`; styling is not modelled.
 */
module LayerBuilder {
  import opened JsonData

  datatype Point = Point(x: real, y: real)

  /** The ring of a bounding box: south-west, south-east, north-east, north-west, and back to the start. */
  function Ring(west: real, south: real, east: real, north: real): (r: seq<Point>)
    ensures |r| == 5 && r[0] == r[4]
  {
    [Point(west, south), Point(east, south), Point(east, north), Point(west, north), Point(west, south)]
  }

  /** The ring's x-coordinates are exactly west and east, its y-coordinates exactly south and north. */
  lemma RingCoordinates(west: real, south: real, east: real, north: real)
    ensures (set p | p in Ring(west, south, east, north) :: p.x) == {west, east}
    ensures (set p | p in Ring(west, south, east, north) :: p.y) == {south, north}
  {
    var r := Ring(west, south, east, north);
    assert r[0] in r && r[1] in r && r[2] in r;
  }

  /** For an ordered box, the least and greatest vertex coordinates are the box's own edges. */
  lemma RingRecoversBox(west: real, south: real, east: real, north: real)
    requires west <= east && south <= north
    ensures forall p :: p in Ring(west, south, east, north) ==> west <= p.x <= east && south <= p.y <= north
    ensures Point(west, south) in Ring(west, south, east, north)
    ensures Point(east, north) in Ring(west, south, east, north)
  {
  }

  datatype FieldKind = StringField | DoubleField
  datatype FieldDef = FieldDef(name: string, kind: FieldKind)

  /** One feature: its polygon ring and its attribute values, in field order. */
  datatype Feature = Feature(ring: seq<Point>, attributes: seq<Json>)

  /** A value fits a field when a double field holds a number; a string field takes any value. */
  predicate Fits(v: Json, f: FieldDef) {
    f.kind == DoubleField ==> v.Num?
  }

  /** The attribute values line up one to one with the declared fields. */
  predicate Aligned(attributes: seq<Json>, fieldDefs: seq<FieldDef>) {
    |attributes| == |fieldDefs| && forall i :: 0 <= i < |attributes| ==> Fits(attributes[i], fieldDefs[i])
  }

  /** A memory layer as the builders fill it. */
  class MemoryLayer {
    const uri: string
    const name: string
    const provider: string
    var fieldDefs: seq<FieldDef>
    var features: seq<Feature>

    constructor(uri: string, name: string, provider: string)
      ensures this.uri == uri && this.name == name && this.provider == provider
      ensures fieldDefs == [] && features == []
    {
      this.uri := uri;
      this.name := name;
      this.provider := provider;
      fieldDefs := [];
      features := [];
    }

    /** `dataProvider().addAttributes` */
    method AddAttributes(fs: seq<FieldDef>)
      modifies this
      ensures fieldDefs == old(fieldDefs) + fs && features == old(features)
    {
      fieldDefs := fieldDefs + fs;
    }

    /** `dataProvider().addFeatures` */
    method AddFeatures(fs: seq<Feature>)
      modifies this
      ensures features == old(features) + fs && fieldDefs == old(fieldDefs)
    {
      features := features + fs;
    }

    /** Every feature's attributes line up with the layer's fields. */
    predicate AllAligned()
      reads this
    {
      forall k :: 0 <= k < |features| ==> Aligned(features[k].attributes, fieldDefs)
    }
  }

  /** The memory-layer URI for polygons in a CRS. */
  function PolygonUri(crs: string): string {
    "Polygon?crs=" + crs
  }

  // ---------------------------------------------------------------- tiles

  datatype TileLayerBuilder = TileLayerBuilder(items: seq<Fields>, crs: string, datasetName: string)

  const TileFields: seq<FieldDef> := [
    FieldDef("id", StringField), FieldDef("datetime", StringField), FieldDef("assets", StringField),
    FieldDef("west", DoubleField), FieldDef("south", DoubleField),
    FieldDef("east", DoubleField), FieldDef("north", DoubleField)
  ]

  /** `item.get("bbox", [])` */
  function BboxOf(item: Fields): Json {
    Get(item, "bbox", Arr([]))
  }

  /** The item's bbox is a list, and when it has four entries the first four are numbers. */
  predicate TileItemShaped(item: Fields) {
    var b := BboxOf(item);
    b.Arr? && (|b.elems| >= 4 ==> b.elems[0].Num? && b.elems[1].Num? && b.elems[2].Num? && b.elems[3].Num?)
  }

  predicate TileItemsShaped(items: seq<Fields>) {
    forall i :: 0 <= i < |items| ==> TileItemShaped(items[i])
  }

  /** An item is drawn when its bbox has at least four entries. */
  predicate Drawn(item: Fields)
    requires TileItemShaped(item)
  {
    |BboxOf(item).elems| >= 4
  }

  /** The feature of a drawn item: its box ring, and id, datetime, rendered assets and the four edges. */
  function TileFeature(item: Fields, render: Json -> string): (f: Feature)
    requires TileItemShaped(item) && Drawn(item)
    ensures Aligned(f.attributes, TileFields)
    ensures |f.ring| == 5 && f.ring[0] == f.ring[4]
    ensures f.attributes[0] == Get(item, "id", Str("")) && f.attributes[1] == Get(item, "datetime", Str(""))
    ensures f.attributes[2] == Str(render(Get(item, "assets", Arr([]))))
    ensures f.attributes[3..] == BboxOf(item).elems[..4]
  {
    var b := BboxOf(item).elems;
    var west, south, east, north := b[0].n, b[1].n, b[2].n, b[3].n;
    Feature(Ring(west, south, east, north),
            [Get(item, "id", Str("")), Get(item, "datetime", Str("")), Str(render(Get(item, "assets", Arr([])))),
             Num(west), Num(south), Num(east), Num(north)])
  }

  /** The features of the drawn items, in item order. */
  function TileFeatures(items: seq<Fields>, render: Json -> string): (r: seq<Feature>)
    requires TileItemsShaped(items)
    ensures |r| <= |items|
    ensures forall k :: 0 <= k < |r| ==> Aligned(r[k].attributes, TileFields)
    decreases |items|
  {
    if items == [] then []
    else
      var last := items[|items| - 1];
      TileFeatures(items[..|items| - 1], render) + (if Drawn(last) then [TileFeature(last, render)] else [])
  }

  /** The features of a concatenation are the features of each part: items are drawn independently and in order. */
  lemma {:induction false} TileFeaturesConcat(a: seq<Fields>, b: seq<Fields>, render: Json -> string)
    requires TileItemsShaped(a) && TileItemsShaped(b)
    ensures TileItemsShaped(a + b)
    ensures TileFeatures(a + b, render) == TileFeatures(a, render) + TileFeatures(b, render)
    decreases |b|
  {
    if b == [] {
      assert a + b == a;
    } else {
      var init, last := b[..|b| - 1], b[|b| - 1];
      assert b == init + [last];
      assert a + b == (a + init) + [last];
      assert TileItemsShaped(init);
      TileFeaturesConcat(a, init, render);
      TileFeaturesSnoc(a + init, last, render);
      TileFeaturesSnoc(init, last, render);
    }
  }

  /** Appending one item appends its feature when it is drawn, nothing otherwise. */
  lemma TileFeaturesSnoc(items: seq<Fields>, item: Fields, render: Json -> string)
    requires TileItemsShaped(items) && TileItemShaped(item)
    ensures TileItemsShaped(items + [item])
    ensures TileFeatures(items + [item], render)
      == TileFeatures(items, render) + (if Drawn(item) then [TileFeature(item, render)] else [])
  {
    assert (items + [item])[..|items|] == items;
  }

  /** One item yields one feature when drawn, none otherwise. */
  lemma TileFeaturesSingle(item: Fields, render: Json -> string)
    requires TileItemShaped(item)
    ensures TileItemsShaped([item])
    ensures TileFeatures([item], render) == if Drawn(item) then [TileFeature(item, render)] else []
  {
    assert [item][..0] == [];
  }

  /** The positions of the drawn items among the first `n`. */
  function DrawnPositions(items: seq<Fields>, n: nat): set<nat>
    requires TileItemsShaped(items) && n <= |items|
  {
    set i: nat | i < n && Drawn(items[i])
  }

  lemma DrawnPositionsStep(items: seq<Fields>, n: nat)
    requires TileItemsShaped(items) && n < |items|
    ensures DrawnPositions(items, n + 1) == DrawnPositions(items, n) + (if Drawn(items[n]) then {n} else {})
    ensures n !in DrawnPositions(items, n)
  {
  }

  lemma DrawnPositionsPrefix(items: seq<Fields>, n: nat)
    requires TileItemsShaped(items) && n <= |items|
    ensures TileItemsShaped(items[..n]) && DrawnPositions(items[..n], n) == DrawnPositions(items, n)
  {
    assert forall i :: 0 <= i < n ==> items[..n][i] == items[i];
  }

  /** Exactly one feature per drawn item: none is skipped unless its bbox is short. */
  lemma {:induction false} TileFeaturesCount(items: seq<Fields>, render: Json -> string)
    requires TileItemsShaped(items)
    ensures |TileFeatures(items, render)| == |DrawnPositions(items, |items|)|
    decreases |items|
  {
    if items == [] {
      assert DrawnPositions(items, 0) == {};
    } else {
      var n := |items| - 1;
      DrawnPositionsPrefix(items, n);
      TileFeaturesCount(items[..n], render);
      DrawnPositionsStep(items, n);
    }
  }

  /** The loop over the items that builds the feature list. */
  method CollectTileFeatures(items: seq<Fields>, render: Json -> string) returns (features: seq<Feature>)
    requires TileItemsShaped(items)
    ensures features == TileFeatures(items, render)
  {
    features := [];
    for i := 0 to |items|
      invariant TileItemsShaped(items[..i])
      invariant features == TileFeatures(items[..i], render)
    {
      var item := items[i];
      assert items[..i + 1][..i] == items[..i];
      var bbox := BboxOf(item);
      if |bbox.elems| < 4 {
        continue;
      }
      var west, south, east, north := bbox.elems[0].n, bbox.elems[1].n, bbox.elems[2].n, bbox.elems[3].n;
      var polygon := Ring(west, south, east, north);
      var attributes := [Get(item, "id", Str("")), Get(item, "datetime", Str("")),
                         Str(render(Get(item, "assets", Arr([])))),
                         Num(west), Num(south), Num(east), Num(north)];
      features := features + [Feature(polygon, attributes)];
    }
    assert items[..|items|] == items;
  }

  /**
   * `TileLayerBuilder.create_layer`: a polygon memory layer named after the
   * dataset with the seven tile fields and one feature per drawn item, or none
   * when QGIS rejects the layer.
   */
  method CreateTileLayer(b: TileLayerBuilder, render: Json -> string, valid: string -> bool)
    returns (layer: MemoryLayer?)
    requires TileItemsShaped(b.items)
    ensures layer == null <==> !valid(PolygonUri(b.crs))
    ensures layer != null ==> (fresh(layer)
      && layer.uri == PolygonUri(b.crs) && layer.name == b.datasetName + "_tiles" && layer.provider == "memory"
      && layer.fieldDefs == TileFields && layer.features == TileFeatures(b.items, render)
      && layer.AllAligned())
  {
    if !valid(PolygonUri(b.crs)) {
      return null;
    }
    layer := new MemoryLayer(PolygonUri(b.crs), b.datasetName + "_tiles", "memory");
    layer.AddAttributes(TileFields);
    var features := CollectTileFeatures(b.items, render);
    layer.AddFeatures(features);
  }

  // ---------------------------------------------------------------- extent

  datatype BboxLayerBuilder = BboxLayerBuilder(bbox: seq<real>, crs: string, datasetName: string)

  const BboxFields: seq<FieldDef> := [
    FieldDef("name", StringField),
    FieldDef("west", DoubleField), FieldDef("south", DoubleField),
    FieldDef("east", DoubleField), FieldDef("north", DoubleField)
  ]

  /** The extent feature: the box ring from the first four values, and the dataset name with the four edges. */
  function BboxFeature(bbox: seq<real>, datasetName: string): (f: Feature)
    requires |bbox| >= 4
    ensures Aligned(f.attributes, BboxFields)
    ensures f.attributes[0] == Str(datasetName)
    ensures forall i :: 1 <= i < 5 ==> f.attributes[i] == Num(bbox[i - 1])
    ensures f.ring == Ring(bbox[0], bbox[1], bbox[2], bbox[3])
  {
    Feature(Ring(bbox[0], bbox[1], bbox[2], bbox[3]),
            [Str(datasetName), Num(bbox[0]), Num(bbox[1]), Num(bbox[2]), Num(bbox[3])])
  }

  /** Values after the fourth do not change the extent feature. */
  lemma BboxFeatureIgnoresExtra(bbox: seq<real>, extra: seq<real>, datasetName: string)
    requires |bbox| >= 4
    ensures BboxFeature(bbox + extra, datasetName) == BboxFeature(bbox[..4], datasetName)
  {
  }

  /**
   * `BboxLayerBuilder.create_layer`: nothing for a bbox with fewer than four
   * values; otherwise a polygon memory layer holding the single extent feature,
   * or nothing when QGIS rejects the layer.
   */
  method CreateBboxLayer(b: BboxLayerBuilder, valid: string -> bool) returns (layer: MemoryLayer?)
    ensures layer == null <==> |b.bbox| < 4 || !valid(PolygonUri(b.crs))
    ensures layer != null ==> (fresh(layer)
      && layer.uri == PolygonUri(b.crs) && layer.name == b.datasetName + "_extent" && layer.provider == "memory"
      && layer.fieldDefs == BboxFields && layer.features == [BboxFeature(b.bbox, b.datasetName)]
      && layer.AllAligned())
  {
    if |b.bbox| < 4 {
      return null;
    }
    if !valid(PolygonUri(b.crs)) {
      return null;
    }
    layer := new MemoryLayer(PolygonUri(b.crs), b.datasetName + "_extent", "memory");
    layer.AddAttributes(BboxFields);
    var west, south, east, north := b.bbox[0], b.bbox[1], b.bbox[2], b.bbox[3];
    var polygon := Ring(west, south, east, north);
    var feature := Feature(polygon, [Str(b.datasetName), Num(west), Num(south), Num(east), Num(north)]);
    layer.AddFeatures([feature]);
  }
}
