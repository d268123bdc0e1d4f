/**
 * The GeoCroissant parser: fixed-key accessors with defaults, the distribution
 * filters, the reconstruction of items from the columnar `recordSet` encoding,
 * and the item-to-file matching scan.
 *
 * The parser reads a document once and never changes it, so it is modelled by
 * the parsed document itself (`data`); reading the file is not part of the model.
 */
module GeoCroissantParser {
  import opened Wrappers
  import opened JsonData
  import opened Strings

  // ---------------------------------------------------------------- scalar accessors

  function GetName(data: Fields): Json { Get(data, "name", Str("Unknown Dataset")) }
  function GetVersion(data: Fields): Json { Get(data, "version", Str("1.0.0")) }
  function GetLicense(data: Fields): Json { Get(data, "license", Str("Unknown")) }
  function GetDescription(data: Fields): Json { Get(data, "description", Str("")) }
  /** `None` when absent. */
  function GetTemporalExtent(data: Fields): Json { Get(data, "geocr:temporalExtent", Null) }
  function GetSpatialResolution(data: Fields): Json { Get(data, "geocr:spatialResolution", Str("Unknown")) }
  function GetCrs(data: Fields): Json { Get(data, "geocr:coordinateReferenceSystem", Str("EPSG:4326")) }
  function GetRecordSets(data: Fields): Json { Get(data, "recordSet", Arr([])) }
  function GetReferences(data: Fields): Json { Get(data, "references", Arr([])) }
  function GetVisualizations(data: Fields): Json { Get(data, "geocr:visualizations", Obj([])) }
  function GetSummaries(data: Fields): Json { Get(data, "geocr:summaries", Obj([])) }
  function IsLiveDataset(data: Fields): Json { Get(data, "isLiveDataset", Bool(false)) }
  function GetKeywords(data: Fields): Json { Get(data, "keywords", Arr([])) }

  /** Every accessor of a key the document lacks returns its fixed default. */
  lemma AccessorDefaults(data: Fields)
    ensures !Has(data, "name") ==> GetName(data) == Str("Unknown Dataset")
    ensures !Has(data, "version") ==> GetVersion(data) == Str("1.0.0")
    ensures !Has(data, "license") ==> GetLicense(data) == Str("Unknown")
    ensures !Has(data, "description") ==> GetDescription(data) == Str("")
    ensures !Has(data, "geocr:temporalExtent") ==> GetTemporalExtent(data) == Null
    ensures !Has(data, "geocr:spatialResolution") ==> GetSpatialResolution(data) == Str("Unknown")
    ensures !Has(data, "geocr:coordinateReferenceSystem") ==> GetCrs(data) == Str("EPSG:4326")
    ensures !Has(data, "recordSet") ==> GetRecordSets(data) == Arr([])
    ensures !Has(data, "references") ==> GetReferences(data) == Arr([])
    ensures !Has(data, "geocr:visualizations") ==> GetVisualizations(data) == Obj([])
    ensures !Has(data, "geocr:summaries") ==> GetSummaries(data) == Obj([])
    ensures !Has(data, "isLiveDataset") ==> IsLiveDataset(data) == Bool(false)
    ensures !Has(data, "keywords") ==> GetKeywords(data) == Arr([])
  {
  }

  /** A present key wins over the default even when it holds a falsy value such as `""` or `null`. */
  lemma PresentKeyWins(data: Fields, v: Json)
    ensures Lookup(data, "name") == Some(v) ==> GetName(data) == v
    ensures Lookup(data, "version") == Some(v) ==> GetVersion(data) == v
    ensures Lookup(data, "license") == Some(v) ==> GetLicense(data) == v
    ensures Lookup(data, "description") == Some(v) ==> GetDescription(data) == v
    ensures Lookup(data, "geocr:spatialResolution") == Some(v) ==> GetSpatialResolution(data) == v
    ensures Lookup(data, "geocr:coordinateReferenceSystem") == Some(v) ==> GetCrs(data) == v
    ensures Lookup(data, "isLiveDataset") == Some(v) ==> IsLiveDataset(data) == v
  {
  }

  // ---------------------------------------------------------------- bounding box

  /** The first four entries of `geocr:BoundingBox` when it is truthy and has at least four, else None (`Null`). */
  function GetBoundingBox(data: Fields): (r: Json)
    requires FirstFourShaped(Get(data, "geocr:BoundingBox", Null))
    ensures var bbox := Get(data, "geocr:BoundingBox", Null);
      && (r != Null <==> Truthy(bbox) && Indexable(bbox) && Len(bbox) >= 4)
      && (r != Null ==> Indexable(r) && Len(r) == 4 && r.Arr? == bbox.Arr?
                        && forall i :: 0 <= i < 4 ==> At(r, i) == At(bbox, i))
  {
    var bbox := Get(data, "geocr:BoundingBox", Null);
    if Truthy(bbox) && Len(bbox) >= 4 then Take(bbox, 4) else Null
  }

  // ---------------------------------------------------------------- distribution

  /** `[d for d in entries if d.get("@type") == t]`: the entries of `@type` t, in order. */
  function OfType(entries: seq<Json>, t: string): (r: seq<Json>)
    requires forall i :: 0 <= i < |entries| ==> entries[i].Obj?
    ensures |r| <= |entries|
    ensures forall i :: 0 <= i < |r| ==> r[i] in entries && r[i].Obj? && Get(r[i].fields, "@type", Null) == Str(t)
    ensures forall i :: 0 <= i < |entries| && Get(entries[i].fields, "@type", Null) == Str(t) ==> entries[i] in r
    decreases |entries|
  {
    if entries == [] then []
    else
      var init := entries[..|entries| - 1];
      var last := entries[|entries| - 1];
      assert forall i :: 0 <= i < |init| ==> init[i] == entries[i];
      OfType(init, t) + (if Get(last.fields, "@type", Null) == Str(t) then [last] else [])
  }

  /** Filtering a concatenation filters each part: the filter keeps document order. */
  lemma {:induction false} OfTypeConcat(a: seq<Json>, b: seq<Json>, t: string)
    requires forall i :: 0 <= i < |a| ==> a[i].Obj?
    requires forall i :: 0 <= i < |b| ==> b[i].Obj?
    ensures OfType(a + b, t) == OfType(a, t) + OfType(b, t)
    decreases |b|
  {
    if b == [] {
      assert a + b == a;
    } else {
      var init, last := b[..|b| - 1], b[|b| - 1];
      assert b == init + [last];
      assert a + b == (a + init) + [last];
      OfTypeConcat(a, init, t);
      OfTypeSnoc(a + init, last, t);
      OfTypeSnoc(init, last, t);
    }
  }

  /** Appending one entry appends it exactly when it has the type. */
  lemma OfTypeSnoc(xs: seq<Json>, x: Json, t: string)
    requires forall i :: 0 <= i < |xs| ==> xs[i].Obj?
    requires x.Obj?
    ensures forall i :: 0 <= i < |xs + [x]| ==> (xs + [x])[i].Obj?
    ensures OfType(xs + [x], t) == OfType(xs, t) + (if Get(x.fields, "@type", Null) == Str(t) then [x] else [])
  {
    assert (xs + [x])[..|xs|] == xs;
  }

  function DistributionEntries(data: Fields): seq<Json>
    requires ListOfDicts(data, "distribution")
  {
    GetList(data, "distribution")
  }

  function GetDistributionFiles(data: Fields): seq<Json>
    requires ListOfDicts(data, "distribution")
  {
    OfType(DistributionEntries(data), "cr:FileObject")
  }

  function GetFileSets(data: Fields): seq<Json>
    requires ListOfDicts(data, "distribution")
  {
    OfType(DistributionEntries(data), "cr:FileSet")
  }

  /** No entry is both a file object and a file set. */
  lemma FilesAndFileSetsDisjoint(data: Fields, x: Json)
    requires ListOfDicts(data, "distribution")
    ensures !(x in GetDistributionFiles(data) && x in GetFileSets(data))
  {
  }

  // ---------------------------------------------------------------- items

  /** The keys looked up, under the record-set prefix, in every row. */
  const ItemKeys: seq<string> := ["id", "datetime", "bbox", "assets"]

  /** `record_set.get("data", [])` */
  function DataOf(rs: Json): Json
    requires rs.Obj?
  {
    Get(rs.fields, "data", Arr([]))
  }

  /** `record_set.get("field", [])` */
  function FieldOf(rs: Json): Json
    requires rs.Obj?
  {
    Get(rs.fields, "field", Arr([]))
  }

  /**
   * `"/" in first_field_id` raises nothing, and neither does the `rsplit` it
   * guards: the id is a string, or a list or dict without "/" in it.
   */
  predicate IdSafe(id: Json) {
    id.Str? || (id.Arr? && Str("/") !in id.elems) || (id.Obj? && !Has(id.fields, "/"))
  }

  /**
   * The prefix computation raises nothing: `field` is falsy (absent, null, an
   * empty list, …), or a list whose first entry is a dict with a usable `@id`.
   */
  predicate PrefixSafe(field: Json) {
    !Truthy(field) || (field.Arr? && field.elems[0].Obj? && IdSafe(Get(field.elems[0].fields, "@id", Str(""))))
  }

  /**
   * A record set the item loop walks without raising: a dict whose `data`
   * iterates over row dicts and whose prefix can be computed.
   */
  predicate RecordSetShaped(rs: Json) {
    && rs.Obj?
    && Container(DataOf(rs))
    && (forall i :: 0 <= i < |Elements(DataOf(rs))| ==> Elements(DataOf(rs))[i].Obj?)
    && PrefixSafe(FieldOf(rs))
  }

  /** `get_record_sets()`, as the item loop visits it. */
  function RecordSets(data: Fields): seq<Json>
    requires Container(GetRecordSets(data))
  {
    Elements(GetRecordSets(data))
  }

  predicate ItemsShaped(data: Fields) {
    && Container(GetRecordSets(data))
    && forall i :: 0 <= i < |RecordSets(data)| ==> RecordSetShaped(RecordSets(data)[i])
  }

  /** `fields[0].get("@id", "")` */
  function FirstFieldId(field: Json): Json
    requires field.Arr? && field.elems != [] && field.elems[0].Obj?
  {
    Get(field.elems[0].fields, "@id", Str(""))
  }

  /**
   * The field-name prefix of a record set: the first field's string `@id` up to
   * and including its last slash; "" when `field` is falsy, when the id has no
   * slash, or when the id is not a string.
   */
  function FieldPrefix(field: Json): (r: string)
    requires PrefixSafe(field)
    ensures !Truthy(field) ==> r == []
    ensures Truthy(field) && !FirstFieldId(field).Str? ==> r == []
    ensures Truthy(field) && FirstFieldId(field).Str? ==>
      var id := FirstFieldId(field).s;
      && StartsWith(id, r)
      && (r == [] <==> forall j :: 0 <= j < |id| ==> id[j] != '/')
      && (r != [] ==> r[|r| - 1] == '/' && forall j :: |r| <= j < |id| ==> id[j] != '/')
  {
    if !Truthy(field) then []
    else
      var id := FirstFieldId(field);
      if id.Str? then UpToLastSlash(id.s) else []
  }

  function RecordSetPrefix(rs: Json): string
    requires RecordSetShaped(rs)
  {
    FieldPrefix(FieldOf(rs))
  }

  /** The rows of a record set, as `for item_data in data` visits them. */
  function Rows(rs: Json): (r: seq<Json>)
    requires RecordSetShaped(rs)
    ensures forall i :: 0 <= i < |r| ==> r[i].Obj?
  {
    Elements(DataOf(rs))
  }

  /** The item built from the known keys `keys`: `item[k] = row[prefix + k]` for each one the row has. */
  function KnownItem(prefix: string, row: Fields, keys: seq<string>): (r: Fields)
    ensures r == [] <==> forall i :: 0 <= i < |keys| ==> !Has(row, prefix + keys[i])
    decreases |keys|
  {
    if keys == [] then []
    else
      var k := keys[|keys| - 1];
      var item := KnownItem(prefix, row, keys[..|keys| - 1]);
      assert forall i :: 0 <= i < |keys| - 1 ==> keys[..|keys| - 1][i] == keys[i];
      if Has(row, prefix + k) then Put(item, k, Lookup(row, prefix + k).value) else item
  }

  /** A key is in the item exactly when it is one of `keys` and the row has it under the prefix, with the row's value. */
  lemma {:induction false} KnownItemLookup(prefix: string, row: Fields, keys: seq<string>, k: string)
    ensures Lookup(KnownItem(prefix, row, keys), k) == if k in keys then Lookup(row, prefix + k) else None
    decreases |keys|
  {
    if keys != [] {
      var init := keys[..|keys| - 1];
      KnownItemLookup(prefix, row, init, k);
      assert k in keys <==> k in init || k == keys[|keys| - 1] by {
        assert keys == init + [keys[|keys| - 1]];
      }
    }
  }

  /** The fallback item: every row key, in row order, under its segment after the last slash; a later key overwrites. */
  function StrippedItem(row: Fields): Fields {
    Rekeyed(row, AfterLastSlash)
  }

  /**
   * The fallback item's keys are exactly the stripped row keys, and each holds
   * the value of the last row key that strips to it.
   */
  lemma StrippedItemKeys(row: Fields, k: string)
    ensures Lookup(StrippedItem(row), k).Some? <==> exists i :: 0 <= i < |row| && AfterLastSlash(row[i].0) == k
    ensures forall i :: 0 <= i < |row| && AfterLastSlash(row[i].0) == k
                        && (forall j :: i < j < |row| ==> AfterLastSlash(row[j].0) != k) ==>
              Lookup(StrippedItem(row), k) == Some(row[i].1)
  {
    if Lookup(StrippedItem(row), k).Some? {
      var i := RekeyedKeySource(row, AfterLastSlash, k);
    }
    forall i | 0 <= i < |row| && AfterLastSlash(row[i].0) == k
      ensures Lookup(StrippedItem(row), k).Some?
    {
      RekeyedHasKey(row, AfterLastSlash, i);
    }
    forall i | 0 <= i < |row| && AfterLastSlash(row[i].0) == k && (forall j :: i < j < |row| ==> AfterLastSlash(row[j].0) != k)
      ensures Lookup(StrippedItem(row), k) == Some(row[i].1)
    {
      RekeyedLastWins(row, AfterLastSlash, i);
    }
  }

  /** The item of one row: the known keys when any is present, else the stripped fallback. */
  function ItemOf(prefix: string, row: Fields): Fields {
    var known := KnownItem(prefix, row, ItemKeys);
    if known != [] then known else StrippedItem(row)
  }

  /** Only an empty row yields an empty item, so exactly the empty rows are skipped. */
  lemma ItemOfEmpty(prefix: string, row: Fields)
    ensures ItemOf(prefix, row) == [] <==> row == []
  {
    var known := KnownItem(prefix, row, ItemKeys);
    if known != [] {
      var i :| 0 <= i < |ItemKeys| && Has(row, prefix + ItemKeys[i]);
      assert row != [];
    }
  }

  /** The item of every row, in row order, before empty ones are dropped. */
  function BuiltItems(prefix: string, rows: seq<Json>): (r: seq<Fields>)
    requires forall i :: 0 <= i < |rows| ==> rows[i].Obj?
    ensures |r| == |rows|
  {
    seq(|rows|, i requires 0 <= i < |rows| => ItemOf(prefix, rows[i].fields))
  }

  /** `[x for x in xs if x]` on items: the non-empty ones, in order. */
  function NonEmpty(xs: seq<Fields>): (r: seq<Fields>)
    ensures |r| <= |xs|
    ensures forall i :: 0 <= i < |r| ==> r[i] != [] && r[i] in xs
    ensures forall i :: 0 <= i < |xs| && xs[i] != [] ==> xs[i] in r
    decreases |xs|
  {
    if xs == [] then []
    else
      var init := xs[..|xs| - 1];
      assert forall i :: 0 <= i < |init| ==> init[i] == xs[i];
      NonEmpty(init) + (if xs[|xs| - 1] != [] then [xs[|xs| - 1]] else [])
  }

  lemma {:induction false} NonEmptyConcat(a: seq<Fields>, b: seq<Fields>)
    ensures NonEmpty(a + b) == NonEmpty(a) + NonEmpty(b)
    decreases |b|
  {
    if b == [] {
      assert a + b == a;
    } else {
      var init, last := b[..|b| - 1], b[|b| - 1];
      assert b == init + [last];
      assert a + b == (a + init) + [last];
      NonEmptyConcat(a, init);
      NonEmptySnoc(a + init, last);
      NonEmptySnoc(init, last);
    }
  }

  /** Appending one item keeps it exactly when it is non-empty. */
  lemma NonEmptySnoc(xs: seq<Fields>, x: Fields)
    ensures NonEmpty(xs + [x]) == NonEmpty(xs) + (if x != [] then [x] else [])
  {
    assert (xs + [x])[..|xs|] == xs;
  }

  /** The non-empty items of `rows`, in row order. */
  function RowItems(prefix: string, rows: seq<Json>): seq<Fields>
    requires forall i :: 0 <= i < |rows| ==> rows[i].Obj?
  {
    NonEmpty(BuiltItems(prefix, rows))
  }

  /** Items of later rows come after items of earlier rows. */
  lemma RowItemsConcat(prefix: string, a: seq<Json>, b: seq<Json>)
    requires forall i :: 0 <= i < |a| ==> a[i].Obj?
    requires forall i :: 0 <= i < |b| ==> b[i].Obj?
    ensures RowItems(prefix, a + b) == RowItems(prefix, a) + RowItems(prefix, b)
  {
    assert BuiltItems(prefix, a + b) == BuiltItems(prefix, a) + BuiltItems(prefix, b);
    NonEmptyConcat(BuiltItems(prefix, a), BuiltItems(prefix, b));
  }

  /** The number of rows that are non-empty dicts: the rows that yield an item. */
  function NonEmptyRows(rows: seq<Json>): (n: nat)
    requires forall i :: 0 <= i < |rows| ==> rows[i].Obj?
    ensures n <= |rows|
    decreases |rows|
  {
    if rows == [] then 0
    else NonEmptyRows(rows[..|rows| - 1]) + (if rows[|rows| - 1].fields != [] then 1 else 0)
  }

  /** One item per non-empty row. */
  lemma {:induction false} RowItemsCount(prefix: string, rows: seq<Json>)
    requires forall i :: 0 <= i < |rows| ==> rows[i].Obj?
    ensures |RowItems(prefix, rows)| == NonEmptyRows(rows)
    decreases |rows|
  {
    if rows != [] {
      var n := |rows| - 1;
      RowItemsCount(prefix, rows[..n]);
      ItemOfEmpty(prefix, rows[n].fields);
      var built := BuiltItems(prefix, rows);
      assert built[..n] == BuiltItems(prefix, rows[..n]);
    }
  }

  /** All items of the record sets, record set by record set. */
  function ItemsOf(recordSets: seq<Json>): seq<Fields>
    requires forall i :: 0 <= i < |recordSets| ==> RecordSetShaped(recordSets[i])
    decreases |recordSets|
  {
    if recordSets == [] then []
    else
      var rs := recordSets[|recordSets| - 1];
      ItemsOf(recordSets[..|recordSets| - 1]) + RowItems(RecordSetPrefix(rs), Rows(rs))
  }

  /** The total number of rows over all record sets. */
  function TotalRows(recordSets: seq<Json>): nat
    requires forall i :: 0 <= i < |recordSets| ==> RecordSetShaped(recordSets[i])
    decreases |recordSets|
  {
    if recordSets == [] then 0
    else TotalRows(recordSets[..|recordSets| - 1]) + |Rows(recordSets[|recordSets| - 1])|
  }

  /** There are never more items than rows. */
  lemma {:induction false} ItemsAtMostRows(recordSets: seq<Json>)
    requires forall i :: 0 <= i < |recordSets| ==> RecordSetShaped(recordSets[i])
    ensures |ItemsOf(recordSets)| <= TotalRows(recordSets)
    decreases |recordSets|
  {
    if recordSets != [] {
      ItemsAtMostRows(recordSets[..|recordSets| - 1]);
    }
  }

  function ItemsOfData(data: Fields): seq<Fields>
    requires ItemsShaped(data)
  {
    ItemsOf(RecordSets(data))
  }

  /** The item of one row, built as the loop builds it. */
  method BuildItem(prefix: string, row: Fields) returns (item: Fields)
    ensures item == ItemOf(prefix, row)
  {
    item := [];
    for j := 0 to |ItemKeys|
      invariant item == KnownItem(prefix, row, ItemKeys[..j])
    {
      var fullKey := prefix + ItemKeys[j];
      KnownItemStep(prefix, row, ItemKeys, j);
      if Has(row, fullKey) {
        item := Put(item, ItemKeys[j], Lookup(row, fullKey).value);
      }
    }
    assert ItemKeys[..|ItemKeys|] == ItemKeys;
    if item == [] {
      for j := 0 to |row|
        invariant item == StrippedItem(row[..j])
      {
        var (k, v) := row[j];
        StrippedItemStep(row, j);
        item := Put(item, AfterLastSlash(k), v);
      }
      assert row[..|row|] == row;
    }
  }

  /** One more known key adds that key when the row has it. */
  lemma KnownItemStep(prefix: string, row: Fields, keys: seq<string>, j: nat)
    requires j < |keys|
    ensures KnownItem(prefix, row, keys[..j + 1])
      == if Has(row, prefix + keys[j]) then Put(KnownItem(prefix, row, keys[..j]), keys[j], Lookup(row, prefix + keys[j]).value)
         else KnownItem(prefix, row, keys[..j])
  {
    assert keys[..j + 1][..j] == keys[..j];
  }

  /** One more row entry is put under its stripped key. */
  lemma StrippedItemStep(row: Fields, j: nat)
    requires j < |row|
    ensures StrippedItem(row[..j + 1]) == Put(StrippedItem(row[..j]), AfterLastSlash(row[j].0), row[j].1)
  {
    assert row[..j + 1][..j] == row[..j];
  }

  /** The prefix as the loop computes it. */
  method ComputePrefix(field: Json) returns (prefix: string)
    requires PrefixSafe(field)
    ensures prefix == FieldPrefix(field)
  {
    prefix := "";
    if Truthy(field) {
      var firstFieldId := Get(field.elems[0].fields, "@id", Str(""));
      // A list or dict id cannot hold "/" here (PrefixSafe), so only a string id can yield a prefix.
      if firstFieldId.Str? {
        var id := firstFieldId.s;
        forall j | 0 <= j < |id| && id[j] == '/'
          ensures OccursAt(id, "/", j)
        {
          assert id[j..j + 1] == "/";
        }
        if Contains(id, "/") {
          prefix := UpToLastSlash(id);
        }
      }
    }
  }

  /** The items of one record set's rows, skipping rows whose item is empty. */
  method CollectRowItems(prefix: string, rows: seq<Json>) returns (items: seq<Fields>)
    requires forall i :: 0 <= i < |rows| ==> rows[i].Obj?
    ensures items == RowItems(prefix, rows)
  {
    items := [];
    for j := 0 to |rows|
      invariant items == NonEmpty(BuiltItems(prefix, rows[..j]))
    {
      var item := BuildItem(prefix, rows[j].fields);
      ghost var built := BuiltItems(prefix, rows[..j + 1]);
      assert built[..j] == BuiltItems(prefix, rows[..j]);
      assert built[j] == item;
      if item != [] {
        items := items + [item];
      }
    }
    assert rows[..|rows|] == rows;
  }

  method GetItems(data: Fields) returns (items: seq<Fields>)
    requires ItemsShaped(data)
    ensures items == ItemsOfData(data)
  {
    items := [];
    var recordSets := RecordSets(data);
    for r := 0 to |recordSets|
      invariant items == ItemsOf(recordSets[..r])
    {
      var recordSet := recordSets[r];
      var prefix := ComputePrefix(FieldOf(recordSet));
      var setItems := CollectRowItems(prefix, Rows(recordSet));
      assert recordSets[..r + 1][..r] == recordSets[..r];
      items := items + setItems;
    }
    assert recordSets[..|recordSets|] == recordSets;
  }

  method GetItemCount(data: Fields) returns (n: nat)
    requires ItemsShaped(data)
    ensures n == |ItemsOfData(data)|
    ensures n <= TotalRows(RecordSets(data))
  {
    var items := GetItems(data);
    ItemsAtMostRows(RecordSets(data));
    n := |items|;
  }

  // ---------------------------------------------------------------- file matching

  /** The three identifying strings of a file object are strings (or absent). */
  predicate FileShaped(f: Json) {
    f.Obj? && StrOrAbsent(f.fields, "@id") && StrOrAbsent(f.fields, "name") && StrOrAbsent(f.fields, "contentUrl")
  }

  function FileId(f: Json): string requires FileShaped(f) { GetStr(f.fields, "@id", "") }
  function FileName(f: Json): string requires FileShaped(f) { GetStr(f.fields, "name", "") }
  function ContentUrl(f: Json): string requires FileShaped(f) { GetStr(f.fields, "contentUrl", "") }

  /**
   * `item_id` occurs (case-sensitively) in the id, name or content URL, and the
   * lower-cased `file_type` occurs in one of the three, lower-cased.
   */
  predicate FileMatches(f: Json, itemId: string, fileType: string)
    requires FileShaped(f)
  {
    && (Contains(FileId(f), itemId) || Contains(FileName(f), itemId) || Contains(ContentUrl(f), itemId))
    && (Contains(Lower(FileId(f)), Lower(fileType)) || Contains(Lower(FileName(f)), Lower(fileType))
        || Contains(Lower(ContentUrl(f)), Lower(fileType)))
  }

  /** The first matching file of `files`, in scan order. */
  function FindFile(files: seq<Json>, itemId: string, fileType: string): (r: Option<Json>)
    requires forall i :: 0 <= i < |files| ==> FileShaped(files[i])
    ensures r.Some? ==> r.value in files
    decreases |files|
  {
    if files == [] then None
    else if FileMatches(files[0], itemId, fileType) then Some(files[0])
    else
      var r := FindFile(files[1..], itemId, fileType);
      assert r.Some? ==> r.value in files[1..];
      r
  }

  /** Nothing is found exactly when no file matches; otherwise the match found is the earliest one. */
  lemma FindFileIsFirstMatch(files: seq<Json>, itemId: string, fileType: string)
    requires forall i :: 0 <= i < |files| ==> FileShaped(files[i])
    ensures FindFile(files, itemId, fileType).None? <==>
      forall i :: 0 <= i < |files| ==> !FileMatches(files[i], itemId, fileType)
    ensures FindFile(files, itemId, fileType).Some? ==>
      exists i :: 0 <= i < |files| && files[i] == FindFile(files, itemId, fileType).value
        && FileMatches(files[i], itemId, fileType)
        && forall j :: 0 <= j < i ==> !FileMatches(files[j], itemId, fileType)
  {
    forall i | 0 <= i < |files| && FileMatches(files[i], itemId, fileType)
      ensures FindFile(files, itemId, fileType).Some?
    {
      MatchIsFound(files, itemId, fileType, i);
    }
    if FindFile(files, itemId, fileType).Some? {
      var i := FirstMatchIndex(files, itemId, fileType);
    }
  }

  /** A matching file anywhere makes the scan find something. */
  lemma {:induction false} MatchIsFound(files: seq<Json>, itemId: string, fileType: string, i: nat)
    requires forall i :: 0 <= i < |files| ==> FileShaped(files[i])
    requires i < |files| && FileMatches(files[i], itemId, fileType)
    ensures FindFile(files, itemId, fileType).Some?
    decreases |files|
  {
    if !FileMatches(files[0], itemId, fileType) {
      assert files[1..][i - 1] == files[i];
      MatchIsFound(files[1..], itemId, fileType, i - 1);
    }
  }

  /** The index of the file the scan returns: it matches, and no earlier file does. */
  lemma {:induction false} FirstMatchIndex(files: seq<Json>, itemId: string, fileType: string) returns (i: nat)
    requires forall i :: 0 <= i < |files| ==> FileShaped(files[i])
    requires FindFile(files, itemId, fileType).Some?
    ensures i < |files| && files[i] == FindFile(files, itemId, fileType).value
    ensures FileMatches(files[i], itemId, fileType)
    ensures forall j :: 0 <= j < i ==> !FileMatches(files[j], itemId, fileType)
    decreases |files|
  {
    if FileMatches(files[0], itemId, fileType) {
      i := 0;
    } else {
      var k := FirstMatchIndex(files[1..], itemId, fileType);
      i := k + 1;
      assert files[i] == files[1..][k];
      forall j | 0 <= j < i ensures !FileMatches(files[j], itemId, fileType) {
        if j > 0 { assert files[j] == files[1..][j - 1]; }
      }
    }
  }

  predicate FindShaped(data: Fields) {
    ListOfDicts(data, "distribution")
    && forall i :: 0 <= i < |GetDistributionFiles(data)| ==> FileShaped(GetDistributionFiles(data)[i])
  }

  /** The scan over the distribution's file objects, returning the first match. */
  method FindDistributionFile(data: Fields, itemId: string, fileType: string) returns (r: Option<Json>)
    requires FindShaped(data)
    ensures r == FindFile(GetDistributionFiles(data), itemId, fileType)
  {
    var files := GetDistributionFiles(data);
    for i := 0 to |files|
      invariant FindFile(files, itemId, fileType) == FindFile(files[i..], itemId, fileType)
    {
      var fileObj := files[i];
      var fileId, fileName, contentUrl := FileId(fileObj), FileName(fileObj), ContentUrl(fileObj);
      assert files[i..][1..] == files[i + 1..];
      if Contains(fileId, itemId) || Contains(fileName, itemId) || Contains(contentUrl, itemId) {
        if Contains(Lower(fileId), Lower(fileType)) {
          return Some(fileObj);
        }
        if Contains(Lower(fileName), Lower(fileType)) {
          return Some(fileObj);
        }
        if Contains(Lower(contentUrl), Lower(fileType)) {
          return Some(fileObj);
        }
      }
    }
    return None;
  }

  /** A found file is one of the document's `cr:FileObject` distribution entries. */
  lemma FoundIsFileObject(data: Fields, itemId: string, fileType: string)
    requires FindShaped(data)
    ensures var r := FindFile(GetDistributionFiles(data), itemId, fileType);
      r.Some? ==> r.value in DistributionEntries(data) && Get(r.value.fields, "@type", Null) == Str("cr:FileObject")
  {
    var files := GetDistributionFiles(data);
    var r := FindFile(files, itemId, fileType);
    if r.Some? {
      var i :| 0 <= i < |files| && files[i] == r.value;
      assert files[i] in DistributionEntries(data);
    }
  }
}

/** The sample document of the parser's unit tests, and what its tests expect of it. */
module ParserFixture {
  import opened Wrappers
  import opened JsonData
  import opened Strings
  import opened GeoCroissantParser

  const Row1: Json := Obj([("items/id", Str("tile_001")),
                            ("items/bbox", Arr([Num(-118.93), Num(68.74), Num(-115.73), Num(69.86)]))])
  const Row2: Json := Obj([("items/id", Str("tile_002")),
                            ("items/bbox", Arr([Num(106.76), Num(69.95), Num(110.04), Num(71.04)]))])
  const IdField: Json := Obj([("@id", Str("items/id")), ("name", Str("id"))])
  const BboxField: Json := Obj([("@id", Str("items/bbox")), ("name", Str("bbox"))])

  const ItemsRecordSet: Json := Obj([
    ("@type", Str("cr:RecordSet")),
    ("@id", Str("items")),
    ("field", Arr([IdField, BboxField])),
    ("data", Arr([Row1, Row2]))])

  const Sample: Fields := [
    ("name", Str("Test Dataset")),
    ("version", Str("1.0.0")),
    ("license", Str("CC-BY-4.0")),
    ("geocr:BoundingBox", Arr([Num(-118.93), Num(54.07), Num(174.73), Num(73.86)])),
    ("recordSet", Arr([ItemsRecordSet]))]

  /** The bounding box has four entries, from -118.93 to 73.86. */
  lemma SampleBoundingBox()
    ensures GetBoundingBox(Sample) == Arr([Num(-118.93), Num(54.07), Num(174.73), Num(73.86)])
  {
    LookupAt(Sample, 3, "geocr:BoundingBox");
  }

  lemma SampleRecordSets()
    ensures Container(GetRecordSets(Sample))
    ensures RecordSets(Sample) == [ItemsRecordSet]
  {
    LookupAt(Sample, 4, "recordSet");
  }

  lemma SampleRows()
    ensures DataOf(ItemsRecordSet) == Arr([Row1, Row2])
  {
    LookupAt(ItemsRecordSet.fields, 3, "data");
  }

  lemma SamplePrefix()
    ensures FieldOf(ItemsRecordSet) == Arr([IdField, BboxField])
    ensures FirstFieldId(FieldOf(ItemsRecordSet)) == Str("items/id")
  {
    LookupAt(ItemsRecordSet.fields, 2, "field");
    LookupAt(IdField.fields, 0, "@id");
  }

  lemma SlashPrefix()
    ensures UpToLastSlash("items/id") == "items/"
  {
    var id := "items/id";
    assert id[7] != '/' && id[6] != '/' && id[5] == '/';
    assert id[..7][..6] == id[..6];
    assert LastIndexOf(id, '/') == LastIndexOf(id[..6], '/');
  }

  lemma SampleRecordSetShaped()
    ensures RecordSetShaped(ItemsRecordSet)
    ensures Rows(ItemsRecordSet) == [Row1, Row2]
    ensures RecordSetPrefix(ItemsRecordSet) == "items/"
  {
    SampleRows();
    SamplePrefix();
    SlashPrefix();
    assert Row1.Obj? && Row2.Obj?;
    RecordSetShapedOf(ItemsRecordSet, [Row1, Row2], "items/id");
  }

  /** A record set with rows of dicts and a first field with a string id is well shaped. */
  lemma RecordSetShapedOf(rs: Json, rows: seq<Json>, id: string)
    requires rs.Obj? && DataOf(rs) == Arr(rows) && forall i :: 0 <= i < |rows| ==> rows[i].Obj?
    requires FieldOf(rs).Arr? && FieldOf(rs).elems != [] && FieldOf(rs).elems[0].Obj?
    requires FirstFieldId(FieldOf(rs)) == Str(id)
    ensures RecordSetShaped(rs) && Rows(rs) == rows && RecordSetPrefix(rs) == UpToLastSlash(id)
  {
  }

  lemma SampleShaped()
    ensures RecordSetShaped(ItemsRecordSet) && ItemsShaped(Sample)
    ensures RecordSetPrefix(ItemsRecordSet) == "items/"
  {
    SampleRecordSetShaped();
    SampleRecordSets();
    ItemsShapedOf(Sample, ItemsRecordSet);
  }

  /** A document whose record sets are one well-shaped record set is well shaped. */
  lemma ItemsShapedOf(data: Fields, rs: Json)
    requires Container(GetRecordSets(data)) && RecordSets(data) == [rs] && RecordSetShaped(rs)
    ensures ItemsShaped(data)
  {
  }

  lemma SampleFirstItem()
    ensures Lookup(ItemOf("items/", Row1.fields), "id") == Some(Str("tile_001"))
  {
    var prefix := "items/";
    LookupAt(Row1.fields, 0, "items/id");
    KnownItemLookup(prefix, Row1.fields, ItemKeys, "id");
    assert Has(Row1.fields, prefix + ItemKeys[0]);
  }

  /** Two non-empty rows give two items. */
  lemma TwoRowItems(prefix: string, r1: Json, r2: Json)
    requires r1.Obj? && r1.fields != [] && r2.Obj? && r2.fields != []
    ensures RowItems(prefix, [r1, r2]) == [ItemOf(prefix, r1.fields), ItemOf(prefix, r2.fields)]
  {
    var item1 := ItemOf(prefix, r1.fields);
    var item2 := ItemOf(prefix, r2.fields);
    ItemOfEmpty(prefix, r1.fields);
    ItemOfEmpty(prefix, r2.fields);
    var built := BuiltItems(prefix, [r1, r2]);
    assert built == [item1, item2];
    assert built[..1] == [item1];
    assert NonEmpty([item1]) == [item1];
  }

  /** Two items are rebuilt from the record set; the first has id "tile_001". */
  lemma SampleItems()
    ensures ItemsShaped(Sample)
    ensures |ItemsOfData(Sample)| == 2
    ensures Lookup(ItemsOfData(Sample)[0], "id") == Some(Str("tile_001"))
  {
    SampleShaped();
    SampleRecordSets();
    SampleRecordSetShaped();
    SampleFirstItem();
    TwoRowItems("items/", Row1, Row2);
    var sets := [ItemsRecordSet];
    assert sets[..0] == [];
    assert ItemsOf(sets) == RowItems("items/", [Row1, Row2]);
  }
}
