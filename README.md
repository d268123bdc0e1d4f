# GeoCroissant tools: a verified model of the metadata core

This project is a Dafny model of the core of the GeoCroissant tools QGIS
plugin. The model covers four parts:

- **Metadata detector** (`metadata_detector.dfy`). A parsed JSON document is
  classified as CMR-UMM, STAC, GeoCroissant or generic by marker-key
  precedence. Per-format extractors then read the name, description, spatial
  and temporal extent, CRS, spatial resolution, download links, metadata lines
  and assets.
- **GeoCroissant parser** (`geocroissant_parser.dfy`). This covers:
  - the fixed-key accessors with their defaults;
  - the bounding box;
  - the distribution filters;
  - rebuilding items from the columnar `recordSet` encoding: the prefix of a
    record set, the known-key lookup per row and the fallback that strips key
    prefixes;
  - the linear scan matching an item with a distribution file.

  Module `ParserFixture` restates part of the sample document of the parser's
  unit tests: its name, version, license, bounding box and record set. That is
  enough for the bounding-box and items tests, and it proves what those two
  tests expect.
- **Data loaders** (`data_loader.dfy`). This covers:
  - rewriting cloud URLs into GDAL virtual paths (COG) or public HTTPS URLs
    (CSV);
  - the `s3://bucket/path` split;
  - the order in which the COG, CSV and GeoPackage loaders hand candidate
    URIs to QGIS until one opens.
- **Layer builders** (`layer_builder.dfy`). This covers:
  - the closed five-point ring of a bounding box;
  - the tile features, one per item whose bbox has at least four values, with their
    attribute records;
  - the single extent feature.

  Both builders fill a `MemoryLayer` class in place, as the code fills the
  QGIS memory layer's data provider.

Shared pieces:

- `json_data.dfy` holds the JSON value, with objects kept as ordered key/value
  sequences. It also holds Python's presence-based `dict.get`, truthiness,
  `or`, and `d[k] = v`, which overwrites in place or appends.
- `strings.dfy` holds the string operations that the code uses: `startswith`,
  `in`, `replace` (every occurrence), ASCII `lower()`, the last-slash split,
  and decimal rendering for `asset_{i}`.

Several things are parameters of the model rather than definitions in it:

- `render: Json -> string` stands for Python's `str()` of a JSON value.
- `opens(provider, uri)` stands for QGIS accepting a layer.
- `count(uri)` stands for a delimited-text layer's feature count.
- `valid(uri)` stands for a memory layer being valid.

Inputs that would make Python raise (a dict where a list is iterated, say)
are excluded by shape preconditions rather than modelled as exceptions.

The code differs from the project's written description in a few points, and
the model follows the code in each:

- STAC detection needs a *truthy* `stac_version`, not merely a present one.
- `find_distribution_file` has only its three substring rules.
- The GeoCroissant `get_assets` keeps every distribution entry, whatever its
  `@type`.
- The CSV loader downloads nothing to a temporary file. Its coordinate field
  candidates are exactly `[x_field, lon, lng, x, long]` × `[y_field, lat, y]`.
- The parser does not consult the detector.
- The S3 split follows the regular expression exactly. The path group stops
  at the first line break, because `.` does not match one, so it is not the
  whole remainder when the URL contains a newline.

## Model

| member | source | states |
|---|---|---|
| JsonData.Lookup | core/geocroissant_parser.py:31-33 | `dict.get` finds a key exactly when it is present, and returns the value of its first occurrence |
| JsonData.Elements | core/geocroissant_parser.py:112 | `for x in v` visits as many values as `len(v)`: none for a falsy container, the elements of a list, and strings for a string or a dict |
| JsonData.Put | core/geocroissant_parser.py:127-130 | `item[k] = v` makes `k` map to `v` and leaves every other key's value alone. An existing key keeps its position; a new key is appended last |
| JsonData.RekeyedHasKey | core/geocroissant_parser.py:133-137 | every renamed key of the source dict is present in the rebuilt dict |
| JsonData.RekeyedKeySource | core/geocroissant_parser.py:133-137 | every key of the rebuilt dict is the new name of some key of the source dict |
| JsonData.RekeyedLastWins | core/geocroissant_parser.py:133-137 | when several keys get the same new name, the value of the last of them is kept |
| JsonData.LookupAppend | core/geocroissant_parser.py:31-33 | a key of the earlier part of a dict shadows the same key later on |
| Strings.Contains | core/geocroissant_parser.py:176-181 | `sub in s` holds exactly when `sub` occurs at some index of `s` |
| Strings.ReplaceAllAbsent | core/data_loader.py:48 | `replace` changes nothing when the pattern does not occur |
| Strings.ReplaceAllKeepsPrefix | core/data_loader.py:60 | a prefix in which no occurrence can start passes through `replace` unchanged |
| Strings.ReplaceAllChar | core/metadata_detector.py:279 | replacing one character by another keeps the length and substitutes exactly at the matching positions |
| Strings.Lower | core/geocroissant_parser.py:172-181 | lower-casing keeps the length |
| Strings.UpToLastSlash | core/geocroissant_parser.py:116-121 | the text up to and including the last `/` is a prefix that ends in `/`, with no `/` after it. It is empty exactly when there is no `/` |
| Strings.AfterLastSlash | core/geocroissant_parser.py:135 | the segment after the last `/` contains no `/`, and prefix plus segment rebuild the key |
| Strings.NatToString | core/metadata_detector.py:300 | decimal rendering is non-empty, all digits, with no leading zero |
| Strings.NatToStringInjective | core/metadata_detector.py:300 | distinct numbers render differently |
| MetadataDetector.DetectIsFirstMarked | core/metadata_detector.py:36-58 | detection is total and picks the first format, in precedence order CMR, STAC, GeoCroissant, generic, whose marker test holds |
| MetadataDetector.DetectIgnoresOtherKeys | core/metadata_detector.py:36-58 | keys other than the marker keys never change the detected format |
| MetadataDetector.CmrWinsOverAnyKeys | core/metadata_detector.py:43-44 | a document with both `umm` and `meta` is CMR-UMM whatever other keys it holds |
| MetadataDetector.NewDetector | core/metadata_detector.py:27-34 | the format is computed once, at construction, from the document |
| MetadataDetector.FirstPresent | core/metadata_detector.py:64-82 | a presence-based chain yields the value of the first key present, even a falsy one, and the default when none is present |
| MetadataDetector.GetName | core/metadata_detector.py:64-82 | the name follows each format's chain of keys and ends in "Unknown Dataset" |
| MetadataDetector.GetDescription | core/metadata_detector.py:84-93 | the description is a truthy value from the format's keys, else "" |
| MetadataDetector.CmrPoints | core/metadata_detector.py:101-111 | the CMR boundary points are those of the first polygon, each a dict with numeric coordinates |
| MetadataDetector.Coords | core/metadata_detector.py:112-113 | one coordinate per point, with a missing coordinate read as 0 |
| MetadataDetector.Min | core/metadata_detector.py:113-118 | `min` returns an element no greater than any other |
| MetadataDetector.Max | core/metadata_detector.py:113-118 | `max` returns an element no smaller than any other |
| MetadataDetector.CmrExtent | core/metadata_detector.py:101-120 | the CMR extent exists exactly when there are points. West ≤ east and south ≤ north; every point lies inside the extent, and each edge is attained by some point |
| MetadataDetector.BboxExtent | core/metadata_detector.py:122-140 | a positional bbox gives an extent exactly when it is truthy with at least four entries, and then the edges are its first four entries in order |
| MetadataDetector.GetSpatialExtent | core/metadata_detector.py:95-142 | each format reads its own source of the extent, and a generic document has none |
| MetadataDetector.DateRange | core/metadata_detector.py:150-167 | the `{start, end}` dict exists exactly when either side is truthy, and a falsy side becomes "" |
| MetadataDetector.GetTemporalExtent | core/metadata_detector.py:144-176 | the temporal extent is None or truthy. CMR and STAC give a date range, GeoCroissant gives its raw truthy extent, generic gives None |
| MetadataDetector.FirstAttributeValueIsFirstHit | core/metadata_detector.py:184-190 | the scan finds nothing exactly when no attribute has the name with non-empty values. Otherwise it returns the first value of the earliest such attribute. It holds whenever the scan raises nothing: only the attributes up to the hit must be dicts, and only the hit's values must be indexable |
| MetadataDetector.ScanStopsAtHit | core/metadata_detector.py:184-188 | once a value is found, anything appended after the attributes, dicts or not, leaves the scan safe and its result unchanged |
| MetadataDetector.ScanAttributes | core/metadata_detector.py:184-188 | the loop with its early return computes that first hit |
| MetadataDetector.GetCrs | core/metadata_detector.py:178-195 | the CRS is EPSG:4326 for STAC and generic documents. For CMR it is the first `HORIZONTAL_CS_CODE` value, or that default |
| MetadataDetector.GetSpatialResolution | core/metadata_detector.py:197-213 | the resolution is None for STAC and generic documents. For CMR it is the first `SPATIAL_RESOLUTION` value rendered with " m" |
| MetadataDetector.CmrLinks | core/metadata_detector.py:227-234 | CMR download links are at most as many as the related URLs |
| MetadataDetector.CmrLinksConcat | core/metadata_detector.py:227-234 | the links of a concatenation are the links of each part, so document order is kept |
| MetadataDetector.CmrLinksSingle | core/metadata_detector.py:228-234 | a related URL is kept exactly when its type contains "GET DATA" or "DOWNLOAD" |
| MetadataDetector.FileLinks | core/metadata_detector.py:238-247 | GeoCroissant links are at most as many as the distribution entries |
| MetadataDetector.FileLinksConcat | core/metadata_detector.py:240-246 | file links of a concatenation are the links of each part, so document order is kept |
| MetadataDetector.GetDownloadUrls | core/metadata_detector.py:215-249 | the appending loops compute the filtered link lists |
| MetadataDetector.ReportedLabels | core/metadata_detector.py:277-279 | each reported caption is its attribute name with every `_` replaced by a space |
| MetadataDetector.CaptionOf | core/metadata_detector.py:279 | a caption that agrees character by character with the name, `_` read as a space, is that name's `replace` |
| MetadataDetector.AttributeDictKeys | core/metadata_detector.py:275 | the dict's keys are exactly the attribute names that occur |
| MetadataDetector.AttributeDictLastWins | core/metadata_detector.py:275 | a name maps to the values of its last occurrence |
| MetadataDetector.AttributeItems | core/metadata_detector.py:277-279 | there is at most one line per reported key |
| MetadataDetector.AttributeItemsLines | core/metadata_detector.py:277-279 | every line is the caption and rendered first value of a key that is in the dict with non-empty values. Every such key gets its line |
| MetadataDetector.ReportedItemsOf | core/metadata_detector.py:274-279 | there are at most four reported lines. A line is shown for a reported key exactly when the key is in the attribute dict with non-empty values, and it holds the caption and `str` of the first value |
| MetadataDetector.CmrHeader | core/metadata_detector.py:263-265 | the CMR header has three lines, starting with "Provider" |
| MetadataDetector.ReportedItems | core/metadata_detector.py:274-279 | the loop over the reported keys computes the reported lines |
| MetadataDetector.CmrMetadataItems | core/metadata_detector.py:259-279 | the CMR lines are the header, then the dates when a temporal extent exists, then the reported attributes |
| MetadataDetector.GetMetadataItems | core/metadata_detector.py:251-286 | CMR yields 3 to 9 lines, starting with Provider. GeoCroissant yields exactly 3, and STAC and generic documents yield none |
| MetadataDetector.CmrAssetsOf | core/metadata_detector.py:296-304 | one CMR asset per download link |
| MetadataDetector.StacAssetsOf | core/metadata_detector.py:306-315 | one STAC asset per entry of `assets` |
| MetadataDetector.DistributionAssetsOf | core/metadata_detector.py:317-326 | one asset per distribution entry |
| MetadataDetector.CmrAssets | core/metadata_detector.py:297-304 | the enumerate loop numbers assets `asset_0`, `asset_1`, … and each carries its link's URL |
| MetadataDetector.StacAssets | core/metadata_detector.py:307-315 | each STAC asset's id is its key in `assets`, in dict order |
| MetadataDetector.DistributionAssets | core/metadata_detector.py:318-326 | the loop yields one asset per distribution entry, whatever its type |
| MetadataDetector.GetAssets | core/metadata_detector.py:288-328 | the asset count matches the download links (CMR), the `assets` entries (STAC) or the distribution entries (GeoCroissant). A generic document has none |
| MetadataDetector.CmrAssetIdsDistinct | core/metadata_detector.py:300 | CMR asset ids are pairwise distinct |
| GeoCroissantParser.AccessorDefaults | core/geocroissant_parser.py:31-72 | every accessor returns its fixed default when its key is absent |
| GeoCroissantParser.PresentKeyWins | core/geocroissant_parser.py:31-72 | a present key wins over the default even when its value is falsy |
| GeoCroissantParser.GetBoundingBox | core/geocroissant_parser.py:47-56 | the result is not None exactly when the box is truthy with at least four entries. It then has exactly four entries, equal to the box's first four |
| GeoCroissantParser.OfType | core/geocroissant_parser.py:74-90 | the filter keeps exactly the entries whose `@type` is the given type |
| GeoCroissantParser.OfTypeConcat | core/geocroissant_parser.py:74-90 | the filter keeps document order |
| GeoCroissantParser.FilesAndFileSetsDisjoint | core/geocroissant_parser.py:74-90 | no entry is both a file object and a file set |
| GeoCroissantParser.FieldPrefix | core/geocroissant_parser.py:112-121 | the prefix is the first field's string `@id` up to its last `/`. It is "" when `field` is falsy (absent, null, empty), when the id has no `/`, or when the id is a list or dict without "/" |
| GeoCroissantParser.KnownItem | core/geocroissant_parser.py:127-130 | the known-key item is empty exactly when the row has none of the prefixed keys |
| GeoCroissantParser.KnownItemLookup | core/geocroissant_parser.py:127-130 | a key is in the item exactly when it is a known key the row has under the prefix, with the row's value |
| GeoCroissantParser.StrippedItemKeys | core/geocroissant_parser.py:133-137 | the fallback item's keys are exactly the row keys' last segments, and a later key with the same segment wins |
| GeoCroissantParser.ItemOfEmpty | core/geocroissant_parser.py:127-140 | a row yields an empty item exactly when the row is empty |
| GeoCroissantParser.BuiltItems | core/geocroissant_parser.py:123-140 | one built item per row |
| GeoCroissantParser.NonEmpty | core/geocroissant_parser.py:139-140 | exactly the non-empty items are kept |
| GeoCroissantParser.NonEmptyConcat | core/geocroissant_parser.py:139-140 | keeping non-empty items preserves order |
| GeoCroissantParser.RowItemsConcat | core/geocroissant_parser.py:123-140 | items of later rows come after items of earlier rows |
| GeoCroissantParser.NonEmptyRows | core/geocroissant_parser.py:123-140 | non-empty rows are at most all rows |
| GeoCroissantParser.RowItemsCount | core/geocroissant_parser.py:123-140 | there is exactly one item per non-empty row |
| GeoCroissantParser.ItemsAtMostRows | core/geocroissant_parser.py:100-142 | there are never more items than rows |
| GeoCroissantParser.BuildItem | core/geocroissant_parser.py:125-137 | the per-row loops build the row's item |
| GeoCroissantParser.ComputePrefix | core/geocroissant_parser.py:116-121 | the prefix computation agrees with the prefix definition |
| GeoCroissantParser.CollectRowItems | core/geocroissant_parser.py:123-140 | the row loop collects the non-empty items in row order |
| GeoCroissantParser.GetItems | core/geocroissant_parser.py:100-142 | the nested loops collect all items, record set by record set |
| GeoCroissantParser.GetItemCount | core/geocroissant_parser.py:144-146 | the count is the number of items and at most the number of rows |
| GeoCroissantParser.FindFileIsFirstMatch | core/geocroissant_parser.py:156-183 | nothing is found exactly when no file matches (item id in the id, name or URL, and the lower-cased type in one of them lower-cased); otherwise the result is the first matching file in scan order |
| GeoCroissantParser.FindDistributionFile | core/geocroissant_parser.py:156-183 | the scan with its early return yields the first matching file object |
| GeoCroissantParser.FoundIsFileObject | core/geocroissant_parser.py:156-183 | a found file is a distribution entry whose `@type` is `cr:FileObject` |
| ParserFixture.SampleBoundingBox | tests/test_parser.py:117-123 | the sample's bounding box is its four values |
| ParserFixture.SampleItems | tests/test_parser.py:145-153 | the sample yields two items, and the first has id "tile_001" |
| ParserFixture.SampleFirstItem | tests/test_parser.py:145-150 | the first row's item has id "tile_001" |
| ParserFixture.TwoRowItems | core/geocroissant_parser.py:123-140 | two non-empty rows give exactly their two items, in order |
| ParserFixture.SampleShaped | tests/test_parser.py:63-80 | the sample's record set is well shaped, with prefix "items/" |
| DataLoader.S3SplitSound | core/data_loader.py:80-83 | a match splits the URL into `s3://`, a non-empty bucket without `/`, `/`, and a non-empty path without line breaks, followed by nothing or a line break |
| DataLoader.S3SplitComplete | core/data_loader.py:80-83 | every URL of that form matches and gives back its bucket and path |
| DataLoader.CogConvertPrefix | core/data_loader.py:39-64 | `s3://` becomes `/vsis3/` and `gs://` becomes `/vsigs/`, with the same `replace` applied to the rest. `az://` and `abfs://` become `/vsiaz/`, with both replaces applied to the rest in order. HTTP forms get `/vsicurl/` before the whole URL, and anything else is unchanged |
| DataLoader.AbfsSurvivesAz | core/data_loader.py:58-60 | an `abfs://` URL keeps its scheme through the `az://` replacement and ends up under `/vsiaz/` |
| DataLoader.CogConvertIdempotent | core/data_loader.py:39-64 | converting twice is the same as converting once |
| DataLoader.NewCogLoader | core/data_loader.py:28-37 | the loader keeps the original URL and its conversion |
| DataLoader.CogLoad | core/data_loader.py:66-91 | at most two attempts. The retry, with the public HTTPS form, happens exactly when the first fails and the original is a splittable `s3://` URL. A layer is returned exactly when the last attempt opens |
| DataLoader.CsvConvertHttps | core/data_loader.py:132-153 | S3 URLs become the public HTTPS form when they split. Otherwise they become `https://` followed by the rest of the URL with every later `s3://` replaced too. GCS URLs become the Google storage host followed by the rest of the URL with every later `gs://` replaced too. Other URLs are unchanged |
| DataLoader.CsvConvertIdempotent | core/data_loader.py:132-153 | converting twice is the same as converting once |
| DataLoader.NewCsvLoader | core/data_loader.py:108-130 | the loader keeps its fields and the converted URL |
| DataLoader.CsvCandidates | core/data_loader.py:163-176 | there are 15 candidates |
| DataLoader.CsvCandidateOrder | core/data_loader.py:166-176 | candidate 3i+j pairs the i-th x field with the j-th y field: x outer, y inner |
| DataLoader.CsvLoad | core/data_loader.py:155-190 | the candidates are tried in order until one opens with features, and every earlier one was rejected. When none succeeds, the geometry-less fallback is the 16th attempt and is kept only if it opens |
| DataLoader.GeoPackageUri | core/data_loader.py:220-223 | the URI starts with the URL and adds `\|layername=<table>` exactly when a non-empty table name is given |
| DataLoader.GeoPackageLoad | core/data_loader.py:214-230 | a layer is returned exactly when the OGR URI opens |
| LayerBuilder.Ring | core/layer_builder.py:84-94 | a ring has five points and is closed |
| LayerBuilder.RingCoordinates | core/layer_builder.py:84-94 | the ring's x-coordinates are exactly {west, east} and its y-coordinates exactly {south, north} |
| LayerBuilder.RingRecoversBox | core/layer_builder.py:84-94 | for an ordered box every vertex lies within it, and its south-west and north-east corners are vertices, so min/max recover the box |
| LayerBuilder.TileFeature | core/layer_builder.py:81-108 | a tile feature's attributes fit the seven fields. They are the id, the datetime, the rendered assets and the first four bbox values, over a closed ring |
| LayerBuilder.TileFeatures | core/layer_builder.py:76-109 | at most one feature per item, each aligned with the fields |
| LayerBuilder.TileFeaturesConcat | core/layer_builder.py:76-109 | items are drawn independently and in order |
| LayerBuilder.TileFeaturesSingle | core/layer_builder.py:77-79 | an item yields one feature when its bbox has at least four values, none otherwise |
| LayerBuilder.TileFeaturesCount | core/layer_builder.py:76-109 | there is exactly one feature per item whose bbox has at least four values |
| LayerBuilder.CollectTileFeatures | core/layer_builder.py:75-109 | the loop with `continue` builds those features |
| LayerBuilder.CreateTileLayer | core/layer_builder.py:46-117 | the memory layer is named `<dataset>_tiles` and holds the seven fields and the tile features. There is no layer exactly when QGIS rejects it |
| LayerBuilder.BboxFeature | core/layer_builder.py:183-213 | the extent feature's attributes are the dataset name and the first four values, over their ring |
| LayerBuilder.BboxFeatureIgnoresExtra | core/layer_builder.py:183-188 | values after the fourth do not matter |
| LayerBuilder.CreateBboxLayer | core/layer_builder.py:154-221 | there is no layer exactly when the bbox has fewer than four values or QGIS rejects the layer. Otherwise the layer is `<dataset>_extent` with five fields and one feature |
| LayerBuilder.MemoryLayer.AddAttributes | core/layer_builder.py:71 | declared fields are appended and features are untouched |
| LayerBuilder.MemoryLayer.AddFeatures | core/layer_builder.py:111 | features are appended and fields are untouched |

## Left out

- Reading the document from disk and decoding JSON (`GeoCroissantParser._load`). The model takes the parsed document as a value.
- `get_format`. It is the `format` field of the detector value.
- `to_dict`. It returns the document unchanged.
- QGIS itself. Layer construction, `isValid()` and `featureCount()` are the oracles `opens`, `valid` and `count`. They see only the provider and URI, not the layer name.
- `updateFields` and `updateExtents`. The extent follows from the features.
- The styling in `_apply_style`. It only sets colours and line widths.
- Python `str()` rendering of JSON values and f-strings of values (the assets text, `"<v> m"`). These use the uninterpreted `render` function.
- Exceptions on ill-typed documents. The shape predicates exclude inputs on which the modelled code raises. For the attribute scans, the metadata lines and the item prefix they exclude exactly those inputs; elsewhere they may exclude more, as the lines below say. The attribute scans (`ScanSafe`) need dicts only up to the first hit, and indexable values only at the hit. The metadata lines (`ReportedShaped`) need every attribute to be a dict with a hashable name, and indexable values only for reported keys. The item prefix (`PrefixSafe`) accepts any falsy `field`. `JsonData.Elements` gives `for` over a string or a dict; it is used for the attribute list, the record sets and the rows.
- Iterating a string or dict elsewhere (distribution entries, related URLs, polygons, STAC assets). The model requires a list there. The layer builder also requires tile bboxes to be lists whose first four entries are numbers when there are four.
- MetadataDetector.CmrPoints / PointShaped: coordinates must be numbers or absent. Python's `min`/`max` also accepts mutually comparable non-numbers (all strings, or bools mixed with numbers) and any single value, since a one-element `min` compares nothing.
- Documents with a repeated key. A decoded JSON object has distinct keys, and `Lookup` reads the first entry for a key. The model does not enforce distinct keys in `Fields`.
- MetadataDetector.AttributeDict: Python merges names it treats as the same key (`1`, `1.0` and `true`), while the map keeps them apart. Only string names are ever looked up.
- Floating point. Coordinates are exact reals, and only copying and min/max happen to them.
- Strings.Lower: lower-cases ASCII letters only, because Python's full Unicode case mapping is not modelled.
- GeoCroissantParser.FindDistributionFile: requires `@id`, `name` and `contentUrl` to be strings or absent in every file object. Python evaluates the substring tests lazily and may never read a later field.
- The unit test of `find_distribution_file` is not restated as a lemma about the sample document. Only the bounding-box and item tests are.
- The temporary file of the unit tests. It is I/O.
