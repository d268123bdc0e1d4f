/**
 * The data loaders' string logic: rewriting cloud URLs into GDAL virtual paths
 * or public HTTPS URLs, splitting `s3://bucket/path`, and the order in which
 * the loaders hand candidate URIs to QGIS until one opens.
 *
 * QGIS is not part of the model. Whether a layer opens is an oracle
 * `opens(provider, uri)` and a delimited-text layer's feature count is an
 * oracle `count(uri)`; every load also reports the URIs it handed to QGIS,
 * in order (`tried`), which is how the attempts are made visible.
 */
module DataLoader {
  import opened Wrappers
  import opened Strings

  /** A layer QGIS opened: the URI it was given, its display name and its data provider. */
  datatype Layer = Layer(uri: string, name: string, provider: string)

  // ---------------------------------------------------------------- s3 split

  /** The groups of `s3://([^/]+)/(.+)`. */
  datatype S3Parts = S3Parts(bucket: string, path: string)

  /** The longest prefix of `s` without `c`. */
  function TakeUntil(s: string, c: char): (r: string)
    ensures StartsWith(s, r)
    ensures forall j :: 0 <= j < |r| ==> r[j] != c
    ensures r == s || s[|r|] == c
    decreases |s|
  {
    if s == [] || s[0] == c then [] else [s[0]] + TakeUntil(s[1..], c)
  }

  /**
   * `re.match(r"s3://([^/]+)/(.+)", url)`: the bucket is the run of characters
   * up to the first slash after the scheme and must be non-empty; the path is
   * the run after that slash up to the first line break (`.` does not match a
   * line break) and must be non-empty. The match is anchored at the start only.
   */
  function S3Split(url: string): Option<S3Parts> {
    if StartsWith(url, "s3://") then SplitBucketPath(url[5..]) else None
  }

  /** The two groups, matched against what follows the scheme. */
  function SplitBucketPath(rest: string): Option<S3Parts> {
    var bucket := TakeUntil(rest, '/');
    if bucket == [] || bucket == rest then None
    else
      var path := TakeUntil(rest[|bucket| + 1..], '\n');
      if path == [] then None else Some(S3Parts(bucket, path))
  }

  /** A bucket and path the pattern can capture. */
  predicate GoodParts(p: S3Parts) {
    && p.bucket != [] && (forall j :: 0 <= j < |p.bucket| ==> p.bucket[j] != '/')
    && p.path != [] && (forall j :: 0 <= j < |p.path| ==> p.path[j] != '\n')
  }

  /** What follows the captured path: nothing, or a line break. */
  predicate PathEnds(tail: string) {
    tail == [] || tail[0] == '\n'
  }

  /** The URL an `s3://` match is read from: scheme, bucket, slash, path and what follows. */
  function S3Url(p: S3Parts, tail: string): string {
    "s3://" + (p.bucket + "/" + p.path + tail)
  }

  /** A match splits the URL into scheme, bucket, slash, path and a tail the path stops at. */
  lemma S3SplitSound(url: string)
    requires S3Split(url).Some?
    ensures var p := S3Split(url).value;
      GoodParts(p) && exists tail :: PathEnds(tail) && url == S3Url(p, tail)
  {
    var p := S3Split(url).value;
    var tail := SplitBucketPathSound(url[5..]);
    assert url == "s3://" + url[5..];
    assert url == S3Url(p, tail);
  }

  lemma SplitBucketPathSound(rest: string) returns (tail: string)
    requires SplitBucketPath(rest).Some?
    ensures var p := SplitBucketPath(rest).value;
      GoodParts(p) && PathEnds(tail) && rest == p.bucket + "/" + p.path + tail
  {
    var p := SplitBucketPath(rest).value;
    var after := rest[|p.bucket| + 1..];
    assert rest == p.bucket + "/" + after;
    tail := after[|p.path|..];
    assert after == p.path + tail;
  }

  /** Every URL of that form is matched, and the groups are recovered. */
  lemma S3SplitComplete(p: S3Parts, tail: string)
    requires GoodParts(p) && PathEnds(tail)
    ensures S3Split(S3Url(p, tail)) == Some(p)
  {
    var rest := p.bucket + "/" + p.path + tail;
    assert S3Url(p, tail)[5..] == rest;
    SplitBucketPathComplete(p, tail);
  }

  lemma SplitBucketPathComplete(p: S3Parts, tail: string)
    requires GoodParts(p) && PathEnds(tail)
    ensures SplitBucketPath(p.bucket + "/" + p.path + tail) == Some(p)
  {
    var after := p.path + tail;
    var rest := p.bucket + "/" + p.path + tail;
    assert rest == p.bucket + ("/" + after);
    TakeUntilPrefix(p.bucket, "/" + after, '/');
    assert rest[|p.bucket| + 1..] == after;
    TakeUntilPrefix(p.path, tail, '\n');
  }

  /** `TakeUntil` stops exactly at a run without `c` followed by `c` or the end. */
  lemma {:induction false} TakeUntilPrefix(r: string, tail: string, c: char)
    requires forall j :: 0 <= j < |r| ==> r[j] != c
    requires tail == [] || tail[0] == c
    ensures TakeUntil(r + tail, c) == r
    decreases |r|
  {
    if r != [] {
      assert (r + tail)[1..] == r[1..] + tail;
      TakeUntilPrefix(r[1..], tail, c);
      assert r == [r[0]] + r[1..];
    } else {
      assert r + tail == tail;
    }
  }

  /** `f"https://{bucket}.s3.amazonaws.com/{path}"` */
  function PublicS3Url(p: S3Parts): string {
    "https://" + p.bucket + ".s3.amazonaws.com/" + p.path
  }

  // ---------------------------------------------------------------- COG

  /** The URL schemes the COG loader rewrites. */
  predicate CogScheme(url: string) {
    StartsWith(url, "s3://") || StartsWith(url, "http://") || StartsWith(url, "https://")
    || StartsWith(url, "gs://") || StartsWith(url, "az://") || StartsWith(url, "abfs://")
  }

  /** The COG loader's URL conversion, first matching scheme wins; `replace` rewrites every occurrence. */
  function ConvertCogUrl(url: string): string {
    if StartsWith(url, "s3://") then ReplaceAll(url, "s3://", "/vsis3/")
    else if StartsWith(url, "http://") || StartsWith(url, "https://") then "/vsicurl/" + url
    else if StartsWith(url, "gs://") then ReplaceAll(url, "gs://", "/vsigs/")
    else if StartsWith(url, "az://") || StartsWith(url, "abfs://") then
      ReplaceAll(ReplaceAll(url, "az://", "/vsiaz/"), "abfs://", "/vsiaz/")
    else url
  }

  /** A string that starts with a slash starts with no scheme. */
  lemma SlashIsNoScheme(s: string)
    requires s != [] && s[0] == '/'
    ensures !CogScheme(s) && !StartsWith(s, "s3://") && !StartsWith(s, "gs://")
  {
  }

  /**
   * Each recognised scheme is replaced by its GDAL prefix, the rest of the URL
   * going through the same replace-all calls (the HTTP forms keep the whole
   * URL); anything else is returned unchanged.
   */
  lemma CogConvertPrefix(url: string)
    ensures StartsWith(url, "s3://") ==>
      ConvertCogUrl(url) == "/vsis3/" + ReplaceAll(url[5..], "s3://", "/vsis3/")
    ensures !StartsWith(url, "s3://") && (StartsWith(url, "http://") || StartsWith(url, "https://")) ==>
      ConvertCogUrl(url) == "/vsicurl/" + url
    ensures StartsWith(url, "gs://") ==>
      ConvertCogUrl(url) == "/vsigs/" + ReplaceAll(url[5..], "gs://", "/vsigs/")
    ensures StartsWith(url, "az://") ==>
      ConvertCogUrl(url) == "/vsiaz/" + ReplaceAll(ReplaceAll(url[5..], "az://", "/vsiaz/"), "abfs://", "/vsiaz/")
    ensures StartsWith(url, "abfs://") ==>
      ConvertCogUrl(url) == "/vsiaz/" + ReplaceAll(ReplaceAll(url[7..], "az://", "/vsiaz/"), "abfs://", "/vsiaz/")
    ensures !CogScheme(url) ==> ConvertCogUrl(url) == url
    ensures CogScheme(url) ==> ConvertCogUrl(url) != [] && ConvertCogUrl(url)[0] == '/'
  {
    if StartsWith(url, "s3://") {
      ReplaceAllLeading(url, "s3://", "/vsis3/");
      assert !StartsWith(url, "gs://") && !StartsWith(url, "az://") && !StartsWith(url, "abfs://") by {
        assert url[0] == 's';
      }
    } else if StartsWith(url, "http://") || StartsWith(url, "https://") {
      assert !StartsWith(url, "gs://") && !StartsWith(url, "az://") && !StartsWith(url, "abfs://") by {
        assert url[0] == 'h';
      }
    } else if StartsWith(url, "gs://") {
      ReplaceAllLeading(url, "gs://", "/vsigs/");
      assert !StartsWith(url, "az://") && !StartsWith(url, "abfs://") by {
        assert url[0] == 'g';
      }
    } else if StartsWith(url, "az://") {
      assert !StartsWith(url, "abfs://") by {
        assert url[1] == 'z';
      }
      ReplaceAllLeading(url, "az://", "/vsiaz/");
      VsiazKeepsAbfs(ReplaceAll(url[5..], "az://", "/vsiaz/"));
    } else if StartsWith(url, "abfs://") {
      AbfsSurvivesAz(url);
      VsiazKeepsAbfs(ReplaceAll(url[7..], "az://", "/vsiaz/"));
    }
  }

  /** No `abfs://` can start inside the prefix `/vsiaz/`. */
  lemma VsiazKeepsAbfs(rest: string)
    ensures ReplaceAll("/vsiaz/" + rest, "abfs://", "/vsiaz/") == "/vsiaz/" + ReplaceAll(rest, "abfs://", "/vsiaz/")
  {
    var p := "/vsiaz/";
    forall i | 0 <= i < |p| ensures !StartsWith(p[i..] + rest, "abfs://") {
      assert (p[i..] + rest)[0] == p[i];
      if i == 4 { assert (p[i..] + rest)[1] == 'z'; }
    }
    ReplaceAllKeepsPrefix(p, rest, "abfs://", "/vsiaz/");
  }

  /** An `abfs://` URL keeps its scheme through the `az://` replacement and ends up under `/vsiaz/`. */
  lemma AbfsSurvivesAz(url: string)
    requires StartsWith(url, "abfs://")
    ensures ReplaceAll(url, "az://", "/vsiaz/") == "abfs://" + ReplaceAll(url[7..], "az://", "/vsiaz/")
    ensures StartsWith(ReplaceAll(ReplaceAll(url, "az://", "/vsiaz/"), "abfs://", "/vsiaz/"), "/vsiaz/")
  {
    var p, rest := url[..7], url[7..];
    assert p == "abfs://" && url == p + rest;
    forall i | 0 <= i < |p| ensures !StartsWith(p[i..] + rest, "az://") {
      assert (p[i..] + rest)[0] == p[i];
      if i == 0 { assert (p + rest)[1] == 'b'; }
    }
    ReplaceAllKeepsPrefix(p, rest, "az://", "/vsiaz/");
    var once := ReplaceAll(url, "az://", "/vsiaz/");
    assert StartsWith(once, "abfs://");
    ReplaceAllLeading(once, "abfs://", "/vsiaz/");
  }

  /** Converting twice is converting once: every rewritten URL starts with a slash, which no branch matches. */
  lemma CogConvertIdempotent(url: string)
    ensures ConvertCogUrl(ConvertCogUrl(url)) == ConvertCogUrl(url)
  {
    CogConvertPrefix(url);
    var once := ConvertCogUrl(url);
    if CogScheme(url) {
      SlashIsNoScheme(once);
      CogConvertPrefix(once);
    }
  }

  /** A COG loader as constructed: the original URL, its conversion and the layer name. */
  datatype CogLoader = CogLoader(originalUrl: string, url: string, layerName: string)

  function NewCogLoader(url: string, layerName: string): (l: CogLoader)
    ensures l.originalUrl == url && l.url == ConvertCogUrl(url) && l.layerName == layerName
  {
    CogLoader(url, ConvertCogUrl(url), layerName)
  }

  /** `get_gdal_path` */
  function GdalPath(l: CogLoader): string {
    l.url
  }

  /** The retry URI: an `s3://` URL that splits is tried again through its public HTTPS form. */
  function CogRetry(l: CogLoader): Option<string> {
    if StartsWith(l.originalUrl, "s3://") then
      match S3Split(l.originalUrl)
      case Some(p) => Some("/vsicurl/" + PublicS3Url(p))
      case None => None
    else None
  }

  /**
   * Loading a COG: the converted URL first, then the retry URI if there is one.
   * The first URI that opens gives the layer; `tried` lists the URIs handed to QGIS.
   */
  method CogLoad(l: CogLoader, opens: (string, string) -> bool) returns (layer: Option<Layer>, tried: seq<string>)
    ensures 1 <= |tried| <= 2 && tried[0] == l.url
    ensures |tried| == 2 <==> !opens("gdal", l.url) && CogRetry(l).Some?
    ensures |tried| == 2 ==> tried[1] == CogRetry(l).value
    ensures layer.Some? <==> opens("gdal", tried[|tried| - 1])
    ensures layer.Some? ==> layer.value == Layer(tried[|tried| - 1], l.layerName, "gdal")
  {
    tried := [l.url];
    if opens("gdal", l.url) {
      return Some(Layer(l.url, l.layerName, "gdal")), tried;
    }
    if StartsWith(l.originalUrl, "s3://") {
      var bucketMatch := S3Split(l.originalUrl);
      if bucketMatch.Some? {
        var altUrl := "/vsicurl/" + PublicS3Url(bucketMatch.value);
        tried := tried + [altUrl];
        if opens("gdal", altUrl) {
          return Some(Layer(altUrl, l.layerName, "gdal")), tried;
        }
      }
    }
    return None, tried;
  }

  // ---------------------------------------------------------------- CSV

  /** The CSV loader's URL conversion: S3 and GCS become public HTTPS URLs. */
  function ConvertCsvUrl(url: string): string {
    if StartsWith(url, "s3://") then
      match S3Split(url)
      case Some(p) => PublicS3Url(p)
      case None => ReplaceAll(url, "s3://", "https://")
    else if StartsWith(url, "gs://") then ReplaceAll(url, "gs://", "https://storage.googleapis.com/")
    else url
  }

  /** Every rewritten CSV URL is an HTTPS URL; anything else is unchanged. */
  lemma CsvConvertHttps(url: string)
    ensures StartsWith(url, "s3://") && S3Split(url).Some? ==> ConvertCsvUrl(url) == PublicS3Url(S3Split(url).value)
    ensures StartsWith(url, "s3://") ==> StartsWith(ConvertCsvUrl(url), "https://")
    ensures StartsWith(url, "s3://") && S3Split(url).None? ==>
      ConvertCsvUrl(url) == "https://" + ReplaceAll(url[5..], "s3://", "https://")
    ensures StartsWith(url, "gs://") ==> StartsWith(ConvertCsvUrl(url), "https://storage.googleapis.com/")
    ensures StartsWith(url, "gs://") ==>
      ConvertCsvUrl(url) == "https://storage.googleapis.com/" + ReplaceAll(url[5..], "gs://", "https://storage.googleapis.com/")
    ensures !StartsWith(url, "s3://") && !StartsWith(url, "gs://") ==> ConvertCsvUrl(url) == url
  {
    if StartsWith(url, "s3://") {
      if S3Split(url).None? {
        ReplaceAllLeading(url, "s3://", "https://");
      } else {
        var r := PublicS3Url(S3Split(url).value);
        assert r[..8] == "https://";
      }
    } else if StartsWith(url, "gs://") {
      ReplaceAllLeading(url, "gs://", "https://storage.googleapis.com/");
      var r := ConvertCsvUrl(url);
      assert r[..8] == "https://storage.googleapis.com/"[..8];
    }
  }

  /** Converting twice is converting once: an HTTPS URL is left alone. */
  lemma CsvConvertIdempotent(url: string)
    ensures ConvertCsvUrl(ConvertCsvUrl(url)) == ConvertCsvUrl(url)
  {
    CsvConvertHttps(url);
    var once := ConvertCsvUrl(url);
    if StartsWith(url, "s3://") || StartsWith(url, "gs://") {
      assert StartsWith(once, "https://");
      assert once[0] == 'h';
      assert !StartsWith(once, "s3://") && !StartsWith(once, "gs://");
    }
  }

  /** A CSV loader as constructed. */
  datatype CsvLoader = CsvLoader(originalUrl: string, url: string, layerName: string,
                                 xField: string, yField: string, crs: string)

  function NewCsvLoader(url: string, layerName: string, xField: string, yField: string, crs: string): (l: CsvLoader)
    ensures l.originalUrl == url && l.url == ConvertCsvUrl(url)
    ensures l.layerName == layerName && l.xField == xField && l.yField == yField && l.crs == crs
  {
    CsvLoader(url, ConvertCsvUrl(url), layerName, xField, yField, crs)
  }

  function XFields(l: CsvLoader): seq<string> { [l.xField, "lon", "lng", "x", "long"] }
  function YFields(l: CsvLoader): seq<string> { [l.yField, "lat", "y"] }

  /** The delimited-text URI for one pair of coordinate fields. */
  function CsvUri(url: string, x: string, y: string, crs: string): string {
    url + "?type=csv&xField=" + x + "&yField=" + y + "&crs=" + crs
    + "&spatialIndex=yes&subsetIndex=no&watchFile=no"
  }

  /** The fallback URI, without geometry. */
  function CsvFallbackUri(l: CsvLoader): string {
    l.url + "?type=csv&geomType=none"
  }

  /** The 15 point-layer URIs in the order they are tried: x field outer, y field inner. */
  function CsvCandidates(l: CsvLoader): (r: seq<string>)
    ensures |r| == |XFields(l)| * |YFields(l)| == 15
  {
    seq(15, k requires 0 <= k < 15 => CsvUri(l.url, XFields(l)[k / 3], YFields(l)[k % 3], l.crs))
  }

  /** Candidate `3 * i + j` pairs the i-th x field with the j-th y field. */
  lemma CsvCandidateOrder(l: CsvLoader, i: nat, j: nat)
    requires i < 5 && j < 3
    ensures CsvCandidates(l)[3 * i + j] == CsvUri(l.url, XFields(l)[i], YFields(l)[j], l.crs)
  {
    assert (3 * i + j) / 3 == i && (3 * i + j) % 3 == j;
  }

  /** A point layer is accepted when it opens and has at least one feature. */
  predicate PointLayerOk(opens: (string, string) -> bool, count: string -> nat, uri: string) {
    opens("delimitedtext", uri) && count(uri) > 0
  }

  /** No URI among the first `n` is accepted as a point layer. */
  predicate NoneAccepted(uris: seq<string>, n: nat, opens: (string, string) -> bool, count: string -> nat)
    requires n <= |uris|
  {
    forall k :: 0 <= k < n ==> !PointLayerOk(opens, count, uris[k])
  }

  /** Adding a rejected URI to a rejected run keeps it rejected. */
  lemma RejectedSnoc(uris: seq<string>, u: string, opens: (string, string) -> bool, count: string -> nat)
    requires NoneAccepted(uris, |uris|, opens, count) && !PointLayerOk(opens, count, u)
    ensures NoneAccepted(uris + [u], |uris| + 1, opens, count)
  {
    assert forall k :: 0 <= k < |uris| ==> (uris + [u])[k] == uris[k];
  }

  /**
   * Loading a CSV: the first candidate that opens with features wins; if none
   * does, the geometry-less fallback is tried, and kept if it opens.
   */
  method CsvLoad(l: CsvLoader, opens: (string, string) -> bool, count: string -> nat)
    returns (layer: Option<Layer>, tried: seq<string>)
    ensures 1 <= |tried| <= 16
    ensures tried[..|tried| - 1] == CsvCandidates(l)[..|tried| - 1]
    ensures NoneAccepted(tried, |tried| - 1, opens, count)
    ensures |tried| <= 15 ==>
      && tried[|tried| - 1] == CsvCandidates(l)[|tried| - 1]
      && PointLayerOk(opens, count, tried[|tried| - 1])
      && layer == Some(Layer(tried[|tried| - 1], l.layerName, "delimitedtext"))
    ensures |tried| == 16 ==>
      && tried[15] == CsvFallbackUri(l)
      && layer == (if opens("delimitedtext", CsvFallbackUri(l))
                   then Some(Layer(CsvFallbackUri(l), l.layerName, "delimitedtext")) else None)
  {
    var xFields := XFields(l);
    var yFields := YFields(l);
    ghost var cands := CsvCandidates(l);
    tried := [];
    for i := 0 to |xFields|
      invariant tried == cands[..3 * i]
      invariant NoneAccepted(tried, |tried|, opens, count)
    {
      for j := 0 to |yFields|
        invariant tried == cands[..3 * i + j]
        invariant NoneAccepted(tried, |tried|, opens, count)
      {
        var uri := CsvUri(l.url, xFields[i], yFields[j], l.crs);
        CsvCandidateOrder(l, i, j);
        assert cands[..3 * i + j + 1] == tried + [uri];
        if opens("delimitedtext", uri) && count(uri) > 0 {
          return Some(Layer(uri, l.layerName, "delimitedtext")), tried + [uri];
        }
        RejectedSnoc(tried, uri, opens, count);
        tried := tried + [uri];
      }
    }
    var uri := CsvFallbackUri(l);
    tried := tried + [uri];
    if opens("delimitedtext", uri) {
      return Some(Layer(uri, l.layerName, "delimitedtext")), tried;
    }
    return None, tried;
  }

  // ---------------------------------------------------------------- GeoPackage

  /** A GeoPackage loader as constructed; the table name is optional. */
  datatype GeoPackageLoader = GeoPackageLoader(url: string, layerName: string, tableName: Option<string>)

  /** `if self.table_name:` holds for a non-empty name. */
  predicate HasTable(l: GeoPackageLoader) {
    l.tableName.Some? && l.tableName.value != []
  }

  /** The OGR URI: the URL, with `|layername=<table>` appended when a table is named. */
  function GeoPackageUri(l: GeoPackageLoader): (uri: string)
    ensures StartsWith(uri, l.url)
    ensures HasTable(l) ==> uri[|l.url|..] == "|layername=" + l.tableName.value
    ensures !HasTable(l) ==> uri == l.url
  {
    if HasTable(l) then l.url + "|layername=" + l.tableName.value else l.url
  }

  method GeoPackageLoad(l: GeoPackageLoader, opens: (string, string) -> bool) returns (layer: Option<Layer>)
    ensures layer.Some? <==> opens("ogr", GeoPackageUri(l))
    ensures layer.Some? ==> layer.value == Layer(GeoPackageUri(l), l.layerName, "ogr")
  {
    var uri;
    if HasTable(l) {
      uri := l.url + "|layername=" + l.tableName.value;
    } else {
      uri := l.url;
    }
    if opens("ogr", uri) {
      return Some(Layer(uri, l.layerName, "ogr"));
    }
    return None;
  }
}
