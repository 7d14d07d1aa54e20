/**
 * `wms_getmap`: one GetMap request per (layer, tile) pair, layer-major,
 * each a copy of a shared payload with the tile's box, size and layer.
 * Payloads are insertion-ordered dictionaries of strings.  The CRS object,
 * the reprojection and the rounding of coordinates to text are inputs.
 */
module Wms {
  import opened Wrappers
  import opened Text
  import opened Paths
  import opened Exceptions
  import opened Tiling
  import opened RequestKey
  import opened Downloads

  /** An insertion-ordered dictionary from names to values. */
  type Params = seq<(string, string)>

  datatype LayersArg = OneLayer(name: string) | LayerList(names: seq<string>)

  datatype KwargsArg = NoKwargs | DictKwargs(items: Params) | OtherKwargs

  /** What the service's CRS reports: `to_string()` and `is_geographic`. */
  datatype Crs = Crs(name: string, geographic: bool)

  /**
   * The arguments handed to the streaming downloader: `url` once per
   * payload, each payload as `{"params": payload}`, the root directory, the
   * file extension and the number of workers.
   */
  datatype DownloadArgs = DownloadArgs(url: string, payloads: seq<Params>, rootDir: Path, ext: string, nJobs: int)
  {
    function Urls(): seq<string>
    {
      seq(|payloads|, _ => url)
    }

    function KwdsList(): (r: seq<Kwds>)
      ensures |r| == |payloads|
      ensures forall i :: 0 <= i < |r| ==> r[i] == map["params" := Mapping(payloads[i])]
    {
      seq(|payloads|, k requires 0 <= k < |payloads| => map["params" := Mapping(payloads[k])])
    }
  }

  const LegacyVersion := "1.1.1"

  function Keys(d: Params): (r: seq<string>)
    ensures |r| == |d|
  {
    seq(|d|, i requires 0 <= i < |d| => d[i].0)
  }

  /** `d.get(k)`: the value of the first entry named `k`. */
  function Get(d: Params, k: string): (r: Option<string>)
    ensures r.None? <==> k !in Keys(d)
  {
    if |d| == 0 then None
    else
      assert Keys(d) == [d[0].0] + Keys(d[1..]);
      if d[0].0 == k then Some(d[0].1) else Get(d[1..], k)
  }

  /** `d[k] = v`: overwrite the entry in place, or append a new one. */
  function Set(d: Params, k: string, v: string): (r: Params)
    ensures Get(r, k) == Some(v)
    ensures forall k' :: k' != k ==> Get(r, k') == Get(d, k')
    ensures Keys(r) == if k in Keys(d) then Keys(d) else Keys(d) + [k]
  {
    if |d| == 0 then
      ConsFacts((k, v), []);
      [(k, v)]
    else
      assert d == [d[0]] + d[1..];
      if d[0].0 == k then
        SetFront(d[0], d[1..], v);
        [(k, v)] + d[1..]
      else
        var rest := Set(d[1..], k, v);
        SetBehind(d[0], d[1..], rest, k, v);
        [d[0]] + rest
  }

  /** Setting the key of the first entry overwrites that entry. */
  lemma SetFront(h: (string, string), t: Params, v: string)
    ensures Get([(h.0, v)] + t, h.0) == Some(v)
    ensures forall k' :: k' != h.0 ==> Get([(h.0, v)] + t, k') == Get([h] + t, k')
    ensures Keys([(h.0, v)] + t) == Keys([h] + t) && h.0 in Keys([h] + t)
  {
    ConsFacts((h.0, v), t);
    ConsFacts(h, t);
  }

  /** Setting a key other than the first entry's works on the rest. */
  lemma SetBehind(h: (string, string), t: Params, rest: Params, k: string, v: string)
    requires h.0 != k
    requires Get(rest, k) == Some(v)
    requires forall k' :: k' != k ==> Get(rest, k') == Get(t, k')
    requires Keys(rest) == if k in Keys(t) then Keys(t) else Keys(t) + [k]
    ensures Get([h] + rest, k) == Some(v)
    ensures forall k' :: k' != k ==> Get([h] + rest, k') == Get([h] + t, k')
    ensures Keys([h] + rest) == if k in Keys([h] + t) then Keys([h] + t) else Keys([h] + t) + [k]
  {
    ConsFacts(h, rest);
    ConsFacts(h, t);
    if k !in Keys(t) {
      assert [h.0] + (Keys(t) + [k]) == ([h.0] + Keys(t)) + [k];
    }
  }

  /** How `Keys` and `Get` see an entry put in front of a dictionary. */
  lemma ConsFacts(h: (string, string), t: Params)
    ensures Keys([h] + t) == [h.0] + Keys(t)
    ensures forall k :: Get([h] + t, k) == if h.0 == k then Some(h.1) else Get(t, k)
  {
    var c := [h] + t;
    assert c[0] == h && c[1..] == t;
    assert Keys(c) == [h.0] + Keys(t);
  }

  /** `d.update(items)`: set each item in turn. */
  function Update(d: Params, items: Params): Params
    decreases |items|
  {
    if |items| == 0 then d else Update(Set(d, items[0].0, items[0].1), items[1..])
  }

  /** The value the last entry named `k` carries. */
  function LastValue(items: Params, k: string): Option<string>
  {
    if |items| == 0 then None
    else if items[|items| - 1].0 == k then Some(items[|items| - 1].1)
    else LastValue(items[..|items| - 1], k)
  }

  lemma {:induction false} UpdateGet(d: Params, items: Params, k: string)
    ensures Get(Update(d, items), k) == if LastValue(items, k).Some? then LastValue(items, k) else Get(d, k)
    decreases |items|
  {
    if |items| > 0 {
      UpdateGet(Set(d, items[0].0, items[0].1), items[1..], k);
      LastValueCons(items, k);
    }
  }

  lemma {:induction false} LastValueCons(items: Params, k: string)
    requires |items| > 0
    ensures LastValue(items, k) ==
      if LastValue(items[1..], k).Some? then LastValue(items[1..], k)
      else if items[0].0 == k then Some(items[0].1) else None
    decreases |items|
  {
    if |items| > 1 {
      assert items[1..][..|items[1..]| - 1] == items[..|items| - 1][1..];
      LastValueCons(items[..|items| - 1], k);
    } else {
      assert items[1..] == [];
    }
  }

  /**
   * `payload.update(kwargs)` keeps dictionary semantics: after it, a name
   * has the value the last update item gave it, or its old value when no
   * item names it.
   */
  lemma UpdateSemantics(d: Params, items: Params)
    ensures forall k :: Get(Update(d, items), k) == (if LastValue(items, k).Some? then LastValue(items, k) else Get(d, k))
  {
    forall k {
      UpdateGet(d, items, k);
    }
  }

  /** The name of the CRS entry: `srs` for WMS 1.1.1, `crs` otherwise. */
  function CrsKey(version: string): string
  {
    if version == LegacyVersion then "srs" else "crs"
  }

  /** The payload every request starts from: version, format, request, the extra keywords and the CRS. */
  function BasePayload(version: string, outFormat: string, kwargs: Params, crs: Crs): Params
  {
    Set(Update(DefaultPayload(version, outFormat), kwargs), CrsKey(version), Lower(crs.name))
  }

  function DefaultPayload(version: string, outFormat: string): Params
  {
    [("version", version), ("format", outFormat), ("request", "GetMap")]
  }

  /**
   * The shared payload built in place: the three defaults, then each extra
   * keyword assigned in turn, then the CRS entry under the version's key.
   */
  method BuildPayload(version: string, outFormat: string, kwargs: Params, crs: Crs) returns (p: Params)
    ensures p == BasePayload(version, outFormat, kwargs, crs)
  {
    p := DefaultPayload(version, outFormat);
    var i := 0;
    while i < |kwargs|
      invariant 0 <= i <= |kwargs|
      invariant Update(p, kwargs[i..]) == Update(DefaultPayload(version, outFormat), kwargs)
    {
      assert kwargs[i..][1..] == kwargs[i + 1..];
      p := Set(p, kwargs[i].0, kwargs[i].1);
      i := i + 1;
    }
    assert kwargs[i..] == [];
    p := Set(p, CrsKey(version), Lower(crs.name));
  }

  /** The base payload: the CRS entry wins, the extra keywords override the three defaults. */
  lemma BasePayloadFields(version: string, outFormat: string, kwargs: Params, crs: Crs)
    ensures var p := BasePayload(version, outFormat, kwargs, crs);
      Get(p, CrsKey(version)) == Some(Lower(crs.name)) &&
      Get(p, "version") == (if LastValue(kwargs, "version").Some? then LastValue(kwargs, "version") else Some(version)) &&
      Get(p, "format") == (if LastValue(kwargs, "format").Some? then LastValue(kwargs, "format") else Some(outFormat)) &&
      Get(p, "request") == (if LastValue(kwargs, "request").Some? then LastValue(kwargs, "request") else Some("GetMap"))
  {
    var base := DefaultPayload(version, outFormat);
    DefaultPayloadFields(version, outFormat);
    UpdateGet(base, kwargs, "version");
    UpdateGet(base, kwargs, "format");
    UpdateGet(base, kwargs, "request");
    assert CrsKey(version) != "version" && CrsKey(version) != "format" && CrsKey(version) != "request";
  }

  lemma DefaultPayloadFields(version: string, outFormat: string)
    ensures var base := DefaultPayload(version, outFormat);
      Get(base, "version") == Some(version) && Get(base, "format") == Some(outFormat) &&
      Get(base, "request") == Some("GetMap")
  {
    var base := DefaultPayload(version, outFormat);
    assert base[1..] == [("format", outFormat), ("request", "GetMap")];
    assert base[1..][1..] == [("request", "GetMap")];
    assert Get(base[1..][1..], "request") == Some("GetMap");
  }

  /** Whether the box goes out as (south, west, north, east). */
  predicate SwapAxes(version: string, crs: Crs, alwaysXY: bool)
  {
    version != LegacyVersion && crs.geographic && !alwaysXY
  }

  function RequestBox(version: string, crs: Crs, alwaysXY: bool, b: Box): (r: Box)
  {
    if SwapAxes(version, crs, alwaysXY) then Box(b.south, b.west, b.north, b.east) else b
  }

  /** The axis swap is its own inverse. */
  lemma RequestBoxInvolutive(version: string, crs: Crs, alwaysXY: bool, b: Box)
    ensures RequestBox(version, crs, alwaysXY, RequestBox(version, crs, alwaysXY, b)) == b
    ensures !SwapAxes(version, crs, alwaysXY) ==> RequestBox(version, crs, alwaysXY, b) == b
  {
  }

  function BoxText(b: Box, fmt: real -> string): string
  {
    Join([fmt(b.west), fmt(b.south), fmt(b.east), fmt(b.north)], ",")
  }

  /** The payload of one (layer, tile) request. */
  function TilePayload(base: Params, version: string, crs: Crs, alwaysXY: bool, fmt: real -> string,
                       layer: string, t: Tile): Params
  {
    var p1 := Set(base, "bbox", BoxText(RequestBox(version, crs, alwaysXY, t.box), fmt));
    var p2 := Set(p1, "width", IntToString(t.width));
    var p3 := Set(p2, "height", IntToString(t.height));
    Set(p3, "layers", layer)
  }

  /** A tile payload carries the tile's box, size and layer, and the base payload's other entries. */
  lemma TilePayloadFields(base: Params, version: string, crs: Crs, alwaysXY: bool, fmt: real -> string,
                          layer: string, t: Tile)
    ensures var p := TilePayload(base, version, crs, alwaysXY, fmt, layer, t);
      Get(p, "bbox") == Some(BoxText(RequestBox(version, crs, alwaysXY, t.box), fmt)) &&
      Get(p, "width") == Some(IntToString(t.width)) &&
      Get(p, "height") == Some(IntToString(t.height)) &&
      Get(p, "layers") == Some(layer) &&
      forall k :: k !in ["bbox", "width", "height", "layers"] ==> Get(p, k) == Get(base, k)
  {
    TileEntries(base, BoxText(RequestBox(version, crs, alwaysXY, t.box), fmt), IntToString(t.width),
      IntToString(t.height), layer);
  }

  /** The four tile entries set one after the other, whatever their values. */
  lemma TileEntries(base: Params, box: string, width: string, height: string, layer: string)
    ensures var p := Set(Set(Set(Set(base, "bbox", box), "width", width), "height", height), "layers", layer);
      Get(p, "bbox") == Some(box) && Get(p, "width") == Some(width) &&
      Get(p, "height") == Some(height) && Get(p, "layers") == Some(layer) &&
      forall k :: k !in ["bbox", "width", "height", "layers"] ==> Get(p, k) == Get(base, k)
  {
    var p1 := Set(base, "bbox", box);
    var p2 := Set(p1, "width", width);
    var p3 := Set(p2, "height", height);
    var p := Set(p3, "layers", layer);
    assert "bbox" != "width" && "bbox" != "height" && "bbox" != "layers";
    assert "width" != "height" && "width" != "layers" && "height" != "layers";
    forall k | k !in ["bbox", "width", "height", "layers"] ensures Get(p, k) == Get(base, k) {
      assert k != "bbox" && k != "width" && k != "height" && k != "layers";
    }
  }

  function Flatten<T>(ss: seq<seq<T>>): seq<T>
  {
    if |ss| == 0 then [] else Flatten(ss[..|ss| - 1]) + ss[|ss| - 1]
  }

  /** Entry `ti` of row `li` in a row-major table whose rows have `w` entries. */
  function Slot(li: nat, ti: nat, w: nat): nat
  {
    li * w + ti
  }

  lemma SlotIsRowStart(li: nat, ti: nat, w: nat)
    ensures Slot(li, ti, w) == RowStart(li, w) + ti
  {
    RowStartIsProduct(li, w);
  }

  /** Where row `a` starts when every row has `w` entries: `a * w`, by repeated addition. */
  function RowStart(a: nat, w: nat): nat
  {
    if a == 0 then 0 else RowStart(a - 1, w) + w
  }

  lemma {:induction false} RowStartIsProduct(a: nat, w: nat)
    ensures RowStart(a, w) == a * w
  {
    if a > 0 {
      RowStartIsProduct(a - 1, w);
      assert (a - 1) * w + w == a * w;
    }
  }

  lemma {:induction false} RowStartMonotone(a: nat, b: nat, w: nat)
    requires a <= b
    ensures RowStart(a, w) <= RowStart(b, w)
    decreases b
  {
    if a < b {
      RowStartMonotone(a, b - 1, w);
    }
  }

  lemma {:induction false} FlattenLength<T>(ss: seq<seq<T>>, w: nat)
    requires forall i :: 0 <= i < |ss| ==> |ss[i]| == w
    ensures |Flatten(ss)| == RowStart(|ss|, w)
  {
    if |ss| > 0 {
      FlattenLength(ss[..|ss| - 1], w);
    }
  }

  lemma {:induction false} FlattenIndex<T>(ss: seq<seq<T>>, w: nat, a: nat, b: nat)
    requires forall i :: 0 <= i < |ss| ==> |ss[i]| == w
    requires a < |ss| && b < w
    ensures RowStart(a, w) + b < |Flatten(ss)|
    ensures Flatten(ss)[RowStart(a, w) + b] == ss[a][b]
  {
    var init := ss[..|ss| - 1];
    FlattenLength(ss, w);
    FlattenLength(init, w);
    if a < |ss| - 1 {
      RowStartMonotone(a + 1, |ss| - 1, w);
      FlattenIndex(init, w, a, b);
    }
  }

  /** Entry `b` of row `a` of equal rows of `w` entries sits at `Slot(a, b, w)` of the flattened rows. */
  lemma FlattenSlot<T>(ss: seq<seq<T>>, n: nat, w: nat, a: nat, b: nat)
    requires |ss| == n && forall i :: 0 <= i < n ==> |ss[i]| == w
    requires a < n && b < w
    ensures |Flatten(ss)| == n * w
    ensures Slot(a, b, w) < |Flatten(ss)| && Flatten(ss)[Slot(a, b, w)] == ss[a][b]
  {
    FlattenIndex(ss, w, a, b);
    FlattenLength(ss, w);
    SlotIsRowStart(a, b, w);
    RowStartIsProduct(n, w);
  }

  /** `itertools.product(layers, bounds)` mapped to payloads: every tile of a layer before the next layer. */
  function Payloads(base: Params, version: string, crs: Crs, alwaysXY: bool, fmt: real -> string,
                    layers: seq<string>, tiles: seq<Tile>): seq<Params>
  {
    Flatten(PayloadRows(base, version, crs, alwaysXY, fmt, layers, tiles))
  }

  /** Row `li` holds the payloads of layer `li`, one per tile. */
  function PayloadRows(base: Params, version: string, crs: Crs, alwaysXY: bool, fmt: real -> string,
                       layers: seq<string>, tiles: seq<Tile>): (r: seq<seq<Params>>)
    ensures |r| == |layers|
    ensures forall li :: 0 <= li < |r| ==> |r[li]| == |tiles|
  {
    seq(|layers|, li requires 0 <= li < |layers| =>
      seq(|tiles|, ti requires 0 <= ti < |tiles| => TilePayload(base, version, crs, alwaysXY, fmt, layers[li], tiles[ti])))
  }

  function LayerSeq(layers: LayersArg): seq<string>
  {
    match layers
    case OneLayer(n) => [n]
    case LayerList(ns) => ns
  }

  /**
   * `wms_getmap` up to the download call: decompose the reprojected box,
   * then build the requests for its tiles.
   */
  function WmsGetMap(url: string, layers: LayersArg, bbox: Box, width: int, height: int, alwaysXY: bool,
                     maxPx: int, kwargs: KwargsArg, tiffDir: Path, crs: Crs, version: string,
                     outFormat: string, reproject: Box -> Box, fmt: real -> string): Result<DownloadArgs, Error>
  {
    GetMapWith(url, LayerSeq(layers), Decomposition(reproject(bbox), width, height, maxPx), alwaysXY, kwargs,
               tiffDir, crs, version, outFormat, fmt)
  }

  /** `wms_getmap` once `bbox_decompose` has given its tiles, or its error, as `bounds`. */
  function GetMapWith(url: string, layers: seq<string>, bounds: Result<seq<Tile>, Error>, alwaysXY: bool,
                      kwargs: KwargsArg, tiffDir: Path, crs: Crs, version: string, outFormat: string,
                      fmt: real -> string): Result<DownloadArgs, Error>
  {
    if bounds.Err? then Err(bounds.error)
    else Requests(url, layers, bounds.value, alwaysXY, kwargs, tiffDir, crs, version, outFormat, fmt)
  }

  /**
   * `wms_getmap` fails exactly when the decomposition fails (with its error),
   * when `kwargs` is neither a dict nor None, or when there is no layer or
   * no tile to pair; a successful call downloads with `tiff` files under
   * `tiffDir` and four workers, in arguments the downloader accepts.
   */
  lemma WmsGetMapOutcome(url: string, layers: LayersArg, bbox: Box, width: int, height: int, alwaysXY: bool,
                         maxPx: int, kwargs: KwargsArg, tiffDir: Path, crs: Crs, version: string,
                         outFormat: string, reproject: Box -> Box, fmt: real -> string, env: Option<Path>)
    ensures var bounds := Decomposition(reproject(bbox), width, height, maxPx);
      var r := WmsGetMap(url, layers, bbox, width, height, alwaysXY, maxPx, kwargs, tiffDir, crs, version,
                         outFormat, reproject, fmt);
      && (bounds.Err? ==> r == Err(bounds.error))
      && (bounds.Ok? && kwargs.OtherKwargs? ==> r == Err(InputType("kwargs", "dict or None", None)))
      && (bounds.Ok? && !kwargs.OtherKwargs? && (|LayerSeq(layers)| == 0 || |bounds.value| == 0) ==>
            r == Err(PyValueError(UnpackError)))
      && (r.Ok? <==> bounds.Ok? && !kwargs.OtherKwargs? && |LayerSeq(layers)| > 0 && |bounds.value| > 0)
      && (r.Ok? ==> r.value.url == url && r.value.rootDir == tiffDir && r.value.ext == "tiff" && r.value.nJobs == 4)
      && (r.Ok? ==>
            var prep := PrepareRequestsArgs(ManyUrls(r.value.Urls()), Some(ManyKwds(r.value.KwdsList())), "GET", None,
                                            Some(r.value.rootDir), env, "", r.value.ext);
            prep.Ok? && prep.value.files == Derived(tiffDir, "", ".tiff"))
  {
    GetMapWithOutcome(url, LayerSeq(layers), Decomposition(reproject(bbox), width, height, maxPx), alwaysXY,
                      kwargs, tiffDir, crs, version, outFormat, fmt, env);
  }

  /** `WmsGetMapOutcome` for any outcome `bounds` of the decomposition. */
  lemma GetMapWithOutcome(url: string, layers: seq<string>, bounds: Result<seq<Tile>, Error>, alwaysXY: bool,
                          kwargs: KwargsArg, tiffDir: Path, crs: Crs, version: string, outFormat: string,
                          fmt: real -> string, env: Option<Path>)
    ensures var r := GetMapWith(url, layers, bounds, alwaysXY, kwargs, tiffDir, crs, version, outFormat, fmt);
      && (bounds.Err? ==> r == Err(bounds.error))
      && (bounds.Ok? && kwargs.OtherKwargs? ==> r == Err(InputType("kwargs", "dict or None", None)))
      && (bounds.Ok? && !kwargs.OtherKwargs? && (|layers| == 0 || |bounds.value| == 0) ==>
            r == Err(PyValueError(UnpackError)))
      && (r.Ok? <==> bounds.Ok? && !kwargs.OtherKwargs? && |layers| > 0 && |bounds.value| > 0)
      && (r.Ok? ==> r.value.url == url && r.value.rootDir == tiffDir && r.value.ext == "tiff" && r.value.nJobs == 4)
      && (r.Ok? ==>
            var prep := PrepareRequestsArgs(ManyUrls(r.value.Urls()), Some(ManyKwds(r.value.KwdsList())), "GET", None,
                                            Some(r.value.rootDir), env, "", r.value.ext);
            prep.Ok? && prep.value.files == Derived(tiffDir, "", ".tiff"))
  {
    if bounds.Ok? && !kwargs.OtherKwargs? {
      var tiles := bounds.value;
      if |layers| == 0 || |tiles| == 0 {
        RequestsEmpty(url, layers, tiles, alwaysXY, kwargs, tiffDir, crs, version, outFormat, fmt);
      } else {
        RequestsLayout(url, layers, tiles, alwaysXY, kwargs, tiffDir, crs, version, outFormat, fmt, 0, 0);
      }
      RequestsAccepted(url, layers, tiles, alwaysXY, kwargs, tiffDir, crs, version, outFormat, fmt, env);
    }
  }

  /**
   * A successful `wms_getmap` passes `|layers| * |tiles|` keyword sets, and
   * set `Slot(li, ti, |tiles|)`, that is `li * |tiles| + ti`, is
   * `{"params": payload}` for layer `li` over tile `ti`: the base payload
   * with that tile's box, size and layer.
   */
  lemma {:induction false} WmsGetMapLayout(url: string, layers: LayersArg, bbox: Box, width: int, height: int, alwaysXY: bool,
                        maxPx: int, kwargs: KwargsArg, tiffDir: Path, crs: Crs, version: string,
                        outFormat: string, reproject: Box -> Box, fmt: real -> string, li: nat, ti: nat)
    requires li < |LayerSeq(layers)|
    ensures var bounds := Decomposition(reproject(bbox), width, height, maxPx);
      var r := WmsGetMap(url, layers, bbox, width, height, alwaysXY, maxPx, kwargs, tiffDir, crs, version,
                         outFormat, reproject, fmt);
      var base := BasePayload(version, outFormat, ExtraKeywords(kwargs), crs);
      bounds.Ok? && !kwargs.OtherKwargs? && ti < |bounds.value| ==>
        && r.Ok?
        && |r.value.KwdsList()| == |LayerSeq(layers)| * |bounds.value|
        && Slot(li, ti, |bounds.value|) < |r.value.KwdsList()|
        && r.value.KwdsList()[Slot(li, ti, |bounds.value|)]
           == map["params" := Mapping(TilePayload(base, version, crs, alwaysXY, fmt, LayerSeq(layers)[li], bounds.value[ti]))]
  {
    GetMapWithLayout(url, LayerSeq(layers), Decomposition(reproject(bbox), width, height, maxPx), alwaysXY,
                     kwargs, tiffDir, crs, version, outFormat, fmt, li, ti);
  }

  /** `WmsGetMapLayout` for any outcome `bounds` of the decomposition. */
  lemma {:induction false} GetMapWithLayout(url: string, layers: seq<string>, bounds: Result<seq<Tile>, Error>, alwaysXY: bool,
                         kwargs: KwargsArg, tiffDir: Path, crs: Crs, version: string, outFormat: string,
                         fmt: real -> string, li: nat, ti: nat)
    requires li < |layers|
    ensures var r := GetMapWith(url, layers, bounds, alwaysXY, kwargs, tiffDir, crs, version, outFormat, fmt);
      bounds.Ok? && !kwargs.OtherKwargs? && ti < |bounds.value| ==>
        && r.Ok?
        && |r.value.KwdsList()| == |layers| * |bounds.value|
        && Slot(li, ti, |bounds.value|) < |r.value.KwdsList()|
        && r.value.KwdsList()[Slot(li, ti, |bounds.value|)]
           == map["params" := Mapping(TilePayload(BasePayload(version, outFormat, ExtraKeywords(kwargs), crs), version, crs, alwaysXY, fmt, layers[li], bounds.value[ti]))]
  {
    if bounds.Ok? && !kwargs.OtherKwargs? && ti < |bounds.value| {
      RequestsKwdsLayout(url, layers, bounds.value, alwaysXY, kwargs, tiffDir, crs, version, outFormat, fmt, li, ti);
    }
  }

  /** `RequestsLayout` read through the keyword sets passed to the downloader, at the product index. */
  lemma {:induction false} RequestsKwdsLayout(url: string, layers: seq<string>, tiles: seq<Tile>, alwaysXY: bool,
                                              kwargs: KwargsArg, tiffDir: Path, crs: Crs, version: string,
                                              outFormat: string, fmt: real -> string, li: nat, ti: nat)
    requires !kwargs.OtherKwargs? && li < |layers| && ti < |tiles|
    ensures var r := Requests(url, layers, tiles, alwaysXY, kwargs, tiffDir, crs, version, outFormat, fmt);
      && r.Ok?
      && |r.value.KwdsList()| == |layers| * |tiles|
      && Slot(li, ti, |tiles|) < |r.value.KwdsList()|
      && r.value.KwdsList()[Slot(li, ti, |tiles|)]
         == map["params" := Mapping(TilePayload(BasePayload(version, outFormat, ExtraKeywords(kwargs), crs), version, crs, alwaysXY, fmt, layers[li], tiles[ti]))]
  {
    RequestsLayout(url, layers, tiles, alwaysXY, kwargs, tiffDir, crs, version, outFormat, fmt, li, ti);
  }

  /**
   * The rest of `wms_getmap` once the tiles are known: check `kwargs`,
   * build the payloads, and pass one GET per payload to the downloader
   * with `tiff` files under `tiffDir` and four workers.
   */
  function Requests(url: string, layers: seq<string>, tiles: seq<Tile>, alwaysXY: bool, kwargs: KwargsArg,
                    tiffDir: Path, crs: Crs, version: string, outFormat: string, fmt: real -> string)
    : (r: Result<DownloadArgs, Error>)
    ensures kwargs.OtherKwargs? ==> r == Err(InputType("kwargs", "dict or None", None))
    ensures r.Ok? ==> r.value.url == url && r.value.rootDir == tiffDir && r.value.ext == "tiff" && r.value.nJobs == 4
    ensures r.Ok? ==> |r.value.payloads| > 0
  {
    if kwargs.OtherKwargs? then Err(InputType("kwargs", "dict or None", None))
    else
      var base := BasePayload(version, outFormat, ExtraKeywords(kwargs), crs);
      var ps := Payloads(base, version, crs, alwaysXY, fmt, layers, tiles);
      if |ps| == 0 then Err(PyValueError(UnpackError))
      else Ok(DownloadArgs(url, ps, tiffDir, "tiff", 4))
  }

  function ExtraKeywords(kwargs: KwargsArg): Params
  {
    if kwargs.DictKwargs? then kwargs.items else []
  }

  /** `Payloads` lists layer `li`'s payload for tile `ti` at `Slot(li, ti, |tiles|)`, among `|layers| * |tiles|`. */
  lemma {:induction false} PayloadsLayout(base: Params, version: string, crs: Crs, alwaysXY: bool, fmt: real -> string,
                                          layers: seq<string>, tiles: seq<Tile>, li: nat, ti: nat)
    requires li < |layers| && ti < |tiles|
    ensures var ps := Payloads(base, version, crs, alwaysXY, fmt, layers, tiles);
      |ps| == |layers| * |tiles| && Slot(li, ti, |tiles|) < |ps| &&
      ps[Slot(li, ti, |tiles|)] == TilePayload(base, version, crs, alwaysXY, fmt, layers[li], tiles[ti])
  {
    PayloadsAreRows(base, version, crs, alwaysXY, fmt, layers, tiles, li, ti);
    FlattenSlot(PayloadRows(base, version, crs, alwaysXY, fmt, layers, tiles), |layers|, |tiles|, li, ti);
  }

  lemma PayloadsAreRows(base: Params, version: string, crs: Crs, alwaysXY: bool, fmt: real -> string,
                        layers: seq<string>, tiles: seq<Tile>, li: nat, ti: nat)
    requires li < |layers| && ti < |tiles|
    ensures Payloads(base, version, crs, alwaysXY, fmt, layers, tiles)
         == Flatten(PayloadRows(base, version, crs, alwaysXY, fmt, layers, tiles))
    ensures PayloadRows(base, version, crs, alwaysXY, fmt, layers, tiles)[li][ti]
         == TilePayload(base, version, crs, alwaysXY, fmt, layers[li], tiles[ti])
  {
  }

  /**
   * Request `Slot(li, ti, |tiles|)` carries the payload of layer `li` and
   * tile `ti`; there are `|layers| * |tiles|` requests.
   */
  lemma {:induction false} RequestsLayout(url: string, layers: seq<string>, tiles: seq<Tile>, alwaysXY: bool,
                                          kwargs: KwargsArg, tiffDir: Path, crs: Crs, version: string,
                                          outFormat: string, fmt: real -> string, li: nat, ti: nat)
    requires !kwargs.OtherKwargs? && li < |layers| && ti < |tiles|
    ensures var r := Requests(url, layers, tiles, alwaysXY, kwargs, tiffDir, crs, version, outFormat, fmt);
      var base := BasePayload(version, outFormat, ExtraKeywords(kwargs), crs);
      r.Ok? && |r.value.payloads| == |layers| * |tiles| && Slot(li, ti, |tiles|) < |r.value.payloads| &&
      r.value.payloads[Slot(li, ti, |tiles|)] == TilePayload(base, version, crs, alwaysXY, fmt, layers[li], tiles[ti])
  {
    var base := BasePayload(version, outFormat, ExtraKeywords(kwargs), crs);
    PayloadsLayout(base, version, crs, alwaysXY, fmt, layers, tiles, li, ti);
  }

  /** Without layers (or tiles) there is nothing to unpack. */
  lemma RequestsEmpty(url: string, layers: seq<string>, tiles: seq<Tile>, alwaysXY: bool, kwargs: KwargsArg,
                      tiffDir: Path, crs: Crs, version: string, outFormat: string, fmt: real -> string)
    requires !kwargs.OtherKwargs? && (|layers| == 0 || |tiles| == 0)
    ensures Requests(url, layers, tiles, alwaysXY, kwargs, tiffDir, crs, version, outFormat, fmt)
         == Err(PyValueError(UnpackError))
  {
    var base := BasePayload(version, outFormat, ExtraKeywords(kwargs), crs);
    FlattenLength(PayloadRows(base, version, crs, alwaysXY, fmt, layers, tiles), |tiles|);
    RowStartIsProduct(|layers|, |tiles|);
  }

  lemma ParamsOnlyValid(ks: seq<Kwds>)
    requires forall i :: 0 <= i < |ks| ==> ks[i].Keys == {"params"}
    ensures KeysValid(ks)
  {
    assert ValidKwdsKeys[0] == "params";
  }

  /**
   * The download arguments pass the downloader's own checks: the keyword
   * names are valid, the lists have the same length, and the files are
   * named from request keys under `tiffDir` with the extension `.tiff`.
   */
  lemma RequestsAccepted(url: string, layers: seq<string>, tiles: seq<Tile>, alwaysXY: bool, kwargs: KwargsArg,
                         tiffDir: Path, crs: Crs, version: string, outFormat: string, fmt: real -> string,
                         env: Option<Path>)
    ensures var r := Requests(url, layers, tiles, alwaysXY, kwargs, tiffDir, crs, version, outFormat, fmt);
      r.Ok? ==>
        var prep := PrepareRequestsArgs(ManyUrls(r.value.Urls()), Some(ManyKwds(r.value.KwdsList())), "GET", None,
                                        Some(r.value.rootDir), env, "", r.value.ext);
        prep.Ok? && prep.value.files == Derived(tiffDir, "", ".tiff")
  {
    var r := Requests(url, layers, tiles, alwaysXY, kwargs, tiffDir, crs, version, outFormat, fmt);
    if r.Ok? {
      ArgsAccepted(r.value, env);
    }
  }

  lemma ArgsAccepted(a: DownloadArgs, env: Option<Path>)
    requires a.ext == "tiff"
    ensures var prep := PrepareRequestsArgs(ManyUrls(a.Urls()), Some(ManyKwds(a.KwdsList())), "GET", None,
                                            Some(a.rootDir), env, "", a.ext);
      prep.Ok? && prep.value.files == Derived(a.rootDir, "", ".tiff")
  {
    assert '.' !in "tiff";
    ParamsOnlyValid(a.KwdsList());
  }
}
