/**
 * SoilGrids layers: the attribute table, the validation of requested
 * layer names, how each name splits into attribute and depth, the names
 * and attributes given to each output variable, and `get_soil`'s source
 * dispatch and per-geometry loop that skips files already on disk.
 */
module Soil {
  import opened Wrappers
  import opened Text
  import opened Paths
  import opened Exceptions

  /** One entry of `SG_ATTRS`. */
  datatype SgAttr = SgAttr(key: string, description: string, longName: string, mappedUnits: string,
                           conversionFactor: nat, conventionalUnits: string)

  const SgAttrs := [
    SgAttr("bdod", "Bulk density of the fine earth fraction", "Bulk Density", "cg/cm³", 100, "kg/dm³"),
    SgAttr("cec", "Cation Exchange Capacity of the soil", "Cation Exchange Capacity", "mmol(c)/kg", 10, "cmol(c)/kg"),
    SgAttr("cfvo", "Volumetric fraction of coarse fragments (> 2 mm)", "Coarse Fragments Vol", "cm3/dm3 (vol‰)", 10,
           "cm3/100cm3 (vol%)"),
    SgAttr("clay", "Proportion of clay particles (< 0.002 mm) in the fine earth fraction", "Clay Content", "g/kg", 10,
           "g/100g (%)"),
    SgAttr("nitrogen", "Total nitrogen (N)", "Nitrogen Content", "cg/kg", 100, "g/kg"),
    SgAttr("phh2o", "Soil pH", "Ph In H2O", "pHx10", 10, "pH"),
    SgAttr("sand", "Proportion of sand particles (> 0.05 mm) in the fine earth fraction", "Sand Content", "g/kg", 10,
           "g/100g (%)"),
    SgAttr("silt", "Proportion of silt particles (≥ 0.002 mm and ≤ 0.05 mm) in the fine earth fraction", "Silt Content",
           "g/kg", 10, "g/100g (%)"),
    SgAttr("soc", "Soil organic carbon content in the fine earth fraction", "Soil Organic Carbon", "dg/kg", 10, "g/kg"),
    SgAttr("ocd", "Organic carbon density", "Organic Carbon Density", "hg/m³", 10, "kg/m³"),
    SgAttr("ocs", "Organic carbon stocks", "Organic Carbon Stock", "t/ha", 10, "kg/m²")]

  /** `valid_depths`: each depth key with the range it stands for. */
  const Depths := [("5", "0-5cm"), ("15", "5-15cm"), ("30", "15-30cm"), ("60", "30-60cm"),
                   ("100", "60-100cm"), ("200", "100-200cm")]

  /** `valid_layers`: every attribute with every depth key, attribute-major as `itertools.product` yields them. */
  function ValidLayers(): (r: seq<string>)
    ensures |r| == 66
  {
    seq(66, k requires 0 <= k < 66 => SgAttrs[k / 6].key + "_" + Depths[k % 6].0)
  }

  /** Neither an attribute key nor a depth key contains `_`. */
  lemma KeysWithoutUnderscore()
    ensures forall i :: 0 <= i < |SgAttrs| ==> '_' !in SgAttrs[i].key
    ensures forall j :: 0 <= j < |Depths| ==> '_' !in Depths[j].0
  {
    AttrKeysWithoutUnderscore();
    DepthKeysWithoutUnderscore();
  }

  lemma AttrKeysWithoutUnderscore()
    ensures forall i :: 0 <= i < |SgAttrs| ==> '_' !in SgAttrs[i].key
  {
  }

  lemma DepthKeysWithoutUnderscore()
    ensures forall j :: 0 <= j < |Depths| ==> '_' !in Depths[j].0
  {
  }

  /** Entry `6 * i + j` of the valid layers is attribute `i` with depth `j`. */
  lemma ValidLayerAt(i: nat, j: nat)
    requires i < |SgAttrs| && j < |Depths|
    ensures i * 6 + j < 66 && ValidLayers()[i * 6 + j] == SgAttrs[i].key + "_" + Depths[j].0
  {
    SplitIndex(i, j);
  }

  /** `divmod(6 * i + j, 6) == (i, j)` for a depth index `j`. */
  lemma SplitIndex(i: nat, j: nat)
    requires j < 6
    ensures (i * 6 + j) / 6 == i && (i * 6 + j) % 6 == j
  {
  }

  /**
   * The valid layers are exactly the attribute-depth combinations, and each
   * one splits on `_` back into its attribute and its depth key.
   */
  lemma ValidLayerSplit(i: nat, j: nat)
    requires i < |SgAttrs| && j < |Depths|
    ensures SgAttrs[i].key + "_" + Depths[j].0 in ValidLayers()
    ensures Split(SgAttrs[i].key + "_" + Depths[j].0, '_') == [SgAttrs[i].key, Depths[j].0]
  {
    ValidLayerAt(i, j);
    KeysWithoutUnderscore();
    SplitJoin([SgAttrs[i].key, Depths[j].0], '_');
  }

  /** Every valid layer is some attribute-depth combination. */
  lemma ValidLayerShape(layer: string)
    requires layer in ValidLayers()
    ensures exists i, j :: 0 <= i < |SgAttrs| && 0 <= j < |Depths| && layer == SgAttrs[i].key + "_" + Depths[j].0
  {
    var k :| 0 <= k < 66 && ValidLayers()[k] == layer;
    assert layer == SgAttrs[k / 6].key + "_" + Depths[k % 6].0;
  }

  /** `repr` of a list of strings. */
  function ListRepr(items: seq<string>): string
  {
    "[" + Join(seq(|items|, k requires 0 <= k < |items| => "'" + items[k] + "'"), ", ") + "]"
  }

  /** The requested layers that are not valid, in request order. */
  function Invalid(layers: seq<string>): (r: seq<string>)
    ensures forall l :: l in r <==> l in layers && l !in ValidLayers()
    ensures |r| <= |layers|
  {
    if |layers| == 0 then []
    else (if layers[0] in ValidLayers() then [] else [layers[0]]) + Invalid(layers[1..])
  }

  /** A single requested layer is listed exactly when it is not valid. */
  lemma InvalidSingle(l: string)
    ensures Invalid([l]) == if l in ValidLayers() then [] else [l]
  {
    assert [l][1..] == [];
  }

  /**
   * The filter keeps request order: the invalid layers of `a + b` are those
   * of `a` followed by those of `b`, repeats included.
   */
  lemma {:induction false} InvalidConcat(a: seq<string>, b: seq<string>)
    ensures Invalid(a + b) == Invalid(a) + Invalid(b)
  {
    if |a| == 0 {
      assert a + b == b;
    } else {
      assert (a + b)[0] == a[0];
      assert (a + b)[1..] == a[1..] + b;
      InvalidConcat(a[1..], b);
    }
  }

  /** Every occurrence of an invalid layer is listed, so a repeated request is listed as often as it repeats. */
  lemma {:induction false} InvalidKeepsRepeats(layers: seq<string>, l: string)
    requires l !in ValidLayers()
    ensures multiset(Invalid(layers))[l] == multiset(layers)[l]
  {
    if |layers| > 0 {
      assert layers == [layers[0]] + layers[1..];
      InvalidConcat([layers[0]], layers[1..]);
      InvalidSingle(layers[0]);
      InvalidKeepsRepeats(layers[1..], l);
    }
  }

  /** The output variable for one layer. */
  datatype Variable = Variable(url: string, name: string, longName: string, description: string,
                               units: string, conversionFactor: nat)

  const BaseUrl := "https://files.isric.org/soilgrids/latest/data"

  /** `_read_layer(lyr, depth)` for a depth range, without the raster work. */
  function ReadLayer(attr: SgAttr, range: string): Variable
  {
    Variable(BaseUrl + "/" + attr.key + "/" + attr.key + "_" + range + "_mean.vrt",
             attr.key + "_" + ReplaceChar(range, '-', "_") + "_mean",
             "Mean " + attr.longName + " (" + range + ")",
             attr.description, attr.conventionalUnits, attr.conversionFactor)
  }

  /** `SG_ATTRS[key]`: the first entry with that key. */
  function Lookup(attrs: seq<SgAttr>, key: string): (r: Option<SgAttr>)
    ensures r.Some? ==> r.value in attrs && r.value.key == key
    ensures r.None? ==> forall a :: a in attrs ==> a.key != key
  {
    if |attrs| == 0 then None
    else if attrs[0].key == key then Some(attrs[0])
    else Lookup(attrs[1..], key)
  }

  /** `valid_depths[key]`: the range of the first entry with that key. */
  function Range(depths: seq<(string, string)>, key: string): (r: Option<string>)
    ensures r.Some? ==> exists d :: d in depths && d.0 == key && d.1 == r.value
  {
    if |depths| == 0 then None
    else if depths[0].0 == key then Some(depths[0].1)
    else Range(depths[1..], key)
  }

  /** The variable for one layer: split at `_`, then both halves looked up. */
  function LayerVariable(layer: string): Option<Variable>
  {
    var parts := Split(layer, '_');
    var attr := Lookup(SgAttrs, parts[0]);
    var range := if |parts| > 1 then Range(Depths, parts[1]) else None;
    if attr.Some? && range.Some? then Some(ReadLayer(attr.value, range.value)) else None
  }

  /**
   * `soilgrids` up to the merge: any invalid layer raises `ValueError`
   * listing exactly the invalid ones, in order; no layer at all leaves
   * nothing for `zip(*...)` to unpack; otherwise one variable per
   * requested layer, in order.
   */
  function SoilGrids(layers: seq<string>): (r: Result<seq<Variable>, Error>)
    ensures r.Err? <==> |layers| == 0 || exists l :: l in layers && l !in ValidLayers()
    ensures (exists l :: l in layers && l !in ValidLayers()) ==>
      r == Err(PyValueError("Invalid layers: " + ListRepr(Invalid(layers))))
    ensures |layers| == 0 ==> r == Err(PyValueError(UnpackError))
    ensures r.Ok? ==> |r.value| == |layers|
    ensures r.Ok? ==> forall k :: 0 <= k < |layers| ==>
      LayerVariable(layers[k]).Some? && r.value[k] == LayerVariable(layers[k]).value
  {
    var invalid := Invalid(layers);
    if |invalid| > 0 then
      assert invalid[0] in invalid;
      Err(PyValueError("Invalid layers: " + ListRepr(invalid)))
    else if |layers| == 0 then
      Err(PyValueError(UnpackError))
    else
      assert forall k :: 0 <= k < |layers| ==> layers[k] in ValidLayers() by {
        forall k | 0 <= k < |layers| ensures layers[k] in ValidLayers() {
          assert layers[k] !in invalid;
        }
      }
      ValidLayersHaveVariables(layers);
      Ok(seq(|layers|, k requires 0 <= k < |layers| => LayerVariable(layers[k]).value))
  }

  /**
   * Variable `k` of a successful call is the one `_read_layer` builds for
   * request `k`: attribute `i` read at the range of depth `j`.
   */
  lemma SoilGridsVariable(layers: seq<string>, k: nat, i: nat, j: nat)
    requires k < |layers| && i < |SgAttrs| && j < |Depths|
    requires layers[k] == SgAttrs[i].key + "_" + Depths[j].0
    ensures SoilGrids(layers).Ok? ==> SoilGrids(layers).value[k] == ReadLayer(SgAttrs[i], Depths[j].1)
  {
    LayerVariableNaming(i, j);
  }

  /** Every valid layer names a variable. */
  lemma ValidLayerVariable(l: string)
    requires l in ValidLayers()
    ensures LayerVariable(l).Some?
  {
    ValidLayerShape(l);
    var i, j :| 0 <= i < |SgAttrs| && 0 <= j < |Depths| && l == SgAttrs[i].key + "_" + Depths[j].0;
    LayerVariableNaming(i, j);
  }

  /** With no invalid layer requested, every requested layer names a variable. */
  lemma ValidLayersHaveVariables(layers: seq<string>)
    requires forall k :: 0 <= k < |layers| ==> layers[k] in ValidLayers()
    ensures forall k :: 0 <= k < |layers| ==> LayerVariable(layers[k]).Some?
  {
    forall k | 0 <= k < |layers| ensures LayerVariable(layers[k]).Some? {
      ValidLayerVariable(layers[k]);
    }
  }

  /** A key that no earlier entry carries is looked up to its own entry. */
  lemma {:induction false} LookupFirst(attrs: seq<SgAttr>, i: nat)
    requires i < |attrs|
    requires forall a :: 0 <= a < i ==> attrs[a].key != attrs[i].key
    ensures Lookup(attrs, attrs[i].key) == Some(attrs[i])
  {
    if i > 0 {
      assert attrs[1..][i - 1] == attrs[i];
      LookupFirst(attrs[1..], i - 1);
    }
  }

  /** A depth key that no earlier entry carries is looked up to its own range. */
  lemma {:induction false} RangeFirst(depths: seq<(string, string)>, j: nat)
    requires j < |depths|
    requires forall a :: 0 <= a < j ==> depths[a].0 != depths[j].0
    ensures Range(depths, depths[j].0) == Some(depths[j].1)
  {
    if j > 0 {
      assert depths[1..][j - 1] == depths[j];
      RangeFirst(depths[1..], j - 1);
    }
  }

  /** No two attributes share a key. */
  lemma AttrKeysDistinct()
    ensures forall a, b :: 0 <= a < b < |SgAttrs| ==> SgAttrs[a].key != SgAttrs[b].key
  {
  }

  /** No two depths share a key. */
  lemma DepthKeysDistinct()
    ensures forall a, b :: 0 <= a < b < |Depths| ==> Depths[a].0 != Depths[b].0
  {
  }

  /** Attribute keys are unique, so the lookup finds the table entry itself. */
  lemma LookupFinds(i: nat)
    requires i < |SgAttrs|
    ensures Lookup(SgAttrs, SgAttrs[i].key) == Some(SgAttrs[i])
  {
    AttrKeysDistinct();
    LookupFirst(SgAttrs, i);
  }

  /** Depth keys are unique, so the lookup finds the range that belongs to the key. */
  lemma RangeFinds(j: nat)
    requires j < |Depths|
    ensures Range(Depths, Depths[j].0) == Some(Depths[j].1)
  {
    DepthKeysDistinct();
    RangeFirst(Depths, j);
  }

  /**
   * The variable for `{attr}_{d}` is named `{attr}_{range}_mean` with the
   * range's `-` turned into `_`, is read from `{attr}/{attr}_{range}_mean.vrt`,
   * and carries the attribute's long name, description and conventional units.
   */
  lemma LayerVariableNaming(i: nat, j: nat)
    requires i < |SgAttrs| && j < |Depths|
    ensures LayerVariable(SgAttrs[i].key + "_" + Depths[j].0) == Some(ReadLayer(SgAttrs[i], Depths[j].1))
  {
    ValidLayerSplit(i, j);
    LookupFinds(i);
    RangeFinds(j);
  }

  /** The first depth range with its `-` replaced by `_`. */
  lemma FirstRangeReplaced()
    ensures ReplaceChar("0-5cm", '-', "_") == "0_5cm"
  {
    var range := "0-5cm";
    assert range[1..][1..] == "5cm";
    assert ReplaceChar(range[1..], '-', "_") == "_" + ReplaceChar("5cm", '-', "_");
  }

  /** Where a layer is read from: `{base}/{attr}/{attr}_{range}_mean.vrt`. */
  lemma BdodUrl()
    ensures ReadLayer(SgAttrs[0], Depths[0].1).url == BaseUrl + "/bdod/bdod_0-5cm_mean.vrt"
  {
    var k := SgAttrs[0].key;
    assert k == "bdod" && Depths[0].1 == "0-5cm";
    UrlSuffix(BaseUrl, "bdod", "0-5cm");
    BdodSuffix();
  }

  lemma BdodSuffix()
    ensures "/" + "bdod" + "/" + "bdod" + "_" + "0-5cm" + "_mean.vrt" == "/bdod/bdod_0-5cm_mean.vrt"
  {
  }

  /** The part of a layer's address after the base. */
  lemma UrlSuffix(base: string, key: string, range: string)
    ensures base + "/" + key + "/" + key + "_" + range + "_mean.vrt"
         == base + ("/" + key + "/" + key + "_" + range + "_mean.vrt")
  {
  }

  /** The variable name replaces the range's `-` with `_`. */
  lemma BdodName()
    ensures ReadLayer(SgAttrs[0], Depths[0].1).name == "bdod_0_5cm_mean"
  {
    var k := SgAttrs[0].key;
    assert k == "bdod" && Depths[0].1 == "0-5cm";
    FirstRangeReplaced();
    assert "bdod" + "_" + "0_5cm" + "_mean" == "bdod_0_5cm_mean";
  }

  /** A concrete layer: `bdod_5` becomes `bdod_0_5cm_mean`, read from `bdod/bdod_0-5cm_mean.vrt`, in kg/dm³. */
  lemma BdodExample(layer: string)
    requires layer == "bdod_5"
    ensures LayerVariable(layer).Some?
    ensures LayerVariable(layer).value.name == "bdod_0_5cm_mean"
    ensures LayerVariable(layer).value.url == BaseUrl + "/bdod/bdod_0-5cm_mean.vrt"
    ensures LayerVariable(layer).value.units == "kg/dm³"
  {
    assert SgAttrs[0].key + "_" + Depths[0].0 == layer;
    LayerVariableNaming(0, 0);
    BdodUrl();
    BdodName();
  }

  // ----- get_soil -----

  /** The two sources `get_soil` can dispatch to. */
  datatype SoilSource = GNatsgo | SoilGridsSource

  const UnknownSource := "Unknown forcing source."

  /** The dispatch on `config.soil.source`; any other source raises `ValueError`. */
  function Dispatch(source: string): (r: Result<SoilSource, Error>)
    ensures r.Ok? <==> source == "gnatsgo" || source == "soilgrids"
    ensures r.Ok? ==> (r.value == GNatsgo <==> source == "gnatsgo")
    ensures r.Err? ==> r.error == PyValueError(UnknownSource)
  {
    if source == "gnatsgo" then Ok(GNatsgo)
    else if source == "soilgrids" then Ok(SoilGridsSource)
    else Err(PyValueError(UnknownSource))
  }

  /** The name shown while fetching. */
  function SourceName(s: SoilSource): string
  {
    match s
    case GNatsgo => "gNATSGO"
    case SoilGridsSource => "SoilGrids"
  }

  /** The output file of geometry `i`: `{source}_geom_{i}.nc` in the soil directory. */
  function GeomFile(dir: Path, source: string, i: nat): Path
  {
    Child(dir, source + "_geom_" + NatToString(i) + ".nc")
  }

  /** Different geometries write different files. */
  lemma GeomFileInjective(dir: Path, source: string, i: nat, j: nat)
    requires GeomFile(dir, source, i) == GeomFile(dir, source, j)
    ensures i == j
  {
    var a := source + "_geom_" + NatToString(i) + ".nc";
    var b := source + "_geom_" + NatToString(j) + ".nc";
    assert Child(dir, a).parts[|dir.parts|] == a;
    assert Child(dir, b).parts[|dir.parts|] == b;
    var n := |source + "_geom_"|;
    assert a[n..|a| - 3] == NatToString(i);
    assert b[n..|b| - 3] == NatToString(j);
    NatToStringInjective(i, j);
  }

  /**
   * What the fetch for one geometry gave: the NetCDF bytes, or `None` when
   * the source raised (the failure is logged and the loop moves on).
   */
  type Fetcher = (SoilSource, seq<string>, nat) -> Option<seq<byte>>

  /** One pass of the loop: an existing file is skipped, a failed fetch writes nothing. */
  function Step(fs: FileSystem, dir: Path, source: string, s: SoilSource, variables: seq<string>,
                fetch: Fetcher, i: nat): FileSystem
  {
    var f := GeomFile(dir, source, i);
    if f in fs then fs
    else match fetch(s, variables, i)
      case None => fs
      case Some(data) => fs[f := data]
  }

  /** The file system after the first `n` geometries. */
  function Fetched(fs: FileSystem, dir: Path, source: string, s: SoilSource, variables: seq<string>,
                   fetch: Fetcher, n: nat): FileSystem
  {
    if n == 0 then fs else Step(Fetched(fs, dir, source, s, variables, fetch, n - 1), dir, source, s, variables, fetch, n - 1)
  }

  /**
   * `get_soil` after the AOI is read: `count` geometries, each fetched into
   * its own file unless that file already exists.
   */
  method GetSoil(soil: Option<(string, seq<string>)>, dir: Path, count: nat, fetch: Fetcher, fs: FileSystem)
    returns (r: Result<FileSystem, Error>)
    ensures soil.None? ==> r == Ok(fs)
    ensures soil.Some? && Dispatch(soil.value.0).Err? ==> r == Err(PyValueError(UnknownSource))
    ensures soil.Some? && Dispatch(soil.value.0).Ok? ==>
      r == Ok(Fetched(fs, dir, soil.value.0, Dispatch(soil.value.0).value, soil.value.1, fetch, count))
  {
    if soil.None? {
      return Ok(fs);
    }
    var (source, variables) := soil.value;
    var s: SoilSource;
    if source == "gnatsgo" {
      s := GNatsgo;
    } else if source == "soilgrids" {
      s := SoilGridsSource;
    } else {
      return Err(PyValueError(UnknownSource));
    }
    var out := fs;
    var i := 0;
    while i < count
      invariant 0 <= i <= count
      invariant out == Fetched(fs, dir, source, s, variables, fetch, i)
    {
      var f := GeomFile(dir, source, i);
      if f !in out {
        var data := fetch(s, variables, i);
        if data.Some? {
          out := out[f := data.value];
        }
      }
      i := i + 1;
    }
    return Ok(out);
  }

  /** Files already present are never rewritten, and only geometry files appear. */
  lemma {:induction false} FetchedKeeps(fs: FileSystem, dir: Path, source: string, s: SoilSource,
                                        variables: seq<string>, fetch: Fetcher, n: nat)
    ensures var r := Fetched(fs, dir, source, s, variables, fetch, n);
      && (forall p :: p in fs ==> p in r && r[p] == fs[p])
      && (forall p :: p in r && p !in fs ==> exists i :: 0 <= i < n && p == GeomFile(dir, source, i))
  {
    if n > 0 {
      FetchedKeeps(fs, dir, source, s, variables, fetch, n - 1);
    }
  }

  /**
   * After the loop, the file of geometry `i` is the one that was already
   * there, or else the fetched data, or else still missing when the fetch failed.
   */
  lemma {:induction false} FetchedFile(fs: FileSystem, dir: Path, source: string, s: SoilSource,
                                       variables: seq<string>, fetch: Fetcher, n: nat, i: nat)
    requires i < n
    ensures var r := Fetched(fs, dir, source, s, variables, fetch, n);
      var f := GeomFile(dir, source, i);
      && (f in fs ==> f in r && r[f] == fs[f])
      && (f !in fs && fetch(s, variables, i).Some? ==> f in r && r[f] == fetch(s, variables, i).value)
      && (f !in fs && fetch(s, variables, i).None? ==> f !in r)
  {
    var f := GeomFile(dir, source, i);
    if i < n - 1 {
      FetchedFile(fs, dir, source, s, variables, fetch, n - 1, i);
      var prev := Fetched(fs, dir, source, s, variables, fetch, n - 1);
      if GeomFile(dir, source, n - 1) == f {
        GeomFileInjective(dir, source, n - 1, i);
      }
    } else {
      FetchedKeeps(fs, dir, source, s, variables, fetch, n - 1);
      var prev := Fetched(fs, dir, source, s, variables, fetch, n - 1);
      if f !in fs && f in prev {
        var k :| 0 <= k < n - 1 && f == GeomFile(dir, source, k);
        GeomFileInjective(dir, source, k, i);
      }
    }
  }

  /** Running the loop a second time with the same fetch results changes nothing. */
  lemma FetchedIdempotent(fs: FileSystem, dir: Path, source: string, s: SoilSource,
                          variables: seq<string>, fetch: Fetcher, n: nat)
    ensures var once := Fetched(fs, dir, source, s, variables, fetch, n);
      Fetched(once, dir, source, s, variables, fetch, n) == once
  {
    var once := Fetched(fs, dir, source, s, variables, fetch, n);
    FetchedKeeps(once, dir, source, s, variables, fetch, n);
    FetchedKeeps(fs, dir, source, s, variables, fetch, n);
    var twice := Fetched(once, dir, source, s, variables, fetch, n);
    forall p | p in twice ensures p in once {
      if p !in once {
        var i :| 0 <= i < n && p == GeomFile(dir, source, i);
        FetchedFile(once, dir, source, s, variables, fetch, n, i);
        FetchedFile(fs, dir, source, s, variables, fetch, n, i);
      }
    }
  }
}
