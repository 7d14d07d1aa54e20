/**
 * The configuration of a HySetter project: the validators of the `aoi`,
 * `streamflow` and `remote_rasters` sections, the directory layout that
 * `Config.__init__` derives from the project name, the order in which
 * `get_data` visits the sections, and `read_config`'s error conversion.
 */
module Configuration {
  import opened Wrappers
  import opened Text
  import opened Paths
  import opened Exceptions

  /** A list option is given when it is present and non-empty. */
  predicate GivenList<T>(o: Option<seq<T>>)
  {
    o.Some? && |o.value| > 0
  }

  /** An integer option is given when it is present and non-zero. */
  predicate GivenInt(o: Option<int>)
  {
    o.Some? && o.value != 0
  }

  /** A string option is given when it is present and non-empty. */
  predicate GivenText(o: Option<string>)
  {
    o.Some? && |o.value| > 0
  }

  /** The `aoi` section: the ways of naming the area of interest. */
  datatype Aoi = Aoi(
    hucIds: Option<seq<string>>,
    nhdv2Ids: Option<seq<int>>,
    gagesiiBasins: Option<seq<string>>,
    mainstemMain: Option<int>,
    mainstemTributaries: Option<int>,
    geometryFile: Option<string>,
    nhdv2Flowlines: bool,
    streamcatAttrs: Option<seq<string>>,
    nldiAttrs: Option<seq<string>>)

  /** The options `_check_exclusive_options` counts, in its order. */
  const AoiOptions := ["`huc_ids`", "`nhdv2_ids`", "`gagesii_basins`", "`mainstem_main`", "`geometry_file`"]

  /** Which of the counted options are given, in the order of `AoiOptions`. */
  function Provided(a: Aoi): (r: seq<string>)
    ensures |r| <= 5
  {
    (if GivenList(a.hucIds) then [AoiOptions[0]] else [])
    + (if GivenList(a.nhdv2Ids) then [AoiOptions[1]] else [])
    + (if GivenList(a.gagesiiBasins) then [AoiOptions[2]] else [])
    + (if GivenInt(a.mainstemMain) then [AoiOptions[3]] else [])
    + (if GivenText(a.geometryFile) then [AoiOptions[4]] else [])
  }

  /** The message, whose option list is all but the last option joined by `", "`, then `", or "` and the last. */
  const AoiMessage :=
    "Only one of `huc_ids`, `nhdv2_ids`, `gagesii_basins`, `mainstem_main`, or `geometry_file` must be provided."

  /** `AOI._check_exclusive_options` as written: exactly one of the five counted options. */
  function CheckAoi(a: Aoi): (r: Result<Aoi, Error>)
    ensures r.Ok? ==> r.value == a
    ensures r.Err? ==> r.error == PyValueError(AoiMessage)
  {
    if |Provided(a)| == 1 then Ok(a) else Err(PyValueError(AoiMessage))
  }

  /** The number of truthy sources among the five the validator counts. */
  function CountedSources(a: Aoi): nat
  {
    (if GivenList(a.hucIds) then 1 else 0)
    + (if GivenList(a.nhdv2Ids) then 1 else 0)
    + (if GivenList(a.gagesiiBasins) then 1 else 0)
    + (if GivenInt(a.mainstemMain) then 1 else 0)
    + (if GivenText(a.geometryFile) then 1 else 0)
  }

  /** The validator accepts exactly when one counted source is given. */
  lemma CheckAoiExactlyOne(a: Aoi)
    ensures CheckAoi(a).Ok? <==> CountedSources(a) == 1
  {
  }

  /** `mainstem_tributaries` plays no part in the validator's verdict. */
  lemma CheckAoiIgnoresTributaries(a: Aoi, t: Option<int>)
    ensures CheckAoi(a.(mainstemTributaries := t)).Ok? <==> CheckAoi(a).Ok?
  {
  }

  /** The six sources `get_aoi` knows how to use, including `mainstem_tributaries`. */
  function AllSources(a: Aoi): nat
  {
    CountedSources(a) + (if GivenInt(a.mainstemTributaries) then 1 else 0)
  }

  /** The validator as intended: exactly one of all six sources `get_aoi` dispatches on. */
  function CheckAoiIntended(a: Aoi): (r: Result<Aoi, Error>)
    ensures r.Ok? <==> AllSources(a) == 1
    ensures r.Ok? ==> r.value == a
  {
    if AllSources(a) == 1 then Ok(a) else Err(PyValueError(AoiMessage))
  }

  /** An area given only as `mainstem_tributaries` is rejected as written, accepted as intended. */
  lemma TributariesAloneRejected(t: int)
    requires t != 0
    ensures var a := Aoi(None, None, None, None, Some(t), None, false, None, None);
      CheckAoi(a).Err? && CheckAoiIntended(a).Ok?
  {
  }

  // ----- streamflow -----

  /** The fields of the `streamflow` section the validator reads and writes. */
  datatype StreamflowOptions = StreamflowOptions(frequency: string, withinAoi: bool, useCol: Option<string>)

  const FrequencyError := "Frequency must be either 'daily' or 'instantaneous'."

  predicate ValidFrequency(f: string)
  {
    f == "daily" || f == "instantaneous"
  }

  /**
   * `Streamflow._check_exclusive_options`: rejects any other frequency, and
   * a given `use_col` switches `within_aoi` off.
   */
  function CheckStreamflow(o: StreamflowOptions): Result<StreamflowOptions, Error>
  {
    if !ValidFrequency(o.frequency) then Err(PyValueError(FrequencyError))
    else if GivenText(o.useCol) then Ok(o.(withinAoi := false))
    else Ok(o)
  }

  /**
   * The check fails exactly on an unknown frequency; otherwise it keeps the
   * frequency and column and leaves `within_aoi` on only when it was on and no
   * column is given.
   */
  lemma CheckStreamflowMeaning(o: StreamflowOptions)
    ensures CheckStreamflow(o).Ok? <==> ValidFrequency(o.frequency)
    ensures var r := CheckStreamflow(o);
      r.Ok? ==> (r.value.frequency == o.frequency && r.value.useCol == o.useCol
        && (r.value.withinAoi <==> o.withinAoi && !GivenText(o.useCol)))
  {
  }

  /** Validating an already validated section changes nothing. */
  lemma CheckStreamflowIdempotent(o: StreamflowOptions)
    requires CheckStreamflow(o).Ok?
    ensures CheckStreamflow(CheckStreamflow(o).value) == CheckStreamflow(o)
  {
  }

  /** The `streamflow` section, whose validator updates `within_aoi` in place. */
  class Streamflow {
    var frequency: string
    var withinAoi: bool
    var useCol: Option<string>

    function Options(): StreamflowOptions
      reads this
    {
      StreamflowOptions(frequency, withinAoi, useCol)
    }

    constructor(frequency: string, withinAoi: bool, useCol: Option<string>)
      ensures Options() == StreamflowOptions(frequency, withinAoi, useCol)
    {
      this.frequency := frequency;
      this.withinAoi := withinAoi;
      this.useCol := useCol;
    }

    /** Runs the validator; returns the exception raised, if any. */
    method CheckExclusiveOptions() returns (err: Option<Error>)
      modifies this
      ensures err.Some? ==> CheckStreamflow(old(Options())) == Err(err.value) && Options() == old(Options())
      ensures err.None? ==> CheckStreamflow(old(Options())) == Ok(Options())
    {
      if !(frequency == "daily" || frequency == "instantaneous") {
        return Some(PyValueError(FrequencyError));
      }
      if useCol.Some? && |useCol.value| > 0 {
        withinAoi := false;
      }
      return None;
    }
  }

  // ----- remote rasters -----

  /** A value given for a field of `remote_rasters`. */
  datatype FieldValue = Str(text: string) | Flag(flag: bool) | Number(number: real) | OtherValue(typeName: string)

  const Reserved := ["crop", "geometry_buffer"]

  function TypeName(v: FieldValue): string
  {
    match v
    case Str(_) => "<class 'str'>"
    case Flag(_) => "<class 'bool'>"
    case Number(_) => "<class 'float'>"
    case OtherValue(t) => "<class '" + t + "'>"
  }

  /** `sanitize_keys` for one field: raster URLs must be strings and lose surrounding whitespace. */
  function SanitizeField(name: string, v: FieldValue): (r: Result<FieldValue, Error>)
    ensures name in Reserved ==> r == Ok(v)
    ensures name !in Reserved ==> (r.Ok? <==> v.Str?)
    ensures name !in Reserved && r.Ok? ==> r.value == Str(Strip(v.text))
  {
    if name in Reserved then Ok(v)
    else if !v.Str? then Err(PyValueError("URL must be a string, got " + TypeName(v)))
    else Ok(Str(Strip(v.text)))
  }

  /** `sanitize_keys` over every field, in order; the first failure is reported. */
  function SanitizeAll(fields: seq<(string, FieldValue)>): (r: Result<seq<(string, FieldValue)>, Error>)
    ensures r.Ok? <==> forall k :: 0 <= k < |fields| ==> SanitizeField(fields[k].0, fields[k].1).Ok?
    ensures r.Ok? ==> |r.value| == |fields|
    ensures r.Ok? ==> forall k :: 0 <= k < |fields| ==> r.value[k] == (fields[k].0, SanitizeField(fields[k].0, fields[k].1).value)
  {
    if |fields| == 0 then Ok([])
    else
      match SanitizeField(fields[0].0, fields[0].1)
      case Err(e) => Err(e)
      case Ok(v) =>
        match SanitizeAll(fields[1..])
        case Err(e) => Err(e)
        case Ok(rest) => Ok([(fields[0].0, v)] + rest)
  }

  /** The `rasters` property: every field except `crop` and `geometry_buffer`, in order. */
  function Rasters(fields: seq<(string, FieldValue)>): (r: seq<(string, FieldValue)>)
    ensures forall e :: e in r ==> e.0 !in Reserved && e in fields
    ensures |r| <= |fields|
  {
    if |fields| == 0 then []
    else (if fields[0].0 in Reserved then [] else [fields[0]]) + Rasters(fields[1..])
  }

  /** Every field that is not reserved is a raster. */
  lemma {:induction false} RastersComplete(fields: seq<(string, FieldValue)>, e: (string, FieldValue))
    requires e in fields && e.0 !in Reserved
    ensures e in Rasters(fields)
  {
    if fields[0] != e {
      RastersComplete(fields[1..], e);
    }
  }

  /** After sanitising, every raster is a string URL without surrounding whitespace. */
  lemma RastersSanitized(fields: seq<(string, FieldValue)>)
    requires SanitizeAll(fields).Ok?
    ensures forall e :: e in Rasters(SanitizeAll(fields).value) ==>
      e.1.Str? && (|e.1.text| > 0 ==> !IsSpace(e.1.text[0]) && !IsSpace(e.1.text[|e.1.text| - 1]))
  {
    var clean := SanitizeAll(fields).value;
    forall e | e in Rasters(clean)
      ensures e.1.Str? && (|e.1.text| > 0 ==> !IsSpace(e.1.text[0]) && !IsSpace(e.1.text[|e.1.text| - 1]))
    {
      var k :| 0 <= k < |clean| && clean[k] == e;
      var s := fields[k].1.text;
      StripKeepsNoEdgeSpace(s);
    }
  }

  /** `str.strip()` leaves no whitespace at either end. */
  lemma StripKeepsNoEdgeSpace(s: string)
    ensures var t := Strip(s); |t| > 0 ==> !IsSpace(t[0]) && !IsSpace(t[|t| - 1])
  {
    var l := StripLeft(s);
    var t := StripRight(l);
    if |t| > 0 {
      assert t[0] == l[0];
    }
  }

  function RasterNames(rasters: seq<(string, FieldValue)>): seq<string>
  {
    seq(|rasters|, k requires 0 <= k < |rasters| => rasters[k].0)
  }

  // ----- project layout -----

  /**
   * `Config.file_paths`. Each `FileList` of the source is represented by its
   * parent directory; every one of them starts out empty.
   */
  datatype FilePaths = FilePaths(
    project: Path,
    aoiParquet: Path,
    flowlines: Path,
    streamcatAttrs: Path,
    nldiAttrs: Path,
    forcing: Path,
    topo: Path,
    soil: Path,
    nlcd: Path,
    nid: Path,
    streamflow: Path,
    remoteRasters: seq<(string, Path)>)

  /** `Path(data_dir, name.replace(" ", "_"))`. */
  function ProjectDir(dataDir: Path, name: string): Path
  {
    Child(dataDir, ReplaceChar(name, ' ', "_"))
  }

  function Layout(dataDir: Path, name: string, rasterNames: seq<string>): FilePaths
  {
    var p := ProjectDir(dataDir, name);
    FilePaths(p, Child(p, "aoi.parquet"), Child(p, "nhdv2_flowlines"), Child(p, "streamcat_attrs"),
      Child(p, "nldi_attrs"), Child(p, "forcing"), Child(p, "topo"), Child(p, "soil"), Child(p, "nlcd"),
      Child(p, "nid"), Child(p, "streamflow"),
      seq(|rasterNames|, k requires 0 <= k < |rasterNames| => (rasterNames[k], Child(p, rasterNames[k]))))
  }

  /** The fixed entries of a layout, in declaration order. */
  function FixedPaths(fp: FilePaths): seq<Path>
  {
    [fp.aoiParquet, fp.flowlines, fp.streamcatAttrs, fp.nldiAttrs, fp.forcing, fp.topo, fp.soil,
     fp.nlcd, fp.nid, fp.streamflow]
  }

  /**
   * The project directory is the data directory joined with the name, its
   * spaces turned into underscores; every fixed entry is a distinct child of it.
   */
  lemma LayoutShape(dataDir: Path, name: string, rasterNames: seq<string>)
    requires name != ""
    ensures var fp := Layout(dataDir, name, rasterNames);
      && fp.project.parts == dataDir.parts + [ReplaceChar(name, ' ', "_")]
      && ' ' !in fp.project.parts[|fp.project.parts| - 1]
      && (forall i :: 0 <= i < 10 ==> (FixedPaths(fp)[i].parts[..|fp.project.parts|] == fp.project.parts
            && |FixedPaths(fp)[i].parts| == |fp.project.parts| + 1))
      && (forall i, j :: 0 <= i < j < 10 ==> FixedPaths(fp)[i] != FixedPaths(fp)[j])
  {
    ReplaceCharRemoves(name, ' ', '_');
    var fp := Layout(dataDir, name, rasterNames);
    assert FixedPaths(fp) == seq(10, i requires 0 <= i < 10 => Path(fp.project.parts + [FixedNames[i]]));
    FixedNamesDistinct();
    ChildrenDistinct(fp.project, FixedNames);
  }

  /** The names of the fixed entries, in declaration order. */
  const FixedNames := ["aoi.parquet", "nhdv2_flowlines", "streamcat_attrs", "nldi_attrs", "forcing", "topo",
    "soil", "nlcd", "nid", "streamflow"]

  lemma FixedNamesDistinct()
    ensures forall i, j :: 0 <= i < j < |FixedNames| ==> FixedNames[i] != FixedNames[j]
  {
  }

  /** Children with distinct names are distinct, and each sits one level beneath the parent. */
  lemma ChildrenDistinct(p: Path, names: seq<string>)
    requires forall i, j :: 0 <= i < j < |names| ==> names[i] != names[j]
    ensures forall i :: 0 <= i < |names| ==> (Path(p.parts + [names[i]]).parts[..|p.parts|] == p.parts
      && |Path(p.parts + [names[i]]).parts| == |p.parts| + 1)
    ensures forall i, j :: 0 <= i < j < |names| ==> Path(p.parts + [names[i]]) != Path(p.parts + [names[j]])
  {
    forall i, j | 0 <= i < j < |names|
      ensures Path(p.parts + [names[i]]) != Path(p.parts + [names[j]])
    {
      assert (p.parts + [names[i]])[|p.parts|] == names[i];
      assert (p.parts + [names[j]])[|p.parts|] == names[j];
    }
  }

  /** Each raster gets its own directory, named after it, beneath the project. */
  lemma LayoutRasters(dataDir: Path, name: string, rasterNames: seq<string>)
    ensures var fp := Layout(dataDir, name, rasterNames);
      |fp.remoteRasters| == |rasterNames|
      && forall k :: 0 <= k < |rasterNames| ==>
        fp.remoteRasters[k].0 == rasterNames[k] && Within(fp.remoteRasters[k].1, fp.project)
  {
    var fp := Layout(dataDir, name, rasterNames);
    forall k | 0 <= k < |rasterNames|
      ensures Within(fp.remoteRasters[k].1, fp.project)
    {
      ChildWithin(fp.project, rasterNames[k]);
    }
  }

  // ----- the configuration -----

  /**
   * The fields of a configuration file. Sections whose only checks are
   * pydantic's own type checks are represented by their presence.
   */
  datatype ConfigInput = ConfigInput(
    name: string,
    dataDir: Path,
    aoi: Aoi,
    forcing: bool,
    topo: bool,
    soil: bool,
    nlcd: bool,
    nid: bool,
    streamflow: Option<StreamflowOptions>,
    remoteRasters: Option<seq<(string, FieldValue)>>,
    overwrite: bool)

  /** A validated configuration with its derived file paths. */
  datatype Config = Config(input: ConfigInput, filePaths: FilePaths)

  /** A failing validator surfaces as pydantic's `ValidationError`. */
  function AsValidation<T>(r: Result<T, Error>): (e: Error)
    requires r.Err?
  {
    Validation(Message(r.error))
  }

  /**
   * `Config(**data)`: validates the sections in declaration order, derives
   * the layout, and with `overwrite` removes the whole project directory.
   * Returns the configuration and the file system afterwards.
   */
  function InitConfig(raw: ConfigInput, fs: FileSystem): (r: Result<(Config, FileSystem), Error>)
    ensures r.Err? ==> r.error.Validation?
  {
    var aoi := CheckAoi(raw.aoi);
    if aoi.Err? then Err(AsValidation(aoi))
    else
      var flow := if raw.streamflow.Some? then CheckStreamflow(raw.streamflow.value) else Ok(StreamflowOptions("daily", true, None));
      if flow.Err? then Err(AsValidation(flow))
      else
        var rasters := if raw.remoteRasters.Some? then SanitizeAll(raw.remoteRasters.value) else Ok([]);
        if rasters.Err? then Err(AsValidation(rasters))
        else
          var checked := raw.(streamflow := if raw.streamflow.Some? then Some(flow.value) else None,
                              remoteRasters := if raw.remoteRasters.Some? then Some(rasters.value) else None);
          var names := if raw.remoteRasters.Some? then RasterNames(Rasters(rasters.value)) else ["rasters"];
          var fp := Layout(raw.dataDir, raw.name, names);
          Ok((Config(checked, fp), if raw.overwrite then RemoveTree(fs, fp.project) else fs))
  }

  /** Building a configuration succeeds exactly when every section's validator passes. */
  lemma InitConfigSucceeds(raw: ConfigInput, fs: FileSystem)
    ensures InitConfig(raw, fs).Ok? <==>
      CheckAoi(raw.aoi).Ok?
      && (raw.streamflow.Some? ==> CheckStreamflow(raw.streamflow.value).Ok?)
      && (raw.remoteRasters.Some? ==> SanitizeAll(raw.remoteRasters.value).Ok?)
  {
  }

  /**
   * With `overwrite`, nothing beneath the project directory survives and
   * every other file is kept; without it the file system is unchanged.
   */
  lemma InitConfigOverwrite(raw: ConfigInput, fs: FileSystem)
    requires InitConfig(raw, fs).Ok?
    ensures var (c, fs') := InitConfig(raw, fs).value;
      && (!raw.overwrite ==> fs' == fs)
      && (raw.overwrite ==> ((forall p :: p in fs' ==> !Within(p, c.filePaths.project))
            && (forall p :: p in fs && !Within(p, c.filePaths.project) ==> p in fs' && fs'[p] == fs[p])))
  {
  }

  /** Without a `remote_rasters` section there is one raster directory, `rasters`. */
  lemma InitConfigDefaultRasters(raw: ConfigInput, fs: FileSystem)
    requires InitConfig(raw, fs).Ok? && raw.remoteRasters.None?
    ensures var fp := InitConfig(raw, fs).value.0.filePaths;
      fp.remoteRasters == [("rasters", Child(fp.project, "rasters"))]
  {
  }

  /** `get_data`'s steps. */
  datatype Fetch = FetchAoi | FetchForcing | FetchTopo | FetchSoil | FetchNlcd | FetchNid | FetchStreamflow | FetchRasters

  function Rank(f: Fetch): nat
  {
    match f
    case FetchAoi => 0
    case FetchForcing => 1
    case FetchTopo => 2
    case FetchSoil => 3
    case FetchNlcd => 4
    case FetchNid => 5
    case FetchStreamflow => 6
    case FetchRasters => 7
  }

  /** The steps in the order `get_data` tries them. */
  const StepOrder := [FetchAoi, FetchForcing, FetchTopo, FetchSoil, FetchNlcd, FetchNid, FetchStreamflow, FetchRasters]

  /** Whether `get_data` runs a step: the area of interest always, the others when their section is present. */
  predicate Wanted(c: ConfigInput, f: Fetch)
  {
    match f
    case FetchAoi => true
    case FetchForcing => c.forcing
    case FetchTopo => c.topo
    case FetchSoil => c.soil
    case FetchNlcd => c.nlcd
    case FetchNid => c.nid
    case FetchStreamflow => c.streamflow.Some?
    case FetchRasters => c.remoteRasters.Some?
  }

  /** The wanted steps of `steps`, in their order. */
  function Select(c: ConfigInput, steps: seq<Fetch>): seq<Fetch>
  {
    if |steps| == 0 then []
    else (if Wanted(c, steps[0]) then [steps[0]] else []) + Select(c, steps[1..])
  }

  /** A step is selected exactly when it is among the candidates and wanted. */
  lemma {:induction false} SelectMembers(c: ConfigInput, steps: seq<Fetch>, f: Fetch)
    ensures f in Select(c, steps) <==> f in steps && Wanted(c, f)
  {
    if |steps| > 0 {
      SelectMembers(c, steps[1..], f);
      assert steps == [steps[0]] + steps[1..];
    }
  }

  /** `get_data`: the area of interest first, then every present section in declaration order. */
  function DataSteps(c: ConfigInput): seq<Fetch>
  {
    Select(c, StepOrder)
  }

  /** Steps of strictly increasing rank: in order, and none twice. */
  predicate Increasing(s: seq<Fetch>)
  {
    forall i, j :: 0 <= i < j < |s| ==> Rank(s[i]) < Rank(s[j])
  }

  /** Putting a step of lower rank than all others in front keeps the ranks increasing. */
  lemma IncreasingCons(x: Fetch, rest: seq<Fetch>)
    requires Increasing(rest)
    requires forall f :: f in rest ==> Rank(x) < Rank(f)
    ensures Increasing([x] + rest)
  {
    var r := [x] + rest;
    forall i, j | 0 <= i < j < |r| ensures Rank(r[i]) < Rank(r[j]) {
      assert r[j] == rest[j - 1];
      if i > 0 {
        assert r[i] == rest[i - 1];
      }
    }
  }

  /** Selecting from steps of increasing rank keeps the ranks increasing. */
  lemma {:induction false} SelectSorted(c: ConfigInput, steps: seq<Fetch>)
    requires Increasing(steps)
    ensures Increasing(Select(c, steps))
  {
    if |steps| > 0 {
      assert Increasing(steps[1..]) by {
        assert forall i :: 0 <= i < |steps[1..]| ==> steps[1..][i] == steps[i + 1];
      }
      SelectSorted(c, steps[1..]);
      var rest := Select(c, steps[1..]);
      if Wanted(c, steps[0]) {
        forall f | f in rest ensures Rank(steps[0]) < Rank(f) {
          SelectMembers(c, steps[1..], f);
          var k :| 0 <= k < |steps[1..]| && steps[1..][k] == f;
          assert steps[k + 1] == f;
        }
        IncreasingCons(steps[0], rest);
        assert Select(c, steps) == [steps[0]] + rest;
      } else {
        assert Select(c, steps) == rest;
      }
    }
  }

  lemma StepOrderIncreasing()
    ensures Increasing(StepOrder)
    ensures forall f :: StepOrder[Rank(f)] == f
  {
    assert forall i :: 0 <= i < |StepOrder| ==> Rank(StepOrder[i]) == i;
  }

  /**
   * The area of interest is always fetched first, every other step runs
   * exactly when its section is present, and no step runs twice or out of order.
   */
  lemma DataStepsOrder(c: ConfigInput)
    ensures var s := DataSteps(c);
      && |s| > 0 && s[0] == FetchAoi
      && Increasing(s)
      && (forall f :: f in s <==> Wanted(c, f))
  {
    StepOrderIncreasing();
    SelectSorted(c, StepOrder);
    assert DataSteps(c) == [FetchAoi] + Select(c, StepOrder[1..]);
    forall f ensures f in DataSteps(c) <==> Wanted(c, f) {
      SelectMembers(c, StepOrder, f);
      assert StepOrder[Rank(f)] == f;
    }
  }

  /** The number of positional parameters the function behind a step declares. */
  function StepArity(f: Fetch): nat
  {
    if f == FetchStreamflow || f == FetchRasters then 2 else 3
  }

  /** The function `get_data` calls for a step. */
  function StepFunction(f: Fetch): string
  {
    match f
    case FetchAoi => "get_aoi"
    case FetchForcing => "get_forcing"
    case FetchTopo => "get_topo"
    case FetchSoil => "get_soil"
    case FetchNlcd => "get_nlcd"
    case FetchNid => "get_nid"
    case FetchStreamflow => "get_streamflow"
    case FetchRasters => "get_rasters"
  }

  /** What calling a three-parameter step function with two arguments raises. */
  function ArityError(f: Fetch): Error
  {
    PyTypeError(StepFunction(f) + "() missing 1 required positional argument: 'aoi_parquet'")
  }

  /**
   * Calling `steps` in order, each with two arguments (its section and the
   * configuration): the steps that ran, and the `TypeError` of the first
   * step whose function declares a third parameter, if any.
   */
  function CallSteps(steps: seq<Fetch>): (r: (seq<Fetch>, Option<Error>))
    ensures |r.0| <= |steps| && r.0 == steps[..|r.0|]
    ensures forall i :: 0 <= i < |r.0| ==> StepArity(steps[i]) == 2
    ensures r.1.None? ==> r.0 == steps
    ensures r.1.Some? ==> |r.0| < |steps| && StepArity(steps[|r.0|]) != 2 && r.1 == Some(ArityError(steps[|r.0|]))
  {
    if |steps| == 0 then ([], None)
    else if StepArity(steps[0]) != 2 then ([], Some(ArityError(steps[0])))
    else
      var rest := CallSteps(steps[1..]);
      assert [steps[0]] + rest.0 == steps[..|rest.0| + 1] by {
        assert steps[1..][..|rest.0|] == steps[1..|rest.0| + 1];
      }
      ([steps[0]] + rest.0, rest.1)
  }

  /** A first step of three parameters fails before anything runs. */
  lemma CallStepsFirst(steps: seq<Fetch>)
    requires |steps| > 0 && StepArity(steps[0]) != 2
    ensures CallSteps(steps) == ([], Some(ArityError(steps[0])))
  {
  }

  /**
   * `get_data` as written: it calls `get_aoi(self.aoi, self)`, but `get_aoi`
   * takes the section, the flowline directory and the AOI parquet, so the
   * first statement raises `TypeError` and no step runs.
   */
  function GetDataAsWritten(c: ConfigInput): (r: (seq<Fetch>, Option<Error>))
    ensures r.0 == [] && r.1 == Some(ArityError(FetchAoi))
  {
    var steps := DataSteps(c);
    DataStepsStartWithAoi(c);
    CallStepsFirst(steps);
    CallSteps(steps)
  }

  /** The intended `get_data` starts with the AOI step. */
  lemma DataStepsStartWithAoi(c: ConfigInput)
    ensures |DataSteps(c)| > 0 && DataSteps(c)[0] == FetchAoi
  {
    assert StepOrder == [FetchAoi] + StepOrder[1..];
    assert DataSteps(c) == [FetchAoi] + Select(c, StepOrder[1..]);
  }

  /**
   * Every configuration shows it: the intended `get_data` runs at least the
   * AOI step, while as written nothing runs.
   */
  lemma GetDataFinding(c: ConfigInput)
    ensures |DataSteps(c)| > 0 && DataSteps(c)[0] == FetchAoi
    ensures GetDataAsWritten(c).0 == [] && GetDataAsWritten(c).1.Some?
  {
    DataStepsStartWithAoi(c);
  }

  /** `read_config` after parsing: a validation failure is re-raised as `ValueError`. */
  function ReadConfig(raw: ConfigInput, fs: FileSystem): (r: Result<(Config, FileSystem), Error>)
  {
    Reraise(InitConfig(raw, fs))
  }

  /** The `except ValidationError` clause: the same message, as `ValueError`. */
  function Reraise<T>(c: Result<T, Error>): (r: Result<T, Error>)
  {
    if c.Err? && c.error.Validation? then Err(PyValueError(c.error.text)) else c
  }

  lemma ReraiseKeepsMessage<T>(c: Result<T, Error>)
    requires c.Err? ==> c.error.Validation?
    ensures Reraise(c).Ok? <==> c.Ok?
    ensures Reraise(c).Ok? ==> Reraise(c) == c
    ensures Reraise(c).Err? ==> Reraise(c).error.PyValueError? && Message(Reraise(c).error) == Message(c.error)
  {
  }

  /**
   * Reading succeeds exactly when building succeeds, with the same result; a
   * failure is a `ValueError` carrying the validation message.
   */
  lemma ReadConfigConverts(raw: ConfigInput, fs: FileSystem)
    ensures var r := ReadConfig(raw, fs);
      && (r.Ok? <==> InitConfig(raw, fs).Ok?)
      && (r.Ok? ==> r == InitConfig(raw, fs))
      && (r.Err? ==> r.error.PyValueError? && Message(r.error) == Message(InitConfig(raw, fs).error))
  {
    ReraiseKeepsMessage(InitConfig(raw, fs));
  }
}
