/**
 * The configuration of the older `hysetter` package: its `aoi` and `nid`
 * validators, the four paths `Config.__init__` derives, and `read_config`'s
 * error conversion.
 */
module LegacyConfiguration {
  import opened Wrappers
  import opened Text
  import opened Paths
  import opened Exceptions
  import Configuration

  /** The `aoi` section of the older package: four ways of naming the area. */
  datatype Aoi = Aoi(
    hucIds: Option<seq<string>>,
    nhdv2Ids: Option<seq<int>>,
    gagesiiBasins: Option<seq<string>>,
    geometryFile: Option<string>,
    nhdv2Flowlines: bool)

  const AoiMessage := "Only one of `huc_ids`, `nhdv2_ids`, `gagesii_basins`, or `geometry_file` must be provided."
  const NidMessage := "One of `federal_ids` or `within_aoi` must be provided."

  /** The number of truthy sources. */
  function Sources(a: Aoi): nat
  {
    (if Configuration.GivenList(a.hucIds) then 1 else 0)
    + (if Configuration.GivenList(a.nhdv2Ids) then 1 else 0)
    + (if Configuration.GivenList(a.gagesiiBasins) then 1 else 0)
    + (if Configuration.GivenText(a.geometryFile) then 1 else 0)
  }

  /** `AOI.check_exclusive_options`: the truthy sources, in order. */
  function Provided(a: Aoi): seq<nat>
  {
    (if Configuration.GivenList(a.hucIds) then [0] else [])
    + (if Configuration.GivenList(a.nhdv2Ids) then [1] else [])
    + (if Configuration.GivenList(a.gagesiiBasins) then [2] else [])
    + (if Configuration.GivenText(a.geometryFile) then [3] else [])
  }

  function CheckAoi(a: Aoi): (r: Result<Aoi, Error>)
    ensures r.Ok? ==> r.value == a
    ensures r.Err? ==> r.error == PyValueError(AoiMessage)
  {
    if |Provided(a)| == 1 then Ok(a) else Err(PyValueError(AoiMessage))
  }

  /** The validator accepts exactly when one of the four sources is given; an empty list counts as not given. */
  lemma CheckAoiExactlyOne(a: Aoi)
    ensures CheckAoi(a).Ok? <==> Sources(a) == 1
  {
  }

  /** The `nid` section. */
  datatype Nid = Nid(federalIds: Option<seq<string>>, withinAoi: bool)

  /** `NID.check_exclusive_options`: rejected only when the ID list is absent and `within_aoi` is off. */
  function CheckNid(n: Nid): (r: Result<Nid, Error>)
    ensures r.Ok? ==> r.value == n
    ensures r.Err? ==> r.error == PyValueError(NidMessage)
  {
    if n.federalIds.None? && !n.withinAoi then Err(PyValueError(NidMessage)) else Ok(n)
  }

  /**
   * The check tests for absence, not truthiness: an empty ID list is
   * accepted even with `within_aoi` off, and `within_aoi` alone suffices.
   */
  lemma CheckNidPresence(n: Nid)
    ensures CheckNid(n).Err? <==> n.federalIds.None? && !n.withinAoi
    ensures CheckNid(Nid(Some([]), false)).Ok?
  {
  }

  /** `Config.file_paths` of the older package. */
  datatype FilePaths = FilePaths(project: Path, aoiParquet: Path, flowlines: Path, forcing: Path)

  function Layout(dataDir: Path, name: string): FilePaths
  {
    var p := Configuration.ProjectDir(dataDir, name);
    FilePaths(p, Child(p, "aoi.parquet"), Child(p, "nhdv2_flowlines"), Child(p, "forcing"))
  }

  /**
   * The older layout agrees with the newer one: same project directory,
   * same AOI file, same flowline and forcing directories.
   */
  lemma LayoutAgrees(dataDir: Path, name: string, rasterNames: seq<string>)
    ensures var legacy := Layout(dataDir, name);
      var current := Configuration.Layout(dataDir, name, rasterNames);
      legacy.project == current.project && legacy.aoiParquet == current.aoiParquet
      && legacy.flowlines == current.flowlines && legacy.forcing == current.forcing
  {
  }

  /** The three fixed entries are distinct children of the project directory, which has no spaces in its name. */
  lemma LayoutShape(dataDir: Path, name: string)
    requires name != ""
    ensures var fp := Layout(dataDir, name);
      && fp.project.parts == dataDir.parts + [ReplaceChar(name, ' ', "_")]
      && ' ' !in fp.project.parts[|fp.project.parts| - 1]
      && fp.aoiParquet.parts == fp.project.parts + ["aoi.parquet"]
      && fp.flowlines.parts == fp.project.parts + ["nhdv2_flowlines"]
      && fp.forcing.parts == fp.project.parts + ["forcing"]
  {
    ReplaceCharRemoves(name, ' ', '_');
  }

  /** The fields of a configuration file of the older package that carry checks. */
  datatype ConfigInput = ConfigInput(name: string, dataDir: Path, aoi: Aoi, nid: Option<Nid>)

  datatype Config = Config(input: ConfigInput, filePaths: FilePaths)

  /** `Config(**data)`: validates `aoi`, then `nid` when present, then derives the paths. */
  function InitConfig(raw: ConfigInput): Result<Config, Error>
  {
    var aoi := CheckAoi(raw.aoi);
    if aoi.Err? then Err(Validation(Message(aoi.error)))
    else if raw.nid.Some? && CheckNid(raw.nid.value).Err? then Err(Validation(NidMessage))
    else Ok(Config(raw, Layout(raw.dataDir, raw.name)))
  }

  /** `read_config` after parsing: a validation failure is re-raised as `ValueError`. */
  function ReadConfig(raw: ConfigInput): Result<Config, Error>
  {
    var c := InitConfig(raw);
    if c.Err? && c.error.Validation? then Err(PyValueError(c.error.text)) else c
  }

  /**
   * Reading fails exactly when a validator fails, always with a `ValueError`
   * carrying that validator's message, and otherwise yields the derived paths.
   */
  lemma ReadConfigConverts(raw: ConfigInput)
    ensures var r := ReadConfig(raw);
      && (r.Ok? <==> CheckAoi(raw.aoi).Ok? && (raw.nid.Some? ==> CheckNid(raw.nid.value).Ok?))
      && (r.Ok? ==> r.value.filePaths == Layout(raw.dataDir, raw.name))
      && (r.Err? ==> r == Err(PyValueError(if CheckAoi(raw.aoi).Err? then AoiMessage else NidMessage)))
  {
  }
}
