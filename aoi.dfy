/**
 * Getting the area of interest: the HUC IDs' validation and grouping by
 * level, the geometry-file reader chosen by suffix, and `get_aoi`'s choice of
 * source, with the AOI parquet reused when it already exists. The web
 * services, the file readers and the parquet codec are parameters.
 */
module AreaOfInterest {
  import opened Wrappers
  import opened Text
  import opened Paths
  import opened Exceptions
  import Configuration

  /** One row of a geo-data frame: its geometry type and its attribute values. */
  datatype Row = Row(geomType: string, fields: map<string, string>)

  type Frame = seq<Row>

  /** `pd.concat`: the frames' rows one after another. */
  function Concat(frames: seq<Frame>): (r: Frame)
    ensures |frames| == 1 ==> r == frames[0]
  {
    if |frames| == 0 then [] else frames[0] + Concat(frames[1..])
  }

  /** `pd.concat` keeps frame order: concatenating two runs of frames is concatenating their results. */
  lemma {:induction false} ConcatAppend(a: seq<Frame>, b: seq<Frame>)
    ensures Concat(a + b) == Concat(a) + Concat(b)
  {
    if |a| == 0 {
      assert a + b == b;
    } else {
      assert (a + b)[0] == a[0];
      assert (a + b)[1..] == a[1..] + b;
      ConcatAppend(a[1..], b);
    }
  }

  // ----- HUC IDs -----

  /** The HUC levels: the lengths a HUC ID may have. */
  const HucLevels: seq<nat> := [2, 4, 6, 8, 10, 12]

  const HucError := InputType("huc_ids", "strings of lengths between 2 and 12.", None)

  /** What `pd.concat` raises when given no frames. */
  const NothingToConcatenate := "No objects to concatenate"

  /** Every ID has the length of a HUC level. */
  predicate ValidHucs(ids: seq<string>)
  {
    forall k :: 0 <= k < |ids| ==> |ids[k]| in HucLevels
  }

  /** The IDs of one length, in input order. */
  function OfLength(ids: seq<string>, level: nat): (r: seq<string>)
    ensures forall k :: 0 <= k < |r| ==> |r[k]| == level
  {
    if |ids| == 0 then [] else (if |ids[0]| == level then [ids[0]] else []) + OfLength(ids[1..], level)
  }

  /** The IDs of one level, as `groupby(len)` collects them. */
  datatype HucGroup = HucGroup(level: nat, ids: seq<string>)

  /** The non-empty groups for the given levels, in the levels' order. */
  function GroupsOver(ids: seq<string>, levels: seq<nat>): seq<HucGroup>
  {
    if |levels| == 0 then []
    else
      var g := OfLength(ids, levels[0]);
      (if |g| > 0 then [HucGroup(levels[0], g)] else []) + GroupsOver(ids, levels[1..])
  }

  /** `huc_df.groupby(huc_df.str.len()).apply(list).to_dict()`: the groups by ascending length. */
  function Groups(ids: seq<string>): seq<HucGroup>
  {
    GroupsOver(ids, HucLevels)
  }

  /** The IDs of all groups, group after group. */
  function Flatten(groups: seq<HucGroup>): seq<string>
  {
    if |groups| == 0 then [] else groups[0].ids + Flatten(groups[1..])
  }

  /** The IDs of each listed level, level after level, empty levels included. */
  function AllOfLengths(ids: seq<string>, levels: seq<nat>): seq<string>
  {
    if |levels| == 0 then [] else OfLength(ids, levels[0]) + AllOfLengths(ids, levels[1..])
  }

  predicate StrictlyIncreasing(levels: seq<nat>)
  {
    forall a, b :: 0 <= a < b < |levels| ==> levels[a] < levels[b]
  }

  /** The groups' levels strictly increase. */
  predicate Ascending(groups: seq<HucGroup>)
  {
    forall a, b :: 0 <= a < b < |groups| ==> groups[a].level < groups[b].level
  }

  lemma {:induction false} GroupsOverFlatten(ids: seq<string>, levels: seq<nat>)
    ensures Flatten(GroupsOver(ids, levels)) == AllOfLengths(ids, levels)
  {
    if |levels| > 0 {
      GroupsOverFlatten(ids, levels[1..]);
      var g := OfLength(ids, levels[0]);
      var rest := GroupsOver(ids, levels[1..]);
      if |g| > 0 {
        assert ([HucGroup(levels[0], g)] + rest)[1..] == rest;
      } else {
        assert g == [];
        assert GroupsOver(ids, levels) == rest;
        assert AllOfLengths(ids, levels) == AllOfLengths(ids, levels[1..]);
      }
    }
  }

  lemma OfLengthCons(x: string, rest: seq<string>, level: nat)
    ensures OfLength([x] + rest, level) == (if |x| == level then [x] else []) + OfLength(rest, level)
  {
    assert ([x] + rest)[1..] == rest;
  }

  /** Collecting by level distributes over the first ID and the rest. */
  lemma {:induction false} AllOfLengthsCons(x: string, rest: seq<string>, levels: seq<nat>)
    ensures multiset(AllOfLengths([x] + rest, levels))
         == multiset(AllOfLengths([x], levels)) + multiset(AllOfLengths(rest, levels))
  {
    if |levels| > 0 {
      AllOfLengthsCons(x, rest, levels[1..]);
      OfLengthCons(x, rest, levels[0]);
      OfLengthCons(x, [], levels[0]);
      assert [x] + [] == [x];
    }
  }

  /** An ID whose length occurs exactly once among the levels lands in exactly one place. */
  lemma {:induction false} AllOfLengthsSingle(x: string, levels: seq<nat>)
    requires StrictlyIncreasing(levels)
    requires |x| in levels
    ensures multiset(AllOfLengths([x], levels)) == multiset{x}
  {
    OfLengthCons(x, [], levels[0]);
    assert [x] + [] == [x];
    if |x| == levels[0] {
      assert |x| !in levels[1..];
      AllOfLengthsAbsent(x, levels[1..]);
    } else {
      AllOfLengthsSingle(x, levels[1..]);
    }
  }

  lemma {:induction false} AllOfLengthsAbsent(x: string, levels: seq<nat>)
    requires |x| !in levels
    ensures AllOfLengths([x], levels) == []
  {
    if |levels| > 0 {
      OfLengthCons(x, [], levels[0]);
      assert [x] + [] == [x];
      assert OfLength([x], levels[0]) == [];
      AllOfLengthsAbsent(x, levels[1..]);
    }
  }

  lemma {:induction false} AllOfLengthsPartition(ids: seq<string>, levels: seq<nat>)
    requires StrictlyIncreasing(levels)
    requires forall k :: 0 <= k < |ids| ==> |ids[k]| in levels
    ensures multiset(AllOfLengths(ids, levels)) == multiset(ids)
  {
    if |ids| == 0 {
      AllOfLengthsEmpty(levels);
    } else {
      assert ids == [ids[0]] + ids[1..];
      AllOfLengthsCons(ids[0], ids[1..], levels);
      AllOfLengthsSingle(ids[0], levels);
      AllOfLengthsPartition(ids[1..], levels);
    }
  }

  lemma {:induction false} AllOfLengthsEmpty(levels: seq<nat>)
    ensures AllOfLengths([], levels) == []
  {
    if |levels| > 0 {
      AllOfLengthsEmpty(levels[1..]);
    }
  }

  /**
   * Grouping valid IDs loses none and invents none: the groups together hold
   * exactly the input IDs, each as often as it was given.
   */
  lemma GroupsPartition(ids: seq<string>)
    requires ValidHucs(ids)
    ensures multiset(Flatten(Groups(ids))) == multiset(ids)
  {
    GroupsOverFlatten(ids, HucLevels);
    AllOfLengthsPartition(ids, HucLevels);
  }

  /** Every group produced for the given levels is non-empty, holds the IDs of its level in input order, and the levels ascend. */
  lemma {:induction false} GroupsOverShape(ids: seq<string>, levels: seq<nat>)
    requires StrictlyIncreasing(levels)
    ensures forall k :: 0 <= k < |GroupsOver(ids, levels)| ==>
      GroupsOver(ids, levels)[k].level in levels
      && |GroupsOver(ids, levels)[k].ids| > 0
      && GroupsOver(ids, levels)[k].ids == OfLength(ids, GroupsOver(ids, levels)[k].level)
    ensures Ascending(GroupsOver(ids, levels))
  {
    if |levels| > 0 {
      GroupsOverShape(ids, levels[1..]);
      var rest := GroupsOver(ids, levels[1..]);
      assert forall k :: 0 <= k < |rest| ==> rest[k].level in levels[1..];
      assert forall k :: 0 <= k < |rest| ==> levels[0] < rest[k].level;
    }
  }

  /**
   * The groups come in ascending level order; each one is non-empty and
   * holds exactly the IDs of its length, in input order.
   */
  lemma GroupsShape(ids: seq<string>)
    ensures var gs := Groups(ids);
      && Ascending(gs)
      && forall k :: 0 <= k < |gs| ==> gs[k].level in HucLevels && |gs[k].ids| > 0 && gs[k].ids == OfLength(ids, gs[k].level)
  {
    GroupsOverShape(ids, HucLevels);
  }

  /** The layer of a level: `wbd` and the level padded to two digits. */
  function HucLayer(level: nat): string
  {
    "wbd" + ZeroFill2(level)
  }

  /** The field of a level: `huc` and the level. */
  function HucField(level: nat): string
  {
    "huc" + NatToString(level)
  }

  /** A `WaterData(layer).byid(field, ids)` query. */
  datatype Request = Request(layer: string, field: string, ids: seq<string>)

  /** The service answering queries; the queries' failures are not modelled. */
  type Service = Request -> Frame

  function HucRequest(g: HucGroup): Request
  {
    Request(HucLayer(g.level), HucField(g.level), g.ids)
  }

  /**
   * `_get_hucs`: the answer to one query per group, concatenated in group
   * order. The two packages differ only in the error an invalid length raises.
   */
  function HucFrame(ids: seq<string>, service: Service, invalid: Error): Result<Frame, Error>
  {
    if !ValidHucs(ids) then Err(invalid)
    else
      var groups := Groups(ids);
      if |groups| == 0 then Err(PyValueError(NothingToConcatenate))
      else Ok(Concat(seq(|groups|, k requires 0 <= k < |groups| => service(HucRequest(groups[k])))))
  }

  /** `_get_hucs`' loop, appending one answer per group. */
  method GetHucs(ids: seq<string>, service: Service, invalid: Error) returns (r: Result<Frame, Error>)
    ensures r == HucFrame(ids, service, invalid)
  {
    if !ValidHucs(ids) {
      return Err(invalid);
    }
    var groups := Groups(ids);
    var frames := FetchGroups(groups, service);
    if |frames| == 0 {
      return Err(PyValueError(NothingToConcatenate));
    }
    r := Ok(Concat(frames));
  }

  /** One answer per group of IDs, in group order. */
  method FetchGroups(groups: seq<HucGroup>, service: Service) returns (frames: seq<Frame>)
    ensures frames == seq(|groups|, k requires 0 <= k < |groups| => service(HucRequest(groups[k])))
  {
    frames := [];
    var i := 0;
    while i < |groups|
      invariant 0 <= i <= |groups|
      invariant frames == seq(i, k requires 0 <= k < i => service(HucRequest(groups[k])))
    {
      frames := frames + [service(HucRequest(groups[i]))];
      i := i + 1;
    }
  }

  /**
   * Fetching fails exactly when some ID has a length that is not a HUC level,
   * with the given error, or when there is no ID at all, when the concatenation
   * of no frames fails.
   */
  lemma HucFrameFails(ids: seq<string>, service: Service, invalid: Error)
    ensures HucFrame(ids, service, invalid).Err? <==> !ValidHucs(ids) || |ids| == 0
    ensures !ValidHucs(ids) ==> HucFrame(ids, service, invalid) == Err(invalid)
    ensures ValidHucs(ids) && |ids| == 0 ==> HucFrame(ids, service, invalid) == Err(PyValueError(NothingToConcatenate))
  {
    if ValidHucs(ids) {
      GroupsPartition(ids);
      if |Groups(ids)| == 0 {
        assert multiset(ids) == multiset{};
      } else {
        GroupsShape(ids);
        assert |Flatten(Groups(ids))| > 0;
        assert |multiset(ids)| > 0;
      }
    }
  }

  lemma {:induction false} OfLengthAll(ids: seq<string>, level: nat)
    requires forall k :: 0 <= k < |ids| ==> |ids[k]| == level
    ensures OfLength(ids, level) == ids
  {
    if |ids| > 0 {
      OfLengthAll(ids[1..], level);
      assert ids == [ids[0]] + ids[1..];
    }
  }

  lemma {:induction false} OfLengthNone(ids: seq<string>, level: nat)
    requires forall k :: 0 <= k < |ids| ==> |ids[k]| != level
    ensures OfLength(ids, level) == []
  {
    if |ids| > 0 {
      OfLengthNone(ids[1..], level);
    }
  }

  lemma {:induction false} GroupsOverOneLevel(ids: seq<string>, levels: seq<nat>, i: nat)
    requires i < |levels| && StrictlyIncreasing(levels) && |ids| > 0
    requires forall k :: 0 <= k < |ids| ==> |ids[k]| == levels[i]
    ensures GroupsOver(ids, levels) == [HucGroup(levels[i], ids)]
  {
    if i == 0 {
      OfLengthAll(ids, levels[0]);
      GroupsOverNone(ids, levels[1..]);
    } else {
      OfLengthNone(ids, levels[0]);
      GroupsOverOneLevel(ids, levels[1..], i - 1);
    }
  }

  lemma {:induction false} GroupsOverNone(ids: seq<string>, levels: seq<nat>)
    requires |ids| > 0
    requires forall j :: 0 <= j < |levels| ==> levels[j] != |ids[0]|
    requires forall k :: 0 <= k < |ids| ==> |ids[k]| == |ids[0]|
    ensures GroupsOver(ids, levels) == []
  {
    if |levels| > 0 {
      OfLengthNone(ids, levels[0]);
      GroupsOverNone(ids, levels[1..]);
    }
  }

  /** IDs that all share one level make a single query for that level's layer and field. */
  lemma HucFrameOneLevel(ids: seq<string>, i: nat, service: Service, invalid: Error)
    requires i < |HucLevels| && |ids| > 0
    requires forall k :: 0 <= k < |ids| ==> |ids[k]| == HucLevels[i]
    ensures HucFrame(ids, service, invalid)
         == Ok(service(Request(HucLayer(HucLevels[i]), HucField(HucLevels[i]), ids)))
  {
    assert ValidHucs(ids) by {
      assert HucLevels[i] in HucLevels;
    }
    assert StrictlyIncreasing(HucLevels);
    GroupsOverOneLevel(ids, HucLevels, i);
    var groups := Groups(ids);
    assert groups == [HucGroup(HucLevels[i], ids)];
    var frames := seq(|groups|, k requires 0 <= k < |groups| => service(HucRequest(groups[k])));
    assert |frames| == 1 && frames[0] == service(HucRequest(groups[0]));
  }

  /** The layers are padded to two digits and the fields are not. */
  lemma HucLayerNames()
    ensures HucLayer(2) == "wbd02" && HucField(2) == "huc2"
    ensures HucLayer(12) == "wbd12" && HucField(12) == "huc12"
  {
    assert NatToString(1) == "1" && NatToString(2) == "2";
    assert NatToString(12) == NatToString(1) + "2";
  }

  // ----- geometry files -----

  /** The text after the last `/`. */
  function AfterLastSlash(s: string): (r: string)
    ensures '/' !in r && |r| <= |s| && s[|s| - |r|..] == r
  {
    if |s| == 0 || s[|s| - 1] == '/' then "" else AfterLastSlash(s[..|s| - 1]) + [s[|s| - 1]]
  }

  /** The text without its trailing `/`s. */
  function StripTrailingSlashes(s: string): (r: string)
    ensures |r| == 0 || r[|r| - 1] != '/'
  {
    if |s| > 0 && s[|s| - 1] == '/' then StripTrailingSlashes(s[..|s| - 1]) else s
  }

  /** `PurePath(s).name`: the last component. */
  function Name(s: string): string
  {
    AfterLastSlash(StripTrailingSlashes(s))
  }

  /** `s.rfind(c)`: the last index of `c`, or -1. */
  function RFind(s: string, c: char): (r: int)
    ensures -1 <= r < |s|
    ensures r >= 0 ==> s[r] == c && c !in s[r + 1..]
    ensures r == -1 <==> c !in s
  {
    if |s| == 0 then -1
    else if s[|s| - 1] == c then |s| - 1
    else
      assert s[..|s| - 1] + [s[|s| - 1]] == s;
      RFind(s[..|s| - 1], c)
  }

  /**
   * `PurePath(s).suffix`: from the name's last dot, when that dot is neither
   * the name's first character nor its last.
   */
  function Suffix(s: string): (r: string)
    ensures r == "" || (|r| >= 2 && r[0] == '.' && '.' !in r[1..] && '/' !in r)
  {
    var name := Name(s);
    var i := RFind(name, '.');
    if 0 < i < |name| - 1 then name[i..] else ""
  }

  /** The three readers `_read_geometry_file` dispatches to. */
  datatype Reader = ParquetReader | FeatherReader | GenericReader

  function ReaderFor(path: string): (r: Reader)
    ensures r == ParquetReader <==> Suffix(path) == ".parquet"
    ensures r == FeatherReader <==> Suffix(path) == ".feather"
  {
    var ext := Suffix(path);
    if ext == ".parquet" then ParquetReader else if ext == ".feather" then FeatherReader else GenericReader
  }

  lemma {:induction false} AfterLastSlashName(prefix: string, name: string)
    requires prefix == "" || prefix[|prefix| - 1] == '/'
    requires '/' !in name
    ensures AfterLastSlash(prefix + name) == name
  {
    var s := prefix + name;
    if |name| == 0 {
      assert s == prefix;
    } else {
      var init := name[..|name| - 1];
      var last := name[|name| - 1];
      assert last in name;
      assert s[|s| - 1] == last && last != '/';
      assert s[..|s| - 1] == prefix + init;
      assert '/' !in init by {
        assert forall k :: 0 <= k < |init| ==> init[k] == name[k];
      }
      AfterLastSlashName(prefix, init);
      assert AfterLastSlash(s) == AfterLastSlash(prefix + init) + [last];
      assert init + [last] == name;
    }
  }

  /** In `stem.ext` with no dot in `ext`, the last dot is the one before `ext`. */
  lemma {:induction false} RFindBeforeExt(stem: string, ext: string)
    requires '.' !in ext
    ensures RFind(stem + ("." + ext), '.') == |stem|
  {
    var s := stem + ("." + ext);
    if |ext| == 0 {
      assert s[|s| - 1] == '.';
    } else {
      var init := ext[..|ext| - 1];
      assert s[|s| - 1] == ext[|ext| - 1];
      assert s[..|s| - 1] == stem + ("." + init);
      assert '.' !in init by {
        assert forall k :: 0 <= k < |init| ==> init[k] == ext[k];
      }
      RFindBeforeExt(stem, init);
    }
  }

  /** The name of `dir/name`, or of a bare `name`, is `name`. */
  lemma NameOf(prefix: string, name: string)
    requires prefix == "" || prefix[|prefix| - 1] == '/'
    requires name != "" && '/' !in name
    ensures Name(prefix + name) == name
  {
    var path := prefix + name;
    assert path[|path| - 1] == name[|name| - 1];
    assert StripTrailingSlashes(path) == path;
    AfterLastSlashName(prefix, name);
  }

  lemma Regroup(prefix: string, stem: string, ext: string)
    ensures prefix + stem + "." + ext == prefix + (stem + ("." + ext))
  {
  }

  lemma SliceAfter(a: string, b: string)
    ensures (a + b)[|a|..] == b
  {
  }

  /**
   * A file `stem.ext` in any directory has suffix `.ext`, whatever dots the
   * stem holds, so the extension alone picks the reader.
   */
  lemma SuffixOfFile(prefix: string, stem: string, ext: string)
    requires prefix == "" || prefix[|prefix| - 1] == '/'
    requires stem != "" && ext != ""
    requires '/' !in stem && '/' !in ext && '.' !in ext
    ensures Suffix(prefix + stem + "." + ext) == "." + ext
  {
    var tail := "." + ext;
    var name := stem + tail;
    Regroup(prefix, stem, ext);
    assert '/' !in name;
    NameOf(prefix, name);
    RFindBeforeExt(stem, ext);
    SliceAfter(stem, tail);
  }

  /** A name that starts with its only dot, such as `.parquet`, has no suffix and goes to the generic reader. */
  lemma HiddenFileNoSuffix(prefix: string, ext: string)
    requires prefix == "" || prefix[|prefix| - 1] == '/'
    requires '/' !in ext && '.' !in ext
    ensures Suffix(prefix + "." + ext) == ""
    ensures ReaderFor(prefix + "." + ext) == GenericReader
  {
    var name := "." + ext;
    assert Name(prefix + "." + ext) == name by {
      assert prefix + "." + ext == prefix + name;
      assert '/' !in name;
      NameOf(prefix, name);
    }
    assert RFind(name, '.') == 0 by {
      RFindBeforeExt("", ext);
      assert "" + ("." + ext) == name;
    }
  }

  const PolygonError := "Geometry file must contain polygons or multipolygons."

  predicate IsPolygonal(row: Row)
  {
    row.geomType == "Polygon" || row.geomType == "MultiPolygon"
  }

  /** What a reader gives for a path. */
  type FileReader = (Reader, string) -> Frame

  /** `_read_geometry_file`: the frame the suffix's reader gives, provided every geometry is a polygon or multipolygon. */
  function ReadGeometryFile(path: string, read: FileReader): (r: Result<Frame, Error>)
    ensures r.Ok? <==> forall k :: 0 <= k < |read(ReaderFor(path), path)| ==> IsPolygonal(read(ReaderFor(path), path)[k])
    ensures r.Ok? ==> r.value == read(ReaderFor(path), path)
    ensures r.Err? ==> r.error == PyValueError(PolygonError)
  {
    var frame := read(ReaderFor(path), path);
    if forall k :: 0 <= k < |frame| ==> IsPolygonal(frame[k]) then Ok(frame) else Err(PyValueError(PolygonError))
  }

  // ----- get_aoi -----

  /** The sources `get_aoi` can take the area from, in the order it tries them. */
  datatype Source = HucSource | Nhdv2Source | GagesiiSource | MainstemMainSource | MainstemTributariesSource | GeometryFileSource

  const Precedence := [HucSource, Nhdv2Source, GagesiiSource, MainstemMainSource, MainstemTributariesSource, GeometryFileSource]

  /** The source is set to a truthy value. */
  predicate Given(a: Configuration.Aoi, s: Source)
  {
    match s
    case HucSource => Configuration.GivenList(a.hucIds)
    case Nhdv2Source => Configuration.GivenList(a.nhdv2Ids)
    case GagesiiSource => Configuration.GivenList(a.gagesiiBasins)
    case MainstemMainSource => Configuration.GivenInt(a.mainstemMain)
    case MainstemTributariesSource => Configuration.GivenInt(a.mainstemTributaries)
    case GeometryFileSource => Configuration.GivenText(a.geometryFile)
  }

  /** The `if`/`elif` chain: the first truthy source. */
  function Chosen(a: Configuration.Aoi): Option<Source>
  {
    if Given(a, HucSource) then Some(HucSource)
    else if Given(a, Nhdv2Source) then Some(Nhdv2Source)
    else if Given(a, GagesiiSource) then Some(GagesiiSource)
    else if Given(a, MainstemMainSource) then Some(MainstemMainSource)
    else if Given(a, MainstemTributariesSource) then Some(MainstemTributariesSource)
    else if Given(a, GeometryFileSource) then Some(GeometryFileSource)
    else None
  }

  /** The chosen source is the first given one in precedence order, and none is chosen only when none is given. */
  lemma ChosenIsFirstGiven(a: Configuration.Aoi)
    ensures forall i :: 0 <= i < |Precedence| ==>
      (Chosen(a) == Some(Precedence[i]) <==> Given(a, Precedence[i]) && forall j :: 0 <= j < i ==> !Given(a, Precedence[j]))
    ensures Chosen(a).None? <==> forall s :: !Given(a, s)
  {
    forall i | 0 <= i < |Precedence|
      ensures Chosen(a) == Some(Precedence[i]) <==> Given(a, Precedence[i]) && forall j :: 0 <= j < i ==> !Given(a, Precedence[j])
    {
      ChosenAt(a, i);
    }
    if Chosen(a).None? {
      forall s ensures !Given(a, s) {
        match s
        case HucSource =>
        case Nhdv2Source =>
        case GagesiiSource =>
        case MainstemMainSource =>
        case MainstemTributariesSource =>
        case GeometryFileSource =>
      }
    }
  }

  lemma ChosenAt(a: Configuration.Aoi, i: nat)
    requires i < |Precedence|
    ensures Chosen(a) == Some(Precedence[i]) <==> Given(a, Precedence[i]) && forall j :: 0 <= j < i ==> !Given(a, Precedence[j])
  {
    var p := Precedence;
    if Chosen(a) == Some(p[i]) {
      forall j | 0 <= j < i ensures !Given(a, p[j]) {
        if j == 0 {
        } else if j == 1 {
        } else if j == 2 {
        } else if j == 3 {
        } else {
          assert j == 4;
        }
      }
    }
    if Given(a, p[i]) && forall j :: 0 <= j < i ==> !Given(a, p[j]) {
      if i > 0 { assert !Given(a, p[0]); }
      if i > 1 { assert !Given(a, p[1]); }
      if i > 2 { assert !Given(a, p[2]); }
      if i > 3 { assert !Given(a, p[3]); }
      if i > 4 { assert !Given(a, p[4]); }
    }
  }

  /**
   * The validator as written lets a second source through, because it does
   * not count `mainstem_tributaries`: with HUC IDs the tributaries are
   * silently ignored, and with a geometry file the tributaries win, so the
   * one source the validator counted is the one ignored.
   */
  lemma AcceptedTwoSources(t: int, path: string)
    requires t != 0 && path != ""
    ensures var a := Configuration.Aoi(Some(["01"]), None, None, None, Some(t), None, false, None, None);
      && Configuration.CheckAoi(a).Ok?
      && Given(a, MainstemTributariesSource)
      && Chosen(a) == Some(HucSource)
    ensures var a := Configuration.Aoi(None, None, None, None, Some(t), Some(path), false, None, None);
      && Configuration.CheckAoi(a).Ok?
      && Given(a, GeometryFileSource)
      && Chosen(a) == Some(MainstemTributariesSource)
  {
  }

  /** With the intended validator, the chosen source is the one and only source given. */
  lemma AcceptedSoleSource(a: Configuration.Aoi)
    requires Configuration.CheckAoiIntended(a).Ok?
    ensures Chosen(a).Some?
    ensures forall s :: Given(a, s) <==> Chosen(a) == Some(s)
  {
    forall s ensures Given(a, s) <==> Chosen(a) == Some(s) {
      match s
      case HucSource =>
      case Nhdv2Source =>
      case GagesiiSource =>
      case MainstemMainSource =>
      case MainstemTributariesSource =>
      case GeometryFileSource =>
    }
  }

  /** Even as written, an accepted area always names a source, so the bare `ValueError` cannot follow validation. */
  lemma AcceptedHasSource(a: Configuration.Aoi)
    requires Configuration.CheckAoi(a).Ok?
    ensures Chosen(a).Some?
  {
    Configuration.CheckAoiExactlyOne(a);
  }

  /** The mainstem navigation modes. */
  datatype Navigation = UpstreamMain | UpstreamTributaries

  /** Where the area came from. */
  datatype AoiFrame =
    | Reused(frame: Frame)
    | Fetched(source: Source, frame: Frame)
    | Mainstem(id: int, navigation: Navigation)

  /** What a call leaves behind: the files, the area, and whether flowlines are fetched next. */
  datatype Outcome = Outcome(files: FileSystem, aoi: AoiFrame, flowlines: bool)

  /** The foreign calls `get_aoi` makes. */
  datatype Io = Io(service: Service, multi2poly: Frame -> Frame, read: FileReader,
                   readParquet: seq<byte> -> Frame, toParquet: Frame -> seq<byte>)

  /** Flowlines are fetched when asked for directly or when attributes of them are asked for. */
  predicate WantsFlowlines(a: Configuration.Aoi)
  {
    a.nhdv2Flowlines || Configuration.GivenList(a.streamcatAttrs) || Configuration.GivenList(a.nldiAttrs)
  }

  /** The frame a source other than a mainstem gives. */
  function SourceFrame(a: Configuration.Aoi, s: Source, io: Io): Result<Frame, Error>
    requires Given(a, s) && s != MainstemMainSource && s != MainstemTributariesSource
  {
    match s
    case HucSource => HucFrame(a.hucIds.value, io.service, HucError)
    case Nhdv2Source =>
      var ids := a.nhdv2Ids.value;
      Ok(io.multi2poly(io.service(Request("catchmentsp", "featureid",
        seq(|ids|, k requires 0 <= k < |ids| => IntToString(ids[k]))))))
    case GagesiiSource => Ok(io.multi2poly(io.service(Request("gagesii_basins", "gage_id", a.gagesiiBasins.value))))
    case GeometryFileSource => ReadGeometryFile(a.geometryFile.value, io.read)
  }

  /**
   * `get_aoi`: reuse the AOI parquet when it exists; otherwise take the first
   * given source, where the mainstem sources return at once and the others
   * write the frame to the AOI parquet. No source raises a bare `ValueError`.
   */
  function GetAoi(a: Configuration.Aoi, aoiParquet: Path, fs: FileSystem, io: Io): (r: Result<Outcome, Error>)
    ensures aoiParquet in fs ==> r == Ok(Outcome(fs, Reused(io.readParquet(fs[aoiParquet])), WantsFlowlines(a)))
    ensures r.Ok? && r.value.aoi.Mainstem? ==> r.value.files == fs && !r.value.flowlines
    ensures r.Ok? && r.value.aoi.Fetched? ==>
      && aoiParquet !in fs
      && Chosen(a) == Some(r.value.aoi.source)
      && r.value.files == fs[aoiParquet := io.toParquet(r.value.aoi.frame)]
      && r.value.flowlines == WantsFlowlines(a)
    ensures r.Err? ==> aoiParquet !in fs
  {
    if aoiParquet in fs then Ok(Outcome(fs, Reused(io.readParquet(fs[aoiParquet])), WantsFlowlines(a)))
    else
      match Chosen(a)
      case None => Err(PyValueError(""))
      case Some(s) =>
        if s == MainstemMainSource then Ok(Outcome(fs, Mainstem(a.mainstemMain.value, UpstreamMain), false))
        else if s == MainstemTributariesSource then
          Ok(Outcome(fs, Mainstem(a.mainstemTributaries.value, UpstreamTributaries), false))
        else
          var f := SourceFrame(a, s, io);
          if f.Err? then Err(f.error)
          else Ok(Outcome(fs[aoiParquet := io.toParquet(f.value)], Fetched(s, f.value), WantsFlowlines(a)))
  }

  /** Without an AOI parquet and without any source, the call raises a bare `ValueError`. */
  lemma GetAoiNoSource(a: Configuration.Aoi, aoiParquet: Path, fs: FileSystem, io: Io)
    requires aoiParquet !in fs && forall s :: !Given(a, s)
    ensures GetAoi(a, aoiParquet, fs, io) == Err(PyValueError(""))
  {
    ChosenIsFirstGiven(a);
  }

  /** A mainstem source returns the mainstem's ID with its navigation and leaves the files alone. */
  lemma GetAoiMainstem(a: Configuration.Aoi, aoiParquet: Path, fs: FileSystem, io: Io)
    requires aoiParquet !in fs
    requires Chosen(a) == Some(MainstemMainSource) || Chosen(a) == Some(MainstemTributariesSource)
    ensures GetAoi(a, aoiParquet, fs, io).Ok?
    ensures var o := GetAoi(a, aoiParquet, fs, io).value;
      && o.files == fs && !o.flowlines
      && o.aoi == (if Chosen(a) == Some(MainstemMainSource) then Mainstem(a.mainstemMain.value, UpstreamMain)
                   else Mainstem(a.mainstemTributaries.value, UpstreamTributaries))
  {
  }

  /** Any other source fails exactly when its frame cannot be made, and otherwise writes that frame. */
  lemma GetAoiFetched(a: Configuration.Aoi, aoiParquet: Path, fs: FileSystem, io: Io, s: Source)
    requires aoiParquet !in fs && Chosen(a) == Some(s)
    requires s != MainstemMainSource && s != MainstemTributariesSource
    ensures Given(a, s)
    ensures GetAoi(a, aoiParquet, fs, io).Err? <==> SourceFrame(a, s, io).Err?
    ensures SourceFrame(a, s, io).Err? ==> GetAoi(a, aoiParquet, fs, io).error == SourceFrame(a, s, io).error
    ensures SourceFrame(a, s, io).Ok? ==>
      GetAoi(a, aoiParquet, fs, io).value.files == fs[aoiParquet := io.toParquet(SourceFrame(a, s, io).value)]
  {
    ChosenIsFirstGiven(a);
  }

  /** A validated area with HUC IDs fails only on an ID whose length is not a HUC level. */
  lemma GetAoiHucs(a: Configuration.Aoi, aoiParquet: Path, fs: FileSystem, io: Io)
    requires aoiParquet !in fs && Configuration.CheckAoi(a).Ok? && Given(a, HucSource)
    ensures GetAoi(a, aoiParquet, fs, io).Err? <==> !ValidHucs(a.hucIds.value)
    ensures GetAoi(a, aoiParquet, fs, io).Err? ==> GetAoi(a, aoiParquet, fs, io).error == HucError
  {
    HucFrameFails(a.hucIds.value, io.service, HucError);
    GetAoiFetched(a, aoiParquet, fs, io, HucSource);
  }
}
