/**
 * `get_aoi` of the older `hysetter` package: the same HUC grouping and
 * geometry-file reader as the newer package, a different error for a bad
 * HUC length, four sources instead of six, and the validator's message when
 * no source is given.
 */
module LegacyAreaOfInterest {
  import opened Wrappers
  import opened Paths
  import opened Exceptions
  import Configuration
  import LegacyConfiguration
  import opened AreaOfInterest

  const LegacyHucError := PyValueError("HUC IDs must be strings and have even lengths between 2 and 12.")

  /** The four sources, each set to a truthy value or not. */
  predicate LegacyGiven(a: LegacyConfiguration.Aoi, s: Source)
  {
    match s
    case HucSource => Configuration.GivenList(a.hucIds)
    case Nhdv2Source => Configuration.GivenList(a.nhdv2Ids)
    case GagesiiSource => Configuration.GivenList(a.gagesiiBasins)
    case GeometryFileSource => Configuration.GivenText(a.geometryFile)
    case _ => false
  }

  /** The `if`/`elif` chain: HUC IDs, NHDPlus IDs, GAGES-II basins, then the geometry file. */
  function LegacyChosen(a: LegacyConfiguration.Aoi): Option<Source>
  {
    if LegacyGiven(a, HucSource) then Some(HucSource)
    else if LegacyGiven(a, Nhdv2Source) then Some(Nhdv2Source)
    else if LegacyGiven(a, GagesiiSource) then Some(GagesiiSource)
    else if LegacyGiven(a, GeometryFileSource) then Some(GeometryFileSource)
    else None
  }

  /**
   * The older validator and the older chain agree: an accepted area names
   * exactly one source and the chain takes it.
   */
  lemma LegacyAcceptedSoleSource(a: LegacyConfiguration.Aoi)
    requires LegacyConfiguration.CheckAoi(a).Ok?
    ensures LegacyChosen(a).Some?
    ensures forall s :: LegacyGiven(a, s) <==> LegacyChosen(a) == Some(s)
  {
    LegacyConfiguration.CheckAoiExactlyOne(a);
    forall s ensures LegacyGiven(a, s) <==> LegacyChosen(a) == Some(s) {
      match s
      case HucSource =>
      case Nhdv2Source =>
      case GagesiiSource =>
      case MainstemMainSource =>
      case MainstemTributariesSource =>
      case GeometryFileSource =>
    }
  }

  /** The frame a chosen source gives; the older package keeps multipolygons as they come. */
  function LegacySourceFrame(a: LegacyConfiguration.Aoi, s: Source, io: Io): Result<Frame, Error>
    requires LegacyGiven(a, s)
  {
    match s
    case HucSource => HucFrame(a.hucIds.value, io.service, LegacyHucError)
    case Nhdv2Source =>
      var ids := a.nhdv2Ids.value;
      Ok(io.service(Request("catchmentsp", "featureid",
        seq(|ids|, k requires 0 <= k < |ids| => Text.IntToString(ids[k])))))
    case GagesiiSource => Ok(io.service(Request("gagesii_basins", "gage_id", a.gagesiiBasins.value)))
    case GeometryFileSource => ReadGeometryFile(a.geometryFile.value, io.read)
  }

  /**
   * `get_aoi` of the older package: reuse the AOI parquet when it exists;
   * otherwise write the first given source's frame to it, and with no
   * source raise `ValueError` with the validator's message.
   */
  function LegacyGetAoi(a: LegacyConfiguration.Aoi, aoiParquet: Path, fs: FileSystem, io: Io): (r: Result<Outcome, Error>)
    ensures aoiParquet in fs ==> r == Ok(Outcome(fs, Reused(io.readParquet(fs[aoiParquet])), a.nhdv2Flowlines))
    ensures aoiParquet !in fs && LegacyChosen(a).None? ==> r == Err(PyValueError(LegacyConfiguration.AoiMessage))
    ensures r.Ok? ==> r.value.flowlines == a.nhdv2Flowlines && !r.value.aoi.Mainstem?
    ensures r.Ok? && r.value.aoi.Fetched? ==>
      && aoiParquet !in fs
      && LegacyChosen(a) == Some(r.value.aoi.source)
      && r.value.files == fs[aoiParquet := io.toParquet(r.value.aoi.frame)]
  {
    if aoiParquet in fs then Ok(Outcome(fs, Reused(io.readParquet(fs[aoiParquet])), a.nhdv2Flowlines))
    else
      match LegacyChosen(a)
      case None => Err(PyValueError(LegacyConfiguration.AoiMessage))
      case Some(s) =>
        var f := LegacySourceFrame(a, s, io);
        if f.Err? then Err(f.error)
        else Ok(Outcome(fs[aoiParquet := io.toParquet(f.value)], Fetched(s, f.value), a.nhdv2Flowlines))
  }

  /** What reading an attribute the older `AOI` model does not declare raises. */
  const NoStreamcatAttrs := PyAttributeError("'AOI' object has no attribute 'streamcat_attrs'")

  /**
   * `get_aoi` of the older package as written: once the frame is read or
   * written, the flowline test reads `streamcat_attrs`, which the older
   * `AOI` model does not declare, so every call that gets that far raises
   * `AttributeError`; the files are those left behind (the parquet written,
   * if it was).
   */
  function LegacyGetAoiAsWritten(a: LegacyConfiguration.Aoi, aoiParquet: Path, fs: FileSystem, io: Io)
    : (r: (Result<Outcome, Error>, FileSystem))
    ensures r.0.Err?
    ensures LegacyGetAoi(a, aoiParquet, fs, io).Ok? ==>
      r == (Err(NoStreamcatAttrs), LegacyGetAoi(a, aoiParquet, fs, io).value.files)
    ensures LegacyGetAoi(a, aoiParquet, fs, io).Err? ==> r == (LegacyGetAoi(a, aoiParquet, fs, io), fs)
  {
    var intended := LegacyGetAoi(a, aoiParquet, fs, io);
    if intended.Err? then (intended, fs) else (Err(NoStreamcatAttrs), intended.value.files)
  }

  /**
   * The input that shows it: an existing AOI parquet, which the intended
   * call reuses, makes the call as written raise `AttributeError`; and when
   * no parquet exists yet and the source succeeds, the parquet is still
   * written before the error.
   */
  lemma LegacyAttributeErrorWitness(a: LegacyConfiguration.Aoi, aoiParquet: Path, fs: FileSystem, io: Io)
    ensures aoiParquet in fs ==>
      && LegacyGetAoi(a, aoiParquet, fs, io).Ok?
      && LegacyGetAoiAsWritten(a, aoiParquet, fs, io) == (Err(NoStreamcatAttrs), fs)
    ensures aoiParquet !in fs && LegacyGetAoi(a, aoiParquet, fs, io).Ok? ==>
      && LegacyGetAoiAsWritten(a, aoiParquet, fs, io).0 == Err(NoStreamcatAttrs)
      && aoiParquet in LegacyGetAoiAsWritten(a, aoiParquet, fs, io).1
  {
  }

  /**
   * An area that passed the older validator and has no AOI parquet yet
   * always gets a source: the call fails only through that source's frame.
   */
  lemma LegacyGetAoiValidated(a: LegacyConfiguration.Aoi, aoiParquet: Path, fs: FileSystem, io: Io)
    requires aoiParquet !in fs && LegacyConfiguration.CheckAoi(a).Ok?
    ensures LegacyChosen(a).Some?
    ensures LegacyGetAoi(a, aoiParquet, fs, io).Err? <==> LegacySourceFrame(a, LegacyChosen(a).value, io).Err?
  {
    LegacyAcceptedSoleSource(a);
  }

  /** HUC IDs fail with the older message exactly when some length is not a HUC level; the grouping is the newer package's. */
  lemma LegacyGetAoiHucs(a: LegacyConfiguration.Aoi, aoiParquet: Path, fs: FileSystem, io: Io)
    requires aoiParquet !in fs && LegacyGiven(a, HucSource)
    ensures LegacyGetAoi(a, aoiParquet, fs, io).Err? <==> !ValidHucs(a.hucIds.value)
    ensures !ValidHucs(a.hucIds.value) ==> LegacyGetAoi(a, aoiParquet, fs, io) == Err(LegacyHucError)
    ensures ValidHucs(a.hucIds.value) ==>
      LegacyGetAoi(a, aoiParquet, fs, io).value.aoi == Fetched(HucSource, HucFrame(a.hucIds.value, io.service, HucError).value)
  {
    HucFrameFails(a.hucIds.value, io.service, LegacyHucError);
    HucFrameFails(a.hucIds.value, io.service, HucError);
  }
}
