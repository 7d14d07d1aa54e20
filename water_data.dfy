/**
 * The WaterData client: layer validation and normalisation, the argument
 * check of `bydistance`, the empty-response rule of `_to_geodf`, and the
 * set of IDs `byid` reports as failed.  The WFS requests themselves are
 * function parameters.
 */
module WaterData {
  import opened Wrappers
  import opened Text
  import opened Exceptions

  const ValidLayers := [
    "catchmentsp", "gagesii", "gagesii_basins", "huc08", "huc12", "nhdarea",
    "nhdflowline_network", "nhdflowline_nonnetwork", "nhdwaterbody",
    "wbd02", "wbd04", "wbd06", "wbd08", "wbd10", "wbd12"]

  const Namespace := "wmadata:"
  const Vintage := "20201006"

  /** Adds the `wmadata:` namespace to a layer that has none. */
  function Prefixed(layer: string): string
  {
    if ':' in layer then layer else Namespace + layer
  }

  /** Adds the `_20201006` vintage to a `wbd` layer that lacks it. */
  function Suffixed(layer: string): string
  {
    if Contains(layer, "wbd") && !Contains(layer, Vintage) then layer + "_" + Vintage else layer
  }

  /** The two steps `__init__` applies to `self.layer`. */
  function Normalised(layer: string): string
  {
    Suffixed(Prefixed(layer))
  }

  /** Normalising a normalised layer name changes nothing. */
  lemma NormalisedIdempotent(layer: string)
    ensures Normalised(Normalised(layer)) == Normalised(layer)
  {
    var x := Prefixed(layer);
    assert ':' in x by {
      if ':' !in layer {
        assert x[7] == ':';
      }
    }
    var y := Suffixed(x);
    if y != x {
      assert y == x + "_" + Vintage;
      ContainsSuffix(x + "_", Vintage);
      assert y[|x|] == '_';
    }
    assert ':' in y;
  }

  /** Neither `wbd` nor the vintage can overlap the namespace prefix. */
  lemma NamespaceContains(layer: string, sub: string)
    requires sub == "wbd" || sub == Vintage
    ensures Contains(Namespace + layer, sub) <==> Contains(layer, sub)
  {
    var s := Namespace + layer;
    if Contains(s, sub) {
      var i :| 0 <= i <= |s| - |sub| && OccursAt(s, sub, i);
      assert forall j :: 0 <= j < 8 ==> s[j] == Namespace[j];
      assert s[i] == sub[0] && s[i + 1] == sub[1];
      assert i >= 8;
      assert layer[i - 8..i - 8 + |sub|] == s[i..i + |sub|];
      assert OccursAt(layer, sub, i - 8);
    }
    if Contains(layer, sub) {
      ContainsWithin(Namespace, layer, "", sub);
      assert Namespace + layer + "" == s;
    }
  }

  /**
   * For a name without namespace or vintage, as every valid layer is, the
   * result is the namespaced name, with the vintage suffix exactly for the
   * `wbd` layers.
   */
  lemma NormalisedPlain(layer: string)
    requires ':' !in layer && !Contains(layer, Vintage)
    ensures Normalised(layer) == Namespace + layer + (if Contains(layer, "wbd") then "_" + Vintage else "")
  {
    NamespaceContains(layer, "wbd");
    NamespaceContains(layer, Vintage);
  }

  lemma NormalisedExamples()
    ensures Normalised("wbd08") == "wmadata:wbd08_20201006"
    ensures Normalised("catchmentsp") == "wmadata:catchmentsp"
  {
    NormalisedWbd();
    NormalisedCatchments();
  }

  lemma NormalisedWbd()
    ensures Normalised("wbd08") == "wmadata:wbd08_20201006"
  {
    assert OccursAt("wbd08", "wbd", 0);
    assert ':' !in "wbd08" && '2' !in "wbd08";
    MissingFirstChar("wbd08", Vintage);
    NormalisedPlain("wbd08");
  }

  lemma NormalisedCatchments()
    ensures Normalised("catchmentsp") == "wmadata:catchmentsp"
  {
    assert 'w' !in "catchmentsp" && '2' !in "catchmentsp";
    MissingFirstChar("catchmentsp", "wbd");
    MissingFirstChar("catchmentsp", Vintage);
    NormalisedPlain("catchmentsp");
  }

  /** An abstract coordinate reference system. */
  datatype Crs = Crs(name: string)

  /** A WaterData client bound to one layer. */
  class Client {
    var layer: string
    var crs: Crs

    constructor(layer: string, crs: Crs)
      ensures this.layer == layer && this.crs == crs
    {
      this.layer := layer;
      this.crs := crs;
    }

    /**
     * `WaterData(layer, crs)`: rejects a layer outside the fixed list, then
     * namespaces the name and adds the vintage to `wbd` layers, in two steps.
     */
    static method Create(layer: string, crs: Crs) returns (r: Result<Client, Error>)
      ensures layer !in ValidLayers ==> r == Err(InputValue("layer", ValidLayers, None))
      ensures layer in ValidLayers ==> (r.Ok? && fresh(r.value) && r.value.layer == Normalised(layer)
        && r.value.crs == crs)
    {
      if layer !in ValidLayers {
        return Err(InputValue("layer", ValidLayers, None));
      }
      var c := new Client(if ':' in layer then layer else Namespace + layer, crs);
      if Contains(c.layer, "wbd") && !Contains(c.layer, Vintage) {
        c.layer := c.layer + "_" + Vintage;
      }
      return Ok(c);
    }
  }

  /** A feature's attributes, rendered as strings. */
  type Feature = map<string, string>

  /**
   * What the JSON-to-frame conversion gave: the frame, or `None` when it
   * raised `EmptyResponseError`.
   */
  type Parsed = Option<seq<Feature>>

  /** `_to_geodf`: an empty response or an empty frame becomes `ZeroMatchedError`. */
  function ToGeoDf(parsed: Parsed): (r: Result<seq<Feature>, Error>)
    ensures r.Ok? <==> parsed.Some? && |parsed.value| > 0
    ensures r.Ok? ==> r.value == parsed.value
    ensures r.Err? ==> r.error == ZeroMatched(None) && Message(r.error) == NoFeatures
  {
    if parsed.None? || |parsed.value| == 0 then Err(ZeroMatched(None)) else Ok(parsed.value)
  }

  /** An ID as given to `byid`. */
  datatype Id = IntId(n: int) | StrId(s: string)

  /** `featureids`: one ID or a sequence of them. */
  datatype Ids = OneId(id: Id) | IdList(ids: seq<Id>)

  function IdText(id: Id): string
  {
    match id
    case IntId(n) => IntToString(n)
    case StrId(s) => s
  }

  /** `fids`: the requested IDs as strings; a single ID is a one-element list. */
  function Fids(ids: Ids): (r: seq<string>)
    ensures ids.OneId? ==> r == [IdText(ids.id)]
  {
    match ids
    case OneId(id) => [IdText(id)]
    case IdList(list) => seq(|list|, k requires 0 <= k < |list| => IdText(list[k]))
  }

  /** `features[featurename].astype(str)`: a missing value reads as `nan`. */
  function Column(features: seq<Feature>, name: string): (r: seq<string>)
    ensures |r| == |features|
  {
    seq(|features|, k requires 0 <= k < |features| => if name in features[k] then features[k][name] else "nan")
  }

  /** The requested IDs that no returned feature carries. */
  function Failed(fids: seq<string>, returned: seq<string>): set<string>
  {
    (set f | f in fids) - (set f | f in returned)
  }

  /** An ID is failed exactly when it was requested and not returned. */
  lemma FailedMeaning(fids: seq<string>, returned: seq<string>, f: string)
    ensures f in Failed(fids, returned) <==> f in fids && f !in returned
    ensures |Failed(fids, returned)| <= |fids|
  {
    FailedBound(fids, returned);
  }

  lemma {:induction false} FailedBound(fids: seq<string>, returned: seq<string>)
    ensures |Failed(fids, returned)| <= |fids|
  {
    if |fids| > 0 {
      FailedBound(fids[1..], returned);
      assert (set f | f in fids) == (set f | f in fids[1..]) + {fids[0]};
      var head := if fids[0] in returned then {} else {fids[0]};
      assert Failed(fids, returned) == Failed(fids[1..], returned) + head;
    } else {
      assert Failed(fids, returned) == {};
    }
  }

  /** The `UserWarning` `byid` issues: the failed IDs and the request count. */
  datatype Warning = Warning(failed: set<string>, requested: nat)

  /**
   * The warning text. The failed IDs are rendered by `render`, because
   * `list(failed)` follows the set's iteration order.
   */
  function WarningText(w: Warning, render: set<string> -> string): string
  {
    NatToString(|w.failed|) + " of " + NatToString(w.requested) + " requests failed." + ". "
      + "IDs of the failed requests are " + render(w.failed)
  }

  /** The outcome of `byid`: the features, and the warning if one was issued. */
  datatype Lookup = Lookup(features: seq<Feature>, warning: Option<Warning>)

  /**
   * `byid` after the WFS request: the response is converted, the failed IDs
   * are computed, and the features come back unchanged whether or not a
   * warning is issued.
   */
  function ById(parsed: Parsed, featurename: string, ids: Ids): (r: Result<Lookup, Error>)
    ensures r.Ok? <==> ToGeoDf(parsed).Ok?
    ensures r.Ok? ==> r.value.features == parsed.value
    ensures r.Ok? ==> (r.value.warning.Some? <==> Failed(Fids(ids), Column(parsed.value, featurename)) != {})
    ensures r.Ok? && r.value.warning.Some? ==>
      r.value.warning.value == Warning(Failed(Fids(ids), Column(parsed.value, featurename)), |Fids(ids)|)
  {
    match ToGeoDf(parsed)
    case Err(e) => Err(e)
    case Ok(features) =>
      var fids := Fids(ids);
      var failed := Failed(fids, Column(features, featurename));
      Ok(Lookup(features, if failed != {} then Some(Warning(failed, |fids|)) else None))
  }

  /** Asking for one ID is asking for a one-element list of it. */
  lemma ByIdScalar(parsed: Parsed, featurename: string, id: Id)
    ensures ById(parsed, featurename, OneId(id)) == ById(parsed, featurename, IdList([id]))
  {
    assert Fids(IdList([id])) == [IdText(id)];
  }

  /** When every requested ID is returned, no warning is issued. */
  lemma ByIdAllFound(parsed: Parsed, featurename: string, ids: Ids)
    requires ToGeoDf(parsed).Ok?
    requires forall f :: f in Fids(ids) ==> f in Column(parsed.value, featurename)
    ensures ById(parsed, featurename, ids).value.warning.None?
  {
    var failed := Failed(Fids(ids), Column(parsed.value, featurename));
    forall f ensures f !in failed {
      FailedMeaning(Fids(ids), Column(parsed.value, featurename), f);
    }
    assert failed == {};
  }

  const CoordsError := InputType("coods", "tuple of length 2", Some("(x, y)"))

  /** `coords` as given: a tuple with its elements, or some other value. */
  datatype Coords = TupleCoords(items: seq<real>) | OtherCoords

  /** The CQL filter: the point is written latitude first, as `POINT(y x)`. */
  function DistanceFilter(geomName: string, x: real, y: real, distance: int, fmt: real -> string): string
  {
    "DWITHIN(" + geomName + ",POINT(" + fmt(y) + " " + fmt(x) + ")," + IntToString(distance) + ",meters)"
  }

  /**
   * `bydistance`: anything but a pair of coordinates is rejected before any
   * request; otherwise the point is reprojected, the filter is built on the
   * layer's geometry column (`the_geom` when the schema names none), and the
   * response is converted.
   */
  function ByDistance(coords: Coords, distance: int, reproject: (real, real) -> (real, real),
                      geometryColumn: Option<string>, fmt: real -> string, fetch: string -> Parsed)
    : (r: Result<seq<Feature>, Error>)
    ensures !(coords.TupleCoords? && |coords.items| == 2) ==> r == Err(CoordsError)
    ensures coords.TupleCoords? && |coords.items| == 2 ==>
      var p := reproject(coords.items[0], coords.items[1]);
      var geom := if geometryColumn.Some? then geometryColumn.value else "the_geom";
      r == ToGeoDf(fetch(DistanceFilter(geom, p.0, p.1, distance, fmt)))
  {
    if !(coords.TupleCoords? && |coords.items| == 2) then Err(CoordsError)
    else
      var p := reproject(coords.items[0], coords.items[1]);
      var geom := if geometryColumn.Some? then geometryColumn.value else "the_geom";
      ToGeoDf(fetch(DistanceFilter(geom, p.0, p.1, distance, fmt)))
  }
}
