/**
 * The selection and parsing rules of `SpeemOptimizer` in `src/cosy/optimizer.py`: the choice of
 * the COSY map procedure from the objectives, the normalisation of the `objectives` property,
 * and the fixed-width splitting of an aberration listing written by COSY.
 */
module Optimizer {
  import opened Wrappers
  import opened Text
  import opened Objective

  // ---------------------------------------------------------------- map procedure

  /** The COSY procedures that convert the map for angle- and spatially resolved imaging. */
  const ArConversionMap: string := "ArConversionMap"
  const SrConversionMap: string := "SrConversionMap"

  /**
   * The map procedure after `_update_map_procedure`, given the one stored before (`current`):
   * unchanged without objectives; otherwise chosen from the call of the last objective alone,
   * `Angle` winning over `Spatial`, and `None` when it names neither.
   */
  function MapProcedure(objectives: seq<ObjectiveFunction>, current: Option<string>): (r: Option<string>)
    ensures objectives == [] ==> r == current
    ensures objectives != [] ==>
      && (r == Some(ArConversionMap) <==> Contains(objectives[|objectives| - 1].call, "Angle"))
      && (r == Some(SrConversionMap) <==>
            !Contains(objectives[|objectives| - 1].call, "Angle") && Contains(objectives[|objectives| - 1].call, "Spatial"))
      && (r.None? <==>
            !Contains(objectives[|objectives| - 1].call, "Angle") && !Contains(objectives[|objectives| - 1].call, "Spatial"))
  {
    if objectives == [] then current
    else
      var call := objectives[|objectives| - 1].call;
      if Contains(call, "Angle") then Some(ArConversionMap)
      else if Contains(call, "Spatial") then Some(SrConversionMap)
      else None
  }

  /** Only the last objective is looked at, and the earlier map procedure is forgotten. */
  lemma LastObjectiveDecides(earlier: seq<ObjectiveFunction>, last: ObjectiveFunction, current: Option<string>, other: Option<string>)
    ensures MapProcedure(earlier + [last], current) == MapProcedure([last], other)
  {
    assert (earlier + [last])[|earlier + [last]| - 1] == last;
  }

  /** The endpoint and the COSY lines of the last objective play no part in the choice. */
  lemma OnlyCallDecides(earlier: seq<ObjectiveFunction>, a: ObjectiveFunction, b: ObjectiveFunction, current: Option<string>)
    requires a.call == b.call
    ensures MapProcedure(earlier + [a], current) == MapProcedure(earlier + [b], current)
  {
    LastObjectiveDecides(earlier, a, current, current);
    LastObjectiveDecides(earlier, b, current, current);
  }

  /** Scaling an angle-resolved objective keeps the angle-resolved map. */
  lemma ScalingKeepsAngleMap(o: ObjectiveFunction, value: string, current: Option<string>)
    requires Contains(o.call, "Angle")
    ensures MapProcedure([Mul(o, value)], current) == Some(ArConversionMap)
    ensures MapProcedure([TrueDiv(o, value)], current) == Some(ArConversionMap)
  {
    ContainsExtended(o.call, "*" + value, "Angle");
    ContainsExtended(o.call, "/" + value, "Angle");
    assert Mul(o, value).call == o.call + ("*" + value);
    assert TrueDiv(o, value).call == o.call + ("/" + value);
  }

  /** A sum with an angle-resolved objective on either side selects the angle-resolved map. */
  lemma SumWithAngleSelectsAngleMap(a: ObjectiveFunction, b: ObjectiveFunction, current: Option<string>)
    requires a.endpoint == b.endpoint
    requires Contains(a.call, "Angle") || Contains(b.call, "Angle")
    ensures MapProcedure([Add(a, b).value], current) == Some(ArConversionMap)
  {
    var call := Add(a, b).value.call;
    if Contains(a.call, "Angle") {
      ContainsPrefixed("(", a.call, "Angle");
      ContainsExtended("(" + a.call, " + " + b.call + ")", "Angle");
      assert call == ("(" + a.call) + (" + " + b.call + ")");
    } else {
      ContainsPrefixed("(" + a.call + " + ", b.call, "Angle");
      ContainsExtended("(" + a.call + " + " + b.call, ")", "Angle");
    }
  }

  /** An objective built with a procedure name containing `Angle` selects the angle-resolved map. */
  lemma AngleNamedSelectsAngleMap(o: ObjectiveFunction, endpoint: string, name: string, size: nat, current: Option<string>)
    requires Built(o, endpoint, name, size) && Contains(name, "Angle")
    ensures MapProcedure([o], current) == Some(ArConversionMap)
  {
    ContainsExtended(name, "(none)", "Angle");
  }

  /** An objective built with a procedure name containing `Spatial` but no `A` selects the spatially resolved map. */
  lemma SpatialNamedSelectsSpatialMap(o: ObjectiveFunction, endpoint: string, name: string, size: nat, current: Option<string>)
    requires Built(o, endpoint, name, size) && Contains(name, "Spatial") && 'A' !in name
    ensures MapProcedure([o], current) == Some(SrConversionMap)
  {
    ContainsExtended(name, "(none)", "Spatial");
    assert 'A' !in o.call by {
      assert forall k :: 0 <= k < |o.call| ==> o.call[k] == if k < |name| then name[k] else "(none)"[k - |name|];
    }
    if Contains(o.call, "Angle") {
      ContainsFirstChar(o.call, "Angle");
      assert false;
    }
  }

  /** The default angle-named objectives select the angle-resolved map, the spatial ones the spatially resolved map. */
  lemma DefaultNamesSelectMaps(endpoint: string, d: string, current: Option<string>)
    ensures MapProcedure([AngleResolvedObjectiveFunction(endpoint, d, AngleResolvedName)], current) == Some(ArConversionMap)
    ensures MapProcedure([SpatialResolvedObjectiveFunction(endpoint, d, SpatialResolvedName)], current) == Some(SrConversionMap)
  {
    assert AngleResolvedName[..5] == "Angle";
    AngleNamedSelectsAngleMap(AngleResolvedObjectiveFunction(endpoint, d, AngleResolvedName), endpoint, AngleResolvedName, 5, current);
    assert SpatialResolvedName[..7] == "Spatial";
    SpatialNamedSelectsSpatialMap(SpatialResolvedObjectiveFunction(endpoint, d, SpatialResolvedName), endpoint, SpatialResolvedName, 5, current);
  }

  // ---------------------------------------------------------------- objectives setter

  /** What the `objectives` setter accepts: `None`, one objective, or a list of them. */
  datatype ObjectivesArg = NoObjectives | One(objective: ObjectiveFunction) | Many(objectives: seq<ObjectiveFunction>)

  /** The setter's normalisation: `None` is the empty list and one objective a one-element list. */
  function Normalise(arg: ObjectivesArg): (objectives: seq<ObjectiveFunction>)
    ensures arg.NoObjectives? ==> objectives == []
    ensures arg.One? ==> objectives == [arg.objective]
    ensures arg.Many? ==> objectives == arg.objectives
  {
    match arg
    case NoObjectives => []
    case One(o) => [o]
    case Many(os) => os
  }

  /**
   * Setting one objective selects the same map as setting any list that ends with it; setting
   * `None` keeps the map that was selected before.
   */
  lemma SettingOneIsSettingAList(earlier: seq<ObjectiveFunction>, o: ObjectiveFunction, current: Option<string>, other: Option<string>)
    ensures MapProcedure(Normalise(One(o)), current) == MapProcedure(Normalise(Many(earlier + [o])), other)
    ensures MapProcedure(Normalise(NoObjectives), current) == current
  {
    LastObjectiveDecides(earlier, o, other, current);
  }

  /** The objectives and map-procedure state of a `SpeemOptimizer`. */
  class SpeemOptimizer {
    var objectives: seq<ObjectiveFunction>
    var mapProcedure: Option<string>

    /** The map procedure starts as the class default `None`, then the setter runs. */
    constructor (arg: ObjectivesArg)
      ensures objectives == Normalise(arg)
      ensures mapProcedure == MapProcedure(Normalise(arg), None)
    {
      objectives := Normalise(arg);
      mapProcedure := None;
      new;
      UpdateMapProcedure();
    }

    /** `_update_map_procedure`. */
    method UpdateMapProcedure()
      modifies this
      ensures objectives == old(objectives)
      ensures mapProcedure == MapProcedure(objectives, old(mapProcedure))
    {
      if objectives == [] {
        return;
      }
      var call := objectives[|objectives| - 1].call;
      if Contains(call, "Angle") {
        mapProcedure := Some(ArConversionMap);
      } else if Contains(call, "Spatial") {
        mapProcedure := Some(SrConversionMap);
      } else {
        mapProcedure := None;
      }
    }

    /** The `objectives` setter: normalise, store, then update the map procedure. */
    method SetObjectives(arg: ObjectivesArg)
      modifies this
      ensures objectives == Normalise(arg)
      ensures mapProcedure == MapProcedure(Normalise(arg), old(mapProcedure))
    {
      var normalised: seq<ObjectiveFunction>;
      match arg {
        case NoObjectives => normalised := [];
        case One(o) => normalised := [o];
        case Many(os) => normalised := os;
      }
      objectives := normalised;
      UpdateMapProcedure();
    }
  }

  // ---------------------------------------------------------------- aberration listing

  /** Width of one aberration coefficient in the listing, and coefficients per line. */
  const ItemLength: nat := 14
  const ItemsPerLine: nat := 5

  /** Where the trailing field starts: after the coefficients and one separator character. */
  const TailStart: nat := ItemLength * ItemsPerLine + 2

  /** A Python slice bound: negative counts from the end, then clamped into the string. */
  function SliceBound(k: int, n: nat): (b: nat)
    ensures b <= n
    ensures 0 <= k <= n ==> b == k
    ensures k < 0 && k + n >= 0 ==> b == k + n
    ensures k > n ==> b == n
    ensures k + n < 0 ==> b == 0
  {
    if k < 0 then (if k + n < 0 then 0 else k + n)
    else if k > n then n
    else k
  }

  /** Python's `s[i:j]`: out-of-range bounds are clamped, and an empty range gives the empty string. */
  function PySlice(s: string, i: int, j: int): (r: string)
    ensures |r| <= |s|
    ensures 0 <= i <= j <= |s| ==> r == s[i..j]
    ensures i >= |s| ==> r == []
  {
    var a := SliceBound(i, |s|);
    var b := SliceBound(j, |s|);
    if a < b then s[a..b] else []
  }

  /** Field `i` of a listing line: `line[1 + 14i : 1 + 14(i + 1)]`. */
  function Field(line: string, i: nat): (field: string)
    ensures |field| <= ItemLength
    ensures |line| >= 1 + (i + 1) * ItemLength ==> field == line[1 + i * ItemLength..1 + (i + 1) * ItemLength]
    ensures |line| <= 1 + i * ItemLength ==> field == []
  {
    PySlice(line, 1 + i * ItemLength, 1 + (i + 1) * ItemLength)
  }

  /** One row of `_format_aberrations`: the five coefficient fields, then `line[72:-1]`. */
  function AberrationRow(line: string): (row: seq<string>)
    ensures |row| == ItemsPerLine + 1
    ensures forall i :: 0 <= i < ItemsPerLine ==> row[i] == Field(line, i)
    ensures row[ItemsPerLine] == PySlice(line, TailStart, -1)
    ensures |line| > TailStart ==> row[ItemsPerLine] == line[TailStart..|line| - 1]
    ensures |line| <= TailStart + 1 ==> row[ItemsPerLine] == []
  {
    [Field(line, 0), Field(line, 1), Field(line, 2), Field(line, 3), Field(line, 4), PySlice(line, TailStart, -1)]
  }

  /**
   * A complete line is its leading character, the five fields, the separator, the tail field
   * and the final character (the newline): nothing but those three characters is dropped.
   */
  lemma RowReassembles(line: string)
    requires |line| >= TailStart + 1
    ensures var row := AberrationRow(line);
      line == line[..1] + row[0] + row[1] + row[2] + row[3] + row[4] + line[TailStart - 1..TailStart] + row[5] + line[|line| - 1..]
  {
    var row := AberrationRow(line);
    assert row[0] == line[1..15] && row[1] == line[15..29] && row[2] == line[29..43];
    assert row[3] == line[43..57] && row[4] == line[57..71];
    assert row[5] == line[72..|line| - 1];
    assert line == line[..1] + line[1..15] + line[15..29] + line[29..43] + line[43..57] + line[57..71]
      + line[71..72] + line[72..|line| - 1] + line[|line| - 1..];
  }

  /**
   * `_format_aberrations`: the last line of the listing is ignored and every other line becomes
   * one row, in order.
   */
  method FormatAberrations(lines: seq<string>) returns (rows: seq<seq<string>>)
    ensures |rows| == if |lines| == 0 then 0 else |lines| - 1
    ensures forall k :: 0 <= k < |rows| ==> rows[k] == AberrationRow(lines[k])
  {
    var body := if |lines| == 0 then [] else lines[..|lines| - 1];
    rows := [];
    var k := 0;
    while k < |body|
      invariant 0 <= k <= |body|
      invariant |rows| == k
      invariant forall m :: 0 <= m < k ==> rows[m] == AberrationRow(body[m])
    {
      rows := rows + [AberrationRow(body[k])];
      k := k + 1;
    }
  }
}
