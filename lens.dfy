/**
 * The lens geometry builder of `src/cosy/lens.py`.
 *
 * A `Lens` is drawn with a cursor: `Start` places it, `Line`/`Horizontal`/`Vertical`/`Arc`
 * draw from it. Every drawing call appends one electrode row to `coefE` and one ring row
 * (the electrode boundary offset by `erSpacing`) to `coefR`. Rows use the solver's 10-slot
 * layout (0-based, as in the source):
 *   slot 0 points, slot 1 type (1 line, 2 arc), slot 2 voltage,
 *   line: slots 3..6 = z start, r start, z end, r end; slots 7..9 = 0
 *   arc:  slot 3 start angle, slot 5 end angle (degrees), slots 4, 6 = 0,
 *         slot 7 radius, slot 8 centre z, slot 9 centre r.
 *
 * Each state-changing method of the class is specified by a pure step function on a
 * `Snapshot` of the fields; the properties of the builder are stated about those functions.
 */
module Lens {
  import opened Wrappers

  const LINE: int := 1
  const ARC: int := 2

  /**
   * The floating-point library calls the builder makes, as values: `sqrt`,
   * `degrees(atan2(y, x))`, `sin(radians(a))`, `cos(radians(a))`, `tan(radians(a))`,
   * `radians(a)` and `round(x, digits)`. Only `sqrt` is constrained (`SqrtIsRoot`).
   */
  datatype Numerics = Numerics(
    sqrt: real -> real,
    atan2Deg: (real, real) -> real,
    sinDeg: real -> real,
    cosDeg: real -> real,
    tanDeg: real -> real,
    radians: real -> real,
    round: (real, int) -> real)

  /** `sqrt` returns the non-negative square root of a non-negative argument, positive for a positive one. */
  ghost predicate SqrtIsRoot(num: Numerics)
  {
    forall x: real {:trigger num.sqrt(x)} ::
      0.0 <= x ==> 0.0 <= num.sqrt(x) && num.sqrt(x) * num.sqrt(x) == x && (0.0 < x ==> 0.0 < num.sqrt(x))
  }

  /** The fields of a `Lens` that no method changes. */
  datatype Config = Config(pointSpacing: real, erSpacing: real, zOffset: real, num: Numerics)

  ghost predicate ConfigOk(cfg: Config)
  {
    cfg.pointSpacing > 0.0 && SqrtIsRoot(cfg.num)
  }

  /** One row of `coefE` or `coefR`; field `sK` is slot K. */
  datatype Row = Row(points: int, kind: int, voltage: int,
                     s3: real, s4: real, s5: real, s6: real, s7: real, s8: real, s9: real)

  /** `prev_piece`: `None`, `"start"`, `"line"` or `"arc"`. */
  datatype PrevPiece = NoPiece | StartPiece | LinePiece | ArcPiece

  /** How a call ends: normally, or with the exception the source raises. */
  datatype Status =
    | Ok
    | Degenerate     // ValueError: a line, horizontal or vertical that goes nowhere
    | NoDirection    // ValueError: an arc with no stored start direction
    | BadIndex       // IndexError: a piece index out of range in `mirror`
    | NonsenseType   // ValueError: a row whose type is neither 1 nor 2 in `mirror`
    | CountMismatch  // Exception: electrode and ring point totals differ in `check`

  /**
   * The values of the mutable fields of a `Lens`; `nPieces` is the insertion-ordered
   * `n_pieces` dict. `rowIds` records which positions of `coefE` and `coefR` hold the same
   * Python list objects: each row object is named by the first position that holds it.
   */
  datatype Snapshot = Snapshot(
    zStart: real, rStart: real, startDirection: Option<real>, prevPiece: PrevPiece, voltage: int,
    coefE: seq<Row>, coefR: seq<Row>, rowIds: seq<nat>, nPieces: seq<(string, int)>, nTotal: int)

  /** The state a call leaves behind (also when it raises) and how it ended. */
  datatype Outcome = Outcome(after: Snapshot, status: Status)

  /** Electrode and ring rows at the same positions agree on point count and type, and rings carry voltage 0. */
  ghost predicate Paired(es: seq<Row>, gs: seq<Row>)
  {
    |es| == |gs| &&
    forall i :: 0 <= i < |es| ==> es[i].points == gs[i].points && es[i].kind == gs[i].kind && gs[i].voltage == 0
  }

  /**
   * Object identity: `ids[i]` names the row objects at position `i` (an electrode row and a
   * ring row are shared at the same positions) by a position at or before `i`, so an object
   * created at the end of the tables gets an unused name, and positions that hold one
   * object hold equal rows.
   */
  ghost predicate Identities(ids: seq<nat>, es: seq<Row>, gs: seq<Row>)
  {
    && |ids| == |es|
    && (forall i :: 0 <= i < |ids| ==> ids[i] <= i)
    && Alike(es, gs, ids)
  }

  /**
   * The lockstep invariant: one ring row per electrode row, with the same point count and
   * type, every ring row grounded, shared rows equal, and a stored direction whenever a
   * piece was just drawn.
   */
  ghost predicate Inv(s: Snapshot)
  {
    && Paired(s.coefE, s.coefR)
    && Identities(s.rowIds, s.coefE, s.coefR)
    && (s.prevPiece == LinePiece ==> |s.coefR| >= 1)
    && (s.prevPiece == LinePiece || s.prevPiece == ArcPiece ==> s.startDirection.Some?)
  }

  /** A newly created row pair is an object of its own, named by its position. */
  lemma IdentitiesFresh(ids: seq<nat>, es: seq<Row>, gs: seq<Row>, e: Row, g: Row)
    requires Identities(ids, es, gs)
    ensures Identities(ids + [|ids|], es + [e], gs + [g])
  {
    var n := |ids|;
    var ids', es', gs' := ids + [n], es + [e], gs + [g];
    forall i, j | 0 <= i < |ids'| && 0 <= j < |ids'|
      ensures SameObjectAlike(es', gs', ids', i, j)
    {
      if i < n && j < n {
        assert SameObjectAlike(es, gs, ids, i, j);
        assert ids'[i] == ids[i] && ids'[j] == ids[j] && es'[i] == es[i] && es'[j] == es[j] && gs'[i] == gs[i] && gs'[j] == gs[j];
      } else if i < n {
        assert ids'[i] == ids[i] <= i < n == ids'[j];
      } else if j < n {
        assert ids'[j] == ids[j] <= j < n == ids'[i];
      }
    }
  }

  // ---------------------------------------------------------------- arithmetic helpers

  /** Python's `math.ceil`. */
  function Ceil(x: real): (n: int)
    ensures x <= n as real < x + 1.0
  {
    -((-x).Floor)
  }

  function Abs(x: real): (a: real)
    ensures 0.0 <= a && (a == x || a == -x)
  {
    if x < 0.0 then -x else x
  }

  /** `ceil(length / point_spacing)`: the number of points a piece of this length gets. */
  function PointCount(cfg: Config, length: real): (n: int)
    requires cfg.pointSpacing > 0.0
    ensures length > 0.0 ==> n >= 1
  {
    Ceil(length / cfg.pointSpacing)
  }

  /** Sum of slot 0 over the rows. */
  function SumPoints(rows: seq<Row>): int
  {
    if rows == [] then 0 else SumPoints(rows[..|rows| - 1]) + rows[|rows| - 1].points
  }

  /** Rows with equal point counts index by index have equal point sums. */
  lemma {:induction false} SumPointsLockstep(a: seq<Row>, b: seq<Row>)
    requires |a| == |b|
    requires forall i :: 0 <= i < |a| ==> a[i].points == b[i].points
    ensures SumPoints(a) == SumPoints(b)
  {
    if a != [] {
      SumPointsLockstep(a[..|a| - 1], b[..|b| - 1]);
    }
  }

  // ---------------------------------------------------------------- start

  /** `start`: moves the cursor, picks the voltage group, forgets the direction; draws nothing. */
  function StartStep(s: Snapshot, z: real, r: real, voltageGroup: Option<int>): (t: Snapshot)
    ensures t.coefE == s.coefE && t.coefR == s.coefR && t.nPieces == s.nPieces && t.nTotal == s.nTotal
    ensures t.zStart == z && t.rStart == r
    ensures t.startDirection == None && t.prevPiece == StartPiece
    ensures voltageGroup.Some? ==> t.voltage == voltageGroup.value
    ensures voltageGroup.None? ==> t.voltage == s.voltage + 1
    ensures Inv(s) ==> Inv(t)
  {
    s.(voltage := if voltageGroup.Some? then voltageGroup.value else s.voltage + 1,
       zStart := z, rStart := r, startDirection := None, prevPiece := StartPiece)
  }

  // ---------------------------------------------------------------- line

  /** `sqrt(dz ** 2 + dr ** 2)`. */
  function Hypot(num: Numerics, dz: real, dr: real): real
  {
    num.sqrt(dz * dz + dr * dr)
  }

  /** The Euclidean length of a vector that is not zero is positive and squares back to the sum of squares. */
  lemma HypotPositive(num: Numerics, dz: real, dr: real)
    requires SqrtIsRoot(num)
    requires dz != 0.0 || dr != 0.0
    ensures Hypot(num, dz, dr) > 0.0
    ensures Hypot(num, dz, dr) * Hypot(num, dz, dr) == dz * dz + dr * dr
  {
    if dz > 0.0 || dz < 0.0 {
      assert dz * dz > 0.0;
    } else {
      assert dr * dr > 0.0;
    }
    assert dz * dz >= 0.0 && dr * dr >= 0.0;
    assert dz * dz + dr * dr > 0.0;
  }

  /** The length of the line from the cursor to `(zEnd, rEnd)`. */
  function LineLength(cfg: Config, s: Snapshot, zEnd: real, rEnd: real): real
  {
    Hypot(cfg.num, zEnd - s.zStart, rEnd - s.rStart)
  }

  /** A line that goes somewhere has a positive length. */
  lemma LineLengthPositive(cfg: Config, s: Snapshot, zEnd: real, rEnd: real)
    requires SqrtIsRoot(cfg.num)
    requires !(zEnd == s.zStart && rEnd == s.rStart)
    ensures LineLength(cfg, s, zEnd, rEnd) > 0.0
  {
    HypotPositive(cfg.num, zEnd - s.zStart, rEnd - s.rStart);
  }

  /** `_calc_z_shift`: the ring line's z at both ends. */
  function ZShift(erSpacing: real, zStart: real, rStart: real, zEnd: real, rEnd: real, length: real): (z: (real, real))
    requires length != 0.0
    ensures z.0 - zStart == z.1 - zEnd
  {
    var sinTheta := (rEnd - rStart) / length;
    var dz := -erSpacing * sinTheta;
    (zStart + dz, zEnd + dz)
  }

  /** `_calc_r_shift`: the ring line's r at both ends. */
  function RShift(erSpacing: real, zStart: real, rStart: real, zEnd: real, rEnd: real, length: real): (r: (real, real))
    requires length != 0.0
    ensures r.0 - rStart == r.1 - rEnd
  {
    var cosTheta := (zEnd - zStart) / length;
    var dr := erSpacing * cosTheta;
    (rStart + dr, rEnd + dr)
  }

  /** The electrode row `line` appends. */
  function ElectrodeLine(cfg: Config, s: Snapshot, zEnd: real, rEnd: real, n: int): Row
  {
    Row(n, LINE, s.voltage, s.zStart + cfg.zOffset, s.rStart, zEnd + cfg.zOffset, rEnd, 0.0, 0.0, 0.0)
  }

  /** The ring row `line` appends, before any corner correction. */
  function RingLine(cfg: Config, s: Snapshot, zEnd: real, rEnd: real, n: int, length: real): Row
    requires length != 0.0
  {
    var z := ZShift(cfg.erSpacing, s.zStart, s.rStart, zEnd, rEnd, length);
    var r := RShift(cfg.erSpacing, s.zStart, s.rStart, zEnd, rEnd, length);
    Row(n, LINE, 0, z.0 + cfg.zOffset, r.0, z.1 + cfg.zOffset, r.1, 0.0, 0.0, 0.0)
  }

  /**
   * The ring line is the electrode line translated, at both ends, by one vector: the
   * line's left normal scaled by `erSpacing / length`, where `length` is the Euclidean
   * length of the line; the offset is therefore perpendicular to the line. The ring row
   * is grounded and has as many points as the electrode row.
   */
  lemma RingLineIsPerpendicularOffset(cfg: Config, s: Snapshot, zEnd: real, rEnd: real, n: int)
    requires SqrtIsRoot(cfg.num)
    requires !(zEnd == s.zStart && rEnd == s.rStart)
    ensures LineLength(cfg, s, zEnd, rEnd) > 0.0
    ensures
      var len := LineLength(cfg, s, zEnd, rEnd);
      var e := ElectrodeLine(cfg, s, zEnd, rEnd, n);
      var g := RingLine(cfg, s, zEnd, rEnd, n, len);
      var dz, dr := g.s3 - e.s3, g.s4 - e.s4;
      && g.s5 - e.s5 == dz && g.s6 - e.s6 == dr
      && dz * len == -cfg.erSpacing * (rEnd - s.rStart)
      && dr * len == cfg.erSpacing * (zEnd - s.zStart)
      && dz * (zEnd - s.zStart) + dr * (rEnd - s.rStart) == 0.0
      && g.voltage == 0 && g.points == e.points && g.kind == e.kind == LINE
  {
    LineLengthPositive(cfg, s, zEnd, rEnd);
    var len := LineLength(cfg, s, zEnd, rEnd);
    NormalOffset(cfg.erSpacing, zEnd - s.zStart, rEnd - s.rStart, len);
  }

  /** `(-es * b / len, es * a / len)` scaled back by `len` is `es` times the left normal of `(a, b)`, and is perpendicular to `(a, b)`. */
  lemma NormalOffset(es: real, a: real, b: real, len: real)
    requires len != 0.0
    ensures (-es * (b / len)) * len == -es * b
    ensures (es * (a / len)) * len == es * a
    ensures (-es * (b / len)) * a + (es * (a / len)) * b == 0.0
  {
  }

  /** The miter length `round(erSpacing * tan((prev - curr) / 2), 15)`. */
  function Miter(cfg: Config, prevDirection: real, currDirection: real): real
  {
    cfg.num.round(cfg.erSpacing * cfg.num.tanDeg((prevDirection - currDirection) / 2.0), 15)
  }

  /** `b` is `a` with at most slots 5 and 6 (a line's end point) changed. */
  predicate EndMoved(a: Row, b: Row)
  {
    b == a.(s5 := b.s5, s6 := b.s6)
  }

  /** `b` is `a` with at most slots 3 and 4 (a line's start point) changed. */
  predicate StartMoved(a: Row, b: Row)
  {
    b == a.(s3 := b.s3, s4 := b.s4)
  }

  /** A line row whose end point is pushed `l` further along `direction`. */
  function EndExtended(cfg: Config, p: Row, l: real, direction: real): (e: Row)
    ensures EndMoved(p, e)
  {
    p.(s5 := p.s5 + l * cfg.num.cosDeg(direction), s6 := p.s6 + l * cfg.num.sinDeg(direction))
  }

  /** A line row whose start point is pulled `l` back against `direction`. */
  function StartRetracted(cfg: Config, q: Row, l: real, direction: real): (e: Row)
    ensures StartMoved(q, e)
  {
    q.(s3 := q.s3 - l * cfg.num.cosDeg(direction), s4 := q.s4 - l * cfg.num.sinDeg(direction))
  }

  /** `_corner_correction` on the ring rows (see `CornerCorrectedMoves`). */
  function CornerCorrected(cfg: Config, rows: seq<Row>, ids: seq<nat>, prevDirection: real, currDirection: real)
    : (c: seq<Row>)
    requires |rows| >= 2 && |ids| == |rows|
    requires forall j :: 0 <= j < |rows| - 1 ==> ids[j] != ids[|rows| - 1]
    ensures |c| == |rows|
  {
    var k := |rows|;
    var l := Miter(cfg, prevDirection, currDirection);
    var ended := Written(rows, ids, ids[k - 2], EndExtended(cfg, rows[k - 2], l, prevDirection));
    ended[k - 1 := StartRetracted(cfg, rows[k - 1], l, currDirection)]
  }

  /**
   * Corner correction: the end of the second-to-last ring row object moves by the miter
   * along the previous direction, which every position holding that object shows, and the
   * start of the last row, an object of its own, moves back by it along the current
   * direction; every other row and slot is left as it was.
   */
  lemma CornerCorrectedMoves(cfg: Config, rows: seq<Row>, ids: seq<nat>, prevDirection: real, currDirection: real)
    requires |rows| >= 2 && |ids| == |rows|
    requires forall j :: 0 <= j < |rows| - 1 ==> ids[j] != ids[|rows| - 1]
    ensures var c := CornerCorrected(cfg, rows, ids, prevDirection, currDirection);
      && EndMoved(rows[|rows| - 2], c[|rows| - 2]) && StartMoved(rows[|rows| - 1], c[|rows| - 1])
      && var l := Miter(cfg, prevDirection, currDirection);
      && c[|rows| - 1] == StartRetracted(cfg, rows[|rows| - 1], l, currDirection)
      && forall j :: 0 <= j < |rows| - 1 ==>
           c[j] == if ids[j] == ids[|rows| - 2] then EndExtended(cfg, rows[|rows| - 2], l, prevDirection) else rows[j]
  {
  }

  /** The direction of travel of a line, `degrees(atan2(dr, dz))`. */
  function Direction(cfg: Config, s: Snapshot, zEnd: real, rEnd: real): real
  {
    Heading(cfg, s.zStart, s.rStart, zEnd, rEnd)
  }

  /** The direction of travel from `(zFrom, rFrom)` to `(zEnd, rEnd)`, in degrees. */
  function Heading(cfg: Config, zFrom: real, rFrom: real, zEnd: real, rEnd: real): real
  {
    cfg.num.atan2Deg(rEnd - rFrom, zEnd - zFrom)
  }

  /** The state right after `line` appended its electrode row and its ring row, new objects both. */
  function LineAppended(cfg: Config, s: Snapshot, zEnd: real, rEnd: real): (t: Snapshot)
    requires SqrtIsRoot(cfg.num) && cfg.pointSpacing > 0.0
    requires !(zEnd == s.zStart && rEnd == s.rStart)
    ensures |t.coefR| == |s.coefR| + 1 && t.coefR[..|s.coefR|] == s.coefR && t.rowIds == s.rowIds + [|s.rowIds|]
  {
    LineLengthPositive(cfg, s, zEnd, rEnd);
    var len := LineLength(cfg, s, zEnd, rEnd);
    var n := PointCount(cfg, len);
    s.(coefE := s.coefE + [ElectrodeLine(cfg, s, zEnd, rEnd, n)],
       coefR := s.coefR + [RingLine(cfg, s, zEnd, rEnd, n, len)],
       rowIds := s.rowIds + [|s.rowIds|])
  }

  /** `_corner_correction(end_z, end_r)` on a state: corrects the ring table and stores the new direction. */
  function CornerStep(cfg: Config, t: Snapshot, zEnd: real, rEnd: real): (u: Snapshot)
    requires |t.coefR| >= 2 && |t.rowIds| == |t.coefR| && t.startDirection.Some?
    requires forall j :: 0 <= j < |t.coefR| - 1 ==> t.rowIds[j] != t.rowIds[|t.coefR| - 1]
    ensures u.startDirection.Some? && |u.coefR| == |t.coefR|
  {
    var curr := Heading(cfg, t.zStart, t.rStart, zEnd, rEnd);
    t.(coefR := CornerCorrected(cfg, t.coefR, t.rowIds, t.startDirection.value, curr), startDirection := Some(curr))
  }

  /** The end of `line`: a direction is stored if none is, and the cursor moves to the end point. */
  function LineFinished(cfg: Config, u: Snapshot, zEnd: real, rEnd: real): (v: Snapshot)
    ensures v.startDirection.Some? && v.prevPiece == LinePiece
  {
    var direction := if u.startDirection.None? then Some(Heading(cfg, u.zStart, u.rStart, zEnd, rEnd)) else u.startDirection;
    u.(startDirection := direction, zStart := zEnd, rStart := rEnd, prevPiece := LinePiece)
  }

  /** `line(z_end, r_end)`. */
  function LineStep(cfg: Config, s: Snapshot, zEnd: real, rEnd: real): (o: Outcome)
    requires ConfigOk(cfg) && Inv(s)
    ensures o.status == Ok || o.status == Degenerate
    ensures o.status == Degenerate <==> zEnd == s.zStart && rEnd == s.rStart
    ensures o.status == Degenerate ==> o.after == s
    ensures o.status == Ok ==>
      && |o.after.coefE| == |s.coefE| + 1 && o.after.coefE[..|s.coefE|] == s.coefE
      && |o.after.coefR| == |s.coefR| + 1 && o.after.rowIds == s.rowIds + [|s.coefE|]
      && (forall i :: 0 <= i < |s.coefR| && (s.prevPiece != LinePiece || s.rowIds[i] != s.rowIds[|s.coefR| - 1]) ==>
            o.after.coefR[i] == s.coefR[i])
      && o.after.zStart == zEnd && o.after.rStart == rEnd
      && o.after.prevPiece == LinePiece && o.after.startDirection.Some?
      && o.after.voltage == s.voltage && o.after.nPieces == s.nPieces && o.after.nTotal == s.nTotal
    ensures Inv(o.after)
  {
    if zEnd == s.zStart && rEnd == s.rStart then
      Outcome(s, Degenerate)
    else
      LineDrawnKeeps(cfg, s, zEnd, rEnd);
      Outcome(LineDrawn(cfg, s, zEnd, rEnd), Ok)
  }

  /** The state a line that goes somewhere leaves behind. */
  function LineDrawn(cfg: Config, s: Snapshot, zEnd: real, rEnd: real): Snapshot
    requires ConfigOk(cfg) && Inv(s)
    requires !(zEnd == s.zStart && rEnd == s.rStart)
  {
    LineLengthPositive(cfg, s, zEnd, rEnd);
    var length := LineLength(cfg, s, zEnd, rEnd);
    var n := PointCount(cfg, length);
    var appended := s.coefR + [RingLine(cfg, s, zEnd, rEnd, n, length)];
    var ids := s.rowIds + [|s.rowIds|];
    assert forall i :: 0 <= i < |s.coefR| ==> ids[i] == s.rowIds[i] <= i;
    var curr := Direction(cfg, s, zEnd, rEnd);
    var coefR :=
      if s.prevPiece == LinePiece then CornerCorrected(cfg, appended, ids, s.startDirection.value, curr)
      else appended;
    var direction :=
      if s.prevPiece == LinePiece || s.startDirection.None? then Some(curr) else s.startDirection;
    s.(zStart := zEnd, rStart := rEnd, startDirection := direction, prevPiece := LinePiece,
       coefE := s.coefE + [ElectrodeLine(cfg, s, zEnd, rEnd, n)], coefR := coefR, rowIds := ids)
  }

  /** The invariant and the frame facts `LineStep` promises about a line that goes somewhere. */
  lemma LineDrawnKeeps(cfg: Config, s: Snapshot, zEnd: real, rEnd: real)
    requires ConfigOk(cfg) && Inv(s)
    requires !(zEnd == s.zStart && rEnd == s.rStart)
    ensures var t := LineDrawn(cfg, s, zEnd, rEnd);
      && Inv(t)
      && |t.coefE| == |s.coefE| + 1 && t.coefE[..|s.coefE|] == s.coefE
      && |t.coefR| == |s.coefR| + 1 && t.rowIds == s.rowIds + [|s.coefE|]
      && (forall i :: 0 <= i < |s.coefR| && (s.prevPiece != LinePiece || s.rowIds[i] != s.rowIds[|s.coefR| - 1]) ==>
            t.coefR[i] == s.coefR[i])
      && t.zStart == zEnd && t.rStart == rEnd
      && t.prevPiece == LinePiece && t.startDirection.Some?
      && t.voltage == s.voltage && t.nPieces == s.nPieces && t.nTotal == s.nTotal
  {
    LineLengthPositive(cfg, s, zEnd, rEnd);
    var length := LineLength(cfg, s, zEnd, rEnd);
    var n := PointCount(cfg, length);
    var e, g := ElectrodeLine(cfg, s, zEnd, rEnd, n), RingLine(cfg, s, zEnd, rEnd, n, length);
    var coefE := s.coefE + [e];
    var appended := s.coefR + [g];
    var ids := s.rowIds + [|s.rowIds|];
    assert forall i :: 0 <= i < |s.coefR| ==> ids[i] == s.rowIds[i] <= i && appended[i] == s.coefR[i];
    AppendPaired(s.coefE, s.coefR, [e], [g]);
    IdentitiesFresh(s.rowIds, s.coefE, s.coefR, e, g);
    var curr := Direction(cfg, s, zEnd, rEnd);
    var t := LineDrawn(cfg, s, zEnd, rEnd);
    CornerKeepsPairing(cfg, coefE, appended, ids, t.coefR, s.prevPiece == LinePiece, s.startDirection, curr);
    assert coefE[..|s.coefE|] == s.coefE;
    forall i | 0 <= i < |s.coefR| && (s.prevPiece != LinePiece || s.rowIds[i] != s.rowIds[|s.coefR| - 1])
      ensures t.coefR[i] == s.coefR[i]
    {
      assert ids[i] == s.rowIds[i] && ids[|appended| - 2] == s.rowIds[|s.coefR| - 1];
    }
  }

  /**
   * Corner correction moves end points only, and of every position sharing the corrected
   * row alike, so the rows stay paired and shared rows stay equal.
   */
  lemma CornerKeepsPairing(cfg: Config, es: seq<Row>, gs: seq<Row>, ids: seq<nat>, c: seq<Row>, corrected: bool,
                           prev: Option<real>, curr: real)
    requires Paired(es, gs) && Identities(ids, es, gs)
    requires corrected ==> |gs| >= 2 && prev.Some?
    requires corrected ==> forall j :: 0 <= j < |gs| - 1 ==> ids[j] != ids[|gs| - 1]
    requires c == if corrected then CornerCorrected(cfg, gs, ids, prev.value, curr) else gs
    ensures Paired(es, c) && Identities(ids, es, c)
    ensures |c| == |gs|
    ensures forall i :: 0 <= i < |gs| - 1 && (!corrected || ids[i] != ids[|gs| - 2]) ==> c[i] == gs[i]
  {
    if corrected {
      CornerCorrectedMoves(cfg, gs, ids, prev.value, curr);
      var k, a := |gs|, ids[|gs| - 2];
      forall i | 0 <= i < k
        ensures c[i].points == gs[i].points && c[i].kind == gs[i].kind && c[i].voltage == gs[i].voltage
      {
        if i < k - 1 && ids[i] == a {
          assert SameObjectAlike(es, gs, ids, i, k - 2);
        }
      }
      forall i, j | 0 <= i < k && 0 <= j < k
        ensures SameObjectAlike(es, c, ids, i, j)
      {
        assert SameObjectAlike(es, gs, ids, i, j);
      }
    }
  }

  /**
   * A line that goes somewhere appends the electrode line and its ring line with
   * `ceil(length / pointSpacing)` points each, at least one. Without a preceding line the
   * ring line is appended exactly as offset and no earlier ring row changes; after a line,
   * corner correction moves only the previous ring row's end, at every position that holds
   * that row object, and the new ring row's start, and the stored direction becomes the new
   * line's direction. The new rows are objects of their own.
   */
  lemma LineStepAppends(cfg: Config, s: Snapshot, zEnd: real, rEnd: real)
    requires ConfigOk(cfg) && Inv(s)
    requires !(zEnd == s.zStart && rEnd == s.rStart)
    ensures
      var o := LineStep(cfg, s, zEnd, rEnd);
      var len := LineLength(cfg, s, zEnd, rEnd);
      var n := PointCount(cfg, len);
      var k := |s.coefE|;
      && len > 0.0 && n >= 1
      && o.status == Ok
      && o.after.coefE == s.coefE + [ElectrodeLine(cfg, s, zEnd, rEnd, n)]
      && o.after.coefR[k].points == n
      && o.after.rowIds == s.rowIds + [k]
      && (s.prevPiece != LinePiece ==>
            o.after.coefR == s.coefR + [RingLine(cfg, s, zEnd, rEnd, n, len)])
      && (s.prevPiece == LinePiece ==>
            && EndMoved(s.coefR[k - 1], o.after.coefR[k - 1])
            && StartMoved(RingLine(cfg, s, zEnd, rEnd, n, len), o.after.coefR[k])
            && (forall i :: 0 <= i < k ==>
                  o.after.coefR[i] == if s.rowIds[i] == s.rowIds[k - 1] then o.after.coefR[k - 1] else s.coefR[i])
            && o.after.startDirection == Some(Direction(cfg, s, zEnd, rEnd)))
  {
    LineStepDraws(cfg, s, zEnd, rEnd);
    var len := LineLength(cfg, s, zEnd, rEnd);
    assert len / cfg.pointSpacing > 0.0;
    if s.prevPiece == LinePiece {
      LineStepCorner(cfg, s, zEnd, rEnd);
    }
  }

  /** The corner-correction half of `LineStepAppends`: a line drawn right after a line. */
  lemma LineStepCorner(cfg: Config, s: Snapshot, zEnd: real, rEnd: real)
    requires ConfigOk(cfg) && Inv(s) && s.prevPiece == LinePiece
    requires !(zEnd == s.zStart && rEnd == s.rStart)
    ensures
      var o := LineStep(cfg, s, zEnd, rEnd);
      var len := LineLength(cfg, s, zEnd, rEnd);
      var n := PointCount(cfg, len);
      var k := |s.coefE|;
      && len > 0.0
      && o.after.coefR[k].points == n
      && EndMoved(s.coefR[k - 1], o.after.coefR[k - 1])
      && StartMoved(RingLine(cfg, s, zEnd, rEnd, n, len), o.after.coefR[k])
      && (forall i :: 0 <= i < k ==>
            o.after.coefR[i] == if s.rowIds[i] == s.rowIds[k - 1] then o.after.coefR[k - 1] else s.coefR[i])
      && o.after.startDirection == Some(Direction(cfg, s, zEnd, rEnd))
  {
    LineStepDraws(cfg, s, zEnd, rEnd);
    var len := LineLength(cfg, s, zEnd, rEnd);
    var g := RingLine(cfg, s, zEnd, rEnd, PointCount(cfg, len), len);
    CornerAfterAppend(cfg, s.coefR, s.rowIds, g, s.startDirection.value, Direction(cfg, s, zEnd, rEnd));
  }

  /**
   * Corner correction right after appending a new row object `g` to `rows`: the previous
   * row's end moves at every position holding it, `g`'s start moves, and nothing else.
   */
  lemma CornerAfterAppend(cfg: Config, rows: seq<Row>, ids: seq<nat>, g: Row, prevDirection: real, currDirection: real)
    requires |rows| >= 1 && |ids| == |rows| && forall i :: 0 <= i < |ids| ==> ids[i] <= i
    ensures
      var k := |rows|;
      var c := CornerCorrected(cfg, rows + [g], ids + [k], prevDirection, currDirection);
      && |c| == k + 1
      && c[k].points == g.points
      && EndMoved(rows[k - 1], c[k - 1])
      && StartMoved(g, c[k])
      && forall i :: 0 <= i < k ==> c[i] == if ids[i] == ids[k - 1] then c[k - 1] else rows[i]
  {
    var k := |rows|;
    var rows', ids' := rows + [g], ids + [k];
    assert forall i :: 0 <= i < k ==> ids'[i] == ids[i] <= i && rows'[i] == rows[i];
    CornerCorrectedMoves(cfg, rows', ids', prevDirection, currDirection);
  }

  /** The record `line` leaves behind when it draws, field by field. */
  lemma LineStepDraws(cfg: Config, s: Snapshot, zEnd: real, rEnd: real)
    requires ConfigOk(cfg) && Inv(s)
    requires !(zEnd == s.zStart && rEnd == s.rStart)
    ensures LineLength(cfg, s, zEnd, rEnd) > 0.0
    ensures
      var len := LineLength(cfg, s, zEnd, rEnd);
      var n := PointCount(cfg, len);
      var appended := s.coefR + [RingLine(cfg, s, zEnd, rEnd, n, len)];
      var curr := Direction(cfg, s, zEnd, rEnd);
      var o := LineStep(cfg, s, zEnd, rEnd);
      && o.status == Ok
      && o.after.coefE == s.coefE + [ElectrodeLine(cfg, s, zEnd, rEnd, n)]
      && o.after.coefR == (if s.prevPiece == LinePiece then CornerCorrected(cfg, appended, s.rowIds + [|s.rowIds|], s.startDirection.value, curr) else appended)
      && o.after.startDirection == (if s.prevPiece == LinePiece || s.startDirection.None? then Some(curr) else s.startDirection)
      && o.after == s.(zStart := zEnd, rStart := rEnd, prevPiece := LinePiece, startDirection := o.after.startDirection,
                       coefE := o.after.coefE, coefR := o.after.coefR, rowIds := s.rowIds + [|s.rowIds|])
  {
    LineLengthPositive(cfg, s, zEnd, rEnd);
  }

  /** The ring row a line appends is an object no earlier position holds, as corner correction needs. */
  lemma LineAppendedFresh(cfg: Config, s: Snapshot, zEnd: real, rEnd: real)
    requires ConfigOk(cfg) && Inv(s)
    requires !(zEnd == s.zStart && rEnd == s.rStart)
    ensures var t := LineAppended(cfg, s, zEnd, rEnd);
      && |t.rowIds| == |t.coefR|
      && forall j :: 0 <= j < |t.coefR| - 1 ==> t.rowIds[j] != t.rowIds[|t.coefR| - 1]
  {
    var t := LineAppended(cfg, s, zEnd, rEnd);
    assert forall j :: 0 <= j < |s.rowIds| ==> t.rowIds[j] == s.rowIds[j] <= j < |s.rowIds|;
  }

  /**
   * `line` in the order the source runs it: append, correct the corner after a line, then
   * store the direction and move the cursor.
   */
  lemma LineStepStages(cfg: Config, s: Snapshot, zEnd: real, rEnd: real)
    requires ConfigOk(cfg) && Inv(s)
    requires !(zEnd == s.zStart && rEnd == s.rStart)
    ensures var t := LineAppended(cfg, s, zEnd, rEnd);
      && (s.prevPiece == LinePiece ==>
            && |t.coefR| >= 2 && |t.rowIds| == |t.coefR| && t.startDirection.Some?
            && forall j :: 0 <= j < |t.coefR| - 1 ==> t.rowIds[j] != t.rowIds[|t.coefR| - 1])
      && LineStep(cfg, s, zEnd, rEnd).after
           == LineFinished(cfg, if s.prevPiece == LinePiece then CornerStep(cfg, t, zEnd, rEnd) else t, zEnd, rEnd)
  {
    LineStepDraws(cfg, s, zEnd, rEnd);
    var t := LineAppended(cfg, s, zEnd, rEnd);
    assert forall j :: 0 <= j < |s.rowIds| ==> t.rowIds[j] == s.rowIds[j] <= j < |s.rowIds|;
  }

  /** `horizontal(end_z)`: a line to `end_z` at the current r. */
  function HorizontalStep(cfg: Config, s: Snapshot, zEnd: real): (o: Outcome)
    requires ConfigOk(cfg) && Inv(s)
    ensures o.status == Degenerate <==> zEnd == s.zStart
    ensures o.status == Degenerate ==> o.after == s
    ensures o.status == Ok ==>
      && |o.after.coefE| == |s.coefE| + 1
      && o.after.coefE[|s.coefE|].s4 == o.after.coefE[|s.coefE|].s6 == s.rStart
      && o.after.zStart == zEnd && o.after.rStart == s.rStart
    ensures Inv(o.after)
  {
    if zEnd == s.zStart then Outcome(s, Degenerate) else LineStep(cfg, s, zEnd, s.rStart)
  }

  /** `vertical(end_r)`: a line to `end_r` at the current z. */
  function VerticalStep(cfg: Config, s: Snapshot, rEnd: real): (o: Outcome)
    requires ConfigOk(cfg) && Inv(s)
    ensures o.status == Degenerate <==> rEnd == s.rStart
    ensures o.status == Degenerate ==> o.after == s
    ensures o.status == Ok ==>
      && |o.after.coefE| == |s.coefE| + 1
      && o.after.coefE[|s.coefE|].s3 == o.after.coefE[|s.coefE|].s5 == s.zStart + cfg.zOffset
      && o.after.zStart == s.zStart && o.after.rStart == rEnd
    ensures Inv(o.after)
  {
    if rEnd == s.rStart then Outcome(s, Degenerate) else LineStep(cfg, s, s.zStart, rEnd)
  }

  // ---------------------------------------------------------------- arc

  /** The direction pair after the seam snapping, the two candidate spans and the choice. */
  datatype Sense = Sense(startDirection: real, endDirection: real, cwDist: real, ccwDist: real, clockwise: bool)
  {
    /** `min(cw_dist, ccw_dist)`: the span actually drawn. */
    function Span(): real
    {
      if clockwise then cwDist else ccwDist
    }

    /** The polar angle, about the centre, of the arc's start: the direction turned by 90 degrees towards the outside. */
    function StartAngle(): real
    {
      if clockwise then startDirection + 90.0 else startDirection - 90.0
    }

    /** The polar angle, about the centre, of the arc's end. */
    function EndAngle(): real
    {
      if clockwise then endDirection + 90.0 else endDirection - 90.0
    }
  }

  /**
   * The direction choice of `arc`. A direction exactly on the +-180 seam takes the sign of
   * the other one; the two spans add up to a full turn; clockwise is taken only when it is
   * strictly shorter, so the drawn span is at most 180 and a 180/180 tie goes
   * counter-clockwise. For directions in [-180, 180] the clockwise span is in [0, 360).
   */
  function ArcSense(startDirection: real, endDirection: real): (a: Sense)
    ensures a.startDirection == startDirection || (Abs(startDirection) == 180.0 && a.startDirection == -startDirection)
    ensures a.endDirection == endDirection || (Abs(endDirection) == 180.0 && a.endDirection == -endDirection)
    ensures Abs(a.startDirection) == 180.0 || Abs(a.endDirection) == 180.0 ==>
              (a.startDirection < 0.0 <==> a.endDirection < 0.0)
    ensures a.cwDist + a.ccwDist == 360.0
    ensures a.clockwise <==> a.cwDist < a.ccwDist
    ensures a.Span() <= 180.0 && a.Span() == (if a.cwDist < a.ccwDist then a.cwDist else a.ccwDist)
    ensures -180.0 <= startDirection <= 180.0 && -180.0 <= endDirection <= 180.0 ==>
              0.0 <= a.cwDist < 360.0 && 0.0 < a.ccwDist <= 360.0
  {
    var sd := if Abs(startDirection) == 180.0 then (if endDirection < 0.0 then -180.0 else 180.0) else startDirection;
    var ed :=
      if Abs(startDirection) != 180.0 && Abs(endDirection) == 180.0 then (if sd < 0.0 then -180.0 else 180.0)
      else endDirection;
    var cw := sd - ed;
    var ccw := ed - sd;
    var (cw', ccw') := if cw < 0.0 then (cw + 360.0, ccw) else (cw, ccw + 360.0);
    Sense(sd, ed, cw', ccw', cw' < ccw')
  }

  /** The length of an arc, `radius * radians(span)`. */
  function ArcLength(cfg: Config, radius: real, a: Sense): real
  {
    radius * cfg.num.radians(a.Span())
  }

  /** The centre of the arc: `radius` to the right of the cursor's direction when clockwise, to the left otherwise. */
  function ArcCentre(cfg: Config, s: Snapshot, radius: real, a: Sense): (real, real)
  {
    var sd := a.startDirection;
    if a.clockwise then (s.zStart + radius * cfg.num.sinDeg(sd), s.rStart - radius * cfg.num.cosDeg(sd))
    else (s.zStart - radius * cfg.num.sinDeg(sd), s.rStart + radius * cfg.num.cosDeg(sd))
  }

  /** The point where the arc ends, rounded to 8 digits: the cursor's next position. */
  function ArcEnd(cfg: Config, centre: (real, real), radius: real, endAngle: real): (real, real)
  {
    (cfg.num.round(centre.0 + radius * cfg.num.cosDeg(endAngle), 8),
     cfg.num.round(centre.1 + radius * cfg.num.sinDeg(endAngle), 8))
  }

  /** The electrode row and the ring row `arc` appends; the ring arc is `erSpacing` further out or in. */
  function ArcRows(cfg: Config, s: Snapshot, radius: real, a: Sense): (Row, Row)
    requires cfg.pointSpacing > 0.0
  {
    var n := PointCount(cfg, ArcLength(cfg, radius, a));
    var centre := ArcCentre(cfg, s, radius, a);
    var ringRadius := if a.clockwise then radius + cfg.erSpacing else radius - cfg.erSpacing;
    (Row(n, ARC, s.voltage, a.StartAngle(), 0.0, a.EndAngle(), 0.0, radius, centre.0 + cfg.zOffset, centre.1),
     Row(n, ARC, 0, a.StartAngle(), 0.0, a.EndAngle(), 0.0, ringRadius, centre.0 + cfg.zOffset, centre.1))
  }

  /** `arc(end_direction, radius)`. */
  function ArcStep(cfg: Config, s: Snapshot, endDirection: real, radius: real): (o: Outcome)
    requires ConfigOk(cfg) && Inv(s)
    ensures o.status == Ok || o.status == NoDirection
    ensures o.status == NoDirection <==> s.startDirection.None?
    ensures o.status == NoDirection ==> o.after == s
    ensures o.status == Ok ==>
      var a := ArcSense(s.startDirection.value, endDirection);
      var k := |s.coefE|;
      && |o.after.coefE| == k + 1 && o.after.coefE[..k] == s.coefE
      && |o.after.coefR| == k + 1 && o.after.coefR[..k] == s.coefR
      && o.after.rowIds == s.rowIds + [k]
      && var e, g := o.after.coefE[k], o.after.coefR[k];
      && e.kind == g.kind == ARC && e.voltage == s.voltage && g.voltage == 0
      && e.points == g.points == PointCount(cfg, ArcLength(cfg, radius, a))
      && g.s3 == e.s3 && g.s5 == e.s5 && g.s8 == e.s8 && g.s9 == e.s9
      && e.s7 == radius && g.s7 == (if a.clockwise then radius + cfg.erSpacing else radius - cfg.erSpacing)
      && e.s3 == a.startDirection + (if a.clockwise then 90.0 else -90.0)
      && e.s5 == a.endDirection + (if a.clockwise then 90.0 else -90.0)
      && o.after.startDirection == Some(a.endDirection) && o.after.prevPiece == ArcPiece
      && o.after.voltage == s.voltage && o.after.nPieces == s.nPieces && o.after.nTotal == s.nTotal
    ensures Inv(o.after)
  {
    if s.startDirection.None? then
      Outcome(s, NoDirection)
    else
      var a := ArcSense(s.startDirection.value, endDirection);
      var rows := ArcRows(cfg, s, radius, a);
      var end := ArcEnd(cfg, ArcCentre(cfg, s, radius, a), radius, a.EndAngle());
      IdentitiesFresh(s.rowIds, s.coefE, s.coefR, rows.0, rows.1);
      Outcome(s.(zStart := end.0, rStart := end.1, startDirection := Some(a.endDirection), prevPiece := ArcPiece,
                 coefE := s.coefE + [rows.0], coefR := s.coefR + [rows.1], rowIds := s.rowIds + [|s.rowIds|]), Ok)
  }

  /** An arc cannot be the first piece after `start`. */
  lemma ArcRightAfterStartFails(cfg: Config, s: Snapshot, z: real, r: real, voltageGroup: Option<int>,
                                endDirection: real, radius: real)
    requires ConfigOk(cfg) && Inv(s)
    ensures var t := StartStep(s, z, r, voltageGroup);
      ArcStep(cfg, t, endDirection, radius) == Outcome(t, NoDirection)
  {
  }

  // ---------------------------------------------------------------- count_pieces

  /** Looks a key up in an insertion-ordered dict; 0 when absent. */
  function Lookup(d: seq<(string, int)>, key: string): int
  {
    if d == [] then 0 else if d[0].0 == key then d[0].1 else Lookup(d[1..], key)
  }

  /** `key in d`. */
  predicate HasKey(d: seq<(string, int)>, key: string)
  {
    d != [] && (d[0].0 == key || HasKey(d[1..], key))
  }

  /** `sum(d.values())`. */
  function ValuesSum(d: seq<(string, int)>): int
  {
    if d == [] then 0 else d[0].1 + ValuesSum(d[1..])
  }

  /** `d[key] = value` on a dict that keeps insertion order: replaced in place, or added last. */
  function DictSet(d: seq<(string, int)>, key: string, value: int): (t: seq<(string, int)>)
    ensures Lookup(t, key) == value && HasKey(t, key)
    ensures forall k :: k != key ==> Lookup(t, k) == Lookup(d, k) && (HasKey(t, k) <==> HasKey(d, k))
    ensures ValuesSum(t) == ValuesSum(d) - Lookup(d, key) + value
  {
    if d == [] then
      DictCons((key, value), []);
      assert [(key, value)] + [] == [(key, value)];
      [(key, value)]
    else
      DictCons(d[0], d[1..]);
      assert [d[0]] + d[1..] == d;
      if d[0].0 == key then
        DictCons((key, value), d[1..]);
        [(key, value)] + d[1..]
      else
        var rest := DictSet(d[1..], key, value);
        DictCons(d[0], rest);
        [d[0]] + rest
  }

  /** Lookup, membership and the value sum of a dict given by its first entry and the rest. */
  lemma DictCons(entry: (string, int), rest: seq<(string, int)>)
    ensures var d := [entry] + rest;
      && ValuesSum(d) == entry.1 + ValuesSum(rest)
      && forall k :: Lookup(d, k) == (if entry.0 == k then entry.1 else Lookup(rest, k))
                  && (HasKey(d, k) <==> entry.0 == k || HasKey(rest, k))
  {
    assert ([entry] + rest)[1..] == rest;
  }

  /** `count_pieces(name)`: records how many rows were appended since the tallies so far. */
  function CountPiecesStep(s: Snapshot, name: string): (t: Snapshot)
    ensures t == s.(nPieces := t.nPieces)
    ensures Lookup(t.nPieces, name) == |s.coefR| - ValuesSum(s.nPieces)
    ensures forall k :: k != name ==> Lookup(t.nPieces, k) == Lookup(s.nPieces, k)
    ensures Inv(s) ==> Inv(t)
  {
    s.(nPieces := DictSet(s.nPieces, name, |s.coefR| - ValuesSum(s.nPieces)))
  }

  /**
   * After tallying a name not used before, the tallies add up to the number of rows; tallying
   * a name again drops its old tally from the total.
   */
  lemma CountPiecesTotal(s: Snapshot, name: string)
    ensures ValuesSum(CountPiecesStep(s, name).nPieces) == |s.coefR| - Lookup(s.nPieces, name)
    ensures !HasKey(s.nPieces, name) ==> ValuesSum(CountPiecesStep(s, name).nPieces) == |s.coefR|
  {
    if !HasKey(s.nPieces, name) {
      LookupAbsent(s.nPieces, name);
    }
  }

  lemma {:induction false} LookupAbsent(d: seq<(string, int)>, key: string)
    requires !HasKey(d, key)
    ensures Lookup(d, key) == 0
  {
    if d != [] {
      assert d[0].0 != key;
      LookupAbsent(d[1..], key);
    }
  }

  // ---------------------------------------------------------------- mirror

  /** `_mirror_coord`. */
  function MirrorCoord(coord: real, mirrorPoint: real): (m: real)
    ensures m - mirrorPoint == mirrorPoint - coord
  {
    2.0 * mirrorPoint - coord
  }

  /** Reflecting twice about the same point gives the coordinate back. */
  lemma MirrorCoordInvolution(coord: real, mirrorPoint: real)
    ensures MirrorCoord(MirrorCoord(coord, mirrorPoint), mirrorPoint) == coord
  {
  }

  /** `_mirror_angle`: the direction reflected across the r axis; keeps (-180, 180]. */
  function MirrorAngle(angle: real): (m: real)
    ensures m + angle == 180.0 || m + angle == -180.0
    ensures -180.0 < angle <= 180.0 ==> -180.0 < m <= 180.0
  {
    if angle < 0.0 then -180.0 - angle else 180.0 - angle
  }

  /** `_mirror_angle` undoes itself exactly on (-180, 180]. */
  lemma MirrorAngleInvolution(angle: real)
    ensures MirrorAngle(MirrorAngle(angle)) == angle <==> -180.0 < angle <= 180.0
  {
  }

  /** An arc's angle pair does not straddle the seam: 180 is not paired with a negative angle. */
  predicate SeamConsistent(startAngle: real, endAngle: real)
  {
    !(startAngle == 180.0 && endAngle < 0.0) && !(endAngle == 180.0 && startAngle < 0.0)
  }

  /** `_mirror_line`: reflects the z of both end points; nothing else changes. */
  function MirrorLine(row: Row, mirrorZ: real): (m: Row)
    ensures m == row.(s3 := m.s3, s5 := m.s5)
    ensures m.s3 - mirrorZ == mirrorZ - row.s3 && m.s5 - mirrorZ == mirrorZ - row.s5
  {
    row.(s3 := MirrorCoord(row.s3, mirrorZ), s5 := MirrorCoord(row.s5, mirrorZ))
  }

  /**
   * `_mirror_arc`: reflects the centre z and both angles, then re-snaps a 180 paired with a
   * negative angle to -180; the result never straddles the seam.
   */
  function MirrorArc(row: Row, mirrorZ: real): (m: Row)
    ensures m == row.(s3 := m.s3, s5 := m.s5, s8 := m.s8)
    ensures m.s8 - mirrorZ == mirrorZ - row.s8
    ensures SeamConsistent(m.s3, m.s5)
    ensures Abs(m.s3) == Abs(MirrorAngle(row.s3)) && Abs(m.s5) == Abs(MirrorAngle(row.s5))
  {
    var mirroredStart := MirrorAngle(row.s3);
    var mirroredEnd := MirrorAngle(row.s5);
    var (start', end') :=
      if mirroredStart == 180.0 && mirroredEnd < 0.0 then (-180.0, mirroredEnd)
      else if mirroredEnd == 180.0 && mirroredStart < 0.0 then (mirroredStart, -180.0)
      else (mirroredStart, mirroredEnd);
    row.(s8 := MirrorCoord(row.s8, mirrorZ), s3 := start', s5 := end')
  }

  /** An arc with angles in (-180, 180] that does not straddle the seam is restored by mirroring twice. */
  lemma MirrorArcInvolution(row: Row, mirrorZ: real)
    requires CanonicalAngles(row)
    ensures MirrorArc(MirrorArc(row, mirrorZ), mirrorZ) == row
  {
  }

  /** Re-snapping matters: an arc from 180 to a negative angle comes back starting at -180. */
  lemma MirrorArcStraddlingNotRestored(row: Row, mirrorZ: real)
    requires row.s3 == 180.0 && -180.0 < row.s5 < 0.0
    ensures MirrorArc(MirrorArc(row, mirrorZ), mirrorZ).s3 == -180.0
  {
  }

  /** One loop iteration of `mirror`: the new electrode and ring rows for a well-typed pair. */
  function MirrorPair(e: Row, g: Row, mirrorZ: real, voltageGroup: Option<int>): (p: (Row, Row))
    requires e.kind == LINE || e.kind == ARC
    ensures p.0.points == e.points && p.0.kind == e.kind && p.1.points == g.points && p.1.kind == g.kind
    ensures p.0.voltage == (if voltageGroup.Some? then voltageGroup.value else -e.voltage)
    ensures p.1.voltage == g.voltage
  {
    var e' := e.(voltage := if voltageGroup.None? then -e.voltage else voltageGroup.value);
    if e.kind == LINE then (MirrorLine(e', mirrorZ), MirrorLine(g, mirrorZ))
    else (MirrorArc(e', mirrorZ), MirrorArc(g, mirrorZ))
  }

  /**
   * An in-place write of `row` to the list object `id`: every position that holds that
   * object shows the new value.
   */
  function Written(rows: seq<Row>, ids: seq<nat>, id: nat, row: Row): (r: seq<Row>)
    requires |ids| == |rows|
    ensures |r| == |rows|
    ensures forall j :: 0 <= j < |rows| ==> r[j] == if ids[j] == id then row else rows[j]
  {
    seq(|rows|, j requires 0 <= j < |rows| => if ids[j] == id then row else rows[j])
  }

  /** Positions that hold one object hold equal electrode rows and equal ring rows. */
  ghost predicate Alike(es: seq<Row>, gs: seq<Row>, keys: seq<nat>)
  {
    |es| == |gs| == |keys| &&
    forall i, j {:trigger SameObjectAlike(es, gs, keys, i, j)} :: 0 <= i < |keys| && 0 <= j < |keys| ==>
      SameObjectAlike(es, gs, keys, i, j)
  }

  /** If positions `i` and `j` hold one object, they hold equal rows. */
  predicate SameObjectAlike(es: seq<Row>, gs: seq<Row>, keys: seq<nat>, i: nat, j: nat)
    requires |es| == |gs| == |keys| && i < |keys| && j < |keys|
  {
    keys[i] == keys[j] ==> es[i] == es[j] && gs[i] == gs[j]
  }

  /**
   * The `mirror` loop from iteration `k` on, over the deep-copied selection `es`, `gs`, whose
   * position `i` holds copy `keys[i]`: each iteration mirrors its copy in place, so every
   * position holding that copy changes. Gives the copies as the loop leaves them and the
   * iteration it stopped at: the end, or the first row whose type is neither 1 nor 2.
   */
  function MirrorCopies(es: seq<Row>, gs: seq<Row>, keys: seq<nat>, mirrorZ: real, voltageGroup: Option<int>, k: nat)
    : (c: (seq<Row>, seq<Row>, nat))
    requires |es| == |gs| == |keys| && k <= |es|
    ensures |c.0| == |es| && |c.1| == |es| && k <= c.2 <= |es|
    decreases |es| - k
  {
    if k == |es| || (es[k].kind != LINE && es[k].kind != ARC) then (es, gs, k)
    else
      var p := MirrorPair(es[k], gs[k], mirrorZ, voltageGroup);
      MirrorCopies(Written(es, keys, keys[k], p.0), Written(gs, keys, keys[k], p.1), keys, mirrorZ, voltageGroup, k + 1)
  }

  /**
   * What `mirror` appends for the selection `es`, `gs` (position `i` holding copy `keys[i]`)
   * and whether it got through it: each completed iteration appends a reference to its copy,
   * so the tables end up holding the copies as the loop leaves them.
   */
  function MirrorAppend(es: seq<Row>, gs: seq<Row>, keys: seq<nat>, mirrorZ: real, voltageGroup: Option<int>)
    : (m: (seq<Row>, seq<Row>, bool))
    requires |es| == |gs| == |keys|
    ensures |m.0| == |m.1| <= |es|
    ensures m.2 <==> |m.0| == |es|
  {
    var c := MirrorCopies(es, gs, keys, mirrorZ, voltageGroup, 0);
    (c.0[..c.2], c.1[..c.2], c.2 == |es|)
  }

  /** A pair of rows after `n` passes of the loop body over it. */
  function MirroredTimes(e: Row, g: Row, n: nat, mirrorZ: real, voltageGroup: Option<int>): (p: (Row, Row))
    ensures p.0.points == e.points && p.0.kind == e.kind
    ensures p.1.points == g.points && p.1.kind == g.kind && p.1.voltage == g.voltage
  {
    if n == 0 || (e.kind != LINE && e.kind != ARC) then (e, g)
    else
      var q := MirroredTimes(e, g, n - 1, mirrorZ, voltageGroup);
      MirrorPair(q.0, q.1, mirrorZ, voltageGroup)
  }

  /** How many positions of `keys` hold `key`. */
  function Occurrences(keys: seq<nat>, key: nat): (n: nat)
    ensures n <= |keys|
  {
    if keys == [] then 0
    else Occurrences(keys[..|keys| - 1], key) + (if keys[|keys| - 1] == key then 1 else 0)
  }

  /** One more position counts the key once more when it holds it. */
  lemma OccurrencesStep(keys: seq<nat>, k: nat, key: nat)
    requires k < |keys|
    ensures Occurrences(keys[..k + 1], key) == Occurrences(keys[..k], key) + (if keys[k] == key then 1 else 0)
  {
    PrefixOfPrefix(keys, k + 1, k);
  }

  /**
   * The loop invariant of `mirror` over shared copies: if before iteration `k` each copy has
   * been mirrored once per occurrence among the first `k` positions, then when the loop
   * stops it has been mirrored once per occurrence among the iterations it completed.
   */
  lemma {:induction false} MirrorCopiesRepeats(es0: seq<Row>, gs0: seq<Row>, es: seq<Row>, gs: seq<Row>, keys: seq<nat>,
                                               mirrorZ: real, voltageGroup: Option<int>, k: nat)
    requires Alike(es0, gs0, keys) && |es| == |gs| == |keys| && k <= |es|
    requires forall i :: 0 <= i < |es| ==>
      (es[i], gs[i]) == MirroredTimes(es0[i], gs0[i], Occurrences(keys[..k], keys[i]), mirrorZ, voltageGroup)
    ensures var c := MirrorCopies(es, gs, keys, mirrorZ, voltageGroup, k);
      forall i :: 0 <= i < |es| ==>
        (c.0[i], c.1[i]) == MirroredTimes(es0[i], gs0[i], Occurrences(keys[..c.2], keys[i]), mirrorZ, voltageGroup)
    decreases |es| - k
  {
    if k < |es| && (es[k].kind == LINE || es[k].kind == ARC) {
      var es1, gs1 := MirrorCopiesStep(es0, gs0, es, gs, keys, mirrorZ, voltageGroup, k);
      MirrorCopiesRepeats(es0, gs0, es1, gs1, keys, mirrorZ, voltageGroup, k + 1);
      assert MirrorCopies(es, gs, keys, mirrorZ, voltageGroup, k) == MirrorCopies(es1, gs1, keys, mirrorZ, voltageGroup, k + 1);
    } else {
      assert MirrorCopies(es, gs, keys, mirrorZ, voltageGroup, k) == (es, gs, k);
    }
  }

  /**
   * The iterations the `mirror` loop completes from `k` on are the rows of known type, up to
   * the first of unknown type.
   */
  lemma {:induction false} MirrorCopiesStops(es0: seq<Row>, gs0: seq<Row>, es: seq<Row>, gs: seq<Row>, keys: seq<nat>,
                                             mirrorZ: real, voltageGroup: Option<int>, k: nat)
    requires Alike(es0, gs0, keys) && |es| == |gs| == |keys| && k <= |es|
    requires forall i :: 0 <= i < |es| ==>
      (es[i], gs[i]) == MirroredTimes(es0[i], gs0[i], Occurrences(keys[..k], keys[i]), mirrorZ, voltageGroup)
    ensures var c := MirrorCopies(es, gs, keys, mirrorZ, voltageGroup, k);
      && (forall i :: k <= i < c.2 ==> es0[i].kind == LINE || es0[i].kind == ARC)
      && (c.2 < |es| ==> es0[c.2].kind != LINE && es0[c.2].kind != ARC)
    decreases |es| - k
  {
    if k < |es| && (es[k].kind == LINE || es[k].kind == ARC) {
      assert es0[k].kind == es[k].kind;
      var es1, gs1 := MirrorCopiesStep(es0, gs0, es, gs, keys, mirrorZ, voltageGroup, k);
      MirrorCopiesStops(es0, gs0, es1, gs1, keys, mirrorZ, voltageGroup, k + 1);
      var c := MirrorCopies(es1, gs1, keys, mirrorZ, voltageGroup, k + 1);
      assert forall i :: k + 1 <= i < c.2 ==> es0[i].kind == LINE || es0[i].kind == ARC;
    } else {
      assert MirrorCopies(es, gs, keys, mirrorZ, voltageGroup, k).2 == k;
      assert k < |es| ==> es0[k].kind == es[k].kind;
    }
  }

  /** One iteration of the `mirror` loop keeps the invariant of `MirrorCopiesRepeats`. */
  lemma MirrorCopiesStep(es0: seq<Row>, gs0: seq<Row>, es: seq<Row>, gs: seq<Row>, keys: seq<nat>,
                         mirrorZ: real, voltageGroup: Option<int>, k: nat)
    returns (es1: seq<Row>, gs1: seq<Row>)
    requires Alike(es0, gs0, keys) && |es| == |gs| == |keys| && k < |es|
    requires es[k].kind == LINE || es[k].kind == ARC
    requires forall i :: 0 <= i < |es| ==>
      (es[i], gs[i]) == MirroredTimes(es0[i], gs0[i], Occurrences(keys[..k], keys[i]), mirrorZ, voltageGroup)
    ensures |es1| == |gs1| == |es|
    ensures MirrorCopies(es, gs, keys, mirrorZ, voltageGroup, k) == MirrorCopies(es1, gs1, keys, mirrorZ, voltageGroup, k + 1)
    ensures forall i :: 0 <= i < |es| ==>
      (es1[i], gs1[i]) == MirroredTimes(es0[i], gs0[i], Occurrences(keys[..k + 1], keys[i]), mirrorZ, voltageGroup)
  {
    var c := Occurrences(keys[..k], keys[k]);
    assert (es[k], gs[k]) == MirroredTimes(es0[k], gs0[k], c, mirrorZ, voltageGroup);
    var p := MirrorPair(es[k], gs[k], mirrorZ, voltageGroup);
    MirroredTimesStep(es0[k], gs0[k], c, mirrorZ, voltageGroup);
    assert p == MirroredTimes(es0[k], gs0[k], c + 1, mirrorZ, voltageGroup);
    es1, gs1 := Written(es, keys, keys[k], p.0), Written(gs, keys, keys[k], p.1);
    forall i | 0 <= i < |es|
      ensures (es1[i], gs1[i]) == MirroredTimes(es0[i], gs0[i], Occurrences(keys[..k + 1], keys[i]), mirrorZ, voltageGroup)
    {
      OccurrencesStep(keys, k, keys[i]);
      if keys[i] == keys[k] {
        assert SameObjectAlike(es0, gs0, keys, i, k);
        assert (es1[i], gs1[i]) == p;
      } else {
        assert (es1[i], gs1[i]) == (es[i], gs[i]);
      }
    }
  }

  /** One more pass of the loop body over a pair of known type. */
  lemma MirroredTimesStep(e: Row, g: Row, n: nat, mirrorZ: real, voltageGroup: Option<int>)
    requires e.kind == LINE || e.kind == ARC
    ensures var q := MirroredTimes(e, g, n, mirrorZ, voltageGroup);
      MirroredTimes(e, g, n + 1, mirrorZ, voltageGroup) == MirrorPair(q.0, q.1, mirrorZ, voltageGroup)
  {
  }

  /**
   * What `mirror` appends, row by row: the loop runs over the rows of known type up to the
   * first of unknown type, and the row appended at each completed iteration is its selected
   * pair mirrored once for every completed iteration that holds the same copy.
   */
  lemma MirrorAppendRepeats(es: seq<Row>, gs: seq<Row>, keys: seq<nat>, mirrorZ: real, voltageGroup: Option<int>)
    requires Alike(es, gs, keys)
    ensures var m := MirrorAppend(es, gs, keys, mirrorZ, voltageGroup);
      && (m.2 <==> forall i :: 0 <= i < |es| ==> es[i].kind == LINE || es[i].kind == ARC)
      && (forall i :: 0 <= i < |m.0| ==> es[i].kind == LINE || es[i].kind == ARC)
      && (!m.2 ==> es[|m.0|].kind != LINE && es[|m.0|].kind != ARC)
      && forall i :: 0 <= i < |m.0| ==>
           (m.0[i], m.1[i]) == MirroredTimes(es[i], gs[i], Occurrences(keys[..|m.0|], keys[i]), mirrorZ, voltageGroup)
  {
    assert keys[..0] == [];
    MirrorCopiesRepeats(es, gs, es, gs, keys, mirrorZ, voltageGroup, 0);
    MirrorCopiesStops(es, gs, es, gs, keys, mirrorZ, voltageGroup, 0);
  }

  /** A key at one position only occurs once, and a key at no position never. */
  lemma {:induction false} OccurrencesDistinct(keys: seq<nat>, key: nat)
    requires forall i, j :: 0 <= i < j < |keys| ==> keys[i] != keys[j]
    ensures Occurrences(keys, key) == if key in keys then 1 else 0
  {
    if keys != [] {
      var k := |keys| - 1;
      OccurrencesDistinct(keys[..k], key);
      assert keys == keys[..k] + [keys[k]];
    }
  }

  /** Without a repeated row object in the selection, every appended row is mirrored exactly once. */
  lemma MirrorAppendOnce(es: seq<Row>, gs: seq<Row>, keys: seq<nat>, mirrorZ: real, voltageGroup: Option<int>)
    requires |es| == |gs| == |keys|
    requires forall i, j :: 0 <= i < j < |keys| ==> keys[i] != keys[j]
    ensures var m := MirrorAppend(es, gs, keys, mirrorZ, voltageGroup);
      forall i :: 0 <= i < |m.0| ==>
        (es[i].kind == LINE || es[i].kind == ARC) && (m.0[i], m.1[i]) == MirrorPair(es[i], gs[i], mirrorZ, voltageGroup)
  {
    MirrorAppendRepeats(es, gs, keys, mirrorZ, voltageGroup);
    var m := MirrorAppend(es, gs, keys, mirrorZ, voltageGroup);
    var b := |m.0|;
    forall i | 0 <= i < b
      ensures (es[i].kind == LINE || es[i].kind == ARC) && (m.0[i], m.1[i]) == MirrorPair(es[i], gs[i], mirrorZ, voltageGroup)
    {
      OccurrencesDistinct(keys[..b], keys[i]);
      assert keys[..b][i] == keys[i];
      assert (m.0[i], m.1[i]) == MirroredTimes(es[i], gs[i], 1, mirrorZ, voltageGroup);
      assert MirroredTimes(es[i], gs[i], 0, mirrorZ, voltageGroup) == (es[i], gs[i]);
    }
  }

  /** A Python index is valid for a list of length `n`. */
  predicate IndexOk(i: int, n: int)
  {
    -n <= i < n
  }

  /** The list position a valid Python index denotes. */
  function Position(i: int, n: int): (p: int)
    requires IndexOk(i, n)
    ensures 0 <= p < n
  {
    if i < 0 then i + n else i
  }

  /** `[rows[i] for i in indices]`. */
  function Selected<T>(rows: seq<T>, indices: seq<int>): (sel: seq<T>)
    requires forall k :: 0 <= k < |indices| ==> IndexOk(indices[k], |rows|)
    ensures |sel| == |indices|
  {
    seq(|indices|, k requires 0 <= k < |indices| => rows[Position(indices[k], |rows|)])
  }

  lemma SelectedPaired(s: Snapshot, indices: seq<int>)
    requires Inv(s)
    requires forall k :: 0 <= k < |indices| ==> IndexOk(indices[k], |s.coefE|)
    ensures Paired(Selected(s.coefE, indices), Selected(s.coefR, indices))
  {
    var es, gs := Selected(s.coefE, indices), Selected(s.coefR, indices);
    forall k | 0 <= k < |es|
      ensures es[k].points == gs[k].points && es[k].kind == gs[k].kind && gs[k].voltage == 0
    {
      var p := Position(indices[k], |s.coefE|);
      assert es[k] == s.coefE[p] && gs[k] == s.coefR[p];
    }
  }

  /** Selected positions that hold one object hold equal rows. */
  lemma SelectedAlike(s: Snapshot, indices: seq<int>)
    requires Inv(s)
    requires forall k :: 0 <= k < |indices| ==> IndexOk(indices[k], |s.coefE|)
    ensures Alike(Selected(s.coefE, indices), Selected(s.coefR, indices), Selected(s.rowIds, indices))
  {
    var n := |s.coefE|;
    var es, gs, keys := Selected(s.coefE, indices), Selected(s.coefR, indices), Selected(s.rowIds, indices);
    forall i, j | 0 <= i < |keys| && 0 <= j < |keys|
      ensures SameObjectAlike(es, gs, keys, i, j)
    {
      var p, q := Position(indices[i], n), Position(indices[j], n);
      assert keys[i] == s.rowIds[p] && keys[j] == s.rowIds[q];
      assert es[i] == s.coefE[p] && es[j] == s.coefE[q] && gs[i] == s.coefR[p] && gs[j] == s.coefR[q];
      assert SameObjectAlike(s.coefE, s.coefR, s.rowIds, p, q);
    }
  }

  /** The appended rows are paired, and rows appended for one copy are equal. */
  lemma MirrorAppendPaired(es: seq<Row>, gs: seq<Row>, keys: seq<nat>, mirrorZ: real, voltageGroup: Option<int>)
    requires Paired(es, gs) && Alike(es, gs, keys)
    ensures var m := MirrorAppend(es, gs, keys, mirrorZ, voltageGroup);
      Paired(m.0, m.1) && Alike(m.0, m.1, keys[..|m.0|])
  {
    MirrorAppendRepeats(es, gs, keys, mirrorZ, voltageGroup);
    MirrorAppendAlike(es, gs, keys, mirrorZ, voltageGroup);
  }

  /** Rows appended for one copy are equal. */
  lemma MirrorAppendAlike(es: seq<Row>, gs: seq<Row>, keys: seq<nat>, mirrorZ: real, voltageGroup: Option<int>)
    requires Alike(es, gs, keys)
    ensures var m := MirrorAppend(es, gs, keys, mirrorZ, voltageGroup);
      Alike(m.0, m.1, keys[..|m.0|])
  {
    MirrorAppendRepeats(es, gs, keys, mirrorZ, voltageGroup);
    var m := MirrorAppend(es, gs, keys, mirrorZ, voltageGroup);
    var b := |m.0|;
    forall i, j | 0 <= i < b && 0 <= j < b
      ensures SameObjectAlike(m.0, m.1, keys[..b], i, j)
    {
      assert keys[..b][i] == keys[i] && keys[..b][j] == keys[j];
      if keys[i] == keys[j] {
        assert SameObjectAlike(es, gs, keys, i, j);
      }
    }
  }

  /** Appending paired rows to both lists of a lens that satisfies the invariant keeps it. */
  lemma AppendPaired(coefE: seq<Row>, coefR: seq<Row>, es: seq<Row>, gs: seq<Row>)
    requires Paired(coefE, coefR) && Paired(es, gs)
    ensures Paired(coefE + es, coefR + gs)
  {
    var e, g := coefE + es, coefR + gs;
    forall i | 0 <= i < |e|
      ensures e[i].points == g[i].points && e[i].kind == g[i].kind && g[i].voltage == 0
    {
      if i >= |coefE| {
        assert e[i] == es[i - |coefE|] && g[i] == gs[i - |coefE|];
      }
    }
  }

  /** The first position of `keys` that holds `key`. */
  function FirstIndex(keys: seq<nat>, key: nat): (r: nat)
    requires key in keys
    ensures r < |keys| && keys[r] == key && forall j :: 0 <= j < r ==> keys[j] != key
  {
    if keys[0] == key then 0 else 1 + FirstIndex(keys[1..], key)
  }

  /**
   * The ids of the first `count` copies appended at positions `n, n+1, ...`: a copy is
   * named by the position where it is first appended.
   */
  function CopyIds(n: nat, keys: seq<nat>, count: nat): (ids: seq<nat>)
    requires count <= |keys|
    ensures |ids| == count
  {
    seq(count, k requires 0 <= k < count => n + FirstIndex(keys, keys[k]))
  }

  /** Two appended copies share an id exactly when they copy the same object. */
  lemma CopyIdsPattern(n: nat, keys: seq<nat>, count: nat)
    requires count <= |keys|
    ensures var ids := CopyIds(n, keys, count);
      forall i, j :: 0 <= i < count && 0 <= j < count ==> (ids[i] == ids[j] <==> keys[i] == keys[j])
  {
    var ids := CopyIds(n, keys, count);
    forall i, j | 0 <= i < count && 0 <= j < count && ids[i] == ids[j]
      ensures keys[i] == keys[j]
    {
      assert keys[FirstIndex(keys, keys[i])] == keys[i] && keys[FirstIndex(keys, keys[j])] == keys[j];
    }
  }

  /** Appending the copies with their ids keeps the identity invariant. */
  lemma IdentitiesCopies(ids: seq<nat>, es: seq<Row>, gs: seq<Row>, keys: seq<nat>, m0: seq<Row>, m1: seq<Row>)
    requires Identities(ids, es, gs)
    requires |m0| <= |keys| && Alike(m0, m1, keys[..|m0|])
    ensures Identities(ids + CopyIds(|ids|, keys, |m0|), es + m0, gs + m1)
  {
    var n, b := |ids|, |m0|;
    var added := CopyIds(n, keys, b);
    var ids', es', gs' := ids + added, es + m0, gs + m1;
    forall p | 0 <= p < |ids'|
      ensures ids'[p] <= p && (p < n <==> ids'[p] < n)
    {
      if p >= n {
        assert ids'[p] == n + FirstIndex(keys, keys[p - n]);
      } else {
        assert ids'[p] == ids[p];
      }
    }
    forall p, q | 0 <= p < |ids'| && 0 <= q < |ids'|
      ensures SameObjectAlike(es', gs', ids', p, q)
    {
      if p < n && q < n {
        assert ids'[p] == ids[p] && ids'[q] == ids[q];
        assert es'[p] == es[p] && es'[q] == es[q] && gs'[p] == gs[p] && gs'[q] == gs[q];
        assert SameObjectAlike(es, gs, ids, p, q);
      } else if p >= n && q >= n {
        var i, j := p - n, q - n;
        assert es'[p] == m0[i] && es'[q] == m0[j] && gs'[p] == m1[i] && gs'[q] == m1[j];
        if ids'[p] == ids'[q] {
          assert keys[FirstIndex(keys, keys[i])] == keys[i] && keys[FirstIndex(keys, keys[j])] == keys[j];
          assert keys[..b][i] == keys[..b][j];
          assert SameObjectAlike(m0, m1, keys[..b], i, j);
        }
      }
    }
  }

  /**
   * `mirror(pieces_i, mirror_z, voltage_group)`. An index out of range raises before anything
   * is appended. Otherwise the selected rows are deep-copied, so a row object selected more
   * than once (by a repeated index, by `i` and `i - n`, or by two positions that already
   * share it) becomes one copy; the loop appends a reference to a copy per completed
   * iteration, the original rows never change, and a row of unknown type stops the loop
   * with what was appended before it.
   */
  function MirrorStep(s: Snapshot, indices: seq<int>, mirrorZ: real, voltageGroup: Option<int>): (o: Outcome)
    requires Inv(s)
    ensures o.status == BadIndex <==> exists k :: 0 <= k < |indices| && !IndexOk(indices[k], |s.coefE|)
    ensures o.status == BadIndex ==> o.after == s
    ensures o.status == Ok || o.status == BadIndex || o.status == NonsenseType
    ensures o.status == Ok <==>
      && (forall k :: 0 <= k < |indices| ==> IndexOk(indices[k], |s.coefE|))
      && (forall k :: 0 <= k < |indices| ==> s.coefE[Position(indices[k], |s.coefE|)].kind in {LINE, ARC})
    ensures o.after == s.(coefE := o.after.coefE, coefR := o.after.coefR, rowIds := o.after.rowIds)
    ensures |o.after.coefE| >= |s.coefE| && o.after.coefE[..|s.coefE|] == s.coefE
    ensures |o.after.coefR| >= |s.coefR| && o.after.coefR[..|s.coefR|] == s.coefR
    ensures |o.after.rowIds| >= |s.rowIds| && o.after.rowIds[..|s.rowIds|] == s.rowIds
    ensures o.status == Ok ==> |o.after.coefE| == |s.coefE| + |indices|
    ensures Inv(o.after)
  {
    var n := |s.coefE|;
    if !(forall k :: 0 <= k < |indices| ==> IndexOk(indices[k], n)) then
      Outcome(s, BadIndex)
    else
      var es, gs, keys := Selected(s.coefE, indices), Selected(s.coefR, indices), Selected(s.rowIds, indices);
      MirrorAppendKeeps(s, indices, mirrorZ, voltageGroup);
      var m := MirrorAppend(es, gs, keys, mirrorZ, voltageGroup);
      var t := s.(coefE := s.coefE + m.0, coefR := s.coefR + m.1, rowIds := s.rowIds + CopyIds(n, keys, |m.0|));
      assert t.coefE[..n] == s.coefE && t.coefR[..|s.coefR|] == s.coefR && t.rowIds[..|s.rowIds|] == s.rowIds;
      Outcome(t, if m.2 then Ok else NonsenseType)
  }

  /**
   * With every index valid, `mirror` completes exactly when every selected row has a known
   * type, and the tables with the copies appended keep the invariant.
   */
  lemma MirrorAppendKeeps(s: Snapshot, indices: seq<int>, mirrorZ: real, voltageGroup: Option<int>)
    requires Inv(s)
    requires forall k :: 0 <= k < |indices| ==> IndexOk(indices[k], |s.coefE|)
    ensures
      var keys := Selected(s.rowIds, indices);
      var m := MirrorAppend(Selected(s.coefE, indices), Selected(s.coefR, indices), keys, mirrorZ, voltageGroup);
      && (m.2 <==> forall k :: 0 <= k < |indices| ==> s.coefE[Position(indices[k], |s.coefE|)].kind in {LINE, ARC})
      && Inv(s.(coefE := s.coefE + m.0, coefR := s.coefR + m.1, rowIds := s.rowIds + CopyIds(|s.coefE|, keys, |m.0|)))
  {
    var n := |s.coefE|;
    var es, gs, keys := Selected(s.coefE, indices), Selected(s.coefR, indices), Selected(s.rowIds, indices);
    SelectedAlike(s, indices);
    MirrorAppendRepeats(es, gs, keys, mirrorZ, voltageGroup);
    var m := MirrorAppend(es, gs, keys, mirrorZ, voltageGroup);
    assert m.2 <==> forall k :: 0 <= k < |indices| ==> s.coefE[Position(indices[k], n)].kind in {LINE, ARC} by {
      assert forall k :: 0 <= k < |indices| ==> es[k] == s.coefE[Position(indices[k], n)];
    }
    SelectedPaired(s, indices);
    MirrorAppendPaired(es, gs, keys, mirrorZ, voltageGroup);
    AppendPaired(s.coefE, s.coefR, m.0, m.1);
    IdentitiesCopies(s.rowIds, s.coefE, s.coefR, keys, m.0, m.1);
  }

  /** Arc angles that mirroring twice restores: both in (-180, 180] and not straddling the seam. */
  predicate CanonicalAngles(row: Row)
  {
    -180.0 < row.s3 <= 180.0 && -180.0 < row.s5 <= 180.0 && SeamConsistent(row.s3, row.s5)
  }

  /** An electrode row that mirroring twice restores: a line, or an arc with canonical angles. */
  predicate Restorable(row: Row)
  {
    row.kind == LINE || (row.kind == ARC && CanonicalAngles(row))
  }

  lemma MirrorPairInvolution(e: Row, g: Row, mirrorZ: real)
    requires e.kind == LINE || e.kind == ARC
    requires Restorable(e) && (e.kind == ARC ==> CanonicalAngles(g))
    ensures var p := MirrorPair(e, g, mirrorZ, None);
      p.0.kind == e.kind && MirrorPair(p.0, p.1, mirrorZ, None) == (e, g)
  {
    var p := MirrorPair(e, g, mirrorZ, None);
    if e.kind == ARC {
      MirrorArcInvolution(e, mirrorZ);
      MirrorArcInvolution(g, mirrorZ);
      MirrorArcInvolution(e.(voltage := -e.voltage), mirrorZ);
    }
  }

  /** `a` passes of the loop body followed by `b` more are `a + b` passes. */
  lemma {:induction false} MirroredTimesAdd(e: Row, g: Row, a: nat, b: nat, mirrorZ: real, voltageGroup: Option<int>)
    ensures var q := MirroredTimes(e, g, a, mirrorZ, voltageGroup);
      MirroredTimes(q.0, q.1, b, mirrorZ, voltageGroup) == MirroredTimes(e, g, a + b, mirrorZ, voltageGroup)
  {
    if b > 0 {
      MirroredTimesAdd(e, g, a, b - 1, mirrorZ, voltageGroup);
    }
  }

  /** An even number of default passes gives a restorable pair back. */
  lemma {:induction false} MirroredEvenRestores(e: Row, g: Row, c: nat, mirrorZ: real)
    requires Restorable(e) && (e.kind == ARC ==> CanonicalAngles(g))
    ensures MirroredTimes(e, g, 2 * c, mirrorZ, None) == (e, g)
  {
    if c > 0 {
      MirroredEvenRestores(e, g, c - 1, mirrorZ);
      MirrorPairInvolution(e, g, mirrorZ);
      MirroredTimesAdd(e, g, 2 * c - 2, 2, mirrorZ, None);
      var p := MirrorPair(e, g, mirrorZ, None);
      assert MirroredTimes(e, g, 1, mirrorZ, None) == p;
      assert MirroredTimes(e, g, 2, mirrorZ, None) == MirrorPair(p.0, p.1, mirrorZ, None);
    }
  }

  /** Equal keys at the same positions give equal counts. */
  lemma {:induction false} OccurrencesMatch(a: seq<nat>, b: seq<nat>, x: nat, y: nat)
    requires |a| == |b| && forall j :: 0 <= j < |a| ==> (a[j] == x <==> b[j] == y)
    ensures Occurrences(a, x) == Occurrences(b, y)
  {
    if a != [] {
      var k := |a| - 1;
      OccurrencesMatch(a[..k], b[..k], x, y);
    }
  }

  /**
   * Mirroring the appended copies again with default voltages gives the selection back,
   * also when it repeats a row object: each copy was mirrored once per occurrence, and is
   * mirrored as often again. `keys2` are the second selection's ids, which group the
   * positions as `keys` does.
   */
  lemma MirrorAppendInvolution(es: seq<Row>, gs: seq<Row>, keys: seq<nat>, keys2: seq<nat>, mirrorZ: real)
    requires Alike(es, gs, keys) && |keys2| == |keys|
    requires forall i, j :: 0 <= i < |keys| && 0 <= j < |keys| ==> (keys[i] == keys[j] <==> keys2[i] == keys2[j])
    requires forall i :: 0 <= i < |es| ==> Restorable(es[i]) && (es[i].kind == ARC ==> CanonicalAngles(gs[i]))
    ensures var m := MirrorAppend(es, gs, keys, mirrorZ, None);
      m.2 && MirrorAppend(m.0, m.1, keys2, mirrorZ, None) == (es, gs, true)
  {
    MirrorAppendRepeats(es, gs, keys, mirrorZ, None);
    MirrorAppendAlike(es, gs, keys, mirrorZ, None);
    var m := MirrorAppend(es, gs, keys, mirrorZ, None);
    assert keys[..|es|] == keys;
    AlikeRegrouped(m.0, m.1, keys, keys2);
    MirrorAppendRepeats(m.0, m.1, keys2, mirrorZ, None);
    var m2 := MirrorAppend(m.0, m.1, keys2, mirrorZ, None);
    assert keys2[..|es|] == keys2;
    assert m2.2;
    forall i | 0 <= i < |es|
      ensures m2.0[i] == es[i] && m2.1[i] == gs[i]
    {
      var c := Occurrences(keys, keys[i]);
      OccurrencesMatch(keys2, keys, keys2[i], keys[i]);
      assert (m.0[i], m.1[i]) == MirroredTimes(es[i], gs[i], c, mirrorZ, None);
      assert (m2.0[i], m2.1[i]) == MirroredTimes(m.0[i], m.1[i], c, mirrorZ, None);
      MirroredTwiceRestores(es[i], gs[i], c, mirrorZ);
    }
    assert m2.0 == es && m2.1 == gs;
  }

  /** `c` default passes followed by `c` more give a restorable pair back. */
  lemma MirroredTwiceRestores(e: Row, g: Row, c: nat, mirrorZ: real)
    requires Restorable(e) && (e.kind == ARC ==> CanonicalAngles(g))
    ensures var q := MirroredTimes(e, g, c, mirrorZ, None);
      MirroredTimes(q.0, q.1, c, mirrorZ, None) == (e, g)
  {
    MirroredTimesAdd(e, g, c, c, mirrorZ, None);
    MirroredEvenRestores(e, g, c, mirrorZ);
    assert c + c == 2 * c;
  }

  /** Rows alike under one grouping are alike under any grouping with the same pattern. */
  lemma AlikeRegrouped(es: seq<Row>, gs: seq<Row>, keys: seq<nat>, keys2: seq<nat>)
    requires Alike(es, gs, keys) && |keys2| == |keys|
    requires forall i, j :: 0 <= i < |keys| && 0 <= j < |keys| ==> (keys[i] == keys[j] <==> keys2[i] == keys2[j])
    ensures Alike(es, gs, keys2)
  {
    forall i, j | 0 <= i < |keys| && 0 <= j < |keys|
      ensures SameObjectAlike(es, gs, keys2, i, j)
    {
      assert SameObjectAlike(es, gs, keys, i, j);
    }
  }

  /** A non-empty sequence is its front followed by its last element. */
  lemma SplitLast<T>(s: seq<T>)
    requires s != []
    ensures s[..|s| - 1] + [s[|s| - 1]] == s
  {
  }

  /** A prefix of a prefix is a prefix. */
  lemma PrefixOfPrefix<T>(s: seq<T>, k: int, j: int)
    requires 0 <= j <= k <= |s|
    ensures s[..k][..j] == s[..j]
  {
  }

  /** The indices `n, n+1, ..., n+count-1`. */
  function Range(n: int, count: nat): (r: seq<int>)
    ensures |r| == count && forall k :: 0 <= k < count ==> r[k] == n + k
  {
    seq(count, k => n + k)
  }

  /**
   * With every index valid, `mirror` appends what `MirrorAppend` produces for the selected
   * rows and their objects, and the appended positions share ids as the copies share objects.
   */
  lemma MirrorStepAppends(s: Snapshot, indices: seq<int>, mirrorZ: real, voltageGroup: Option<int>)
    requires Inv(s)
    requires forall k :: 0 <= k < |indices| ==> IndexOk(indices[k], |s.coefE|)
    ensures
      var keys := Selected(s.rowIds, indices);
      var m := MirrorAppend(Selected(s.coefE, indices), Selected(s.coefR, indices), keys, mirrorZ, voltageGroup);
      var o := MirrorStep(s, indices, mirrorZ, voltageGroup);
      && o.after.coefE == s.coefE + m.0 && o.after.coefR == s.coefR + m.1
      && o.after.rowIds == s.rowIds + CopyIds(|s.coefE|, keys, |m.0|)
      && (o.status == Ok <==> m.2)
  {
  }

  /** Selecting the positions of the items appended last gives back those items. */
  lemma SelectedAppended<T>(rows: seq<T>, extra: seq<T>)
    ensures forall k :: 0 <= k < |extra| ==> IndexOk(Range(|rows|, |extra|)[k], |rows + extra|)
    ensures Selected(rows + extra, Range(|rows|, |extra|)) == extra
  {
  }

  /**
   * Mirroring is an involution: mirroring the copies that a default `mirror` call appended,
   * about the same plane and again with default voltages, appends the originally selected
   * electrode and ring rows back, voltages included, whether or not the selection repeats
   * a row.
   */
  lemma MirrorTwiceRestores(s: Snapshot, indices: seq<int>, mirrorZ: real)
    requires Inv(s)
    requires forall k :: 0 <= k < |indices| ==> IndexOk(indices[k], |s.coefE|)
    requires forall k :: 0 <= k < |indices| ==>
      var p := Position(indices[k], |s.coefE|);
      Restorable(s.coefE[p]) && (s.coefE[p].kind == ARC ==> CanonicalAngles(s.coefR[p]))
    ensures
      var o1 := MirrorStep(s, indices, mirrorZ, None);
      var o2 := MirrorStep(o1.after, Range(|o1.after.coefE| - |indices|, |indices|), mirrorZ, None);
      && o1.status == Ok && o2.status == Ok
      && o2.after.coefE == o1.after.coefE + Selected(s.coefE, indices)
      && o2.after.coefR == o1.after.coefR + Selected(s.coefR, indices)
  {
    var m0, m1, ids := MirrorFirstPass(s, indices, mirrorZ);
    var o1 := MirrorStep(s, indices, mirrorZ, None);
    MirrorSecondPass(o1.after, s.coefE, s.coefR, s.rowIds, m0, m1, ids, Selected(s.coefE, indices), Selected(s.coefR, indices), mirrorZ);
  }

  /**
   * The first `mirror` of `MirrorTwiceRestores`: it succeeds and appends a block `m0`, `m1`
   * with ids `ids`, and mirroring that block again by those ids gives the selection back.
   */
  lemma MirrorFirstPass(s: Snapshot, indices: seq<int>, mirrorZ: real) returns (m0: seq<Row>, m1: seq<Row>, ids: seq<nat>)
    requires Inv(s)
    requires forall k :: 0 <= k < |indices| ==> IndexOk(indices[k], |s.coefE|)
    requires forall k :: 0 <= k < |indices| ==>
      var p := Position(indices[k], |s.coefE|);
      Restorable(s.coefE[p]) && (s.coefE[p].kind == ARC ==> CanonicalAngles(s.coefR[p]))
    ensures var o1 := MirrorStep(s, indices, mirrorZ, None);
      && o1.status == Ok && |m0| == |m1| == |ids| == |indices|
      && o1.after.coefE == s.coefE + m0 && o1.after.coefR == s.coefR + m1 && o1.after.rowIds == s.rowIds + ids
      && MirrorAppend(m0, m1, ids, mirrorZ, None) == (Selected(s.coefE, indices), Selected(s.coefR, indices), true)
  {
    var n := |s.coefE|;
    var es, gs, keys := Selected(s.coefE, indices), Selected(s.coefR, indices), Selected(s.rowIds, indices);
    ids := CopyIds(n, keys, |indices|);
    SelectedAlike(s, indices);
    CopyIdsPattern(n, keys, |indices|);
    assert forall k :: 0 <= k < |indices| ==> es[k] == s.coefE[Position(indices[k], n)];
    assert forall k :: 0 <= k < |indices| ==> gs[k] == s.coefR[Position(indices[k], n)];
    MirrorAppendInvolution(es, gs, keys, ids, mirrorZ);
    var m := MirrorAppend(es, gs, keys, mirrorZ, None);
    m0, m1 := m.0, m.1;
    MirrorStepAppends(s, indices, mirrorZ, None);
  }

  /** The second `mirror` of `MirrorTwiceRestores`, over the block appended last. */
  lemma MirrorSecondPass(t: Snapshot, coefE: seq<Row>, coefR: seq<Row>, rowIds: seq<nat>,
                         m0: seq<Row>, m1: seq<Row>, ids: seq<nat>, es: seq<Row>, gs: seq<Row>, mirrorZ: real)
    requires Inv(t) && |coefE| == |coefR| == |rowIds| && |m0| == |m1| == |ids|
    requires t.coefE == coefE + m0 && t.coefR == coefR + m1 && t.rowIds == rowIds + ids
    requires |es| == |gs| == |m0| && MirrorAppend(m0, m1, ids, mirrorZ, None) == (es, gs, true)
    ensures
      var o := MirrorStep(t, Range(|t.coefE| - |m0|, |m0|), mirrorZ, None);
      o.status == Ok && o.after.coefE == t.coefE + es && o.after.coefR == t.coefR + gs
  {
    var back := Range(|coefE|, |m0|);
    SelectedAppended(coefE, m0);
    SelectedAppended(coefR, m1);
    SelectedAppended(rowIds, ids);
    MirrorStepAppends(t, back, mirrorZ, None);
  }

  /**
   * A repeated selection in one call: selecting a restorable row twice with default
   * voltages appends it twice unchanged, because its single copy is mirrored twice, and
   * both appended positions hold that one copy.
   */
  lemma MirrorSameRowTwice(s: Snapshot, i: int, mirrorZ: real)
    requires Inv(s) && IndexOk(i, |s.coefE|)
    requires var p := Position(i, |s.coefE|);
      Restorable(s.coefE[p]) && (s.coefE[p].kind == ARC ==> CanonicalAngles(s.coefR[p]))
    ensures
      var n := |s.coefE|;
      var p := Position(i, n);
      var o := MirrorStep(s, [i, i], mirrorZ, None);
      && o.status == Ok
      && o.after.coefE == s.coefE + [s.coefE[p], s.coefE[p]]
      && o.after.coefR == s.coefR + [s.coefR[p], s.coefR[p]]
      && o.after.rowIds == s.rowIds + [n, n]
  {
    var n := |s.coefE|;
    var p := Position(i, n);
    var e, g, a := s.coefE[p], s.coefR[p], s.rowIds[p];
    var indices := [i, i];
    var es, gs, keys := Selected(s.coefE, indices), Selected(s.coefR, indices), Selected(s.rowIds, indices);
    assert es == [e, e] && gs == [g, g] && keys == [a, a];
    SelectedAlike(s, indices);
    MirrorAppendRepeats(es, gs, keys, mirrorZ, None);
    var m := MirrorAppend(es, gs, keys, mirrorZ, None);
    assert m.2;
    assert keys[..2] == keys && keys[..1] == [a] && [a][..0] == [];
    assert Occurrences(keys, a) == 2;
    MirroredEvenRestores(e, g, 1, mirrorZ);
    assert m.0 == [e, e] && m.1 == [g, g];
    assert CopyIds(n, keys, 2) == [n, n];
    MirrorStepAppends(s, indices, mirrorZ, None);
  }

  /** `mirror_voltage_group`'s selection: the indices of the electrode rows of one voltage group, in order. */
  function GroupIndices(rows: seq<Row>, voltage: int): (r: seq<int>)
    ensures forall k :: 0 <= k < |r| ==> 0 <= r[k] < |rows| && rows[r[k]].voltage == voltage
    ensures forall i :: 0 <= i < |rows| && rows[i].voltage == voltage ==> i in r
    ensures forall j, k :: 0 <= j < k < |r| ==> r[j] < r[k]
  {
    if rows == [] then []
    else
      var k := |rows| - 1;
      var r := GroupIndices(rows[..k], voltage);
      assert forall j :: 0 <= j < |r| ==> r[j] < k;
      if rows[k].voltage == voltage then r + [k] else r
  }

  /** `mirror_voltage_group(mirror_z)`: mirrors every row of the current voltage group with negated voltage. */
  function MirrorGroupStep(s: Snapshot, mirrorZ: real): (o: Outcome)
    requires Inv(s)
    ensures o.status != BadIndex
    ensures Inv(o.after)
  {
    MirrorStep(s, GroupIndices(s.coefE, s.voltage), mirrorZ, None)
  }

  // ---------------------------------------------------------------- check

  /** `check`: adds the ring point total to `nTotal` and compares it with the electrode total. */
  function CheckStep(s: Snapshot): (o: Outcome)
    ensures o.after == s.(nTotal := s.nTotal + SumPoints(s.coefR))
    ensures o.status == Ok <==> SumPoints(s.coefE) == o.after.nTotal
    ensures o.status == Ok || o.status == CountMismatch
    ensures Inv(s) ==> Inv(o.after)
  {
    var t := s.(nTotal := s.nTotal + SumPoints(s.coefR));
    Outcome(t, if SumPoints(s.coefE) != t.nTotal then CountMismatch else Ok)
  }

  /**
   * On a lens built by its own methods the point totals always agree, so `check` passes
   * exactly when `nTotal` is still 0: it accumulates, and a second `check` of a lens with
   * points fails.
   */
  lemma CheckPassesIffFresh(s: Snapshot)
    requires Inv(s)
    ensures SumPoints(s.coefE) == SumPoints(s.coefR)
    ensures CheckStep(s).status == Ok <==> s.nTotal == 0
    ensures SumPoints(s.coefR) != 0 && CheckStep(s).status == Ok ==> CheckStep(CheckStep(s).after).status == CountMismatch
  {
    SumPointsLockstep(s.coefE, s.coefR);
  }

  // ---------------------------------------------------------------- the builder object

  /** `Lens`, a stateful builder. */
  /**
   * The `mirror` loop over the deep-copied selection, whose position `i` holds copy
   * `keys[i]`: each iteration mirrors its copy in place, which every position holding that
   * copy sees, and the tables receive references to the copies, so they end up with the
   * copies as the loop leaves them. Also returns whether every row had a known type; the
   * loop stops at the first that has not.
   */
  method MirrorRows(copiesE: seq<Row>, copiesR: seq<Row>, keys: seq<nat>, mirrorZ: real, voltageGroup: Option<int>)
    returns (rows: (seq<Row>, seq<Row>, bool))
    requires |copiesE| == |copiesR| == |keys|
    ensures rows == MirrorAppend(copiesE, copiesR, keys, mirrorZ, voltageGroup)
  {
    var piecesE, piecesR := copiesE, copiesR;
    var j := 0;
    while j < |piecesE|
      invariant |piecesE| == |piecesR| == |keys| && 0 <= j <= |piecesE|
      invariant MirrorCopies(piecesE, piecesR, keys, mirrorZ, voltageGroup, j)
             == MirrorCopies(copiesE, copiesR, keys, mirrorZ, voltageGroup, 0)
    {
      if piecesE[j].kind != LINE && piecesE[j].kind != ARC {
        return (piecesE[..j], piecesR[..j], false);
      }
      var pair := MirrorPair(piecesE[j], piecesR[j], mirrorZ, voltageGroup);
      piecesE := Written(piecesE, keys, keys[j], pair.0);
      piecesR := Written(piecesR, keys, keys[j], pair.1);
      j := j + 1;
    }
    assert piecesE[..j] == piecesE && piecesR[..j] == piecesR;
    return (piecesE, piecesR, true);
  }

  class Lens {
    const pointSpacing: real
    const erSpacing: real
    const zOffset: real
    const num: Numerics

    var zStart: real
    var rStart: real
    var startDirection: Option<real>
    var prevPiece: PrevPiece
    var voltage: int
    var coefE: seq<Row>
    var coefR: seq<Row>
    /** Which positions of the tables hold one list object (see `Snapshot`). */
    var rowIds: seq<nat>
    var nPieces: seq<(string, int)>
    var nTotal: int

    function Cfg(): Config
    {
      Config(pointSpacing, erSpacing, zOffset, num)
    }

    function State(): Snapshot
      reads this
    {
      Snapshot(zStart, rStart, startDirection, prevPiece, voltage, coefE, coefR, rowIds, nPieces, nTotal)
    }

    ghost predicate Valid()
      reads this
    {
      ConfigOk(Cfg()) && Inv(State())
    }

    /** The dataclass defaults and `__post_init__`: `er_spacing` falls back to `point_spacing`. */
    constructor (pointSpacing: real, erSpacing: Option<real>, zOffset: real, num: Numerics)
      requires pointSpacing > 0.0 && SqrtIsRoot(num)
      ensures Valid()
      ensures this.pointSpacing == pointSpacing && this.zOffset == zOffset && this.num == num
      ensures this.erSpacing == if erSpacing.Some? then erSpacing.value else pointSpacing
      ensures State() == Snapshot(0.0, 0.0, None, NoPiece, -1, [], [], [], [], 0)
    {
      this.pointSpacing := pointSpacing;
      this.erSpacing := if erSpacing.Some? then erSpacing.value else pointSpacing;
      this.zOffset := zOffset;
      this.num := num;
      zStart, rStart := 0.0, 0.0;
      startDirection := None;
      prevPiece := NoPiece;
      voltage := -1;
      coefE, coefR, rowIds := [], [], [];
      nPieces := [];
      nTotal := 0;
    }

    method Start(z: real, r: real, voltageGroup: Option<int>)
      requires Valid()
      modifies this
      ensures Valid() && State() == StartStep(old(State()), z, r, voltageGroup)
    {
      voltage := if voltageGroup.Some? then voltageGroup.value else voltage + 1;
      zStart := z;
      rStart := r;
      startDirection := None;
      prevPiece := StartPiece;
    }

    method Line(zEnd: real, rEnd: real) returns (status: Status)
      requires Valid()
      modifies this
      ensures Valid()
      ensures var o := LineStep(Cfg(), old(State()), zEnd, rEnd); State() == o.after && status == o.status
    {
      if zEnd == zStart && rEnd == rStart {
        return Degenerate;
      }
      ghost var s := State();
      LineStepStages(Cfg(), s, zEnd, rEnd);
      AppendLineRows(zEnd, rEnd);
      if prevPiece == LinePiece {
        CornerCorrection(zEnd, rEnd);
      }
      FinishLine(zEnd, rEnd);
      status := Ok;
    }

    /** The two `append` calls of `line`: a new electrode row and a new ring row. */
    method AppendLineRows(zEnd: real, rEnd: real)
      requires ConfigOk(Cfg()) && !(zEnd == zStart && rEnd == rStart)
      modifies this`coefE, this`coefR, this`rowIds
      ensures State() == LineAppended(Cfg(), old(State()), zEnd, rEnd)
    {
      var s := State();
      LineLengthPositive(Cfg(), s, zEnd, rEnd);
      var length := LineLength(Cfg(), s, zEnd, rEnd);
      var nPoints := PointCount(Cfg(), length);
      coefE := coefE + [ElectrodeLine(Cfg(), s, zEnd, rEnd, nPoints)];
      coefR := coefR + [RingLine(Cfg(), s, zEnd, rEnd, nPoints, length)];
      rowIds := rowIds + [|rowIds|];
    }

    /** The end of `line`: store a direction if none is stored, and move the cursor. */
    method FinishLine(zEnd: real, rEnd: real)
      modifies this`startDirection, this`zStart, this`rStart, this`prevPiece
      ensures State() == LineFinished(Cfg(), old(State()), zEnd, rEnd)
    {
      if startDirection.None? {
        startDirection := Some(Heading(Cfg(), zStart, rStart, zEnd, rEnd));
      }
      zStart, rStart, prevPiece := zEnd, rEnd, LinePiece;
    }

    method Vertical(rEnd: real) returns (status: Status)
      requires Valid()
      modifies this
      ensures Valid()
      ensures var o := VerticalStep(Cfg(), old(State()), rEnd); State() == o.after && status == o.status
    {
      if rEnd == rStart {
        return Degenerate;
      }
      status := Line(zStart, rEnd);
    }

    method Horizontal(zEnd: real) returns (status: Status)
      requires Valid()
      modifies this
      ensures Valid()
      ensures var o := HorizontalStep(Cfg(), old(State()), zEnd); State() == o.after && status == o.status
    {
      if zEnd == zStart {
        return Degenerate;
      }
      status := Line(zEnd, rStart);
    }

    /**
     * `_corner_correction`, run by `Line` after appending when the previous piece was a line.
     * The second-to-last ring row is one list object, possibly held at several positions
     * after `mirror`, so the write to it shows at all of them; the last row is new.
     */
    method CornerCorrection(zEnd: real, rEnd: real)
      requires |coefR| >= 2 && startDirection.Some? && |rowIds| == |coefR|
      requires forall j :: 0 <= j < |coefR| - 1 ==> rowIds[j] != rowIds[|coefR| - 1]
      modifies this`coefR, this`startDirection
      ensures State() == CornerStep(Cfg(), old(State()), zEnd, rEnd)
    {
      var currDirection := Heading(Cfg(), zStart, rStart, zEnd, rEnd);
      ghost var c := CornerCorrected(Cfg(), coefR, rowIds, startDirection.value, currDirection);
      var l := Miter(Cfg(), startDirection.value, currDirection);
      var last := |coefR| - 1;
      coefR := Written(coefR, rowIds, rowIds[last - 1], EndExtended(Cfg(), coefR[last - 1], l, startDirection.value));
      coefR := coefR[last := StartRetracted(Cfg(), coefR[last], l, currDirection)];
      assert coefR == c;
      startDirection := Some(currDirection);
    }

    method Arc(endDirection: real, radius: real) returns (status: Status)
      requires Valid()
      modifies this
      ensures Valid()
      ensures var o := ArcStep(Cfg(), old(State()), endDirection, radius); State() == o.after && status == o.status
    {
      if startDirection.None? {
        return NoDirection;
      }
      var s := State();
      ghost var o := ArcStep(Cfg(), s, endDirection, radius);
      var a := ArcSense(startDirection.value, endDirection);
      var rows := ArcRows(Cfg(), s, radius, a);
      var end := ArcEnd(Cfg(), ArcCentre(Cfg(), s, radius, a), radius, a.EndAngle());
      coefE, coefR, rowIds := coefE + [rows.0], coefR + [rows.1], rowIds + [|rowIds|];
      zStart, rStart, startDirection, prevPiece := end.0, end.1, Some(a.endDirection), ArcPiece;
      assert State() == o.after;
      status := Ok;
    }

    method CountPieces(name: string)
      requires Valid()
      modifies this
      ensures Valid() && State() == CountPiecesStep(old(State()), name)
    {
      var total := |coefR|;
      var previous := ValuesSum(nPieces);
      nPieces := DictSet(nPieces, name, total - previous);
    }

    method Mirror(indices: seq<int>, mirrorZ: real, voltageGroup: Option<int>) returns (status: Status)
      requires Valid()
      modifies this
      ensures Valid()
      ensures var o := MirrorStep(old(State()), indices, mirrorZ, voltageGroup); State() == o.after && status == o.status
    {
      var n := |coefE|;
      if !(forall k :: 0 <= k < |indices| ==> IndexOk(indices[k], n)) {
        return BadIndex;
      }
      ghost var s := State();
      // `deepcopy` of the selection: one copy per selected object, `keys` naming which
      var keys := Selected(rowIds, indices);
      var rows := MirrorRows(Selected(coefE, indices), Selected(coefR, indices), keys, mirrorZ, voltageGroup);
      MirrorStepAppends(s, indices, mirrorZ, voltageGroup);
      coefE, coefR, rowIds := coefE + rows.0, coefR + rows.1, rowIds + CopyIds(n, keys, |rows.0|);
      status := if rows.2 then Ok else NonsenseType;
    }

    method MirrorVoltageGroup(mirrorZ: real) returns (status: Status)
      requires Valid()
      modifies this
      ensures Valid()
      ensures var o := MirrorGroupStep(old(State()), mirrorZ); State() == o.after && status == o.status
    {
      var indices := GroupIndices(coefE, voltage);
      status := Mirror(indices, mirrorZ, None);
    }

    method Check() returns (status: Status)
      requires Valid()
      modifies this
      ensures Valid()
      ensures var o := CheckStep(old(State())); State() == o.after && status == o.status
    {
      var i := 0;
      while i < |coefR|
        invariant 0 <= i <= |coefR|
        invariant nTotal == old(nTotal) + SumPoints(coefR[..i])
        invariant State() == old(State()).(nTotal := nTotal)
      {
        assert coefR[..i + 1][..i] == coefR[..i];
        nTotal := nTotal + coefR[i].points;
        i := i + 1;
      }
      assert coefR[..i] == coefR;
      var nElec := TotalPoints(coefE);
      status := if nElec != nTotal then CountMismatch else Ok;
    }
  }

  /** The electrode point total, summed by a loop as `check` does. */
  method TotalPoints(rows: seq<Row>) returns (total: int)
    ensures total == SumPoints(rows)
  {
    total := 0;
    var i := 0;
    while i < |rows|
      invariant 0 <= i <= |rows|
      invariant total == SumPoints(rows[..i])
    {
      assert rows[..i + 1][..i] == rows[..i];
      total := total + rows[i].points;
      i := i + 1;
    }
    assert rows[..i] == rows;
  }
}
