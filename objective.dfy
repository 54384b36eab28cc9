/**
 * The objective-script builders of `src/cosy/objective.py`. An `ObjectiveFunction` carries
 * the COSY expression that calls it (`call`), the element at whose position the map is taken
 * (`endpoint`) and the COSY source lines that define it (`function`). The builders assemble
 * those lines by string concatenation. Numbers reach them already formatted, as strings.
 */
module Objective {
  import opened Wrappers
  import opened Text

  /** `definition` is the `function` field: the COSY lines that define the procedure. */
  datatype ObjectiveFunction = ObjectiveFunction(call: string, endpoint: string, definition: seq<string>)

  // ---------------------------------------------------------------- COSY block structure

  /** The COSY blocks the generated code opens and closes. */
  datatype Block = IfBlock | LoopBlock | FunctionBlock

  /** The block a line opens, if any. */
  function Opens(line: string): Option<Block>
  {
    if StartsWith(line, "If ") then Some(IfBlock)
    else if StartsWith(line, "Loop ") then Some(LoopBlock)
    else if StartsWith(line, "Function ") then Some(FunctionBlock)
    else None
  }

  /** The block a line closes, if any. */
  function Closes(line: string): Option<Block>
  {
    if line == "EndIf" then Some(IfBlock)
    else if line == "EndLoop" then Some(LoopBlock)
    else if line == "EndFunction" then Some(FunctionBlock)
    else None
  }

  /** A COSY block statement: the opening line, the body, and the closing line. */
  function Statement(opener: string, body: seq<string>, closer: string): (lines: seq<string>)
    ensures |lines| == |body| + 2
  {
    [opener] + body + [closer]
  }

  /** A line that neither opens nor closes a block. */
  predicate Plain(line: string)
  {
    Opens(line).None? && Closes(line).None?
  }

  /** Reads `lines` with the blocks `open` still open; None when a line closes a block that is not the innermost. */
  function Scan(lines: seq<string>, open: seq<Block>): Option<seq<Block>>
    decreases |lines|
  {
    if lines == [] then Some(open)
    else
      var line := lines[0];
      if Opens(line).Some? then Scan(lines[1..], open + [Opens(line).value])
      else if Closes(line).Some? then
        if open != [] && open[|open| - 1] == Closes(line).value then Scan(lines[1..], open[..|open| - 1])
        else None
      else Scan(lines[1..], open)
  }

  /** Every `If`, `Loop` and `Function` is closed by its own `EndIf`, `EndLoop`, `EndFunction`, innermost first. */
  predicate WellNested(lines: seq<string>)
  {
    Scan(lines, []) == Some([])
  }

  lemma {:induction false} ScanConcat(a: seq<string>, b: seq<string>, open: seq<Block>)
    ensures Scan(a + b, open) == if Scan(a, open).Some? then Scan(b, Scan(a, open).value) else None
    decreases |a|
  {
    if a == [] {
      assert a + b == b;
    } else {
      assert (a + b)[0] == a[0] && (a + b)[1..] == a[1..] + b;
      var line := a[0];
      if Opens(line).Some? {
        ScanConcat(a[1..], b, open + [Opens(line).value]);
      } else if Closes(line).Some? {
        if open != [] && open[|open| - 1] == Closes(line).value {
          ScanConcat(a[1..], b, open[..|open| - 1]);
        }
      } else {
        ScanConcat(a[1..], b, open);
      }
    }
  }

  /** Code that is balanced on its own stays balanced below any enclosing blocks. */
  lemma {:induction false} ScanUnder(lines: seq<string>, outer: seq<Block>, open: seq<Block>)
    requires Scan(lines, open).Some?
    ensures Scan(lines, outer + open) == Some(outer + Scan(lines, open).value)
    decreases |lines|
  {
    if lines != [] {
      var line := lines[0];
      if Opens(line).Some? {
        ScanUnder(lines[1..], outer, open + [Opens(line).value]);
        assert outer + open + [Opens(line).value] == outer + (open + [Opens(line).value]);
      } else if Closes(line).Some? {
        assert (outer + open)[..|outer + open| - 1] == outer + open[..|open| - 1];
        ScanUnder(lines[1..], outer, open[..|open| - 1]);
      } else {
        ScanUnder(lines[1..], outer, open);
      }
    }
  }

  lemma NestedConcat(a: seq<string>, b: seq<string>)
    requires WellNested(a) && WellNested(b)
    ensures WellNested(a + b)
  {
    ScanConcat(a, b, []);
  }

  /** The closing keywords open nothing. */
  lemma ClosersOpenNothing()
    ensures Opens("EndIf").None? && Opens("EndLoop").None? && Opens("EndFunction").None?
  {
    assert "EndIf"[0] != "If "[0] && "EndIf"[0] != "Loop "[0] && "EndIf"[0] != "Function "[0];
    assert "EndLoop"[0] != "If "[0] && "EndLoop"[0] != "Loop "[0] && "EndLoop"[0] != "Function "[0];
    assert "EndFunction"[0] != "If "[0] && "EndFunction"[0] != "Loop "[0] && "EndFunction"[0] != "Function "[0];
  }

  /** A balanced body between an opening line and the matching closing line is balanced. */
  lemma NestedBlock(opener: string, body: seq<string>, closer: string)
    requires Opens(opener).Some? && Closes(closer) == Opens(opener) && WellNested(body)
    ensures WellNested(Statement(opener, body, closer))
  {
    var b := Opens(opener).value;
    ClosersOpenNothing();
    var lines := [opener] + body + [closer];
    assert lines[0] == opener && lines[1..] == body + [closer];
    assert Scan(lines, []) == Scan(body + [closer], [] + [b]);
    assert [] + [b] == [b] && [b] + [] == [b];
    ScanConcat(body, [closer], [b]);
    ScanUnder(body, [b], []);
    assert Scan(body, [b]) == Some([b]);
    assert Opens(closer).None?;
    assert Scan([closer], [b]) == Scan([], []);
  }

  /** Lines that open and close nothing are balanced. */
  lemma {:induction false} NestedPlain(lines: seq<string>)
    requires forall k :: 0 <= k < |lines| ==> Plain(lines[k])
    ensures WellNested(lines)
  {
    if lines != [] {
      assert Plain(lines[0]);
      assert forall k :: 0 <= k < |lines[1..]| ==> lines[1..][k] == lines[k + 1];
      NestedPlain(lines[1..]);
      assert Scan(lines, []) == Scan(lines[1..], []);
    }
  }

  /** A name without spaces, followed by `:`, is not a prefix of a keyword that ends in a space. */
  lemma NotKeywordPrefixed(name: string, rest: string, keyword: string)
    requires ' ' !in name && |keyword| >= 1 && keyword[|keyword| - 1] == ' ' && ':' !in keyword
    ensures !StartsWith(name + ":" + rest, keyword)
  {
    var line := name + ":" + rest;
    if |keyword| <= |line| {
      var j := if |name| >= |keyword| then |keyword| - 1 else |name|;
      assert line[j] != keyword[j];
      assert line[..|keyword|][j] == line[j];
    }
  }

  /** A line with a `:` right after a name is not a keyword without one. */
  lemma NotKeyword(name: string, rest: string, keyword: string)
    requires ':' !in keyword
    ensures name + ":" + rest != keyword
  {
    var line := name + ":" + rest;
    assert line[|name|] == ':';
  }

  /** A statement that assigns to a variable without spaces in its name opens and closes nothing. */
  lemma AssignmentIsPlain(name: string, rest: string)
    requires ' ' !in name
    ensures Plain(name + ":" + rest)
  {
    NotKeywordPrefixed(name, rest, "If ");
    NotKeywordPrefixed(name, rest, "Loop ");
    NotKeywordPrefixed(name, rest, "Function ");
    NotKeyword(name, rest, "EndIf");
    NotKeyword(name, rest, "EndLoop");
    NotKeyword(name, rest, "EndFunction");
  }

  // ---------------------------------------------------------------- ObjectiveFunction

  /** `as_json`: the call and endpoint lines, then the function lines. */
  function AsJson(o: ObjectiveFunction): (lines: seq<string>)
    ensures |lines| == |o.definition| + 2 && lines[2..] == o.definition
    ensures FromJson(lines) == Some(o)
  {
    var lines := ["name = " + o.call, "endpoint=" + o.endpoint] + o.definition;
    assert lines[0][..7] == "name = " && lines[1][..9] == "endpoint=";
    assert lines[0][7..] == o.call && lines[1][9..] == o.endpoint;
    lines
  }

  /** Reads an objective back from its `as_json` lines. */
  function FromJson(lines: seq<string>): Option<ObjectiveFunction>
  {
    if |lines| >= 2 && StartsWith(lines[0], "name = ") && StartsWith(lines[1], "endpoint=") then
      Some(ObjectiveFunction(lines[0][7..], lines[1][9..], lines[2..]))
    else None
  }

  /** `objective * value`: the call is scaled; endpoint and function lines are kept. */
  function Mul(o: ObjectiveFunction, value: string): (r: ObjectiveFunction)
    ensures r.endpoint == o.endpoint && r.definition == o.definition
    ensures StartsWith(r.call, o.call) && r.call[|o.call|..] == "*" + value
  {
    var r := ObjectiveFunction(o.call + "*" + value, o.endpoint, o.definition);
    assert r.call[..|o.call|] == o.call;
    r
  }

  /** `value * objective`: the same as `objective * value`. */
  function RMul(o: ObjectiveFunction, value: string): (r: ObjectiveFunction)
    ensures r.endpoint == o.endpoint && r.definition == o.definition
    ensures StartsWith(r.call, o.call) && r.call[|o.call|..] == "*" + value
  {
    Mul(o, value)
  }

  /** `objective / value`: the call is divided; endpoint and function lines are kept. */
  function TrueDiv(o: ObjectiveFunction, value: string): (r: ObjectiveFunction)
    ensures r.endpoint == o.endpoint && r.definition == o.definition
    ensures StartsWith(r.call, o.call) && r.call[|o.call|..] == "/" + value
  {
    var r := ObjectiveFunction(o.call + "/" + value, o.endpoint, o.definition);
    assert r.call[..|o.call|] == o.call;
    r
  }

  /**
   * `a + b`: defined only for equal endpoints (otherwise an `AssertionError`, None). The calls
   * are summed in parentheses and the function lines of `a` come before those of `b`.
   */
  function Add(a: ObjectiveFunction, b: ObjectiveFunction): (r: Option<ObjectiveFunction>)
    ensures r.Some? <==> a.endpoint == b.endpoint
    ensures r.Some? ==>
      && r.value.endpoint == a.endpoint == b.endpoint
      && |r.value.definition| == |a.definition| + |b.definition|
      && r.value.definition[..|a.definition|] == a.definition && r.value.definition[|a.definition|..] == b.definition
      && r.value.call == "(" + a.call + " + " + b.call + ")"
  {
    if a.endpoint != b.endpoint then None
    else
      var f := a.definition + b.definition;
      assert f[..|a.definition|] == a.definition && f[|a.definition|..] == b.definition;
      Some(ObjectiveFunction("(" + a.call + " + " + b.call + ")", a.endpoint, f))
  }

  /** Sums can be regrouped: `(a + b) + c` and `a + (b + c)` exist together and define the same lines. */
  lemma AddRegroups(a: ObjectiveFunction, b: ObjectiveFunction, c: ObjectiveFunction)
    ensures var ab := Add(a, b); var bc := Add(b, c);
      var left := if ab.Some? then Add(ab.value, c) else None;
      var right := if bc.Some? then Add(a, bc.value) else None;
      && (left.Some? <==> a.endpoint == b.endpoint == c.endpoint)
      && (left.Some? <==> right.Some?)
      && (left.Some? ==> left.value.endpoint == right.value.endpoint && left.value.definition == right.value.definition)
  {
    if a.endpoint == b.endpoint == c.endpoint {
      assert (a.definition + b.definition) + c.definition == a.definition + (b.definition + c.definition);
    }
  }

  /** A sum of balanced objectives is balanced. */
  lemma AddKeepsNested(a: ObjectiveFunction, b: ObjectiveFunction)
    requires WellNested(a.definition) && WellNested(b.definition) && a.endpoint == b.endpoint
    ensures Add(a, b).Some? && WellNested(Add(a, b).value.definition)
  {
    NestedConcat(a.definition, b.definition);
  }

  /** Scaling a sum scales only its call: the lines are those of the unscaled sum. */
  lemma ScaledSum(a: ObjectiveFunction, b: ObjectiveFunction, value: string)
    requires a.endpoint == b.endpoint
    ensures Add(Mul(a, value), b).Some? && Add(TrueDiv(a, value), b).Some?
    ensures Add(Mul(a, value), b).value.definition == Add(a, b).value.definition
    ensures Add(TrueDiv(a, value), b).value.definition == Add(a, b).value.definition
    ensures Mul(Add(a, b).value, value).definition == Add(a, b).value.definition
    ensures TrueDiv(Add(a, b).value, value).definition == Add(a, b).value.definition
  {
  }

  // ---------------------------------------------------------------- builders

  /** `add_to_function(name, remainder)`: the COSY statement `name:=name+remainder`. */
  function AddToFunction(name: string, remainder: string): (line: string)
    ensures Increment(name, line) == Some(remainder)
  {
    var line := name + ":=" + name + "+" + remainder;
    assert line[..|name + ":=" + name + "+"|] == name + ":=" + name + "+";
    line
  }

  /** The term a line adds to variable `name`, when it is `name:=name+term`. */
  function Increment(name: string, line: string): Option<string>
  {
    var head := name + ":=" + name + "+";
    if StartsWith(line, head) then Some(line[|head|..]) else None
  }

  /** `create_function(name, body)`: a COSY procedure header, the body, and `EndFunction`. */
  function CreateFunction(name: string, body: seq<string>): (lines: seq<string>)
    ensures |lines| == |body| + 2
    ensures FunctionParts(lines) == Some((name, body))
  {
    var header := "Function " + name + " void";
    var lines := [header] + body + ["EndFunction"];
    assert header[..9] == "Function " && header[|header| - 5..] == " void";
    assert header[9..|header| - 5] == name;
    assert lines[1..|lines| - 1] == body;
    lines
  }

  /** Reads the procedure name and body back from `create_function`'s lines. */
  function FunctionParts(lines: seq<string>): Option<(string, seq<string>)>
  {
    if |lines| >= 2 && |lines[0]| >= 14 && StartsWith(lines[0], "Function ") && EndsWith(lines[0], " void")
      && lines[|lines| - 1] == "EndFunction"
    then Some((lines[0][9..|lines[0]| - 5], lines[1..|lines| - 1]))
    else None
  }

  /** A procedure built from a balanced body is balanced. */
  lemma CreateFunctionNested(name: string, body: seq<string>)
    requires WellNested(body)
    ensures WellNested(CreateFunction(name, body))
  {
    var header := "Function " + name + " void";
    assert StartsWith(header, "Function ");
    assert !StartsWith(header, "If ") by { assert header[1] != "If "[1]; }
    assert !StartsWith(header, "Loop ") by { assert header[0] != "Loop "[0]; }
    NestedBlock(header, body, "EndFunction");
  }

  /** `mixed_third_degree_aberrations(name)`. */
  function MixedThirdDegreeAberrations(name: string): (line: string)
    ensures Increment(name, line) == Some("MA(1,112)^2+MA(1,122)^2")
  {
    AddToFunction(name, "MA(1,112)^2+MA(1,122)^2")
  }

  /** `free_angle_resolved_function(name)`: the mixed third-order term, then the angle-resolved terms. */
  function FreeAngleResolvedFunction(name: string): (lines: seq<string>)
    ensures |lines| == 2 && lines[0] == MixedThirdDegreeAberrations(name)
    ensures Increment(name, lines[1]) == Some("MA(1,1)^2+MA(1,111)^2+(MA(1,222)^2)/100")
  {
    [MixedThirdDegreeAberrations(name), AddToFunction(name, "MA(1,1)^2+MA(1,111)^2+(MA(1,222)^2)/100")]
  }

  /** `free_spatial_resolved_function(name)`: the mixed third-order term, then the spatially resolved terms. */
  function FreeSpatialResolvedFunction(name: string): (lines: seq<string>)
    ensures |lines| == 2 && lines[0] == MixedThirdDegreeAberrations(name)
    ensures Increment(name, lines[1]) == Some("MA(1,2)^2+MA(1,222)^2+(MA(1,111)^2)/100")
  {
    [MixedThirdDegreeAberrations(name), AddToFunction(name, "MA(1,2)^2+MA(1,222)^2+(MA(1,111)^2)/100")]
  }

  /** `angle_resolved_function(d, name)`: the free variant plus one image-size term. */
  function AngleResolvedFunction(imageDiameter: string, name: string): (lines: seq<string>)
    ensures |lines| == 3 && lines[..2] == FreeAngleResolvedFunction(name)
    ensures Increment(name, lines[2]) == Some("((ABS(MA(1,2))-" + imageDiameter + "/2)^2)/100")
  {
    FreeAngleResolvedFunction(name) + [AddToFunction(name, "((ABS(MA(1,2))-" + imageDiameter + "/2)^2)/100")]
  }

  /** `spatial_resolved_function(d, name)`: the free variant plus one image-size term. */
  function SpatialResolvedFunction(imageDiameter: string, name: string): (lines: seq<string>)
    ensures |lines| == 3 && lines[..2] == FreeSpatialResolvedFunction(name)
    ensures Increment(name, lines[2]) == Some("((ABS(MA(1,1))-" + imageDiameter + "/2)^2)/100")
  {
    FreeSpatialResolvedFunction(name) + [AddToFunction(name, "((ABS(MA(1,1))-" + imageDiameter + "/2)^2)/100")]
  }

  /** A COSY `If` statement on `condition`. */
  function IfLine(condition: string): string
  {
    "If " + condition
  }

  /** The COSY line that starts the branch taken when the `If` condition fails and `condition` holds. */
  function ElseIfLine(condition: string): string
  {
    "ElseIf " + condition
  }

  /** A COSY `Loop` statement with its variable and bounds. */
  function LoopLine(header: string): string
  {
    "Loop " + header
  }

  /** The default procedure names of the objective builders. */
  const AngleResolvedName: string := "AngleResolvedObj"
  const SpatialResolvedName: string := "SpatialResolvedObj"
  const MinnedAngleResolvedName: string := "MinnedAngleResolvedObj"
  const MinnedSpatialResolvedName: string := "MinnedSpatialResolvedObj"
  const AngleFilterName: string := "AngleFilterObj"
  const SpatialFilterName: string := "SpatialFilterObj"
  const ClearApertureName: string := "ClearApertureObj"

  /** Every objective builder calls its procedure without arguments and keeps the endpoint. */
  predicate Built(o: ObjectiveFunction, endpoint: string, name: string, size: nat)
  {
    && o.call == name + "(none)" && o.endpoint == endpoint
    && |o.definition| == size
    && FunctionParts(o.definition).Some? && FunctionParts(o.definition).value.0 == name
  }

  /** The objective that defines procedure `name` with `body`. */
  function Procedure(endpoint: string, name: string, body: seq<string>): (o: ObjectiveFunction)
    ensures Built(o, endpoint, name, |body| + 2)
    ensures FunctionParts(o.definition) == Some((name, body))
  {
    ObjectiveFunction(name + "(none)", endpoint, CreateFunction(name, body))
  }

  /** `angle_resolved_objective_function(endpoint, d, name)`. */
  function AngleResolvedObjectiveFunction(endpoint: string, imageDiameter: string, name: string): (o: ObjectiveFunction)
    ensures Built(o, endpoint, name, 5)
    ensures FunctionParts(o.definition) == Some((name, AngleResolvedFunction(imageDiameter, name)))
  {
    Procedure(endpoint, name, AngleResolvedFunction(imageDiameter, name))
  }

  /** `spatial_resolved_objective_function(endpoint, d, name)`. */
  function SpatialResolvedObjectiveFunction(endpoint: string, imageDiameter: string, name: string): (o: ObjectiveFunction)
    ensures Built(o, endpoint, name, 5)
    ensures FunctionParts(o.definition) == Some((name, SpatialResolvedFunction(imageDiameter, name)))
  {
    Procedure(endpoint, name, SpatialResolvedFunction(imageDiameter, name))
  }

  /**
   * The body shared by the minned and maxed builders: under the image-size condition the
   * resolved terms, otherwise (`ElseIf LO(1)`) the free terms.
   */
  function Branches(condition: string, resolved: seq<string>, free: seq<string>): (body: seq<string>)
    ensures |body| == |resolved| + |free| + 3
    ensures body[0] == IfLine(condition) && body[|body| - 1] == "EndIf"
    ensures body[1..|resolved| + 1] == resolved && body[|resolved| + 1] == ElseIfLine("LO(1)")
    ensures body[|resolved| + 2..|body| - 1] == free
  {
    Statement(IfLine(condition), resolved + [ElseIfLine("LO(1)")] + free, "EndIf")
  }

  /** `minned_angle_resolved_objective_function(endpoint, d, name)`. */
  function MinnedAngleResolvedObjectiveFunction(endpoint: string, minImageDiameter: string, name: string)
    : (o: ObjectiveFunction)
    ensures Built(o, endpoint, name, 10)
    ensures var b := FunctionParts(o.definition).value.1;
      && b[0] == IfLine("ABS(MA(1,2))<(" + minImageDiameter + "/2)")
      && b[1..4] == AngleResolvedFunction(minImageDiameter, name)
      && b[4] == ElseIfLine("LO(1)")
      && b[5..7] == FreeAngleResolvedFunction(name)
      && b[7] == "EndIf"
  {
    Procedure(endpoint, name, Branches("ABS(MA(1,2))<(" + minImageDiameter + "/2)",
      AngleResolvedFunction(minImageDiameter, name), FreeAngleResolvedFunction(name)))
  }

  /** `maxed_angle_resolved_objective_function(endpoint, d, name)`; the source's default name is the minned one's. */
  function MaxedAngleResolvedObjectiveFunction(endpoint: string, minImageDiameter: string, name: string)
    : (o: ObjectiveFunction)
    ensures Built(o, endpoint, name, 10)
    ensures var b := FunctionParts(o.definition).value.1;
      && b[0] == IfLine("ABS(MA(1,2))>(" + minImageDiameter + "/2)")
      && b[1..4] == AngleResolvedFunction(minImageDiameter, name)
      && b[4] == ElseIfLine("LO(1)")
      && b[5..7] == FreeAngleResolvedFunction(name)
      && b[7] == "EndIf"
  {
    Procedure(endpoint, name, Branches("ABS(MA(1,2))>(" + minImageDiameter + "/2)",
      AngleResolvedFunction(minImageDiameter, name), FreeAngleResolvedFunction(name)))
  }

  /** `minned_spatial_resolved_objective_function(endpoint, d, name)`. */
  function MinnedSpatialResolvedObjectiveFunction(endpoint: string, minImageDiameter: string, name: string)
    : (o: ObjectiveFunction)
    ensures Built(o, endpoint, name, 10)
    ensures var b := FunctionParts(o.definition).value.1;
      && b[0] == IfLine("ABS(MA(1,1))<(" + minImageDiameter + "/2)")
      && b[1..4] == SpatialResolvedFunction(minImageDiameter, name)
      && b[4] == ElseIfLine("LO(1)")
      && b[5..7] == FreeSpatialResolvedFunction(name)
      && b[7] == "EndIf"
  {
    Procedure(endpoint, name, Branches("ABS(MA(1,1))<(" + minImageDiameter + "/2)",
      SpatialResolvedFunction(minImageDiameter, name), FreeSpatialResolvedFunction(name)))
  }

  /** `angle_filter_objective_function(endpoint, d, name)`: two guarded terms, then two plain ones. */
  function AngleFilterObjectiveFunction(endpoint: string, minImageDiameter: string, name: string)
    : (o: ObjectiveFunction)
    ensures Built(o, endpoint, name, 10)
    ensures var b := FunctionParts(o.definition).value.1;
      && b[0] == IfLine("ABS(MA(1,2))<(" + minImageDiameter + "/2)")
      && Increment(name, b[1]) == Some("((ABS(MA(1,2))-" + minImageDiameter + "/2)^2)/100")
      && b[2] == "EndIf"
      && b[3] == IfLine("ABS(MA(1,1))>(ABS(MA(1,2))/2)")
      && Increment(name, b[4]) == Some("((ABS(MA(1,1))-ABS(MA(1,2))/2)^2)/100")
      && b[5] == "EndIf"
      && Increment(name, b[6]) == Some("MA(1,112)^2+MA(1,122)^2")
      && Increment(name, b[7]) == Some("MA(1,111)^2+(MA(1,222)^2)/100")
  {
    Procedure(endpoint, name,
      Statement(IfLine("ABS(MA(1,2))<(" + minImageDiameter + "/2)"),
        [AddToFunction(name, "((ABS(MA(1,2))-" + minImageDiameter + "/2)^2)/100")], "EndIf")
      + Statement(IfLine("ABS(MA(1,1))>(ABS(MA(1,2))/2)"),
        [AddToFunction(name, "((ABS(MA(1,1))-ABS(MA(1,2))/2)^2)/100")], "EndIf")
      + [MixedThirdDegreeAberrations(name), AddToFunction(name, "MA(1,111)^2+(MA(1,222)^2)/100")])
  }

  /** `spatial_filter_objective_function(endpoint, d, name)`: a guarded term, an if-else, two plain terms. */
  function SpatialFilterObjectiveFunction(endpoint: string, minImageDiameter: string, name: string)
    : (o: ObjectiveFunction)
    ensures Built(o, endpoint, name, 12)
    ensures var b := FunctionParts(o.definition).value.1;
      && b[0] == IfLine("ABS(MA(1,1))<(" + minImageDiameter + "/2)")
      && Increment(name, b[1]) == Some("(ABS(MA(1,1))-" + minImageDiameter + "/2)^2 * 100")
      && b[2] == "EndIf"
      && b[3] == IfLine("ABS(MA(1,2))>(" + minImageDiameter + "/2)")
      && Increment(name, b[4]) == Some("(ABS(MA(1,2)))^2 * 100")
      && b[5] == ElseIfLine("True")
      && Increment(name, b[6]) == Some("(ABS(MA(1,2)))^2")
      && b[7] == "EndIf"
      && Increment(name, b[8]) == Some("MA(1,112)^2+MA(1,122)^2")
      && Increment(name, b[9]) == Some("MA(1,111)^2 / 100 + (MA(1,222)^2)")
  {
    Procedure(endpoint, name,
      Statement(IfLine("ABS(MA(1,1))<(" + minImageDiameter + "/2)"),
        [AddToFunction(name, "(ABS(MA(1,1))-" + minImageDiameter + "/2)^2 * 100")], "EndIf")
      + Statement(IfLine("ABS(MA(1,2))>(" + minImageDiameter + "/2)"),
        [AddToFunction(name, "(ABS(MA(1,2)))^2 * 100"), ElseIfLine("True"), AddToFunction(name, "(ABS(MA(1,2)))^2")],
        "EndIf")
      + [MixedThirdDegreeAberrations(name), AddToFunction(name, "MA(1,111)^2 / 100 + (MA(1,222)^2)")])
  }

  /** The declarations and initialisation that open the clear-aperture procedure. */
  function ClearApertureSetup(name: string): (lines: seq<string>)
    ensures |lines| == 3
  {
    ["Variable iter 1; " + "Variable startingR 1; Variable ii 1; Variable nAngs 1",
     "Variable ri 12 6; Variable ro 12 6",
     "nAngs:=10; startingR:=0; " + name + ":=0"]
  }

  /** The start ray of one angle and its image through the map. */
  const RaySetup: seq<string> :=
    ["ri(1):=startingR", "ri(2):=Sin(ii/nAngs*intAng/2)", "ri(3):=0", "ri(4):=0", "ri(5):=0", "ri(6):=0",
     "Polval 1 MAP 6 ri 6 ro 6"]

  /** The loop over ray angles, adding the overshoot of every ray beyond the aperture. */
  function RayLoop(apertureDiameter: string, name: string): (lines: seq<string>)
    ensures |lines| == 12
  {
    Statement(LoopLine("ii 1 10"),
      RaySetup + Statement(IfLine("ABS(ro(1))>(" + apertureDiameter + "/2)"),
        [AddToFunction(name, "(ABS(ro(1))-" + apertureDiameter + "/2)")], "EndIf"),
      "EndLoop")
  }

  /** `clear_aperture_objective_function(endpoint, aper_d, name)`: two passes of the ray loop. */
  function ClearApertureObjectiveFunction(endpoint: string, apertureDiameter: string, name: string)
    : (o: ObjectiveFunction)
    ensures Built(o, endpoint, name, 20)
    ensures var b := FunctionParts(o.definition).value.1;
      && b[..3] == ClearApertureSetup(name) && b[2] == "nAngs:=10; startingR:=0; " + name + ":=0"
      && b[3] == LoopLine("iter 1 2") && b[4] == LoopLine("ii 1 10")
      && b[5..12] == RaySetup
      && b[12] == IfLine("ABS(ro(1))>(" + apertureDiameter + "/2)")
      && Increment(name, b[13]) == Some("(ABS(ro(1))-" + apertureDiameter + "/2)")
      && b[14] == "EndIf" && b[15] == "EndLoop"
      && b[16] == "startingR:=spotSize/2" && b[17] == "EndLoop"
  {
    var rays := RayLoop(apertureDiameter, name);
    var body := ClearApertureSetup(name) + Statement(LoopLine("iter 1 2"), rays + ["startingR:=spotSize/2"], "EndLoop");
    assert body[14] == rays[10] == "EndIf";
    Procedure(endpoint, name, body)
  }

  // ---------------------------------------------------------------- properties of the generated code

  /** A line whose first character starts no keyword opens and closes nothing. */
  lemma PlainByFirst(line: string)
    requires |line| > 0 && line[0] != 'I' && line[0] != 'L' && line[0] != 'F' && line[0] != 'E'
    ensures Plain(line)
  {
    assert !StartsWith(line, "If ") by { assert |line| < 3 || line[..3][0] == line[0]; }
    assert !StartsWith(line, "Loop ") by { assert |line| < 5 || line[..5][0] == line[0]; }
    assert !StartsWith(line, "Function ") by { assert |line| < 9 || line[..9][0] == line[0]; }
  }

  /** An `If` line opens an `If` block. */
  lemma IfOpens(condition: string)
    ensures StartsWith(IfLine(condition), "If ") && Opens(IfLine(condition)) == Some(IfBlock)
  {
    assert IfLine(condition)[..3] == "If ";
  }

  /** A `Loop` line opens a `Loop` block. */
  lemma LoopOpens(header: string)
    ensures Opens(LoopLine(header)) == Some(LoopBlock)
  {
    var line := LoopLine(header);
    assert line[..5] == "Loop ";
    assert !StartsWith(line, "If ") by { assert line[..3][0] == 'L'; }
  }

  /** `ElseIf` lines stay inside their `If` block. */
  lemma ElseIfPlain(condition: string)
    ensures Plain(ElseIfLine(condition)) && StartsWith(ElseIfLine(condition), "ElseIf ")
  {
    var line := ElseIfLine(condition);
    assert line[..7] == "ElseIf ";
    assert line[1] == 'l';
    assert line != "EndIf" && line != "EndLoop" && line != "EndFunction" by {
      assert "EndIf"[1] == 'n' && "EndLoop"[1] == 'n' && "EndFunction"[1] == 'n';
    }
    assert !StartsWith(line, "If ") by { assert line[..3][0] == 'E'; }
    assert !StartsWith(line, "Loop ") by { assert line[..5][0] == 'E'; }
    assert !StartsWith(line, "Function ") by { assert |line| < 9 || line[..9][0] == 'E'; }
  }

  /** A term added to a variable without spaces in its name opens and closes nothing. */
  lemma IncrementPlain(name: string, remainder: string)
    requires ' ' !in name
    ensures Plain(AddToFunction(name, remainder))
  {
    assert AddToFunction(name, remainder) == name + ":" + ("=" + name + "+" + remainder);
    AssignmentIsPlain(name, "=" + name + "+" + remainder);
  }

  /** Lines that each add a term to `name` and open or close nothing. */
  predicate Terms(name: string, lines: seq<string>)
  {
    forall k :: 0 <= k < |lines| ==> Plain(lines[k]) && Increment(name, lines[k]).Some?
  }

  lemma AngleTerms(d: string, name: string)
    requires ' ' !in name
    ensures Terms(name, AngleResolvedFunction(d, name)) && Terms(name, FreeAngleResolvedFunction(name))
  {
    IncrementPlain(name, "MA(1,112)^2+MA(1,122)^2");
    IncrementPlain(name, "MA(1,1)^2+MA(1,111)^2+(MA(1,222)^2)/100");
    IncrementPlain(name, "((ABS(MA(1,2))-" + d + "/2)^2)/100");
    var a := AngleResolvedFunction(d, name);
    assert a[..2][0] == a[0] && a[..2][1] == a[1];
  }

  lemma SpatialTerms(d: string, name: string)
    requires ' ' !in name
    ensures Terms(name, SpatialResolvedFunction(d, name)) && Terms(name, FreeSpatialResolvedFunction(name))
  {
    IncrementPlain(name, "MA(1,112)^2+MA(1,122)^2");
    IncrementPlain(name, "MA(1,2)^2+MA(1,222)^2+(MA(1,111)^2)/100");
    IncrementPlain(name, "((ABS(MA(1,1))-" + d + "/2)^2)/100");
    var a := SpatialResolvedFunction(d, name);
    assert a[..2][0] == a[0] && a[..2][1] == a[1];
  }

  /** Whether every line adds a term to `name` or is part of an `If` statement. */
  predicate Accumulates(name: string, lines: seq<string>)
  {
    forall k :: 0 <= k < |lines| ==>
      || Increment(name, lines[k]).Some?
      || StartsWith(lines[k], "If ") || StartsWith(lines[k], "ElseIf ") || lines[k] == "EndIf"
  }

  /** Balanced code that only adds to `name`. */
  predicate Guarded(name: string, lines: seq<string>)
  {
    WellNested(lines) && Accumulates(name, lines)
  }

  /** The lines of an `If` body: terms added to `name`, or `ElseIf` branch lines. */
  predicate BranchLines(name: string, lines: seq<string>)
  {
    forall k :: 0 <= k < |lines| ==>
      Plain(lines[k]) && (Increment(name, lines[k]).Some? || StartsWith(lines[k], "ElseIf "))
  }

  lemma GuardedTerms(name: string, lines: seq<string>)
    requires Terms(name, lines)
    ensures Guarded(name, lines)
  {
    NestedPlain(lines);
  }

  lemma GuardedConcat(name: string, a: seq<string>, b: seq<string>)
    requires Guarded(name, a) && Guarded(name, b)
    ensures Guarded(name, a + b)
  {
    NestedConcat(a, b);
    assert forall k :: 0 <= k < |a + b| ==> (a + b)[k] == if k < |a| then a[k] else b[k - |a|];
  }

  /** An `If` statement around terms and `ElseIf` lines is balanced and only adds to `name`. */
  lemma GuardedStatement(name: string, condition: string, body: seq<string>)
    requires BranchLines(name, body)
    ensures Guarded(name, Statement(IfLine(condition), body, "EndIf"))
  {
    IfOpens(condition);
    NestedPlain(body);
    NestedBlock(IfLine(condition), body, "EndIf");
    var lines := Statement(IfLine(condition), body, "EndIf");
    assert forall k :: 1 <= k < |lines| - 1 ==> lines[k] == body[k - 1];
  }

  /** Every objective here is a balanced COSY procedure whose body only adds to its own variable. */
  predicate Accumulator(o: ObjectiveFunction, name: string)
  {
    WellNested(o.definition) && FunctionParts(o.definition).Some? && Accumulates(name, FunctionParts(o.definition).value.1)
  }

  lemma ProcedureAccumulates(endpoint: string, name: string, body: seq<string>)
    requires Guarded(name, body)
    ensures Accumulator(Procedure(endpoint, name, body), name)
  {
    CreateFunctionNested(name, body);
  }

  /** The angle- and spatially resolved objectives are balanced procedures that only add to their own variable. */
  lemma ResolvedObjectivesAccumulate(endpoint: string, imageDiameter: string, name: string)
    requires ' ' !in name
    ensures Accumulator(AngleResolvedObjectiveFunction(endpoint, imageDiameter, name), name)
    ensures Accumulator(SpatialResolvedObjectiveFunction(endpoint, imageDiameter, name), name)
    ensures Terms(name, FunctionParts(AngleResolvedObjectiveFunction(endpoint, imageDiameter, name).definition).value.1)
    ensures Terms(name, FunctionParts(SpatialResolvedObjectiveFunction(endpoint, imageDiameter, name).definition).value.1)
  {
    AngleTerms(imageDiameter, name);
    SpatialTerms(imageDiameter, name);
    GuardedTerms(name, AngleResolvedFunction(imageDiameter, name));
    GuardedTerms(name, SpatialResolvedFunction(imageDiameter, name));
    ProcedureAccumulates(endpoint, name, AngleResolvedFunction(imageDiameter, name));
    ProcedureAccumulates(endpoint, name, SpatialResolvedFunction(imageDiameter, name));
  }

  /** Resolved terms, `ElseIf LO(1)`, free terms: the body of a minned or maxed `If`. */
  lemma BranchBody(name: string, resolved: seq<string>, free: seq<string>)
    requires Terms(name, resolved) && Terms(name, free)
    ensures BranchLines(name, resolved + [ElseIfLine("LO(1)")] + free)
  {
    ElseIfPlain("LO(1)");
  }

  lemma MinnedAngleResolvedAccumulates(endpoint: string, minImageDiameter: string, name: string)
    requires ' ' !in name
    ensures Accumulator(MinnedAngleResolvedObjectiveFunction(endpoint, minImageDiameter, name), name)
  {
    AngleTerms(minImageDiameter, name);
    BranchBody(name, AngleResolvedFunction(minImageDiameter, name), FreeAngleResolvedFunction(name));
    GuardedStatement(name, "ABS(MA(1,2))<(" + minImageDiameter + "/2)",
      AngleResolvedFunction(minImageDiameter, name) + [ElseIfLine("LO(1)")] + FreeAngleResolvedFunction(name));
    ProcedureAccumulates(endpoint, name, Branches("ABS(MA(1,2))<(" + minImageDiameter + "/2)",
      AngleResolvedFunction(minImageDiameter, name), FreeAngleResolvedFunction(name)));
  }

  lemma MaxedAngleResolvedAccumulates(endpoint: string, minImageDiameter: string, name: string)
    requires ' ' !in name
    ensures Accumulator(MaxedAngleResolvedObjectiveFunction(endpoint, minImageDiameter, name), name)
  {
    AngleTerms(minImageDiameter, name);
    BranchBody(name, AngleResolvedFunction(minImageDiameter, name), FreeAngleResolvedFunction(name));
    GuardedStatement(name, "ABS(MA(1,2))>(" + minImageDiameter + "/2)",
      AngleResolvedFunction(minImageDiameter, name) + [ElseIfLine("LO(1)")] + FreeAngleResolvedFunction(name));
    ProcedureAccumulates(endpoint, name, Branches("ABS(MA(1,2))>(" + minImageDiameter + "/2)",
      AngleResolvedFunction(minImageDiameter, name), FreeAngleResolvedFunction(name)));
  }

  lemma MinnedSpatialResolvedAccumulates(endpoint: string, minImageDiameter: string, name: string)
    requires ' ' !in name
    ensures Accumulator(MinnedSpatialResolvedObjectiveFunction(endpoint, minImageDiameter, name), name)
  {
    SpatialTerms(minImageDiameter, name);
    BranchBody(name, SpatialResolvedFunction(minImageDiameter, name), FreeSpatialResolvedFunction(name));
    GuardedStatement(name, "ABS(MA(1,1))<(" + minImageDiameter + "/2)",
      SpatialResolvedFunction(minImageDiameter, name) + [ElseIfLine("LO(1)")] + FreeSpatialResolvedFunction(name));
    ProcedureAccumulates(endpoint, name, Branches("ABS(MA(1,1))<(" + minImageDiameter + "/2)",
      SpatialResolvedFunction(minImageDiameter, name), FreeSpatialResolvedFunction(name)));
  }

  /** The maxed objective is the minned one with the image-size comparison reversed. */
  lemma MinnedMaxedDiffer(endpoint: string, minImageDiameter: string, name: string)
    ensures var minned := MinnedAngleResolvedObjectiveFunction(endpoint, minImageDiameter, name).definition;
      var maxed := MaxedAngleResolvedObjectiveFunction(endpoint, minImageDiameter, name).definition;
      && minned[1] == IfLine("ABS(MA(1,2))<(" + minImageDiameter + "/2)")
      && maxed[1] == IfLine("ABS(MA(1,2))>(" + minImageDiameter + "/2)")
      && minned[..1] + minned[2..] == maxed[..1] + maxed[2..]
  {
  }

  /** One term added under a condition. */
  lemma GuardedTerm(name: string, condition: string, remainder: string)
    requires ' ' !in name
    ensures Guarded(name, Statement(IfLine(condition), [AddToFunction(name, remainder)], "EndIf"))
  {
    IncrementPlain(name, remainder);
    GuardedStatement(name, condition, [AddToFunction(name, remainder)]);
  }

  /** One term added under a condition, another under `ElseIf otherwise`. */
  lemma GuardedChoice(name: string, condition: string, remainder: string, otherwise: string, alternative: string)
    requires ' ' !in name
    ensures Guarded(name, Statement(IfLine(condition),
      [AddToFunction(name, remainder), ElseIfLine(otherwise), AddToFunction(name, alternative)], "EndIf"))
  {
    IncrementPlain(name, remainder);
    IncrementPlain(name, alternative);
    ElseIfPlain(otherwise);
    GuardedStatement(name, condition, [AddToFunction(name, remainder), ElseIfLine(otherwise), AddToFunction(name, alternative)]);
  }

  /** The mixed third-order term followed by one more term. */
  lemma GuardedTail(name: string, remainder: string)
    requires ' ' !in name
    ensures Guarded(name, [MixedThirdDegreeAberrations(name), AddToFunction(name, remainder)])
  {
    IncrementPlain(name, "MA(1,112)^2+MA(1,122)^2");
    IncrementPlain(name, remainder);
    GuardedTerms(name, [MixedThirdDegreeAberrations(name), AddToFunction(name, remainder)]);
  }

  lemma AngleFilterAccumulates(endpoint: string, minImageDiameter: string, name: string)
    requires ' ' !in name
    ensures Accumulator(AngleFilterObjectiveFunction(endpoint, minImageDiameter, name), name)
  {
    var d := minImageDiameter;
    var s1 := Statement(IfLine("ABS(MA(1,2))<(" + d + "/2)"),
      [AddToFunction(name, "((ABS(MA(1,2))-" + d + "/2)^2)/100")], "EndIf");
    var s2 := Statement(IfLine("ABS(MA(1,1))>(ABS(MA(1,2))/2)"),
      [AddToFunction(name, "((ABS(MA(1,1))-ABS(MA(1,2))/2)^2)/100")], "EndIf");
    var tail := [MixedThirdDegreeAberrations(name), AddToFunction(name, "MA(1,111)^2+(MA(1,222)^2)/100")];
    GuardedTerm(name, "ABS(MA(1,2))<(" + d + "/2)", "((ABS(MA(1,2))-" + d + "/2)^2)/100");
    GuardedTerm(name, "ABS(MA(1,1))>(ABS(MA(1,2))/2)", "((ABS(MA(1,1))-ABS(MA(1,2))/2)^2)/100");
    GuardedTail(name, "MA(1,111)^2+(MA(1,222)^2)/100");
    GuardedConcat(name, s1, s2);
    GuardedConcat(name, s1 + s2, tail);
    ProcedureAccumulates(endpoint, name, s1 + s2 + tail);
  }

  lemma SpatialFilterAccumulates(endpoint: string, minImageDiameter: string, name: string)
    requires ' ' !in name
    ensures Accumulator(SpatialFilterObjectiveFunction(endpoint, minImageDiameter, name), name)
  {
    var d := minImageDiameter;
    var s1 := Statement(IfLine("ABS(MA(1,1))<(" + d + "/2)"),
      [AddToFunction(name, "(ABS(MA(1,1))-" + d + "/2)^2 * 100")], "EndIf");
    var s2 := Statement(IfLine("ABS(MA(1,2))>(" + d + "/2)"),
      [AddToFunction(name, "(ABS(MA(1,2)))^2 * 100"), ElseIfLine("True"), AddToFunction(name, "(ABS(MA(1,2)))^2")],
      "EndIf");
    var tail := [MixedThirdDegreeAberrations(name), AddToFunction(name, "MA(1,111)^2 / 100 + (MA(1,222)^2)")];
    GuardedTerm(name, "ABS(MA(1,1))<(" + d + "/2)", "(ABS(MA(1,1))-" + d + "/2)^2 * 100");
    GuardedChoice(name, "ABS(MA(1,2))>(" + d + "/2)", "(ABS(MA(1,2)))^2 * 100", "True", "(ABS(MA(1,2)))^2");
    GuardedTail(name, "MA(1,111)^2 / 100 + (MA(1,222)^2)");
    GuardedConcat(name, s1, s2);
    GuardedConcat(name, s1 + s2, tail);
    ProcedureAccumulates(endpoint, name, s1 + s2 + tail);
  }

  /** The ray set-up lines open and close nothing. */
  lemma RaySetupPlain()
    ensures WellNested(RaySetup)
  {
    forall k | 0 <= k < |RaySetup|
      ensures Plain(RaySetup[k])
    {
      PlainByFirst(RaySetup[k]);
    }
    NestedPlain(RaySetup);
  }

  /** The declarations and initialisation open and close nothing. */
  lemma ClearApertureSetupNested(name: string)
    ensures WellNested(ClearApertureSetup(name))
  {
    var setup := ClearApertureSetup(name);
    var init := "nAngs:=10; startingR:=0; ";
    assert setup[2] == init + (name + ":=0");
    assert setup[2][0] == init[0] == 'n';
    var declare := "Variable iter 1; ";
    var arrays := "Variable ri 12 6; Variable ro 12 6";
    assert setup[0][0] == declare[0] == 'V';
    assert setup[1] == arrays && arrays[0] == 'V';
    PlainByFirst(setup[0]);
    PlainByFirst(setup[1]);
    PlainByFirst(setup[2]);
    NestedPlain(setup);
  }

  /** The loop over ray angles is balanced: a `Loop` around the ray set-up and one `If` test. */
  lemma RayLoopNested(apertureDiameter: string, name: string)
    requires ' ' !in name
    ensures WellNested(RayLoop(apertureDiameter, name))
  {
    var term := AddToFunction(name, "(ABS(ro(1))-" + apertureDiameter + "/2)");
    IncrementPlain(name, "(ABS(ro(1))-" + apertureDiameter + "/2)");
    GuardedStatement(name, "ABS(ro(1))>(" + apertureDiameter + "/2)", [term]);
    RaySetupPlain();
    NestedConcat(RaySetup, Statement(IfLine("ABS(ro(1))>(" + apertureDiameter + "/2)"), [term], "EndIf"));
    LoopOpens("ii 1 10");
    NestedBlock(LoopLine("ii 1 10"),
      RaySetup + Statement(IfLine("ABS(ro(1))>(" + apertureDiameter + "/2)"), [term], "EndIf"), "EndLoop");
  }

  /** The clear-aperture objective is a balanced procedure: two nested loops around one `If` test. */
  lemma ClearApertureNested(endpoint: string, apertureDiameter: string, name: string)
    requires ' ' !in name
    ensures WellNested(ClearApertureObjectiveFunction(endpoint, apertureDiameter, name).definition)
  {
    var setup := ClearApertureSetup(name);
    ClearApertureSetupNested(name);
    PlainByFirst("startingR:=spotSize/2");
    NestedPlain(["startingR:=spotSize/2"]);
    RayLoopNested(apertureDiameter, name);
    NestedConcat(RayLoop(apertureDiameter, name), ["startingR:=spotSize/2"]);
    LoopOpens("iter 1 2");
    NestedBlock(LoopLine("iter 1 2"), RayLoop(apertureDiameter, name) + ["startingR:=spotSize/2"], "EndLoop");
    var outer := Statement(LoopLine("iter 1 2"), RayLoop(apertureDiameter, name) + ["startingR:=spotSize/2"], "EndLoop");
    NestedConcat(setup, outer);
    CreateFunctionNested(name, setup + outer);
  }
}
