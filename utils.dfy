/**
 * The template helpers of `src/cosy/utils.py`: `edit_lines` rewrites the lines of a COSY
 * script, replacing every line that contains an identifier, and `process_file` derives the
 * per-process name of a script file.
 */
module Utils {
  import opened Wrappers
  import opened Text

  // ---------------------------------------------------------------- edit_lines

  /** The second element of a replacement pair: a string, a list of strings, or `None`. */
  datatype Replacement = Single(line: string) | Lines(lines: seq<string>) | Delete

  /** A replacement pair `(identifier, replacement)`. */
  type Rule = (string, Replacement)

  /** Every emitted replacement line is terminated as a COSY statement. */
  const Terminator: string := ";\n"

  /** The lines one matching pair emits, in list order, each terminated by `;\n`. */
  function Emitted(r: Replacement): (out: seq<string>)
    ensures |out| == (match r case Single(_) => 1 case Lines(lines) => |lines| case Delete => 0)
    ensures forall k :: 0 <= k < |out| ==> EndsWith(out[k], Terminator)
  {
    match r
    case Single(line) => [line + Terminator]
    case Lines(lines) => seq(|lines|, k requires 0 <= k < |lines| => lines[k] + Terminator)
    case Delete => []
  }

  /** Whether some identifier among `rules` occurs in `line` (the `replaced` flag after the inner loop). */
  predicate Replaced(rules: seq<Rule>, line: string)
  {
    if rules == [] then false
    else Replaced(rules[..|rules| - 1], line) || Contains(line, rules[|rules| - 1].0)
  }

  /** The lines emitted for `line` by the pairs whose identifier it contains, in `rules` order. */
  function Matched(rules: seq<Rule>, line: string): (out: seq<string>)
    ensures forall k :: 0 <= k < |out| ==> EndsWith(out[k], Terminator)
  {
    if rules == [] then []
    else
      var k := |rules| - 1;
      var before := Matched(rules[..k], line);
      var here := if Contains(line, rules[k].0) then Emitted(rules[k].1) else [];
      assert forall j :: 0 <= j < |before + here| ==>
        (before + here)[j] == if j < |before| then before[j] else here[j - |before|];
      before + here
  }

  /** What `edit_lines` emits for one template line. */
  function EditLine(rules: seq<Rule>, line: string): seq<string>
  {
    if Replaced(rules, line) then Matched(rules, line) else [line]
  }

  /** What `edit_lines` returns: the template lines, each rewritten by `EditLine`, in order. */
  function EditedLines(rules: seq<Rule>, lines: seq<string>): seq<string>
  {
    if lines == [] then []
    else EditedLines(rules, lines[..|lines| - 1]) + EditLine(rules, lines[|lines| - 1])
  }

  /**
   * The body of the outer loop of `edit_lines`: the inner loop over the replacement pairs,
   * with the `replaced` flag, followed by the copy of an unmatched line.
   */
  method RewriteLine(replacements: seq<Rule>, line: string) returns (emitted: seq<string>)
    ensures emitted == EditLine(replacements, line)
  {
    emitted := [];
    var replaced := false;
    var k := 0;
    while k < |replacements|
      invariant 0 <= k <= |replacements|
      invariant replaced == Replaced(replacements[..k], line)
      invariant emitted == Matched(replacements[..k], line)
    {
      MatchedStep(replacements, k, line);
      var identifier, replacement := replacements[k].0, replacements[k].1;
      if Contains(line, identifier) {
        replaced := true;
        match replacement
        case Lines(lines) =>
          ghost var before := emitted;
          var j := 0;
          while j < |lines|
            invariant 0 <= j <= |lines|
            invariant emitted == before + Emitted(Lines(lines[..j]))
          {
            EmittedStep(lines, j);
            emitted := emitted + [lines[j] + Terminator];
            j := j + 1;
          }
          assert lines[..j] == lines;
        case Single(r) =>
          emitted := emitted + [r + Terminator];
        case Delete =>
      }
      k := k + 1;
    }
    assert replacements[..k] == replacements;
    if !replaced {
      emitted := [line];
    }
  }

  /** One more pair of the inner loop. */
  lemma MatchedStep(rules: seq<Rule>, k: nat, line: string)
    requires k < |rules|
    ensures Matched(rules[..k + 1], line)
      == Matched(rules[..k], line) + (if Contains(line, rules[k].0) then Emitted(rules[k].1) else [])
    ensures Replaced(rules[..k + 1], line) == (Replaced(rules[..k], line) || Contains(line, rules[k].0))
  {
    assert rules[..k + 1][..k] == rules[..k];
  }

  /** One more line of a list replacement. */
  lemma EmittedStep(lines: seq<string>, j: nat)
    requires j < |lines|
    ensures Emitted(Lines(lines[..j + 1])) == Emitted(Lines(lines[..j])) + [lines[j] + Terminator]
  {
  }

  /** `edit_lines(replacements, template_lines)`: every template line rewritten, in order. */
  method EditLines(replacements: seq<Rule>, templateLines: seq<string>) returns (newLines: seq<string>)
    ensures newLines == EditedLines(replacements, templateLines)
  {
    newLines := [];
    var i := 0;
    while i < |templateLines|
      invariant 0 <= i <= |templateLines|
      invariant newLines == EditedLines(replacements, templateLines[..i])
    {
      var emitted := RewriteLine(replacements, templateLines[i]);
      newLines := newLines + emitted;
      assert templateLines[..i + 1][..i] == templateLines[..i];
      i := i + 1;
    }
    assert templateLines[..i] == templateLines;
  }

  /** The `replaced` flag is set exactly when some identifier occurs in the line. */
  lemma {:induction false} ReplacedIff(rules: seq<Rule>, line: string)
    ensures Replaced(rules, line) <==> exists k :: 0 <= k < |rules| && Contains(line, rules[k].0)
  {
    if rules != [] {
      var n := |rules| - 1;
      ReplacedIff(rules[..n], line);
      if Replaced(rules[..n], line) {
        var k :| 0 <= k < n && Contains(line, rules[..n][k].0);
        assert rules[k] == rules[..n][k];
      }
      if exists k :: 0 <= k < |rules| && Contains(line, rules[k].0) {
        var k :| 0 <= k < |rules| && Contains(line, rules[k].0);
        if k < n {
          assert rules[..n][k] == rules[k];
        }
      }
    }
  }

  /** The template is rewritten line by line: editing a concatenation concatenates the edits. */
  lemma {:induction false} EditedLinesConcat(rules: seq<Rule>, a: seq<string>, b: seq<string>)
    ensures EditedLines(rules, a + b) == EditedLines(rules, a) + EditedLines(rules, b)
    decreases |b|
  {
    if b != [] {
      var n := |b| - 1;
      assert (a + b)[..|a + b| - 1] == a + b[..n];
      EditedLinesConcat(rules, a, b[..n]);
    } else {
      assert a + b == a;
    }
  }

  /** Lines that contain none of the identifiers are copied unchanged and in order. */
  lemma {:induction false} UnmatchedLinesKept(rules: seq<Rule>, lines: seq<string>)
    requires forall i, k :: 0 <= i < |lines| && 0 <= k < |rules| ==> !Contains(lines[i], rules[k].0)
    ensures EditedLines(rules, lines) == lines
  {
    if lines != [] {
      var n := |lines| - 1;
      UnmatchedLinesKept(rules, lines[..n]);
      ReplacedIff(rules, lines[n]);
      assert lines[..n] + [lines[n]] == lines;
    }
  }

  /** With no replacement pairs the template comes back unchanged. */
  lemma NoRulesIsIdentity(lines: seq<string>)
    ensures EditedLines([], lines) == lines
  {
    UnmatchedLinesKept([], lines);
  }

  /** A line matched by several identifiers emits the replacements of all of them, in `replacements` order. */
  lemma {:induction false} MatchedConcat(r1: seq<Rule>, r2: seq<Rule>, line: string)
    ensures Matched(r1 + r2, line) == Matched(r1, line) + Matched(r2, line)
    decreases |r2|
  {
    if r2 != [] {
      var n := |r2| - 1;
      assert (r1 + r2)[..|r1 + r2| - 1] == r1 + r2[..n];
      assert (r1 + r2)[|r1 + r2| - 1] == r2[n];
      MatchedConcat(r1, r2[..n], line);
    } else {
      assert r1 + r2 == r1;
    }
  }

  /**
   * A line that contains an identifier is not copied: everything emitted in its place ends in
   * `;\n`, so a template line without that ending never reappears.
   */
  lemma MatchedLineNotCopied(rules: seq<Rule>, line: string)
    requires Replaced(rules, line) && !EndsWith(line, Terminator)
    ensures line !in EditLine(rules, line)
    ensures forall k :: 0 <= k < |EditLine(rules, line)| ==> EndsWith(EditLine(rules, line)[k], Terminator)
  {
  }

  /** A line whose every matching pair has replacement `None` is deleted. */
  lemma {:induction false} DeletedLineVanishes(rules: seq<Rule>, line: string)
    requires forall k :: 0 <= k < |rules| && Contains(line, rules[k].0) ==> rules[k].1.Delete?
    ensures Matched(rules, line) == []
    ensures Replaced(rules, line) ==> EditLine(rules, line) == []
  {
    if rules != [] {
      var n := |rules| - 1;
      assert forall k :: 0 <= k < n ==> rules[..n][k] == rules[k];
      DeletedLineVanishes(rules[..n], line);
    }
  }

  /** A line matched by exactly one pair with a string replacement becomes that string plus `;\n`. */
  lemma SingleReplacement(identifier: string, replacement: string, line: string)
    requires Contains(line, identifier)
    ensures EditLine([(identifier, Single(replacement))], line) == [replacement + ";\n"]
  {
    var rules: seq<Rule> := [(identifier, Single(replacement))];
    assert rules[..0] == [];
    assert Replaced(rules, line);
    assert Matched(rules, line) == Matched([], line) + Emitted(Single(replacement));
  }

  // ---------------------------------------------------------------- process_file

  /** Python's `str.split(sep)` for a one-character separator: always at least one part. */
  function Split(s: string, sep: char): (parts: seq<string>)
    ensures |parts| >= 1
    ensures forall k :: 0 <= k < |parts| ==> sep !in parts[k]
    ensures |parts| == 1 <==> sep !in s
    decreases |s|
  {
    if s == [] then [[]]
    else
      var rest := Split(s[1..], sep);
      if s[0] == sep then [[]] + rest
      else [[s[0]] + rest[0]] + rest[1..]
  }

  /** `sep.join(parts)`. */
  function Join(parts: seq<string>, sep: char): string
    requires |parts| >= 1
  {
    if |parts| == 1 then parts[0] else parts[0] + [sep] + Join(parts[1..], sep)
  }

  /** Splitting loses nothing: joining the parts with the separator gives the string back. */
  lemma {:induction false} SplitJoin(s: string, sep: char)
    ensures Join(Split(s, sep), sep) == s
    decreases |s|
  {
    if s != [] {
      SplitJoin(s[1..], sep);
      var rest := Split(s[1..], sep);
      if s[0] != sep {
        if |rest| == 1 {
          assert Join([[s[0]] + rest[0]] + rest[1..], sep) == [s[0]] + rest[0];
        } else {
          var parts := [[s[0]] + rest[0]] + rest[1..];
          assert parts[1..] == rest[1..];
          assert Join(rest, sep) == rest[0] + [sep] + Join(rest[1..], sep);
        }
      } else {
        var parts := [[]] + rest;
        assert parts[1..] == rest;
      }
      assert s == [s[0]] + s[1..];
    }
  }

  /** A string without the separator followed by the separator splits off as the first part. */
  lemma {:induction false} SplitAfterFirst(a: string, sep: char, b: string)
    requires sep !in a
    ensures Split(a + [sep] + b, sep) == [a] + Split(b, sep)
    decreases |a|
  {
    if a == [] {
      assert [] + [sep] + b == [sep] + b;
      assert ([sep] + b)[1..] == b;
    } else {
      SplitAfterFirst(a[1..], sep, b);
      assert (a + [sep] + b)[1..] == a[1..] + [sep] + b;
      assert [a[0]] + a[1..] == a;
    }
  }

  /** A string without the separator is its own only part. */
  lemma SplitWhole(s: string, sep: char)
    requires sep !in s
    ensures Split(s, sep) == [s]
  {
    SplitJoin(s, sep);
  }

  /** The character of a decimal digit. */
  function DigitChar(d: int): (c: char)
    requires 0 <= d < 10
    ensures '0' <= c <= '9'
  {
    (48 + d) as char
  }

  /** The decimal numeral of a natural number, as Python's `str` writes it. */
  function NatDigits(n: nat): (s: string)
    ensures |s| >= 1 && forall k :: 0 <= k < |s| ==> '0' <= s[k] <= '9'
    decreases n
  {
    if n < 10 then [DigitChar(n)] else NatDigits(n / 10) + [DigitChar(n % 10)]
  }

  /** The value of a decimal numeral. */
  function DigitsValue(s: string): int
  {
    if s == [] then 0 else DigitsValue(s[..|s| - 1]) * 10 + (s[|s| - 1] as int - 48)
  }

  /** Reading the numeral back gives the number. */
  lemma {:induction false} NatDigitsRoundTrip(n: nat)
    ensures DigitsValue(NatDigits(n)) == n
    decreases n
  {
    if n >= 10 {
      NatDigitsRoundTrip(n / 10);
      var s := NatDigits(n);
      assert s[..|s| - 1] == NatDigits(n / 10);
    }
  }

  /** `str(n)` for an integer. */
  function IntString(n: int): (s: string)
    ensures '.' !in s && '_' !in s
  {
    if n < 0 then "-" + NatDigits(-n) else NatDigits(n)
  }

  /**
   * `process_file(process_id, file)` on the file's name: the part before the first dot, `_`,
   * the process id, a dot, and the part after it. A name without a dot raises `IndexError`
   * (None). The `ROOT_DIR` prefix is not part of the model.
   */
  function ProcessFile(processId: int, name: string): (r: Option<string>)
    ensures r.None? <==> '.' !in name
  {
    var parts := Split(name, '.');
    if |parts| < 2 then None
    else Some(parts[0] + "_" + IntString(processId) + "." + parts[1])
  }

  /** A name `stem.ext` becomes `stem_<id>.ext`. */
  lemma ProcessFileOneDot(processId: int, stem: string, ext: string)
    requires '.' !in stem && '.' !in ext
    ensures ProcessFile(processId, stem + "." + ext) == Some(stem + "_" + IntString(processId) + "." + ext)
  {
    SplitAfterFirst(stem, '.', ext);
    SplitWhole(ext, '.');
  }

  /** Anything after a second dot is dropped: `stem.ext.rest` gives the same name as `stem.ext`. */
  lemma ProcessFileDropsTail(processId: int, stem: string, ext: string, rest: string)
    requires '.' !in stem && '.' !in ext
    ensures ProcessFile(processId, stem + "." + ext + "." + rest) == Some(stem + "_" + IntString(processId) + "." + ext)
  {
    var tail := ext + "." + rest;
    SplitAfterFirst(stem, '.', tail);
    SplitAfterFirst(ext, '.', rest);
    assert stem + "." + ext + "." + rest == stem + ['.'] + tail;
  }

  /** The derived name has exactly one dot: splitting it gives `<stem>_<id>` and the original extension. */
  lemma ProcessFileSplitsBack(processId: int, name: string)
    requires '.' in name
    ensures ProcessFile(processId, name).Some?
    ensures Split(ProcessFile(processId, name).value, '.')
      == [Split(name, '.')[0] + "_" + IntString(processId), Split(name, '.')[1]]
  {
    var p := Split(name, '.');
    var stem := p[0] + "_" + IntString(processId);
    assert '.' !in stem;
    SplitAfterFirst(stem, '.', p[1]);
    SplitWhole(p[1], '.');
  }
}
