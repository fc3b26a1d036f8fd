/**
 * Reading a JSON-lines file the way the experiment scripts do: each line is
 * stripped, blank lines are skipped, and a line that is not valid JSON is
 * skipped without stopping the scan. A file that does not exist reads as
 * no entries.
 */
module Jsonl {
  import opened Wrappers
  import opened Text
  import opened Json

  /** What one line contributes: its decoded value, when the stripped line is non-empty and valid JSON. */
  function LineEntry(line: string, parse: Parser): Option<Value> {
    var t := Strip(line);
    if t == [] then None else parse(t)
  }

  /** The entries of the lines, in file order. */
  function ParsedLines(lines: seq<string>, parse: Parser): (es: seq<Value>)
    ensures |es| <= |lines|
    decreases |lines|
  {
    if lines == [] then []
    else
      var init := ParsedLines(lines[..|lines| - 1], parse);
      match LineEntry(lines[|lines| - 1], parse)
      case Some(v) => init + [v]
      case None => init
  }

  /** The entries of two stretches of the file are those of the first followed by those of the second. */
  lemma {:induction false} ParsedLinesAppend(a: seq<string>, b: seq<string>, parse: Parser)
    ensures ParsedLines(a + b, parse) == ParsedLines(a, parse) + ParsedLines(b, parse)
    decreases |b|
  {
    if b != [] {
      var b' := b[..|b| - 1];
      assert (a + b)[..|a + b| - 1] == a + b';
      assert (a + b)[|a + b| - 1] == b[|b| - 1];
      ParsedLinesAppend(a, b', parse);
    } else {
      assert a + b == a;
    }
  }

  /** A blank or malformed line contributes nothing, and the lines after it are still read. */
  lemma ParsedLinesSkip(a: seq<string>, line: string, b: seq<string>, parse: Parser)
    requires LineEntry(line, parse).None?
    ensures ParsedLines(a + [line] + b, parse) == ParsedLines(a, parse) + ParsedLines(b, parse)
  {
    ParsedLinesAppend(a + [line], b, parse);
    ParsedLinesAppend(a, [line], parse);
    assert [line][..0] == [];
  }

  /** When every line decodes, there is one entry per line, in order. */
  lemma {:induction false} ParsedLinesAll(lines: seq<string>, parse: Parser)
    requires forall i | 0 <= i < |lines| :: LineEntry(lines[i], parse).Some?
    ensures |ParsedLines(lines, parse)| == |lines|
    ensures forall i | 0 <= i < |lines| :: ParsedLines(lines, parse)[i] == LineEntry(lines[i], parse).value
    decreases |lines|
  {
    if lines != [] {
      var init := lines[..|lines| - 1];
      assert forall i | 0 <= i < |init| :: init[i] == lines[i];
      ParsedLinesAll(init, parse);
      var v := LineEntry(lines[|lines| - 1], parse).value;
      assert ParsedLines(lines, parse) == ParsedLines(init, parse) + [v];
    }
  }

  /** `parse_jsonl`: `file` is `None` when the path does not exist. */
  method ReadJsonl(file: Option<seq<string>>, parse: Parser) returns (entries: seq<Value>)
    ensures file.None? ==> entries == []
    ensures file.Some? ==> entries == ParsedLines(file.value, parse)
  {
    entries := [];
    if file.None? {
      return;
    }
    var lines := file.value;
    var i := 0;
    while i < |lines|
      invariant 0 <= i <= |lines|
      invariant entries == ParsedLines(lines[..i], parse)
    {
      assert lines[..i + 1][..i] == lines[..i];
      var line := Strip(lines[i]);
      if line != [] {
        var v := parse(line);
        if v.Some? {
          entries := entries + [v.value];
        }
      }
      i := i + 1;
    }
    assert lines[..i] == lines;
  }
}
