/**
 * The employees database enlargement: a PostgreSQL dump is cut into its
 * `COPY ... FROM stdin;` sections, and every employee with a numeric id is
 * copied `multiplier - 1` times under fresh consecutive ids together with
 * its salary, title and department_employee rows, so that every copied row
 * still refers to an employee that exists.
 */
module EnlargeDatabase {
  import opened Wrappers
  import opened Text

  const TERMINATOR: string := "\\."
  const TERMINATOR_LINE: string := "\\.\n"
  const NEW_ID_START: nat := 500000
  /** The tables written back, in this order. */
  const TABLES: seq<string> := ["department", "department_employee", "department_manager", "employee", "salary", "title"]

  // ---------------------------------------------------------------------
  // Parsing the dump into COPY sections
  // ---------------------------------------------------------------------

  /** The length of the leading run of word characters. */
  function WordLen(s: string): (n: nat)
    ensures n <= |s|
    ensures forall i :: 0 <= i < n ==> IsWordChar(s[i])
    ensures n < |s| ==> !IsWordChar(s[n])
  {
    if s != [] && IsWordChar(s[0]) then 1 + WordLen(s[1..]) else 0
  }

  /** `re.match(r'^COPY \w+.*FROM stdin;', line)`. */
  predicate IsCopyStart(line: string) {
    && StartsWith(line, "COPY ") && |line| > 5 && IsWordChar(line[5])
    && exists j | 6 <= j <= |line| :: SubAt(line, "FROM stdin;", j) && '\n' !in line[6..j]
  }

  /** The group of `re.match(r'^COPY (\w+)', line)`: the word after "COPY ". */
  function TableName(line: string): (t: string)
    requires IsCopyStart(line)
    ensures t != [] && StartsWith(line, "COPY " + t)
    ensures forall i :: 0 <= i < |t| ==> IsWordChar(t[i])
  {
    var n := WordLen(line[5..]);
    assert line[..5 + n] == "COPY " + line[5..5 + n];
    line[5..5 + n]
  }

  predicate IsTerminator(line: string) {
    Strip(line) == TERMINATOR
  }

  /** A line kept as data: not a section start and not the terminator. */
  predicate IsDataLine(line: string) {
    !IsCopyStart(line) && !IsTerminator(line)
  }

  datatype Section = Section(header: string, data: seq<string>)

  /** The loop's state: the saved sections, `in_copy`, `current_table`, `current_header`, `current_data`. */
  datatype Parse = Parse(sections: map<string, Section>, inCopy: bool, table: Option<string>,
                         header: string, data: seq<string>)

  const ParseInit: Parse := Parse(map[], false, None, "", [])

  /** The sections once the open one (if any) is saved. */
  function Saved(p: Parse): map<string, Section> {
    if p.table.Some? then p.sections[p.table.value := Section(p.header, p.data)] else p.sections
  }

  /** One line of the section loop. */
  function ParseStep(p: Parse, line: string): Parse {
    if IsCopyStart(line) then Parse(Saved(p), true, Some(TableName(line)), line, [])
    else if p.inCopy && IsTerminator(line) then Parse(Saved(p), false, None, p.header, [])
    else if p.inCopy then p.(data := p.data + [line])
    else p
  }

  function ParseFrom(p: Parse, lines: seq<string>): Parse
    decreases |lines|
  {
    if lines == [] then p else ParseStep(ParseFrom(p, lines[..|lines| - 1]), lines[|lines| - 1])
  }

  lemma {:induction false} ParseAppend(p: Parse, a: seq<string>, b: seq<string>)
    ensures ParseFrom(p, a + b) == ParseFrom(ParseFrom(p, a), b)
    decreases |b|
  {
    if b == [] {
      assert a + b == a;
    } else {
      ParseAppend(p, a, b[..|b| - 1]);
      assert (a + b)[..|a + b| - 1] == a + b[..|b| - 1];
    }
  }

  /** Inside a section, data lines are appended in order. */
  lemma {:induction false} DataLinesAppended(p: Parse, rows: seq<string>)
    requires p.inCopy
    requires forall i :: 0 <= i < |rows| ==> IsDataLine(rows[i])
    ensures ParseFrom(p, rows) == p.(data := p.data + rows)
    decreases |rows|
  {
    if rows != [] {
      DataLinesAppended(p, rows[..|rows| - 1]);
      assert p.data + rows[..|rows| - 1] + [rows[|rows| - 1]] == p.data + rows;
    } else {
      assert p.data + rows == p.data;
    }
  }

  /**
   * A section start, data lines and a terminator save the section under its
   * table name, after saving the section that was still open, if any.
   */
  lemma SectionParsed(p: Parse, h: string, rows: seq<string>, t: string)
    requires IsCopyStart(h) && IsTerminator(t)
    requires forall i :: 0 <= i < |rows| ==> IsDataLine(rows[i])
    ensures ParseFrom(p, [h] + rows + [t]).sections == Saved(p)[TableName(h) := Section(h, rows)]
    ensures !ParseFrom(p, [h] + rows + [t]).inCopy
  {
    StartLine(p, h);
    var q := ParseFrom(p, [h]);
    ParseAppend(p, [h], rows);
    DataLinesAppended(q, rows);
    var r := ParseFrom(p, [h] + rows);
    assert r == Parse(Saved(p), true, Some(TableName(h)), h, rows);
    ParseAppend(p, [h] + rows, [t]);
    TerminatorLine(r, t);
  }

  lemma StartLine(p: Parse, h: string)
    requires IsCopyStart(h)
    ensures ParseFrom(p, [h]) == Parse(Saved(p), true, Some(TableName(h)), h, [])
  {
    assert [h][..0] == [];
  }

  lemma TerminatorLine(p: Parse, t: string)
    requires p.inCopy && IsTerminator(t)
    ensures ParseFrom(p, [t]) == Parse(Saved(p), false, None, p.header, [])
  {
    assert [t][..0] == [];
    TerminatorIsNoStart(t);
  }

  lemma TerminatorIsNoStart(t: string)
    requires IsTerminator(t)
    ensures !IsCopyStart(t)
  {
    if IsCopyStart(t) {
      assert t[..5] == "COPY ";
      StripKeepsFirst(t);
    }
  }

  /** Stripping a string that starts with a non-space keeps that first character. */
  lemma {:induction false} StripKeepsFirst(s: string)
    requires s != [] && !IsSpace(s[0])
    ensures Strip(s) != [] && Strip(s)[0] == s[0]
    decreases |s|
  {
    if IsSpace(s[|s| - 1]) {
      assert |s| > 1;
      StripKeepsFirst(s[..|s| - 1]);
    }
  }

  /** A section still open at the end of the file is not saved. */
  lemma OpenSectionDropped(p: Parse, h: string, rows: seq<string>)
    requires IsCopyStart(h)
    requires forall i :: 0 <= i < |rows| ==> IsDataLine(rows[i])
    ensures ParseFrom(p, [h] + rows).sections == Saved(p)
  {
    StartLine(p, h);
    var q := ParseFrom(p, [h]);
    ParseAppend(p, [h], rows);
    DataLinesAppended(q, rows);
  }

  /**
   * What the loop keeps true: a section is open exactly when a table is
   * current, and every saved section is keyed by the table its header
   * names and holds data lines only.
   */
  predicate ParseInv(p: Parse) {
    && (p.inCopy <==> p.table.Some?)
    && (p.table.Some? ==> IsCopyStart(p.header) && TableName(p.header) == p.table.value)
    && (forall i :: 0 <= i < |p.data| ==> IsDataLine(p.data[i]))
    && forall t | t in p.sections ::
         && IsCopyStart(p.sections[t].header) && TableName(p.sections[t].header) == t
         && forall i :: 0 <= i < |p.sections[t].data| ==> IsDataLine(p.sections[t].data[i])
  }

  lemma {:induction false} ParseKeepsInv(lines: seq<string>)
    ensures ParseInv(ParseFrom(ParseInit, lines))
    decreases |lines|
  {
    if lines != [] {
      ParseKeepsInv(lines[..|lines| - 1]);
      var p := ParseFrom(ParseInit, lines[..|lines| - 1]);
      var line := lines[|lines| - 1];
      if !IsCopyStart(line) && !(p.inCopy && IsTerminator(line)) && p.inCopy {
        assert IsDataLine(line);
      }
    }
  }

  /** The index of the first section start. */
  function FirstCopy(lines: seq<string>): (r: Option<nat>)
    ensures r.Some? ==> r.value < |lines| && IsCopyStart(lines[r.value])
    ensures r.Some? ==> forall i :: 0 <= i < r.value ==> !IsCopyStart(lines[i])
    ensures r.None? ==> forall i :: 0 <= i < |lines| ==> !IsCopyStart(lines[i])
    decreases |lines|
  {
    if lines == [] then None
    else if IsCopyStart(lines[0]) then Some(0)
    else
      match FirstCopy(lines[1..])
      case None => None
      case Some(i) => Some(i + 1)
  }

  /**
   * The header: the lines before the first section start; a dump without
   * any section start has no header lines at all.
   */
  function HeaderLines(lines: seq<string>): (r: seq<string>)
    ensures r <= lines
    ensures forall i :: 0 <= i < |r| ==> !IsCopyStart(r[i])
    ensures FirstCopy(lines).None? ==> r == []
    ensures FirstCopy(lines).Some? ==> |r| == FirstCopy(lines).value
  {
    match FirstCopy(lines)
    case None => []
    case Some(i) => if i != 0 then lines[..i] else []
  }

  /**
   * `parse_sql_file` on the lines `readlines` gives: the header, the
   * sections, and the lines themselves.
   */
  method ParseSqlFile(lines: seq<string>) returns (header: seq<string>, sections: map<string, Section>, all: seq<string>)
    ensures sections == ParseFrom(ParseInit, lines).sections
    ensures header == HeaderLines(lines)
    ensures all == lines
  {
    sections := map[];
    var inCopy := false;
    var currentTable: Option<string> := None;
    var currentHeader: string := "";
    var currentData: seq<string> := [];
    var i := 0;
    while i < |lines|
      invariant 0 <= i <= |lines|
      invariant Parse(sections, inCopy, currentTable, currentHeader, currentData) == ParseFrom(ParseInit, lines[..i])
    {
      var line := lines[i];
      assert lines[..i + 1][..i] == lines[..i];
      if IsCopyStart(line) {
        if currentTable.Some? {
          sections := sections[currentTable.value := Section(currentHeader, currentData)];
        }
        currentTable := Some(TableName(line));
        currentHeader := line;
        currentData := [];
        inCopy := true;
      } else if inCopy && Strip(line) == TERMINATOR {
        if currentTable.Some? {
          sections := sections[currentTable.value := Section(currentHeader, currentData)];
        }
        currentTable := None;
        currentData := [];
        inCopy := false;
      } else if inCopy {
        currentData := currentData + [line];
      }
      i := i + 1;
    }
    assert lines[..i] == lines;
    var firstCopyIdx: Option<nat> := None;
    var j := 0;
    while j < |lines|
      invariant 0 <= j <= |lines|
      invariant firstCopyIdx.None? ==> forall k :: 0 <= k < j ==> !IsCopyStart(lines[k])
      invariant firstCopyIdx.Some? ==> firstCopyIdx == FirstCopy(lines)
    {
      if IsCopyStart(lines[j]) {
        firstCopyIdx := Some(j);
        FirstCopyIs(lines, j);
        break;
      }
      j := j + 1;
    }
    if firstCopyIdx.None? {
      FirstCopyNone(lines);
    }
    header := if firstCopyIdx.Some? && firstCopyIdx.value != 0 then lines[..firstCopyIdx.value] else [];
    all := lines;
  }

  lemma {:induction false} FirstCopyIs(lines: seq<string>, j: nat)
    requires j < |lines| && IsCopyStart(lines[j])
    requires forall k :: 0 <= k < j ==> !IsCopyStart(lines[k])
    ensures FirstCopy(lines) == Some(j)
    decreases j
  {
    if j > 0 {
      FirstCopyIs(lines[1..], j - 1);
    }
  }

  lemma {:induction false} FirstCopyNone(lines: seq<string>)
    requires forall k :: 0 <= k < |lines| ==> !IsCopyStart(lines[k])
    ensures FirstCopy(lines) == None
    decreases |lines|
  {
    if lines != [] {
      FirstCopyNone(lines[1..]);
    }
  }

  // ---------------------------------------------------------------------
  // Records and their employee ids
  // ---------------------------------------------------------------------

  /** `record.rstrip('\n').split('\t')`. */
  function Fields(record: string): (r: seq<string>)
    ensures |r| >= 1
  {
    Split(RStripChar(record, '\n'), '\t')
  }

  /** The first field, the employee id of an employee, salary, title or department_employee row. */
  function KeyOf(record: string): string {
    Fields(record)[0]
  }

  predicate HasDigitKey(record: string) {
    IsDigits(KeyOf(record))
  }

  /** The row with its first field replaced by `id`, newline-terminated. */
  function Rekey(record: string, id: string): string {
    Join("\t", [id] + Fields(record)[1..]) + "\n"
  }

  function RekeyAll(records: seq<string>, id: string): (r: seq<string>)
    ensures |r| == |records| && forall i :: 0 <= i < |r| ==> r[i] == Rekey(records[i], id)
  {
    seq(|records|, i requires 0 <= i < |records| => Rekey(records[i], id))
  }

  lemma JoinCons(sep: string, a: string, rest: seq<string>)
    requires rest != []
    ensures Join(sep, [a] + rest) == a + sep + Join(sep, rest)
  {
    assert ([a] + rest)[1..] == rest;
  }

  /**
   * A copied row carries the new id as its employee id and keeps every
   * other field of the original row.
   */
  lemma RekeyFields(record: string, id: string)
    requires id != [] && '\t' !in id && '\n' !in id
    ensures KeyOf(Rekey(record, id)) == id
    ensures Fields(Rekey(record, id)) == [id] + Fields(record)[1..]
  {
    var s := RStripChar(record, '\n');
    var parts := Split(s, '\t');
    var rest := parts[1..];
    var j := Join("\t", [id] + rest);
    // The joined row does not end in a newline.
    if rest == [] {
      assert j == id;
      assert j[|j| - 1] in id;
    } else {
      JoinCons("\t", id, rest);
      JoinCons("\t", parts[0], rest);
      assert parts == [parts[0]] + rest;
      JoinSplit(s, '\t');
      var tail := Join("\t", rest);
      assert s == parts[0] + "\t" + tail;
      if tail != [] {
        assert j[|j| - 1] == s[|s| - 1];
      } else {
        assert j[|j| - 1] == '\t';
      }
    }
    assert j != [] && j[|j| - 1] != '\n';
    assert (j + "\n")[..|j + "\n"| - 1] == j;
    assert RStripChar(j + "\n", '\n') == j;
    assert forall k :: 0 <= k < |[id] + rest| ==> '\t' !in ([id] + rest)[k];
    SplitJoin([id] + rest, '\t');
  }

  // ---------------------------------------------------------------------
  // The employee lookups
  // ---------------------------------------------------------------------

  /** The records of employee `id`, in input order. */
  function RecordsOf(records: seq<string>, id: string): (r: seq<string>)
    ensures |r| <= |records|
    ensures forall i :: 0 <= i < |r| ==> KeyOf(r[i]) == id && HasDigitKey(r[i]) && r[i] in records
    decreases |records|
  {
    if records == [] then []
    else
      var last := records[|records| - 1];
      RecordsOf(records[..|records| - 1], id) + if HasDigitKey(last) && KeyOf(last) == id then [last] else []
  }

  function Get(m: map<string, seq<string>>, k: string): seq<string> {
    if k in m then m[k] else []
  }

  /** The `defaultdict(list)` grouping of one table's records by numeric employee id. */
  function Lookup(records: seq<string>): map<string, seq<string>>
    decreases |records|
  {
    if records == [] then map[]
    else
      var m := Lookup(records[..|records| - 1]);
      var last := records[|records| - 1];
      if HasDigitKey(last) then m[KeyOf(last) := Get(m, KeyOf(last)) + [last]] else m
  }

  /**
   * The grouping lists an id exactly when some record has it as a numeric
   * first field, and lists under it exactly that employee's records, in
   * input order.
   */
  lemma {:induction false} LookupGroups(records: seq<string>, id: string)
    ensures id in Lookup(records) <==> exists i :: 0 <= i < |records| && HasDigitKey(records[i]) && KeyOf(records[i]) == id
    ensures Get(Lookup(records), id) == RecordsOf(records, id)
    decreases |records|
  {
    if records != [] {
      var init := records[..|records| - 1];
      LookupGroups(init, id);
      assert forall i :: 0 <= i < |init| ==> init[i] == records[i];
      var last := records[|records| - 1];
      if HasDigitKey(last) && KeyOf(last) == id {
        assert HasDigitKey(records[|records| - 1]) && KeyOf(records[|records| - 1]) == id;
      }
    }
  }

  /** One `defaultdict` loop of `build_employee_lookup`. */
  method GroupByEmployee(records: seq<string>) returns (m: map<string, seq<string>>)
    ensures m == Lookup(records)
  {
    m := map[];
    var i := 0;
    while i < |records|
      invariant 0 <= i <= |records|
      invariant m == Lookup(records[..i])
    {
      assert records[..i + 1][..i] == records[..i];
      var record := records[i];
      var parts := Fields(record);
      if IsDigits(parts[0]) {
        var empId := parts[0];
        m := m[empId := Get(m, empId) + [record]];
      }
      i := i + 1;
    }
    assert records[..i] == records;
  }

  datatype Lookups = Lookups(salary: map<string, seq<string>>, title: map<string, seq<string>>,
                             deptEmp: map<string, seq<string>>)

  /** `build_employee_lookup`: the three groupings. */
  method BuildEmployeeLookup(salaryData: seq<string>, titleData: seq<string>, deptEmpData: seq<string>)
    returns (lk: Lookups)
    ensures lk == Lookups(Lookup(salaryData), Lookup(titleData), Lookup(deptEmpData))
  {
    var salaryByEmp := GroupByEmployee(salaryData);
    var titleByEmp := GroupByEmployee(titleData);
    var deptEmpByEmp := GroupByEmployee(deptEmpData);
    lk := Lookups(salaryByEmp, titleByEmp, deptEmpByEmp);
  }

  // ---------------------------------------------------------------------
  // Duplication
  // ---------------------------------------------------------------------

  /** The rows of the four tables the duplication appends to. */
  datatype Acc = Acc(employee: seq<string>, salary: seq<string>, title: seq<string>, deptEmp: seq<string>)

  /** One copied employee: its row and all its related rows, under `id`. */
  function AddEmployee(a: Acc, emp: string, id: string, lk: Lookups): Acc {
    var oldId := KeyOf(emp);
    Acc(a.employee + [Rekey(emp, id)],
        a.salary + RekeyAll(Get(lk.salary, oldId), id),
        a.title + RekeyAll(Get(lk.title, oldId), id),
        a.deptEmp + RekeyAll(Get(lk.deptEmp, oldId), id))
  }

  /** The number of employees with a numeric id. */
  function DigitCount(emps: seq<string>): nat
    decreases |emps|
  {
    if emps == [] then 0 else DigitCount(emps[..|emps| - 1]) + if HasDigitKey(emps[|emps| - 1]) then 1 else 0
  }

  /** One batch: every numeric-id employee in order, ids from `next` on; returns the next free id. */
  function Batch(a: Acc, emps: seq<string>, next: nat, lk: Lookups): (Acc, nat)
    decreases |emps|
  {
    if emps == [] then (a, next)
    else
      var r := Batch(a, emps[..|emps| - 1], next, lk);
      var emp := emps[|emps| - 1];
      if HasDigitKey(emp) then (AddEmployee(r.0, emp, NatToString(r.1), lk), r.1 + 1) else r
  }

  /** `count` batches, each continuing the id sequence. */
  function Batches(a: Acc, emps: seq<string>, next: nat, lk: Lookups, count: nat): (Acc, nat)
    decreases count
  {
    if count == 0 then (a, next)
    else
      var r := Batches(a, emps, next, lk, count - 1);
      Batch(r.0, emps, r.1, lk)
  }

  /** Every row of `rows` from index `from` on has as employee id the text of a number in [lo, hi). */
  predicate NewKeys(rows: seq<string>, from: nat, lo: nat, hi: nat) {
    forall j | from <= j < |rows| :: IsNewId(KeyOf(rows[j]), lo, hi)
  }

  /** `id` is the text of a number in [lo, hi). */
  predicate IsNewId(id: string, lo: nat, hi: nat) {
    exists m: nat :: lo <= m < hi && id == NatToString(m)
  }

  /** The rows appended from `from` on carry the ids lo, lo+1, ... in order. */
  predicate ConsecutiveIds(rows: seq<string>, from: nat, lo: nat) {
    forall j | from <= j < |rows| :: KeyOf(rows[j]) == NatToString(lo + j - from)
  }

  predicate Extends(a: Acc, b: Acc) {
    a.employee <= b.employee && a.salary <= b.salary && a.title <= b.title && a.deptEmp <= b.deptEmp
  }

  lemma NatToStringPlain(n: nat)
    ensures NatToString(n) != [] && '\t' !in NatToString(n) && '\n' !in NatToString(n)
  {
    var s := NatToString(n);
    assert forall i :: 0 <= i < |s| ==> IsDigit(s[i]);
  }

  lemma RekeyAllKeys(records: seq<string>, m: nat, rows: seq<string>, from: nat, lo: nat, hi: nat)
    requires lo <= m < hi && NewKeys(rows, from, lo, hi) && from <= |rows|
    ensures NewKeys(rows + RekeyAll(records, NatToString(m)), from, lo, hi)
  {
    var id := NatToString(m);
    NatToStringPlain(m);
    var out := rows + RekeyAll(records, id);
    forall j | from <= j < |out|
      ensures IsNewId(KeyOf(out[j]), lo, hi)
    {
      if j >= |rows| {
        RekeyFields(records[j - |rows|], id);
        assert KeyOf(out[j]) == NatToString(m);
      } else {
        assert out[j] == rows[j];
      }
    }
  }

  lemma NewKeysWiden(rows: seq<string>, from: nat, lo: nat, hi: nat, hi': nat)
    requires NewKeys(rows, from, lo, hi) && hi <= hi'
    ensures NewKeys(rows, from, lo, hi')
  {
    forall j | from <= j < |rows|
      ensures IsNewId(KeyOf(rows[j]), lo, hi')
    {
      assert IsNewId(KeyOf(rows[j]), lo, hi);
      var m: nat :| lo <= m < hi && KeyOf(rows[j]) == NatToString(m);
    }
  }

  lemma NewKeysPrefix(rows: seq<string>, from: nat, from': nat, lo: nat, hi: nat)
    requires NewKeys(rows, from, lo, hi) && from <= from'
    ensures NewKeys(rows, from', lo, hi)
  {
    forall j | from' <= j < |rows|
      ensures IsNewId(KeyOf(rows[j]), lo, hi)
    {
      assert from <= j;
    }
  }

  /**
   * One batch keeps the rows already there, appends one employee row per
   * numeric-id employee with consecutive ids from `next`, and every related
   * row it appends carries one of those ids.
   */
  lemma {:induction false} BatchFacts(a: Acc, emps: seq<string>, next: nat, lk: Lookups)
    ensures var r := Batch(a, emps, next, lk);
      && r.1 == next + DigitCount(emps)
      && Extends(a, r.0)
      && |r.0.employee| == |a.employee| + DigitCount(emps)
      && ConsecutiveIds(r.0.employee, |a.employee|, next)
      && NewKeys(r.0.salary, |a.salary|, next, r.1)
      && NewKeys(r.0.title, |a.title|, next, r.1)
      && NewKeys(r.0.deptEmp, |a.deptEmp|, next, r.1)
    decreases |emps|
  {
    if emps != [] {
      var init := emps[..|emps| - 1];
      BatchFacts(a, init, next, lk);
      var r := Batch(a, init, next, lk);
      var emp := emps[|emps| - 1];
      if HasDigitKey(emp) {
        AddEmployeeFacts(a, r.0, emp, next, r.1, lk);
      }
    }
  }

  /** Appending one numeric-id employee with id `n` keeps the batch facts, one id further. */
  lemma AddEmployeeFacts(a: Acc, c: Acc, emp: string, next: nat, n: nat, lk: Lookups)
    requires HasDigitKey(emp)
    requires Extends(a, c)
    requires |c.employee| == |a.employee| + (n - next) && next <= n
    requires ConsecutiveIds(c.employee, |a.employee|, next)
    requires NewKeys(c.salary, |a.salary|, next, n)
    requires NewKeys(c.title, |a.title|, next, n)
    requires NewKeys(c.deptEmp, |a.deptEmp|, next, n)
    ensures var b := AddEmployee(c, emp, NatToString(n), lk);
      && Extends(a, b)
      && |b.employee| == |a.employee| + (n + 1 - next)
      && ConsecutiveIds(b.employee, |a.employee|, next)
      && NewKeys(b.salary, |a.salary|, next, n + 1)
      && NewKeys(b.title, |a.title|, next, n + 1)
      && NewKeys(b.deptEmp, |a.deptEmp|, next, n + 1)
  {
    var id := NatToString(n);
    NatToStringPlain(n);
    RekeyFields(emp, id);
    var b := AddEmployee(c, emp, id, lk);
    var oldId := KeyOf(emp);
    NewKeysWiden(c.salary, |a.salary|, next, n, n + 1);
    NewKeysWiden(c.title, |a.title|, next, n, n + 1);
    NewKeysWiden(c.deptEmp, |a.deptEmp|, next, n, n + 1);
    RekeyAllKeys(Get(lk.salary, oldId), n, c.salary, |a.salary|, next, n + 1);
    RekeyAllKeys(Get(lk.title, oldId), n, c.title, |a.title|, next, n + 1);
    RekeyAllKeys(Get(lk.deptEmp, oldId), n, c.deptEmp, |a.deptEmp|, next, n + 1);
    assert ConsecutiveIds(b.employee, |a.employee|, next) by {
      forall j | |a.employee| <= j < |b.employee|
        ensures KeyOf(b.employee[j]) == NatToString(next + j - |a.employee|)
      {
        if j < |c.employee| {
          assert b.employee[j] == c.employee[j];
        }
      }
    }
  }

  /** The same over all batches: ids run consecutively from `next` across batch boundaries. */
  lemma {:induction false} BatchesFacts(a: Acc, emps: seq<string>, next: nat, lk: Lookups, count: nat)
    ensures var r := Batches(a, emps, next, lk, count);
      && r.1 == next + count * DigitCount(emps)
      && Extends(a, r.0)
      && |r.0.employee| == |a.employee| + count * DigitCount(emps)
      && ConsecutiveIds(r.0.employee, |a.employee|, next)
      && NewKeys(r.0.salary, |a.salary|, next, r.1)
      && NewKeys(r.0.title, |a.title|, next, r.1)
      && NewKeys(r.0.deptEmp, |a.deptEmp|, next, r.1)
    decreases count
  {
    if count > 0 {
      BatchesFacts(a, emps, next, lk, count - 1);
      var r := Batches(a, emps, next, lk, count - 1);
      BatchFacts(r.0, emps, r.1, lk);
      var b := Batch(r.0, emps, r.1, lk);
      NewKeysWiden(r.0.salary, |a.salary|, next, r.1, b.1);
      NewKeysWiden(r.0.title, |a.title|, next, r.1, b.1);
      NewKeysWiden(r.0.deptEmp, |a.deptEmp|, next, r.1, b.1);
      KeysAcross(r.0.salary, b.0.salary, |a.salary|, next, r.1, b.1);
      KeysAcross(r.0.title, b.0.title, |a.title|, next, r.1, b.1);
      KeysAcross(r.0.deptEmp, b.0.deptEmp, |a.deptEmp|, next, r.1, b.1);
      assert ConsecutiveIds(b.0.employee, |a.employee|, next) by {
        forall j | |a.employee| <= j < |b.0.employee|
          ensures KeyOf(b.0.employee[j]) == NatToString(next + j - |a.employee|)
        {
          if j < |r.0.employee| {
            assert b.0.employee[j] == r.0.employee[j];
          }
        }
      }
      assert (count - 1) * DigitCount(emps) + DigitCount(emps) == count * DigitCount(emps);
    }
  }

  lemma KeysAcross(x: seq<string>, y: seq<string>, from: nat, lo: nat, mid: nat, hi: nat)
    requires x <= y && from <= |x| && lo <= mid <= hi
    requires NewKeys(x, from, lo, hi) && NewKeys(y, |x|, mid, hi)
    ensures NewKeys(y, from, lo, hi)
  {
    forall j | from <= j < |y|
      ensures IsNewId(KeyOf(y[j]), lo, hi)
    {
      if j < |x| {
        assert y[j] == x[j];
      } else {
        assert IsNewId(KeyOf(y[j]), mid, hi);
        var m: nat :| mid <= m < hi && KeyOf(y[j]) == NatToString(m);
        assert lo <= m;
      }
    }
  }

  /** With no rows and no lookup entries for a related table, no batch adds rows to it. */
  lemma {:induction false} BatchesLeaveEmpty(a: Acc, emps: seq<string>, next: nat, lk: Lookups, count: nat)
    ensures var r := Batches(a, emps, next, lk, count).0;
      && (a.salary == [] && lk.salary == map[] ==> r.salary == [])
      && (a.title == [] && lk.title == map[] ==> r.title == [])
      && (a.deptEmp == [] && lk.deptEmp == map[] ==> r.deptEmp == [])
      && (count == 0 ==> r == a)
    decreases count
  {
    if count > 0 {
      BatchesLeaveEmpty(a, emps, next, lk, count - 1);
      var r := Batches(a, emps, next, lk, count - 1);
      BatchLeavesEmpty(r.0, emps, r.1, lk);
    }
  }

  lemma {:induction false} BatchLeavesEmpty(a: Acc, emps: seq<string>, next: nat, lk: Lookups)
    ensures var r := Batch(a, emps, next, lk).0;
      && (a.salary == [] && lk.salary == map[] ==> r.salary == [])
      && (a.title == [] && lk.title == map[] ==> r.title == [])
      && (a.deptEmp == [] && lk.deptEmp == map[] ==> r.deptEmp == [])
    decreases |emps|
  {
    if emps != [] {
      BatchLeavesEmpty(a, emps[..|emps| - 1], next, lk);
    }
  }

  // ---------------------------------------------------------------------
  // The whole enlargement
  // ---------------------------------------------------------------------

  /** A header line as rewritten: `None` for a skipped line. */
  function HeaderLineAsWritten(line: string): Option<string> {
    if Contains(line, "ALTER TABLE") && Contains(line, "SET DEFAULT") then
      Some(if Contains(line, "nextval") then "-- " + line else line)
    else if Contains(line, "ALTER TABLE ONLY") && Contains(line, "SET DEFAULT") then None
    else Some(line)
  }

  lemma AlterTableOnly(line: string)
    requires Contains(line, "ALTER TABLE ONLY")
    ensures Contains(line, "ALTER TABLE")
  {
    var i :| 0 <= i <= |line| - |"ALTER TABLE ONLY"| && SubAt(line, "ALTER TABLE ONLY", i);
    assert line[i..i + |"ALTER TABLE"|] == line[i..i + |"ALTER TABLE ONLY"|][..|"ALTER TABLE"|];
    assert SubAt(line, "ALTER TABLE", i);
  }

  /**
   * No header line is ever skipped, since a line containing "ALTER TABLE
   * ONLY" already passed the "ALTER TABLE" test; a line is commented out
   * exactly when it sets a `nextval` default, and kept as it is otherwise.
   */
  lemma HeaderLineKept(line: string)
    ensures HeaderLineAsWritten(line).Some?
    ensures var out := HeaderLineAsWritten(line).value;
      && (Contains(line, "ALTER TABLE") && Contains(line, "SET DEFAULT") && Contains(line, "nextval") ==> out == "-- " + line)
      && (!(Contains(line, "ALTER TABLE") && Contains(line, "SET DEFAULT") && Contains(line, "nextval")) ==> out == line)
  {
    if Contains(line, "ALTER TABLE ONLY") {
      AlterTableOnly(line);
    }
  }

  function HeaderLine(line: string): string {
    HeaderLineKept(line);
    HeaderLineAsWritten(line).value
  }

  function ProcessedHeader(header: seq<string>): (r: seq<string>)
    ensures |r| == |header| && forall i :: 0 <= i < |r| ==> r[i] == HeaderLine(header[i])
  {
    seq(|header|, i requires 0 <= i < |header| => HeaderLine(header[i]))
  }

  /** The rows of a section kept as data: non-blank and not the terminator. */
  function DataRows(lines: seq<string>): (r: seq<string>)
    ensures |r| <= |lines|
    decreases |lines|
  {
    if lines == [] then []
    else
      var last := lines[|lines| - 1];
      DataRows(lines[..|lines| - 1]) + if Strip(last) != [] && Strip(last) != TERMINATOR then [last] else []
  }

  lemma {:induction false} DataRowsMembers(lines: seq<string>, x: string)
    ensures x in DataRows(lines) <==> x in lines && Strip(x) != [] && Strip(x) != TERMINATOR
    decreases |lines|
  {
    if lines != [] {
      DataRowsMembers(lines[..|lines| - 1], x);
      SplitLast(lines);
    }
  }

  function InitialRows(sections: map<string, Section>, t: string): seq<string> {
    if t in sections then DataRows(sections[t].data) else []
  }

  /** The accumulated rows of each written table. */
  function Accumulated(sections: map<string, Section>, a: Acc): map<string, seq<string>> {
    map["department" := InitialRows(sections, "department"),
        "department_employee" := a.deptEmp,
        "department_manager" := InitialRows(sections, "department_manager"),
        "employee" := a.employee,
        "salary" := a.salary,
        "title" := a.title]
  }

  /** The output after the header: one COPY block per non-empty table; `None` if a table has no section (a `KeyError`). */
  function Blocks(sections: map<string, Section>, acc: map<string, seq<string>>, tables: seq<string>): Option<seq<string>>
    decreases |tables|
  {
    if tables == [] then Some([])
    else
      var t := tables[|tables| - 1];
      var rows := Get(acc, t);
      match Blocks(sections, acc, tables[..|tables| - 1])
      case None => None
      case Some(out) =>
        if rows == [] then Some(out)
        else if t !in sections then None
        else Some(out + [sections[t].header] + rows + [TERMINATOR_LINE])
  }

  lemma {:induction false} BlocksSome(sections: map<string, Section>, acc: map<string, seq<string>>, tables: seq<string>)
    requires forall i :: 0 <= i < |tables| ==> Get(acc, tables[i]) == [] || tables[i] in sections
    ensures Blocks(sections, acc, tables).Some?
    decreases |tables|
  {
    if tables != [] {
      BlocksSome(sections, acc, tables[..|tables| - 1]);
    }
  }

  function OriginalAcc(sections: map<string, Section>): Acc {
    Acc(InitialRows(sections, "employee"), InitialRows(sections, "salary"),
        InitialRows(sections, "title"), InitialRows(sections, "department_employee"))
  }

  function LookupsOf(a: Acc): Lookups {
    Lookups(Lookup(a.salary), Lookup(a.title), Lookup(a.deptEmp))
  }

  function BatchCount(multiplier: int): nat {
    if multiplier - 1 > 0 then multiplier - 1 else 0
  }

  /** The data rows after every batch. */
  function Duplicated(sections: map<string, Section>, multiplier: int): Acc {
    var a := OriginalAcc(sections);
    Batches(a, InitialRows(sections, "employee"), NEW_ID_START, LookupsOf(a), BatchCount(multiplier)).0
  }

  /** `duplicate_with_integrity`'s output lines; `None` for the `KeyError` of a missing employee section. */
  function Enlarged(header: seq<string>, sections: map<string, Section>, multiplier: int): Option<seq<string>> {
    if BatchCount(multiplier) > 0 && "employee" !in sections then None
    else
      match Blocks(sections, Accumulated(sections, Duplicated(sections, multiplier)), TABLES)
      case None => None
      case Some(out) => Some(ProcessedHeader(header) + out)
  }

  /**
   * The enlargement fails only for the missing employee section: writing
   * never meets a non-empty table without a section.
   */
  lemma EnlargedFails(header: seq<string>, sections: map<string, Section>, multiplier: int)
    ensures Enlarged(header, sections, multiplier).None? <==> BatchCount(multiplier) > 0 && "employee" !in sections
  {
    if !(BatchCount(multiplier) > 0 && "employee" !in sections) {
      var acc := Accumulated(sections, Duplicated(sections, multiplier));
      AccumulatedCovered(sections, multiplier);
      BlocksSome(sections, acc, TABLES);
    }
  }

  /** Unless the employee section is missing for a batch, every table with rows has a section. */
  lemma AccumulatedCovered(sections: map<string, Section>, multiplier: int)
    requires !(BatchCount(multiplier) > 0 && "employee" !in sections)
    ensures var acc := Accumulated(sections, Duplicated(sections, multiplier));
      forall i :: 0 <= i < |TABLES| ==> Get(acc, TABLES[i]) == [] || TABLES[i] in sections
  {
    DuplicatedCovered(sections, multiplier);
    AccCovered(sections, Duplicated(sections, multiplier));
  }

  /** The duplicated rows of a table without a section stay empty. */
  lemma DuplicatedCovered(sections: map<string, Section>, multiplier: int)
    requires !(BatchCount(multiplier) > 0 && "employee" !in sections)
    ensures var d := Duplicated(sections, multiplier);
      && (d.employee == [] || "employee" in sections)
      && (d.salary == [] || "salary" in sections)
      && (d.title == [] || "title" in sections)
      && (d.deptEmp == [] || "department_employee" in sections)
  {
    var a := OriginalAcc(sections);
    var lk := LookupsOf(a);
    BatchesLeaveEmpty(a, InitialRows(sections, "employee"), NEW_ID_START, lk, BatchCount(multiplier));
    assert Lookup([]) == map[];
  }

  lemma AccCovered(sections: map<string, Section>, d: Acc)
    requires d.employee == [] || "employee" in sections
    requires d.salary == [] || "salary" in sections
    requires d.title == [] || "title" in sections
    requires d.deptEmp == [] || "department_employee" in sections
    ensures var acc := Accumulated(sections, d);
      forall i :: 0 <= i < |TABLES| ==> Get(acc, TABLES[i]) == [] || TABLES[i] in sections
  {
    var acc := Accumulated(sections, d);
    forall i | 0 <= i < |TABLES|
      ensures Get(acc, TABLES[i]) == [] || TABLES[i] in sections
    {
      if i == 0 {
        assert Get(acc, TABLES[i]) == InitialRows(sections, "department");
      } else if i == 1 {
        assert Get(acc, TABLES[i]) == d.deptEmp;
      } else if i == 2 {
        assert Get(acc, TABLES[i]) == InitialRows(sections, "department_manager");
      } else if i == 3 {
        assert Get(acc, TABLES[i]) == d.employee;
      } else if i == 4 {
        assert Get(acc, TABLES[i]) == d.salary;
      } else {
        assert Get(acc, TABLES[i]) == d.title;
      }
    }
  }

  /**
   * The rows after duplication: the original rows first, then for the
   * employee table (multiplier - 1) copies of every numeric-id employee
   * with consecutive ids from 500000, and every related row appended
   * refers to one of the new employee rows.
   */
  lemma DuplicatedIntegrity(sections: map<string, Section>, multiplier: int)
    ensures var a := OriginalAcc(sections);
      var d := Duplicated(sections, multiplier);
      var n := DigitCount(InitialRows(sections, "employee"));
      && Extends(a, d)
      && |d.employee| == |a.employee| + BatchCount(multiplier) * n
      && ConsecutiveIds(d.employee, |a.employee|, NEW_ID_START)
      && NewKeys(d.salary, |a.salary|, NEW_ID_START, NEW_ID_START + BatchCount(multiplier) * n)
      && NewKeys(d.title, |a.title|, NEW_ID_START, NEW_ID_START + BatchCount(multiplier) * n)
      && NewKeys(d.deptEmp, |a.deptEmp|, NEW_ID_START, NEW_ID_START + BatchCount(multiplier) * n)
  {
    var a := OriginalAcc(sections);
    BatchesFacts(a, InitialRows(sections, "employee"), NEW_ID_START, LookupsOf(a), BatchCount(multiplier));
  }

  /** The new employee ids are pairwise distinct. */
  lemma NewIdsDistinct(rows: seq<string>, from: nat, lo: nat, i: nat, j: nat)
    requires ConsecutiveIds(rows, from, lo)
    requires from <= i < |rows| && from <= j < |rows| && i != j
    ensures KeyOf(rows[i]) != KeyOf(rows[j])
  {
    if KeyOf(rows[i]) == KeyOf(rows[j]) {
      NatToStringInjective(lo + i - from, lo + j - from);
    }
  }

  /** Every appended related row refers to an appended employee row. */
  lemma RelatedRowHasEmployee(employees: seq<string>, from: nat, rows: seq<string>, rowsFrom: nat,
                              lo: nat, count: nat, j: nat)
    requires from + count == |employees|
    requires ConsecutiveIds(employees, from, lo) && NewKeys(rows, rowsFrom, lo, lo + count)
    requires rowsFrom <= j < |rows|
    ensures HasRowWithId(employees, from, KeyOf(rows[j]))
  {
    assert IsNewId(KeyOf(rows[j]), lo, lo + count);
    var m: nat :| lo <= m < lo + count && KeyOf(rows[j]) == NatToString(m);
    var i := from + (m - lo);
    assert KeyOf(employees[i]) == NatToString(m);
  }

  /** Every row of `rows` from `rowsFrom` on carries the id of a row of `emps` from `from` on. */
  predicate RefersTo(rows: seq<string>, rowsFrom: nat, emps: seq<string>, from: nat) {
    forall j | rowsFrom <= j < |rows| :: HasRowWithId(emps, from, KeyOf(rows[j]))
  }

  /** Some row of `emps` from `from` on has employee id `id`. */
  predicate HasRowWithId(emps: seq<string>, from: nat, id: string) {
    exists i :: from <= i < |emps| && KeyOf(emps[i]) == id
  }

  lemma NewKeysReferTo(emps: seq<string>, from: nat, rows: seq<string>, rowsFrom: nat, lo: nat, count: nat)
    requires from + count == |emps|
    requires ConsecutiveIds(emps, from, lo) && NewKeys(rows, rowsFrom, lo, lo + count)
    ensures RefersTo(rows, rowsFrom, emps, from)
  {
    forall j | rowsFrom <= j < |rows|
      ensures HasRowWithId(emps, from, KeyOf(rows[j]))
    {
      RelatedRowHasEmployee(emps, from, rows, rowsFrom, lo, count, j);
    }
  }

  /**
   * Referential integrity: every salary, title and department_employee row
   * the duplication appends carries the id of an employee row it appended.
   */
  lemma ReferentialIntegrity(sections: map<string, Section>, multiplier: int)
    ensures var a := OriginalAcc(sections);
      var d := Duplicated(sections, multiplier);
      && RefersTo(d.salary, |a.salary|, d.employee, |a.employee|)
      && RefersTo(d.title, |a.title|, d.employee, |a.employee|)
      && RefersTo(d.deptEmp, |a.deptEmp|, d.employee, |a.employee|)
  {
    var a := OriginalAcc(sections);
    var d := Duplicated(sections, multiplier);
    var count := BatchCount(multiplier) * DigitCount(InitialRows(sections, "employee"));
    DuplicatedIntegrity(sections, multiplier);
    NewKeysReferTo(d.employee, |a.employee|, d.salary, |a.salary|, NEW_ID_START, count);
    NewKeysReferTo(d.employee, |a.employee|, d.title, |a.title|, NEW_ID_START, count);
    NewKeysReferTo(d.employee, |a.employee|, d.deptEmp, |a.deptEmp|, NEW_ID_START, count);
  }

  /** `rows + RekeyAll(records, id)` as the source's inner loops build it. */
  method AppendRekeyed(rows: seq<string>, records: seq<string>, id: string) returns (rows': seq<string>)
    ensures rows' == rows + RekeyAll(records, id)
  {
    rows' := rows;
    var k := 0;
    while k < |records|
      invariant 0 <= k <= |records|
      invariant rows' == rows + RekeyAll(records[..k], id)
    {
      var parts := Fields(records[k]);
      parts := parts[0 := id];
      rows' := rows' + [Join("\t", parts) + "\n"];
      assert [id] + Fields(records[k])[1..] == parts;
      assert RekeyAll(records[..k + 1], id) == RekeyAll(records[..k], id) + [Rekey(records[k], id)];
      k := k + 1;
    }
    assert records[..k] == records;
  }

  /** The body of the employee loop for a numeric-id employee. */
  method CopyEmployee(a: Acc, emp: string, id: string, lk: Lookups) returns (a': Acc)
    ensures a' == AddEmployee(a, emp, id, lk)
  {
    var oldEmpId := KeyOf(emp);
    var parts := Fields(emp);
    parts := parts[0 := id];
    assert [id] + Fields(emp)[1..] == parts;
    var employee := a.employee + [Join("\t", parts) + "\n"];
    var salary := a.salary;
    if oldEmpId in lk.salary {
      salary := AppendRekeyed(salary, lk.salary[oldEmpId], id);
    }
    var title := a.title;
    if oldEmpId in lk.title {
      title := AppendRekeyed(title, lk.title[oldEmpId], id);
    }
    var deptEmp := a.deptEmp;
    if oldEmpId in lk.deptEmp {
      deptEmp := AppendRekeyed(deptEmp, lk.deptEmp[oldEmpId], id);
    }
    a' := Acc(employee, salary, title, deptEmp);
  }

  /** The header loop: each line rewritten, none skipped. */
  method ProcessHeader(header: seq<string>) returns (processed: seq<string>)
    ensures processed == ProcessedHeader(header)
  {
    processed := [];
    var h := 0;
    while h < |header|
      invariant 0 <= h <= |header|
      invariant processed == ProcessedHeader(header[..h])
    {
      var line := header[h];
      HeaderLineKept(line);
      assert ProcessedHeader(header[..h + 1]) == ProcessedHeader(header[..h]) + [HeaderLine(header[h])];
      if Contains(line, "ALTER TABLE") && Contains(line, "SET DEFAULT") {
        if Contains(line, "nextval") {
          line := "-- " + line;
        }
      } else if Contains(line, "ALTER TABLE ONLY") && Contains(line, "SET DEFAULT") {
        h := h + 1;
        continue;
      }
      processed := processed + [line];
      h := h + 1;
    }
    assert header[..h] == header;
  }

  /** The batch loop and the employee loop inside it, from id 500000. */
  method RunBatches(a0: Acc, employeeData: seq<string>, lk: Lookups, count: nat) returns (a: Acc, nextEmpId: nat)
    ensures (a, nextEmpId) == Batches(a0, employeeData, NEW_ID_START, lk, count)
  {
    a, nextEmpId := a0, NEW_ID_START;
    var batch := 0;
    while batch < count
      invariant 0 <= batch <= count
      invariant (a, nextEmpId) == Batches(a0, employeeData, NEW_ID_START, lk, batch)
    {
      a, nextEmpId := RunBatch(a, employeeData, nextEmpId, lk);
      batch := batch + 1;
    }
  }

  /** One batch: the employee loop. */
  method RunBatch(a0: Acc, employeeData: seq<string>, next: nat, lk: Lookups) returns (a: Acc, nextEmpId: nat)
    ensures (a, nextEmpId) == Batch(a0, employeeData, next, lk)
  {
    a, nextEmpId := a0, next;
    var e := 0;
    while e < |employeeData|
      invariant 0 <= e <= |employeeData|
      invariant (a, nextEmpId) == Batch(a0, employeeData[..e], next, lk)
    {
      var emp := employeeData[e];
      assert employeeData[..e + 1][..e] == employeeData[..e];
      if HasDigitKey(emp) {
        var newEmpId := NatToString(nextEmpId);
        a := CopyEmployee(a, emp, newEmpId, lk);
        nextEmpId := nextEmpId + 1;
      }
      e := e + 1;
    }
    assert employeeData[..e] == employeeData;
  }

  /** The write loop: a COPY block per non-empty table; `None` for the `KeyError`. */
  method WriteBlocks(sections: map<string, Section>, acc: map<string, seq<string>>) returns (r: Option<seq<string>>)
    ensures r == Blocks(sections, acc, TABLES)
  {
    var out: seq<string> := [];
    var t := 0;
    while t < |TABLES|
      invariant 0 <= t <= |TABLES|
      invariant Blocks(sections, acc, TABLES[..t]) == Some(out)
    {
      var table := TABLES[t];
      assert TABLES[..t + 1][..t] == TABLES[..t];
      if Get(acc, table) != [] {
        if table !in sections {
          BlocksNoneStays(sections, acc, TABLES, t + 1);
          return None;
        }
        out := out + [sections[table].header] + Get(acc, table) + [TERMINATOR_LINE];
      }
      t := t + 1;
    }
    assert TABLES[..t] == TABLES;
    r := Some(out);
  }

  /**
   * `duplicate_with_integrity` up to the write: the rewritten header, then
   * a COPY block per non-empty table, in the fixed table order.
   */
  method DuplicateWithIntegrity(header: seq<string>, sections: map<string, Section>, multiplier: int)
    returns (r: Option<seq<string>>)
    ensures r == Enlarged(header, sections, multiplier)
  {
    var processedHeader := ProcessHeader(header);
    var a := OriginalAcc(sections);
    var lk := BuildEmployeeLookup(a.salary, a.title, a.deptEmp);
    var count := BatchCount(multiplier);
    if count > 0 && "employee" !in sections {
      return None;
    }
    var employeeData := InitialRows(sections, "employee");
    var nextEmpId;
    a, nextEmpId := RunBatches(a, employeeData, lk, count);
    var blocks := WriteBlocks(sections, Accumulated(sections, a));
    if blocks.None? {
      return None;
    }
    r := Some(processedHeader + blocks.value);
  }

  lemma {:induction false} BlocksNoneStays(sections: map<string, Section>, acc: map<string, seq<string>>,
                                           tables: seq<string>, k: nat)
    requires k <= |tables| && Blocks(sections, acc, tables[..k]).None?
    ensures Blocks(sections, acc, tables).None?
    decreases |tables| - k
  {
    if k < |tables| {
      assert tables[..k + 1][..k] == tables[..k];
      BlocksNoneStays(sections, acc, tables, k + 1);
    } else {
      assert tables[..k] == tables;
    }
  }
}
