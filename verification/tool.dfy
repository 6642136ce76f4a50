/** A tool's loaded results (`class Tool`) and a collection of tools
    (`class ToolCollection`). Opening the files and splitting them into
    fields happens outside the model: each file arrives as the sequence of
    rows the csv reader yields for it. */
module Tools {
  import opened Results
  import Seqs
  import opened BenchStats

  /** A row kept by `Tool.read`: blank rows (no fields) are skipped. */
  type Row = r: seq<string> | |r| > 0 witness [""]

  /** Leading non-blank rows of every file that hold header and metadata. */
  const HeaderRows: nat := 3

  function NonBlankCount(rows: seq<seq<string>>): nat {
    if |rows| == 0 then 0
    else NonBlankCount(rows[..|rows| - 1]) + (if |rows[|rows| - 1]| > 0 then 1 else 0)
  }

  /** The rows of one file with blank rows skipped, in file order. */
  function NonBlank(rows: seq<seq<string>>): (r: seq<Row>)
    ensures |r| == NonBlankCount(rows)
  {
    if |rows| == 0 then []
    else
      var init := rows[..|rows| - 1];
      var last := rows[|rows| - 1];
      if |last| > 0 then NonBlank(init) + [last] else NonBlank(init)
  }

  /** Blank-row skipping keeps exactly the rows that have a field. */
  lemma {:induction false} NonBlankMembers(rows: seq<seq<string>>, x: seq<string>)
    ensures x in NonBlank(rows) <==> x in rows && |x| > 0
  {
    if |rows| > 0 {
      var init := rows[..|rows| - 1];
      assert rows == init + [rows[|rows| - 1]];
      NonBlankMembers(init, x);
    }
  }

  /** A single row survives exactly when it has a field. */
  lemma NonBlankOne(x: seq<string>)
    ensures NonBlank([x]) == if |x| > 0 then [x] else []
  {
    assert [x][..0] == [];
  }

  /** Blank-row skipping works row by row and keeps file order: skipping in
      `a + b` is skipping in `a`, then in `b`. With `NonBlankOne` this fixes
      the surviving rows as the non-blank rows in their original order. */
  lemma {:induction false} NonBlankConcat(a: seq<seq<string>>, b: seq<seq<string>>)
    ensures NonBlank(a + b) == NonBlank(a) + NonBlank(b)
    decreases |b|
  {
    if |b| == 0 {
      assert a + b == a;
    } else {
      var b' := b[..|b| - 1];
      var last := b[|b| - 1];
      Seqs.InitOfConcat(a, b);
      NonBlankConcat(a, b');
      if |last| > 0 {
        Seqs.SeqAssoc(NonBlank(a), NonBlank(b'), [last]);
      }
    }
  }

  /** `rows[IDX_START:]`: Python's slice yields nothing when too short. */
  function DropHeader(rows: seq<Row>): (r: seq<Row>)
    ensures |r| == if |rows| <= HeaderRows then 0 else |rows| - HeaderRows
    ensures forall i :: 0 <= i < |r| ==> r[i] == rows[i + HeaderRows]
  {
    if |rows| <= HeaderRows then [] else rows[HeaderRows..]
  }

  /** How many rows of one file survive: non-blank rows past the header. */
  function KeptCount(rows: seq<seq<string>>): nat {
    var n := NonBlankCount(rows);
    if n <= HeaderRows then 0 else n - HeaderRows
  }

  function TotalKept(files: seq<seq<seq<string>>>): nat {
    if |files| == 0 then 0 else TotalKept(files[..|files| - 1]) + KeptCount(files[|files| - 1])
  }

  /** The row post-processing of `Tool.read`: each file, in the given order,
      contributes its non-blank rows minus its own first three. */
  function ReadAll(files: seq<seq<seq<string>>>): (r: seq<Row>)
    ensures |r| == TotalKept(files)
  {
    if |files| == 0 then []
    else
      var kept := DropHeader(NonBlank(files[|files| - 1]));
      assert |kept| == KeptCount(files[|files| - 1]);
      ReadAll(files[..|files| - 1]) + kept
  }

  /** One file contributes its non-blank rows past the first three. */
  lemma ReadOneFile(f: seq<seq<string>>)
    ensures ReadAll([f]) == DropHeader(NonBlank(f))
  {
    assert [f][..0] == [];
  }

  /** Every content row is a row of one of the files. */
  lemma {:induction false} ReadAllFromFiles(files: seq<seq<seq<string>>>)
    ensures forall j :: 0 <= j < |ReadAll(files)| ==>
      exists k :: 0 <= k < |files| && ReadAll(files)[j] in files[k]
  {
    if |files| > 0 {
      var init := files[..|files| - 1];
      var last := files[|files| - 1];
      ReadAllFromFiles(init);
      var head := ReadAll(init);
      var kept := DropHeader(NonBlank(last));
      var r := ReadAll(files);
      assert r == head + kept;
      forall j | 0 <= j < |r|
        ensures exists k :: 0 <= k < |files| && r[j] in files[k]
      {
        if j < |head| {
          var k :| 0 <= k < |init| && head[j] in init[k];
          assert r[j] == head[j] && init[k] == files[k];
        } else {
          assert r[j] == kept[j - |head|];
          assert r[j] in NonBlank(last);
          NonBlankMembers(last, r[j]);
          assert r[j] in files[|files| - 1];
        }
      }
    } else {
      assert |ReadAll(files)| == 0;
    }
  }

  /** The header is dropped from each file, not once from the concatenation:
      reading two groups of files is reading each group and concatenating. */
  lemma {:induction false} ReadAllConcat(a: seq<seq<seq<string>>>, b: seq<seq<seq<string>>>)
    ensures ReadAll(a + b) == ReadAll(a) + ReadAll(b)
    decreases |b|
  {
    if |b| == 0 {
      assert a + b == a;
    } else {
      var ab := a + b;
      var b' := b[..|b| - 1];
      var kept := DropHeader(NonBlank(b[|b| - 1]));
      Seqs.InitOfConcat(a, b);
      assert ReadAll(ab) == ReadAll(a + b') + kept;
      assert ReadAll(b) == ReadAll(b') + kept;
      ReadAllConcat(a, b');
      Seqs.SeqAssoc(ReadAll(a), ReadAll(b'), kept);
    }
  }

  /** A file with no more non-blank rows than the header contributes nothing. */
  lemma ShortFileContributesNothing(files: seq<seq<seq<string>>>, f: seq<seq<string>>)
    requires NonBlankCount(f) <= HeaderRows
    ensures ReadAll(files + [f]) == ReadAll(files)
  {
    assert (files + [f])[..|files|] == files;
  }

  datatype Tool = Tool(name: string, csvfiles: seq<string>, content: seq<Row>)

  /** `Tool(name, csvfiles)`: `contents[k]` is the rows the csv reader yields
      for `csvfiles[k]`. */
  function Load(name: string, csvfiles: seq<string>, contents: seq<seq<seq<string>>>): (t: Tool)
    requires |contents| == |csvfiles|
    ensures t.name == name && t.csvfiles == csvfiles
    ensures |t.content| == TotalKept(contents)
  {
    Tool(name, csvfiles, ReadAll(contents))
  }

  /** `Tool.benchmarks`: the first field of every content row. */
  function Benchmarks(t: Tool): (r: seq<string>)
    ensures |r| == |t.content|
    ensures forall i :: 0 <= i < |r| ==> r[i] == t.content[i][0]
  {
    seq(|t.content|, i requires 0 <= i < |t.content| => t.content[i][0])
  }

  /** `Tool.stats`: `add_row` folded over the content from an empty aggregate. */
  function StatsOf(t: Tool, parse: FloatParser): (r: Result<Stats, Error>)
    ensures r.Success? <==> forall i :: 0 <= i < |t.content| ==> RowOk(t.content[i], parse)
  {
    Fold(Empty(t.name), t.content, parse)
  }

  /** The aggregate of a tool satisfies both conservation laws over its
      content. */
  lemma StatsConservation(t: Tool, parse: FloatParser)
    requires StatsOf(t, parse).Success?
    ensures var st := StatsOf(t, parse).value;
      && st.tool == t.name
      && st.totalSafeBenchmarks + st.totalUnsafeBenchmarks == |t.content|
      && st.timeSafe + st.timeUnsafe == st.totalTime
      && st.numSafeAnswers + st.numUnsafeAnswers + st.numTimeouts + st.numOoms + st.numUnknowns == |t.content|
  {
    var st := StatsOf(t, parse).value;
    FoldKeepsConsistent(Empty(t.name), t.content, parse);
    FoldAppendsRecords(Empty(t.name), t.content, parse);
    Conservation(st);
  }

  /** The records of a tool's aggregate carry its benchmark names in order. */
  lemma StatsNamesAreBenchmarks(t: Tool, parse: FloatParser)
    requires StatsOf(t, parse).Success?
    ensures var st := StatsOf(t, parse).value;
      && |st.rows| == |Benchmarks(t)|
      && forall i :: 0 <= i < |st.rows| ==> st.rows[i].name == Benchmarks(t)[i]
  {
    var st := StatsOf(t, parse).value;
    FoldAppendsRecords(Empty(t.name), t.content, parse);
    assert st.rows == Records(t.content, parse);
    forall i | 0 <= i < |st.rows|
      ensures st.rows[i].name == Benchmarks(t)[i]
    {
      RecordAt(t.content, parse, i);
      ParseRowName(t.content[i], parse);
    }
  }

  /** The content rows whose name starts with `pref`, in order. */
  function WithPrefix(rows: seq<Row>, pref: string): (r: seq<Row>)
    ensures forall x :: x in r <==> x in rows && pref <= x[0]
  {
    if |rows| == 0 then []
    else
      assert rows == [rows[0]] + rows[1..];
      if pref <= rows[0][0] then [rows[0]] + WithPrefix(rows[1..], pref)
      else WithPrefix(rows[1..], pref)
  }

  /** The loop of `stats_starting_with`: `add_row` on each row whose name
      starts with `pref`, skipping the others. */
  function FoldWhere(st: Stats, rows: seq<Row>, pref: string, parse: FloatParser): (r: Result<Stats, Error>)
    ensures r.Success? <==> forall i :: 0 <= i < |rows| && pref <= rows[i][0] ==> RowOk(rows[i], parse)
    decreases |rows|
  {
    if |rows| == 0 then Success(st)
    else if pref <= rows[0][0] then
      match AddRow(st, rows[0], parse)
      case Failure(e) => Failure(e)
      case Success(next) => FoldWhere(next, rows[1..], pref, parse)
    else FoldWhere(st, rows[1..], pref, parse)
  }

  /** Skipping rows while folding is folding over the filtered rows. */
  lemma {:induction false} FoldWhereIsFilteredFold(st: Stats, rows: seq<Row>, pref: string, parse: FloatParser)
    ensures FoldWhere(st, rows, pref, parse) == Fold(st, WithPrefix(rows, pref), parse)
    decreases |rows|
  {
    if |rows| > 0 {
      var rest := WithPrefix(rows[1..], pref);
      if pref <= rows[0][0] {
        var filtered := [rows[0]] + rest;
        assert filtered[0] == rows[0] && filtered[1..] == rest;
        match AddRow(st, rows[0], parse)
        case Failure(e) =>
        case Success(next) =>
          FoldWhereIsFilteredFold(next, rows[1..], pref, parse);
      } else {
        FoldWhereIsFilteredFold(st, rows[1..], pref, parse);
      }
    }
  }

  /** `Tool.stats_starting_with`: it fails exactly when a row it selects is
      rejected; the rows it skips are never parsed. */
  function StatsStartingWith(t: Tool, pref: string, parse: FloatParser): (r: Result<Stats, Error>)
    ensures r.Success? <==>
      forall i :: 0 <= i < |t.content| && pref <= t.content[i][0] ==> RowOk(t.content[i], parse)
  {
    FoldWhere(Empty(t.name), t.content, pref, parse)
  }

  /** The prefix-filtered statistics are the plain statistics of the content
      restricted to benchmarks whose name starts with `pref`. */
  lemma StatsStartingWithFilters(t: Tool, pref: string, parse: FloatParser)
    ensures StatsStartingWith(t, pref, parse) == Fold(Empty(t.name), WithPrefix(t.content, pref), parse)
  {
    FoldWhereIsFilteredFold(Empty(t.name), t.content, pref, parse);
  }

  /** Every name starts with the empty prefix. */
  lemma {:induction false} WithEmptyPrefix(rows: seq<Row>)
    ensures WithPrefix(rows, "") == rows
  {
    if |rows| > 0 {
      WithEmptyPrefix(rows[1..]);
      assert rows == [rows[0]] + rows[1..];
    }
  }

  /** Filtering by the empty prefix gives the unfiltered statistics. */
  lemma EmptyPrefixIsStats(t: Tool, parse: FloatParser)
    ensures StatsStartingWith(t, "", parse) == StatsOf(t, parse)
  {
    StatsStartingWithFilters(t, "", parse);
    WithEmptyPrefix(t.content);
  }

  datatype ToolCollection = ToolCollection(tools: seq<Tool>)

  function AddTool(c: ToolCollection, t: Tool): ToolCollection {
    c.(tools := c.tools + [t])
  }

  /** What `same_benchmarks` reports: agreement, or the first tool whose
      benchmark set differs together with the symmetric difference. */
  datatype Comparison = Same | Differs(tool: Tool, diff: set<string>)

  function NameSet(names: seq<string>): set<string> {
    set n | n in names
  }

  /** Tool `t` has exactly the benchmarks listed in `groundTruth`. */
  predicate Agrees(t: Tool, groundTruth: seq<string>) {
    NameSet(Benchmarks(t)) == NameSet(groundTruth)
  }

  /** `ToolCollection.same_benchmarks`. */
  method SameBenchmarks(c: ToolCollection, groundTruth: seq<string>) returns (r: Comparison)
    ensures r.Same? <==> forall k :: 0 <= k < |c.tools| ==> Agrees(c.tools[k], groundTruth)
    ensures r.Differs? ==>
      exists k :: 0 <= k < |c.tools| && c.tools[k] == r.tool && !Agrees(r.tool, groundTruth)
        && forall j :: 0 <= j < k ==> Agrees(c.tools[j], groundTruth)
    ensures r.Differs? ==> forall n :: n in r.diff <==> (n in Benchmarks(r.tool)) != (n in groundTruth)
    ensures r.Differs? ==> r.diff != {}
  {
    var t0 := NameSet(groundTruth);
    var i := 0;
    while i < |c.tools|
      invariant 0 <= i <= |c.tools|
      invariant forall j :: 0 <= j < i ==> Agrees(c.tools[j], groundTruth)
    {
      var tool := c.tools[i];
      var t1 := NameSet(Benchmarks(tool));
      if t1 != t0 {
        var diff := (t1 - t0) + (t0 - t1);
        assert exists n :: (n in t1) != (n in t0);
        var n :| (n in t1) != (n in t0);
        assert n in diff;
        return Differs(tool, diff);
      }
      i := i + 1;
    }
    return Same;
  }
}
