/** The per-tool aggregate of benchmark results (`class Stats`): one record
    per input row plus running counters, built by folding `AddRow` over the
    rows in order. The record list and every counter live in one immutable
    value; a step that would abort csvlib.py returns an `Error` instead. */
module BenchStats {
  import opened Results
  import opened Outcomes
  import Seqs

  /** Python's `float(text)`: `None` exactly when `float` raises. `is_float`
      is then "the parser succeeds". The number grammar is not modelled. */
  type FloatParser = string -> Option<real>

  predicate IsFloat(parse: FloatParser, text: string) {
    parse(text).Some?
  }

  /** Why processing a row, or a lookup, cannot go on. */
  datatype Error =
    | Unclassified(text: string)       // no marker matched: csvlib.py exits
    | MissingField(index: nat)         // the row has no field at this index
    | NotANumber(text: string)         // the time field does not parse
    | BadGroundTruth(truth: Outcome)   // a ground truth other than SAFE/UNSAFE
    | NotFound(name: string)           // scatter row asked for an absent name

  /** One classified benchmark: the dictionary `add_row` appends. */
  datatype Record = Record(name: string, groundTruth: Outcome, answer: Outcome, time: real)

  datatype Stats = Stats(
    tool: string,
    rows: seq<Record>,
    numUnknowns: nat,
    numTimeouts: nat,
    numOoms: nat,
    numSafeAnswers: nat,
    numUnsafeAnswers: nat,
    totalTime: real,
    timeSafe: real,
    timeUnsafe: real,
    totalSafeBenchmarks: nat,
    totalUnsafeBenchmarks: nat)


  /** The only outcomes a ground truth may take. */
  predicate IsVerdict(o: Outcome) {
    o == Safe || o == Unsafe
  }

  /** The answer counter that tracks outcome `o`. */
  function AnswerCount(st: Stats, o: Outcome): nat {
    match o
    case Safe => st.numSafeAnswers
    case Unsafe => st.numUnsafeAnswers
    case Timeout => st.numTimeouts
    case Oom => st.numOoms
    case Unknown => st.numUnknowns
  }

  /** The ground-truth counter for a verdict (no counter exists for the rest). */
  function TruthCount(st: Stats, o: Outcome): nat {
    match o
    case Safe => st.totalSafeBenchmarks
    case Unsafe => st.totalUnsafeBenchmarks
    case _ => 0
  }

  /** The accumulated time for a verdict ground truth. */
  function TruthTime(st: Stats, o: Outcome): real {
    match o
    case Safe => st.timeSafe
    case Unsafe => st.timeUnsafe
    case _ => 0.0
  }

  // Reference definitions over the record list, peeling the last record as
  // csvlib.py appends it.

  function CountAnswers(rs: seq<Record>, o: Outcome): nat {
    if |rs| == 0 then 0
    else CountAnswers(rs[..|rs| - 1], o) + (if rs[|rs| - 1].answer == o then 1 else 0)
  }

  function CountTruths(rs: seq<Record>, o: Outcome): nat {
    if |rs| == 0 then 0
    else CountTruths(rs[..|rs| - 1], o) + (if rs[|rs| - 1].groundTruth == o then 1 else 0)
  }

  function SumTime(rs: seq<Record>): real {
    if |rs| == 0 then 0.0 else SumTime(rs[..|rs| - 1]) + rs[|rs| - 1].time
  }

  function SumTimeOf(rs: seq<Record>, o: Outcome): real {
    if |rs| == 0 then 0.0
    else SumTimeOf(rs[..|rs| - 1], o) + (if rs[|rs| - 1].groundTruth == o then rs[|rs| - 1].time else 0.0)
  }

  /** The counters agree with the record list they summarise, and every
      ground truth is a verdict. */
  ghost predicate Consistent(st: Stats) {
    && (forall i :: 0 <= i < |st.rows| ==> IsVerdict(st.rows[i].groundTruth))
    && (forall o :: AnswerCount(st, o) == CountAnswers(st.rows, o))
    && (forall o :: IsVerdict(o) ==> TruthCount(st, o) == CountTruths(st.rows, o))
    && (forall o :: IsVerdict(o) ==> TruthTime(st, o) == SumTimeOf(st.rows, o))
    && st.totalTime == SumTime(st.rows)
  }

  /** A fresh aggregate bound to a tool's name: it holds no records, and its
      counters summarise that empty list. */
  function Empty(tool: string): (r: Stats)
    ensures r.tool == tool && r.rows == [] && Consistent(r)
  {
    Stats(tool, [], 0, 0, 0, 0, 0, 0.0, 0.0, 0.0, 0, 0)
  }

  /** Field `k` of a row; Python raises IndexError when it is missing. */
  function Field(row: seq<string>, k: nat): (r: Result<string, Error>)
    ensures r.Success? <==> k < |row|
    ensures r.Success? ==> r.value == row[k]
    ensures r.Failure? ==> r.error == MissingField(k)
  {
    if k < |row| then Success(row[k]) else Failure(MissingField(k))
  }

  /** `float(row[k])`: an absent field is an IndexError, an unparsable one a
      ValueError that names the text. */
  function ParseTime(row: seq<string>, k: nat, parse: FloatParser): (r: Result<real, Error>)
    ensures r.Success? <==> k < |row| && IsFloat(parse, row[k])
    ensures r.Success? ==> parse(row[k]) == Some(r.value)
    ensures k >= |row| ==> r == Failure(MissingField(k))
    ensures k < |row| && !IsFloat(parse, row[k]) ==> r == Failure(NotANumber(row[k]))
  {
    var text :- Field(row, k);
    match parse(text)
    case Some(t) => Success(t)
    case None => Failure(NotANumber(text))
  }

  /** `determine_answer` on a row field; its exit becomes `Unclassified`. */
  function Verdict(text: string): (r: Result<Outcome, Error>)
    ensures r.Success? <==> Classify(text).Success?
    ensures r.Success? ==> r.value == Classify(text).value
    ensures r.Failure? ==> r.error == Unclassified(text)
  {
    match Classify(text)
    case Success(o) => Success(o)
    case Failure(_) => Failure(Unclassified(text))
  }

  /** The record-building half of `add_row`, with its shape dispatch. When
      field 2 is a number the row is `[name, answer, marker, time]` and the
      ground truth is fixed to UNSAFE; otherwise it is
      `[name, truth, answer, marker, time]`. The row parses exactly when the
      classified fields classify and the time field exists and parses. */
  function ParseRow(row: seq<string>, parse: FloatParser): (r: Result<Record, Error>)
    ensures |row| < 3 ==> r == Failure(MissingField(2))
    ensures |row| >= 3 && IsFloat(parse, row[2]) ==>
      (r.Success? <==> Classify(row[1]).Success? && |row| > 3 && IsFloat(parse, row[3]))
    ensures |row| >= 3 && IsFloat(parse, row[2]) && r.Success? ==>
      r.value == Record(row[0], Unsafe, Classify(row[1]).value, parse(row[3]).value)
    ensures |row| >= 3 && !IsFloat(parse, row[2]) ==>
      (r.Success? <==>
        Classify(row[1]).Success? && Classify(row[2]).Success? && |row| > 4 && IsFloat(parse, row[4]))
    ensures |row| >= 3 && !IsFloat(parse, row[2]) && r.Success? ==>
      r.value == Record(row[0], Classify(row[1]).value, Classify(row[2]).value, parse(row[4]).value)
    // Which fault a rejected row reports: the first one csvlib.py reaches.
    ensures |row| >= 3 && Classify(row[1]).Failure? ==> r == Failure(Unclassified(row[1]))
    ensures |row| == 3 && IsFloat(parse, row[2]) && Classify(row[1]).Success? ==>
      r == Failure(MissingField(3))
    ensures |row| > 3 && IsFloat(parse, row[2]) && Classify(row[1]).Success? && !IsFloat(parse, row[3]) ==>
      r == Failure(NotANumber(row[3]))
    ensures |row| >= 3 && !IsFloat(parse, row[2]) && Classify(row[1]).Success? && Classify(row[2]).Failure? ==>
      r == Failure(Unclassified(row[2]))
    ensures |row| >= 3 && !IsFloat(parse, row[2]) && Classify(row[1]).Success? && Classify(row[2]).Success? ==>
      (|row| <= 4 ==> r == Failure(MissingField(4))) &&
      (|row| > 4 && !IsFloat(parse, row[4]) ==> r == Failure(NotANumber(row[4])))
  {
    var marker :- Field(row, 2);
    if IsFloat(parse, marker) then
      var answer :- Verdict(row[1]);
      var time :- ParseTime(row, 3, parse);
      Success(Record(row[0], Unsafe, answer, time))
    else
      var truth :- Verdict(row[1]);
      var answer :- Verdict(row[2]);
      var time :- ParseTime(row, 4, parse);
      Success(Record(row[0], truth, answer, time))
  }

  /** A parsed record is named after field 0. */
  lemma ParseRowName(row: seq<string>, parse: FloatParser)
    requires ParseRow(row, parse).Success?
    ensures |row| > 0 && ParseRow(row, parse).value.name == row[0]
  {
  }

  /** Increments the answer counter for `o`. */
  function BumpAnswer(st: Stats, o: Outcome): Stats {
    match o
    case Unknown => st.(numUnknowns := st.numUnknowns + 1)
    case Oom => st.(numOoms := st.numOoms + 1)
    case Timeout => st.(numTimeouts := st.numTimeouts + 1)
    case Safe => st.(numSafeAnswers := st.numSafeAnswers + 1)
    case Unsafe => st.(numUnsafeAnswers := st.numUnsafeAnswers + 1)
  }

  /** The accumulating half of `add_row`: append the record, add its time,
      bump the ground-truth counters (the truth must be a verdict, or the
      source's assertion fails) and exactly one answer counter. */
  function Accumulate(st: Stats, rec: Record): (r: Result<Stats, Error>)
    ensures r.Success? <==> IsVerdict(rec.groundTruth)
    ensures r.Failure? ==> r.error == BadGroundTruth(rec.groundTruth)
    ensures r.Success? ==>
      && r.value.tool == st.tool
      && r.value.rows == st.rows + [rec]
      && r.value.totalTime == st.totalTime + rec.time
    ensures r.Success? ==>
      forall o :: AnswerCount(r.value, o) == AnswerCount(st, o) + (if o == rec.answer then 1 else 0)
    ensures r.Success? ==>
      forall o :: IsVerdict(o) ==>
        && TruthCount(r.value, o) == TruthCount(st, o) + (if o == rec.groundTruth then 1 else 0)
        && TruthTime(r.value, o) == TruthTime(st, o) + (if o == rec.groundTruth then rec.time else 0.0)
    ensures r.Success? && Consistent(st) ==> Consistent(r.value)
  {
    if !IsVerdict(rec.groundTruth) then
      Failure(BadGroundTruth(rec.groundTruth))
    else
      var appended := st.(rows := st.rows + [rec], totalTime := st.totalTime + rec.time);
      var counted :=
        if rec.groundTruth == Safe then
          appended.(timeSafe := st.timeSafe + rec.time, totalSafeBenchmarks := st.totalSafeBenchmarks + 1)
        else
          appended.(timeUnsafe := st.timeUnsafe + rec.time, totalUnsafeBenchmarks := st.totalUnsafeBenchmarks + 1);
      var r := BumpAnswer(counted, rec.answer);
      assert r.rows[..|r.rows| - 1] == st.rows;
      Success(r)
  }

  /** A row that `add_row` accepts: it parses and its ground truth is a verdict. */
  predicate RowOk(row: seq<string>, parse: FloatParser) {
    ParseRow(row, parse).Success? && IsVerdict(ParseRow(row, parse).value.groundTruth)
  }

  /** The error `add_row` stops with on a row it does not accept. */
  function RowError(row: seq<string>, parse: FloatParser): Error
    requires !RowOk(row, parse)
  {
    match ParseRow(row, parse)
    case Failure(e) => e
    case Success(rec) => BadGroundTruth(rec.groundTruth)
  }

  /** `Stats.add_row`. */
  function AddRow(st: Stats, row: seq<string>, parse: FloatParser): (r: Result<Stats, Error>)
    ensures r.Success? <==> RowOk(row, parse)
    ensures r.Failure? ==> r.error == RowError(row, parse)
    ensures r.Success? ==> r.value.tool == st.tool && r.value.rows == st.rows + [ParseRow(row, parse).value]
  {
    var rec :- ParseRow(row, parse);
    Accumulate(st, rec)
  }

  /** `add_row` keeps the counters in agreement with the record list. */
  lemma AddRowKeepsConsistent(st: Stats, row: seq<string>, parse: FloatParser)
    requires Consistent(st)
    requires AddRow(st, row, parse).Success?
    ensures Consistent(AddRow(st, row, parse).value)
  {
    var rec := ParseRow(row, parse).value;
    assert AddRow(st, row, parse) == Accumulate(st, rec);
  }

  /** Row `i` is the first row `add_row` does not accept. */
  predicate FirstBad(rows: seq<seq<string>>, i: int, parse: FloatParser) {
    && 0 <= i < |rows|
    && !RowOk(rows[i], parse)
    && forall j :: 0 <= j < i ==> RowOk(rows[j], parse)
  }

  /** `add_row` applied to each row in order, stopping at the first error. */
  function Fold(st: Stats, rows: seq<seq<string>>, parse: FloatParser): (r: Result<Stats, Error>)
    ensures r.Success? <==> forall i :: 0 <= i < |rows| ==> RowOk(rows[i], parse)
    decreases |rows|
  {
    if |rows| == 0 then Success(st)
    else
      match AddRow(st, rows[0], parse)
      case Failure(e) => Failure(e)
      case Success(next) =>
        assert forall i :: 1 <= i < |rows| ==> rows[i] == rows[1..][i - 1];
        Fold(next, rows[1..], parse)
  }

  /** A failing fold reports the error of the first row `add_row` rejects. */
  lemma {:induction false} FoldFailsAtFirstBadRow(st: Stats, rows: seq<seq<string>>, parse: FloatParser)
    requires Fold(st, rows, parse).Failure?
    ensures exists i :: FirstBad(rows, i, parse) && Fold(st, rows, parse).error == RowError(rows[i], parse)
    decreases |rows|
  {
    var step := AddRow(st, rows[0], parse);
    if step.Failure? {
      assert FirstBad(rows, 0, parse);
    } else {
      FoldFailsAtFirstBadRow(step.value, rows[1..], parse);
      var k :| FirstBad(rows[1..], k, parse) && Fold(step.value, rows[1..], parse).error == RowError(rows[1..][k], parse);
      assert forall i :: 1 <= i < |rows| ==> rows[i] == rows[1..][i - 1];
      assert FirstBad(rows, k + 1, parse);
    }
  }

  /** The records of rows that `add_row` all accept, in row order. */
  function Records(rows: seq<seq<string>>, parse: FloatParser): (r: seq<Record>)
    requires forall i :: 0 <= i < |rows| ==> RowOk(rows[i], parse)
    ensures |r| == |rows|
  {
    if |rows| == 0 then []
    else
      assert RowOk(rows[0], parse);
      assert forall i :: 1 <= i < |rows| ==> rows[i] == rows[1..][i - 1];
      [ParseRow(rows[0], parse).value] + Records(rows[1..], parse)
  }

  /** Record `i` is the one row `i` parses to. */
  lemma {:induction false} RecordAt(rows: seq<seq<string>>, parse: FloatParser, i: nat)
    requires forall j :: 0 <= j < |rows| ==> RowOk(rows[j], parse)
    requires i < |rows|
    ensures RowOk(rows[i], parse) && Records(rows, parse)[i] == ParseRow(rows[i], parse).value
    decreases i
  {
    assert RowOk(rows[0], parse);
    assert forall j :: 1 <= j < |rows| ==> rows[j] == rows[1..][j - 1];
    if i > 0 {
      RecordAt(rows[1..], parse, i - 1);
    }
  }

  /** A successful fold keeps the tool and appends one record per row, in
      row order. */
  lemma {:induction false} FoldAppendsRecords(st: Stats, rows: seq<seq<string>>, parse: FloatParser)
    requires Fold(st, rows, parse).Success?
    ensures Fold(st, rows, parse).value.tool == st.tool
    ensures Fold(st, rows, parse).value.rows == st.rows + Records(rows, parse)
    decreases |rows|
  {
    if |rows| > 0 {
      var step := AddRow(st, rows[0], parse);
      assert RowOk(rows[0], parse);
      var next := step.value;
      assert next.rows == st.rows + [ParseRow(rows[0], parse).value];
      assert Fold(st, rows, parse) == Fold(next, rows[1..], parse);
      FoldAppendsRecords(next, rows[1..], parse);
      var rec, tail := ParseRow(rows[0], parse).value, Records(rows[1..], parse);
      assert Records(rows, parse) == [rec] + tail;
      Seqs.SeqAssoc(st.rows, [rec], tail);
    }
  }

  /** A successful fold keeps the counters consistent with the records. */
  lemma {:induction false} FoldKeepsConsistent(st: Stats, rows: seq<seq<string>>, parse: FloatParser)
    requires Fold(st, rows, parse).Success?
    requires Consistent(st)
    ensures Consistent(Fold(st, rows, parse).value)
    decreases |rows|
  {
    if |rows| > 0 {
      var next := AddRow(st, rows[0], parse).value;
      AddRowKeepsConsistent(st, rows[0], parse);
      FoldKeepsConsistent(next, rows[1..], parse);
    }
  }

  /** Ground-truth and answer conservation for a consistent aggregate. */
  lemma Conservation(st: Stats)
    requires Consistent(st)
    ensures st.totalSafeBenchmarks + st.totalUnsafeBenchmarks == |st.rows|
    ensures st.timeSafe + st.timeUnsafe == st.totalTime
    ensures st.numSafeAnswers + st.numUnsafeAnswers + st.numTimeouts + st.numOoms + st.numUnknowns == |st.rows|
  {
    TruthsPartition(st.rows);
    AnswersPartition(st.rows);
    assert TruthCount(st, Safe) == CountTruths(st.rows, Safe);
    assert TruthCount(st, Unsafe) == CountTruths(st.rows, Unsafe);
    assert TruthTime(st, Safe) == SumTimeOf(st.rows, Safe);
    assert TruthTime(st, Unsafe) == SumTimeOf(st.rows, Unsafe);
    assert AnswerCount(st, Safe) == CountAnswers(st.rows, Safe);
    assert AnswerCount(st, Unsafe) == CountAnswers(st.rows, Unsafe);
    assert AnswerCount(st, Timeout) == CountAnswers(st.rows, Timeout);
    assert AnswerCount(st, Oom) == CountAnswers(st.rows, Oom);
    assert AnswerCount(st, Unknown) == CountAnswers(st.rows, Unknown);
  }

  /** With verdict ground truths only, SAFE and UNSAFE split count and time. */
  lemma {:induction false} TruthsPartition(rs: seq<Record>)
    requires forall i :: 0 <= i < |rs| ==> IsVerdict(rs[i].groundTruth)
    ensures CountTruths(rs, Safe) + CountTruths(rs, Unsafe) == |rs|
    ensures SumTimeOf(rs, Safe) + SumTimeOf(rs, Unsafe) == SumTime(rs)
  {
    if |rs| > 0 {
      TruthsPartition(rs[..|rs| - 1]);
    }
  }

  /** Every record is counted under exactly one of the five answers. */
  lemma {:induction false} AnswersPartition(rs: seq<Record>)
    ensures CountAnswers(rs, Safe) + CountAnswers(rs, Unsafe) + CountAnswers(rs, Timeout)
      + CountAnswers(rs, Oom) + CountAnswers(rs, Unknown) == |rs|
  {
    if |rs| > 0 {
      AnswersPartition(rs[..|rs| - 1]);
    }
  }

  /** `Stats.getrow`: the first record with the given name, if any. */
  function GetRow(rows: seq<Record>, name: string): (r: Option<Record>)
    ensures r.None? <==> forall i :: 0 <= i < |rows| ==> rows[i].name != name
    ensures r.Some? ==>
      exists i :: 0 <= i < |rows| && rows[i] == r.value && r.value.name == name
        && forall j :: 0 <= j < i ==> rows[j].name != name
  {
    if |rows| == 0 then None
    else if rows[0].name == name then Some(rows[0])
    else
      var r := GetRow(rows[1..], name);
      assert forall i :: 1 <= i < |rows| ==> rows[i] == rows[1..][i - 1];
      if r.Some? then
        var k :| 0 <= k < |rows[1..]| && rows[1..][k] == r.value && r.value.name == name
          && forall j :: 0 <= j < k ==> rows[1..][j].name != name;
        assert rows[k + 1] == r.value;
        r
      else
        r
  }

  /** The four columns of a scatter row. */
  datatype Bucket = Correct | TimedOut | OutOfMemory | Undecided

  /** A scatter cell: a time, or the placeholder '*'. */
  datatype Cell = Time(seconds: real) | Star

  datatype ScatterRow = ScatterRow(tool: string, correct: Cell, timeout: Cell, oom: Cell, unknown: Cell)

  /** The column an answer's time belongs in: SAFE and UNSAFE answers both
      count as correct, whatever the ground truth. */
  function BucketOf(o: Outcome): Bucket {
    match o
    case Safe => Correct
    case Unsafe => Correct
    case Timeout => TimedOut
    case Oom => OutOfMemory
    case Unknown => Undecided
  }

  function CellAt(sr: ScatterRow, b: Bucket): Cell {
    match b
    case Correct => sr.correct
    case TimedOut => sr.timeout
    case OutOfMemory => sr.oom
    case Undecided => sr.unknown
  }

  /** `Stats.get_scatter_row`: the named benchmark's time in its answer's
      column and '*' in the other three. An absent name fails, as indexing
      csvlib.py's `None` does. */
  function ScatterRowOf(st: Stats, name: string): (r: Result<ScatterRow, Error>)
    ensures r.Failure? <==> forall i :: 0 <= i < |st.rows| ==> st.rows[i].name != name
    ensures r.Failure? ==> r.error == NotFound(name)
    ensures r.Success? ==>
      && r.value.tool == st.tool
      && var x := GetRow(st.rows, name).value;
         forall b :: CellAt(r.value, b) == (if b == BucketOf(x.answer) then Time(x.time) else Star)
  {
    match GetRow(st.rows, name)
    case None => Failure(NotFound(name))
    case Some(x) =>
      match x.answer
      case Safe => Success(ScatterRow(st.tool, Time(x.time), Star, Star, Star))
      case Unsafe => Success(ScatterRow(st.tool, Time(x.time), Star, Star, Star))
      case Timeout => Success(ScatterRow(st.tool, Star, Time(x.time), Star, Star))
      case Oom => Success(ScatterRow(st.tool, Star, Star, Time(x.time), Star))
      case Unknown => Success(ScatterRow(st.tool, Star, Star, Star, Time(x.time)))
  }

  /** Names of the records answered `o`, in record order. */
  function AnsweredNames(rs: seq<Record>, o: Outcome): seq<string> {
    if |rs| == 0 then []
    else AnsweredNames(rs[..|rs| - 1], o) + (if rs[|rs| - 1].answer == o then [rs[|rs| - 1].name] else [])
  }

  /** A name is listed exactly when some record of that name has that answer. */
  lemma {:induction false} AnsweredNamesMembers(rs: seq<Record>, o: Outcome, n: string)
    ensures n in AnsweredNames(rs, o) <==> exists i :: 0 <= i < |rs| && rs[i].name == n && rs[i].answer == o
  {
    if |rs| > 0 {
      var init := rs[..|rs| - 1];
      AnsweredNamesMembers(init, o, n);
      assert forall i :: 0 <= i < |init| ==> init[i] == rs[i];
      if exists i :: 0 <= i < |rs| && rs[i].name == n && rs[i].answer == o {
        var i :| 0 <= i < |rs| && rs[i].name == n && rs[i].answer == o;
        if i < |init| {
          assert init[i].name == n && init[i].answer == o;
        }
      }
    }
  }

  /** The list of names answered `o` is as long as the count of such answers. */
  lemma {:induction false} AnsweredNamesCount(rs: seq<Record>, o: Outcome)
    ensures |AnsweredNames(rs, o)| == CountAnswers(rs, o)
  {
    if |rs| > 0 {
      AnsweredNamesCount(rs[..|rs| - 1], o);
    }
  }

  /** `Stats.solved_benchmarks`: the names answered SAFE and the names
      answered UNSAFE, each in record order; ground truth plays no part. */
  method SolvedBenchmarks(st: Stats) returns (safe: seq<string>, unsafe: seq<string>)
    ensures safe == AnsweredNames(st.rows, Safe)
    ensures unsafe == AnsweredNames(st.rows, Unsafe)
    ensures Consistent(st) ==> |safe| == st.numSafeAnswers && |unsafe| == st.numUnsafeAnswers
  {
    safe, unsafe := [], [];
    var i := 0;
    while i < |st.rows|
      invariant 0 <= i <= |st.rows|
      invariant safe == AnsweredNames(st.rows[..i], Safe)
      invariant unsafe == AnsweredNames(st.rows[..i], Unsafe)
    {
      var x := st.rows[i];
      assert st.rows[..i + 1][..i] == st.rows[..i];
      if x.answer == Safe {
        safe := safe + [x.name];
      }
      if x.answer == Unsafe {
        unsafe := unsafe + [x.name];
      }
      i := i + 1;
    }
    assert st.rows[..i] == st.rows;
    AnsweredNamesCount(st.rows, Safe);
    AnsweredNamesCount(st.rows, Unsafe);
    if Consistent(st) {
      assert AnswerCount(st, Safe) == CountAnswers(st.rows, Safe);
      assert AnswerCount(st, Unsafe) == CountAnswers(st.rows, Unsafe);
    }
  }

  /** A four-field row: the ground truth is UNSAFE whatever the text says. */
  lemma ExampleFourFieldRow(parse: FloatParser)
    requires IsFloat(parse, "1") && parse("3.5") == Some(3.5)
    ensures ParseRow(["b3", "false", "1", "3.5"], parse) == Success(Record("b3", Unsafe, Unsafe, 3.5))
  {
    LowerCaseVerdicts();
  }

  /** Upper-case verdict columns stop the run: matching is case-sensitive. */
  lemma ExampleUpperCaseRows(parse: FloatParser)
    requires !IsFloat(parse, "TRUE") && !IsFloat(parse, "TIMEOUT")
    ensures ParseRow(["b1", "TRUE", "TRUE", "0", "1.23"], parse) == Failure(Unclassified("TRUE"))
    ensures ParseRow(["b2", "FALSE", "TIMEOUT", "4", "900.0"], parse) == Failure(Unclassified("FALSE"))
  {
    UpperCaseVerdictsUnclassified();
  }

  /** One five-field row from an empty aggregate. */
  lemma ExampleFiveFieldRow(parse: FloatParser)
    requires !IsFloat(parse, "true") && parse("1.23") == Some(1.23)
    ensures var r := Fold(Empty("t"), [["b1", "true", "true", "0", "1.23"]], parse);
      && r.Success?
      && r.value.rows == [Record("b1", Safe, Safe, 1.23)]
      && r.value.totalSafeBenchmarks == 1 && r.value.totalUnsafeBenchmarks == 0
      && r.value.numSafeAnswers == 1 && r.value.numUnsafeAnswers == 0
      && r.value.totalTime == 1.23 && r.value.timeSafe == 1.23
  {
    LowerCaseVerdicts();
    var row := ["b1", "true", "true", "0", "1.23"];
    assert ParseRow(row, parse) == Success(Record("b1", Safe, Safe, 1.23));
    assert [row][1..] == [];
  }
}
