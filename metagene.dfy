/** Metagene.py: the validated shape of a metagene (interval plus upstream and
    downstream padding) and its header of position labels. */
module Metagene {
  import opened Wrappers
  import opened Errors
  import opened Text
  import opened MetageneMethods

  /** A metagene shape. `interval` is `feature_interval`; `upstream` and
      `downstream` are the two entries of `padding`. */
  datatype Shape = Shape(interval: nat, upstream: nat, downstream: nat) {
    predicate Valid() {
      interval >= 1
    }

    /** The `length` attribute. */
    function Length(): nat {
      upstream + interval + downstream
    }
  }

  /** Metagene.__init__: the interval must be an integer >= 1 and both paddings
      integers >= 0; the first failing check raises. */
  function Create(interval: PyValue, upstream: PyValue, downstream: PyValue): (r: Result<Shape, Error>)
    ensures r.Success? <==>
              && Integral(interval) && ToInt(interval) >= 1
              && Integral(upstream) && ToInt(upstream) >= 0
              && Integral(downstream) && ToInt(downstream) >= 0
    ensures r.Success? ==>
              && r.value.Valid()
              && r.value.interval == ToInt(interval)
              && r.value.upstream == ToInt(upstream)
              && r.value.downstream == ToInt(downstream)
              && r.value.Length() == ToInt(upstream) + ToInt(interval) + ToInt(downstream)
    ensures !Integral(interval) ==> r == Failure(NotAnInteger("Interval"))
    ensures Integral(interval) && ToInt(interval) < 1 ==> r == Failure(LessThanMinimum("Interval", 1))
  {
    var _ :- ConfirmInteger(interval, "Interval", Some(1), None);
    var _ :- ConfirmInteger(upstream, "Upstream padding", Some(0), None);
    var _ :- ConfirmInteger(downstream, "Downstream padding", Some(0), None);
    Success(Shape(ToInt(interval), ToInt(upstream), ToInt(downstream)))
  }

  /** Metagene.__str__. */
  function Summary(shape: Shape): string {
    "Upstream:" + IntToString(shape.upstream) + " -- Interval:" + IntToString(shape.interval)
    + " -- Downstream:" + IntToString(shape.downstream) + "\tLength:" + IntToString(shape.Length())
  }

  /** `prefix` followed by the plain header's fields for the positions
      `lo` .. `hi - 1`, each written `",{}".format(position)`. */
  function CsvFields(prefix: string, lo: int, hi: int): string
    decreases hi - lo
  {
    if hi <= lo then prefix else CsvFields(prefix, lo, hi - 1) + "," + IntToString(hi - 1)
  }

  /** The pretty header's cells for the positions `lo` .. `hi - 1`, each
      written `"{0:5d},".format(position)`, trailing comma included. */
  function PrettyCells(lo: int, hi: int): (s: string)
    ensures |s| >= (if lo < hi then hi - lo else 0)
    decreases hi - lo
  {
    if hi <= lo then "" else PrettyCells(lo, hi - 1) + Cell(hi - 1)
  }

  /** One cell of the pretty header: `"{0:5d},".format(position)`. */
  function Cell(position: int): (s: string)
    ensures |s| >= 6
  {
    PadLeft(IntToString(position), 5) + ","
  }

  /** The `---up-`/`--int-`/`-down-` ruler of the pretty header. */
  function Ruler(shape: Shape): (s: string)
    ensures |s| == 6 * shape.Length()
  {
    RepeatLength("---up-", shape.upstream);
    RepeatLength("--int-", shape.interval);
    RepeatLength("-down-", shape.downstream);
    Repeat("---up-", shape.upstream) + Repeat("--int-", shape.interval) + Repeat("-down-", shape.downstream)
  }

  /** The first two column names of the plain header. */
  const PlainStart: string := "Feature,Orientation:Gap"

  /** The plain header: a CSV line naming every position. */
  function PlainHeader(shape: Shape): string {
    CsvFields(PlainStart, -(shape.upstream as int), shape.interval + shape.downstream) + "\n"
  }

  /** The pretty header: the ruler line, then the labels without the final comma. */
  function PrettyHeader(shape: Shape): string
    requires shape.Valid()
  {
    var cells := PrettyCells(-(shape.upstream as int), shape.interval + shape.downstream);
    PadRight("Metagene", 15) + "\t\t" + Ruler(shape) + "\n"
    + PadRight("Position", 15) + ":\t" + cells[..|cells| - 1] + "\n"
  }

  /** A marker repeated `n` times is `6 * n` characters long. */
  lemma {:induction false} MarkerRepeatLength(s: string, n: nat)
    requires |s| == 6
    ensures |Repeat(s, n)| == 6 * n
  {
    if n > 0 {
      MarkerRepeatLength(s, n - 1);
    }
  }

  /** Block `k` of a marker repeated `n` times is the marker. */
  lemma {:induction false} MarkerBlock(s: string, n: nat, k: nat)
    requires |s| == 6 && k < n
    ensures |Repeat(s, n)| == 6 * n && Repeat(s, n)[6 * k..6 * k + 6] == s
  {
    MarkerRepeatLength(s, n);
    MarkerRepeatLength(s, n - 1);
    var tail := Repeat(s, n - 1);
    assert Repeat(s, n) == s + tail;
    if k > 0 {
      MarkerBlock(s, n - 1, k - 1);
      assert Repeat(s, n)[6 * k..6 * k + 6] == tail[6 * (k - 1)..6 * (k - 1) + 6];
    }
  }

  /** The ruler has one six-character marker per position of the metagene:
      `---up-` for each upstream position, `--int-` for each interval
      position and `-down-` for each downstream position. */
  lemma RulerMarkers(shape: Shape, k: nat)
    requires k < shape.Length()
    ensures 6 * k + 6 <= |Ruler(shape)|
    ensures Ruler(shape)[6 * k..6 * k + 6]
            == if k < shape.upstream then "---up-"
               else if k < shape.upstream + shape.interval then "--int-"
               else "-down-"
  {
    var up, interval := shape.upstream, shape.interval;
    var a, b, c := Repeat("---up-", up), Repeat("--int-", interval), Repeat("-down-", shape.downstream);
    var r := Ruler(shape);
    MarkerRepeatLength("---up-", up);
    MarkerRepeatLength("--int-", interval);
    assert r == a + b + c;
    if k < up {
      MarkerBlock("---up-", up, k);
      assert r[6 * k..6 * k + 6] == a[6 * k..6 * k + 6];
    } else if k < up + interval {
      MarkerBlock("--int-", interval, k - up);
      assert r[6 * k..6 * k + 6] == b[6 * (k - up)..6 * (k - up) + 6];
    } else {
      MarkerBlock("-down-", shape.downstream, k - up - interval);
      assert r[6 * k..6 * k + 6] == c[6 * (k - up - interval)..6 * (k - up - interval) + 6];
    }
  }

  /** The summary is two tab-separated fields, and the number after
      "Length:" in the second reads back as the metagene's length. */
  lemma SummaryLength(shape: Shape)
    ensures var parts := Split(Summary(shape), '\t');
            && |parts| == 2 && |parts[1]| > 7 && parts[1][..7] == "Length:"
            && IntOfText(parts[1][7..]) == Some(shape.Length() as int)
  {
    var u, i, d := IntToString(shape.upstream), IntToString(shape.interval), IntToString(shape.downstream);
    var l := IntToString(shape.Length());
    var head := "Upstream:" + u + " -- Interval:" + i + " -- Downstream:" + d;
    var tail := "Length:" + l;
    assert Summary(shape) == head + ['\t'] + tail;
    IntToStringChars(shape.upstream, '\t');
    IntToStringChars(shape.interval, '\t');
    IntToStringChars(shape.downstream, '\t');
    IntToStringChars(shape.Length(), '\t');
    assert '\t' !in "Upstream:" && '\t' !in " -- Interval:" && '\t' !in " -- Downstream:" && '\t' !in "Length:";
    JoinPair(head, tail, '\t');
    SplitJoin([head, tail], '\t');
    assert tail[7..] == l;
    IntOfTextToString(shape.Length());
  }

  lemma RepeatStep(s: string, n: nat)
    ensures Repeat(s, n + 1) == Repeat(s, n) + s
  {
    if n > 0 {
      RepeatStep(s, n - 1);
    }
  }

  /** Metagene.print_full: the plain or the pretty header. */
  method PrintFull(shape: Shape, pretty: bool) returns (output: string)
    requires shape.Valid()
    ensures output == if pretty then PrettyHeader(shape) else PlainHeader(shape)
  {
    if pretty {
      output := PrintPretty(shape);
    } else {
      output := PrintPlain(shape);
    }
  }

  /** The plain branch of print_full: three loops append the upstream
      positions -upstream .. -1 (`0 - i` for i from upstream down to 1), the
      interval positions 0 .. interval - 1 and the downstream positions
      interval .. interval + downstream - 1. */
  method PrintPlain(shape: Shape) returns (output: string)
    ensures output == PlainHeader(shape)
  {
    var up, interval, down := shape.upstream, shape.interval, shape.downstream;
    output := PlainStart;
    output := AppendFields(output, -(up as int), -(up as int), up);
    output := AppendFields(output, -(up as int), 0, interval);
    output := AppendFields(output, -(up as int), interval, down);
    output := output + "\n";
  }

  /** One loop of the plain branch: `",{}".format(p)` for the `count`
      positions p from `from` on. */
  method AppendFields(fields: string, lo: int, from: int, count: nat) returns (output: string)
    requires lo <= from && fields == CsvFields(PlainStart, lo, from)
    ensures output == CsvFields(PlainStart, lo, from + count)
  {
    output := fields;
    for p := from to from + count
      invariant output == CsvFields(PlainStart, lo, p)
    {
      output := output + "," + IntToString(p);
    }
  }

  /** The ruler of the pretty branch: three loops append one marker per position. */
  method PrintRuler(shape: Shape) returns (output: string)
    ensures output == Ruler(shape)
  {
    output := "";
    for i := 0 to shape.upstream
      invariant output == Repeat("---up-", i)
    {
      RepeatStep("---up-", i);
      output := output + "---up-";
    }
    ghost var intervalStart := output;
    for i := 0 to shape.interval
      invariant output == intervalStart + Repeat("--int-", i)
    {
      RepeatStep("--int-", i);
      output := output + "--int-";
    }
    ghost var downStart := output;
    for i := 0 to shape.downstream
      invariant output == downStart + Repeat("-down-", i)
    {
      RepeatStep("-down-", i);
      output := output + "-down-";
    }
  }

  /** The positions of the pretty branch: three loops append the cells of
      the upstream, interval and downstream positions, as in PrintPlain. */
  method PrintCells(shape: Shape) returns (output: string)
    ensures output == PrettyCells(-(shape.upstream as int), shape.interval + shape.downstream)
  {
    var up, interval, down := shape.upstream, shape.interval, shape.downstream;
    output := "";
    output := AppendCells(output, -(up as int), -(up as int), up);
    output := AppendCells(output, -(up as int), 0, interval);
    output := AppendCells(output, -(up as int), interval, down);
  }

  /** One loop of the pretty branch: `"{0:5d},".format(p)` for the `count`
      positions p from `from` on. */
  method AppendCells(cells: string, lo: int, from: int, count: nat) returns (output: string)
    requires lo <= from && cells == PrettyCells(lo, from)
    ensures output == PrettyCells(lo, from + count)
  {
    output := cells;
    for p := from to from + count
      invariant output == PrettyCells(lo, p)
    {
      output := output + Cell(p);
    }
  }

  /** The pretty branch of print_full; `output[:-1]` drops the last comma. */
  method PrintPretty(shape: Shape) returns (output: string)
    requires shape.Valid()
    ensures output == PrettyHeader(shape)
  {
    var ruler := PrintRuler(shape);
    output := PadRight("Metagene", 15) + "\t\t" + ruler + "\n";
    output := output + PadRight("Position", 15) + ":\t";
    var cells := PrintCells(shape);
    DropLast(output, cells);
    output := output + cells;
    output := output[..|output| - 1] + "\n";
  }

  /** The fields after the first two columns of the plain header. */
  function FieldTexts(lo: int, hi: int): (t: seq<string>)
    ensures |t| == (if lo < hi then hi - lo else 0)
    ensures forall k :: 0 <= k < |t| ==> t[k] == IntToString(lo + k)
  {
    if hi <= lo then [] else seq(hi - lo, k => IntToString(lo + k))
  }

  /** The two leading column names of the plain header. */
  const PlainColumns: seq<string> := ["Feature", "Orientation:Gap"]

  lemma PlainStartColumns()
    ensures PlainStart == Join(PlainColumns, ',')
    ensures NoSeparator(PlainColumns, ',')
  {
    assert PlainColumns[1..] == ["Orientation:Gap"];
  }

  /** Fields appended after a comma-joined list of columns extend the list. */
  lemma {:induction false} CsvFieldsJoin(prefix: string, heads: seq<string>, lo: int, hi: int)
    requires |heads| >= 1 && prefix == Join(heads, ',')
    ensures CsvFields(prefix, lo, hi) == Join(heads + FieldTexts(lo, hi), ',')
    decreases hi - lo
  {
    if hi <= lo {
      assert heads + FieldTexts(lo, hi) == heads;
    } else {
      CsvFieldsJoin(prefix, heads, lo, hi - 1);
      var before := heads + FieldTexts(lo, hi - 1);
      assert heads + FieldTexts(lo, hi) == before + [IntToString(hi - 1)];
      JoinAppend(before, IntToString(hi - 1), ',');
    }
  }

  /** What test_Metagene.py reads back from the plain header: split at
      commas, it gives the two leading column names and then the decimal text
      of every position in order, from `lo` (-upstream) to `hi - 1`
      (interval + downstream - 1). */
  lemma PlainHeaderColumns(lo: int, hi: int)
    ensures Split(CsvFields(PlainStart, lo, hi), ',') == PlainColumns + FieldTexts(lo, hi)
  {
    PlainStartColumns();
    CsvFieldsJoin(PlainStart, PlainColumns, lo, hi);
    ColumnsFree(PlainColumns, lo, hi);
    SplitJoin(PlainColumns + FieldTexts(lo, hi), ',');
  }

  lemma ColumnsFree(heads: seq<string>, lo: int, hi: int)
    requires NoSeparator(heads, ',')
    ensures NoSeparator(heads + FieldTexts(lo, hi), ',')
  {
    var parts := heads + FieldTexts(lo, hi);
    forall k | 0 <= k < |parts| ensures ',' !in parts[k] {
      if k >= |heads| {
        IntToStringChars(lo + k - |heads|, ',');
      }
    }
  }

  /** The labels of the pretty header's position line for `lo` .. `hi - 1`. */
  function CellTexts(lo: int, hi: int): (t: seq<string>)
    ensures |t| == (if lo < hi then hi - lo else 0)
    ensures forall k :: 0 <= k < |t| ==> t[k] == PadLeft(IntToString(lo + k), 5)
  {
    if hi <= lo then [] else seq(hi - lo, k => PadLeft(IntToString(lo + k), 5))
  }

  /** The cells are the labels, each followed by a comma. */
  lemma {:induction false} PrettyCellsJoin(lo: int, hi: int)
    requires lo < hi
    ensures PrettyCells(lo, hi) == Join(CellTexts(lo, hi), ',') + ","
    decreases hi - lo
  {
    var last := PadLeft(IntToString(hi - 1), 5);
    if hi - 1 == lo {
      assert CellTexts(lo, hi) == [last];
    } else {
      PrettyCellsJoin(lo, hi - 1);
      assert CellTexts(lo, hi) == CellTexts(lo, hi - 1) + [last];
      JoinAppend(CellTexts(lo, hi - 1), last, ',');
    }
  }

  /** The position line of the pretty header, without its last comma, splits
      at commas into one right-aligned label per position from `lo` to
      `hi - 1`; label k reads back as the position lo + k. */
  lemma PrettyPositionLabels(lo: int, hi: int)
    requires lo < hi
    ensures var cells := PrettyCells(lo, hi);
            var labels := Split(cells[..|cells| - 1], ',');
            && |labels| == hi - lo
            && forall k :: 0 <= k < hi - lo ==>
                 labels[k] == PadLeft(IntToString(lo + k), 5) && IntOfText(labels[k]) == Some(lo + k)
  {
    PositionLineSplits(lo, hi);
    CellTextsReadBack(lo, hi);
  }

  /** Each label of the position line reads back as its position. */
  lemma CellTextsReadBack(lo: int, hi: int)
    ensures var texts := CellTexts(lo, hi);
            forall k :: 0 <= k < |texts| ==> IntOfText(texts[k]) == Some(lo + k)
  {
    var texts := CellTexts(lo, hi);
    forall k | 0 <= k < |texts| ensures IntOfText(texts[k]) == Some(lo + k) {
      assert texts[k] == PadLeft(IntToString(lo + k), 5);
      PadLeftReadsBack(lo + k, 5);
    }
  }

  /** The position line without its final comma splits back into its labels. */
  lemma PositionLineSplits(lo: int, hi: int)
    requires lo < hi
    ensures var cells := PrettyCells(lo, hi);
            Split(cells[..|cells| - 1], ',') == CellTexts(lo, hi)
  {
    var texts := CellTexts(lo, hi);
    PrettyCellsJoin(lo, hi);
    DropLast(Join(texts, ','), ",");
    assert PrettyCells(lo, hi)[..|PrettyCells(lo, hi)| - 1] == Join(texts, ',');
    CellTextsAvoid(lo, hi);
    SplitJoin(texts, ',');
  }

  /** No label of the position line holds a comma. */
  lemma CellTextsAvoid(lo: int, hi: int)
    ensures NoSeparator(CellTexts(lo, hi), ',')
  {
    var texts := CellTexts(lo, hi);
    forall k | 0 <= k < |texts| ensures ',' !in texts[k] {
      IntToStringChars(lo + k, ',');
      PadLeftAvoids(IntToString(lo + k), 5, ',');
    }
  }

  /** Invalid shapes of test_Metagene.py are refused. */
  lemma CreateRejects()
    ensures Create(PyFloat(10.2), PyInt(4), PyInt(4)).Failure?
    ensures Create(PyText("ten"), PyInt(4), PyInt(4)).Failure?
    ensures Create(PyInt(0), PyInt(3), PyInt(3)).Failure?
    ensures Create(PyInt(10), PyInt(-3), PyInt(2)).Failure?
    ensures Create(PyInt(10), PyInt(4), PyFloat(4.2)).Failure?
    ensures Create(PyInt(10), PyInt(4), PyText("four")).Failure?
    ensures Create(PyInt(9), PyInt(3), PyInt(3)) == Success(Shape(9, 3, 3))
  {
  }
}
