/** metagene_binning.py: fixed-width windows over one row of metagene counts,
    lines reassembled from a file read in chunks, and the names of the output
    files. */
module Binning {
  import opened Wrappers
  import opened Errors
  import opened Text
  import Resample
  import Features

  // ---------------------------------------------------------------- windows

  /** The first index of window `k`. */
  function Offset(k: nat, step: nat): nat {
    k * step
  }

  lemma OffsetSucc(k: nat, step: nat)
    ensures Offset(k + 1, step) == Offset(k, step) + step
  {
  }

  lemma {:induction false} OffsetMonotone(k: nat, j: nat, step: nat)
    requires k <= j
    ensures Offset(k, step) <= Offset(j, step)
    decreases j - k
  {
    if k < j {
      OffsetMonotone(k, j - 1, step);
      OffsetSucc(j - 1, step);
    }
  }

  /** How many windows of `size` positions, `step` apart, the loop emits for
      a row of `length` counts. */
  function NumWindows(length: nat, size: nat, step: nat): nat
    requires size >= 1 && step >= 1
  {
    if length < size then 0 else (length - size) / step + 1
  }

  /** Window `k` lies inside the row exactly when `k` is below the number of
      windows: every window the loop emits is in bounds, and it stops at the
      first one that is not. */
  lemma WindowsFit(length: nat, size: nat, step: nat, k: nat)
    requires size >= 1 && step >= 1
    ensures Offset(k, step) + size <= length <==> k < NumWindows(length, size, step)
  {
    if length >= size {
      var q := (length - size) / step;
      assert Offset(q, step) <= length - size by {
        assert q * step + (length - size) % step == length - size;
      }
      assert Offset(q + 1, step) > length - size by {
        OffsetSucc(q, step);
        assert q * step + (length - size) % step == length - size;
      }
      if k <= q {
        OffsetMonotone(k, q, step);
      } else {
        OffsetMonotone(q + 1, k, step);
      }
    }
  }

  /** More counts never mean fewer windows. */
  lemma NumWindowsMonotone(a: nat, b: nat, size: nat, step: nat)
    requires size >= 1 && step >= 1 && a <= b
    ensures NumWindows(a, size, step) <= NumWindows(b, size, step)
  {
    var n := NumWindows(a, size, step);
    if n > 0 {
      WindowsFit(a, size, step, n - 1);
      WindowsFit(b, size, step, n - 1);
    }
  }

  /** One output line: the window number, the labels of its first and last
      positions, and the sum of its counts. */
  datatype Bin = Bin(window: nat, inclusiveStart: string, inclusiveEnd: string, coverage: real)

  function Min(a: nat, b: nat): nat {
    if a < b then a else b
  }

  /** Window `k` of the row. */
  function BinAt(counts: seq<real>, positions: seq<string>, size: nat, step: nat, k: nat): Bin
    requires size >= 1 && Offset(k, step) + size <= |counts| && Offset(k, step) + size <= |positions|
  {
    var start := Offset(k, step);
    Bin(k, positions[start], positions[start + size - 1], Resample.Sum(counts[start..start + size]))
  }

  /** The first `n` windows of the row, numbered 0, 1, 2, ... */
  function Bins(counts: seq<real>, positions: seq<string>, size: nat, step: nat, n: nat): (bins: seq<Bin>)
    requires size >= 1 && step >= 1 && n <= NumWindows(Min(|counts|, |positions|), size, step)
    ensures |bins| == n
  {
    seq(n, k requires 0 <= k < n =>
      WindowsFit(Min(|counts|, |positions|), size, step, k);
      BinAt(counts, positions, size, step, k))
  }

  /** The window loop of metagene_binning on one counts line: the bins it
      writes, and the IndexError it stops with when the header has fewer
      labels than the row has counts. A window size or step below 1 is not
      allowed: with a step below 1 the loop never ends. */
  method BinRow(counts: seq<real>, positions: seq<string>, windowSize: nat, stepSize: nat)
    returns (bins: seq<Bin>, failure: Option<Error>)
    requires windowSize >= 1 && stepSize >= 1
    ensures var written := NumWindows(Min(|counts|, |positions|), windowSize, stepSize);
            && bins == Bins(counts, positions, windowSize, stepSize, written)
            && failure == if written < NumWindows(|counts|, windowSize, stepSize) then Some(IndexError) else None
  {
    var labelled := Min(|counts|, |positions|);
    NumWindowsMonotone(labelled, |counts|, windowSize, stepSize);
    var window: nat := 0;
    var exclusiveEnd := windowSize;
    bins := [];
    while exclusiveEnd <= |counts|
      invariant exclusiveEnd == Offset(window, stepSize) + windowSize
      invariant window <= NumWindows(labelled, windowSize, stepSize)
      invariant window < NumWindows(|counts|, windowSize, stepSize) <==> exclusiveEnd <= |counts|
      invariant window < NumWindows(labelled, windowSize, stepSize) <==> exclusiveEnd <= labelled
      invariant bins == Bins(counts, positions, windowSize, stepSize, window)
      decreases |counts| - exclusiveEnd
    {
      var inclusiveStart := exclusiveEnd - windowSize;
      var coverage := WindowSum(counts, inclusiveStart, exclusiveEnd);
      if exclusiveEnd > |positions| {
        return bins, Some(IndexError);
      }
      bins := bins + [Bin(window, positions[inclusiveStart], positions[exclusiveEnd - 1], coverage)];
      OffsetSucc(window, stepSize);
      window := window + 1;
      exclusiveEnd := exclusiveEnd + stepSize;
      WindowsFit(|counts|, windowSize, stepSize, window);
      WindowsFit(labelled, windowSize, stepSize, window);
    }
    failure := None;
  }

  /** The coverage loop: the counts of one window added up in order. */
  method WindowSum(counts: seq<real>, lo: nat, hi: nat) returns (coverage: real)
    requires lo <= hi <= |counts|
    ensures coverage == Resample.Sum(counts[lo..hi])
  {
    coverage := 0.0;
    for i := lo to hi
      invariant coverage == Resample.Sum(counts[lo..i])
    {
      assert counts[lo..i + 1][..i - lo] == counts[lo..i];
      coverage := coverage + counts[i];
    }
  }

  /** The total coverage of a list of bins. */
  function Coverage(bins: seq<Bin>): real {
    if bins == [] then 0.0 else Coverage(bins[..|bins| - 1]) + bins[|bins| - 1].coverage
  }

  lemma {:induction false} SumAppend(a: seq<real>, b: seq<real>)
    ensures Resample.Sum(a + b) == Resample.Sum(a) + Resample.Sum(b)
    decreases |b|
  {
    if b == [] {
      assert a + b == a;
    } else {
      SumAppend(a, b[..|b| - 1]);
      assert (a + b)[..|a + b| - 1] == a + b[..|b| - 1];
      assert (a + b)[|a + b| - 1] == b[|b| - 1];
    }
  }

  /** Windows as wide as their step tile the row: together they cover every
      count up to the last whole window once. */
  lemma {:induction false} TilesConserve(counts: seq<real>, positions: seq<string>, size: nat, n: nat)
    requires size >= 1 && n <= NumWindows(Min(|counts|, |positions|), size, size)
    ensures Offset(n, size) <= |counts|
    ensures Coverage(Bins(counts, positions, size, size, n)) == Resample.Sum(counts[..Offset(n, size)])
    decreases n
  {
    var bins := Bins(counts, positions, size, size, n);
    if n == 0 {
      assert counts[..Offset(0, size)] == [];
    } else {
      WindowsFit(Min(|counts|, |positions|), size, size, n - 1);
      TilesConserve(counts, positions, size, n - 1);
      OffsetSucc(n - 1, size);
      var lo, hi := Offset(n - 1, size), Offset(n, size);
      assert bins[..n - 1] == Bins(counts, positions, size, size, n - 1);
      assert counts[..hi] == counts[..lo] + counts[lo..hi];
      SumAppend(counts[..lo], counts[lo..hi]);
    }
  }

  /** `(orientation, gap) = group.split(":")`: exactly one ':' or ValueError. */
  function GroupOf(group: string): (r: Result<(string, string), Error>)
    ensures r.Success? ==> ':' !in r.value.0 && ':' !in r.value.1
  {
    var pieces := Split(group, ':');
    SplitPieces(group, ':');
    if |pieces| == 2 then Success((pieces[0], pieces[1])) else Failure(ValueError(group))
  }

  /** The key of a count array splits back into its orientation and gap status. */
  lemma GroupOfKey(orientation: string, gap: string)
    requires ':' !in orientation && ':' !in gap
    ensures GroupOf(Features.Key(orientation, gap)) == Success((orientation, gap))
  {
    assert Features.Key(orientation, gap) == Join([orientation, gap], ':');
    SplitJoin([orientation, gap], ':');
  }

  // ---------------------------------------------------------------- output names

  /** "{prefix}.{window}bpX{step}bp". */
  function BaseFile(prefix: string, windowSize: int, stepSize: int): string {
    prefix + "." + IntToString(windowSize) + "bpX" + IntToString(stepSize) + "bp"
  }

  /** The file a group's bins go to. */
  function OutputName(base: string, group: string, separateGroups: bool): string {
    if separateGroups then base + "." + Join(Split(group, ':'), '_') + ".csv" else base + ".all.csv"
  }

  /** The naming part of build_output_filenames: one entry per group. */
  method NameOutputs(prefix: string, windowSize: int, stepSize: int, separateGroups: bool, groups: seq<string>)
    returns (outfiles: map<string, string>)
    ensures forall g :: g in outfiles <==> g in groups
    ensures forall g :: g in outfiles ==> outfiles[g] == OutputName(BaseFile(prefix, windowSize, stepSize), g, separateGroups)
  {
    var basefile := BaseFile(prefix, windowSize, stepSize);
    outfiles := map[];
    for i := 0 to |groups|
      invariant forall g :: g in outfiles <==> g in groups[..i]
      invariant forall g :: g in outfiles ==> outfiles[g] == OutputName(basefile, g, separateGroups)
    {
      if separateGroups {
        outfiles := outfiles[groups[i] := basefile + "." + Join(Split(groups[i], ':'), '_') + ".csv"];
      } else {
        outfiles := outfiles[groups[i] := basefile + ".all.csv"];
      }
    }
    assert groups[..|groups|] == groups;
  }

  /** Without separate groups every group shares one file. */
  lemma SharedOutput(base: string, g: string, h: string)
    ensures OutputName(base, g, false) == OutputName(base, h, false) == base + ".all.csv"
  {
  }

  /** With separate groups, the file of group "o:g" is ".o_g.csv". */
  lemma SeparateOutput(base: string, orientation: string, gap: string)
    requires ':' !in orientation && ':' !in gap
    ensures OutputName(base, Features.Key(orientation, gap), true) == base + "." + (orientation + "_" + gap) + ".csv"
  {
    assert Features.Key(orientation, gap) == Join([orientation, gap], ':');
    SplitJoin([orientation, gap], ':');
    JoinPair(orientation, gap, '_');
  }

  /** With separate groups, distinct count keys never share a file. */
  lemma SeparateOutputsDistinct(base: string, o1: string, g1: string, o2: string, g2: string)
    requires ':' !in o1 && ':' !in g1 && ':' !in o2 && ':' !in g2
    requires '_' !in o1 && '_' !in g1 && '_' !in o2 && '_' !in g2
    requires Features.Key(o1, g1) != Features.Key(o2, g2)
    ensures OutputName(base, Features.Key(o1, g1), true) != OutputName(base, Features.Key(o2, g2), true)
  {
    SeparateOutput(base, o1, g1);
    SeparateOutput(base, o2, g2);
    var m1, m2 := o1 + "_" + g1, o2 + "_" + g2;
    var p := base + ".";
    var n1, n2 := p + m1 + ".csv", p + m2 + ".csv";
    if n1 == n2 {
      assert |m1| == |m2|;
      assert m1 == n1[|p|..|p| + |m1|];
      assert m2 == n2[|p|..|p| + |m2|];
      JoinPair(o1, g1, '_');
      JoinPair(o2, g2, '_');
      SplitJoin([o1, g1], '_');
      SplitJoin([o2, g2], '_');
    }
  }

  // ---------------------------------------------------------------- read_chunk

  /** Lines with their newlines put back. */
  function Unlines(lines: seq<string>): string
    decreases |lines|
  {
    if lines == [] then "" else lines[0] + "\n" + Unlines(lines[1..])
  }

  predicate NoNewlines(lines: seq<string>) {
    forall i :: 0 <= i < |lines| ==> '\n' !in lines[i]
  }

  /** The newline-terminated lines of `data`. */
  function Lines(data: string): (r: seq<string>)
    ensures NoNewlines(r)
    ensures |r| <= |data|
  {
    if data == [] then [] else
      var pieces := Split(data, '\n');
      SplitPieces(data, '\n');
      pieces[..|pieces| - 1]
  }

  lemma {:induction false} UnlinesAppend(a: seq<string>, b: seq<string>)
    ensures Unlines(a + b) == Unlines(a) + Unlines(b)
    decreases |a|
  {
    if a == [] {
      assert a + b == b;
    } else {
      assert (a + b)[1..] == a[1..] + b;
      assert (a + b)[0] == a[0];
      UnlinesAppend(a[1..], b);
    }
  }

  /** `"\n".join(pieces)`: the lines before the last piece, then the last piece. */
  lemma {:induction false} JoinUnlines(pieces: seq<string>)
    requires |pieces| >= 1
    ensures Join(pieces, '\n') == Unlines(pieces[..|pieces| - 1]) + pieces[|pieces| - 1]
    decreases |pieces|
  {
    if |pieces| > 1 {
      JoinUnlines(pieces[1..]);
      assert pieces[1..][..|pieces| - 2] == pieces[..|pieces| - 1][1..];
    }
  }

  /** A text has only one first line. */
  lemma SameFirstLine(s: string, x: string, y: string)
    requires '\n' !in x && '\n' !in y
    requires |x| < |s| && s[..|x|] == x && s[|x|] == '\n'
    requires |y| < |s| && s[..|y|] == y && s[|y|] == '\n'
    ensures x == y
  {
    assert forall i :: 0 <= i < |x| ==> s[i] == x[i];
    assert forall i :: 0 <= i < |y| ==> s[i] == y[i];
  }

  /** Newline-free lines are recovered from the text they make up. */
  lemma {:induction false} UnlinesInjective(a: seq<string>, b: seq<string>)
    requires NoNewlines(a) && NoNewlines(b) && Unlines(a) == Unlines(b)
    ensures a == b
    decreases |a|
  {
    if a != [] && b != [] {
      var s := Unlines(a);
      var x, y := a[0], b[0];
      assert s == x + ("\n" + Unlines(a[1..]));
      assert s == y + ("\n" + Unlines(b[1..]));
      SameFirstLine(s, x, y);
      assert s == x + ("\n" + Unlines(a[1..])) == y + ("\n" + Unlines(b[1..]));
      assert Unlines(a[1..]) == s[|x| + 1..] == Unlines(b[1..]);
      UnlinesInjective(a[1..], b[1..]);
      assert a == [x] + a[1..] && b == [y] + b[1..];
    }
  }

  /** Text that is empty or ends in a newline is exactly its lines, each with
      its newline. */
  lemma LinesUnlines(data: string)
    requires data == [] || data[|data| - 1] == '\n'
    ensures NoNewlines(Lines(data)) && Unlines(Lines(data)) == data
  {
    if data != [] {
      var pieces := Split(data, '\n');
      SplitPieces(data, '\n');
      JoinUnlines(pieces);
    }
  }

  /** Newline-free lines put back together split into the same lines. */
  lemma UnlinesLines(lines: seq<string>)
    requires NoNewlines(lines)
    ensures Lines(Unlines(lines)) == lines
  {
    var data := Unlines(lines);
    if lines != [] {
      assert data == lines[0] + "\n" + Unlines(lines[1..]);
      assert data[|data| - 1] == '\n' by {
        UnlinesEndsWithNewline(lines);
      }
    }
    LinesUnlines(data);
    UnlinesInjective(Lines(data), lines);
  }

  lemma {:induction false} UnlinesEndsWithNewline(lines: seq<string>)
    requires lines != []
    ensures var s := Unlines(lines); s != [] && s[|s| - 1] == '\n'
    decreases |lines|
  {
    if |lines| > 1 {
      UnlinesEndsWithNewline(lines[1..]);
    }
  }

  /** `file_obj.read(size)` at offset `pos`: `size` characters or what is
      left, everything left for a negative size, nothing for size 0. */
  function FileRead(data: string, pos: nat, size: int): (r: string)
    requires pos <= |data|
    ensures pos + |r| <= |data| && r == data[pos..pos + |r|]
    ensures size != 0 && pos < |data| ==> r != []
    ensures size < 0 ==> pos + |r| == |data|
    ensures size == 0 ==> r == []
  {
    if size < 0 || pos + size >= |data| then data[pos..] else data[pos..pos + size]
  }

  /** The last piece of a split that ends with the separator is empty. */
  lemma SplitEndsWithSeparator(s: string, sep: char)
    requires s != [] && s[|s| - 1] == sep
    ensures var pieces := Split(s, sep); pieces[|pieces| - 1] == []
  {
    var pieces := Split(s, sep);
    SplitPieces(s, sep);
    var last := pieces[|pieces| - 1];
    if last != [] {
      JoinLast(pieces, sep);
    }
  }

  /** One pass of the read_chunk loop: the complete lines of the chunk are
      yielded and the incomplete last one is kept. */
  lemma ChunkStep(before: seq<string>, chunk: string, prefix: string)
    requires NoNewlines(before) && Unlines(before) + chunk == prefix
    ensures var pieces := Split(chunk, '\n');
            && NoNewlines(before + pieces[..|pieces| - 1])
            && Unlines(before + pieces[..|pieces| - 1]) + pieces[|pieces| - 1] == prefix
            && (chunk != [] && prefix[|prefix| - 1] == '\n' ==> pieces[|pieces| - 1] == [])
  {
    ChunkLines(before, chunk, prefix);
    if chunk != [] && prefix[|prefix| - 1] == '\n' {
      assert chunk[|chunk| - 1] == prefix[|prefix| - 1];
      SplitEndsWithSeparator(chunk, '\n');
    }
  }

  lemma ChunkLines(before: seq<string>, chunk: string, prefix: string)
    requires NoNewlines(before) && Unlines(before) + chunk == prefix
    ensures var pieces := Split(chunk, '\n');
            && NoNewlines(before + pieces[..|pieces| - 1])
            && Unlines(before + pieces[..|pieces| - 1]) + pieces[|pieces| - 1] == prefix
  {
    var pieces := Split(chunk, '\n');
    var complete := pieces[..|pieces| - 1];
    SplitPieces(chunk, '\n');
    JoinUnlines(pieces);
    UnlinesAppend(before, complete);
    assert NoNewlines(complete);
    assert Unlines(before + complete) + pieces[|pieces| - 1] == Unlines(before) + (Unlines(complete) + pieces[|pieces| - 1]);
  }

  /** The inner loop of read_chunk: every piece of the split chunk but the
      last is a complete line and is yielded. */
  method YieldComplete(lines: seq<string>, chunkList: seq<string>) returns (lines': seq<string>)
    requires |chunkList| >= 1
    ensures lines' == lines + chunkList[..|chunkList| - 1]
  {
    lines' := lines;
    for k := 0 to |chunkList| - 1
      invariant lines' == lines + chunkList[..k]
    {
      assert chunkList[..k + 1] == chunkList[..k] + [chunkList[k]];
      lines' := lines' + [chunkList[k]];
    }
  }

  /** The text read so far grows by the next read. */
  lemma ReadOn(data: string, pos: nat, done: string, leftover: string, rest: string)
    requires pos + |rest| <= |data| && rest == data[pos..pos + |rest|]
    requires done + leftover == data[..pos]
    ensures done + (leftover + rest) == data[..pos + |rest|]
  {
    assert data[..pos + |rest|] == data[..pos] + rest;
  }

  /** read_chunk, its yields collected in order. The text must end with a
      newline (or be empty): otherwise the loop never ends. */
  method ReadChunk(data: string, chunkSize: int) returns (lines: seq<string>)
    requires data == [] || data[|data| - 1] == '\n'
    ensures chunkSize == 0 ==> lines == []
    ensures chunkSize != 0 ==> lines == Lines(data)
  {
    var pos := 0;
    var chunk := FileRead(data, pos, chunkSize);
    pos := pos + |chunk|;
    lines := [];
    while chunk != []
      invariant pos <= |data|
      invariant Unlines(lines) + chunk == data[..pos]
      invariant NoNewlines(lines)
      invariant chunk == [] ==> pos == |data| || chunkSize == 0
      invariant chunkSize == 0 ==> chunk == [] && lines == []
      decreases 2 * (|data| - pos) + (if chunk == [] then 0 else 1)
    {
      var chunkList := Split(chunk, '\n');
      ghost var before := lines;
      lines := YieldComplete(lines, chunkList);
      ChunkStep(before, chunk, data[..pos]);
      var leftover := chunkList[|chunkList| - 1];
      assert pos == |data| ==> data[..pos] == data;
      var rest := FileRead(data, pos, chunkSize);
      ReadOn(data, pos, Unlines(lines), leftover, rest);
      chunk := leftover + rest;
      pos := pos + |rest|;
    }
    if chunkSize != 0 {
      assert data[..pos] == data;
      LinesUnlines(data);
      UnlinesInjective(lines, Lines(data));
    }
  }

  /** One pass of the read_chunk loop as written, on the state it carries
      (the chunk, the offset into the file): the next chunk, the next offset
      and the lines yielded. */
  function ChunkPass(data: string, pos: nat, chunk: string, chunkSize: int): (r: (string, nat, seq<string>))
    requires pos <= |data|
    ensures pos <= r.1 <= |data| && NoNewlines(r.2)
    ensures Unlines(r.2) + r.0 == chunk + data[pos..r.1]
  {
    var pieces := Split(chunk, '\n');
    var rest := FileRead(data, pos, chunkSize);
    PassPieces(chunk, rest);
    (pieces[|pieces| - 1] + rest, pos + |rest|, pieces[..|pieces| - 1])
  }

  /** The complete lines of a chunk and its last piece followed by `rest` make
      up the chunk followed by `rest`. */
  lemma PassPieces(chunk: string, rest: string)
    ensures var pieces := Split(chunk, '\n');
            && NoNewlines(pieces[..|pieces| - 1])
            && Unlines(pieces[..|pieces| - 1]) + (pieces[|pieces| - 1] + rest) == chunk + rest
  {
    var pieces := Split(chunk, '\n');
    var complete, last := pieces[..|pieces| - 1], pieces[|pieces| - 1];
    ChunkLines([], chunk, chunk);
    assert [] + complete == complete;
    assert Unlines(complete) + last == chunk;
    assert Unlines(complete) + (last + rest) == (Unlines(complete) + last) + rest;
  }

  /** At the end of the file a non-empty chunk without a newline comes back
      unchanged, nothing is yielded and the loop guard stays true: read_chunk
      never returns on a file whose last line lacks its newline. */
  lemma ChunkPassStuck(data: string, chunk: string, chunkSize: int)
    requires chunk != [] && '\n' !in chunk
    ensures ChunkPass(data, |data|, chunk, chunkSize) == (chunk, |data|, [])
  {
    SplitNoSeparator(chunk, '\n');
    assert FileRead(data, |data|, chunkSize) == [];
    assert Split(chunk, '\n')[..0] == [];
    assert chunk + [] == chunk;
  }

  /** The smallest such file: "a" read one character at a time. */
  lemma ChunkPassStuckOnA()
    ensures FileRead("a", 0, 1) == "a"
    ensures ChunkPass("a", 1, "a", 1) == ("a", 1, [])
  {
    ChunkPassStuck("a", "a", 1);
  }

  /** The lines read_chunk is meant to yield: every line of the text, the last
      one also when it has no newline. */
  function AllLines(data: string): (r: seq<string>)
    ensures NoNewlines(r)
    ensures data == [] || data[|data| - 1] == '\n' ==> r == Lines(data)
  {
    var closed := if data == [] || data[|data| - 1] == '\n' then data else data + "\n";
    LinesUnlines(closed);
    Lines(closed)
  }

  /** read_chunk with the end of the file handled: once a read comes back
      empty, the kept partial line is yielded and the loop stops. */
  method ReadChunkToEnd(data: string, chunkSize: int) returns (lines: seq<string>)
    ensures chunkSize == 0 ==> lines == []
    ensures chunkSize != 0 ==> lines == AllLines(data)
  {
    var pos := 0;
    var chunk := FileRead(data, pos, chunkSize);
    pos := pos + |chunk|;
    lines := [];
    var atEnd := chunk == [];
    while !atEnd
      invariant pos <= |data|
      invariant Unlines(lines) + chunk == data[..pos]
      invariant NoNewlines(lines)
      invariant atEnd ==> '\n' !in chunk && (pos == |data| || chunkSize == 0)
      invariant chunkSize == 0 ==> atEnd && chunk == [] && lines == []
      decreases 2 * (|data| - pos) + (if atEnd then 0 else 1)
    {
      var chunkList := Split(chunk, '\n');
      ghost var before := lines;
      lines := YieldComplete(lines, chunkList);
      ChunkStep(before, chunk, data[..pos]);
      SplitPieces(chunk, '\n');
      var leftover := chunkList[|chunkList| - 1];
      var rest := FileRead(data, pos, chunkSize);
      if rest == [] {
        chunk := leftover;
        atEnd := true;
      } else {
        ReadOn(data, pos, Unlines(lines), leftover, rest);
        chunk := leftover + rest;
        pos := pos + |rest|;
      }
    }
    if chunkSize != 0 {
      assert data[..pos] == data;
      FinalLines(lines, chunk, data);
      if chunk != [] {
        lines := lines + [chunk];
      }
    }
  }

  /** The lines yielded and the partial line kept at the end of the file are
      all the lines of the text. */
  lemma FinalLines(lines: seq<string>, chunk: string, data: string)
    requires NoNewlines(lines) && '\n' !in chunk && Unlines(lines) + chunk == data
    ensures chunk == [] ==> lines == AllLines(data)
    ensures chunk != [] ==> lines + [chunk] == AllLines(data)
  {
    var all := if chunk == [] then lines else lines + [chunk];
    if chunk == [] {
      assert Unlines(lines) == data;
      if lines != [] {
        UnlinesEndsWithNewline(lines);
      }
    } else {
      assert data[|data| - 1] == chunk[|chunk| - 1];
      UnlinesAppend(lines, [chunk]);
      assert Unlines([chunk]) == chunk + "\n";
      assert Unlines(all) == data + "\n";
    }
    UnlinesLines(all);
  }
}
