# metagene_analysis core in Dafny

metagene_analysis turns aligned sequencing reads into fixed-length "metagene"
profiles. A profile has upstream padding, a resampled interval and downstream
padding, and one profile is built per feature (gene, transcript …) and per read
subset (sense or antisense, gapped or ungapped). The repository's Python 2 core
does this in five files. This project models each of them as one Dafny module
and proves the properties the code and its tests promise.

| module | file | what it models |
|---|---|---|
| `MetageneMethods` | `metageneMethods.py` | `confirm_integer` over the Python values it is given (`PyInt`, `PyFloat`, `PyText`) |
| `Metagene` | `Metagene.py` | the immutable metagene shape (a datatype) and the two headers of `print_full`, built by loops as in the source |
| `Reads` | `Read.py` | CIGAR expansion (`build_positions`), the FLAG parser, `Read.__init__` (in place on an array, as the source reverses the caller's list), `confirm_int` and `create_from_sam` |
| `Resample` | `Feature.py` | `adjust_to_metagene`, the carry-based resampler, proved against a cumulative-mass specification and the overlap formula |
| `Features` | `Feature.py` | the `Feature` class: construction of the window and zeroed count arrays, `count_read` (a method that updates the `counts` field), `print_metagene`, the two region reports, and the BED and GFF readers |
| `Binning` | `metagene_binning.py` | the sliding-window loop, `read_chunk` over a file given as a string, and the output file names |
| `Text`, `Wrappers`, `Errors` | — | Python's `int`, `str`, `split`, `join`, `strip`, `bin`, `zfill`, padding and repetition on `seq<char>`; `Option`/`Result`; one error constructor per exception the core raises |

Decisions that shape the model:

- An exception becomes a `Failure` carrying an `Error` constructor. The constructor names the message of the `MetageneError`, or the Python built-in exception (`KeyError`, `IndexError`, `ValueError`) that escapes.
- Python floats (abundance/mappings, counts, the resampler's running variables) are `real`. This makes conservation and exact output length provable.
- `Feature.chromosome_conversion` and `Read.chromosome_sizes` are global tables in the source. Here they are the parameters `conversion` and `sizes`; `create_from_sam` receives the set of conversion values.
- Where the specification and the code differ, the model follows the code:
  - `P` advances the reference position (Read.py:219), which the SAM standard does not say.
  - A CIGAR `*` with sequence `*` yields `[start]`, one position per character of the sequence text (Read.py:195-199). The tests expect an error there instead.
  - `parse_sam_bitwise_flag` takes one argument and returns three flags, not the policy-driven pair the tests call it with.

## Model

| member | source | states |
|---|---|---|
| MetageneMethods.ConfirmInteger | metageneMethods.py:42-66 | Succeeds, always with `True`, exactly when the value is integral and lies within each bound that is given (a `None` bound is not checked). A non-integral value or unreadable text fails with "is not an integer". Both bounds violated gives "outside of boundaries", only the minimum "less than minimum", only the maximum "greater than maximum". |
| MetageneMethods.OutsideBoundariesNeedsCrossedBounds | metageneMethods.py:58-60 | "outside of boundaries" can only be raised when minimum > maximum |
| MetageneMethods.ToInt | metageneMethods.py:43 | the integer conversion of an integral value is equal to the value (`value == int(value)`) |
| Metagene.Create | Metagene.py:65-82 | Succeeds exactly when the interval is integral and ≥ 1 and both paddings are integral and ≥ 0. On success the fields are those integers and the length is upstream + interval + downstream; the interval's two errors are named. |
| Metagene.CreateRejects | Metagene.py:73-79 | The inputs 10.2, "ten", 0, -3, 4.2 and "four" are each rejected. (9, 3, 3) gives the shape with those fields. |
| Metagene.SummaryLength | Metagene.py:87-88 | `__str__` has exactly one tab; the text after it is `Length:` followed by the length, which `int` reads back |
| Metagene.PrintFull | Metagene.py:90-133 | the output is the pretty header when `pretty`, otherwise the plain header |
| Metagene.PrintPlain | Metagene.py:122-132 | the three loops build `Feature,Orientation:Gap`, a field `,p` for each position p from -upstream to interval+downstream-1, and a newline |
| Metagene.AppendFields | Metagene.py:126-131 | one loop appends the next `count` consecutive position fields |
| Metagene.PlainHeaderColumns | Metagene.py:125-132 | Split at commas, the plain header gives the two column names, then one label `str(lo + k)` for each k below hi - lo: consecutive integers |
| Metagene.FieldTexts | Metagene.py:126-131 | there are `hi - lo` labels and label k is `str(lo + k)` |
| Metagene.CsvFieldsJoin | Metagene.py:125-131 | the plain header is the comma join of the column names and the labels |
| Metagene.ColumnsFree | Metagene.py:125-131 | no label contains a comma, so splitting gives every label back |
| Metagene.PlainStartColumns | Metagene.py:125 | the first two columns are `Feature` and `Orientation:Gap` |
| Metagene.PrintPretty | Metagene.py:100-120 | the output is the ruler line, then the position cells with the last comma dropped |
| Metagene.PrintRuler | Metagene.py:102-109 | the three loops build the ruler |
| Metagene.Ruler | Metagene.py:103-108 | the ruler has six characters per position of the metagene |
| Metagene.RulerMarkers | Metagene.py:103-108 | Block k of the ruler is `---up-` for the first `upstream` positions, `--int-` for the next `interval` and `-down-` for the rest. So there are exactly that many markers of each kind, in that order. |
| Metagene.PrintCells | Metagene.py:113-119 | the three loops write one cell per position from -upstream to interval+downstream-1 |
| Metagene.AppendCells | Metagene.py:114-119 | one loop appends the next `count` consecutive cells |
| Metagene.PrettyCells | Metagene.py:114-119 | the cells take at least one character per position |
| Metagene.CellTexts | Metagene.py:113-119 | label k of the position line is position lo + k, right-aligned in five characters |
| Metagene.PrettyCellsJoin | Metagene.py:113-120 | the position line is its labels joined by commas, with a final comma |
| Metagene.PrettyPositionLabels | Metagene.py:113-120 | Without its final comma, the position line splits at commas into one label per position. Label k is `str(lo + k)` right-aligned in five characters and reads back as lo + k. |
| Metagene.PositionLineSplits | Metagene.py:113-120 | the position line without its final comma splits at commas into exactly its labels |
| Metagene.CellTextsReadBack | Metagene.py:113-119 | label k of the position line reads back as the integer lo + k |
| Metagene.Cell | Metagene.py:115 | a cell `"{0:5d},"` is at least six characters long |
| Metagene.MarkerBlock | Metagene.py:103-108 | block k of `n` repetitions of a six-character marker is that marker |
| Reads.NormaliseStrand | Read.py:61-63 | `+` gives Plus, `-` gives Minus, and any other text gives the unstranded `.` |
| Reads.NormaliseSymbol | Read.py:61-63 | normalising the symbol of a strand gives that strand back |
| Reads.OpOf | Read.py:203-221 | a code is known only if it is one of the nine table keys `MIDNSHP=X` |
| Reads.OpOfCode | Read.py:203-221 | every operation's code is found in the tables |
| Reads.TokensOfCigar | Read.py:223-224 | Tokenizing CIGAR text written from well-formed operations gives those operations back. This pairs the `findall`/`split` of the source with their inverse. |
| Reads.TokensFromCigar | Read.py:223-224 | the same, for text that starts with a count |
| Reads.TokensFromCigarThen | Read.py:223-224 | CIGAR text followed by more text that starts with a count tokenizes as its operations followed by that text's |
| Reads.TokenFront | Read.py:223-224 | a count and its code in front of further text give one token in front of that text's tokens |
| Reads.CigarMisordered | Read.py:223-230 | A CIGAR string with its codes before their counts (`M5N4M5`) loses the leading code and leaves an empty code after the last count. The walk therefore fails with a KeyError. |
| Reads.Range | Read.py:195-199 | `count` consecutive positions from `p` |
| Reads.ExpandLength | Read.py:227-234 | the positions of a CIGAR walk number the summed counts of its `M`, `=` and `X` operations |
| Reads.ExpandIncreasing | Read.py:227-234 | the positions of a CIGAR walk are strictly increasing and all ≥ the start |
| Reads.Positions | Read.py:187-234 | CIGAR `*` gives one position per base of the sequence. Otherwise a successful walk gives the summed counts of `M`, `=` and `X`. Either way the positions strictly increase from the start. |
| Reads.ExpandFails | Read.py:229-230 | the walk fails exactly when some operation with a non-zero count has a code outside the tables |
| Reads.ExpandStep | Read.py:229-233 | one base of a known operation is emitted if the operation is `M`, `=` or `X`, and moves the position if it consumes the reference (`M`, `D`, `N`, `P`, `=`, `X`) |
| Reads.WalkStep | Read.py:229-233 | the loop's two updates keep the positions still to be produced equal to the walk of what is left |
| Reads.BuildPositions | Read.py:187-234 | the nested loops compute exactly the specification `Positions`, including the KeyError on an unknown code |
| Reads.MatchPositions | Read.py:195-199 | for CIGAR `*` the loop yields `len(seq)` consecutive positions from start |
| Reads.WalkOperation | Read.py:229-233 | The inner loop over one operation moves the walk on by that operation. It stops early (a KeyError) exactly when the count is non-zero and the code is unknown. |
| Reads.CigarStarExample | Read.py:195-199 | `*` with sequence `aaaaa` from 1 gives 1..5 |
| Reads.CigarDeletionExample | Read.py:213-216 | `5M4D5M` from 1 gives 1..5, 10..14 |
| Reads.CigarPaddingExample | Read.py:219 | `3P5M` from 1 gives 4..8: padding advances the reference |
| Reads.CigarHardClipExample | Read.py:208 | `3H5M3H` from 4 gives 4..8 |
| Reads.CigarIllegalExample | Read.py:230 | `5M4B` raises KeyError on `B` |
| Reads.ParseFlag | Read.py:155-183 | for every FLAG f ≥ 0 the three flags are f&0x1, f&0x4 and f&0x10, read from the zero-filled binary text |
| Reads.FlagBitOfZFill | Read.py:166-181 | in the zero-filled binary text, the digit k places from the end is bit k |
| Reads.BinaryDigitFromEnd | Read.py:166 | the digit k places from the end of `bin(n)` is bit k of n, and bits beyond its length are 0 |
| Reads.ZFillFromEnd | Read.py:166 | `zfill(8)` keeps the last digits and puts zeros before them |
| Reads.Reversed | Read.py:64-65 | the list reversed: element i is element `len-1-i` |
| Reads.ReversedReversed | Read.py:64-65 | reversing twice gives the list back |
| Reads.ConfirmInt | Read.py:240-247 | Accepts an integral number, or text that `int` reads, and yields that integer. Anything else raises "must be an integer". |
| Reads.NewRead | Read.py:58-84 | The strand is normalised and the positions are reversed for `-`. Abundance must be an integer ≥ 0. With a valid abundance, mappings `Unknown` gives exactly the read with mappings 1 and without `has_mappings`. Mappings text that is not an integer fails with "must be an integer" for Mappings, and an integer ≤ 0 fails with the not-positive error; otherwise `has_mappings` is set. |
| Reads.Construct | Read.py:58-84 | The caller's array is reversed in place exactly when the strand is `-`. The result is the read `NewRead` describes. |
| Reads.MinusReadDescends | Read.py:64-68 | a minus-strand read made from increasing positions lists them in decreasing order, 5′ end first |
| Reads.FindWrittenTag | Read.py:126-133 | a tag written as `NH:i:`/`NA:i:` and a number is found with that number |
| Reads.CreateFromSam | Read.py:93-150 | a line that does not raise has a readable FLAG field |
| Reads.CreateFromSamRejects | Read.py:104-150 | A line with fewer than three fields fails with IndexError. A chromosome outside the analysis set is an error, and so is FLAG 0x1. FLAG 0x4 gives the non-aligning result. A missing `NA:i:` tag is an error when abundance is extracted. |
| Reads.AbundanceMissing | Read.py:131-135 | an aligned line without an `NA:i:` tag fails when abundance is extracted |
| Reads.DecodeAlignedRead | Read.py:120-148 | The aligned read built from a line has the positions of its CIGAR walk, reversed when 0x10 is set. Its strand is `-` exactly when 0x10 is set. Mappings are 1 when `unique`. Otherwise mappings are the NH tag's number, or 1 without the tag, and `has_mappings` is set exactly when the line has an NH tag. Abundance is 1 unless extracted from the NA tag. |
| Reads.CreateFromSamAligned | Read.py:104-148 | The same, in terms of the line's own fields, mappings from the NH tag included. The chromosome is the third field and lies in the analysis set. |
| Resample.AdjustToMetagene | Feature.py:309-387 | The loops compute exactly the specification `Resampled`. The fallback append is taken only for an empty interval. |
| Resample.Resampled | Feature.py:379-387 | the result has `metagene_length` values, or a single value when the interval is empty |
| Resample.ResampledConserves | Feature.py:313-387 | the output sums to the input's sum |
| Resample.ResampledOverlap | Feature.py:337-375 | output bin j is Σᵢ vᵢ·\|[i,i+1) ∩ [j·s,(j+1)·s)\|, with s = n/m |
| Resample.ResampledSameLength | Feature.py:313-387 | resampling n values onto n bins changes nothing |
| Resample.SumOfBins | Feature.py:370-375 | the first k output bins hold exactly the mass up to k·s |
| Resample.PourFeatureBin | Feature.py:326-375 | the inner loop pours one input bin into the output until it is used up, keeping the mass invariant |
| Resample.Consume | Feature.py:348-365 | pouring part of a bin keeps the running count equal to the mass poured since the last full bin |
| Resample.CloseBin | Feature.py:370-375 | a full output bin holds the mass between its two edges, and there is still room for it |
| Resample.ResampledStretchExample | Feature.py:313-387 | [16,8,24,4] onto 8 bins gives [8,8,4,4,12,12,2,2] |
| Resample.ResampledShrinkExample | Feature.py:313-387 | [6,8,6,2,4,4,2,4,24,8] onto 4 bins gives [17,9,8,34] |
| Features.Span | Feature.py:178-187 | `range(lo, hi + 1)`: hi-lo+1 values, value k is lo+k |
| Features.WindowOfFeature | Feature.py:168-189 | With count method `all`, a `+`/`.` window runs upward from start-upstream to end+downstream. A `-` window runs downward from end+upstream to start-downstream. Either way it has upstream + length + downstream positions and index `upstream` is the feature's 5′ end. |
| Features.WindowOfBase | Feature.py:169-186 | With `start`/`end` the interval is one base (the biological start or end, swapped on `-`), and the window around it is consecutive |
| Features.WindowExamples | Feature.py:168-189 | the windows of the BED and GFF features of the feature tests, for `all`, `start` and `end` |
| Features.Window | Feature.py:168-189 | The window is consecutive: ascending, or descending on `-`. For start ≤ end it holds upstream + downstream positions plus the feature's length for `all`, or one base for `start` and `end`. |
| Features.KeysFor | Feature.py:153-155 | one key `o:g` per gap name, in order |
| Features.KeyProductRows | Feature.py:153-155 | the nested loops' keys are those of some orientation |
| Features.KeyProductMembers | Feature.py:152-158 | the keys built are exactly `o:g` for each orientation o and gap name g |
| Features.SubsetKeysMembers | Feature.py:142-158 | The keys are `unstranded` for a `.` feature, otherwise `sense` and `antisense`. Each is combined with `ungapped`/`gapped` when gap counting is on, and with `allreads` when it is off. |
| Features.SubsetKeysKnown | Feature.py:134-139 | every key is one of the nine orientation:gap names |
| Features.KeyProductDescending | Feature.py:142-158 | the keys come out in reverse sorted order |
| Features.PrintOrderSorted | Feature.py:276 | `sorted(counts_array, reverse=True)` is descending and holds exactly the keys |
| Features.PrintOrderOfCounts | Feature.py:276 | the print order of a feature's arrays has exactly its keys |
| Features.Zeros | Feature.py:156-158 | an array of `length` zeros |
| Features.ZeroCounts | Feature.py:152-158 | one all-zero array per key and no other keys |
| Features.BuildCounts | Feature.py:152-158 | the nested loops build exactly one zeroed array for each orientation and gap name |
| Features.ZeroOrientation | Feature.py:154-158 | the loop for one orientation adds its zeroed arrays |
| Features.ZeroRow | Feature.py:156-158 | the innermost loop builds `length` zeros |
| Features.Plan | Feature.py:115-189 | A feature that can be built has a valid shape with the metagene's paddings. Its window has one position per metagene position and is consecutive in its strand's direction. |
| Features.PlanSucceeds | Feature.py:115-128 | Construction succeeds exactly when the chromosome converts and the converted name has a size. Start and end must also lie in 1..size, and start ≤ end when counting `all`. An unknown chromosome is a KeyError. |
| Features.PlanLayout | Feature.py:115-189 | the converted chromosome, the normalised strand, the interval (the feature's length for `all`, 1 otherwise) and the window |
| Features.Feature.constructor | Feature.py:128-189 | the fields from the layout, and zeroed arrays for exactly the feature's keys |
| Features.Feature.Create | Feature.py:104-190 | `Feature.__init__`: a fresh valid feature exactly when construction succeeds, otherwise its error |
| Features.OrientationOf | Feature.py:403-411 | Raises exactly for a `.` read on a stranded feature. Otherwise a stranded feature gives `sense` iff the strands are equal, and a `.` feature gives `unstranded`. |
| Features.GapOf | Feature.py:414-421 | With gap counting the key is `gapped` iff \|first-last\|+1 > number of positions, otherwise `ungapped`; without it the key is `allreads` |
| Features.ContiguousNotGapped | Feature.py:415 | a read of consecutive positions is never gapped |
| Features.SubsetOf | Feature.py:403-421 | the key chosen is one of the feature's possible keys |
| Features.Selected | Feature.py:435-442 | `start` counts exactly the read's first position and `end` exactly its last; both fail for a read without positions. `all` counts every position, in order. |
| Features.IndexOf | Feature.py:447 | `position_array.index(p)`: the first index holding p |
| Features.ConsecutiveIndex | Feature.py:446-447 | in a consecutive window, p is present iff its offset from the 5′ end is in range, and then `index(p)` is that offset |
| Features.Accumulate | Feature.py:444-447 | the counting loop keeps the array's length |
| Features.AccumulateGains | Feature.py:444-447 | each window position gains the weight once per selected occurrence of it |
| Features.AccumulateTotal | Feature.py:444-447 | the array's total grows by the weight times the number of selected positions inside the window |
| Features.AccumulateUntouched | Feature.py:444-447 | selected positions all outside the window change nothing |
| Features.AddEffect | Feature.py:444-447 | Fails with KeyError exactly when the key has no array and a selected position lies in the window. Otherwise only that key's array changes. |
| Features.AddCounts | Feature.py:444-447 | the loop computes `AddEffect` |
| Features.AddGains | Feature.py:444-447 | the gain at each index, and the total gain, of the counted array |
| Features.CountGains | Feature.py:435-447 | What a counted read adds at window index k, in terms of the read's own positions. `start` adds the weight if its first position is window[k], `end` if its last is, and `all` adds it once per occurrence of window[k]. A key without an array changes nothing. |
| Features.SelectedGains | Feature.py:435-447 | the same gains, for the positions selected from a read under a subset key |
| Features.SelectedGain | Feature.py:435-442 | the occurrences of a position among the selected ones: at most one for `start` and `end`, all of them for `all` |
| Features.MissingKeyUnchanged | Feature.py:444-447 | adding under a key that has no array leaves every array as it was |
| Features.CountRejectsUnstrandedRead | Feature.py:403-411 | count_read raises "Can not count unstranded reads" exactly for a `.` read on a stranded feature |
| Features.CountRefused | Feature.py:424-431 | Count_read refuses (returns False) exactly when the read has a subset, partial reads are not counted, and the read's first or last position is outside the window. A refused read, or a read on another chromosome, changes nothing. |
| Features.CountChangesOneSubset | Feature.py:391-447 | a count that succeeds changes only the array of the read's key |
| Features.CountMissingSubset | Feature.py:414-447 | Counting with `count_gaps` on a feature built without gap counting raises KeyError, for any read on its chromosome whose ends lie in the window. The BED and GFF readers build every feature that way. |
| Features.CountAdds | Feature.py:431-447 | a counted read adds its weight abundance/mappings at the selected positions of its key's array |
| Features.Feature.CountRead | Feature.py:391-448 | The method returns the outcome and stores the arrays `CountEffect` gives; on an error the arrays are untouched. The feature stays valid, with the same keys and the same array lengths. |
| Features.Ends | Feature.py:229-233 | the smaller and larger ends of a consecutive window bound every position and span its length |
| Features.EndsOfFeature | Feature.py:227-233 | `get_chromosome_region` reports start-upstream..end+downstream, or start-downstream..end+upstream on `-` |
| Features.RegionFields | Feature.py:231-233 | the region text `chrom:lo-hi` splits back into the chromosome and the two numbers |
| Features.Region | Feature.py:231-233 | the region text begins with the chromosome and a colon and ends with the upper bound's digits |
| Features.SamtoolsEnds | Feature.py:236-257 | Fails exactly when the chromosome has no length. Otherwise the ends are clamped to 1..length: a start below 1 becomes exactly 1 and an end past the length becomes exactly the length. Ends already inside are unchanged. |
| Features.SamtoolsCoversFeature | Feature.py:236-257 | the samtools region of a built feature lies on the chromosome and, for `all`, covers the feature |
| Features.MetageneRowParts | Feature.py:276-303 | A printed row is the upstream slice unchanged, then the resampled interval, then the downstream slice unchanged. It has up + metagene_length + down values and the interval keeps its total. |
| Features.RowsOf | Feature.py:276-303 | one resampled row per key, in the given order |
| Features.ResampleRows | Feature.py:276-303 | the loop over the keys computes `RowsOf` |
| Features.Feature.PrintMetagene | Feature.py:261-305 | The optional header is followed by one row per key, in reverse sorted order. The order holds exactly the feature's keys. |
| Features.IntField | Feature.py:516 | `int(parts[k])`: IndexError past the end, ValueError on unreadable text |
| Features.BedArgs | Feature.py:511-549 | an accepted BED line has start ≤ end + 1, and a short one has strand `.` |
| Features.BedFields | Feature.py:516-549 | the same, on the split fields |
| Features.BedLine | Feature.py:514-549 | A BED6 line maps (c1, c2) to (c1+1, c2). A reversed pair on `-` becomes (c2, c1+1); on any other strand it is an error. |
| Features.BedColumns | Feature.py:516-527 | the same three cases, on the split fields |
| Features.ShortBedColumns | Feature.py:516-541 | A short BED line always has strand `.`, and its name is `Unknown_name` without a fourth field. A reversed pair is an error. |
| Features.ShortBedLine | Feature.py:514-541 | the same, for a BED3 line |
| Features.GffArgs | Feature.py:554-582 | an accepted GFF line has start ≤ end and a name without commas |
| Features.GffFields | Feature.py:557-582 | the same, on the split fields |
| Features.GffLine | Feature.py:557-582 | GFF coordinates are kept as they are. A reversed pair is swapped on `-` and is an error on other strands. The name has its commas turned into semicolons. |
| Features.GffColumns | Feature.py:560-574 | the same three cases, on the split fields |
| Features.LineSplits | Feature.py:514 | stripping and splitting a tab-joined line gives its fields back |
| Features.CreateFromBed | Feature.py:510-550 | a feature exactly when the BED fields are accepted and construction succeeds, otherwise the first error |
| Features.CreateFromGff | Feature.py:553-583 | a feature exactly when the GFF fields are accepted and construction succeeds, otherwise the first error |
| Binning.WindowsFit | metagene_binning.py:145-160 | Window k, [k·step, k·step+window), fits in the row exactly when k < floor((length-window)/step)+1, or never when length < window. Every window used is in bounds, and the loop stops at the first that is not. |
| Binning.NumWindowsMonotone | metagene_binning.py:148 | more counts never give fewer windows |
| Binning.Bins | metagene_binning.py:145-160 | the first n windows, numbered 0, 1, 2, … |
| Binning.BinRow | metagene_binning.py:145-160 | The loop writes exactly the windows that fit, numbered consecutively. Each holds its coverage and the labels `positions[start]` and `positions[end-1]`. The loop stops with IndexError when the header has fewer labels than the row needs. |
| Binning.WindowSum | metagene_binning.py:151-154 | a window's coverage is the sum of its counts |
| Binning.TilesConserve | metagene_binning.py:145-160 | with step = window, the coverages add up to the counts they tile |
| Binning.GroupOf | metagene_binning.py:142 | a group splits into an orientation and a gap without colons |
| Binning.GroupOfKey | metagene_binning.py:142 | splitting a key `o:g` gives o and g back |
| Binning.NameOutputs | metagene_binning.py:95-101 | one file name per group, and no other |
| Binning.SharedOutput | metagene_binning.py:100-101 | without `separate_groups` every group goes to `{base}.all.csv` |
| Binning.SeparateOutput | metagene_binning.py:96-98 | with `separate_groups` group `o:g` goes to `{base}.o_g.csv` |
| Binning.SeparateOutputsDistinct | metagene_binning.py:95-98 | distinct groups get distinct files |
| Binning.FileRead | metagene_binning.py:108-116 | `file.read(n)` returns the next at most n characters, something unless at the end, and the rest for a negative n |
| Binning.ChunkLines | metagene_binning.py:110-116 | splitting a chunk keeps the lines yielded so far plus the carried piece equal to what has been read |
| Binning.YieldComplete | metagene_binning.py:113-114 | every piece but the last is yielded, in order |
| Binning.ReadChunk | metagene_binning.py:105-116 | Input ending in a newline yields exactly its newline-separated lines, in order, for any non-zero chunk size. A chunk size of 0 yields nothing. |
| Binning.ChunkPass | metagene_binning.py:111-116 | One loop pass as written. The lines yielded are newline-free. With the new chunk they make up the old chunk plus what was read, and the offset stays in the file. |
| Binning.ChunkPassStuck | metagene_binning.py:110-116 | At the end of the file, a non-empty chunk without a newline comes back unchanged and nothing is yielded, so `while chunk` never becomes false |
| Binning.ChunkPassStuckOnA | metagene_binning.py:108-116 | the file "a" read one character at a time gets stuck on the chunk "a" |
| Binning.AllLines | metagene_binning.py:105-116 | every line of a text, the last one also without its newline; for text ending in a newline these are its newline-terminated lines |
| Binning.ReadChunkToEnd | metagene_binning.py:105-116 | The corrected loop yields exactly the text's lines, the unterminated last one included, for any non-zero chunk size. A chunk size of 0 yields nothing. No input is excluded. |
| Binning.FinalLines | metagene_binning.py:110-116 | the lines yielded plus the partial line kept at the end of the file are all the text's lines |
| Binning.LinesUnlines | metagene_binning.py:105-116 | the lines of text ending in a newline, each followed by a newline, give the text back |
| Binning.UnlinesLines | metagene_binning.py:105-116 | lines without newlines, written out, split back into the same lines |
| Binning.Lines | metagene_binning.py:105-116 | the newline-terminated lines of a text contain no newline and are no more than its characters |

## Left out

- Number formatting: `{0:0.3f}`, `{0:3.2f}` and `{0:>5s}` of floats in `print_metagene`, `Feature.__str__` and `Read.__str__`. Floats have no exact text in this model. `print_metagene` (`Features.Feature.PrintMetagene`) returns its rows as lists of values, not text.
- IEEE float rounding. Counts and the resampler are exact reals, so the drift that the fallback append at Feature.py:379-383 patches never occurs.
- The `verbose` printing in `adjust_to_metagene` and the warnings `create_from_bed`/`create_from_gff` print once. Output to the console is not modelled, nor is the class flag `previously_warned_start_bigger_than_end`.
- `Feature.set_format`, `Feature.create`, `Feature.set_chromosome_conversion` and its helpers. These are file reading and format heuristics that fill class-level tables. The tables are parameters here.
- In metagene_binning.py:
  - reading and writing files, which become strings and returned lists;
  - group discovery by re-reading the input file (metagene_binning.py:88-93), where the group list is a parameter;
  - `get_arguments` and the `float()` parsing of count fields;
  - the KeyError of writing a group that has no file name;
  - splitting the positions header. `Binning.BinRow` takes the labels and counts already split.
- metagene_count.py, metagene_windows.py and the plotting scripts are orchestration and subprocess calls. They are not part of this model.
- Metagene.SummaryLength: `__str__` (`Metagene.Summary`) is proved only to carry the length after its tab. The upstream, interval and downstream fields before the tab are stated by its definition alone.
- Features.Feature.ChromosomeRegion and Features.Feature.SamtoolsRegion have no contracts of their own. Their content is stated by `Features.Ends`, `Features.EndsOfFeature`, `Features.SamtoolsEnds` and `Features.RegionFields`.
- Features.Feature.CountRead requires `read.mappings >= 1`. Every read that `Read.__init__` builds has that (`Reads.NewRead`).
- Features.CountEffect: the "Unrecognizable counting method" error cannot arise, because the count method is one of `start`, `end` and `all` (the command line restricts it to those).
- Features.Plan takes integer start and end, as `create_from_bed` and `create_from_gff` pass them. `confirm_integer`'s non-integer error is therefore not reachable for them here.
- Features.Window models `range(...).reverse()` on the minus strand as a reversed sequence rather than a list reversed in place.
- Reads.ConfirmInt: text such as `1.0`, which `float` accepts, passes `confirm_int` in the source. The `int(...)` after it then raises ValueError. The model reports that text as "must be an integer" instead.
- Reads.ParseFlag follows the one-argument revision in Read.py. The flag policies of the other revision that the tests call are not modelled.
- Binning.BinRow requires window ≥ 1 and step ≥ 1. With a step below 1 the source loop never ends, and window sizes below 1 are outside the command line's meaning.
- Binning.ReadChunk requires the input to be empty or to end in a newline. Otherwise the source loop never ends (see "## Findings"). `Binning.ReadChunkToEnd` drops that requirement.
- The test scripts' call shapes: chromosome tables passed positionally, and `count_read` with partial reads. They target another revision; only their expected values are used (`Features.WindowExamples`, the `Resample` examples, the CIGAR examples).

## Findings

| source | as written | input that shows it | evidently intended | confidence | as-written member | corrected member |
|---|---|---|---|---|---|---|
| metagene_binning.py:110-116 | `read_chunk` loops while the chunk is non-empty and re-reads the last, incomplete piece together with the next read. At the end of the file that read is empty, so a last line without a newline is carried forever. | a file holding `a` (no final newline), chunk size 1: the chunk stays `a` and nothing is yielded, forever | the generator yields the unterminated last line and stops | not executed | Binning.ChunkPassStuck | Binning.ReadChunkToEnd |
