/** Read.py: a sequencing read as the reference positions it covers, decoded
    from one line of a SAM file. */
module Reads {
  import opened Wrappers
  import opened Errors
  import opened Text
  import opened MetageneMethods

  /** The strand of a read or a feature once normalised: any text other than
      "+" or "-" is stored as ".". */
  datatype Strand = Plus | Minus | Unstranded {
    function Symbol(): string {
      match this
      case Plus => "+"
      case Minus => "-"
      case Unstranded => "."
    }
  }

  function NormaliseStrand(s: string): (r: Strand)
    ensures r == Plus <==> s == "+"
    ensures r == Minus <==> s == "-"
  {
    if s == "+" then Plus else if s == "-" then Minus else Unstranded
  }

  /** A stored strand reads back as itself. */
  lemma NormaliseSymbol(strand: Strand)
    ensures NormaliseStrand(strand.Symbol()) == strand
  {
  }

  // ---------------------------------------------------------------- CIGAR

  /** The operations of a CIGAR string (SAM Format Specification, section 1.4). */
  datatype Op = Match | Insertion | Deletion | Skip | SoftClip | HardClip | Padding | SequenceMatch | Mismatch

  /** The one-letter code of an operation. */
  function Code(op: Op): string {
    match op
    case Match => "M"
    case Insertion => "I"
    case Deletion => "D"
    case Skip => "N"
    case SoftClip => "S"
    case HardClip => "H"
    case Padding => "P"
    case SequenceMatch => "="
    case Mismatch => "X"
  }

  /** The key lookup in `cigar_codes`: None where it raises KeyError. */
  function OpOf(code: string): (r: Option<Op>)
    ensures r.Some? ==> Code(r.value) == code
  {
    if |code| != 1 then None
    else
      match code[0]
      case 'M' => Some(Match)
      case 'I' => Some(Insertion)
      case 'D' => Some(Deletion)
      case 'N' => Some(Skip)
      case 'S' => Some(SoftClip)
      case 'H' => Some(HardClip)
      case 'P' => Some(Padding)
      case '=' => Some(SequenceMatch)
      case 'X' => Some(Mismatch)
      case _ => None
  }

  /** Every operation's code is a key of the tables. */
  lemma OpOfCode(op: Op)
    ensures OpOf(Code(op)) == Some(op)
  {
  }

  /** `cigar_codes`: the operations whose bases are positions of the read. */
  predicate Emits(op: Op) {
    match op
    case Match => true
    case SequenceMatch => true
    case Mismatch => true
    case _ => false
  }

  /** `advance_position`: the operations that consume the reference. Padding
      advances, as the source's table has it. */
  predicate Advances(op: Op) {
    match op
    case Match => true
    case Deletion => true
    case Skip => true
    case Padding => true
    case SequenceMatch => true
    case Mismatch => true
    case _ => false
  }

  /** A decimal run of the CIGAR string and the text after it. */
  datatype Token = Token(count: nat, code: string)

  /** The length of the run of digits at the front of `s`. */
  function DigitPrefix(s: string): (n: nat)
    ensures n <= |s|
    ensures forall i :: 0 <= i < n ==> IsDigit(s[i])
    ensures n == |s| || !IsDigit(s[n])
  {
    if s != [] && IsDigit(s[0]) then 1 + DigitPrefix(s[1..]) else 0
  }

  /** The length of the run of non-digits at the front of `s`. */
  function OtherPrefix(s: string): (n: nat)
    ensures n <= |s|
    ensures forall i :: 0 <= i < n ==> !IsDigit(s[i])
    ensures n == |s| || IsDigit(s[n])
  {
    if s != [] && !IsDigit(s[0]) then 1 + OtherPrefix(s[1..]) else 0
  }

  /** `re.findall('(\d+)', cigar)` zipped with `re.split('\d+', cigar)[1:]`:
      every digit run with the text that follows it; text before the first
      digit run is dropped. */
  function Tokens(cigar: string): seq<Token> {
    TokensFrom(cigar[OtherPrefix(cigar)..])
  }

  function TokensFrom(s: string): seq<Token>
    requires s == [] || IsDigit(s[0])
    decreases |s|
  {
    if s == [] then []
    else
      var d := DigitPrefix(s);
      var rest := s[d..];
      var c := OtherPrefix(rest);
      [Token(DecimalValue(s[..d]), rest[..c])] + TokensFrom(rest[c..])
  }

  /** The CIGAR text of a list of operations, as SAM writes it. */
  function Cigar(tokens: seq<Token>): string {
    if tokens == [] then "" else NatToString(tokens[0].count) + tokens[0].code + Cigar(tokens[1..])
  }

  /** Operation codes that the tokenizer can tell apart from the counts. */
  predicate WellFormedCodes(tokens: seq<Token>) {
    forall k :: 0 <= k < |tokens| ==> tokens[k].code != [] && forall i :: 0 <= i < |tokens[k].code| ==> !IsDigit(tokens[k].code[i])
  }

  lemma {:induction false} DigitPrefixAppend(a: string, b: string)
    requires AllDigits(a)
    ensures DigitPrefix(a + b) == |a| + DigitPrefix(b)
    decreases |a|
  {
    if a != [] {
      DigitPrefixAppend(a[1..], b);
      assert (a + b)[1..] == a[1..] + b;
    } else {
      assert a + b == b;
    }
  }

  lemma {:induction false} OtherPrefixAppend(a: string, b: string)
    requires forall i :: 0 <= i < |a| ==> !IsDigit(a[i])
    ensures OtherPrefix(a + b) == |a| + OtherPrefix(b)
    decreases |a|
  {
    if a != [] {
      OtherPrefixAppend(a[1..], b);
      assert (a + b)[1..] == a[1..] + b;
    } else {
      assert a + b == b;
    }
  }

  lemma CigarStartsWithDigit(tokens: seq<Token>)
    requires tokens != []
    ensures Cigar(tokens) != [] && IsDigit(Cigar(tokens)[0])
  {
    var n := NatToString(tokens[0].count);
    NatToStringAllDigits(tokens[0].count);
    assert Cigar(tokens) == n + (tokens[0].code + Cigar(tokens[1..]));
  }

  /** Tokenizing the CIGAR text of well-formed operations gives them back. */
  lemma {:induction false} TokensOfCigar(tokens: seq<Token>)
    requires WellFormedCodes(tokens)
    ensures Tokens(Cigar(tokens)) == tokens
    decreases |tokens|
  {
    if tokens == [] {
    } else {
      CigarStartsWithDigit(tokens);
      assert OtherPrefix(Cigar(tokens)) == 0;
      TokensFromCigar(tokens);
    }
  }

  lemma {:induction false} TokensFromCigar(tokens: seq<Token>)
    requires WellFormedCodes(tokens)
    requires tokens != []
    ensures Cigar(tokens) != [] && IsDigit(Cigar(tokens)[0])
    ensures TokensFrom(Cigar(tokens)) == tokens
    decreases |tokens|
  {
    var t, more := tokens[0], tokens[1..];
    assert WellFormedCodes(more);
    assert Cigar(tokens) == NatToString(t.count) + t.code + Cigar(more);
    if more == [] {
      TokenFront(t, []);
      assert Cigar(more) == [];
    } else {
      CigarStartsWithDigit(more);
      TokenFront(t, Cigar(more));
      TokensFromCigar(more);
      assert tokens == [t] + more;
    }
  }

  /** CIGAR text followed by further text that starts with a count. */
  lemma {:induction false} TokensFromCigarThen(tokens: seq<Token>, tail: string)
    requires WellFormedCodes(tokens)
    requires tail == [] || IsDigit(tail[0])
    ensures var s := Cigar(tokens) + tail;
            (s == [] || IsDigit(s[0])) && TokensFrom(s) == tokens + TokensFrom(tail)
    decreases |tokens|
  {
    if tokens == [] {
      assert Cigar(tokens) + tail == tail;
    } else {
      var t, more := tokens[0], tokens[1..];
      assert WellFormedCodes(more);
      TokensFromCigarThen(more, tail);
      var after := Cigar(more) + tail;
      CigarFront(tokens, tail);
      TokenFront(t, after);
      ConsAppend(tokens, TokensFrom(tail));
    }
  }

  /** The first operation of CIGAR text, in front of what follows. */
  lemma CigarFront(tokens: seq<Token>, tail: string)
    requires tokens != [] && WellFormedCodes(tokens)
    ensures tokens[0].code != [] && forall i :: 0 <= i < |tokens[0].code| ==> !IsDigit(tokens[0].code[i])
    ensures Cigar(tokens) + tail == NatToString(tokens[0].count) + tokens[0].code + (Cigar(tokens[1..]) + tail)
  {
  }

  /** Putting the first operation back in front. */
  lemma ConsAppend(tokens: seq<Token>, x: seq<Token>)
    requires tokens != []
    ensures [tokens[0]] + (tokens[1..] + x) == tokens + x
  {
    assert tokens == [tokens[0]] + tokens[1..];
  }

  /** A count with no code after it. */
  lemma TrailingCount(n: nat)
    ensures var s := NatToString(n); s != [] && IsDigit(s[0]) && TokensFrom(s) == [Token(n, [])]
  {
    var s := NatToString(n);
    DecimalOfNatToString(n);
    DigitPrefixAppend(s, []);
    assert s + [] == s;
    assert s[..|s|] == s;
  }

  /** A misordered CIGAR string, one whose codes come before their counts (as
      `M5N4M5` is `M` then `5N4M` then `5`): the text before the first count is
      dropped and the last count is left with the empty code, which no table
      knows, so the walk fails. */
  lemma CigarMisordered(p: int, lead: string, tokens: seq<Token>, n: nat)
    requires forall i :: 0 <= i < |lead| ==> !IsDigit(lead[i])
    requires WellFormedCodes(tokens) && n > 0
    ensures Tokens(lead + Cigar(tokens) + NatToString(n)) == tokens + [Token(n, [])]
    ensures Expand(p, Tokens(lead + Cigar(tokens) + NatToString(n))).Failure?
  {
    var last := NatToString(n);
    TrailingCount(n);
    TokensFromCigarThen(tokens, last);
    LeadDropped(lead, Cigar(tokens), last);
    EmptyCodeFails(p, tokens, n);
  }

  /** Text before the first count is not part of any operation. */
  lemma LeadDropped(lead: string, cigar: string, last: string)
    requires forall i :: 0 <= i < |lead| ==> !IsDigit(lead[i])
    requires cigar + last != [] && IsDigit((cigar + last)[0])
    ensures Tokens(lead + cigar + last) == TokensFrom(cigar + last)
  {
    var rest := cigar + last;
    assert lead + cigar + last == lead + rest;
    OtherPrefixAppend(lead, rest);
    assert (lead + rest)[|lead|..] == rest;
  }

  /** A last operation with a count but no code makes the walk fail. */
  lemma EmptyCodeFails(p: int, tokens: seq<Token>, n: nat)
    requires n > 0
    ensures Expand(p, tokens + [Token(n, [])]).Failure?
  {
    var all := tokens + [Token(n, [])];
    assert all[|tokens|] == Token(n, []);
    ExpandFails(p, all);
  }

  /** One count and its code in front of further CIGAR text. */
  lemma TokenFront(t: Token, tail: string)
    requires t.code != [] && forall i :: 0 <= i < |t.code| ==> !IsDigit(t.code[i])
    requires tail == [] || IsDigit(tail[0])
    ensures var s := NatToString(t.count) + t.code + tail;
            s != [] && IsDigit(s[0]) && TokensFrom(s) == [t] + TokensFrom(tail)
  {
    var n := NatToString(t.count);
    var rest := t.code + tail;
    var s := n + t.code + tail;
    assert s == n + rest;
    assert !IsDigit(rest[0]);
    DecimalOfNatToString(t.count);
    DigitPrefixAppend(n, rest);
    assert s[..|n|] == n;
    assert s[|n|..] == rest;
    OtherPrefixAppend(t.code, tail);
    assert rest[..|t.code|] == t.code;
    assert rest[|t.code|..] == tail;
  }

  /** `count` consecutive positions from `p`. */
  function Range(p: int, count: nat): (r: seq<int>)
    ensures |r| == count
    ensures forall i :: 0 <= i < count ==> r[i] == p + i
  {
    seq(count, i => p + i)
  }

  /** The outcome of appending `prefix` before the rest of the walk. */
  function Prepend(prefix: seq<int>, r: Result<seq<int>, Error>): Result<seq<int>, Error> {
    if r.Success? then Success(prefix + r.value) else r
  }

  /** The walk of build_positions from reference position `p`: each operation
      of count k emits the next k positions if it is an `M`, `=` or `X`, and
      moves past them if it consumes the reference. An unknown code raises
      KeyError, but only once its first base is reached. */
  function Expand(p: int, tokens: seq<Token>): Result<seq<int>, Error>
    decreases |tokens|
  {
    if tokens == [] then Success([])
    else if tokens[0].count == 0 then Expand(p, tokens[1..])
    else
      match OpOf(tokens[0].code)
      case None => Failure(KeyError(tokens[0].code))
      case Some(op) =>
        var k := tokens[0].count;
        Prepend(if Emits(op) then Range(p, k) else [], Expand(if Advances(op) then p + k else p, tokens[1..]))
  }

  /** build_positions: a CIGAR of "*" is a perfect match of the sequence. */
  function Positions(start: int, cigar: string, sequence: string): (r: Result<seq<int>, Error>)
    ensures cigar == "*" ==> r.Success? && |r.value| == |sequence|
    ensures cigar != "*" && r.Success? ==> |r.value| == Emitted(Tokens(cigar))
    ensures r.Success? ==> StrictlyIncreasing(r.value) && AtLeastAll(r.value, start)
  {
    ExpandLength(start, Tokens(cigar));
    ExpandIncreasing(start, Tokens(cigar));
    if cigar == "*" then Success(Range(start, |sequence|)) else Expand(start, Tokens(cigar))
  }

  /** The summed counts of the `M`, `=` and `X` operations. */
  function Emitted(tokens: seq<Token>): nat
    decreases |tokens|
  {
    if tokens == [] then 0
    else
      var k := if OpOf(tokens[0].code).Some? && Emits(OpOf(tokens[0].code).value) then tokens[0].count else 0;
      k + Emitted(tokens[1..])
  }

  predicate StrictlyIncreasing(s: seq<int>) {
    forall i, j :: 0 <= i < j < |s| ==> s[i] < s[j]
  }

  predicate AtLeastAll(s: seq<int>, p: int) {
    forall i :: 0 <= i < |s| ==> s[i] >= p
  }

  /** A read covers one position per base of its `M`, `=` and `X` operations. */
  lemma {:induction false} ExpandLength(p: int, tokens: seq<Token>)
    ensures Expand(p, tokens).Success? ==> |Expand(p, tokens).value| == Emitted(tokens)
    decreases |tokens|
  {
    if tokens != [] {
      var k := tokens[0].count;
      var op := OpOf(tokens[0].code);
      ExpandLength(p, tokens[1..]);
      if op.Some? {
        ExpandLength(if Advances(op.value) then p + k else p, tokens[1..]);
      }
    }
  }

  /** The positions of a read are strictly increasing and none lies before
      the start. */
  lemma {:induction false} ExpandIncreasing(p: int, tokens: seq<Token>)
    ensures Expand(p, tokens).Success? ==>
              StrictlyIncreasing(Expand(p, tokens).value) && AtLeastAll(Expand(p, tokens).value, p)
    decreases |tokens|
  {
    if tokens != [] && tokens[0].count == 0 {
      ExpandIncreasing(p, tokens[1..]);
    } else if tokens != [] && OpOf(tokens[0].code).Some? {
      var k := tokens[0].count;
      var op := OpOf(tokens[0].code).value;
      var next := if Advances(op) then p + k else p;
      var emitted := if Emits(op) then Range(p, k) else [];
      ExpandIncreasing(next, tokens[1..]);
      var rest := Expand(next, tokens[1..]);
      if rest.Success? {
        assert Emits(op) ==> Advances(op);
        assert Expand(p, tokens).value == emitted + rest.value;
        IncreasingConcat(emitted, rest.value, p, next);
      }
    }
  }

  /** Positions below `m`, followed by positions from `m` on, still increase. */
  lemma IncreasingConcat(a: seq<int>, b: seq<int>, p: int, m: int)
    requires StrictlyIncreasing(a) && AtLeastAll(a, p) && forall i :: 0 <= i < |a| ==> a[i] < m
    requires StrictlyIncreasing(b) && AtLeastAll(b, m) && p <= m
    ensures StrictlyIncreasing(a + b) && AtLeastAll(a + b, p)
  {
    var s := a + b;
    forall i, j | 0 <= i < j < |s| ensures s[i] < s[j] {
      if j >= |a| && i < |a| {
        assert s[i] < m <= s[j];
      }
    }
  }

  /** The walk fails exactly when some operation with a non-zero count has a
      code outside the tables, whatever the start. */
  lemma {:induction false} ExpandFails(p: int, tokens: seq<Token>)
    ensures Expand(p, tokens).Failure? <==>
              exists k :: 0 <= k < |tokens| && tokens[k].count > 0 && OpOf(tokens[k].code).None?
    decreases |tokens|
  {
    if tokens != [] {
      var next := p;
      if tokens[0].count > 0 && OpOf(tokens[0].code).Some? {
        var op := OpOf(tokens[0].code).value;
        next := if Advances(op) then p + tokens[0].count else p;
      }
      ExpandFails(next, tokens[1..]);
      if exists k :: 0 <= k < |tokens| && tokens[k].count > 0 && OpOf(tokens[k].code).None? {
        var k :| 0 <= k < |tokens| && tokens[k].count > 0 && OpOf(tokens[k].code).None?;
        if k > 0 {
          assert tokens[1..][k - 1] == tokens[k];
        }
      }
      if exists k :: 0 <= k < |tokens| - 1 && tokens[1..][k].count > 0 && OpOf(tokens[1..][k].code).None? {
        var k :| 0 <= k < |tokens| - 1 && tokens[1..][k].count > 0 && OpOf(tokens[1..][k].code).None?;
        assert tokens[k + 1] == tokens[1..][k];
      }
    }
  }

  /** One base of an operation whose code is known. */
  lemma ExpandStep(p: int, k: nat, code: string, rest: seq<Token>)
    requires OpOf(code).Some?
    ensures Expand(p, [Token(k + 1, code)] + rest)
            == Prepend(if Emits(OpOf(code).value) then [p] else [],
                       Expand(if Advances(OpOf(code).value) then p + 1 else p, [Token(k, code)] + rest))
  {
    var op := OpOf(code).value;
    var next := if Advances(op) then p + 1 else p;
    var tail := Expand(if Advances(op) then p + k + 1 else p, rest);
    assert ([Token(k + 1, code)] + rest)[1..] == rest;
    assert ([Token(k, code)] + rest)[1..] == rest;
    assert Expand(p, [Token(k + 1, code)] + rest) == Prepend(if Emits(op) then Range(p, k + 1) else [], tail);
    if k == 0 {
      assert Expand(next, [Token(k, code)] + rest) == tail;
      if Emits(op) {
        assert Range(p, 1) == [p];
      }
    } else {
      assert Expand(next, [Token(k, code)] + rest) == Prepend(if Emits(op) then Range(next, k) else [], tail);
      assert Emits(op) ==> Advances(op);
      if Emits(op) {
        assert next == p + 1;
        assert Range(p, k + 1) == [p] + Range(p + 1, k);
        PrependPrepend([p], Range(p + 1, k), tail);
        assert Expand(p, [Token(k + 1, code)] + rest) == Prepend([p], Expand(next, [Token(k, code)] + rest));
      } else {
        var none: seq<int> := [];
        PrependPrepend(none, none, tail);
        assert none + none == none;
        assert Expand(p, [Token(k + 1, code)] + rest) == Prepend(none, Expand(next, [Token(k, code)] + rest));
      }
    }
  }

  lemma PrependPrepend(a: seq<int>, b: seq<int>, r: Result<seq<int>, Error>)
    ensures Prepend(a, Prepend(b, r)) == Prepend(a + b, r)
  {
    if r.Success? {
      assert a + (b + r.value) == a + b + r.value;
    }
  }

  /** The state of build_positions before and after base `j` of a known
      operation describe the same walk. */
  lemma WalkStep(covered: seq<int>, position: int, count: nat, j: nat, code: string, rest: seq<Token>,
                 covered': seq<int>, position': int)
    requires j < count && OpOf(code).Some?
    requires covered' == if Emits(OpOf(code).value) then covered + [position] else covered
    requires position' == if Advances(OpOf(code).value) then position + 1 else position
    ensures Prepend(covered, Expand(position, [Token(count - j, code)] + rest))
            == Prepend(covered', Expand(position', [Token(count - (j + 1), code)] + rest))
  {
    var op := OpOf(code).value;
    var after := Expand(position', [Token(count - (j + 1), code)] + rest);
    ExpandStep(position, count - (j + 1), code, rest);
    assert count - (j + 1) + 1 == count - j;
    if Emits(op) {
      PrependPrepend(covered, [position], after);
    } else {
      PrependPrepend(covered, [], after);
      assert covered + [] == covered;
    }
  }

  /** Read.build_positions: the nested loop over the operations and their
      bases, appending to the list of positions and advancing `position`. */
  method BuildPositions(start: int, cigar: string, sequence: string) returns (r: Result<seq<int>, Error>)
    ensures r == Positions(start, cigar, sequence)
  {
    if cigar == "*" {
      var covered := MatchPositions(start, |sequence|);
      return Success(covered);
    }
    var covered: seq<int> := [];
    var position := start;
    var tokens := Tokens(cigar);
    ghost var walk := Expand(start, tokens);
    assert tokens[0..] == tokens;
    assert walk.Success? ==> covered + walk.value == walk.value;
    for i := 0 to |tokens|
      invariant walk == Prepend(covered, Expand(position, tokens[i..]))
    {
      var count, code := tokens[i].count, tokens[i].code;
      ghost var rest := tokens[i + 1..];
      assert tokens[i..] == [Token(count, code)] + rest;
      var known;
      known, covered, position := WalkOperation(covered, position, count, code, rest);
      if !known {
        return Failure(KeyError(code));
      }
    }
    assert Expand(position, []) == Success([]);
    assert covered + [] == covered;
    return Success(covered);
  }

  /** The loop of build_positions for a CIGAR of "*": one position per base. */
  method MatchPositions(start: int, length: nat) returns (covered: seq<int>)
    ensures covered == Range(start, length)
  {
    covered := [];
    var position := start;
    for i := 0 to length
      invariant covered == Range(start, i) && position == start + i
    {
      covered := covered + [position];
      position := position + 1;
    }
  }

  /** The inner loop of build_positions over the `count` bases of one
      operation; it stops at the first base of an unknown code. */
  method WalkOperation(covered: seq<int>, position: int, count: nat, code: string, ghost rest: seq<Token>)
    returns (known: bool, covered': seq<int>, position': int)
    ensures known ==> Prepend(covered, Expand(position, [Token(count, code)] + rest))
                      == Prepend(covered', Expand(position', rest))
    ensures !known <==> count > 0 && OpOf(code).None?
  {
    covered', position' := covered, position;
    for j := 0 to count
      invariant Prepend(covered, Expand(position, [Token(count, code)] + rest))
                == Prepend(covered', Expand(position', [Token(count - j, code)] + rest))
      invariant j > 0 ==> OpOf(code).Some?
    {
      var op := OpOf(code);
      if op.None? {
        return false, covered', position';
      }
      ghost var covered0, position0 := covered', position';
      if Emits(op.value) {
        covered' := covered' + [position'];
      }
      if Advances(op.value) {
        position' := position' + 1;
      }
      WalkStep(covered0, position0, count, j, code, rest, covered', position');
    }
    assert ([Token(0, code)] + rest)[1..] == rest;
    known := true;
  }

  /** Test vectors of test_Read.py: "*" with sequence "aaaaa" from 1. */
  lemma CigarStarExample()
    ensures Positions(1, "*", "aaaaa") == Success([1, 2, 3, 4, 5])
  {
    assert Range(1, 5) == [1, 2, 3, 4, 5];
  }

  /** "5M4D5M" from 1: the deletion skips four reference positions. */
  lemma CigarDeletionExample()
    ensures Expand(1, [Token(5, "M"), Token(4, "D"), Token(5, "M")]) == Success([1, 2, 3, 4, 5, 10, 11, 12, 13, 14])
  {
    assert OpOf("M") == Some(Match) && OpOf("D") == Some(Deletion);
    var m5: seq<Token> := [Token(5, "M")];
    assert m5[1..] == [];
    assert Range(10, 5) + [] == Range(10, 5);
    assert Expand(10, m5) == Success(Range(10, 5));
    var d4m5 := [Token(4, "D")] + m5;
    assert d4m5[1..] == m5;
    assert Expand(6, d4m5) == Prepend([], Expand(10, m5));
    assert [] + Range(10, 5) == Range(10, 5);
    var m5d4m5 := [Token(5, "M")] + d4m5;
    assert m5d4m5[1..] == d4m5;
    assert Range(1, 5) + Range(10, 5) == [1, 2, 3, 4, 5, 10, 11, 12, 13, 14];
  }

  /** "3P5M" from 1: padding advances the reference, as the source's table has it. */
  lemma CigarPaddingExample()
    ensures Expand(1, [Token(3, "P"), Token(5, "M")]) == Success([4, 5, 6, 7, 8])
  {
    assert OpOf("M") == Some(Match) && OpOf("P") == Some(Padding);
    var m5: seq<Token> := [Token(5, "M")];
    assert m5[1..] == [];
    assert Range(4, 5) + [] == Range(4, 5);
    assert Expand(4, m5) == Success(Range(4, 5));
    var p3m5 := [Token(3, "P")] + m5;
    assert p3m5[1..] == m5;
    assert Expand(1, p3m5) == Prepend([], Expand(4, m5));
    assert [] + Range(4, 5) == Range(4, 5);
    assert Range(4, 5) == [4, 5, 6, 7, 8];
  }

  /** "3H5M3H" from 4: hard clips neither cover nor advance. */
  lemma CigarHardClipExample()
    ensures Expand(4, [Token(3, "H"), Token(5, "M"), Token(3, "H")]) == Success([4, 5, 6, 7, 8])
  {
    assert OpOf("M") == Some(Match) && OpOf("H") == Some(HardClip);
    var none: seq<int> := [];
    assert none + none == none;
    var h3: seq<Token> := [Token(3, "H")];
    assert h3[1..] == [];
    assert Expand(9, h3) == Prepend(none, Expand(9, []));
    var m5h3 := [Token(5, "M")] + h3;
    assert m5h3[1..] == h3;
    assert Range(4, 5) + [] == Range(4, 5);
    assert Expand(4, m5h3) == Success(Range(4, 5));
    var h3m5h3 := [Token(3, "H")] + m5h3;
    assert h3m5h3[1..] == m5h3;
    assert [] + Range(4, 5) == Range(4, 5);
    assert Range(4, 5) == [4, 5, 6, 7, 8];
  }

  /** "5M4B": `B` is not an operation. */
  lemma CigarIllegalExample()
    ensures Expand(1, [Token(5, "M"), Token(4, "B")]) == Failure(KeyError("B"))
  {
    assert OpOf("M") == Some(Match) && OpOf("B") == None;
    var m5b4: seq<Token> := [Token(5, "M"), Token(4, "B")];
    assert m5b4[1..] == [Token(4, "B")];
  }

  // ---------------------------------------------------------------- FLAG

  /** The three FLAG bits the core reads: 0x1, 0x4 and 0x10. */
  datatype Flags = Flags(multiple: bool, unmapped: bool, reverse: bool)

  /** `int(binary_flag[-1 - k]) == 1`; a non-digit raises ValueError. */
  function FlagBit(binary: string, k: nat): Result<bool, Error>
    requires k < |binary|
  {
    var c := binary[|binary| - 1 - k];
    match ParseInt([c])
    case None => Failure(ValueError([c]))
    case Some(v) => Success(v == 1)
  }

  /** Read.parse_sam_bitwise_flag: the flag written in binary, zero-filled to
      eight places, read one character at a time. */
  function ParseFlag(flag: int): (r: Result<Flags, Error>)
    ensures flag >= 0 ==> r == Success(Flags(flag % 2 == 1, flag / 4 % 2 == 1, flag / 16 % 2 == 1))
  {
    FlagBits(flag);
    var binary := ZFill(Bin(flag)[2..], 8);
    var multiple :- FlagBit(binary, 0);
    var unmapped :- FlagBit(binary, 2);
    var reverse :- FlagBit(binary, 4);
    Success(Flags(multiple, unmapped, reverse))
  }

  /** Bit `k` of `n`. */
  function Bit(n: nat, k: nat): (b: nat)
    ensures b < 2
  {
    if k == 0 then n % 2 else Bit(n / 2, k - 1)
  }

  lemma {:induction false} BinaryDigitFromEnd(n: nat, k: nat)
    ensures k < |BinaryDigits(n)| ==> BinaryDigits(n)[|BinaryDigits(n)| - 1 - k] == DigitChar(Bit(n, k))
    ensures k >= |BinaryDigits(n)| ==> Bit(n, k) == 0
    decreases k
  {
    var s := BinaryDigits(n);
    if n < 2 {
      assert s == [DigitChar(n)];
      if k > 0 {
        BitOfZero(k - 1);
        assert Bit(n, k) == Bit(0, k - 1);
      }
    } else {
      var high := BinaryDigits(n / 2);
      assert s == high + [DigitChar(n % 2)];
      if k > 0 {
        BinaryDigitFromEnd(n / 2, k - 1);
        assert Bit(n, k) == Bit(n / 2, k - 1);
        if k < |s| {
          assert s[|s| - 1 - k] == high[|high| - 1 - (k - 1)];
        }
      }
    }
  }

  lemma {:induction false} BitOfZero(k: nat)
    ensures Bit(0, k) == 0
    decreases k
  {
    if k > 0 {
      BitOfZero(k - 1);
    }
  }

  lemma ZFillFromEnd(s: string, k: nat)
    requires AllDigits(s) && k < 8
    ensures |ZFill(s, 8)| >= 8
    ensures ZFill(s, 8)[|ZFill(s, 8)| - 1 - k] == if k < |s| then s[|s| - 1 - k] else '0'
  {
    var r := ZFill(s, 8);
    if |s| < 8 {
      assert s == [] || IsDigit(s[0]);
      var pad := Repeat("0", 8 - |s|);
      assert r == pad + s;
      if k >= |s| {
        RepeatChar("0", 8 - |s|, 8 - |s| - 1 - (k - |s|));
      }
    }
  }

  lemma {:induction false} RepeatChar(c: string, n: nat, i: nat)
    requires |c| == 1 && i < n
    ensures Repeat(c, n)[i] == c[0]
    decreases n
  {
    if i > 0 {
      RepeatChar(c, n - 1, i - 1);
    }
  }

  lemma {:induction false} BinaryDigitsAreDigits(n: nat)
    ensures AllDigits(BinaryDigits(n))
    decreases n
  {
    if n >= 2 {
      BinaryDigitsAreDigits(n / 2);
      var s := BinaryDigits(n);
      assert s == BinaryDigits(n / 2) + [DigitChar(n % 2)];
    }
  }

  lemma FlagBitOfZFill(n: nat, k: nat)
    requires k < 8
    ensures FlagBit(ZFill(BinaryDigits(n), 8), k) == Success(Bit(n, k) == 1)
  {
    BinaryDigitsAreDigits(n);
    ZFillFromEnd(BinaryDigits(n), k);
    BinaryDigitFromEnd(n, k);
    var c := ZFill(BinaryDigits(n), 8)[|ZFill(BinaryDigits(n), 8)| - 1 - k];
    assert c == DigitChar(Bit(n, k));
    DigitCharValue(Bit(n, k));
    assert [c][..0] == [];
    assert DecimalValue([c]) == Bit(n, k);
  }

  /** For a non-negative flag, the digits read are the bits 0x1, 0x4 and 0x10
      (SAM Format Specification, section 1.4, field FLAG). */
  lemma FlagBits(flag: int)
    ensures flag >= 0 ==>
              var binary := ZFill(Bin(flag)[2..], 8);
              && FlagBit(binary, 0) == Success(flag % 2 == 1)
              && FlagBit(binary, 2) == Success(flag / 4 % 2 == 1)
              && FlagBit(binary, 4) == Success(flag / 16 % 2 == 1)
  {
    if flag >= 0 {
      assert Bin(flag)[2..] == BinaryDigits(flag);
      FlagBitOfZFill(flag, 0);
      FlagBitOfZFill(flag, 2);
      FlagBitOfZFill(flag, 4);
      assert Bit(flag, 2) == Bit(flag / 2, 1) == Bit(flag / 2 / 2, 0);
      assert Bit(flag, 4) == Bit(flag / 2, 3) == Bit(flag / 2 / 2, 2) == Bit(flag / 2 / 2 / 2, 1) == Bit(flag / 2 / 2 / 2 / 2, 0);
      assert flag / 2 / 2 == flag / 4;
      assert flag / 2 / 2 / 2 / 2 == flag / 16;
    }
  }

  // ---------------------------------------------------------------- Read

  /** A decoded read; `positions` runs from the 5' end to the 3' end. */
  datatype Read = Read(chromosome: string, strand: Strand, positions: seq<int>,
                       abundance: nat, mappings: nat, hasMappings: bool)

  function Reversed(s: seq<int>): (r: seq<int>)
    ensures |r| == |s|
    ensures forall i :: 0 <= i < |s| ==> r[i] == s[|s| - 1 - i]
  {
    seq(|s|, i requires 0 <= i < |s| => s[|s| - 1 - i])
  }

  lemma ReversedReversed(s: seq<int>)
    ensures Reversed(Reversed(s)) == s
  {
  }

  /** Read.confirm_int followed by `int(value)`: an int, a float with no
      fractional part, or text that `int` reads. */
  function ConfirmInt(value: PyValue, name: string): (r: Result<int, Error>)
    ensures r.Success? <==> Integral(value) || (value.PyText? && IntOfText(value.s).Some?)
    ensures r.Success? && Integral(value) ==> r.value == ToInt(value)
    ensures r.Success? && value.PyText? ==> Some(r.value) == IntOfText(value.s)
    ensures r.Failure? ==> r.error == MustBeInteger(name)
  {
    match value
    case PyInt(i) => Success(i)
    case PyFloat(x) => if x == x.Floor as real then Success(x.Floor) else Failure(MustBeInteger(name))
    case PyText(s) => if IntOfText(s).Some? then Success(IntOfText(s).value) else Failure(MustBeInteger(name))
  }

  /** Read.__init__ on its values: the strand is normalised, a minus-strand
      read's positions are reversed, the abundance must be an integer >= 0, and
      the mappings "Unknown" or an integer > 0. */
  function NewRead(chromosome: string, strand: string, abundance: PyValue, mappings: PyValue, positions: seq<int>): (r: Result<Read, Error>)
    ensures r.Success? ==>
              && r.value.chromosome == chromosome
              && r.value.strand == NormaliseStrand(strand)
              && r.value.positions == (if strand == "-" then Reversed(positions) else positions)
              && ConfirmInt(abundance, "Abundance") == Success(r.value.abundance as int)
              && r.value.hasMappings == (mappings != PyText("Unknown"))
              && (r.value.hasMappings ==> ConfirmInt(mappings, "Mappings") == Success(r.value.mappings as int))
              && (!r.value.hasMappings ==> r.value.mappings == 1)
              && r.value.mappings >= 1
    ensures ConfirmInt(abundance, "Abundance").Failure? ==> r == Failure(MustBeInteger("Abundance"))
    ensures ConfirmInt(abundance, "Abundance").Success? && ConfirmInt(abundance, "Abundance").value < 0 ==> r == Failure(AbundanceNegative)
    ensures ConfirmInt(abundance, "Abundance").Success? && ConfirmInt(abundance, "Abundance").value >= 0 && mappings != PyText("Unknown") ==>
              (r.Failure? <==> ConfirmInt(mappings, "Mappings").Failure? || ConfirmInt(mappings, "Mappings").value <= 0)
    ensures ConfirmInt(abundance, "Abundance").Success? && ConfirmInt(abundance, "Abundance").value >= 0 && mappings == PyText("Unknown") ==>
              r == Success(Read(chromosome, NormaliseStrand(strand), if strand == "-" then Reversed(positions) else positions,
                                ConfirmInt(abundance, "Abundance").value, 1, false))
    ensures var valid := ConfirmInt(abundance, "Abundance").Success? && ConfirmInt(abundance, "Abundance").value >= 0;
            valid && mappings != PyText("Unknown") && ConfirmInt(mappings, "Mappings").Failure? ==>
              r == Failure(MustBeInteger("Mappings"))
    ensures var valid := ConfirmInt(abundance, "Abundance").Success? && ConfirmInt(abundance, "Abundance").value >= 0;
            valid && mappings != PyText("Unknown") && ConfirmInt(mappings, "Mappings").Success? && ConfirmInt(mappings, "Mappings").value <= 0 ==>
              r == Failure(MappingsNotPositive)
  {
    var s := NormaliseStrand(strand);
    var positionArray := if s == Minus then Reversed(positions) else positions;
    var a :- ConfirmInt(abundance, "Abundance");
    if a < 0 then Failure(AbundanceNegative)
    else if mappings == PyText("Unknown") then Success(Read(chromosome, s, positionArray, a, 1, false))
    else
      var m :- ConfirmInt(mappings, "Mappings");
      if m > 0 then Success(Read(chromosome, s, positionArray, a, m, true)) else Failure(MappingsNotPositive)
  }

  /** Read.__init__: the caller's list of positions is reversed in place for a
      minus-strand read (before anything is validated), then copied. */
  method Construct(chromosome: string, strand: string, abundance: PyValue, mappings: PyValue, positions: array<int>)
    returns (r: Result<Read, Error>)
    modifies positions
    ensures positions[..] == if strand == "-" then Reversed(old(positions[..])) else old(positions[..])
    ensures r == NewRead(chromosome, strand, abundance, mappings, old(positions[..]))
  {
    var s := NormaliseStrand(strand);
    if s == Minus {
      var n := positions.Length;
      for i := 0 to n / 2
        invariant forall k :: 0 <= k < i ==> positions[k] == old(positions[n - 1 - k]) && positions[n - 1 - k] == old(positions[k])
        invariant forall k :: i <= k < n - i ==> positions[k] == old(positions[k])
      {
        positions[i], positions[n - 1 - i] := positions[n - 1 - i], positions[i];
      }
      assert positions[..] == Reversed(old(positions[..]));
    }
    var positionArray: seq<int> := [];
    for i := 0 to positions.Length
      invariant positionArray == positions[..i]
    {
      positionArray := positionArray + [positions[i]];
    }
    assert positionArray == positions[..];
    var a :- ConfirmInt(abundance, "Abundance");
    if a < 0 {
      return Failure(AbundanceNegative);
    }
    if mappings == PyText("Unknown") {
      return Success(Read(chromosome, s, positionArray, a, 1, false));
    }
    var m :- ConfirmInt(mappings, "Mappings");
    if m > 0 {
      return Success(Read(chromosome, s, positionArray, a, m, true));
    }
    return Failure(MappingsNotPositive);
  }

  /** A minus-strand read built from increasing positions starts at its
      highest position: index 0 is the 5' end. */
  lemma MinusReadDescends(chromosome: string, abundance: PyValue, mappings: PyValue, positions: seq<int>)
    requires StrictlyIncreasing(positions)
    requires NewRead(chromosome, "-", abundance, mappings, positions).Success?
    ensures var p := NewRead(chromosome, "-", abundance, mappings, positions).value.positions;
            forall i, j :: 0 <= i < j < |p| ==> p[i] > p[j]
  {
  }

  // ---------------------------------------------------------------- SAM lines

  /** `re.search(tag + '(\d+)', line)`: the digits after the leftmost
      occurrence of `tag` that is followed by at least one digit. */
  function FindTag(line: string, tag: string): Option<nat>
    decreases |line|
  {
    if |line| <= |tag| then None
    else if line[..|tag|] == tag && IsDigit(line[|tag|]) then
      var digits := line[|tag|..];
      Some(DecimalValue(digits[..DigitPrefix(digits)]))
    else FindTag(line[1..], tag)
  }

  /** A tag written as `tag` and a number, at the front of the line, is found. */
  lemma FindWrittenTag(tag: string, n: nat, rest: string)
    requires rest == [] || !IsDigit(rest[0])
    ensures FindTag(tag + NatToString(n) + rest, tag) == Some(n)
  {
    var written := NatToString(n);
    var line := tag + written + rest;
    var digits := written + rest;
    DecimalOfNatToString(n);
    DigitPrefixAppend(written, rest);
    assert line[..|tag|] == tag && line[|tag|..] == digits;
    assert digits[..|written|] == written;
  }

  /** The two outcomes of create_from_sam that do not raise. */
  datatype SamRead = Aligned(read: Read) | NonAligning

  /** `sam_parts[k]`: IndexError past the end. */
  function Field(parts: seq<string>, k: nat): Result<string, Error> {
    if k < |parts| then Success(parts[k]) else Failure(IndexError)
  }

  /** `int(text)`: ValueError where it does not read an integer. */
  function Integer(text: string): Result<int, Error> {
    match IntOfText(text)
    case None => Failure(ValueError(text))
    case Some(i) => Success(i)
  }

  /** The fields, flags and tags of an aligned line once its chromosome has
      been accepted. */
  function DecodeAligned(line: string, parts: seq<string>, chromosome: string, flags: Flags,
                         extractAbundance: bool, unique: bool): Result<SamRead, Error>
  {
    var mappings :=
      if unique then PyInt(1)
      else match FindTag(line, "NH:i:")
        case None => PyText("Unknown")
        case Some(n) => PyInt(n);
    var abundance :-
      if !extractAbundance then Success(PyInt(1))
      else match FindTag(line, "NA:i:")
        case None => Failure(AbundanceTagMissing)
        case Some(n) => Success(PyInt(n));
    var strand := if flags.reverse then "-" else "+";
    var startText :- Field(parts, 3);
    var start :- Integer(startText);
    var cigar :- Field(parts, 5);
    var sequence :- Field(parts, 9);
    var positions :- Positions(start, cigar, sequence);
    var read :- NewRead(chromosome, strand, abundance, mappings, positions);
    Success(Aligned(read))
  }

  /** The FLAG field of a SAM line, once it is past the chromosome check. */
  function SamFlags(parts: seq<string>): Option<Flags> {
    if |parts| >= 3 && IntOfText(parts[1]).Some? && ParseFlag(IntOfText(parts[1]).value).Success?
    then Some(ParseFlag(IntOfText(parts[1]).value).value)
    else None
  }

  /** Read.create_from_sam on one tab-separated line; `analysisSet` stands for
      the values of the chromosome conversion table. */
  function CreateFromSam(line: string, analysisSet: set<string>, extractAbundance: bool, unique: bool): (r: Result<SamRead, Error>)
    ensures r.Success? ==> SamFlags(Split(line, '\t')).Some?
  {
    var parts := Split(line, '\t');
    var chromosome :- Field(parts, 2);
    if chromosome !in analysisSet then Failure(ChromosomeNotInAnalysisSet(chromosome))
    else
      var flagText :- Field(parts, 1);
      var flag :- Integer(flagText);
      var flags :- ParseFlag(flag);
      if flags.multiple then Failure(MultipleSegments)
      else if flags.unmapped then Success(NonAligning)
      else DecodeAligned(line, parts, chromosome, flags, extractAbundance, unique)
  }

  /** The errors and the non-aligning outcome of create_from_sam: a line with
      fewer than three fields, a chromosome outside the analysis set, a read in
      multiple segments (0x1), an unmapped read (0x4) and a missing abundance tag. */
  lemma CreateFromSamRejects(line: string, analysisSet: set<string>, extractAbundance: bool, unique: bool)
    ensures var parts := Split(line, '\t');
            var r := CreateFromSam(line, analysisSet, extractAbundance, unique);
            && (|parts| < 3 ==> r == Failure(IndexError))
            && (|parts| >= 3 && parts[2] !in analysisSet ==> r == Failure(ChromosomeNotInAnalysisSet(parts[2])))
            && (|parts| >= 3 && parts[2] in analysisSet && SamFlags(parts).Some? ==>
                  && (SamFlags(parts).value.multiple ==> r == Failure(MultipleSegments))
                  && (!SamFlags(parts).value.multiple && SamFlags(parts).value.unmapped ==> r == Success(NonAligning))
                  && ((!SamFlags(parts).value.multiple && !SamFlags(parts).value.unmapped && extractAbundance
                       && FindTag(line, "NA:i:").None?) ==> r == Failure(AbundanceTagMissing)))
  {
    var parts := Split(line, '\t');
    if |parts| >= 3 && parts[2] in analysisSet && SamFlags(parts).Some? {
      var flags := SamFlags(parts).value;
      assert !flags.multiple && !flags.unmapped ==>
        CreateFromSam(line, analysisSet, extractAbundance, unique)
        == DecodeAligned(line, parts, parts[2], flags, extractAbundance, unique);
      if !flags.multiple && !flags.unmapped && extractAbundance && FindTag(line, "NA:i:").None? {
        AbundanceMissing(line, parts, parts[2], flags, unique);
      }
    }
  }

  /** Without an NA tag, an aligned line whose abundance is extracted fails. */
  lemma AbundanceMissing(line: string, parts: seq<string>, chromosome: string, flags: Flags, unique: bool)
    requires FindTag(line, "NA:i:").None?
    ensures DecodeAligned(line, parts, chromosome, flags, true, unique) == Failure(AbundanceTagMissing)
  {
  }

  /** What an aligned line decodes to, in terms of its fields, flags and tags. */
  lemma DecodeAlignedRead(line: string, parts: seq<string>, chromosome: string, flags: Flags,
                          extractAbundance: bool, unique: bool)
    requires DecodeAligned(line, parts, chromosome, flags, extractAbundance, unique).Success?
    ensures var d := DecodeAligned(line, parts, chromosome, flags, extractAbundance, unique).value;
            && d.Aligned?
            && |parts| >= 10 && IntOfText(parts[3]).Some?
            && Positions(IntOfText(parts[3]).value, parts[5], parts[9]).Success?
            && d.read.positions == (if flags.reverse then Reversed(Positions(IntOfText(parts[3]).value, parts[5], parts[9]).value)
                                    else Positions(IntOfText(parts[3]).value, parts[5], parts[9]).value)
            && d.read.chromosome == chromosome
            && (d.read.strand == Minus <==> flags.reverse)
            && (d.read.strand == Plus <==> !flags.reverse)
            && (unique ==> d.read.mappings == 1 && d.read.hasMappings)
            && (!unique ==> d.read.hasMappings == FindTag(line, "NH:i:").Some?)
            && (!unique && FindTag(line, "NH:i:").Some? ==> d.read.mappings == FindTag(line, "NH:i:").value)
            && (!unique && FindTag(line, "NH:i:").None? ==> d.read.mappings == 1)
            && (!extractAbundance ==> d.read.abundance == 1)
            && (extractAbundance ==> FindTag(line, "NA:i:") == Some(d.read.abundance))
  {
    var mappings :=
      if unique then PyInt(1)
      else match FindTag(line, "NH:i:")
        case None => PyText("Unknown")
        case Some(n) => PyInt(n);
    var abundance :=
      if !extractAbundance then PyInt(1)
      else PyInt(FindTag(line, "NA:i:").value);
    assert extractAbundance ==> FindTag(line, "NA:i:").Some?;
    var strand := if flags.reverse then "-" else "+";
    assert |parts| >= 10;
    var start := IntOfText(parts[3]).value;
    var positions := Positions(start, parts[5], parts[9]).value;
    var read := NewRead(chromosome, strand, abundance, mappings, positions);
    assert DecodeAligned(line, parts, chromosome, flags, extractAbundance, unique) == Success(Aligned(read.value));
  }

  /** An aligned read of create_from_sam: its chromosome is the third field, its
      strand is "-" exactly when FLAG 0x10 is set, its mappings are 1 when
      `unique` and otherwise come from the NH tag, and its abundance is 1 unless
      it is extracted from the NA tag. */
  lemma CreateFromSamAligned(line: string, analysisSet: set<string>, extractAbundance: bool, unique: bool)
    requires CreateFromSam(line, analysisSet, extractAbundance, unique).Success?
    requires CreateFromSam(line, analysisSet, extractAbundance, unique).value.Aligned?
    ensures var parts := Split(line, '\t');
            var read := CreateFromSam(line, analysisSet, extractAbundance, unique).value.read;
            && |parts| >= 10 && SamFlags(parts).Some?
            && !SamFlags(parts).value.multiple && !SamFlags(parts).value.unmapped
            && read.chromosome == parts[2] && read.chromosome in analysisSet
            && (read.strand == Minus <==> SamFlags(parts).value.reverse)
            && (read.strand == Plus <==> !SamFlags(parts).value.reverse)
            && (unique ==> read.mappings == 1 && read.hasMappings)
            && (!unique ==> read.hasMappings == FindTag(line, "NH:i:").Some?)
            && (!unique && FindTag(line, "NH:i:").Some? ==> read.mappings == FindTag(line, "NH:i:").value)
            && (!unique && FindTag(line, "NH:i:").None? ==> read.mappings == 1)
            && (!extractAbundance ==> read.abundance == 1)
            && (extractAbundance ==> FindTag(line, "NA:i:") == Some(read.abundance))
            && IntOfText(parts[3]).Some?
            && Positions(IntOfText(parts[3]).value, parts[5], parts[9]).Success?
            && read.positions == (if SamFlags(parts).value.reverse then Reversed(Positions(IntOfText(parts[3]).value, parts[5], parts[9]).value)
                                  else Positions(IntOfText(parts[3]).value, parts[5], parts[9]).value)
  {
    var parts := Split(line, '\t');
    var flags := SamFlags(parts).value;
    assert CreateFromSam(line, analysisSet, extractAbundance, unique)
           == DecodeAligned(line, parts, parts[2], flags, extractAbundance, unique);
    DecodeAlignedRead(line, parts, parts[2], flags, extractAbundance, unique);
  }
}
