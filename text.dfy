/** Strings as Python 2 treats them in the core: decimal integers, `str.split`
    on one separator character, `str.join`, `str.strip`, repetition and padding. */
module Text {
  import opened Wrappers

  predicate IsDigit(c: char) {
    '0' <= c <= '9'
  }

  predicate AllDigits(s: string) {
    forall i :: 0 <= i < |s| ==> IsDigit(s[i])
  }

  function DigitChar(d: nat): (c: char)
    requires d < 10
    ensures IsDigit(c)
  {
    ('0' as int + d) as char
  }

  function DigitValue(c: char): (d: nat)
    requires IsDigit(c)
    ensures d < 10
  {
    (c as int - '0' as int) as nat
  }

  lemma DigitCharValue(d: nat)
    requires d < 10
    ensures DigitValue(DigitChar(d)) == d
  {
  }

  /** The value of a string of decimal digits, as Python's `int` reads it. */
  function DecimalValue(s: string): nat
    requires AllDigits(s)
  {
    if s == [] then 0 else 10 * DecimalValue(s[..|s| - 1]) + DigitValue(s[|s| - 1])
  }

  /** `str(n)` for a natural number: no leading zeros. */
  function NatToString(n: nat): (s: string)
    ensures |s| >= 1
    decreases n
  {
    if n < 10 then [DigitChar(n)] else NatToString(n / 10) + [DigitChar(n % 10)]
  }

  /** `str(n)` is made of decimal digits only. */
  lemma {:induction false} NatToStringAllDigits(n: nat)
    ensures AllDigits(NatToString(n))
    decreases n
  {
    if n >= 10 {
      NatToStringAllDigits(n / 10);
      var s, t := NatToString(n), NatToString(n / 10);
      assert forall i :: 0 <= i < |t| ==> s[i] == t[i];
    }
  }

  /** `str(i)` and `"{}".format(i)` for an integer. */
  function IntToString(i: int): (s: string)
    ensures |s| >= 1
  {
    if i < 0 then "-" + NatToString(-i) else NatToString(i)
  }

  /** Python's `int(text)` on an optionally signed run of decimal digits; None where
      `int` raises ValueError. */
  function ParseInt(s: string): (r: Option<int>)
  {
    if |s| >= 1 && (s[0] == '-' || s[0] == '+') then
      (if |s| >= 2 && AllDigits(s[1..]) then
         var magnitude: int := DecimalValue(s[1..]);
         Some(if s[0] == '-' then -magnitude else magnitude)
       else None)
    else if |s| >= 1 && AllDigits(s) then Some(DecimalValue(s))
    else None
  }

  lemma {:induction false} DecimalOfNatToString(n: nat)
    ensures AllDigits(NatToString(n)) && DecimalValue(NatToString(n)) == n
    decreases n
  {
    NatToStringAllDigits(n);
    var s := NatToString(n);
    if n < 10 {
      DigitCharValue(n);
    } else {
      DecimalOfNatToString(n / 10);
      DigitCharValue(n % 10);
      assert s[..|s| - 1] == NatToString(n / 10);
    }
  }

  /** Decimal formatting and `int` parsing are inverse. */
  lemma ParseIntToString(i: int)
    ensures ParseInt(IntToString(i)) == Some(i)
  {
    var s := IntToString(i);
    if i < 0 {
      DecimalOfNatToString(-i);
      assert s[0] == '-' && s[1..] == NatToString(-i);
    } else {
      DecimalOfNatToString(i);
      assert s == NatToString(i) && IsDigit(s[0]);
    }
  }

  /** Python's `int(text)`: surrounding whitespace is ignored. */
  function IntOfText(s: string): Option<int> {
    ParseInt(Strip(s))
  }

  /** The binary digits of `n`, most significant first, without leading zeros. */
  function BinaryDigits(n: nat): (s: string)
    ensures |s| >= 1
    decreases n
  {
    if n < 2 then [DigitChar(n)] else BinaryDigits(n / 2) + [DigitChar(n % 2)]
  }

  /** Python's `bin(i)`: "0b101", and "-0b101" for a negative number. */
  function Bin(i: int): (s: string)
    ensures |s| >= 3
  {
    if i < 0 then "-0b" + BinaryDigits(-i) else "0b" + BinaryDigits(i)
  }

  /** Python's `s.zfill(width)`: zeros on the left, after a leading sign. */
  function ZFill(s: string, width: nat): (r: string)
    ensures |r| == if |s| < width then width else |s|
  {
    if |s| >= width then s
    else if s != [] && (s[0] == '+' || s[0] == '-') then [s[0]] + Repeat("0", width - |s|) + s[1..]
    else Repeat("0", width - |s|) + s
  }

  /** Python's `s.split(sep)` for a one-character separator. */
  function Split(s: string, sep: char): (parts: seq<string>)
    ensures 1 <= |parts| <= |s| + 1
  {
    if s == [] then [""]
    else if s[0] == sep then [""] + Split(s[1..], sep)
    else
      var rest := Split(s[1..], sep);
      [[s[0]] + rest[0]] + rest[1..]
  }

  /** Python's `sep.join(parts)`. */
  function Join(parts: seq<string>, sep: char): string
  {
    if parts == [] then ""
    else if |parts| == 1 then parts[0]
    else parts[0] + [sep] + Join(parts[1..], sep)
  }

  predicate NoSeparator(parts: seq<string>, sep: char) {
    forall i :: 0 <= i < |parts| ==> sep !in parts[i]
  }

  /** Split's pieces hold no separator and join back to the text. */
  lemma SplitPieces(s: string, sep: char)
    ensures NoSeparator(Split(s, sep), sep)
    ensures Join(Split(s, sep), sep) == s
  {
    SplitSeparatorFree(s, sep);
    SplitJoinBack(s, sep);
  }

  lemma {:induction false} SplitSeparatorFree(s: string, sep: char)
    ensures NoSeparator(Split(s, sep), sep)
    decreases |s|
  {
    if s != [] {
      SplitSeparatorFree(s[1..], sep);
      var rest := Split(s[1..], sep);
      var parts := Split(s, sep);
      forall i | 0 <= i < |parts| ensures sep !in parts[i] {
        if s[0] == sep {
          if i > 0 {
            assert parts[i] == rest[i - 1];
          }
        } else if i > 0 {
          assert parts[i] == rest[i];
        } else {
          assert parts[0] == [s[0]] + rest[0];
        }
      }
    }
  }

  lemma {:induction false} SplitJoinBack(s: string, sep: char)
    ensures Join(Split(s, sep), sep) == s
    decreases |s|
  {
    if s != [] {
      SplitJoinBack(s[1..], sep);
      var rest := Split(s[1..], sep);
      if s[0] == sep {
        JoinEmptyFirst(rest, sep);
      } else {
        JoinLongerFirst(s[0], rest, sep);
      }
      assert s == [s[0]] + s[1..];
    }
  }

  lemma JoinEmptyFirst(rest: seq<string>, sep: char)
    requires |rest| >= 1
    ensures Join([""] + rest, sep) == [sep] + Join(rest, sep)
  {
    assert ([""] + rest)[1..] == rest;
  }

  lemma JoinLongerFirst(c: char, rest: seq<string>, sep: char)
    requires |rest| >= 1
    ensures Join([[c] + rest[0]] + rest[1..], sep) == [c] + Join(rest, sep)
  {
    var parts := [[c] + rest[0]] + rest[1..];
    if |rest| == 1 {
      assert parts == [[c] + rest[0]];
    } else {
      assert parts[1..] == rest[1..];
    }
  }

  lemma {:induction false} SplitPrefix(piece: string, rest: string, sep: char)
    requires sep !in piece
    ensures Split(piece + [sep] + rest, sep) == [piece] + Split(rest, sep)
    decreases |piece|
  {
    if piece == [] {
      assert piece + [sep] + rest == [sep] + rest;
    } else {
      SplitPrefix(piece[1..], rest, sep);
      assert (piece + [sep] + rest)[1..] == piece[1..] + [sep] + rest;
      assert [piece[0]] + piece[1..] == piece;
    }
  }

  /** Splitting a joined list of separator-free fields gives the fields back. */
  lemma {:induction false} SplitJoin(parts: seq<string>, sep: char)
    requires |parts| >= 1 && NoSeparator(parts, sep)
    ensures Split(Join(parts, sep), sep) == parts
    decreases |parts|
  {
    if |parts| == 1 {
      SplitNoSeparator(parts[0], sep);
    } else {
      SplitJoin(parts[1..], sep);
      SplitPrefix(parts[0], Join(parts[1..], sep), sep);
      assert [parts[0]] + parts[1..] == parts;
    }
  }

  lemma {:induction false} SplitNoSeparator(s: string, sep: char)
    requires sep !in s
    ensures Split(s, sep) == [s]
    decreases |s|
  {
    if s != [] {
      SplitNoSeparator(s[1..], sep);
      assert [s[0]] + s[1..] == s;
    }
  }

  /** The characters Python's `str.strip()` removes. */
  predicate IsWhitespace(c: char) {
    c == ' ' || c == '\t' || c == '\n' || c == '\r' || c == '\U{B}' || c == '\U{C}'
  }

  function StripLeft(s: string): (r: string)
    ensures |r| <= |s| && r == s[|s| - |r|..]
    ensures r == [] || !IsWhitespace(r[0])
  {
    if s != [] && IsWhitespace(s[0]) then StripLeft(s[1..]) else s
  }

  function StripRight(s: string): (r: string)
    ensures |r| <= |s| && r == s[..|r|]
    ensures r == [] || !IsWhitespace(r[|r| - 1])
  {
    if s != [] && IsWhitespace(s[|s| - 1]) then StripRight(s[..|s| - 1]) else s
  }

  /** Python's `s.strip()`. */
  function Strip(s: string): string {
    StripRight(StripLeft(s))
  }

  /** `s * n`. */
  function Repeat(s: string, n: nat): (r: string)
    ensures |s| == 1 ==> |r| == n
  {
    if n == 0 then "" else s + Repeat(s, n - 1)
  }

  /** `s * n` is `n` times as long as `s`. */
  lemma {:induction false} RepeatLength(s: string, n: nat)
    ensures |Repeat(s, n)| == n * |s|
  {
    if n > 0 {
      RepeatLength(s, n - 1);
      var m := |s|;
      assert |Repeat(s, n)| == m + (n - 1) * m;
      assert m + (n - 1) * m == n * m;
    }
  }

  /** `"{0:>w}".format(s)`: right-aligned in a field of `width` characters. */
  function PadLeft(s: string, width: nat): (r: string)
    ensures |r| == if |s| < width then width else |s|
  {
    if |s| < width then Repeat(" ", width - |s|) + s else s
  }

  /** Right alignment keeps the text at the end of the field. */
  lemma PadLeftEnds(s: string, width: nat)
    ensures var r := PadLeft(s, width); r[|r| - |s|..] == s
  {
  }

  /** Padding is made of spaces only. */
  lemma {:induction false} RepeatSpaces(n: nat)
    ensures forall c :: c in Repeat(" ", n) ==> c == ' '
    decreases n
  {
    if n > 0 {
      RepeatSpaces(n - 1);
      assert Repeat(" ", n) == " " + Repeat(" ", n - 1);
    }
  }

  /** Leading spaces are stripped. */
  lemma {:induction false} StripLeftSpaces(n: nat, s: string)
    ensures StripLeft(Repeat(" ", n) + s) == StripLeft(s)
    decreases n
  {
    if n > 0 {
      var rest := Repeat(" ", n - 1) + s;
      assert Repeat(" ", n) + s == " " + rest;
      StripLeftSpace(rest);
      StripLeftSpaces(n - 1, s);
    } else {
      assert Repeat(" ", n) + s == s;
    }
  }

  /** One leading space is stripped. */
  lemma StripLeftSpace(s: string)
    ensures StripLeft(" " + s) == StripLeft(s)
  {
    assert (" " + s)[1..] == s;
  }

  /** A right-aligned integer reads back as that integer. */
  lemma PadLeftReadsBack(i: int, width: nat)
    ensures IntOfText(PadLeft(IntToString(i), width)) == Some(i)
  {
    var s := IntToString(i);
    PadLeftStrip(s, width);
    IntOfTextToString(i);
  }

  /** Right alignment is undone by stripping the left. */
  lemma PadLeftStrip(s: string, width: nat)
    ensures Strip(PadLeft(s, width)) == Strip(s)
  {
    var padded := PadLeft(s, width);
    if |s| < width {
      assert padded == Repeat(" ", width - |s|) + s;
      StripLeftSpaces(width - |s|, s);
    }
    assert StripLeft(padded) == StripLeft(s);
  }

  /** A right-aligned text holds no character the text and the padding do not. */
  lemma PadLeftAvoids(s: string, width: nat, c: char)
    requires c != ' ' && c !in s
    ensures c !in PadLeft(s, width)
  {
    if |s| < width {
      RepeatSpaces(width - |s|);
    }
  }

  /** `"{0:w}".format(s)` for a string: left-aligned in a field of `width` characters. */
  function PadRight(s: string, width: nat): (r: string)
    ensures |r| == if |s| < width then width else |s|
  {
    if |s| < width then s + Repeat(" ", width - |s|) else s
  }

  /** Left alignment keeps the text at the start of the field. */
  lemma PadRightStarts(s: string, width: nat)
    ensures PadRight(s, width)[..|s|] == s
  {
  }

  /** Python's ordering of strings: lexicographic by character code. */
  predicate LexLess(a: string, b: string) {
    if a == [] then b != []
    else if b == [] then false
    else a[0] < b[0] || (a[0] == b[0] && LexLess(a[1..], b[1..]))
  }

  lemma {:induction false} LexLessTransitive(a: string, b: string, c: string)
    requires LexLess(a, b) && LexLess(b, c)
    ensures LexLess(a, c)
    decreases |a|
  {
    if a != [] && b != [] && c != [] && a[0] == b[0] && b[0] == c[0] {
      LexLessTransitive(a[1..], b[1..], c[1..]);
    }
  }

  /** Strings that first differ at their first character are ordered by it. */
  lemma LexLessFirst(a: string, b: string)
    requires a != [] && b != [] && a[0] < b[0]
    ensures LexLess(a, b)
  {
  }

  /** A common prefix does not change the order. */
  lemma {:induction false} LexLessPrefix(p: string, a: string, b: string)
    requires LexLess(a, b)
    ensures LexLess(p + a, p + b)
    decreases |p|
  {
    if p == [] {
      assert p + a == a && p + b == b;
    } else {
      LexLessPrefix(p[1..], a, b);
      assert (p + a)[1..] == p[1..] + a;
      assert (p + b)[1..] == p[1..] + b;
      assert (p + a)[0] == p[0] == (p + b)[0];
    }
  }

  /** `sep.join(parts)` holds no character other than the separator and those of the parts. */
  lemma {:induction false} JoinAvoids(parts: seq<string>, sep: char, c: char)
    requires c != sep && forall i :: 0 <= i < |parts| ==> c !in parts[i]
    ensures c !in Join(parts, sep)
    decreases |parts|
  {
    if |parts| > 1 {
      JoinAvoids(parts[1..], sep, c);
      assert forall i :: 1 <= i < |parts| ==> parts[1..][i - 1] == parts[i];
    }
  }

  /** `str.strip()` leaves a string alone that neither starts nor ends with whitespace. */
  lemma StripUnchanged(s: string)
    requires s != [] && !IsWhitespace(s[0]) && !IsWhitespace(s[|s| - 1])
    ensures Strip(s) == s
  {
  }

  lemma {:induction false} NatToStringDigits(n: nat)
    ensures forall c :: c in NatToString(n) ==> IsDigit(c)
  {
    var s := NatToString(n);
    NatToStringAllDigits(n);
    forall c | c in s ensures IsDigit(c) {
      var i :| 0 <= i < |s| && s[i] == c;
    }
  }

  /** `int(str(i))` is `i`, whitespace handling included. */
  lemma IntOfTextToString(i: int)
    ensures IntOfText(IntToString(i)) == Some(i)
  {
    var s := IntToString(i);
    NatToStringDigits(if i < 0 then -i else i);
    assert s[|s| - 1] in s;
    assert s[0] in s;
    StripUnchanged(s);
    ParseIntToString(i);
  }

  /** A decimal integer holds no whitespace and no separator other than '-'. */
  lemma IntToStringChars(i: int, c: char)
    requires c != '-' && !IsDigit(c)
    ensures c !in IntToString(i)
  {
    NatToStringDigits(if i < 0 then -i else i);
  }

  /** Joining one more part appends the separator and the part. */
  lemma {:induction false} JoinAppend(parts: seq<string>, x: string, sep: char)
    requires |parts| >= 1
    ensures Join(parts + [x], sep) == Join(parts, sep) + [sep] + x
    decreases |parts|
  {
    if |parts| == 1 {
      assert (parts + [x])[1..] == [x];
    } else {
      assert (parts + [x])[1..] == parts[1..] + [x];
      JoinAppend(parts[1..], x, sep);
    }
  }

  /** `(a + b)[:-1]` drops the last character of `b`. */
  lemma DropLast(a: string, b: string)
    requires b != []
    ensures (a + b)[..|a + b| - 1] == a + b[..|b| - 1]
  {
  }

  /** Two parts joined. */
  lemma JoinPair(a: string, b: string, sep: char)
    ensures Join([a, b], sep) == a + [sep] + b
  {
    assert [a, b][1..] == [b];
  }

  /** A join starts with the first part. */
  lemma JoinFirst(parts: seq<string>, sep: char)
    requires |parts| >= 1 && parts[0] != []
    ensures Join(parts, sep) != [] && Join(parts, sep)[0] == parts[0][0]
  {
  }

  /** A join ends with the last part. */
  lemma {:induction false} JoinLast(parts: seq<string>, sep: char)
    requires |parts| >= 1 && parts[|parts| - 1] != []
    ensures var s := Join(parts, sep);
            s != [] && s[|s| - 1] == parts[|parts| - 1][|parts[|parts| - 1]| - 1]
    decreases |parts|
  {
    if |parts| > 1 {
      assert parts[1..][|parts| - 2] == parts[|parts| - 1];
      JoinLast(parts[1..], sep);
    }
  }
}
