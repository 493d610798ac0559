/** String handling the report service relies on: Python's `str.strip()`,
    `str.split("\n")`, the decimal rendering of an `int` inside an f-string,
    and the reference definitions (Join, ParseInt, LinhaEm) they are proved against. */
module Texto {

  /** Python's `str.isspace()` for a single character: the ASCII whitespace and
      separator controls plus the Unicode space separators. */
  predicate IsSpace(c: char) {
    c == ' ' || c == '\t' || c == '\n' || c == '\r' || c == '\U{000B}' || c == '\U{000C}'
    || ('\U{001C}' <= c <= '\U{001F}') || c == '\U{0085}' || c == '\U{00A0}' || c == '\U{1680}'
    || ('\U{2000}' <= c <= '\U{200A}') || c == '\U{2028}' || c == '\U{2029}'
    || c == '\U{202F}' || c == '\U{205F}' || c == '\U{3000}'
  }

  /** Removes leading whitespace: the result is a suffix of `s`, everything cut
      off is whitespace, and the result does not start with whitespace. */
  function StripLeft(s: string): (r: string)
    ensures |r| <= |s| && r == s[|s| - |r|..]
    ensures forall k :: 0 <= k < |s| - |r| ==> IsSpace(s[k])
    ensures r == [] || !IsSpace(r[0])
    decreases |s|
  {
    if s == [] || !IsSpace(s[0]) then s else StripLeft(s[1..])
  }

  /** Removes trailing whitespace: the result is a prefix of `s`, everything cut
      off is whitespace, and the result does not end with whitespace. */
  function StripRight(s: string): (r: string)
    ensures |r| <= |s| && r == s[..|r|]
    ensures forall k :: |r| <= k < |s| ==> IsSpace(s[k])
    ensures r == [] || !IsSpace(r[|r| - 1])
    decreases |s|
  {
    if s == [] || !IsSpace(s[|s| - 1]) then s else StripRight(s[..|s| - 1])
  }

  /** Number of whitespace characters Python's `strip()` cuts off the front. */
  function Lead(s: string): nat
  {
    |s| - |StripLeft(s)|
  }

  /** Python's `s.strip()`: the infix of `s` that starts after the leading
      whitespace, in which only whitespace follows, and which neither starts
      nor ends with whitespace. */
  function Strip(s: string): (r: string)
    ensures Lead(s) + |r| <= |s| && r == s[Lead(s)..Lead(s) + |r|]
    ensures forall k :: 0 <= k < Lead(s) ==> IsSpace(s[k])
    ensures forall k :: Lead(s) + |r| <= k < |s| ==> IsSpace(s[k])
    ensures r == [] || (!IsSpace(r[0]) && !IsSpace(r[|r| - 1]))
  {
    var left := StripLeft(s);
    var r := StripRight(left);
    assert r == s[|s| - |left|..|s| - |left| + |r|];
    r
  }

  /** Python's `s.split("\n")`: the pieces between newlines, in order; there is
      always at least one piece. */
  function Split(s: string): (r: seq<string>)
    ensures |r| > 0
    decreases |s|
  {
    if s == [] then [[]]
    else if s[0] == '\n' then [[]] + Split(s[1..])
    else
      var t := Split(s[1..]);
      [[s[0]] + t[0]] + t[1..]
  }

  /** There is one piece more than there are newlines. */
  lemma {:induction false} SplitCount(s: string)
    ensures |Split(s)| == multiset(s)['\n'] + 1
    decreases |s|
  {
    if s != [] {
      SplitCount(s[1..]);
      assert s == [s[0]] + s[1..];
    }
  }

  /** No piece holds a newline. */
  lemma {:induction false} SplitNoNewline(s: string)
    ensures forall k :: 0 <= k < |Split(s)| ==> '\n' !in Split(s)[k]
    decreases |s|
  {
    if s != [] {
      SplitNoNewline(s[1..]);
    }
  }

  /** `"\n".join(lines)`: the reference partner of Split. */
  function Join(lines: seq<string>): string
    decreases |lines|
  {
    if |lines| == 0 then []
    else if |lines| == 1 then lines[0]
    else lines[0] + "\n" + Join(lines[1..])
  }

  lemma JoinCons(x: string, rest: seq<string>)
    requires |rest| > 0
    ensures Join([x] + rest) == x + "\n" + Join(rest)
  {
    assert ([x] + rest)[1..] == rest;
  }

  /** Splitting a string that opens with a newline starts an empty piece. */
  lemma SplitNewline(rest: string)
    ensures Split("\n" + rest) == [[]] + Split(rest)
  {
    assert ("\n" + rest)[1..] == rest;
  }

  /** Splitting a string that opens with another character puts that
      character in front of the first piece of the rest. */
  lemma SplitChar(c: char, rest: string)
    requires c != '\n'
    ensures Split([c] + rest) == [[c] + Split(rest)[0]] + Split(rest)[1..]
  {
    assert ([c] + rest)[1..] == rest;
  }

  /** Putting a character in front of the first line puts it in front of the
      joined text. */
  lemma JoinPrepend(c: char, first: string, rest: seq<string>)
    ensures Join([[c] + first] + rest) == [c] + Join([first] + rest)
  {
    if rest == [] {
      assert [[c] + first] + rest == [[c] + first];
      assert [first] + rest == [first];
    } else {
      JoinCons([c] + first, rest);
      JoinCons(first, rest);
      assert [c] + first + "\n" + Join(rest) == [c] + (first + "\n" + Join(rest));
    }
  }

  /** Joining the pieces of a split gives back the string, whatever it holds. */
  lemma {:induction false} JoinSplit(s: string)
    ensures Join(Split(s)) == s
    decreases |s|
  {
    if s != [] {
      JoinSplit(s[1..]);
      var rest := s[1..];
      assert s == [s[0]] + rest;
      if s[0] == '\n' {
        SplitNewline(rest);
        JoinCons([], Split(rest));
      } else {
        SplitChar(s[0], rest);
        var t := Split(rest);
        assert t == [t[0]] + t[1..];
        JoinPrepend(s[0], t[0], t[1..]);
      }
    }
  }

  /** A string without a newline splits into itself followed, after a newline,
      by the pieces of the rest. */
  lemma {:induction false} SplitAfterLine(x: string, rest: string)
    requires '\n' !in x
    ensures Split(x + "\n" + rest) == [x] + Split(rest)
    decreases |x|
  {
    if x == [] {
      assert x + "\n" + rest == "\n" + rest;
      assert ("\n" + rest)[1..] == rest;
    } else {
      var s := x + "\n" + rest;
      assert s[0] == x[0] && s[1..] == x[1..] + "\n" + rest;
      SplitAfterLine(x[1..], rest);
      assert [x[0]] + x[1..] == x;
    }
  }

  /** A string without a newline is a single piece. */
  lemma {:induction false} SplitSingle(x: string)
    requires '\n' !in x
    ensures Split(x) == [x]
    decreases |x|
  {
    if x != [] {
      SplitSingle(x[1..]);
      assert [x[0]] + x[1..] == x;
    }
  }

  /** Splitting a join of newline-free lines gives back the lines: the split is
      the exact inverse of the join on such input. */
  lemma {:induction false} SplitJoin(lines: seq<string>)
    requires |lines| > 0
    requires forall x :: x in lines ==> '\n' !in x
    ensures Split(Join(lines)) == lines
    decreases |lines|
  {
    if |lines| == 1 {
      SplitSingle(lines[0]);
    } else {
      SplitJoin(lines[1..]);
      SplitAfterLine(lines[0], Join(lines[1..]));
      assert lines == [lines[0]] + lines[1..];
    }
  }

  /** `x` stands in `t` as a complete line starting at offset `i`: it is
      preceded by the start of `t` or a newline and followed by a newline. */
  predicate LinhaEm(t: string, i: int, x: string) {
    0 <= i && i + |x| < |t| && t[i..i + |x|] == x
    && (i == 0 || t[i - 1] == '\n') && t[i + |x|] == '\n'
  }

  /** `x` is a complete line of `t` somewhere. */
  ghost predicate TemLinha(t: string, x: string) {
    exists i :: LinhaEm(t, i, x)
  }

  /** Offset of line `k` in `Join(lines)`. */
  function Inicio(lines: seq<string>, k: nat): nat
    requires k < |lines|
    decreases k
  {
    if k == 0 then 0 else |lines[0]| + 1 + Inicio(lines[1..], k - 1)
  }

  lemma ShiftLinha(p: string, t: string, j: int, x: string)
    requires |p| > 0 && p[|p| - 1] == '\n'
    requires LinhaEm(t, j, x)
    ensures LinhaEm(p + t, |p| + j, x)
  {
    assert (p + t)[|p| + j..|p| + j + |x|] == t[j..j + |x|];
  }

  /** Every element of a list of lines appears, as a complete line, at its
      offset in the text `Join(lines) + "\n"`. */
  lemma {:induction false} LinhaDoJoin(lines: seq<string>, k: nat)
    requires k < |lines|
    ensures LinhaEm(Join(lines) + "\n", Inicio(lines, k), lines[k])
    decreases k
  {
    var t := Join(lines) + "\n";
    if |lines| == 1 {
      assert t == lines[0] + "\n";
      assert t[..|lines[0]|] == lines[0];
    } else {
      var rest := Join(lines[1..]) + "\n";
      var p := lines[0] + "\n";
      assert t == p + rest;
      if k == 0 {
        assert t[..|lines[0]|] == lines[0];
      } else {
        LinhaDoJoin(lines[1..], k - 1);
        ShiftLinha(p, rest, Inicio(lines[1..], k - 1), lines[1..][k - 1]);
      }
    }
  }

  /** Every element of a list of lines is a complete line of the joined text. */
  lemma LinhaDoTexto(lines: seq<string>, k: nat, x: string)
    requires k < |lines| && lines[k] == x
    ensures TemLinha(Join(lines) + "\n", x)
  {
    LinhaDoJoin(lines, k);
  }

  /** The first element is the opening line of the joined text. */
  lemma PrimeiraLinha(lines: seq<string>, x: string)
    requires |lines| > 0 && lines[0] == x
    ensures LinhaEm(Join(lines) + "\n", 0, x)
  {
    LinhaDoJoin(lines, 0);
  }

  /** The last element is the closing line of the joined text. */
  lemma UltimaLinha(lines: seq<string>, x: string)
    requires |lines| > 0 && lines[|lines| - 1] == x
    ensures var t := Join(lines) + "\n"; LinhaEm(t, |t| - |x| - 1, x)
  {
    LinhaDoJoin(lines, |lines| - 1);
    InicioUltimo(lines);
  }

  /** The same, for a text known to be such a join. */
  lemma UltimaLinhaDe(t: string, lines: seq<string>, x: string)
    requires |lines| > 0 && lines[|lines| - 1] == x && t == Join(lines) + "\n"
    ensures LinhaEm(t, |t| - |x| - 1, x)
  {
    UltimaLinha(lines, x);
  }

  /** `x` and `y` are complete lines of `t`, with `x` further up than `y`. */
  ghost predicate Antes(t: string, x: string, y: string) {
    exists i, j :: 0 <= i < j && LinhaEm(t, i, x) && LinhaEm(t, j, y)
  }

  /** Two elements taken in increasing order stand as lines of the joined text
      in that same order. */
  lemma LinhasEmOrdem(lines: seq<string>, a: nat, b: nat, x: string, y: string)
    requires a < b < |lines| && lines[a] == x && lines[b] == y
    ensures Antes(Join(lines) + "\n", x, y)
  {
    LinhaDoJoin(lines, a);
    LinhaDoJoin(lines, b);
    InicioCrescente(lines, a, b);
  }

  /** The last line ends exactly where the joined text ends. */
  lemma {:induction false} InicioUltimo(lines: seq<string>)
    requires |lines| > 0
    ensures Inicio(lines, |lines| - 1) + |lines[|lines| - 1]| == |Join(lines)|
    decreases |lines|
  {
    if |lines| > 1 {
      InicioUltimo(lines[1..]);
    }
  }

  /** Line offsets grow strictly with the line number. */
  lemma {:induction false} InicioCrescente(lines: seq<string>, a: nat, b: nat)
    requires a < b < |lines|
    ensures Inicio(lines, a) < Inicio(lines, b)
    decreases a
  {
    if a > 0 {
      InicioCrescente(lines[1..], a - 1, b - 1);
    }
  }

  /** Stripping `Join(lines) + "\n"` removes just the final newline when the
      first line starts, and the last line ends, with a visible character. */
  lemma StripJoin(lines: seq<string>)
    requires |lines| > 0
    requires |lines[0]| > 0 && !IsSpace(lines[0][0])
    requires |lines[|lines| - 1]| > 0 && !IsSpace(lines[|lines| - 1][|lines[|lines| - 1]| - 1])
    ensures Strip(Join(lines) + "\n") == Join(lines)
  {
    var j := Join(lines);
    var t := j + "\n";
    var last := lines[|lines| - 1];
    LinhaDoJoin(lines, 0);
    assert t[0] == lines[0][0];
    LinhaDoJoin(lines, |lines| - 1);
    InicioUltimo(lines);
    assert t[|j| - 1] == last[|last| - 1];
    assert StripLeft(t) == t;
    assert t[..|t| - 1] == j;
    assert StripRight(t) == StripRight(j);
  }

  /** The text `Join(lines) + "\n"`, trimmed and split on newlines, gives back
      the lines when none holds a newline and the text neither starts nor ends
      with whitespace. */
  lemma SplitStripJoin(lines: seq<string>)
    requires |lines| > 0 && forall x :: x in lines ==> '\n' !in x
    requires |lines[0]| > 0 && !IsSpace(lines[0][0])
    requires |lines[|lines| - 1]| > 0 && !IsSpace(lines[|lines| - 1][|lines[|lines| - 1]| - 1])
    ensures Split(Strip(Join(lines) + "\n")) == lines
  {
    StripJoin(lines);
    SplitJoin(lines);
  }

  // ---------------------------------------------------------------------------
  // Decimal rendering of integers, as `str(n)` / `f"{n}"` produce it.

  predicate IsDigit(c: char) { '0' <= c <= '9' }

  function DigitChar(d: nat): (c: char)
    requires d < 10
    ensures IsDigit(c) && c as int - '0' as int == d
  {
    (d + '0' as int) as char
  }

  /** Base-10 digits of `n`, most significant first, without leading zeros. */
  function NatToDecimal(n: nat): (r: string)
    ensures |r| > 0 && forall k :: 0 <= k < |r| ==> IsDigit(r[k])
    ensures r[0] == '0' <==> n == 0
    ensures n == 0 ==> r == "0"
    decreases n
  {
    if n < 10 then [DigitChar(n)] else NatToDecimal(n / 10) + [DigitChar(n % 10)]
  }

  /** `str(i)` for a Python int: a minus sign exactly for negative numbers,
      then the digits of the magnitude. */
  function IntToDecimal(i: int): (r: string)
    ensures |r| > 0 && (r[0] == '-' <==> i < 0)
    ensures forall k :: 0 <= k < |r| ==> IsDigit(r[k]) || (k == 0 && r[k] == '-')
    ensures i >= 0 && r[0] == '0' ==> r == "0"
    ensures i < 0 ==> |r| > 1 && r[1] != '0'
  {
    if i < 0 then "-" + NatToDecimal(-i) else NatToDecimal(i)
  }

  predicate AllDigits(s: string) {
    forall k :: 0 <= k < |s| ==> IsDigit(s[k])
  }

  /** The value of a string of digits: the reference partner of NatToDecimal. */
  function ParseNat(s: string): nat
    requires AllDigits(s)
    decreases |s|
  {
    if s == [] then 0
    else 10 * ParseNat(s[..|s| - 1]) + (s[|s| - 1] as int - '0' as int)
  }

  function ParseInt(s: string): int
    requires |s| > 0
    requires (s[0] == '-' && AllDigits(s[1..])) || AllDigits(s)
  {
    if s[0] == '-' && AllDigits(s[1..]) then 0 - ParseNat(s[1..]) else ParseNat(s)
  }

  /** Reading back the digits of `n` gives `n`. */
  lemma {:induction false} NatDecimalRoundTrip(n: nat)
    ensures ParseNat(NatToDecimal(n)) == n
    decreases n
  {
    if n >= 10 {
      NatDecimalRoundTrip(n / 10);
      var r := NatToDecimal(n / 10);
      assert (r + [DigitChar(n % 10)])[..|r|] == r;
    }
  }

  /** Reading back the rendering of any int gives the int: the rendering loses
      nothing, sign included. */
  lemma IntDecimalRoundTrip(i: int)
    ensures ParseInt(IntToDecimal(i)) == i
  {
    if i < 0 {
      NatDecimalRoundTrip(-i);
      assert IntToDecimal(i)[1..] == NatToDecimal(-i);
    } else {
      NatDecimalRoundTrip(i);
    }
  }
}
