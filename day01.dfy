/** Trebuchet calibration: each line's calibration value is its first digit
    followed by its last digit. Part 1 reads the digit characters; part 2 also
    reads the spelled-out words "one" to "nine". */
module Trebuchet {
  import opened Wrappers

  predicate IsDigit(c: char)
  {
    '0' <= c <= '9'
  }

  function DigitValue(c: char): int
  {
    c as int - '0' as int
  }

  /** `int(a + b)` for two digit characters. */
  function TwoDigits(a: char, b: char): int
  {
    10 * DigitValue(a) + DigitValue(b)
  }

  /** The calibration values of all lines added up; the first line without a
      value fails the whole sum. */
  function SumLines(lines: seq<string>, value: string -> Result<int>): Result<int>
  {
    if lines == [] then Ok(0)
    else
      match SumLines(lines[..|lines| - 1], value)
      case Err(e) => Err(e)
      case Ok(s) =>
        match value(lines[|lines| - 1])
        case Err(e) => Err(e)
        case Ok(v) => Ok(s + v)
  }

  /** One more line with a value adds it to the sum. */
  lemma SumLinesSnoc(lines: seq<string>, value: string -> Result<int>, k: nat, s: int, v: int)
    requires k < |lines| && SumLines(lines[..k], value) == Ok(s) && value(lines[k]) == Ok(v)
    ensures SumLines(lines[..k + 1], value) == Ok(s + v)
  {
    assert lines[..k + 1][..k] == lines[..k];
  }

  /** Once a prefix of the lines fails, so do all the lines. */
  lemma {:induction false} SumLinesFails(lines: seq<string>, value: string -> Result<int>, n: nat)
    requires n <= |lines| && SumLines(lines[..n], value).Err?
    ensures SumLines(lines, value) == SumLines(lines[..n], value)
    decreases |lines| - n
  {
    if n == |lines| {
      assert lines[..n] == lines;
    } else {
      assert lines[..n + 1][..n] == lines[..n];
      SumLinesFails(lines, value, n + 1);
    }
  }

  // ---------------------------------------------------------------------------
  // Part 1
  // ---------------------------------------------------------------------------

  /** `[char for char in line if char.isdigit()]`. */
  function Digits(line: string): (ds: string)
    ensures forall k :: 0 <= k < |ds| ==> IsDigit(ds[k])
  {
    if line == [] then []
    else if IsDigit(line[0]) then [line[0]] + Digits(line[1..])
    else Digits(line[1..])
  }

  /** A line's part 1 value; `digits[0]` of a line without digits fails with
      `IndexError`. */
  function LineValue1(line: string): Result<int>
  {
    var ds := Digits(line);
    if ds == [] then Err(IndexError) else Ok(TwoDigits(ds[0], ds[|ds| - 1]))
  }

  /** The first digit character of the line is the first of `Digits`. */
  lemma {:induction false} DigitsFirst(line: string, i: nat)
    requires i < |line| && IsDigit(line[i])
    requires forall j :: 0 <= j < i ==> !IsDigit(line[j])
    ensures Digits(line) != [] && Digits(line)[0] == line[i]
  {
    if i > 0 {
      DigitsFirst(line[1..], i - 1);
    }
  }

  /** The last digit character of the line is the last of `Digits`. */
  lemma {:induction false} DigitsLast(line: string, i: nat)
    requires i < |line| && IsDigit(line[i])
    requires forall j :: i < j < |line| ==> !IsDigit(line[j])
    ensures Digits(line) != [] && Digits(line)[|Digits(line)| - 1] == line[i]
  {
    if i > 0 {
      DigitsLast(line[1..], i - 1);
    } else {
      NoDigits(line[1..]);
    }
  }

  /** A line without digit characters has no digits. */
  lemma {:induction false} NoDigits(line: string)
    requires forall j :: 0 <= j < |line| ==> !IsDigit(line[j])
    ensures Digits(line) == []
  {
    if line != [] {
      NoDigits(line[1..]);
    }
  }

  /** The part 1 value is the first digit character followed by the last; a line
      with one digit doubles it, and a line without digits fails. */
  lemma LineValue1Meaning(line: string, i: nat, j: nat)
    requires i <= j < |line| && IsDigit(line[i]) && IsDigit(line[j])
    requires forall k :: 0 <= k < i ==> !IsDigit(line[k])
    requires forall k :: j < k < |line| ==> !IsDigit(line[k])
    ensures LineValue1(line) == Ok(TwoDigits(line[i], line[j]))
    ensures i == j ==> LineValue1(line) == Ok(11 * DigitValue(line[i]))
  {
    DigitsFirst(line, i);
    DigitsLast(line, j);
  }

  lemma LineValue1Fails(line: string)
    ensures LineValue1(line).Err? <==> forall k :: 0 <= k < |line| ==> !IsDigit(line[k])
  {
    if forall k :: 0 <= k < |line| ==> !IsDigit(line[k]) {
      NoDigits(line);
    } else {
      var i :| 0 <= i < |line| && IsDigit(line[i]);
      DigitsFirstExists(line, i);
    }
  }

  lemma {:induction false} DigitsFirstExists(line: string, i: nat)
    requires i < |line| && IsDigit(line[i])
    ensures Digits(line) != []
  {
    if !IsDigit(line[0]) {
      DigitsFirstExists(line[1..], i - 1);
    }
  }

  /** `part1`: adds up the lines' values. */
  method Part1(lines: seq<string>) returns (r: Result<int>)
    ensures r == SumLines(lines, LineValue1)
  {
    var s := 0;
    for k := 0 to |lines|
      invariant SumLines(lines[..k], LineValue1) == Ok(s)
    {
      assert lines[..k + 1][..k] == lines[..k];
      var line := lines[k];
      var digits := Digits(line);
      if digits == [] {
        SumLinesFails(lines, LineValue1, k + 1);
        return Err(IndexError);
      }
      s := s + TwoDigits(digits[0], digits[|digits| - 1]);
    }
    assert lines[..|lines|] == lines;
    r := Ok(s);
  }

  // ---------------------------------------------------------------------------
  // Part 2
  // ---------------------------------------------------------------------------

  /** The digit words, in the order the mapping lists them. */
  const Words: seq<string> := ["one", "two", "three", "four", "five", "six", "seven", "eight", "nine"]

  /** `mapping` after the loop that adds the digits: the words, then the digit
      characters 1 to 9, each with its digit, in insertion order. */
  function Mapping(): (m: seq<(string, char)>)
    ensures |m| == 18
  {
    seq(18, k requires 0 <= k < 18 =>
      if k < 9 then (Words[k], ('1' as int + k) as char)
      else ([('1' as int + k - 9) as char], ('1' as int + k - 9) as char))
  }

  /** Builds `mapping`: the literal of the nine words, then one entry per digit
      1 to 9. */
  method BuildMapping() returns (m: seq<(string, char)>)
    ensures m == Mapping()
  {
    m := [("one", '1'), ("two", '2'), ("three", '3'), ("four", '4'), ("five", '5'),
          ("six", '6'), ("seven", '7'), ("eight", '8'), ("nine", '9')];
    assert m == Mapping()[..9];
    for num := 1 to 10
      invariant m == Mapping()[..8 + num]
    {
      var digit := ('0' as int + num) as char;
      m := m + [([digit], digit)];
    }
  }

  /** `key` occurs in `line` at index `i`. */
  predicate MatchAt(line: string, i: int, key: string)
  {
    0 <= i && i + |key| <= |line| && line[i..i + |key|] == key
  }

  /** A key table the part 2 reading relies on: every key is one or more
      characters, and any two keys differ in their first or second character,
      so no key is a prefix of another. */
  predicate KeysApart(m: seq<(string, char)>)
  {
    (forall a :: 0 <= a < |m| ==> |m[a].0| >= 1) &&
    (forall a, b :: 0 <= a < |m| && 0 <= b < |m| && a != b ==>
       m[a].0[0] != m[b].0[0] || (|m[a].0| >= 2 && |m[b].0| >= 2 && m[a].0[1] != m[b].0[1]))
  }

  lemma MappingApartPair(a: nat, b: nat)
    requires a < 18 && b < 18 && a != b
    ensures var ka, kb := Mapping()[a].0, Mapping()[b].0;
            |ka| >= 1 && |kb| >= 1 &&
            (ka[0] != kb[0] || (|ka| >= 2 && |kb| >= 2 && ka[1] != kb[1]))
  {
  }

  /** The keys of `mapping` are apart. */
  lemma MappingApart()
    ensures KeysApart(Mapping())
  {
    var m := Mapping();
    forall a | 0 <= a < |m|
      ensures |m[a].0| >= 1
    {
      MappingApartPair(a, if a == 0 then 1 else 0);
    }
    forall a, b | 0 <= a < |m| && 0 <= b < |m| && a != b
      ensures m[a].0[0] != m[b].0[0] || (|m[a].0| >= 2 && |m[b].0| >= 2 && m[a].0[1] != m[b].0[1])
    {
      MappingApartPair(a, b);
    }
  }

  /** No two keys occur at the same index, so the index alone decides `min`
      and `max`. */
  lemma OneKeyAt(line: string, i: int, m: seq<(string, char)>, a: nat, b: nat)
    requires KeysApart(m) && a < |m| && b < |m|
    requires MatchAt(line, i, m[a].0) && MatchAt(line, i, m[b].0)
    ensures a == b
  {
  }

  /** `line.find(key)` from index `i` on: the first index where `key` occurs,
      or -1. */
  function FindFrom(line: string, key: string, i: nat): (r: int)
    ensures r == -1 || (i <= r && MatchAt(line, r, key))
    ensures forall j :: i <= j && (r == -1 || j < r) ==> !MatchAt(line, j, key)
    decreases |line| - i
  {
    if i + |key| > |line| then -1
    else if MatchAt(line, i, key) then i
    else FindFrom(line, key, i + 1)
  }

  /** `line.rfind(key)` below index `n`: the last index before `n` where `key`
      occurs, or -1. */
  function RFindBelow(line: string, key: string, n: nat): (r: int)
    ensures r == -1 || (r < n && MatchAt(line, r, key))
    ensures forall j :: j < n && r < j ==> !MatchAt(line, j, key)
    decreases n
  {
    if n == 0 then -1
    else if MatchAt(line, n - 1, key) then n - 1
    else RFindBelow(line, key, n - 1)
  }

  function Find(line: string, key: string): int
  {
    FindFrom(line, key, 0)
  }

  function RFind(line: string, key: string): int
  {
    RFindBelow(line, key, |line| + 1)
  }

  /** `forward_iter` and `backward_iter`: one (index, digit) pair per key. */
  function Forward(line: string, m: seq<(string, char)>): (ps: seq<(int, char)>)
    ensures |ps| == |m|
    ensures forall a :: 0 <= a < |m| ==> ps[a] == (Find(line, m[a].0), m[a].1)
  {
    seq(|m|, a requires 0 <= a < |m| => (Find(line, m[a].0), m[a].1))
  }

  function Backward(line: string, m: seq<(string, char)>): (ps: seq<(int, char)>)
    ensures |ps| == |m|
    ensures forall a :: 0 <= a < |m| ==> ps[a] == (RFind(line, m[a].0), m[a].1)
  {
    seq(|m|, a requires 0 <= a < |m| => (RFind(line, m[a].0), m[a].1))
  }

  /** `filter(lambda x: x[0] >= 0, ...)`: the keys that occur. */
  function Found(ps: seq<(int, char)>): (fs: seq<(int, char)>)
    ensures forall x :: x in fs <==> x in ps && x.0 >= 0
  {
    if ps == [] then []
    else if ps[0].0 >= 0 then [ps[0]] + Found(ps[1..])
    else Found(ps[1..])
  }

  /** Python's tuple order on (index, digit) pairs. */
  predicate PairLess(x: (int, char), y: (int, char))
  {
    x.0 < y.0 || (x.0 == y.0 && x.1 < y.1)
  }

  /** `min`: keeps the first pair and replaces it by any smaller one. */
  function MinPair(ps: seq<(int, char)>): (m: (int, char))
    requires ps != []
    ensures m in ps
    ensures forall x :: x in ps ==> !PairLess(x, m)
  {
    if |ps| == 1 then ps[0]
    else
      var m := MinPair(ps[..|ps| - 1]);
      assert ps == ps[..|ps| - 1] + [ps[|ps| - 1]];
      if PairLess(ps[|ps| - 1], m) then ps[|ps| - 1] else m
  }

  /** `max`: keeps the first pair and replaces it by any larger one. */
  function MaxPair(ps: seq<(int, char)>): (m: (int, char))
    requires ps != []
    ensures m in ps
    ensures forall x :: x in ps ==> !PairLess(m, x)
  {
    if |ps| == 1 then ps[0]
    else
      var m := MaxPair(ps[..|ps| - 1]);
      assert ps == ps[..|ps| - 1] + [ps[|ps| - 1]];
      if PairLess(m, ps[|ps| - 1]) then ps[|ps| - 1] else m
  }

  /** A line's part 2 value under key table `m`: the digit of the leftmost key
      occurrence followed by the digit of the rightmost one; `min` of nothing
      fails with `ValueError`. */
  function LineValueWith(line: string, m: seq<(string, char)>): Result<int>
  {
    var fwd := Found(Forward(line, m));
    var bwd := Found(Backward(line, m));
    if fwd == [] || bwd == [] then Err(ValueError)
    else Ok(TwoDigits(MinPair(fwd).1, MaxPair(bwd).1))
  }

  /** A line's part 2 value under `mapping`. */
  function LineValue2(line: string): Result<int>
  {
    LineValueWith(line, Mapping())
  }

  /** `part2`: builds `mapping`, then adds up the lines' values. */
  method Part2(lines: seq<string>) returns (r: Result<int>)
    ensures r == SumLines(lines, LineValue2)
  {
    var mapping := BuildMapping();
    var s := 0;
    for k := 0 to |lines|
      invariant SumLines(lines[..k], LineValue2) == Ok(s)
    {
      // The line's value from its leftmost and rightmost key occurrence.
      var value := LineValueWith(lines[k], mapping);
      assert value == LineValue2(lines[k]);
      if value.Err? {
        assert lines[..k + 1][..k] == lines[..k];
        SumLinesFails(lines, LineValue2, k + 1);
        return Err(ValueError);
      }
      SumLinesSnoc(lines, LineValue2, k, s, value.value);
      s := s + value.value;
    }
    assert lines[..|lines|] == lines;
    r := Ok(s);
  }

  // ---------------------------------------------------------------------------
  // Part 2, read as a scan
  // ---------------------------------------------------------------------------

  /** The digit a key occurring at index `i` spells, trying the keys in order. */
  function DigitAtFrom(line: string, i: int, m: seq<(string, char)>, a: nat): Option<char>
    requires a <= |m|
    decreases |m| - a
  {
    if a == |m| then None
    else if MatchAt(line, i, m[a].0) then Some(m[a].1)
    else DigitAtFrom(line, i, m, a + 1)
  }

  function DigitAt(line: string, i: int, m: seq<(string, char)>): Option<char>
  {
    DigitAtFrom(line, i, m, 0)
  }

  /** Where key `b` occurs, `DigitAt` finds it: no other key occurs there. */
  lemma {:induction false} DigitAtFromMeaning(line: string, i: int, m: seq<(string, char)>, a: nat, b: nat)
    requires KeysApart(m) && a <= b < |m| && MatchAt(line, i, m[b].0)
    ensures DigitAtFrom(line, i, m, a) == Some(m[b].1)
    decreases b - a
  {
    if !MatchAt(line, i, m[a].0) {
      DigitAtFromMeaning(line, i, m, a + 1, b);
    } else {
      OneKeyAt(line, i, m, a, b);
    }
  }

  /** `DigitAt` finds a digit only where some key occurs. */
  lemma {:induction false} DigitAtFromSome(line: string, i: int, m: seq<(string, char)>, a: nat)
    requires a <= |m| && DigitAtFrom(line, i, m, a).Some?
    ensures exists b :: a <= b < |m| && MatchAt(line, i, m[b].0)
    decreases |m| - a
  {
    if !MatchAt(line, i, m[a].0) {
      DigitAtFromSome(line, i, m, a + 1);
    }
  }

  /** The first index from `i` on where some key occurs, or -1. */
  function FirstDigitFrom(line: string, m: seq<(string, char)>, i: nat): (r: int)
    ensures r == -1 || (i <= r < |line| && DigitAt(line, r, m).Some?)
    ensures forall j :: i <= j < |line| && (r == -1 || j < r) ==> DigitAt(line, j, m).None?
    decreases |line| - i
  {
    if i >= |line| then -1
    else if DigitAt(line, i, m).Some? then i
    else FirstDigitFrom(line, m, i + 1)
  }

  /** The last index below `n` where some key occurs, or -1. */
  function LastDigitBelow(line: string, m: seq<(string, char)>, n: nat): (r: int)
    requires n <= |line|
    ensures r == -1 || (r < n && DigitAt(line, r, m).Some?)
    ensures forall j :: 0 <= j < n && r < j ==> DigitAt(line, j, m).None?
    decreases n
  {
    if n == 0 then -1
    else if DigitAt(line, n - 1, m).Some? then n - 1
    else LastDigitBelow(line, m, n - 1)
  }

  /** No index where a key occurs comes before the first. */
  lemma {:induction false} FirstDigitLeast(line: string, m: seq<(string, char)>, i: nat, j: int)
    requires i <= j < |line| && DigitAt(line, j, m).Some?
    ensures 0 <= FirstDigitFrom(line, m, i) <= j
    decreases |line| - i
  {
    if DigitAt(line, i, m).None? {
      FirstDigitLeast(line, m, i + 1, j);
    }
  }

  /** No index where a key occurs comes after the last. */
  lemma {:induction false} LastDigitGreatest(line: string, m: seq<(string, char)>, n: nat, j: int)
    requires 0 <= j < n <= |line| && DigitAt(line, j, m).Some?
    ensures j <= LastDigitBelow(line, m, n)
    decreases n
  {
    if DigitAt(line, n - 1, m).None? {
      LastDigitGreatest(line, m, n - 1, j);
    }
  }

  /** The part 2 value read by scanning: the digit at the first index where a
      key occurs, then the digit at the last such index. */
  function ScanValue(line: string, m: seq<(string, char)>): Result<int>
  {
    var i := FirstDigitFrom(line, m, 0);
    var j := LastDigitBelow(line, m, |line|);
    if i < 0 || j < 0 then Err(ValueError)
    else Ok(TwoDigits(DigitAt(line, i, m).value, DigitAt(line, j, m).value))
  }

  /** A key occurs only at an index within the line. */
  lemma KeyInLine(line: string, i: int, m: seq<(string, char)>, a: nat)
    requires KeysApart(m) && a < |m| && MatchAt(line, i, m[a].0)
    ensures 0 <= i < |line|
  {
  }

  /** Every pair that survives the filter is an index where a key occurs, with
      that key's digit. */
  lemma ForwardFound(line: string, m: seq<(string, char)>, x: (int, char))
    requires KeysApart(m) && x in Found(Forward(line, m))
    ensures 0 <= x.0 < |line| && DigitAt(line, x.0, m) == Some(x.1)
  {
    var a :| 0 <= a < |m| && Forward(line, m)[a] == x;
    KeyInLine(line, x.0, m, a);
    DigitAtFromMeaning(line, x.0, m, 0, a);
  }

  lemma BackwardFound(line: string, m: seq<(string, char)>, x: (int, char))
    requires KeysApart(m) && x in Found(Backward(line, m))
    ensures 0 <= x.0 < |line| && DigitAt(line, x.0, m) == Some(x.1)
  {
    var a :| 0 <= a < |m| && Backward(line, m)[a] == x;
    KeyInLine(line, x.0, m, a);
    DigitAtFromMeaning(line, x.0, m, 0, a);
  }

  /** Where a key occurs, `find` of that key reports it or an earlier index. */
  lemma ForwardHas(line: string, m: seq<(string, char)>, p: int)
    requires DigitAt(line, p, m).Some?
    ensures Found(Forward(line, m)) != [] && MinPair(Found(Forward(line, m))).0 <= p
  {
    DigitAtFromSome(line, p, m, 0);
    var b :| 0 <= b < |m| && MatchAt(line, p, m[b].0);
    var ps := Forward(line, m);
    assert ps[b] in Found(ps);
  }

  /** Where a key occurs, `rfind` of that key reports it or a later index. */
  lemma BackwardHas(line: string, m: seq<(string, char)>, p: int)
    requires DigitAt(line, p, m).Some?
    ensures Found(Backward(line, m)) != [] && MaxPair(Found(Backward(line, m))).0 >= p
  {
    DigitAtFromSome(line, p, m, 0);
    var b :| 0 <= b < |m| && MatchAt(line, p, m[b].0);
    var ps := Backward(line, m);
    assert ps[b] in Found(ps);
  }

  /** Some key occurs exactly when the filtered forward pairs are not empty. */
  lemma ForwardNonEmpty(line: string, m: seq<(string, char)>)
    requires KeysApart(m)
    ensures Found(Forward(line, m)) != [] <==> FirstDigitFrom(line, m, 0) >= 0
  {
    var p := FirstDigitFrom(line, m, 0);
    if p >= 0 {
      ForwardHas(line, m, p);
    } else if Found(Forward(line, m)) != [] {
      ForwardFound(line, m, Found(Forward(line, m))[0]);
      assert false;
    }
  }

  lemma BackwardNonEmpty(line: string, m: seq<(string, char)>)
    requires KeysApart(m)
    ensures Found(Backward(line, m)) != [] <==> LastDigitBelow(line, m, |line|) >= 0
  {
    var p := LastDigitBelow(line, m, |line|);
    if p >= 0 {
      BackwardHas(line, m, p);
    } else if Found(Backward(line, m)) != [] {
      BackwardFound(line, m, Found(Backward(line, m))[0]);
      assert false;
    }
  }

  /** The leftmost pair is the first index where a key occurs, with its digit. */
  lemma LeftmostMeaning(line: string, m: seq<(string, char)>)
    requires KeysApart(m) && Found(Forward(line, m)) != []
    ensures var p := FirstDigitFrom(line, m, 0);
            p >= 0 && MinPair(Found(Forward(line, m))) == (p, DigitAt(line, p, m).value)
  {
    ForwardNonEmpty(line, m);
    var p := FirstDigitFrom(line, m, 0);
    var x := MinPair(Found(Forward(line, m)));
    ForwardHas(line, m, p);
    ForwardFound(line, m, x);
    FirstDigitLeast(line, m, 0, x.0);
    assert x.0 == p;
  }

  /** The rightmost pair is the last index where a key occurs, with its digit. */
  lemma RightmostMeaning(line: string, m: seq<(string, char)>)
    requires KeysApart(m) && Found(Backward(line, m)) != []
    ensures var p := LastDigitBelow(line, m, |line|);
            p >= 0 && MaxPair(Found(Backward(line, m))) == (p, DigitAt(line, p, m).value)
  {
    BackwardNonEmpty(line, m);
    var p := LastDigitBelow(line, m, |line|);
    var x := MaxPair(Found(Backward(line, m)));
    BackwardHas(line, m, p);
    BackwardFound(line, m, x);
    LastDigitGreatest(line, m, |line|, x.0);
    assert x.0 == p;
  }

  /** The `find`/`rfind` reading and the scanning reading agree on every line. */
  lemma LineValue2IsScan(line: string)
    ensures LineValue2(line) == ScanValue(line, Mapping())
  {
    var m := Mapping();
    MappingApart();
    ForwardNonEmpty(line, m);
    BackwardNonEmpty(line, m);
    if Found(Forward(line, m)) != [] && Found(Backward(line, m)) != [] {
      LeftmostMeaning(line, m);
      RightmostMeaning(line, m);
    }
  }
}
