/** Lens library: the HASH algorithm over the comma-separated initialization
    sequence. HASH starts at 0 and, for every character, adds its code point,
    multiplies by 17 and keeps the remainder modulo 256. */
module LensLibrary {

  /** One step of HASH. */
  function HashStep(value: nat, c: char): nat
  {
    ((value + c as nat) * 17) % 256
  }

  /** HASH continued from `value` over `s`, as a left fold. */
  function HashFrom(value: nat, s: string): (r: nat)
    ensures value < 256 || s != [] ==> r < 256
    decreases |s|
  {
    if s == [] then value else HashFrom(HashStep(value, s[0]), s[1..])
  }

  /** The HASH of a string. */
  function Hash(s: string): (r: nat)
    ensures r < 256
  {
    HashFrom(0, s)
  }

  /** Appending one character is one more fold step. */
  lemma {:induction false} HashFromAppend(value: nat, s: string, c: char)
    ensures HashFrom(value, s + [c]) == HashStep(HashFrom(value, s), c)
    decreases |s|
  {
    if s != [] {
      assert (s + [c])[1..] == s[1..] + [c];
      HashFromAppend(HashStep(value, s[0]), s[1..], c);
    }
  }

  lemma HashAppend(s: string, c: char)
    ensures Hash(s + [c]) == HashStep(Hash(s), c)
    ensures Hash([]) == 0
  {
    HashFromAppend(0, s, c);
  }

  /** `aoc_hash`: the loop over the characters. */
  method AocHash(s: string) returns (value: nat)
    ensures value == Hash(s) && value < 256
  {
    value := 0;
    for i := 0 to |s|
      invariant value == Hash(s[..i])
    {
      HashAppend(s[..i], s[i]);
      assert s[..i + 1] == s[..i] + [s[i]];
      value := ((value + s[i] as nat) * 17) % 256;
    }
    assert s[..|s|] == s;
  }

  /** HASH of a three-character string, one fold step per character. */
  lemma HashOfThree(a: char, b: char, c: char)
    ensures Hash([a, b, c]) == HashStep(HashStep(HashStep(0, a), b), c)
  {
    var v := HashStep(0, a);
    var w := HashStep(v, b);
    assert [a, b, c][1..] == [b, c] && [b, c][1..] == [c] && [c][1..] == [];
    assert HashFrom(0, [a, b, c]) == HashFrom(v, [b, c]);
    assert HashFrom(v, [b, c]) == HashFrom(w, [c]);
  }

  /** HASH of a four-character string, one fold step per character. */
  lemma HashOfFour(a: char, b: char, c: char, d: char)
    ensures Hash([a, b, c, d]) == HashStep(HashStep(HashStep(HashStep(0, a), b), c), d)
  {
    var v := HashStep(0, a);
    var w := HashStep(v, b);
    var x := HashStep(w, c);
    assert [a, b, c, d][1..] == [b, c, d] && [b, c, d][1..] == [c, d] && [c, d][1..] == [d] && [d][1..] == [];
    assert HashFrom(0, [a, b, c, d]) == HashFrom(v, [b, c, d]);
    assert HashFrom(v, [b, c, d]) == HashFrom(w, [c, d]);
    assert HashFrom(w, [c, d]) == HashFrom(x, [d]);
  }

  // The HASH test values.

  lemma HashOfHASH()
    ensures Hash("HASH") == 52
  {
    HashOfFour('H', 'A', 'S', 'H');
    assert 'H' as nat == 72 && 'A' as nat == 65 && 'S' as nat == 83;
    assert HashStep(0, 'H') == 200;
    assert HashStep(200, 'A') == 153;
    assert HashStep(153, 'S') == 172;
    assert HashStep(172, 'H') == 52;
  }


  lemma HashOfRnEq1()
    ensures Hash("rn=1") == 30
  {
    HashOfFour('r', 'n', '=', '1');
    assert 'r' as nat == 114 && 'n' as nat == 110 && '=' as nat == 61 && '1' as nat == 49;
    assert HashStep(0, 'r') == 146;
    assert HashStep(146, 'n') == 0;
    assert HashStep(0, '=') == 13;
    assert HashStep(13, '1') == 30;
  }


  lemma HashOfCmDash()
    ensures Hash("cm-") == 253
  {
    HashOfThree('c', 'm', '-');
    assert 'c' as nat == 99 && 'm' as nat == 109 && '-' as nat == 45;
    assert HashStep(0, 'c') == 147;
    assert HashStep(147, 'm') == 0;
    assert HashStep(0, '-') == 253;
  }


  lemma HashOfQpEq3()
    ensures Hash("qp=3") == 97
  {
    HashOfFour('q', 'p', '=', '3');
    assert 'q' as nat == 113 && 'p' as nat == 112 && '=' as nat == 61 && '3' as nat == 51;
    assert HashStep(0, 'q') == 129;
    assert HashStep(129, 'p') == 1;
    assert HashStep(1, '=') == 30;
    assert HashStep(30, '3') == 97;
  }


  lemma HashOfPcDash()
    ensures Hash("pc-") == 48
  {
    HashOfThree('p', 'c', '-');
    assert 'p' as nat == 112 && 'c' as nat == 99 && '-' as nat == 45;
    assert HashStep(0, 'p') == 112;
    assert HashStep(112, 'c') == 3;
    assert HashStep(3, '-') == 48;
  }


  lemma HashOfCmEq2()
    ensures Hash("cm=2") == 47
  {
    HashOfFour('c', 'm', '=', '2');
    assert 'c' as nat == 99 && 'm' as nat == 109 && '=' as nat == 61 && '2' as nat == 50;
    assert HashStep(0, 'c') == 147;
    assert HashStep(147, 'm') == 0;
    assert HashStep(0, '=') == 13;
    assert HashStep(13, '2') == 47;
  }


  lemma HashOfQpDash()
    ensures Hash("qp-") == 14
  {
    HashOfThree('q', 'p', '-');
    assert 'q' as nat == 113 && 'p' as nat == 112 && '-' as nat == 45;
    assert HashStep(0, 'q') == 129;
    assert HashStep(129, 'p') == 1;
    assert HashStep(1, '-') == 14;
  }


  lemma HashOfPcEq4()
    ensures Hash("pc=4") == 180
  {
    HashOfFour('p', 'c', '=', '4');
    assert 'p' as nat == 112 && 'c' as nat == 99 && '=' as nat == 61 && '4' as nat == 52;
    assert HashStep(0, 'p') == 112;
    assert HashStep(112, 'c') == 3;
    assert HashStep(3, '=') == 64;
    assert HashStep(64, '4') == 180;
  }


  lemma HashOfOtEq9()
    ensures Hash("ot=9") == 9
  {
    HashOfFour('o', 't', '=', '9');
    assert 'o' as nat == 111 && 't' as nat == 116 && '=' as nat == 61 && '9' as nat == 57;
    assert HashStep(0, 'o') == 95;
    assert HashStep(95, 't') == 3;
    assert HashStep(3, '=') == 64;
    assert HashStep(64, '9') == 9;
  }


  lemma HashOfAbEq5()
    ensures Hash("ab=5") == 197
  {
    HashOfFour('a', 'b', '=', '5');
    assert 'a' as nat == 97 && 'b' as nat == 98 && '=' as nat == 61 && '5' as nat == 53;
    assert HashStep(0, 'a') == 113;
    assert HashStep(113, 'b') == 3;
    assert HashStep(3, '=') == 64;
    assert HashStep(64, '5') == 197;
  }


  lemma HashOfPcEq6()
    ensures Hash("pc=6") == 214
  {
    HashOfFour('p', 'c', '=', '6');
    assert 'p' as nat == 112 && 'c' as nat == 99 && '=' as nat == 61 && '6' as nat == 54;
    assert HashStep(0, 'p') == 112;
    assert HashStep(112, 'c') == 3;
    assert HashStep(3, '=') == 64;
    assert HashStep(64, '6') == 214;
  }


  lemma HashOfOtEq7()
    ensures Hash("ot=7") == 231
  {
    HashOfFour('o', 't', '=', '7');
    assert 'o' as nat == 111 && 't' as nat == 116 && '=' as nat == 61 && '7' as nat == 55;
    assert HashStep(0, 'o') == 95;
    assert HashStep(95, 't') == 3;
    assert HashStep(3, '=') == 64;
    assert HashStep(64, '7') == 231;
  }


  // ---------------------------------------------------------------------------
  // Parsing: split on ',' and strip each piece
  // ---------------------------------------------------------------------------

  /** `s.split(",")`: the pieces between commas, always at least one. */
  function Split(s: string): (pieces: seq<string>)
    ensures |pieces| >= 1
    decreases |s|
  {
    if s == [] then [""]
    else
      var rest := Split(s[1..]);
      if s[0] == ',' then [""] + rest else [[s[0]] + rest[0]] + rest[1..]
  }

  function CountChar(s: string, c: char): nat
    decreases |s|
  {
    if s == [] then 0 else (if s[0] == c then 1 else 0) + CountChar(s[1..], c)
  }

  /** The pieces joined back with ','. */
  function JoinCommas(pieces: seq<string>): string
    requires |pieces| >= 1
    decreases |pieces|
  {
    if |pieces| == 1 then pieces[0] else pieces[0] + "," + JoinCommas(pieces[1..])
  }

  /** One piece per comma-separated field, none holding a comma, and joining the
      pieces with ',' gives the input back. */
  lemma {:induction false} SplitFields(s: string)
    ensures |Split(s)| == CountChar(s, ',') + 1
    ensures forall k :: 0 <= k < |Split(s)| ==> ',' !in Split(s)[k]
    ensures JoinCommas(Split(s)) == s
    decreases |s|
  {
    if s != [] {
      SplitFields(s[1..]);
      var rest := Split(s[1..]);
      if s[0] == ',' {
        assert ([""] + rest)[1..] == rest;
      } else {
        var pieces := [[s[0]] + rest[0]] + rest[1..];
        assert pieces[1..] == rest[1..];
        forall k | 0 <= k < |pieces| ensures ',' !in pieces[k] {
          if k > 0 { assert pieces[k] == rest[k]; }
        }
        if |rest| > 1 {
          assert rest == [rest[0]] + rest[1..];
          assert JoinCommas(rest) == rest[0] + "," + JoinCommas(rest[1..]);
        }
        assert s == [s[0]] + s[1..];
      }
    }
  }

  /** Text without commas sticks to the front of the first piece. */
  lemma {:induction false} SplitCommaFree(p: string, t: string)
    requires ',' !in p
    ensures Split(p + t) == [p + Split(t)[0]] + Split(t)[1..]
    decreases |p|
  {
    if p != [] {
      assert p[0] in p;
      assert (p + t)[0] == p[0] && (p + t)[1..] == p[1..] + t;
      SplitCommaFree(p[1..], t);
      var rest := Split(p[1..] + t);
      assert rest[0] == p[1..] + Split(t)[0];
      assert rest[1..] == Split(t)[1..];
      assert Split(p + t) == [[p[0]] + rest[0]] + rest[1..];
      assert [p[0]] + (p[1..] + Split(t)[0]) == p + Split(t)[0];
    } else {
      assert p + t == t;
      assert p + Split(t)[0] == Split(t)[0];
      assert Split(t) == [Split(t)[0]] + Split(t)[1..];
    }
  }

  /** Splitting undoes joining, for comma-free pieces. */
  lemma {:induction false} SplitJoin(pieces: seq<string>)
    requires |pieces| >= 1
    requires forall k :: 0 <= k < |pieces| ==> ',' !in pieces[k]
    ensures Split(JoinCommas(pieces)) == pieces
    decreases |pieces|
  {
    if |pieces| == 1 {
      SplitCommaFree(pieces[0], "");
      assert pieces[0] + "" == pieces[0];
      assert Split("") == [""];
    } else {
      SplitJoin(pieces[1..]);
      var rest := JoinCommas(pieces[1..]);
      SplitCommaFree(pieces[0], "," + rest);
      assert ("," + rest)[1..] == rest;
      assert Split("," + rest) == [""] + Split(rest);
      assert pieces[0] + "," + rest == pieces[0] + ("," + rest);
      assert pieces[0] + "" == pieces[0];
      assert pieces == [pieces[0]] + pieces[1..];
    }
  }

  /** The characters `str.strip()` removes: those for which Python's
      `str.isspace` holds. */
  predicate IsSpace(c: char)
  {
    ('\t' <= c <= '\r') ||              // \t \n \v \f \r
    ('\U{001C}' <= c <= '\U{001F}') ||  // file, group, record and unit separators
    c == ' ' || c == '\U{0085}' || c == '\U{00A0}' || c == '\U{1680}' ||
    ('\U{2000}' <= c <= '\U{200A}') ||  // the typographic spaces
    c == '\U{2028}' || c == '\U{2029}' || c == '\U{202F}' || c == '\U{205F}' || c == '\U{3000}'
  }

  /** The first index from `i` on that is not whitespace (or |s|). */
  function FirstNonSpace(s: string, i: nat): (k: nat)
    requires i <= |s|
    ensures i <= k <= |s| && (k < |s| ==> !IsSpace(s[k]))
    ensures forall j :: i <= j < k ==> IsSpace(s[j])
    decreases |s| - i
  {
    if i < |s| && IsSpace(s[i]) then FirstNonSpace(s, i + 1) else i
  }

  /** The end of s[lo..j] once its trailing whitespace is dropped. */
  function TrailingSpaceStart(s: string, lo: nat, j: nat): (k: nat)
    requires lo <= j <= |s|
    ensures lo <= k <= j && (k > lo ==> !IsSpace(s[k - 1]))
    ensures forall m :: k <= m < j ==> IsSpace(s[m])
    decreases j - lo
  {
    if j > lo && IsSpace(s[j - 1]) then TrailingSpaceStart(s, lo, j - 1) else j
  }

  /** Where `str.strip()` cuts `s`: everything before `lo` and from `hi` on is
      whitespace, and the kept slice neither starts nor ends with whitespace. */
  function StripBounds(s: string): (b: (nat, nat))
    ensures b.0 <= b.1 <= |s|
    ensures forall i :: 0 <= i < b.0 ==> IsSpace(s[i])
    ensures forall i :: b.1 <= i < |s| ==> IsSpace(s[i])
    ensures b.0 < b.1 ==> !IsSpace(s[b.0]) && !IsSpace(s[b.1 - 1])
  {
    var lo := FirstNonSpace(s, 0);
    (lo, TrailingSpaceStart(s, lo, |s|))
  }

  /** `str.strip()`. */
  function Strip(s: string): (r: string)
    ensures r == s[StripBounds(s).0..StripBounds(s).1]
  {
    var b := StripBounds(s);
    s[b.0..b.1]
  }

  /** `parse`: one stripped step per comma-separated field. */
  function Parse(inputs: string): (steps: seq<string>)
    ensures |steps| == |Split(inputs)|
    ensures forall k :: 0 <= k < |steps| ==> steps[k] == Strip(Split(inputs)[k])
  {
    var pieces := Split(inputs);
    seq(|pieces|, k requires 0 <= k < |pieces| => Strip(pieces[k]))
  }

  /** Parsing undoes joining, for steps without commas or surrounding whitespace. */
  lemma ParseJoin(steps: seq<string>)
    requires |steps| >= 1
    requires forall k :: 0 <= k < |steps| ==> ',' !in steps[k] && Strip(steps[k]) == steps[k]
    ensures Parse(JoinCommas(steps)) == steps
  {
    SplitJoin(steps);
  }

  function SumHashes(steps: seq<string>): nat
  {
    if steps == [] then 0 else SumHashes(steps[..|steps| - 1]) + Hash(steps[|steps| - 1])
  }

  /** `part1`: the sum of the HASH of every step. */
  method Part1(inputs: string) returns (sum: nat)
    ensures sum == SumHashes(Parse(inputs))
    ensures sum <= 255 * (CountChar(inputs, ',') + 1)
  {
    var steps := Parse(inputs);
    SplitFields(inputs);
    sum := SumStepHashes(steps);
  }

  /** The loop of `part1` over the parsed steps. */
  method SumStepHashes(steps: seq<string>) returns (sum: nat)
    ensures sum == SumHashes(steps)
    ensures sum <= 255 * |steps|
  {
    sum := 0;
    for i := 0 to |steps|
      invariant sum == SumHashes(steps[..i])
      invariant sum <= 255 * i
    {
      assert steps[..i + 1][..i] == steps[..i];
      var h := AocHash(steps[i]);
      sum := sum + h;
    }
    assert steps[..|steps|] == steps;
  }

  /** A step that neither starts nor ends with whitespace is kept as it is. */
  lemma StripKeeps(s: string)
    requires s != [] && !IsSpace(s[0]) && !IsSpace(s[|s| - 1])
    ensures Strip(s) == s
  {
    assert FirstNonSpace(s, 0) == 0;
    assert TrailingSpaceStart(s, 0, |s|) == |s|;
  }

  /** The last piece joins to itself. */
  lemma JoinLast(pieces: seq<string>)
    requires |pieces| >= 1
    ensures JoinCommas(pieces[|pieces| - 1..]) == pieces[|pieces| - 1]
  {
  }

  /** Joining from piece `k`: that piece, a comma, and the join of the rest. */
  lemma JoinStep(pieces: seq<string>, k: nat, rest: string)
    requires k + 1 < |pieces| && JoinCommas(pieces[k + 1..]) == rest
    ensures JoinCommas(pieces[k..]) == pieces[k] + "," + rest
  {
    assert pieces[k..][1..] == pieces[k + 1..];
  }

  /** The example steps, joined with commas, give the example sequence
      (written piece by piece). */
  lemma SampleJoin(steps: seq<string>)
    requires |steps| == 11
    requires steps[0] == "rn=1"
    requires steps[1] == "cm-"
    requires steps[2] == "qp=3"
    requires steps[3] == "cm=2"
    requires steps[4] == "qp-"
    requires steps[5] == "pc=4"
    requires steps[6] == "ot=9"
    requires steps[7] == "ab=5"
    requires steps[8] == "pc-"
    requires steps[9] == "pc=6"
    requires steps[10] == "ot=7"
    ensures JoinCommas(steps) == "rn=1" + "," + ("cm-" + "," + ("qp=3" + "," + ("cm=2" + "," + ("qp-" + "," + ("pc=4" + "," + ("ot=9" + "," + ("ab=5" + "," + ("pc-" + "," + ("pc=6" + "," + ("ot=7"))))))))))
  {
    JoinLast(steps);
    JoinStep(steps, 9, "ot=7");
    JoinStep(steps, 8, "pc=6" + "," + ("ot=7"));
    JoinStep(steps, 7, "pc-" + "," + ("pc=6" + "," + ("ot=7")));
    JoinStep(steps, 6, "ab=5" + "," + ("pc-" + "," + ("pc=6" + "," + ("ot=7"))));
    JoinStep(steps, 5, "ot=9" + "," + ("ab=5" + "," + ("pc-" + "," + ("pc=6" + "," + ("ot=7")))));
    JoinStep(steps, 4, "pc=4" + "," + ("ot=9" + "," + ("ab=5" + "," + ("pc-" + "," + ("pc=6" + "," + ("ot=7"))))));
    JoinStep(steps, 3, "qp-" + "," + ("pc=4" + "," + ("ot=9" + "," + ("ab=5" + "," + ("pc-" + "," + ("pc=6" + "," + ("ot=7")))))));
    JoinStep(steps, 2, "cm=2" + "," + ("qp-" + "," + ("pc=4" + "," + ("ot=9" + "," + ("ab=5" + "," + ("pc-" + "," + ("pc=6" + "," + ("ot=7"))))))));
    JoinStep(steps, 1, "qp=3" + "," + ("cm=2" + "," + ("qp-" + "," + ("pc=4" + "," + ("ot=9" + "," + ("ab=5" + "," + ("pc-" + "," + ("pc=6" + "," + ("ot=7")))))))));
    JoinStep(steps, 0, "cm-" + "," + ("qp=3" + "," + ("cm=2" + "," + ("qp-" + "," + ("pc=4" + "," + ("ot=9" + "," + ("ab=5" + "," + ("pc-" + "," + ("pc=6" + "," + ("ot=7"))))))))));
    assert steps[0..] == steps;
  }


  /** No example step holds a comma or surrounding whitespace. */
  lemma SampleStepsPlain(steps: seq<string>)
    requires |steps| == 11
    requires steps[0] == "rn=1"
    requires steps[1] == "cm-"
    requires steps[2] == "qp=3"
    requires steps[3] == "cm=2"
    requires steps[4] == "qp-"
    requires steps[5] == "pc=4"
    requires steps[6] == "ot=9"
    requires steps[7] == "ab=5"
    requires steps[8] == "pc-"
    requires steps[9] == "pc=6"
    requires steps[10] == "ot=7"
    ensures forall k :: 0 <= k < |steps| ==> ',' !in steps[k] && Strip(steps[k]) == steps[k]
  {
    forall k | 0 <= k < |steps| ensures ',' !in steps[k] && Strip(steps[k]) == steps[k] {
      StripKeeps(steps[k]);
    }
  }


  /** One more step added to a prefix sum. */
  lemma SumPrefix(steps: seq<string>, k: nat, total: nat, h: nat)
    requires k < |steps| && SumHashes(steps[..k]) == total && Hash(steps[k]) == h
    ensures SumHashes(steps[..k + 1]) == total + h
  {
    assert steps[..k + 1][..k] == steps[..k];
  }

  /** The HASHes of the first six example steps sum to 621. */
  lemma SampleSumHead(steps: seq<string>)
    requires |steps| >= 6
    requires steps[0] == "rn=1"
    requires steps[1] == "cm-"
    requires steps[2] == "qp=3"
    requires steps[3] == "cm=2"
    requires steps[4] == "qp-"
    requires steps[5] == "pc=4"
    ensures SumHashes(steps[..6]) == 621
  {
    HashOfRnEq1(); HashOfCmDash(); HashOfQpEq3(); HashOfCmEq2(); HashOfQpDash(); HashOfPcEq4();
    assert steps[..0] == [];
    SumPrefix(steps, 0, 0, 30);
    SumPrefix(steps, 1, 30, 253);
    SumPrefix(steps, 2, 283, 97);
    SumPrefix(steps, 3, 380, 47);
    SumPrefix(steps, 4, 427, 14);
    SumPrefix(steps, 5, 441, 180);
  }

  /** The HASHes of the example steps sum to 1320. */
  lemma SampleSum(steps: seq<string>)
    requires |steps| == 11
    requires steps[0] == "rn=1"
    requires steps[1] == "cm-"
    requires steps[2] == "qp=3"
    requires steps[3] == "cm=2"
    requires steps[4] == "qp-"
    requires steps[5] == "pc=4"
    requires steps[6] == "ot=9"
    requires steps[7] == "ab=5"
    requires steps[8] == "pc-"
    requires steps[9] == "pc=6"
    requires steps[10] == "ot=7"
    ensures SumHashes(steps) == 1320
  {
    SampleSumHead(steps);
    HashOfOtEq9(); HashOfAbEq5(); HashOfPcDash(); HashOfPcEq6(); HashOfOtEq7();
    SumPrefix(steps, 6, 621, 9);
    SumPrefix(steps, 7, 630, 197);
    SumPrefix(steps, 8, 827, 48);
    SumPrefix(steps, 9, 875, 214);
    SumPrefix(steps, 10, 1089, 231);
    assert steps[..11] == steps;
  }




  /** The example initialization sequence sums to 1320. */
  lemma Part1Sample(inputs: string)
    requires inputs == "rn=1" + "," + ("cm-" + "," + ("qp=3" + "," + ("cm=2" + "," + ("qp-" + "," + ("pc=4" + "," + ("ot=9" + "," + ("ab=5" + "," + ("pc-" + "," + ("pc=6" + "," + ("ot=7"))))))))))
    ensures SumHashes(Parse(inputs)) == 1320
  {
    var steps := ["rn=1", "cm-", "qp=3", "cm=2", "qp-", "pc=4", "ot=9", "ab=5", "pc-", "pc=6", "ot=7"];
    SampleJoin(steps);
    SampleStepsPlain(steps);
    ParseJoin(steps);
    SampleSum(steps);
  }
}
