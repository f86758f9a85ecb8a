/** Calibration lines worked through: a line with a single digit, and a line
    whose spelled-out words overlap. */
module TrebuchetSamples {
  import opened Wrappers
  import opened Trebuchet

  /** A line with one digit reads it twice: "treb7uchet" is 77. */
  lemma OneDigit(line: string)
    requires line == "treb7uchet"
    ensures LineValue1(line) == Ok(77)
  {
    LineValue1Meaning(line, 4, 4);
  }

  /** In "twone" the words overlap: "two" starts at 0 and "one" at 2. */
  lemma TwoneKeys(line: string, m: seq<(string, char)>)
    requires line == "twone" && m == Mapping()
    ensures KeysApart(m)
    ensures DigitAt(line, 0, m) == Some('2') && DigitAt(line, 2, m) == Some('1')
  {
    MappingApart();
    assert m[1].0 == "two" && m[1].1 == '2';
    assert m[0].0 == "one" && m[0].1 == '1';
    assert line[0..3] == "two";
    assert line[2..5] == "one";
    DigitAtFromMeaning(line, 0, m, 0, 1);
    DigitAtFromMeaning(line, 2, m, 0, 0);
  }

  lemma KeyStart(line: string, i: int, key: string)
    requires MatchAt(line, i, key) && key != []
    ensures key[0] == line[i] && i + |key| <= |line|
  {
    assert line[i..i + |key|][0] == line[i];
  }

  /** Nothing starts at the last two letters of "twone". */
  lemma TwoneTail(line: string, m: seq<(string, char)>, i: int)
    requires line == "twone" && m == Mapping() && (i == 3 || i == 4)
    ensures DigitAt(line, i, m) == None
  {
    if DigitAt(line, i, m).Some? {
      DigitAtFromSome(line, i, m, 0);
      var b :| 0 <= b < |m| && MatchAt(line, i, m[b].0);
      KeyStart(line, i, m[b].0);
      assert false;
    }
  }

  /** "twone" reads as 21: the first word is two, the last one. */
  lemma Twone(line: string)
    requires line == "twone"
    ensures LineValue2(line) == Ok(21)
  {
    var m := Mapping();
    TwoneKeys(line, m);
    TwoneTail(line, m, 3);
    TwoneTail(line, m, 4);
    assert FirstDigitFrom(line, m, 0) == 0;
    assert LastDigitBelow(line, m, 5) == 2;
    LineValue2IsScan(line);
  }
}
