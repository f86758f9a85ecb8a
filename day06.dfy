/** Boat races: holding the button for `h` of a race's `T` milliseconds gives
    speed `h` for the remaining `T - h`, so the boat travels `h * (T - h)`. A
    hold time wins when that beats the race's record distance. Part 1
    multiplies the numbers of winning hold times of the races. */
module BoatRaces {

  /** Holding for `hold` of `time` beats `record`. */
  predicate Beats(time: int, record: int, hold: int)
  {
    hold * (time - hold) > record
  }

  /** The winning hold times among 1 to `n - 1`. */
  function WinsBelow(time: int, record: int, n: int): (r: nat)
    ensures r <= if n > 1 then n - 1 else 0
    decreases n
  {
    if n <= 1 then 0
    else WinsBelow(time, record, n - 1) + (if Beats(time, record, n - 1) then 1 else 0)
  }

  /** A race's number of winning hold times, `range(1, time)`. */
  function Ways(time: int, record: int): nat
  {
    WinsBelow(time, record, time)
  }

  /** The winning hold times below `n`, as a set. */
  function WinSet(time: int, record: int, n: int): set<int>
  {
    set h | 1 <= h < n && Beats(time, record, h)
  }

  /** The count is the size of the set of winning hold times. */
  lemma {:induction false} WinsBelowIsSetSize(time: int, record: int, n: int)
    ensures WinsBelow(time, record, n) == |WinSet(time, record, n)|
    decreases n
  {
    if n <= 1 {
      assert WinSet(time, record, n) == {};
    } else {
      WinsBelowIsSetSize(time, record, n - 1);
      if Beats(time, record, n - 1) {
        assert WinSet(time, record, n) == WinSet(time, record, n - 1) + {n - 1};
      } else {
        assert WinSet(time, record, n) == WinSet(time, record, n - 1);
      }
    }
  }

  /** A race counts exactly the hold times from 1 to `time - 1` that beat the
      record, and there are at most `time - 1` of them. */
  lemma WaysMeaning(time: int, record: int)
    ensures Ways(time, record) == |set h | 1 <= h < time && Beats(time, record, h)|
    ensures time >= 1 ==> Ways(time, record) <= time - 1
  {
    WinsBelowIsSetSize(time, record, time);
  }

  /** Holding for `h` and for `time - h` travel the same distance. */
  lemma BeatsSymmetric(time: int, record: int, hold: int)
    ensures Beats(time, record, hold) <==> Beats(time, record, time - hold)
  {
    assert hold * (time - hold) == (time - hold) * (time - (time - hold));
  }

  /** The winning hold times are symmetric: `h` wins exactly when `time - h`
      does. */
  lemma WinSetSymmetric(time: int, record: int)
    ensures forall h :: h in WinSet(time, record, time) <==> time - h in WinSet(time, record, time)
  {
    forall h
      ensures h in WinSet(time, record, time) <==> time - h in WinSet(time, record, time)
    {
      BeatsSymmetric(time, record, h);
    }
  }

  /** A better record never adds winning hold times. */
  lemma {:induction false} WinsBelowMonotone(time: int, record: int, record': int, n: int)
    requires record <= record'
    ensures WinsBelow(time, record', n) <= WinsBelow(time, record, n)
    decreases n
  {
    if n > 1 {
      WinsBelowMonotone(time, record, record', n - 1);
    }
  }

  /** `zip(time, distance)`: the pairs of the two lists, as many as the shorter
      one has. */
  function Zip(times: seq<int>, records: seq<int>): (races: seq<(int, int)>)
    ensures |races| == if |times| <= |records| then |times| else |records|
    ensures forall k :: 0 <= k < |races| ==> races[k] == (times[k], records[k])
  {
    var n := if |times| <= |records| then |times| else |records|;
    seq(n, k requires 0 <= k < n => (times[k], records[k]))
  }

  /** The product of the races' numbers of winning hold times. */
  function ProductOfWays(races: seq<(int, int)>): int
  {
    if races == [] then 1
    else ProductOfWays(races[..|races| - 1]) * Ways(races[|races| - 1].0, races[|races| - 1].1)
  }

  /** A race without a winning hold time makes the product zero. */
  lemma {:induction false} ProductZero(races: seq<(int, int)>, k: nat)
    requires k < |races| && Ways(races[k].0, races[k].1) == 0
    ensures ProductOfWays(races) == 0
  {
    if k < |races| - 1 {
      ProductZero(races[..|races| - 1], k);
    }
  }

  /** The inner loop: counts the hold times from 1 to `time - 1` that beat the
      record. */
  method CountWays(availableTime: int, distanceRecord: int) returns (numWaysToWin: nat)
    ensures numWaysToWin == Ways(availableTime, distanceRecord)
  {
    numWaysToWin := 0;
    var holdTime := 1;
    while holdTime < availableTime
      invariant 1 <= holdTime <= if availableTime >= 1 then availableTime else 1
      invariant numWaysToWin == WinsBelow(availableTime, distanceRecord, holdTime)
      decreases availableTime - holdTime
    {
      var velocity := holdTime;
      var distance := velocity * (availableTime - holdTime);
      assert distance > distanceRecord <==> Beats(availableTime, distanceRecord, holdTime);
      if distance > distanceRecord {
        numWaysToWin := numWaysToWin + 1;
      }
      holdTime := holdTime + 1;
    }
  }

  /** The outer loop of part 1: multiplies the races' numbers of winning hold
      times, pairing times and records as `zip` does. */
  method ProductOfWaysToWin(times: seq<int>, records: seq<int>) returns (prod: int)
    ensures prod == ProductOfWays(Zip(times, records))
  {
    var races := Zip(times, records);
    prod := 1;
    for k := 0 to |races|
      invariant prod == ProductOfWays(races[..k])
    {
      assert races[..k + 1][..k] == races[..k];
      var (availableTime, distanceRecord) := races[k];
      var numWaysToWin := CountWays(availableTime, distanceRecord);
      prod := prod * numWaysToWin;
    }
    assert races[..|races|] == races;
  }

  /** `part1`, with the race times and records written into the program. */
  method Part1() returns (prod: int)
    ensures prod == ProductOfWays(Zip([57, 72, 69, 92], [291, 1172, 1176, 2026]))
  {
    prod := ProductOfWaysToWin([57, 72, 69, 92], [291, 1172, 1176, 2026]);
  }
}
