/** The difficulty schedule of the game (main.py, difficulty_timer).

    The level counter is compared with a fixed list of seconds-since-start
    stamps; reaching the stamp of the current level raises the level by one
    and shortens the asteroid spawn cooldown by 50 ms. Past the last stamp
    the cooldown is held at 0. */
module Levels {
  import opened Clock

  const LevelTimeStamps: seq<int> := [8, 14, 18, 22]
  const InitialCooldown := 200
  const CooldownStep := 50

  /** The fields difficulty_timer works on. */
  datatype Difficulty = Difficulty(level: nat, cooldown: int)

  const Start := Difficulty(0, InitialCooldown)

  /** The second the timer compares with the stamps: the whole seconds of
      the millisecond clock, counted from 1. Division by a positive number
      floors here as Python's `//` does. */
  function Second(now: int): int
  {
    now / 1000 + 1
  }

  /** The invariant the schedule keeps from its start: each level has taken
      exactly one step off the 200 ms cooldown. */
  predicate OnSchedule(d: Difficulty)
  {
    d.level <= |LevelTimeStamps| && d.cooldown == InitialCooldown - CooldownStep * d.level
  }

  /** On the schedule the cooldown is never negative, and it is 0 exactly at
      the last level. */
  lemma ScheduleCooldown(d: Difficulty)
    requires OnSchedule(d)
    ensures 0 <= d.cooldown <= InitialCooldown
    ensures d.cooldown == 0 <==> d.level == |LevelTimeStamps|
  {
  }

  /** One call of difficulty_timer at time `now`. */
  function Step(d: Difficulty, now: int): (r: Difficulty)
    ensures d.level <= r.level <= d.level + 1
    ensures r.level == d.level + 1 <==>
      d.level < |LevelTimeStamps| && Second(now) >= LevelTimeStamps[d.level]
    ensures d.level >= |LevelTimeStamps| ==> r == Difficulty(d.level, 0)
    ensures OnSchedule(d) ==> OnSchedule(r)
  {
    if d.level >= |LevelTimeStamps| then
      Difficulty(d.level, 0)
    else if Second(now) >= LevelTimeStamps[d.level] then
      Difficulty(d.level + 1, d.cooldown - CooldownStep)
    else
      d
  }

  /** The difficulty after one call per reading of `times`, in order. */
  function Run(d: Difficulty, times: seq<int>): Difficulty
    decreases |times|
  {
    if times == [] then d else Run(Step(d, times[0]), times[1..])
  }

  /** However many calls are made, the schedule holds: the level never
      passes the number of stamps and the cooldown is 200 - 50 * level. */
  lemma {:induction false} RunStaysOnSchedule(d: Difficulty, times: seq<int>)
    requires OnSchedule(d)
    ensures OnSchedule(Run(d, times))
    decreases |times|
  {
    if times != [] {
      RunStaysOnSchedule(Step(d, times[0]), times[1..]);
    }
  }

  /** The level never decreases, and each call raises it by at most one. */
  lemma {:induction false} RunLevelBounds(d: Difficulty, times: seq<int>)
    ensures d.level <= Run(d, times).level <= d.level + |times|
    decreases |times|
  {
    if times != [] {
      RunLevelBounds(Step(d, times[0]), times[1..]);
    }
  }

  /** Level k + 1 is reached only by a call made at a second at or past the
      k-th stamp. */
  lemma {:induction false} LevelNeedsStamp(d: Difficulty, times: seq<int>, k: nat)
    requires k < |LevelTimeStamps| && d.level <= k
    requires Run(d, times).level > k
    ensures exists i :: 0 <= i < |times| && Second(times[i]) >= LevelTimeStamps[k]
    decreases |times|
  {
    var d' := Step(d, times[0]);
    if d'.level > k {
      assert d.level == k;
      assert Second(times[0]) >= LevelTimeStamps[k];
    } else {
      LevelNeedsStamp(d', times[1..], k);
      var i :| 0 <= i < |times[1..]| && Second(times[1..][i]) >= LevelTimeStamps[k];
      assert times[1..][i] == times[i + 1];
    }
  }

  /** On a clock that never runs backwards, level k + 1 is never reached
      before (stamp_k - 1) * 1000 ms; in particular level 1 is never reached
      before 7000 ms. */
  lemma LevelNotBefore(times: seq<int>, k: nat)
    requires Chronological(times)
    requires k < |LevelTimeStamps|
    requires Run(Start, times).level > k
    ensures |times| > 0 && times[|times| - 1] >= (LevelTimeStamps[k] - 1) * 1000
  {
    LevelNeedsStamp(Start, times, k);
    var i :| 0 <= i < |times| && Second(times[i]) >= LevelTimeStamps[k];
    assert times[i] <= times[|times| - 1];
  }

  /** The first level needs at least 7 seconds of play. */
  lemma FirstLevelNotBefore7000(times: seq<int>)
    requires Chronological(times)
    requires Run(Start, times).level >= 1
    ensures times[|times| - 1] >= 7000
  {
    LevelNotBefore(times, 0);
  }
}
