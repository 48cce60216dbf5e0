/** The asteroid spawn timer (main.py, asteroid_timer).

    A check reads the clock once for the comparison and once more for the
    new summon time, so each check is a pair of readings. */
module Spawner {
  import opened Clock

  /** The two clock readings one call of the timer makes. */
  datatype SpawnCheck = SpawnCheck(now: int, stamp: int)

  /** A spawn is due once the cooldown has elapsed since the last summon. */
  predicate SpawnDue(lastSummon: int, cooldown: int, now: int)
  {
    Elapsed(lastSummon, now, cooldown)
  }

  /** The summon time after one check. */
  function AfterCheck(lastSummon: int, cooldown: int, c: SpawnCheck): int
  {
    if SpawnDue(lastSummon, cooldown, c.now) then c.stamp else lastSummon
  }

  /** The first readings of the checks that spawned an asteroid, in order. */
  function SpawnTimes(lastSummon: int, cooldown: int, checks: seq<SpawnCheck>): seq<int>
    decreases |checks|
  {
    if checks == [] then []
    else
      var c := checks[0];
      (if SpawnDue(lastSummon, cooldown, c.now) then [c.now] else [])
        + SpawnTimes(AfterCheck(lastSummon, cooldown, c), cooldown, checks[1..])
  }

  /** Readings of the checks in the order they were taken, each check's two
      readings in order too. */
  predicate ChecksChronological(checks: seq<SpawnCheck>)
  {
    (forall i :: 0 <= i < |checks| ==> checks[i].now <= checks[i].stamp) &&
    (forall i, j :: 0 <= i < j < |checks| ==> checks[i].stamp <= checks[j].now)
  }

  /** With a fixed cooldown, the first spawn comes at least a cooldown after
      the last summon and any two spawns are at least a cooldown apart: two
      checks closer together than the cooldown spawn at most once. */
  lemma {:induction false} SpawnsAreSpaced(lastSummon: int, cooldown: int, checks: seq<SpawnCheck>)
    requires ChecksChronological(checks)
    requires forall i :: 0 <= i < |checks| ==> lastSummon <= checks[i].now
    ensures var spawns := SpawnTimes(lastSummon, cooldown, checks);
      (|spawns| > 0 ==> Elapsed(lastSummon, spawns[0], cooldown)) &&
      (forall i :: 0 <= i < |spawns| - 1 ==> Elapsed(spawns[i], spawns[i + 1], cooldown))
    decreases |checks|
  {
    if checks != [] {
      var c, rest := checks[0], checks[1..];
      var last' := AfterCheck(lastSummon, cooldown, c);
      assert ChecksChronological(rest);
      assert forall i :: 0 <= i < |rest| ==> last' <= rest[i].now by {
        forall i | 0 <= i < |rest| ensures last' <= rest[i].now {
          assert rest[i] == checks[i + 1];
        }
      }
      SpawnsAreSpaced(last', cooldown, rest);
      var tail := SpawnTimes(last', cooldown, rest);
      if SpawnDue(lastSummon, cooldown, c.now) {
        assert SpawnTimes(lastSummon, cooldown, checks) == [c.now] + tail;
        assert |tail| > 0 ==> Elapsed(c.now, tail[0], cooldown);
      } else {
        assert SpawnTimes(lastSummon, cooldown, checks) == tail;
      }
    }
  }
}
