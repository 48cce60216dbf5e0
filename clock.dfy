/** The elapsed-time gate shared by every timer of the game.

    The game samples a millisecond clock (the ticks counted since the game
    library was initialised) and compares it with a stored timestamp. In this
    model the clock reading is always a parameter `now`; callers pass
    readings that never decrease. */
module Clock {

  /** At least `span` milliseconds have passed between `since` and `now`. */
  predicate Elapsed(since: int, now: int, span: int)
  {
    now - since >= span
  }

  /** The readings of `times` never decrease. */
  predicate Chronological(times: seq<int>)
  {
    forall i, j :: 0 <= i < j < |times| ==> times[i] <= times[j]
  }
}
