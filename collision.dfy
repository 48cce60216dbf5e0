/** Bullet-asteroid collision resolution as the game does it each frame
    (main.py, check_collision), on sprite groups kept as sequences in the
    order their sprites were added, which is the order the game library
    iterates them in.

    The pixel-mask overlap test is the parameter `overlap`. Each bullet in
    turn removes every asteroid of the group that it overlaps; a bullet that
    removed at least one asteroid is removed itself and counts as one
    destroyed asteroid. */
module Collision {

  predicate Distinct<T(==)>(s: seq<T>)
  {
    forall i, j :: 0 <= i < j < |s| ==> s[i] != s[j]
  }

  /** `s` without `x`: what removing a sprite from its group leaves. */
  function Without<T(==,!new)>(s: seq<T>, x: T): (r: seq<T>)
    ensures forall y :: y in r <==> y in s && y != x
    decreases |s|
  {
    if s == [] then []
    else
      assert forall y :: y in s <==> y == s[0] || y in s[1..];
      (if s[0] == x then [] else [s[0]]) + Without(s[1..], x)
  }

  /** Removing a sprite that occurs once, at a known place, leaves the
      sprites before and after it in order. */
  lemma {:induction false} WithoutSingle<T(!new)>(before: seq<T>, x: T, after: seq<T>)
    requires x !in before && x !in after
    ensures Without(before + [x] + after, x) == before + after
    decreases |before|
  {
    if before == [] {
      WithoutAbsent(after, x);
      assert [x] + after == before + [x] + after;
    } else {
      WithoutSingle(before[1..], x, after);
      assert (before + [x] + after)[1..] == before[1..] + [x] + after;
      assert before + after == [before[0]] + (before[1..] + after);
    }
  }

  /** Removing a sprite from a group without repetitions leaves a group
      without repetitions: the sprites before and after it, in order. */
  lemma RemoveFromGroup<T(!new)>(before: seq<T>, x: T, after: seq<T>)
    requires Distinct(before + [x] + after)
    ensures x !in before && x !in after
    ensures Without(before + [x] + after, x) == before + after
    ensures Distinct(before + after)
  {
    DistinctSplit(before, x, after);
    WithoutSingle(before, x, after);
    var s, t := before + [x] + after, before + after;
    forall i, j | 0 <= i < j < |t| ensures t[i] != t[j] {
      var i' := if i < |before| then i else i + 1;
      var j' := if j < |before| then j else j + 1;
      assert t[i] == s[i'] && t[j] == s[j'];
    }
  }

  lemma {:induction false} WithoutAbsent<T(!new)>(s: seq<T>, x: T)
    requires x !in s
    ensures Without(s, x) == s
    decreases |s|
  {
    if s != [] {
      WithoutAbsent(s[1..], x);
    }
  }

  /** No bullet of `bullets` overlaps `a`. */
  predicate Unhit<B, A>(bullets: seq<B>, a: A, overlap: (B, A) -> bool)
  {
    forall j :: 0 <= j < |bullets| ==> !overlap(bullets[j], a)
  }

  /** Bullet `b` overlaps some asteroid of the group. */
  predicate HitsAny<B, A>(b: B, asteroids: seq<A>, overlap: (B, A) -> bool)
  {
    exists k :: 0 <= k < |asteroids| && overlap(b, asteroids[k])
  }

  /** The asteroids of the group that bullet `b` overlaps, in group order:
      what the library's collision query returns. */
  function Struck<B, A(==,!new)>(b: B, asteroids: seq<A>, overlap: (B, A) -> bool): (r: seq<A>)
    ensures forall a :: a in r <==> a in asteroids && overlap(b, a)
    ensures r != [] <==> HitsAny(b, asteroids, overlap)
    decreases |asteroids|
  {
    if asteroids == [] then []
    else
      var rest := Struck(b, asteroids[1..], overlap);
      assert forall a :: a in asteroids <==> a == asteroids[0] || a in asteroids[1..];
      assert HitsAny(b, asteroids[1..], overlap) ==> HitsAny(b, asteroids, overlap);
      if overlap(b, asteroids[0]) then [asteroids[0]] + rest else rest
  }

  /** The asteroids of the group that no bullet of `bullets` overlaps, in
      group order. */
  function Untouched<B, A(==,!new)>(bullets: seq<B>, asteroids: seq<A>, overlap: (B, A) -> bool): (r: seq<A>)
    ensures |r| <= |asteroids|
    ensures forall a :: a in r <==> a in asteroids && Unhit(bullets, a, overlap)
    ensures Distinct(asteroids) ==> Distinct(r)
    decreases |asteroids|
  {
    if asteroids == [] then []
    else
      var rest := Untouched(bullets, asteroids[1..], overlap);
      assert forall a :: a in asteroids <==> a == asteroids[0] || a in asteroids[1..];
      if Unhit(bullets, asteroids[0], overlap) then [asteroids[0]] + rest else rest
  }

  /** A bullet that overlaps nothing removes nothing. */
  lemma {:induction false} UntouchedByMiss<B, A(!new)>(b: B, asteroids: seq<A>, overlap: (B, A) -> bool)
    requires !HitsAny(b, asteroids, overlap)
    ensures Untouched([b], asteroids, overlap) == asteroids
    decreases |asteroids|
  {
    if asteroids != [] {
      assert !overlap(b, asteroids[0]);
      assert Unhit([b], asteroids[0], overlap);
      assert !HitsAny(b, asteroids[1..], overlap) by {
        forall k | 0 <= k < |asteroids[1..]| ensures !overlap(b, asteroids[1..][k]) {
          assert asteroids[1..][k] == asteroids[k + 1];
        }
      }
      UntouchedByMiss(b, asteroids[1..], overlap);
    }
  }

  /** Removing what `first` hits and then what `second` hits leaves what the
      two groups of bullets together leave. */
  lemma {:induction false} UntouchedComposes<B, A(!new)>(first: seq<B>, second: seq<B>, asteroids: seq<A>, overlap: (B, A) -> bool)
    ensures Untouched(second, Untouched(first, asteroids, overlap), overlap)
         == Untouched(first + second, asteroids, overlap)
    decreases |asteroids|
  {
    if asteroids != [] {
      var a := asteroids[0];
      UntouchedComposes(first, second, asteroids[1..], overlap);
      assert Unhit(first + second, a, overlap) <==> Unhit(first, a, overlap) && Unhit(second, a, overlap) by {
        var both := first + second;
        if Unhit(first, a, overlap) && Unhit(second, a, overlap) {
          forall j | 0 <= j < |both| ensures !overlap(both[j], a) {
            if j < |first| { assert both[j] == first[j]; } else { assert both[j] == second[j - |first|]; }
          }
        }
        if Unhit(both, a, overlap) {
          forall j | 0 <= j < |first| ensures !overlap(first[j], a) { assert both[j] == first[j]; }
          forall j | 0 <= j < |second| ensures !overlap(second[j], a) { assert both[|first| + j] == second[j]; }
        }
      }
    }
  }

  /** Survivors of the frame and the number of asteroids counted destroyed. */
  datatype Resolution<B, A> = Resolution(bullets: seq<B>, asteroids: seq<A>, destroyed: nat)

  /** One turn of the loop: bullet `b` removes every asteroid it overlaps;
      when there was one, the bullet is removed and counted, otherwise it
      stays. */
  function ResolveOne<B, A(==,!new)>(r: Resolution<B, A>, b: B, overlap: (B, A) -> bool): Resolution<B, A>
  {
    var left := Untouched([b], r.asteroids, overlap);
    if Struck(b, r.asteroids, overlap) != [] then Resolution(r.bullets, left, r.destroyed + 1)
    else Resolution(r.bullets + [b], left, r.destroyed)
  }

  /** Bullet-asteroid resolution: one turn per bullet, in group order. */
  function Resolve<B(==,!new), A(==,!new)>(bullets: seq<B>, asteroids: seq<A>, overlap: (B, A) -> bool): (r: Resolution<B, A>)
    ensures |r.bullets| + r.destroyed == |bullets|
    ensures forall b :: b in r.bullets ==> b in bullets
    ensures forall a :: a in r.asteroids ==> a in asteroids
    decreases |bullets|
  {
    if bullets == [] then Resolution([], asteroids, 0)
    else
      var n := |bullets| - 1;
      assert forall x :: x in bullets[..n] ==> x in bullets;
      ResolveOne(Resolve(bullets[..n], asteroids, overlap), bullets[n], overlap)
  }

  /** Resolving one more bullet is one more turn. */
  lemma ResolveLast<B(!new), A(!new)>(bullets: seq<B>, b: B, asteroids: seq<A>, overlap: (B, A) -> bool)
    ensures Resolve(bullets + [b], asteroids, overlap)
         == ResolveOne(Resolve(bullets, asteroids, overlap), b, overlap)
  {
    assert (bullets + [b])[..|bullets|] == bullets;
  }

  /** In a sequence without repetitions, the element between two parts
      occurs in neither part. */
  lemma DistinctSplit<T>(before: seq<T>, x: T, after: seq<T>)
    requires Distinct(before + [x] + after)
    ensures x !in before && x !in after
  {
    var s := before + [x] + after;
    assert s[|before|] == x;
    forall k | 0 <= k < |before| ensures before[k] != x {
      assert s[k] == before[k];
    }
    forall k | 0 <= k < |after| ensures after[k] != x {
      assert s[|before| + 1 + k] == after[k];
    }
  }

  /** The asteroids left are exactly those no bullet overlaps: an asteroid
      overlapped by some bullet was removed by the first bullet that met it
      alive, whatever the other bullets did. */
  lemma {:induction false} ResolveLeavesUntouched<B(!new), A(!new)>(bullets: seq<B>, asteroids: seq<A>, overlap: (B, A) -> bool)
    ensures Resolve(bullets, asteroids, overlap).asteroids == Untouched(bullets, asteroids, overlap)
    decreases |bullets|
  {
    if bullets == [] {
      UntouchedNone(asteroids, overlap);
    } else {
      var n := |bullets| - 1;
      var earlier, b := bullets[..n], bullets[n];
      assert earlier + [b] == bullets;
      ResolveLast(earlier, b, asteroids, overlap);
      ResolveLeavesUntouched(earlier, asteroids, overlap);
      UntouchedComposes(earlier, [b], asteroids, overlap);
    }
  }

  /** No bullets remove nothing. */
  lemma {:induction false} UntouchedNone<B, A(!new)>(asteroids: seq<A>, overlap: (B, A) -> bool)
    ensures Untouched([], asteroids, overlap) == asteroids
    decreases |asteroids|
  {
    if asteroids != [] {
      UntouchedNone(asteroids[1..], overlap);
    }
  }

  /** The fate of each bullet: the i-th bullet is removed exactly when it
      overlaps an asteroid that none of the bullets before it overlapped. An
      asteroid removed by an earlier bullet cannot be hit again. */
  lemma {:induction false} ResolveBulletFate<B(!new), A(!new)>(bullets: seq<B>, asteroids: seq<A>, overlap: (B, A) -> bool, i: nat)
    requires Distinct(bullets)
    requires i < |bullets|
    ensures bullets[i] in Resolve(bullets, asteroids, overlap).bullets
        <==> !HitsAny(bullets[i], Untouched(bullets[..i], asteroids, overlap), overlap)
    decreases |bullets|
  {
    var n := |bullets| - 1;
    var done := Resolve(bullets[..n], asteroids, overlap);
    assert bullets[..n] + [bullets[n]] == bullets;
    assert Struck(bullets[n], done.asteroids, overlap) != [] <==> HitsAny(bullets[n], done.asteroids, overlap);
    if i == n {
      assert bullets[n] !in bullets[..n];
      ResolveLeavesUntouched(bullets[..n], asteroids, overlap);
    } else {
      assert Distinct(bullets[..n]);
      ResolveBulletFate(bullets[..n], asteroids, overlap, i);
      assert bullets[..n][i] == bullets[i] && bullets[..n][..i] == bullets[..i];
      assert bullets[i] != bullets[n];
    }
  }

  /** A bullet that overlaps no asteroid of the group survives the frame. */
  lemma MissingBulletSurvives<B(!new), A(!new)>(bullets: seq<B>, asteroids: seq<A>, overlap: (B, A) -> bool, i: nat)
    requires Distinct(bullets)
    requires i < |bullets|
    requires !HitsAny(bullets[i], asteroids, overlap)
    ensures bullets[i] in Resolve(bullets, asteroids, overlap).bullets
  {
    ResolveBulletFate(bullets, asteroids, overlap, i);
    var live := Untouched(bullets[..i], asteroids, overlap);
    forall k | 0 <= k < |live| ensures !overlap(bullets[i], live[k]) {
      assert live[k] in asteroids;
      var m :| 0 <= m < |asteroids| && asteroids[m] == live[k];
    }
  }

  /** An asteroid no bullet overlaps survives the frame. */
  lemma UnhitAsteroidSurvives<B(!new), A(!new)>(bullets: seq<B>, asteroids: seq<A>, overlap: (B, A) -> bool, a: A)
    requires a in asteroids && Unhit(bullets, a, overlap)
    ensures a in Resolve(bullets, asteroids, overlap).asteroids
  {
    ResolveLeavesUntouched(bullets, asteroids, overlap);
  }

  /** A sequence around its element at `i`, behind a prefix `p`. */
  lemma SplitAt<T>(p: seq<T>, s: seq<T>, i: nat)
    requires i < |s|
    ensures s[..i + 1] == s[..i] + [s[i]]
    ensures p + s[i..] == p + [s[i]] + s[i + 1..]
  {
    assert s[i..] == [s[i]] + s[i + 1..];
  }

  /** The bullet loop of check_collision. It walks a snapshot of the bullet
      group; each bullet in turn removes from the asteroid group every
      asteroid it overlaps, and leaves the bullet group when it hit one. */
  method ResolveGroups<B(==,!new), A(==,!new)>(bullets: seq<B>, asteroids: seq<A>, overlap: (B, A) -> bool)
    returns (survivors: seq<B>, left: seq<A>, destroyed: nat)
    requires Distinct(bullets)
    ensures Resolution(survivors, left, destroyed) == Resolve(bullets, asteroids, overlap)
    ensures left == Untouched(bullets, asteroids, overlap)
    ensures Distinct(survivors)
  {
    var snapshot := bullets;
    var group := bullets;
    left, destroyed := asteroids, 0;
    ghost var kept: seq<B> := [];
    var i := 0;
    while i < |snapshot|
      invariant 0 <= i <= |snapshot|
      invariant group == kept + snapshot[i..]
      invariant Distinct(group)
      invariant Resolve(snapshot[..i], asteroids, overlap) == Resolution(kept, left, destroyed)
    {
      var bullet := snapshot[i];
      SplitAt(kept, snapshot, i);
      ResolveLast(snapshot[..i], bullet, asteroids, overlap);
      var collided := Struck(bullet, left, overlap);
      left := Untouched([bullet], left, overlap);
      if collided != [] {
        RemoveFromGroup(kept, bullet, snapshot[i + 1..]);
        group := Without(group, bullet);
        destroyed := destroyed + 1;
      } else {
        kept := kept + [bullet];
      }
      i := i + 1;
    }
    assert snapshot[..i] == snapshot;
    ResolveLeavesUntouched(snapshot, asteroids, overlap);
    survivors := group;
  }

  /** Some asteroid overlaps the player. */
  predicate PlayerHit<A>(asteroids: seq<A>, touchesPlayer: A -> bool)
  {
    exists k :: 0 <= k < |asteroids| && touchesPlayer(asteroids[k])
  }
}
