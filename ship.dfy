/** The player's ship (data/scripts/player.py): steering from the held
    direction keys, the facing angle derived from the steering, and the
    250 ms shoot cooldown.

    The ship's direction is kept as its pair of signs. player.py normalises
    the vector after steering; a positive scaling keeps every sign, and every
    rule of the ship reads only the signs, so the normalised vector itself is
    not modelled. */
module Ship {
  import opened Clock
  import opened Geometry

  const Speed := 350
  const ShootCooldown := 250

  /** The four arrow keys, held (true) or not, in one frame. */
  datatype Keys = Keys(left: bool, right: bool, up: bool, down: bool)

  predicate IsSign(v: int) { -1 <= v <= 1 }

  /** The eight facing angles of the ship, in degrees. */
  predicate IsCompassAngle(angle: int)
  {
    angle == 0 || angle == 45 || angle == 90 || angle == 135 || angle == 180 ||
    angle == -45 || angle == -90 || angle == -135
  }

  /** The grid direction a sprite points to once it is rotated
      counter-clockwise by `angle` degrees, the unrotated ship pointing up and
      screen y growing downwards; (0, 0) for an angle off the compass. */
  function Heading(angle: int): (int, int)
  {
    if angle == 0 then (0, -1)
    else if angle == 45 then (-1, -1)
    else if angle == 90 then (-1, 0)
    else if angle == 135 then (-1, 1)
    else if angle == 180 then (0, 1)
    else if angle == -45 then (1, -1)
    else if angle == -90 then (1, 0)
    else if angle == -135 then (1, 1)
    else (0, 0)
  }

  /** The angle check_diagonal_movement assigns when both components are
      nonzero: the sprite is turned towards the diagonal it moves along. */
  function DiagonalAngle(x: int, y: int): (angle: int)
    requires IsSign(x) && IsSign(y) && x != 0 && y != 0
    ensures IsCompassAngle(angle) && Heading(angle) == (x, y)
  {
    if x > 0 && y < 0 then -45
    else if x < 0 && y < 0 then 45
    else if x > 0 && y > 0 then -135
    else 135
  }

  /** The angle after check_diagonal_movement: the diagonal angle when both
      components are nonzero, the angle as it was otherwise. */
  function DiagonalCheck(x: int, y: int, angle: int): int
    requires IsSign(x) && IsSign(y)
  {
    if x != 0 && y != 0 then DiagonalAngle(x, y) else angle
  }

  /** The angle steering leaves the ship with, given the new direction signs
      and the angle it had before: the ship faces the way it moves, and keeps
      its angle when it does not move. */
  function Facing(x: int, y: int, previous: int): (angle: int)
    requires IsSign(x) && IsSign(y)
    ensures (x, y) != (0, 0) ==> IsCompassAngle(angle) && Heading(angle) == (x, y)
    ensures (x, y) == (0, 0) ==> angle == previous
  {
    if x != 0 && y != 0 then DiagonalAngle(x, y)
    else if x < 0 then 90
    else if x > 0 then -90
    else if y > 0 then 180
    else if y < 0 then 0
    else previous
  }

  /** Facing and Heading are inverse on the compass: a ship moving along the
      direction of a compass angle faces exactly that angle. */
  lemma FacingOfHeading(angle: int, previous: int)
    requires IsCompassAngle(angle)
    ensures IsSign(Heading(angle).0) && IsSign(Heading(angle).1)
    ensures Facing(Heading(angle).0, Heading(angle).1, previous) == angle
  {
  }

  /** The horizontal sign steering picks: left wins over right, and a key
      counts only while the ship has not crossed the edge it moves towards. */
  function HorizontalSign(keys: Keys, rect: Rect, windowWidth: int): int
  {
    if keys.left && rect.left >= 0.0 then -1
    else if keys.right && rect.Right() <= windowWidth as real then 1
    else 0
  }

  /** The vertical sign steering picks: down wins over up, with the same
      edge guard. */
  function VerticalSign(keys: Keys, rect: Rect, windowHeight: int): int
  {
    if keys.down && rect.Bottom() <= windowHeight as real then 1
    else if keys.up && rect.top >= 0.0 then -1
    else 0
  }

  /** The part of the ship's state the shoot cooldown works on. */
  datatype Trigger = Trigger(canShoot: bool, lastShotTime: int)

  /** One call of bullet_timer: a trigger that is not ready becomes ready
      once the cooldown has elapsed since the last shot; nothing else. */
  function TimerStep(t: Trigger, now: int): (r: Trigger)
    ensures r.lastShotTime == t.lastShotTime
    ensures r.canShoot <==> t.canShoot || Elapsed(t.lastShotTime, now, ShootCooldown)
  {
    if t.canShoot then t
    else if Elapsed(t.lastShotTime, now, ShootCooldown) then Trigger(true, t.lastShotTime)
    else t
  }

  /** What reaches the trigger: a press of the fire key, which shoots only
      when the trigger is ready, or a call of the cooldown timer. */
  datatype TriggerEvent = Pull(at: int) | Timer(at: int)

  function EventStep(t: Trigger, e: TriggerEvent): Trigger
  {
    match e
    case Pull(at) => if t.canShoot then Trigger(false, at) else t
    case Timer(at) => TimerStep(t, at)
  }

  /** The times of the shots fired while the events run, in order. */
  function ShotTimes(t: Trigger, events: seq<TriggerEvent>): seq<int>
    decreases |events|
  {
    if events == [] then []
    else
      var fired := if events[0].Pull? && t.canShoot then [events[0].at] else [];
      fired + ShotTimes(EventStep(t, events[0]), events[1..])
  }

  predicate EventsChronological(events: seq<TriggerEvent>)
  {
    forall i, j :: 0 <= i < j < |events| ==> events[i].at <= events[j].at
  }

  predicate Spaced(shots: seq<int>, gap: int)
  {
    forall i :: 0 <= i < |shots| - 1 ==> shots[i + 1] - shots[i] >= gap
  }

  /** Once the trigger is either cooling down, or ready with the cooldown
      elapsed by `now`, every later shot comes at least 250 ms after the last
      one. */
  lemma {:induction false} ShotsFollowLastShot(t: Trigger, events: seq<TriggerEvent>, now: int)
    requires EventsChronological(events)
    requires forall i :: 0 <= i < |events| ==> now <= events[i].at
    requires t.canShoot ==> Elapsed(t.lastShotTime, now, ShootCooldown)
    ensures var shots := ShotTimes(t, events);
      Spaced(shots, ShootCooldown) &&
      (|shots| > 0 ==> Elapsed(t.lastShotTime, shots[0], ShootCooldown))
    decreases |events|
  {
    if events != [] {
      var e, rest := events[0], events[1..];
      var t' := EventStep(t, e);
      assert EventsChronological(rest);
      assert forall i :: 0 <= i < |rest| ==> e.at <= rest[i].at;
      ShotsFollowLastShot(t', rest, e.at);
      var tail := ShotTimes(t', rest);
      if e.Pull? && t.canShoot {
        assert ShotTimes(t, events) == [e.at] + tail;
      } else {
        assert ShotTimes(t, events) == tail;
      }
    }
  }

  /** From any starting state, two shots are never closer than the cooldown:
      a press before the last shot plus 250 ms fires nothing. */
  lemma {:induction false} ShotsAreSpaced(t: Trigger, events: seq<TriggerEvent>)
    requires EventsChronological(events)
    ensures Spaced(ShotTimes(t, events), ShootCooldown)
    decreases |events|
  {
    if events != [] {
      var e, rest := events[0], events[1..];
      var t' := EventStep(t, e);
      assert EventsChronological(rest);
      if e.Pull? && t.canShoot {
        assert forall i :: 0 <= i < |rest| ==> e.at <= rest[i].at;
        ShotsFollowLastShot(t', rest, e.at);
        assert ShotTimes(t, events) == [e.at] + ShotTimes(t', rest);
      } else {
        ShotsAreSpaced(t', rest);
        assert ShotTimes(t, events) == ShotTimes(t', rest);
      }
    }
  }

  class Player {
    const windowWidth: int
    const windowHeight: int
    const speed: int
    const cooldownDurations: int

    var rect: Rect
    var dirX: int
    var dirY: int
    var angle: int
    var canShoot: bool
    var lastShotTime: int

    ghost predicate Valid()
      reads this
    {
      IsSign(dirX) && IsSign(dirY) && IsCompassAngle(angle) &&
      speed == Speed && cooldownDurations == ShootCooldown
    }

    function Gun(): Trigger
      reads this
    {
      Trigger(canShoot, lastShotTime)
    }

    /** A ship at the center of the window, still, facing up, ready to shoot. */
    constructor (windowWidth: int, windowHeight: int, shipWidth: real, shipHeight: real)
      ensures Valid()
      ensures this.windowWidth == windowWidth && this.windowHeight == windowHeight
      ensures rect == CenteredAt(windowWidth as real / 2.0, windowHeight as real / 2.0, shipWidth, shipHeight)
      ensures dirX == 0 && dirY == 0 && angle == 0
      ensures speed == 350 && cooldownDurations == 250
      ensures canShoot && lastShotTime == 0
    {
      this.windowWidth := windowWidth;
      this.windowHeight := windowHeight;
      rect := CenteredAt(windowWidth as real / 2.0, windowHeight as real / 2.0, shipWidth, shipHeight);
      dirX, dirY := 0, 0;
      speed := Speed;
      angle := 0;
      canShoot := true;
      lastShotTime := 0;
      cooldownDurations := ShootCooldown;
    }

    /** Turns the ship towards the diagonal it moves along; any other
        direction leaves the angle alone. */
    method CheckDiagonalMovement()
      requires Valid()
      modifies this`angle
      ensures Valid()
      ensures angle == DiagonalCheck(dirX, dirY, old(angle))
    {
      if dirX != 0 && dirY != 0 {
        if dirX > 0 && 0 > dirY {
          angle := -45;
        } else if dirX < 0 && dirY < 0 {
          angle := 45;
        } else if dirX > 0 && dirY > 0 {
          angle := -135;
        } else if dirX < 0 && 0 < dirY {
          angle := 135;
        }
      }
    }

    /** The cooldown gate: a ship that cannot shoot may shoot again once
        250 ms have passed since its last shot. */
    method BulletTimer(now: int)
      requires Valid()
      modifies this`canShoot
      ensures Valid()
      ensures Gun() == TimerStep(old(Gun()), now)
    {
      if canShoot {
        return;
      }
      if now - lastShotTime >= cooldownDurations {
        canShoot := true;
      }
    }

    /** Records the shot and starts the cooldown. */
    method ShootBullet(now: int)
      requires Valid()
      modifies this`lastShotTime, this`canShoot, this`angle
      ensures Valid()
      ensures Gun() == Trigger(false, now)
      ensures angle == DiagonalCheck(dirX, dirY, old(angle))
    {
      lastShotTime := now;
      canShoot := false;
      CheckDiagonalMovement();
    }

    /** Steering: direction signs from the held keys and the window edges,
        then the facing angle of the new direction. */
    method Input(keys: Keys)
      requires Valid()
      modifies this`dirX, this`dirY, this`angle
      ensures Valid()
      ensures dirX == HorizontalSign(keys, rect, windowWidth)
      ensures dirY == VerticalSign(keys, rect, windowHeight)
      ensures angle == Facing(dirX, dirY, old(angle))
    {
      if keys.left && rect.left >= 0.0 {
        dirX := -1;
        angle := 90;
      } else if keys.right && rect.Right() <= windowWidth as real {
        dirX := 1;
        angle := -90;
      } else {
        dirX := 0;
      }

      if keys.down && rect.Bottom() <= windowHeight as real {
        dirY := 1;
        angle := 180;
      } else if keys.up && rect.top >= 0.0 {
        dirY := -1;
        angle := 0;
      } else {
        dirY := 0;
      }

      CheckDiagonalMovement();
    }

    /** Moves the ship along its direction. `stepX` and `stepY` are the
        magnitudes of the floating-point displacement, speed times frame time
        times the normalised component, which this model takes as given. */
    method Move(stepX: real, stepY: real)
      requires stepX >= 0.0 && stepY >= 0.0
      modifies this`rect
      ensures rect == old(rect).MoveBy(dirX as real * stepX, dirY as real * stepY)
    {
      rect := rect.MoveBy(dirX as real * stepX, dirY as real * stepY);
    }

    /** One frame of the ship: cooldown gate, then steering, then motion. */
    method Update(now: int, keys: Keys, stepX: real, stepY: real)
      requires Valid()
      requires stepX >= 0.0 && stepY >= 0.0
      modifies this
      ensures Valid()
      ensures Gun() == TimerStep(old(Gun()), now)
      ensures dirX == HorizontalSign(keys, old(rect), windowWidth)
      ensures dirY == VerticalSign(keys, old(rect), windowHeight)
      ensures angle == Facing(dirX, dirY, old(angle))
      ensures rect == old(rect).MoveBy(dirX as real * stepX, dirY as real * stepY)
    {
      BulletTimer(now);
      Input(keys);
      Move(stepX, stepY);
    }
  }
}
