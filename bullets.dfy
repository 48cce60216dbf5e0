/** A bullet (scripts/bullet.py).

    The bullet owns a copy of the direction vector it was fired along; its
    angle and speed never change. It is removed (the `alive` flag turns
    false) once the top-left corner of its rectangle leaves the window.
    Motion is on exact reals. */
module Bullets {
  import opened Geometry

  const Speed := 500

  /** A mutable two-component vector, as the game library's vectors are. */
  class Vector2 {
    var x: real
    var y: real

    constructor (x: real, y: real)
      ensures this.x == x && this.y == y
    {
      this.x, this.y := x, y;
    }
  }

  /** The window test of check_collision: both bounds inclusive. */
  predicate InWindow(x: real, y: real, windowWidth: int, windowHeight: int)
  {
    0.0 <= x <= windowWidth as real && 0.0 <= y <= windowHeight as real
  }

  /** The direction move flies along: straight up in place of the zero
      vector, any other direction as it is. */
  function DefaultDirection(x: real, y: real): (r: (real, real))
    ensures r != (0.0, 0.0)
    ensures (x, y) != (0.0, 0.0) ==> r == (x, y)
    ensures (x, y) == (0.0, 0.0) ==> r == (0.0, -1.0)
  {
    if x == 0.0 && y == 0.0 then (x, -1.0) else (x, y)
  }

  /** Defaulting a direction twice changes nothing more than defaulting it
      once. */
  lemma DefaultDirectionIdempotent(x: real, y: real)
    ensures DefaultDirection(DefaultDirection(x, y).0, DefaultDirection(x, y).1) == DefaultDirection(x, y)
  {
  }

  class Bullet {
    var rect: Rect
    const speed: int
    const direction: Vector2
    const angle: int
    var alive: bool

    /** A bullet centred on `pos`, flying along a copy of `dir`. */
    constructor (pos: (real, real), dir: Vector2, angle: int, imageWidth: real, imageHeight: real)
      ensures fresh(direction)
      ensures direction.x == dir.x && direction.y == dir.y
      ensures rect == CenteredAt(pos.0, pos.1, imageWidth, imageHeight)
      ensures this.angle == angle && speed == 500 && alive
    {
      rect := CenteredAt(pos.0, pos.1, imageWidth, imageHeight);
      speed := Speed;
      direction := new Vector2(dir.x, dir.y);
      this.angle := angle;
      alive := true;
    }

    /** Removes the bullet once its top-left corner is outside the window. */
    method CheckCollision(windowWidth: int, windowHeight: int)
      modifies this`alive
      ensures alive == (old(alive) && InWindow(rect.left, rect.top, windowWidth, windowHeight))
    {
      if !(0.0 <= rect.left <= windowWidth as real && 0.0 <= rect.top <= windowHeight as real) {
        alive := false;
      }
    }

    /** Defaults a zero direction to straight up, then moves along the
        direction at the bullet's speed for `dt` seconds. */
    method Move(dt: real)
      modifies this`rect, direction
      ensures (direction.x, direction.y) == DefaultDirection(old(direction.x), old(direction.y))
      ensures rect == old(rect).MoveBy(direction.x * speed as real * dt, direction.y * speed as real * dt)
    {
      if direction.x == 0.0 && direction.y == 0.0 {
        direction.y := -1.0;
      }
      rect := rect.MoveBy(direction.x * speed as real * dt, direction.y * speed as real * dt);
    }

    /** One frame: the move comes first, so the window test sees the new
        position. */
    method Update(dt: real, windowWidth: int, windowHeight: int)
      modifies this, direction
      ensures (direction.x, direction.y) == DefaultDirection(old(direction.x), old(direction.y))
      ensures (direction.x, direction.y) != (0.0, 0.0)
      ensures rect == old(rect).MoveBy(direction.x * speed as real * dt, direction.y * speed as real * dt)
      ensures alive == (old(alive) && InWindow(rect.left, rect.top, windowWidth, windowHeight))
    {
      Move(dt);
      CheckCollision(windowWidth, windowHeight);
    }
  }

  /** The bullet keeps its own copy of the direction: changing the vector it
      was fired with afterwards leaves the bullet's direction as it was. */
  method FireThenTurn(pos: (real, real), dir: Vector2, angle: int, imageWidth: real, imageHeight: real,
                      newX: real, newY: real)
    returns (b: Bullet)
    modifies dir
    ensures dir.x == newX && dir.y == newY
    ensures b.direction != dir
    ensures b.direction.x == old(dir.x) && b.direction.y == old(dir.y)
    ensures b.angle == angle && b.speed == Speed
  {
    b := new Bullet(pos, dir, angle, imageWidth, imageHeight);
    dir.x, dir.y := newX, newY;
  }
}
