/** A falling asteroid (scripts/asteroid.py).

    The random draws of the constructor are parameters held to the ranges
    scripts/asteroid.py draws them from. Removal from the sprite groups is the
    `alive` flag turning false. Motion is on exact reals. */
module Asteroids {
  import opened Clock

  const LifeTime := 3000
  const SpawnY := -10

  /** The asteroid of `startTime` has outlived its lifetime at `now`. */
  predicate Expired(startTime: int, now: int)
  {
    Elapsed(startTime, now, LifeTime)
  }

  /** An asteroid lives through a check exactly when the check comes
      strictly before its start plus 3000 ms. */
  lemma ExpiryIsExact(startTime: int, now: int)
    ensures !Expired(startTime, now) <==> now < startTime + 3000
  {
  }

  class Asteroid {
    var centerX: real
    var centerY: real
    const dirX: real
    const dirY: real
    const speed: int
    var rotation: real
    const rotationSpeed: int
    const startTime: int
    const lifeTime: int
    var alive: bool

    /** The draws stay in their ranges; the direction always points down. */
    ghost predicate Valid()
      reads this
    {
      -0.5 <= dirX <= 0.5 && 0.5 <= dirY <= 1.0 &&
      450 <= speed < 700 && 40 <= rotationSpeed < 80 &&
      lifeTime == LifeTime
    }

    /** A new asteroid above the top edge at a random column. `spawnX`,
        `dirX`, `dirY`, `speed` and `rotationSpeed` are the random draws;
        `now` is the clock at creation. */
    constructor (windowWidth: int, spawnX: int, dirX: real, dirY: real,
                 speed: int, rotationSpeed: int, now: int)
      requires 0 <= spawnX < windowWidth
      requires -0.5 <= dirX <= 0.5 && 0.5 <= dirY <= 1.0
      requires 450 <= speed < 700
      requires 40 <= rotationSpeed < 80
      ensures Valid() && alive
      ensures centerX == spawnX as real && centerY == SpawnY as real
      ensures this.dirX == dirX && this.dirY == dirY && this.dirY > 0.0
      ensures this.speed == speed && this.rotationSpeed == rotationSpeed
      ensures rotation == 0.0 && startTime == now && lifeTime == 3000
    {
      centerX, centerY := spawnX as real, SpawnY as real;
      this.dirX, this.dirY := dirX, dirY;
      this.speed := speed;
      rotation := 0.0;
      this.rotationSpeed := rotationSpeed;
      startTime := now;
      lifeTime := LifeTime;
      alive := true;
    }

    /** The lifetime gate: the asteroid is removed once 3000 ms have passed
        since it was created. */
    method AsteroidTimer(now: int)
      requires Valid()
      modifies this`alive
      ensures alive == (old(alive) && !Expired(startTime, now))
    {
      if now - startTime >= lifeTime {
        alive := false;
      }
    }

    /** Spins by `rotationSpeed` degrees per second and moves along its
        direction at its speed for `dt` seconds. */
    method Move(dt: real)
      modifies this`rotation, this`centerX, this`centerY
      ensures rotation == old(rotation) + dt * rotationSpeed as real
      ensures centerX == old(centerX) + dirX * speed as real * dt
      ensures centerY == old(centerY) + dirY * speed as real * dt
    {
      rotation := rotation + dt * rotationSpeed as real;
      centerX := centerX + dirX * speed as real * dt;
      centerY := centerY + dirY * speed as real * dt;
    }

    /** One frame: the lifetime check runs first, against the clock, and the
        asteroid then moves whether or not the check removed it. */
    method Update(now: int, dt: real)
      requires Valid()
      requires dt >= 0.0
      modifies this
      ensures Valid()
      ensures alive == (old(alive) && !Expired(startTime, now))
      ensures rotation == old(rotation) + dt * rotationSpeed as real
      ensures centerX == old(centerX) + dirX * speed as real * dt
      ensures centerY == old(centerY) + dirY * speed as real * dt
      ensures centerY >= old(centerY)
    {
      AsteroidTimer(now);
      Move(dt);
      assert dirY * speed as real >= 0.0;
      assert (dirY * speed as real) * dt >= 0.0;
    }
  }
}
