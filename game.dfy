/** The game session of main.py: the counters, the two sprite groups the
    rules work on, and the per-frame rules (input, asteroid spawning,
    collision resolution, the difficulty timer, the ship's update), with the
    score line built from the counters.

    The asteroids and bullets main.py creates come from files that are not
    part of this model, so here a sprite is known by an identity: a fresh
    number for each sprite created, and for a bullet also what it was fired
    with. */
module SpaceShooter {
  import opened Clock
  import opened Geometry
  import opened Collision
  import opened Levels
  import opened Scoring
  import opened Spawner
  import opened Ship

  type SpriteId = nat

  /** A bullet of the bullet group: its identity and what it took from the
      ship when it was fired. */
  datatype BulletSprite = BulletSprite(id: SpriteId, centerX: real, centerY: real,
                                       dirX: int, dirY: int, angle: int)

  class Game {
    const windowWidth: int
    const windowHeight: int
    const player: Player

    var running: bool
    var asteroidSummonCooldown: int
    var lastAsteroidSummonTime: int
    var currentLevel: nat
    var asteroidDestroyed: nat
    var bulletSprites: seq<BulletSprite>
    var asteroidSprites: seq<SpriteId>
    /** The identity the next sprite created receives. */
    var nextSprite: SpriteId

    function Pace(): Difficulty
      reads this
    {
      Difficulty(currentLevel, asteroidSummonCooldown)
    }

    ghost predicate Valid()
      reads this, player
    {
      player.Valid() && OnSchedule(Pace()) &&
      Distinct(bulletSprites) && Distinct(asteroidSprites) &&
      (forall b :: b in bulletSprites ==> b.id < nextSprite) &&
      (forall a :: a in asteroidSprites ==> a < nextSprite)
    }

    /** A running session at level 0 with the 200 ms spawn cooldown, no
        asteroids and no bullets, and a new ship at the window's center. */
    constructor (windowWidth: int, windowHeight: int, shipWidth: real, shipHeight: real)
      ensures Valid() && fresh(player)
      ensures this.windowWidth == windowWidth && this.windowHeight == windowHeight
      ensures running
      ensures asteroidSummonCooldown == 200 && lastAsteroidSummonTime == 0
      ensures currentLevel == 0 && asteroidDestroyed == 0
      ensures bulletSprites == [] && asteroidSprites == []
      ensures player.windowWidth == windowWidth && player.windowHeight == windowHeight
      ensures player.dirX == 0 && player.dirY == 0 && player.angle == 0
      ensures player.Gun() == Trigger(true, 0)
    {
      this.windowWidth, this.windowHeight := windowWidth, windowHeight;
      running := true;
      asteroidSummonCooldown := 200;
      lastAsteroidSummonTime := 0;
      currentLevel := 0;
      asteroidDestroyed := 0;
      bulletSprites, asteroidSprites := [], [];
      nextSprite := 0;
      player := new Player(windowWidth, windowHeight, shipWidth, shipHeight);
    }

    /** The score line drawn at the bottom of the window: "Score: " and the
        score of the two counters, padded to two digits. */
    function DisplayScore(): (text: string)
      reads this
      ensures |text| >= |Prefix| + 2 && text[..|Prefix|] == Prefix
      ensures AllDigits(text[|Prefix|..])
      ensures DecimalValue(text[|Prefix|..]) == asteroidDestroyed * (currentLevel + 10)
      ensures text[|Prefix|] == '0' <==> asteroidDestroyed * (currentLevel + 10) < 10
      ensures asteroidDestroyed * (currentLevel + 10) < 10 ==> |text| == |Prefix| + 2
    {
      ScoreText(asteroidDestroyed, currentLevel)
    }

    /** One call of difficulty_timer with the clock at `now`. */
    method DifficultyTimer(now: int)
      requires Valid()
      modifies this`currentLevel, this`asteroidSummonCooldown
      ensures Valid()
      ensures Pace() == Step(old(Pace()), now)
    {
      var currentTime := now / 1000 + 1;
      if currentLevel >= |LevelTimeStamps| {
        asteroidSummonCooldown := 0;
        return;
      }
      if currentTime >= LevelTimeStamps[currentLevel] {
        currentLevel := currentLevel + 1;
        asteroidSummonCooldown := asteroidSummonCooldown - 50;
      }
    }

    /** Bullet-asteroid resolution over a snapshot of the bullet group, then
        the player test against the asteroids left. */
    method CheckCollision(overlap: (BulletSprite, SpriteId) -> bool, touchesPlayer: SpriteId -> bool)
      requires Valid()
      modifies this`bulletSprites, this`asteroidSprites, this`asteroidDestroyed, this`running
      ensures Valid()
      ensures var r := Resolve(old(bulletSprites), old(asteroidSprites), overlap);
        bulletSprites == r.bullets && asteroidSprites == r.asteroids &&
        asteroidDestroyed == old(asteroidDestroyed) + r.destroyed
      ensures running == (old(running) && !PlayerHit(asteroidSprites, touchesPlayer))
    {
      var survivors, left, destroyed := ResolveGroups(bulletSprites, asteroidSprites, overlap);
      bulletSprites, asteroidSprites := survivors, left;
      asteroidDestroyed := asteroidDestroyed + destroyed;
      if PlayerHit(asteroidSprites, touchesPlayer) {
        running := false;
      }
    }

    /** Spawns an asteroid once the cooldown has passed since the last
        summon. `now` is the reading compared with the cooldown, `stamp` the
        later reading stored as the new summon time. */
    method AsteroidTimer(now: int, stamp: int)
      requires Valid()
      modifies this`lastAsteroidSummonTime, this`asteroidSprites, this`nextSprite
      ensures Valid()
      ensures lastAsteroidSummonTime
        == AfterCheck(old(lastAsteroidSummonTime), asteroidSummonCooldown, SpawnCheck(now, stamp))
      ensures SpawnDue(old(lastAsteroidSummonTime), asteroidSummonCooldown, now) ==>
        asteroidSprites == old(asteroidSprites) + [old(nextSprite)] && nextSprite == old(nextSprite) + 1
      ensures !SpawnDue(old(lastAsteroidSummonTime), asteroidSummonCooldown, now) ==>
        asteroidSprites == old(asteroidSprites) && nextSprite == old(nextSprite)
    {
      if now - lastAsteroidSummonTime >= asteroidSummonCooldown {
        AppendFresh(asteroidSprites, nextSprite);
        lastAsteroidSummonTime := stamp;
        asteroidSprites := asteroidSprites + [nextSprite];
        nextSprite := nextSprite + 1;
      }
    }

    /** Starts the ship's cooldown and fires a bullet from the ship's center
        along its direction, with its angle as the shot re-derived it. */
    method ShootBullet(now: int)
      requires Valid()
      modifies this`bulletSprites, this`nextSprite, player`lastShotTime, player`canShoot, player`angle
      ensures Valid()
      ensures player.Gun() == Trigger(false, now)
      ensures player.angle == DiagonalCheck(player.dirX, player.dirY, old(player.angle))
      ensures bulletSprites == old(bulletSprites) +
        [BulletSprite(old(nextSprite), player.rect.CenterX(), player.rect.CenterY(),
                      player.dirX, player.dirY, player.angle)]
      ensures nextSprite == old(nextSprite) + 1
    {
      player.ShootBullet(now);
      bulletSprites := bulletSprites +
        [BulletSprite(nextSprite, player.rect.CenterX(), player.rect.CenterY(),
                      player.dirX, player.dirY, player.angle)];
      nextSprite := nextSprite + 1;
    }

    /** Fires when the fire key was just pressed and the ship can shoot;
        the ship's angle is reset to 0 in every case. */
    method Input(firePressed: bool, now: int)
      requires Valid()
      modifies this`bulletSprites, this`nextSprite, player`lastShotTime, player`canShoot, player`angle
      ensures Valid()
      ensures player.angle == 0
      ensures firePressed && old(player.canShoot) ==>
        player.Gun() == Trigger(false, now) &&
        bulletSprites == old(bulletSprites) +
          [BulletSprite(old(nextSprite), player.rect.CenterX(), player.rect.CenterY(), player.dirX, player.dirY,
                        DiagonalCheck(player.dirX, player.dirY, old(player.angle)))] &&
        nextSprite == old(nextSprite) + 1
      ensures !(firePressed && old(player.canShoot)) ==>
        player.Gun() == old(player.Gun()) &&
        bulletSprites == old(bulletSprites) && nextSprite == old(nextSprite)
    {
      if firePressed && player.canShoot {
        ShootBullet(now);
      }
      player.angle := 0;
    }

    /** One pass of the main loop. `quit` tells whether a quit event was
        polled; the other parameters are the clock readings of the rules in
        the order they run, the held keys, the ship's displacement magnitudes
        and the two overlap tests of the frame. The rest of the frame runs
        even after a quit, as in main.py's loop; the loop stops before the next
        pass. */
    method Frame(quit: bool, firePressed: bool, keys: Keys,
                 tInput: int, tSpawn: int, tSpawnStamp: int, tDifficulty: int, tPlayer: int,
                 stepX: real, stepY: real,
                 overlap: (BulletSprite, SpriteId) -> bool, touchesPlayer: SpriteId -> bool)
      requires Valid()
      requires stepX >= 0.0 && stepY >= 0.0
      modifies this, player
      ensures Valid()
      ensures running ==> old(running) && !quit
      ensures old(currentLevel) <= currentLevel <= old(currentLevel) + 1
      ensures asteroidDestroyed >= old(asteroidDestroyed)
    {
      if quit {
        running := false;
      }
      Input(firePressed, tInput);
      AsteroidTimer(tSpawn, tSpawnStamp);
      CheckCollision(overlap, touchesPlayer);
      DifficultyTimer(tDifficulty);
      player.Update(tPlayer, keys, stepX, stepY);
    }
  }

  /** Adding an identity larger than every one in a group keeps the group
      free of repetitions. */
  lemma AppendFresh(group: seq<SpriteId>, id: SpriteId)
    requires Distinct(group) && forall a :: a in group ==> a < id
    ensures Distinct(group + [id])
  {
    var s := group + [id];
    forall i, j | 0 <= i < j < |s| ensures s[i] != s[j] {
      if j == |group| { assert s[i] == group[i]; assert group[i] in group; }
      else { assert s[i] == group[i] && s[j] == group[j]; }
    }
  }
}
