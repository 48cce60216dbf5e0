# Space shooter game rules in Dafny

A model of the discrete rules of a small pygame space shooter. The ship
steers with the arrow keys and fires bullets on a 250 ms cooldown.
Asteroids fall from the top edge on a spawn timer that speeds up over
four difficulty levels. Bullets destroy the asteroids they overlap. An
asteroid touching the ship ends the game. The score shown on screen is
the number of asteroids destroyed times the level plus ten.

The model is split by the program's own files:

- `clock.dfy` (`Clock`): the elapsed-time gate every timer uses. The
  millisecond clock is a parameter `now`.
- `geometry.dfy` (`Geometry`): the library's floating-point rectangle, on
  exact reals.
- `game.dfy` (`SpaceShooter`): the `Game` class of `main.py`. It holds the
  counters, the bullet and asteroid groups as sequences, and the per-frame
  rules.
- `levels.dfy` (`Levels`): `difficulty_timer` as a step function, with
  the schedule invariant `cooldown == 200 - 50 * level`.
- `spawner.dfy` (`Spawner`): the asteroid spawn timer over a run of checks.
- `collision.dfy` (`Collision`): the bullet–asteroid resolution of
  `check_collision`. It has a reference definition, the loop that computes
  it, and the fate of every bullet and asteroid.
- `scoring.dfy` (`Scoring`): the score arithmetic and the score text,
  with a decimal round trip.
- `ship.dfy` (`Ship`): the `Player` class of `data/scripts/player.py`. It
  covers steering signs, the facing angle and the shoot cooldown, with the
  spacing of shots over any run of presses and timer calls.
- `asteroids.dfy` (`Asteroids`): the `Asteroid` class of
  `scripts/asteroid.py`. It covers the draw ranges, the 3000 ms lifetime
  and the update order.
- `bullets.dfy` (`Bullets`): the `Bullet` class of `scripts/bullet.py`. It
  covers the frozen fields, the copied direction, the zero-direction
  default and the inclusive window test.

Modelling choices:

- **Sprite identities.** `main.py` creates its asteroids and bullets from
  `data/scripts/asteroid.py` and `data/scripts/bulllet.py`, and those files
  are not part of this model. So in `Game` an asteroid is a fresh number,
  and a bullet is a record of the ship's center, direction and angle when
  it was fired. The `scripts/` variants of the two classes are modelled on
  their own.
- **Groups.** A sprite group is a sequence in insertion order, which is the
  order the library iterates a group in. Removing a sprite from every group
  (`kill`) is its removal from the sequence, or its `alive` flag turning
  false.
- **Inputs.** The pixel-mask overlap tests are function parameters. The
  random draws are parameters held by `requires` to the ranges the game
  draws them from. The window size is a parameter, because `settings.py` is not
  part of this model.
- **Ship direction.** The ship's direction is its pair of signs. The game
  scales the vector to unit length. That scaling keeps every sign, and every
  rule reads only the signs.
- **Integer division.** Dafny's `/` on a positive divisor floors, as
  Python's `//` does.

## Model

| member | source | states |
|---|---|---|
| SpaceShooter.Game.constructor | main.py:24-37 | A running game with spawn cooldown 200, last summon 0, level 0, no asteroids destroyed, empty groups, and a new ship that is still, faces 0 and can shoot. |
| SpaceShooter.Game.DifficultyTimer | main.py:69-82 | The level and cooldown become `Levels.Step` of the old ones at `now`. The schedule invariant is kept. |
| SpaceShooter.Game.CheckCollision | main.py:84-110 | The groups and the destroyed counter become the `Collision.Resolve` reference resolution of the old groups. `running` is cleared exactly when an asteroid still left touches the player, and that test removes nothing. |
| SpaceShooter.Game.AsteroidTimer | main.py:112-122 | If the cooldown has elapsed since the last summon: one fresh asteroid is appended and the summon time becomes the second clock reading. Otherwise the group and the summon time are unchanged. |
| SpaceShooter.Game.ShootBullet | main.py:124-134 | The ship's trigger becomes (not ready, `now`). A bullet is appended carrying the ship's center, its direction, and its angle after the diagonal check. |
| SpaceShooter.Game.Input | main.py:136-143 | A bullet is fired exactly when the fire key was just pressed and the ship could shoot; otherwise the group and the trigger are unchanged. The ship's angle is 0 afterwards in both cases. |
| SpaceShooter.Game.Frame | main.py:151-162 | One pass of the loop, with the calls in main.py's order. `running` stays true only if it was true and no quit came; the level rises by at most one; the destroyed counter never decreases. |
| Levels.Step | main.py:73-82 | The level rises by at most one, and rises exactly when it is below 4 and `now // 1000 + 1` has reached its stamp. At level 4 or above the cooldown is forced to 0. The schedule invariant is preserved. |
| Levels.ScheduleCooldown | main.py:76-82 | On the schedule the cooldown lies in [0, 200], and it is 0 exactly at level 4. |
| Levels.RunStaysOnSchedule | main.py:76-82 | Any number of timer calls keeps `level <= 4` and `cooldown == 200 - 50 * level`. |
| Levels.RunLevelBounds | main.py:80-82 | Over n calls the level never decreases and rises by at most n. |
| Levels.LevelNeedsStamp | main.py:73-81 | Level k + 1 is reached only if some call was made at a second at or past stamp k. |
| Levels.LevelNotBefore | main.py:73-81 | On a clock that never goes back, level k + 1 is not reached before (stamp_k - 1) * 1000 ms. |
| Levels.FirstLevelNotBefore7000 | main.py:73-81 | Level 1 is not reached before 7000 ms. |
| Spawner.SpawnsAreSpaced | main.py:116-122 | Over chronological checks with a fixed cooldown, the first spawn comes at least one cooldown after the last summon, and consecutive spawns are at least one cooldown apart. |
| Scoring.DigitChar | main.py:55 | The character is a decimal digit whose value is the given number. |
| Scoring.Decimal | main.py:55 | `str` of a non-negative number is at least one digit, has a leading '0' exactly for 0, and is one digit exactly below 10. |
| Scoring.DecimalRoundTrip | main.py:55 | Reading back the decimal text of a number gives the number. |
| Scoring.ScoreText | main.py:54-55 | The text is "Score: " followed by at least two digits that read back as `destroyed * (level + 10)`. The first digit is '0' exactly when the score is below 10, and then the text has exactly two digits (one pad zero). |
| SpaceShooter.Game.DisplayScore | main.py:54-55 | The score line of the game's two counters: "Score: ", then digits that read back as `asteroid_destroyed * (current_level + 10)`, the first digit a pad '0' exactly when the score is below 10, and then exactly two digits. |
| Collision.Without | main.py:96 | Removing a sprite keeps exactly the other members of the group. |
| Collision.RemoveFromGroup | main.py:96 | In a group without repetitions, removing a member leaves the members before and after it, in order and still without repetitions. |
| Collision.Struck | main.py:92-94 | The collision query returns exactly the asteroids of the group the bullet overlaps. It is non-empty exactly when the bullet overlaps one. |
| Collision.Untouched | main.py:91-94 | Exactly the asteroids no bullet of the list overlaps remain, and no repetition is introduced. |
| Collision.UntouchedByMiss | main.py:92-95 | A bullet that overlaps nothing removes nothing. |
| Collision.UntouchedComposes | main.py:91-94 | Letting one list of bullets and then another remove what they overlap is the same as letting both lists together do it. |
| Collision.UntouchedNone | main.py:91-94 | An empty list of bullets removes nothing. |
| Collision.Resolve | main.py:91-97 | The reference resolution: every bullet either survives or counts as one destroyed asteroid, and survivors and remaining asteroids come from the inputs. |
| Collision.ResolveLast | main.py:91-97 | Resolving one more bullet is one more turn of the loop. |
| Collision.ResolveLeavesUntouched | main.py:91-94 | The asteroids left are exactly those no bullet overlaps, whatever the order of the bullets. |
| Collision.ResolveBulletFate | main.py:91-96 | The i-th bullet is removed exactly when it overlaps an asteroid that no earlier bullet overlapped. An asteroid removed earlier cannot be hit again. |
| Collision.MissingBulletSurvives | main.py:91-96 | A bullet that overlaps no asteroid of the group survives. |
| Collision.UnhitAsteroidSurvives | main.py:91-94 | An asteroid that no bullet overlaps survives. |
| Collision.ResolveGroups | main.py:91-97 | The loop over a snapshot of the bullet group computes the reference resolution. It leaves exactly the untouched asteroids and a bullet group without repetitions. |
| Ship.DiagonalAngle | data/scripts/player.py:32-44 | With both signs nonzero, the angle is the compass angle whose heading is exactly that diagonal (-45, 45, -135, 135). |
| Ship.Facing | data/scripts/player.py:70-90 | After steering, a moving ship faces a compass angle whose heading is its direction, and a ship that does not move keeps its angle. |
| Ship.FacingOfHeading | data/scripts/player.py:70-90 | Facing inverts Heading on the eight compass angles. |
| Ship.TimerStep | data/scripts/player.py:46-54 | The last shot time is kept. The ship can shoot afterwards exactly when it could before or 250 ms have elapsed since the last shot, so the timer never clears the flag. |
| Ship.ShotsFollowLastShot | data/scripts/player.py:46-61 | From a cooling or elapsed trigger, every later shot comes at least 250 ms after the last one, and the shots are 250 ms apart. |
| Ship.ShotsAreSpaced | data/scripts/player.py:46-61 | Over any chronological run of presses and timer calls, two shots are at least 250 ms apart. |
| Ship.Player.constructor | data/scripts/player.py:16-26 | The ship starts at the window's center with zero direction, angle 0, speed 350, able to shoot, last shot 0 and cooldown 250. |
| Ship.Player.CheckDiagonalMovement | data/scripts/player.py:28-44 | The angle changes only when both signs are nonzero, and then follows the diagonal table. |
| Ship.Player.BulletTimer | data/scripts/player.py:46-54 | The trigger becomes `TimerStep` of the old trigger at `now`. |
| Ship.Player.ShootBullet | data/scripts/player.py:56-62 | The trigger becomes (not ready, `now`), and the angle follows the diagonal check. |
| Ship.Player.Input | data/scripts/player.py:64-90 | The signs follow the key priorities and edge guards: left over right, down over up. The angle becomes `Facing` of the new signs and the old angle, and the signs stay in {-1, 0, 1}. |
| Ship.Player.Move | data/scripts/player.py:96-100 | The rectangle's center moves along the direction signs and its size is kept. |
| Ship.Player.Update | data/scripts/player.py:103-106 | The cooldown gate runs first, then steering against the rectangle before the move, then the move. |
| Geometry.Rect.MoveBy | data/scripts/player.py:100 | Moving a rectangle shifts its center by the displacement and keeps its size. |
| Geometry.CenteredAt | data/scripts/player.py:16 | The rectangle has the given center and size. |
| Asteroids.ExpiryIsExact | scripts/asteroid.py:27-30 | An asteroid survives a check exactly when the check is strictly before its start plus 3000 ms. |
| Asteroids.Asteroid.constructor | scripts/asteroid.py:13-25 | The new asteroid has spawn column in [0, width), y = -10, and a direction with x in [-0.5, 0.5] and y in [0.5, 1] (so always downward). Speed is in [450, 700), rotation 0, rotation speed in [40, 80), the start time is the clock and the lifetime 3000. |
| Asteroids.Asteroid.AsteroidTimer | scripts/asteroid.py:27-30 | The asteroid is removed exactly when 3000 ms have passed since its start. |
| Asteroids.Asteroid.Move | scripts/asteroid.py:32-34 | Rotation and position advance by speed times frame time. |
| Asteroids.Asteroid.Update | scripts/asteroid.py:37-39 | The lifetime check runs before the move and sees the clock, not the position. The asteroid never moves up. |
| Bullets.DefaultDirection | scripts/bullet.py:29-30 | The result is never zero: the zero direction becomes straight up and any other direction is unchanged. |
| Bullets.DefaultDirectionIdempotent | scripts/bullet.py:29-31 | Defaulting an already defaulted direction changes nothing. |
| Bullets.Bullet.constructor | scripts/bullet.py:11-16 | The bullet is centred on the position, with speed 500 and the given angle, and flies along a fresh copy of the direction. |
| Bullets.Bullet.CheckCollision | scripts/bullet.py:20-23 | The bullet is removed exactly when its top-left corner is outside the window, with both bounds inclusive. |
| Bullets.Bullet.Move | scripts/bullet.py:25-31 | A zero direction is defaulted to straight up in place, then the bullet moves along the direction. |
| Bullets.Bullet.Update | scripts/bullet.py:34-36 | The move comes first, so the window test sees the new position. Afterwards the direction is nonzero. |
| Bullets.FireThenTurn | scripts/bullet.py:15 | Changing the fired-from vector after the shot leaves the bullet's direction as it was, and does not change its angle or speed. |

## Left out

- Rendering and assets: images, rotation of surfaces, fonts, blitting and the score frame. They are drawing calls with no rule in them. `scripts/display_text.py` is not part of this model.
- Audio: the music and sound effects are output only.
- The pixel-mask collision test is a parameter (`overlap`, `touchesPlayer`). What overlaps what is not modelled.
- Random draws (spawn column, asteroid direction, speed and rotation speed) are parameters held to their ranges.
- The frame clock, event polling and process exit of `run` are left out. `Game.Frame` models one pass of the loop, with the quit decision and every clock reading as parameters.
- Floating-point motion: positions and rotation are exact reals, and IEEE rounding is not modelled. The ship's normalised vector is not modelled either; `Ship.Player.Move` takes the displacement magnitudes as given.
- The explosion animation and the `all_sprites` group are left out. `SpriteAnimation` and a high score are not part of this model.
- `Game.Frame` updates the ship only. The asteroids and bullets `main.py` creates come from `data/scripts/asteroid.py` and `data/scripts/bulllet.py`, which are not part of this model, so their per-frame update is not composed into the frame. The `scripts/` classes `Asteroids.Asteroid` and `Bullets.Bullet` are modelled on their own.
- `settings.py` is not part of this model; the window size is a parameter.
- Spawner.SpawnsAreSpaced: assumes a fixed cooldown, while in the game the cooldown can shrink between checks at a level change.
- Collision.ResolveGroups: works on the group values and the game then stores the result. Changing the groups in place while the loop runs is shown only through the snapshot the loop walks.
