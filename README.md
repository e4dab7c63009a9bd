# Arcade avoidance game: the simulation core in Dafny

`game.py` is a single-screen arcade game. The player steers a 40-pixel square with the
arrow keys. A roster of 50-pixel enemy squares chases it, each enemy following one of
four motion rules: chaser, zigzag, circle or predict. The roster doubles every fifteen
seconds of play. The first enemy to come within the hit margin ends the game, and R
starts a new session.

This project models the state machine beneath the frame loop, in module `Game`
(`game.dfy`):

- `Enemy`, `EnemyType` and `Keys` are datatypes. The session variables that the source
  keeps at module level (player position, roster, enemy speed, frame count, level, score,
  game-over flag) are the fields of class `GameState`.
- `SpawnEnemies` is the append loop that builds a batch of enemies. The random draws
  become arbitrary choices (`:|`) within the ranges the source draws from.
- `MoveEnemy` is one enemy move, with the zero-distance guard and the four motion rules.
  `hypot`, `sin` and `cos` are supplied as a `Numerics` record of functions, and the
  millisecond clock is a parameter.
- `GameState.Tick` is one pass of the frame loop. While playing, it calls `Play`:
  - steer the player and clamp it to the screen;
  - move every enemy and test each one for a hit (`MoveEnemies`);
  - count the frame, rederive the score and level up on every 900th frame (`CountFrame`).

  Once the game is over, `Tick` changes nothing until R is held; R calls `Restart`.
- `GameState.Valid` is the session invariant. It keeps the player within
  `[0, 760] × [0, 560]`, and requires `score == frameCount / 60`,
  `level == 1 + frameCount / 900`, `enemySpeed == 2 + 0.3 * (level - 1)` and
  `|enemies| == 2^(level - 1)`. The constructor, `Restart` and every `Tick` establish it
  or keep it.

An orbiting enemy that sits exactly on the player keeps its phase: the zero-distance
guard (game.py:69-70) returns before `enemy["angle"] += 0.05`. `MoveEnemy` and
`CoincidentEnemyStays` state this; `OrbitPhaseAdvances` states the advance everywhere else.

## Model

| member | source | states |
|---|---|---|
| `Game.SpawnEnemies` | game.py:51-59 | returns exactly `count` enemies; each has whole-numbered coordinates with `0 <= x <= 750` and `0 <= y <= 550` and phase 0 (its type is one of the four `ENEMY_TYPES` by the `EnemyType` datatype, not by a proof) |
| `Game.Steer` | game.py:107-119 | one axis of the player's move ends in `[0, hi]` for any keys; from an on-screen position it moves at most 5; opposite keys (or none) leave it in place; a single key moves it 5 towards that side, stopping at the edge |
| `Game.MoveEnemy` | game.py:63-95 | the type never changes; when `hypot` of the offset to the player is 0 the enemy is returned unchanged; only a circle enemy's phase changes, by exactly 0.05, and only when the guard lets it move |
| `Game.CoincidentEnemyStays` | game.py:65-70 | for a `hypot` that is zero exactly at the origin, an enemy exactly on the player is left completely unchanged |
| `Game.OrbitPhaseAdvances` | game.py:86-90 | for such a `hypot`, a circle enemy anywhere but on the player advances its phase by exactly 0.05 |
| `Game.PredictOvershootsChaser` | game.py:76-95 | a predict enemy's displacement is 1.1 times what a chaser's would be from the same place |
| `Game.OrbitStaysNearChaser` | game.py:76-90 | with sine and cosine in [-1, 1], a circle enemy's displacement is within 2 of a chaser's on each axis |
| `Game.ZigzagStaysNearChaser` | game.py:76-84 | with sine and cosine in [-1, 1], a zigzag enemy's displacement is within 3 of a chaser's on each axis |
| `Game.AdvanceAll` | game.py:121-123 | moving the roster keeps its length and moves element `i` by `MoveEnemy`, all against the same player position and speed |
| `Game.Collides` | game.py:126-127 | the hit test holds exactly when the enemy's corner lies strictly inside the open square of half-width 30 around the player's corner; the enemy's size, type and phase play no part |
| `Game.HitMarginExamples` | game.py:126-127 | with the player at (100, 100), an enemy at (125, 125) hits and one at (135, 135) does not |
| `Game.OverlapWithoutHit` | game.py:126-127 | an enemy whose 50-pixel square overlaps the player's can still miss, because the test ignores the enemy's size |
| `Game.LevelStep` | game.py:140-145 | one more frame raises `1 + frames / 900` by one exactly when the new frame count is due for a level-up (`LevelUpDue`: a multiple of 900, as tested at game.py:144), and otherwise leaves it |
| `Game.LevelUpBoundary` | game.py:143-145 | frame `900 * k` is due for a level-up and is on level `k + 1` |
| `Game.NoLevelUpBetween` | game.py:143-145 | no frame strictly between two multiples of 900 is due, and all of them share level `k + 1` |
| `Game.DifficultyNeverDrops` | game.py:143-148 | as frames go by, the level, the roster size `2^(level - 1)` and the enemy speed never decrease |
| `Game.GameState.constructor` | game.py:34-61 | the first session: player at (400, 300), one freshly spawned enemy, speed 2, frame count 0, level 1, score 0, not over; the session invariant holds |
| `Game.GameState.Restart` | game.py:160-169 | resets every session variable to exactly those start values and establishes the session invariant |
| `Game.GameState.MoveEnemies` | game.py:121-127 | the roster becomes `AdvanceAll` of the old roster; the game is over afterwards exactly when it was before or some moved enemy is strictly less than 30 from the player on both axes |
| `Game.GameState.CountFrame` | game.py:139-148 | the frame count rises by one and the score becomes `frameCount / 60`; on a multiple of 900 the level rises by 1, the speed by 0.3 and the roster doubles with new spawned enemies after the unchanged old ones; otherwise level, speed and roster stay; level, speed and roster size stay tied to the frame count |
| `Game.GameState.Play` | game.py:106-148 | one playing frame keeps the session invariant, including the player's screen bounds, and does exactly what `Played` describes: steer, move and hit-test every enemy against the new player position at the frame's starting speed, count the frame, level up when due |
| `Game.GameState.Tick` | game.py:106-169 | keeps the session invariant; a playing frame is `Played`; once the game is over nothing changes unless R is held, and R gives the start-of-session state |

## Left out

- Window, music, fonts and display setup (game.py:7-17, 41), drawing and the heads-up text (game.py:99, 129-137, 150-158, 171): input/output through pygame.
- Event polling, quitting and frame pacing (game.py:101-104, 172). The outer `while running` loop is the caller calling `Tick` once per frame. Keys and the millisecond clock are parameters.
- Floating point: enemy positions, speed and phase are exact reals. The source's binary floats round, so its speed after `k` level-ups is only approximately `2 + 0.3 * k`. Player positions are integers in the source too and are exact.
- `math.hypot`, `math.sin`, `math.cos`: supplied as functions in `Numerics`. The only law assumed about `hypot` (in `CoincidentEnemyStays` and `OrbitPhaseAdvances`) is that it is zero exactly at the origin; the bounds on sine and cosine are preconditions of the two lemmas that need them.
- `MoveEnemy`: the zigzag rule reads `pygame.time.get_ticks()` twice (game.py:83-84); the model reads one clock value per frame for both axes.
- `random.randint` and `random.choice`: modelled only by the ranges they draw from, not by their distribution.
- Enemy records are dictionaries mutated in place in the source. Here they are values, and a move replaces the roster slot. No other reference to an enemy dictionary exists in the source, so nothing observes the difference.
