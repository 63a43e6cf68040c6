/**
  The runner mini-game: a player box that only jumps, obstacles (rats and
  poop) and coins that scroll in from the right, and a run that ends on the
  first rat touched (a loss) or when the 20-second clock runs out (a win).

  `World` is the value of the game's state; the functions on it say what one
  operation does. `Run` holds the same state in fields and updates it in
  place, each method proved to produce the `World` its function describes.
  Randomness comes in as a `Draw`; canvas drawing and timers are not modelled.
 */
module MiniGame {
  import opened Geometry

  const Gravity: real := 1700.0
  const JumpV: real := 620.0
  const WorldSpeed: real := 260.0
  const Duration: real := 20.0
  const PlayerX: real := 80.0
  const PlayerSize: real := 36.0
  const SpawnEvery: real := 0.9
  const Slowed: real := 0.4
  const Offscreen: real := -9999.0
  const ObstacleGoneX: real := -60.0
  const CoinGoneX: real := -40.0
  const MaxFrameDt: real := 0.032
  const TickDt: real := 1.0 / 60.0

  /** Canvas width W and ground line groundY. */
  datatype Config = Config(width: real, groundY: real)

  datatype Kind = Rat | Poop

  datatype Obstacle = Obstacle(x: real, y: real, w: real, h: real, vx: real, kind: Kind)

  datatype Coin = Coin(x: real, y: real, r: real, vx: real)

  /** What the run reports to its host when it ends. */
  datatype Outcome = Outcome(won: bool, score: nat, time: real)

  /** The `Math.random()` values one step may consume: `roll` picks the kind of
      spawn, `j1` and `j2` are the jitters of its `rand(a, b)` calls, in order. */
  datatype Draw = Draw(roll: real, j1: real, j2: real)

  predicate ValidDraw(d: Draw)
  {
    0.0 <= d.roll < 1.0 && 0.0 <= d.j1 < 1.0 && 0.0 <= d.j2 < 1.0
  }

  /** The state of one run. `y`, `vy` and `grounded` are the player's; the
      player's x, width and height never change. `reported` holds the results
      handed to the host. */
  datatype World = World(
    elapsed: real, score: nat, alive: bool, slowFactor: real, spawnAcc: real,
    y: real, vy: real, grounded: bool,
    obs: seq<Obstacle>, coins: seq<Coin>, reported: seq<Outcome>)

  /** The ground line is `Math.floor(H * 0.8)` of the canvas height H. */
  function ConfigFor(width: nat, height: nat): (c: Config)
    ensures c.width == width as real
    ensures c.groundY <= 0.8 * (height as real) < c.groundY + 1.0
    ensures c.groundY == (c.groundY.Floor) as real
  {
    var q := (4 * height) / 5;
    assert 5 * q <= 4 * height < 5 * q + 5;
    assert (5 * q) as real <= (4 * height) as real < (5 * q + 5) as real;
    Config(width as real, q as real)
  }

  function PlayerBox(y: real): Box
  {
    Box(PlayerX, y, PlayerSize, PlayerSize)
  }

  function ObstacleBox(o: Obstacle): Box
  {
    Box(o.x, o.y, o.w, o.h)
  }

  predicate HitsObstacle(p: Box, o: Obstacle)
  {
    Aabb(p, ObstacleBox(o))
  }

  predicate HitsRat(p: Box, o: Obstacle)
  {
    HitsObstacle(p, o) && o.kind == Rat
  }

  predicate HitsCoin(p: Box, c: Coin)
  {
    RectCircle(p, c.x, c.y, c.r)
  }

  /** Every entity has a positive size and moves left. */
  predicate ObstaclesWellFormed(os: seq<Obstacle>)
  {
    forall k :: 0 <= k < |os| ==> os[k].w > 0.0 && os[k].h > 0.0 && os[k].vx < 0.0
  }

  predicate CoinsWellFormed(cs: seq<Coin>)
  {
    forall k :: 0 <= k < |cs| ==> cs[k].r > 0.0 && cs[k].vx < 0.0
  }

  /** What holds of every state a run goes through. */
  ghost predicate Inv(cfg: Config, w: World)
  {
    && Shape(cfg, w)
    && (w.alive ==> w.elapsed < Duration && w.reported == [])
    && (!w.alive ==>
          && |w.reported| == 1
          && w.reported[0].score == w.score
          && w.reported[0].time == Min(Duration, w.elapsed)
          && (w.reported[0].won ==> w.elapsed >= Duration))
  }

  /** The part of the invariant about the player, the slow factor, the spawn
      accumulator and the entities. */
  ghost predicate Shape(cfg: Config, w: World)
  {
    && w.y <= cfg.groundY - PlayerSize
    && (w.grounded ==> w.y == cfg.groundY - PlayerSize && w.vy == 0.0)
    && (w.slowFactor == 1.0 || w.slowFactor == Slowed)
    && w.spawnAcc < SpawnEvery
    && ObstaclesWellFormed(w.obs)
    && CoinsWellFormed(w.coins)
  }

  /** The state a run starts in: player standing on the ground, nothing spawned. */
  function Initial(cfg: Config): (w: World)
    ensures Inv(cfg, w) && w.alive && w.score == 0 && w.elapsed == 0.0
  {
    World(0.0, 0, true, 1.0, 0.0, cfg.groundY - PlayerSize, 0.0, true, [], [], [])
  }

  /** `jump`: only a live, grounded player takes off. */
  function Jumped(w: World): World
  {
    if w.alive && w.grounded then w.(vy := -JumpV, grounded := false) else w
  }

  /** `rand(a, b)` for the jitter u drawn by `Math.random()`. */
  function Rand(a: real, b: real, u: real): real
  {
    a + u * (b - a)
  }

  function SpawnRat(cfg: Config, u: real): Obstacle
  {
    Obstacle(cfg.width + 40.0, cfg.groundY - 22.0, 28.0, 22.0, -(WorldSpeed + Rand(20.0, 80.0, u)), Rat)
  }

  function SpawnPoop(cfg: Config, u: real): Obstacle
  {
    Obstacle(cfg.width + 40.0, cfg.groundY - 10.0, 18.0, 10.0, -(WorldSpeed + Rand(0.0, 50.0, u)), Poop)
  }

  function SpawnCoin(cfg: Config, u1: real, u2: real): Coin
  {
    Coin(cfg.width + 40.0, cfg.groundY - Rand(60.0, 140.0, u1), 8.0, -(WorldSpeed + Rand(30.0, 90.0, u2)))
  }

  /** `trySpawn(dt)`: the accumulator gains dt; once it reaches 0.9 it resets and
      one entity is appended at x = W + 40, moving left; its kind follows the roll. */
  function TrySpawned(cfg: Config, w: World, dt: real, d: Draw): (r: World)
    requires ValidDraw(d)
    ensures r == w.(spawnAcc := r.spawnAcc, obs := r.obs, coins := r.coins)
    ensures r.spawnAcc == (if w.spawnAcc + dt >= SpawnEvery then 0.0 else w.spawnAcc + dt)
    ensures r.spawnAcc < SpawnEvery
    ensures w.obs <= r.obs && w.coins <= r.coins
    ensures |r.obs| + |r.coins| == |w.obs| + |w.coins| + (if w.spawnAcc + dt >= SpawnEvery then 1 else 0)
    ensures |r.obs| > |w.obs| ==>
              && r.obs[|w.obs|].x == cfg.width + 40.0
              && r.obs[|w.obs|].vx < 0.0
              && r.obs[|w.obs|].y + r.obs[|w.obs|].h == cfg.groundY
              && (r.obs[|w.obs|].kind == Rat <==> d.roll < 0.45)
              && d.roll < 0.75
    ensures |r.coins| > |w.coins| ==>
              r.coins[|w.coins|].x == cfg.width + 40.0 && r.coins[|w.coins|].vx < 0.0 && d.roll >= 0.75
    ensures ObstaclesWellFormed(w.obs) ==> ObstaclesWellFormed(r.obs)
    ensures CoinsWellFormed(w.coins) ==> CoinsWellFormed(r.coins)
  {
    var acc := w.spawnAcc + dt;
    if acc < SpawnEvery then w.(spawnAcc := acc)
    else if d.roll < 0.45 then w.(spawnAcc := 0.0, obs := w.obs + [SpawnRat(cfg, d.j1)])
    else if d.roll < 0.75 then w.(spawnAcc := 0.0, obs := w.obs + [SpawnPoop(cfg, d.j1)])
    else w.(spawnAcc := 0.0, coins := w.coins + [SpawnCoin(cfg, d.j1, d.j2)])
  }

  /** Vertical motion: gravity, then position; at or past the ground line the
      player is put back on it, stopped and grounded. */
  function Fall(cfg: Config, w: World, dt: real): (r: World)
    ensures r == w.(y := r.y, vy := r.vy, grounded := r.grounded)
    ensures r.y <= cfg.groundY - PlayerSize
    ensures w.y + (w.vy + Gravity * dt) * dt >= cfg.groundY - PlayerSize ==>
              r.y == cfg.groundY - PlayerSize && r.vy == 0.0 && r.grounded
    ensures w.y + (w.vy + Gravity * dt) * dt < cfg.groundY - PlayerSize ==>
              && r.y == w.y + (w.vy + Gravity * dt) * dt && r.y < cfg.groundY - PlayerSize
              && r.vy == w.vy + Gravity * dt && r.grounded == w.grounded
  {
    var vy := w.vy + Gravity * dt;
    var y := w.y + vy * dt;
    if y >= cfg.groundY - PlayerSize then w.(y := cfg.groundY - PlayerSize, vy := 0.0, grounded := true)
    else w.(y := y, vy := vy)
  }

  function MoveObstacle(o: Obstacle, dt: real): Obstacle
  {
    o.(x := o.x + o.vx * dt)
  }

  function MoveCoin(c: Coin, dt: real): Coin
  {
    c.(x := c.x + c.vx * dt)
  }

  function ScrolledObs(os: seq<Obstacle>, dt: real): seq<Obstacle>
  {
    seq(|os|, k requires 0 <= k < |os| => MoveObstacle(os[k], dt))
  }

  function ScrolledCoins(cs: seq<Coin>, dt: real): seq<Coin>
  {
    seq(|cs|, k requires 0 <= k < |cs| => MoveCoin(cs[k], dt))
  }

  /** The clock advanced, the player moved vertically, the entities scrolled:
      the state the collision tests of a step look at. */
  function Moved(cfg: Config, w: World, dt: real): World
  {
    var m := Fall(cfg, w.(elapsed := w.elapsed + dt), dt);
    m.(obs := ScrolledObs(m.obs, dt), coins := ScrolledCoins(m.coins, dt))
  }

  /** Index of the first obstacle that is a rat touching p, or |os| if there is none. */
  function FirstRatHit(p: Box, os: seq<Obstacle>): (n: nat)
    ensures n <= |os|
    ensures forall k :: 0 <= k < n ==> !HitsRat(p, os[k])
    ensures n < |os| ==> HitsRat(p, os[n])
  {
    if os == [] then 0
    else if HitsRat(p, os[0]) then 0
    else 1 + FirstRatHit(p, os[1..])
  }

  /** A touched obstacle is moved off-screen. */
  function Cleared(p: Box, o: Obstacle): Obstacle
  {
    if HitsObstacle(p, o) then o.(x := Offscreen) else o
  }

  /** The obstacle queue after the collision loop stopped at index n. */
  function ClearedObs(p: Box, os: seq<Obstacle>, n: nat): seq<Obstacle>
  {
    seq(|os|, k requires 0 <= k < |os| => if k < n then Cleared(p, os[k]) else os[k])
  }

  /** Some obstacle before index n touches p. */
  predicate HitBefore(p: Box, os: seq<Obstacle>, n: nat)
  {
    exists k :: 0 <= k < n && k < |os| && HitsObstacle(p, os[k])
  }

  function Collected(p: Box, c: Coin): Coin
  {
    if HitsCoin(p, c) then c.(x := Offscreen) else c
  }

  function CollectedCoins(p: Box, cs: seq<Coin>): seq<Coin>
  {
    seq(|cs|, k requires 0 <= k < |cs| => Collected(p, cs[k]))
  }

  /** Number of coins touching p. */
  function CoinHits(p: Box, cs: seq<Coin>): (n: nat)
    ensures n <= |cs|
  {
    if cs == [] then 0
    else CoinHits(p, cs[..|cs| - 1]) + (if HitsCoin(p, cs[|cs| - 1]) then 1 else 0)
  }

  /** The leading obstacles left of x = -60 are dropped; the rest keep their order. */
  function PurgedObs(os: seq<Obstacle>): (r: seq<Obstacle>)
    ensures |r| <= |os| && r == os[|os| - |r|..]
    ensures forall k :: 0 <= k < |os| - |r| ==> os[k].x < ObstacleGoneX
    ensures r != [] ==> r[0].x >= ObstacleGoneX
  {
    if os != [] && os[0].x < ObstacleGoneX then PurgedObs(os[1..]) else os
  }

  /** The leading coins left of x = -40 are dropped; the rest keep their order. */
  function PurgedCoins(cs: seq<Coin>): (r: seq<Coin>)
    ensures |r| <= |cs| && r == cs[|cs| - |r|..]
    ensures forall k :: 0 <= k < |cs| - |r| ==> cs[k].x < CoinGoneX
    ensures r != [] ==> r[0].x >= CoinGoneX
  {
    if cs != [] && cs[0].x < CoinGoneX then PurgedCoins(cs[1..]) else cs
  }

  /** `finish(won)`: the run stops and its result is recorded. */
  function Finished(w: World, won: bool): World
  {
    w.(alive := false, reported := w.reported + [Outcome(won, w.score, Min(Duration, w.elapsed))])
  }

  /** The obstacle loop of a step: touched poop moves off-screen and sets the
      slow factor to 0.4; the loop stops at the first rat touched. Only the
      obstacles and the slow factor change. */
  function ObstaclesResolved(m: World): (c: World)
    ensures c == m.(obs := c.obs, slowFactor := c.slowFactor)
    ensures |c.obs| == |m.obs|
    ensures forall k :: 0 <= k < |c.obs| ==> c.obs[k] == m.obs[k].(x := c.obs[k].x)
    ensures c.slowFactor == m.slowFactor || c.slowFactor == Slowed
    ensures ObstaclesWellFormed(m.obs) ==> ObstaclesWellFormed(c.obs)
  {
    var p := PlayerBox(m.y);
    var n := FirstRatHit(p, m.obs);
    m.(obs := ClearedObs(p, m.obs, n),
       slowFactor := if HitBefore(p, m.obs, n) then Slowed else m.slowFactor)
  }

  /** The coin loop of a step: every coin touched is worth one point and moves
      off-screen. Only the coins and the score change. */
  function CoinsCollected(c: World): (s: World)
    ensures s == c.(coins := s.coins, score := s.score)
    ensures |s.coins| == |c.coins|
    ensures forall k :: 0 <= k < |s.coins| ==> s.coins[k] == c.coins[k].(x := s.coins[k].x)
    ensures c.score <= s.score <= c.score + |c.coins|
    ensures CoinsWellFormed(c.coins) ==> CoinsWellFormed(s.coins)
  {
    var p := PlayerBox(c.y);
    c.(coins := CollectedCoins(p, c.coins), score := c.score + CoinHits(p, c.coins))
  }

  /** The two purge loops of a step. Only the two queues change, each to a suffix. */
  function Purged(s: World): (r: World)
    ensures r == s.(obs := r.obs, coins := r.coins)
    ensures |r.obs| <= |s.obs| && r.obs == s.obs[|s.obs| - |r.obs|..]
    ensures |r.coins| <= |s.coins| && r.coins == s.coins[|s.coins| - |r.coins|..]
    ensures ObstaclesWellFormed(s.obs) ==> ObstaclesWellFormed(r.obs)
    ensures CoinsWellFormed(s.coins) ==> CoinsWellFormed(r.coins)
  {
    var os := PurgedObs(s.obs);
    var cs := PurgedCoins(s.coins);
    SuffixKeepsWellFormed(s.obs, s.coins, |s.obs| - |os|, |s.coins| - |cs|);
    s.(obs := os, coins := cs)
  }

  lemma SuffixKeepsWellFormed(os: seq<Obstacle>, cs: seq<Coin>, i: nat, j: nat)
    requires i <= |os| && j <= |cs|
    ensures ObstaclesWellFormed(os) ==> ObstaclesWellFormed(os[i..])
    ensures CoinsWellFormed(cs) ==> CoinsWellFormed(cs[j..])
  {
    assert forall k :: 0 <= k < |os| - i ==> os[i..][k] == os[i + k];
    assert forall k :: 0 <= k < |cs| - j ==> cs[j..][k] == cs[j + k];
  }

  /** A step after the player touched a rat. */
  function Lost(m: World): World
  {
    Finished(ObstaclesResolved(m), false)
  }

  /** The rest of a step when no rat was touched. */
  function Survived(cfg: Config, m: World, dt: real, d: Draw): World
    requires ValidDraw(d)
  {
    var u := TrySpawned(cfg, Purged(CoinsCollected(ObstaclesResolved(m))), dt, d);
    if u.elapsed >= Duration then Finished(u, true) else u
  }

  /** One call of `step(dt)`. */
  function Stepped(cfg: Config, w: World, dt: real, d: Draw): World
    requires ValidDraw(d)
  {
    if !w.alive then w
    else
      var m := Moved(cfg, w, dt);
      if FirstRatHit(PlayerBox(m.y), m.obs) < |m.obs| then Lost(m) else Survived(cfg, m, dt, d)
  }

  /** The per-frame time step: the real time since the last frame, in seconds,
      capped at 0.032 and scaled by the slow factor. */
  function FrameDt(now: real, t0: real, slowFactor: real): (dt: real)
    ensures slowFactor >= 0.0 ==> dt <= MaxFrameDt * slowFactor
    ensures slowFactor >= 0.0 && now >= t0 ==> dt >= 0.0
  {
    var raw := Min(MaxFrameDt, (now - t0) / 1000.0);
    assert now >= t0 ==> raw >= 0.0;
    ScaledFrameBounds(raw, slowFactor);
    raw * slowFactor
  }

  /** Scaling a frame time of at most 0.032 by a non-negative factor. */
  lemma ScaledFrameBounds(raw: real, s: real)
    requires raw <= MaxFrameDt
    ensures s >= 0.0 ==> raw * s <= MaxFrameDt * s
    ensures s >= 0.0 && raw >= 0.0 ==> raw * s >= 0.0
  {
    if s >= 0.0 {
      MulLeft(s, raw, MaxFrameDt);
      if raw >= 0.0 {
        MulLeft(s, 0.0, raw);
      }
    }
  }

  // ---------------------------------------------------------------------------
  // Properties of a step

  /** Spawned entities start just off the right edge, sit on the ground (coins
      60 to 140 above it) and move left at the world speed plus their jitter. */
  lemma SpawnRanges(cfg: Config, d: Draw)
    requires ValidDraw(d)
    ensures var o := SpawnRat(cfg, d.j1);
            o.y + o.h == cfg.groundY && -(WorldSpeed + 80.0) < o.vx <= -(WorldSpeed + 20.0)
    ensures var o := SpawnPoop(cfg, d.j1);
            o.y + o.h == cfg.groundY && -(WorldSpeed + 50.0) < o.vx <= -WorldSpeed
    ensures var c := SpawnCoin(cfg, d.j1, d.j2);
            && cfg.groundY - 140.0 < c.y <= cfg.groundY - 60.0
            && -(WorldSpeed + 90.0) < c.vx <= -(WorldSpeed + 30.0)
  {
  }

  /** Some rat touches the player once the step has moved everything. */
  predicate RatHit(cfg: Config, w: World, dt: real)
  {
    var m := Moved(cfg, w, dt);
    exists k :: 0 <= k < |m.obs| && HitsRat(PlayerBox(m.y), m.obs[k])
  }

  /** Some poop touches the player once the step has moved everything. */
  predicate PoopHit(cfg: Config, w: World, dt: real)
  {
    var m := Moved(cfg, w, dt);
    exists k :: 0 <= k < |m.obs| && HitsObstacle(PlayerBox(m.y), m.obs[k]) && m.obs[k].kind == Poop
  }

  lemma RatHitIffFirstRatHitInRange(cfg: Config, w: World, dt: real)
    ensures var m := Moved(cfg, w, dt);
            RatHit(cfg, w, dt) <==> FirstRatHit(PlayerBox(m.y), m.obs) < |m.obs|
  {
  }

  /** A finished run is left alone by `step`. */
  lemma StepAfterFinishIsNoOp(cfg: Config, w: World, dt: real, d: Draw)
    requires ValidDraw(d) && !w.alive
    ensures Stepped(cfg, w, dt, d) == w
  {
  }

  lemma ScrollKeepsWellFormed(os: seq<Obstacle>, cs: seq<Coin>, dt: real)
    requires ObstaclesWellFormed(os) && CoinsWellFormed(cs)
    ensures ObstaclesWellFormed(ScrolledObs(os, dt)) && CoinsWellFormed(ScrolledCoins(cs, dt))
  {
  }

  /** The motion of a step keeps the shape of the state; only the clock,
      the player and the entities' positions change. */
  lemma MovedKeepsShape(cfg: Config, w: World, dt: real)
    requires Shape(cfg, w)
    ensures var m := Moved(cfg, w, dt);
            && Shape(cfg, m)
            && m.elapsed == w.elapsed + dt && m.score == w.score && m.alive == w.alive
            && m.slowFactor == w.slowFactor && m.spawnAcc == w.spawnAcc && m.reported == w.reported
  {
    var f := Fall(cfg, w.(elapsed := w.elapsed + dt), dt);
    if w.grounded {
      assert w.vy == 0.0;
      assert Gravity * dt * dt >= 0.0;
      assert w.y + (w.vy + Gravity * dt) * dt >= cfg.groundY - PlayerSize;
    }
    ScrollKeepsWellFormed(w.obs, w.coins, dt);
  }

  /** The phases of a step after the motion, up to spawning, keep the shape of
      the state, leave the clock, the run flag and the report alone, and never
      lower the score. */
  lemma AfterMotionKeepsShape(cfg: Config, m: World, dt: real, d: Draw)
    requires Shape(cfg, m) && ValidDraw(d)
    ensures var u := TrySpawned(cfg, Purged(CoinsCollected(ObstaclesResolved(m))), dt, d);
            && Shape(cfg, u)
            && u.elapsed == m.elapsed && u.alive == m.alive && u.reported == m.reported
            && u.score >= m.score
  {
    var c := ObstaclesResolved(m);
    assert Shape(cfg, c);
    var s := CoinsCollected(c);
    assert Shape(cfg, s);
    var q := Purged(s);
    assert Shape(cfg, q);
  }

  /** Every step keeps the invariant: the player never ends below the ground
      line, the slow factor is 1 or 0.4, the spawn accumulator stays below 0.9,
      a live run has reported nothing and a finished run exactly one result,
      whose time is min(duration, elapsed) and which is a win only once the
      clock has run out. */
  lemma StepPreservesInv(cfg: Config, w: World, dt: real, d: Draw)
    requires Inv(cfg, w) && ValidDraw(d)
    ensures Inv(cfg, Stepped(cfg, w, dt, d))
  {
    if w.alive {
      MovedKeepsShape(cfg, w, dt);
      var m := Moved(cfg, w, dt);
      if FirstRatHit(PlayerBox(m.y), m.obs) < |m.obs| {
        LostKeepsInv(cfg, m);
      } else {
        SurvivedKeepsInv(cfg, m, dt, d);
      }
    }
  }

  /** Finishing a live run records exactly one result, which is a win only
      when the clock has run out. */
  lemma FinishKeepsInv(cfg: Config, u: World, won: bool)
    requires Shape(cfg, u) && u.alive && u.reported == []
    requires won ==> u.elapsed >= Duration
    ensures Inv(cfg, Finished(u, won))
  {
  }

  /** A step that ends on a rat keeps the invariant. */
  lemma LostKeepsInv(cfg: Config, m: World)
    requires Shape(cfg, m) && m.alive && m.reported == []
    ensures Inv(cfg, Lost(m))
  {
    FinishKeepsInv(cfg, ObstaclesResolved(m), false);
  }

  /** A step that touches no rat keeps the invariant. */
  lemma SurvivedKeepsInv(cfg: Config, m: World, dt: real, d: Draw)
    requires Shape(cfg, m) && m.alive && m.reported == [] && ValidDraw(d)
    ensures Inv(cfg, Survived(cfg, m, dt, d))
  {
    AfterMotionKeepsShape(cfg, m, dt, d);
    var u := TrySpawned(cfg, Purged(CoinsCollected(ObstaclesResolved(m))), dt, d);
    if u.elapsed >= Duration {
      FinishKeepsInv(cfg, u, true);
    }
  }

  /** The score never decreases, and grows by at most the number of coins on screen. */
  lemma StepScoreBounds(cfg: Config, w: World, dt: real, d: Draw)
    requires ValidDraw(d)
    ensures w.score <= Stepped(cfg, w, dt, d).score <= w.score + |w.coins|
  {
  }

  /** Touching a rat ends the run as a loss in that very step; the coins of that
      step are not collected. */
  lemma StepRatHitLoses(cfg: Config, w: World, dt: real, d: Draw)
    requires Inv(cfg, w) && ValidDraw(d) && w.alive
    requires RatHit(cfg, w, dt)
    ensures var r := Stepped(cfg, w, dt, d);
            !r.alive && r.score == w.score
            && r.reported == [Outcome(false, w.score, Min(Duration, w.elapsed + dt))]
  {
    RatHitIffFirstRatHitInRange(cfg, w, dt);
    MovedKeepsShape(cfg, w, dt);
    LostReportsLoss(Moved(cfg, w, dt));
  }

  /** Ending on a rat stops the run and reports a loss with the score and the
      clock as the motion left them. */
  lemma LostReportsLoss(m: World)
    ensures var r := Lost(m);
            && !r.alive && r.score == m.score
            && r.reported == m.reported + [Outcome(false, m.score, Min(Duration, m.elapsed))]
  {
  }

  /** Without a rat, the run goes on exactly while the clock has time left, and
      when it stops it is a win reported at time 20. */
  lemma StepWithoutRatEndsOnlyByTime(cfg: Config, w: World, dt: real, d: Draw)
    requires Inv(cfg, w) && ValidDraw(d) && w.alive
    requires !RatHit(cfg, w, dt)
    ensures var r := Stepped(cfg, w, dt, d);
            && (r.alive <==> w.elapsed + dt < Duration)
            && (!r.alive ==> r.reported == [Outcome(true, r.score, Duration)])
  {
    RatHitIffFirstRatHitInRange(cfg, w, dt);
    MovedKeepsShape(cfg, w, dt);
    SurvivedEndsOnlyByTime(cfg, Moved(cfg, w, dt), dt, d);
  }

  /** The rat-free rest of a live step finishes the run exactly when the clock
      has run out, and then reports a win at time 20. */
  lemma SurvivedEndsOnlyByTime(cfg: Config, m: World, dt: real, d: Draw)
    requires ValidDraw(d) && m.alive && m.reported == []
    ensures var r := Survived(cfg, m, dt, d);
            && (r.alive <==> m.elapsed < Duration)
            && (!r.alive ==> r.reported == [Outcome(true, r.score, Duration)])
  {
    AfterMotionKeepsClock(cfg, m, dt, d);
    var u := TrySpawned(cfg, Purged(CoinsCollected(ObstaclesResolved(m))), dt, d);
    FinishOnTime(u);
    assert Survived(cfg, m, dt, d) == if u.elapsed >= Duration then Finished(u, true) else u;
  }

  /** The end of a rat-free step stops the run exactly once the clock has run
      out, and then reports a win at time 20. */
  lemma FinishOnTime(u: World)
    requires u.alive && u.reported == []
    ensures var r := if u.elapsed >= Duration then Finished(u, true) else u;
            && (r.alive <==> u.elapsed < Duration)
            && (!r.alive ==> r.reported == [Outcome(true, r.score, Duration)])
  {
  }

  /** The phases of a step after the motion, up to spawning, leave the clock,
      the run flag and the report alone. */
  lemma AfterMotionKeepsClock(cfg: Config, m: World, dt: real, d: Draw)
    requires ValidDraw(d)
    ensures var u := TrySpawned(cfg, Purged(CoinsCollected(ObstaclesResolved(m))), dt, d);
            u.elapsed == m.elapsed && u.alive == m.alive && u.reported == m.reported
  {
    var c := ObstaclesResolved(m);
    var s := CoinsCollected(c);
    var q := Purged(s);
    assert q.elapsed == m.elapsed && q.alive == m.alive && q.reported == m.reported;
  }

  /** Only poop is cleared by the obstacle loop: an obstacle touched before the
      first rat is poop, it moves to x = -9999, and the slow factor becomes 0.4. */
  lemma TouchedPoopCleared(m: World, k: nat)
    requires var p := PlayerBox(m.y);
             k < FirstRatHit(p, m.obs) && HitsObstacle(p, m.obs[k])
    ensures m.obs[k].kind == Poop
    ensures ObstaclesResolved(m).obs[k] == m.obs[k].(x := Offscreen)
    ensures ObstaclesResolved(m).slowFactor == Slowed
  {
    var p := PlayerBox(m.y);
    assert HitBefore(p, m.obs, FirstRatHit(p, m.obs));
  }

  /** Adding at most one new element to a set of indices. */
  lemma SetGrowsByOne(before: set<int>, after: set<int>, last: int, hit: bool)
    requires last !in before
    requires forall k :: k in after <==> (k in before || (hit && k == last))
    ensures |after| == |before| + (if hit then 1 else 0)
  {
    if hit {
      assert forall k :: k in after <==> k in before + {last};
      assert after == before + {last};
    } else {
      assert forall k :: k in after <==> k in before;
      assert after == before;
    }
  }

  /** `CoinHits` is the number of distinct coins the player touches. */
  lemma {:induction false} CoinHitsCountsTouched(p: Box, cs: seq<Coin>)
    ensures CoinHits(p, cs) == |set k | 0 <= k < |cs| && HitsCoin(p, cs[k])|
  {
    if cs != [] {
      var last := |cs| - 1;
      var pre := cs[..last];
      var hit := HitsCoin(p, cs[last]);
      CoinHitsCountsTouched(p, pre);
      var before := set k | 0 <= k < |pre| && HitsCoin(p, pre[k]);
      var after := set k | 0 <= k < |cs| && HitsCoin(p, cs[k]);
      forall k
        ensures k in after <==> (k in before || (hit && k == last))
      {
        if 0 <= k < last {
          assert pre[k] == cs[k];
        }
      }
      SetGrowsByOne(before, after, last, hit);
    }
  }

  /** Without a rat, each coin the player touches is worth exactly one point. */
  lemma StepCoinsScoreOneEach(cfg: Config, w: World, dt: real, d: Draw)
    requires ValidDraw(d) && w.alive && !RatHit(cfg, w, dt)
    ensures var m := Moved(cfg, w, dt);
            Stepped(cfg, w, dt, d).score
              == w.score + |set k | 0 <= k < |m.coins| && HitsCoin(PlayerBox(m.y), m.coins[k])|
  {
    RatHitIffFirstRatHitInRange(cfg, w, dt);
    var m := Moved(cfg, w, dt);
    CoinHitsCountsTouched(PlayerBox(m.y), m.coins);
  }

  /** Touching poop (and no rat) never ends the run before its time: it sets
      the slow factor to 0.4. */
  lemma StepPoopHitSlows(cfg: Config, w: World, dt: real, d: Draw)
    requires Inv(cfg, w) && ValidDraw(d) && w.alive
    requires !RatHit(cfg, w, dt) && PoopHit(cfg, w, dt)
    ensures var r := Stepped(cfg, w, dt, d);
            && r.slowFactor == Slowed
            && (r.alive <==> w.elapsed + dt < Duration)
  {
    RatHitIffFirstRatHitInRange(cfg, w, dt);
    StepWithoutRatEndsOnlyByTime(cfg, w, dt, d);
    var m := Moved(cfg, w, dt);
    var p := PlayerBox(m.y);
    var k :| 0 <= k < |m.obs| && HitsObstacle(p, m.obs[k]) && m.obs[k].kind == Poop;
    TouchedPoopCleared(m, k);
    SurvivedKeepsSlowFactor(cfg, m, dt, d);
  }

  /** After the obstacle loop, nothing in a step changes the slow factor. */
  lemma SurvivedKeepsSlowFactor(cfg: Config, m: World, dt: real, d: Draw)
    requires ValidDraw(d)
    ensures Survived(cfg, m, dt, d).slowFactor == ObstaclesResolved(m).slowFactor
  {
  }

  /** Only a live, grounded player takes off; a frame-sized step after a jump
      leaves the player in the air and still rising. */
  lemma JumpThenStepRises(cfg: Config, w: World, dt: real, d: Draw)
    requires Inv(cfg, w) && ValidDraw(d) && w.alive && w.grounded
    requires 0.0 < dt <= MaxFrameDt
    ensures var r := Stepped(cfg, Jumped(w), dt, d);
            r.y < cfg.groundY - PlayerSize && !r.grounded && r.vy < 0.0
  {
    var j := Jumped(w);
    var vy := j.vy + Gravity * dt;
    assert vy < 0.0;
    assert vy * dt < 0.0;
    assert j.y + vy * dt < cfg.groundY - PlayerSize;
    StepKeepsMovedPlayer(cfg, j, dt, d);
  }

  /** After the motion phase, nothing else in a step moves the player. */
  lemma StepKeepsMovedPlayer(cfg: Config, w: World, dt: real, d: Draw)
    requires ValidDraw(d) && w.alive
    ensures var r := Stepped(cfg, w, dt, d);
            var m := Moved(cfg, w, dt);
            r.y == m.y && r.vy == m.vy && r.grounded == m.grounded && r.elapsed == w.elapsed + dt
  {
    var m := Moved(cfg, w, dt);
    assert m.elapsed == w.elapsed + dt;
    if FirstRatHit(PlayerBox(m.y), m.obs) < |m.obs| {
      LostKeepsPlayer(m);
    } else {
      SurvivedKeepsPlayer(cfg, m, dt, d);
    }
  }

  lemma LostKeepsPlayer(m: World)
    ensures var r := Lost(m);
            r.y == m.y && r.vy == m.vy && r.grounded == m.grounded && r.elapsed == m.elapsed
  {
  }

  lemma SurvivedKeepsPlayer(cfg: Config, m: World, dt: real, d: Draw)
    requires ValidDraw(d)
    ensures var r := Survived(cfg, m, dt, d);
            r.y == m.y && r.vy == m.vy && r.grounded == m.grounded && r.elapsed == m.elapsed
  {
  }

  /** A frame advances the clock by at most 0.032 seconds, and never backwards
      when the frame time does not go backwards. */
  lemma FrameElapsedBound(cfg: Config, w: World, now: real, t0: real, d: Draw)
    requires Inv(cfg, w) && ValidDraw(d)
    ensures var r := Stepped(cfg, w, FrameDt(now, t0, w.slowFactor), d);
            && r.elapsed <= w.elapsed + MaxFrameDt
            && (now >= t0 ==> r.elapsed >= w.elapsed)
  {
    if w.alive {
      StepKeepsMovedPlayer(cfg, w, FrameDt(now, t0, w.slowFactor), d);
    }
  }

  // ---------------------------------------------------------------------------
  // The loops of a step, over the queues

  /** The obstacle scroll loop: each obstacle moves by its velocity times dt. */
  method ScrollObstacles(obs: seq<Obstacle>, dt: real) returns (os: seq<Obstacle>)
    ensures os == ScrolledObs(obs, dt)
  {
    os := obs;
    var i := 0;
    while i < |os|
      invariant 0 <= i <= |os| == |obs|
      invariant forall k :: 0 <= k < i ==> os[k] == MoveObstacle(obs[k], dt)
      invariant forall k :: i <= k < |os| ==> os[k] == obs[k]
    {
      os := os[i := os[i].(x := os[i].x + os[i].vx * dt)];
      i := i + 1;
    }
  }

  /** The coin scroll loop: each coin moves by its velocity times dt. */
  method ScrollCoins(coins: seq<Coin>, dt: real) returns (cs: seq<Coin>)
    ensures cs == ScrolledCoins(coins, dt)
  {
    cs := coins;
    var i := 0;
    while i < |cs|
      invariant 0 <= i <= |cs| == |coins|
      invariant forall k :: 0 <= k < i ==> cs[k] == MoveCoin(coins[k], dt)
      invariant forall k :: i <= k < |cs| ==> cs[k] == coins[k]
    {
      cs := cs[i := cs[i].(x := cs[i].x + cs[i].vx * dt)];
      i := i + 1;
    }
  }

  /** The obstacle collision loop for player box p: it stops at the first rat
      touched, after moving every poop touched before it off-screen. */
  method ObstacleLoop(p: Box, obs: seq<Obstacle>) returns (os: seq<Obstacle>, slowed: bool, ratHit: bool)
    ensures var n := FirstRatHit(p, obs);
            && ratHit == (n < |obs|)
            && os == ClearedObs(p, obs, n)
            && slowed == HitBefore(p, obs, n)
  {
    ghost var n := FirstRatHit(p, obs);
    os := obs;
    slowed := false;
    ratHit := false;
    var i := 0;
    while i < |os|
      invariant 0 <= i <= |os| == |obs|
      invariant i <= n && !ratHit
      invariant forall k :: 0 <= k < i ==> os[k] == Cleared(p, obs[k])
      invariant forall k :: i <= k < |os| ==> os[k] == obs[k]
      invariant slowed == HitBefore(p, obs, i)
    {
      if HitsObstacle(p, os[i]) {
        if os[i].kind == Rat {
          ratHit := true;
          break;
        }
        slowed := true;
        os := os[i := os[i].(x := Offscreen)];
      }
      i := i + 1;
    }
    assert ratHit ==> i == n;
    assert !ratHit ==> i == |os| == n;
    assert os == ClearedObs(p, obs, n);
  }

  lemma CoinHitsStep(p: Box, cs: seq<Coin>, i: nat)
    requires i < |cs|
    ensures CoinHits(p, cs[..i + 1]) == CoinHits(p, cs[..i]) + (if HitsCoin(p, cs[i]) then 1 else 0)
  {
    assert cs[..i + 1][..i] == cs[..i];
    assert cs[..i + 1][i] == cs[i];
  }

  /** The coin collision loop for player box p: touched coins move off-screen,
      and `gained` counts them. */
  method CoinLoop(p: Box, coins: seq<Coin>) returns (cs: seq<Coin>, gained: nat)
    ensures cs == CollectedCoins(p, coins)
    ensures gained == CoinHits(p, coins)
  {
    cs := coins;
    gained := 0;
    var i := 0;
    while i < |cs|
      invariant 0 <= i <= |cs| == |coins|
      invariant forall k :: 0 <= k < i ==> cs[k] == Collected(p, coins[k])
      invariant forall k :: i <= k < |cs| ==> cs[k] == coins[k]
      invariant gained == CoinHits(p, coins[..i])
    {
      CoinHitsStep(p, coins, i);
      if HitsCoin(p, cs[i]) {
        gained := gained + 1;
        cs := cs[i := cs[i].(x := Offscreen)];
      }
      i := i + 1;
    }
    assert coins[..|coins|] == coins;
  }

  /** The obstacle purge loop: drop obstacles from the front while the first is left of x = -60. */
  method DropLeadingObstacles(obs: seq<Obstacle>) returns (os: seq<Obstacle>)
    ensures os == PurgedObs(obs)
  {
    os := obs;
    while |os| > 0 && os[0].x < ObstacleGoneX
      invariant PurgedObs(os) == PurgedObs(obs)
      decreases |os|
    {
      os := os[1..];
    }
  }

  /** The coin purge loop: drop coins from the front while the first is left of x = -40. */
  method DropLeadingCoins(coins: seq<Coin>) returns (cs: seq<Coin>)
    ensures cs == PurgedCoins(coins)
  {
    cs := coins;
    while |cs| > 0 && cs[0].x < CoinGoneX
      invariant PurgedCoins(cs) == PurgedCoins(coins)
      decreases |cs|
    {
      cs := cs[1..];
    }
  }

  // ---------------------------------------------------------------------------
  // The run, as an object updated in place

  class Run {
    const cfg: Config
    var elapsed: real
    var score: nat
    var alive: bool
    var slowFactor: real
    var spawnAcc: real
    var y: real
    var vy: real
    var grounded: bool
    var obs: seq<Obstacle>
    var coins: seq<Coin>
    var reported: seq<Outcome>
    /** Time stamp of the previous frame, in milliseconds. */
    var t0: real

    function State(): World
      reads this
    {
      World(elapsed, score, alive, slowFactor, spawnAcc, y, vy, grounded, obs, coins, reported)
    }

    ghost predicate Valid()
      reads this
    {
      Inv(cfg, State())
    }

    constructor (width: nat, height: nat, start: real)
      ensures cfg == ConfigFor(width, height)
      ensures State() == Initial(cfg) && t0 == start
      ensures Valid()
    {
      cfg := ConfigFor(width, height);
      elapsed, score, alive, slowFactor, spawnAcc := 0.0, 0, true, 1.0, 0.0;
      y := ConfigFor(width, height).groundY - PlayerSize;
      vy, grounded := 0.0, true;
      obs, coins, reported := [], [], [];
      t0 := start;
    }

    /** `jump` (key press or tap). */
    method Jump()
      modifies this
      ensures State() == Jumped(old(State())) && t0 == old(t0)
      ensures old(Valid()) ==> Valid()
    {
      if alive && grounded {
        vy := -JumpV;
        grounded := false;
      }
    }

    /** The timer that puts the slow factor back to 1; it also fires after the run ended. */
    method RevertSlow()
      modifies this
      ensures State() == old(State()).(slowFactor := 1.0) && t0 == old(t0)
      ensures old(Valid()) ==> Valid()
    {
      slowFactor := 1.0;
    }

    method TrySpawn(dt: real, d: Draw)
      requires ValidDraw(d)
      modifies this
      ensures State() == TrySpawned(cfg, old(State()), dt, d) && t0 == old(t0)
    {
      spawnAcc := spawnAcc + dt;
      if spawnAcc >= SpawnEvery {
        spawnAcc := 0.0;
        if d.roll < 0.45 {
          obs := obs + [SpawnRat(cfg, d.j1)];
        } else if d.roll < 0.75 {
          obs := obs + [SpawnPoop(cfg, d.j1)];
        } else {
          coins := coins + [SpawnCoin(cfg, d.j1, d.j2)];
        }
      }
    }

    /** The clock and the player's vertical motion. */
    method Integrate(dt: real)
      modifies this
      ensures State() == Fall(cfg, old(State()).(elapsed := old(elapsed) + dt), dt)
      ensures t0 == old(t0)
    {
      elapsed := elapsed + dt;
      vy := vy + Gravity * dt;
      y := y + vy * dt;
      if y >= cfg.groundY - PlayerSize {
        y := cfg.groundY - PlayerSize;
        vy := 0.0;
        grounded := true;
      }
    }

    /** The two scroll loops. */
    method Scroll(dt: real)
      modifies this
      ensures State() == old(State()).(obs := ScrolledObs(old(obs), dt), coins := ScrolledCoins(old(coins), dt))
      ensures t0 == old(t0)
    {
      obs := ScrollObstacles(obs, dt);
      coins := ScrollCoins(coins, dt);
    }

    /** The obstacle loop: poop the player touches is moved off-screen and slows
        the game; the first rat the player touches stops the loop. */
    method ResolveObstacles() returns (ratHit: bool)
      modifies this
      ensures var p := PlayerBox(old(y));
              var n := FirstRatHit(p, old(obs));
              && ratHit == (n < |old(obs)|)
              && State() == old(State()).(obs := ClearedObs(p, old(obs), n),
                                         slowFactor := if HitBefore(p, old(obs), n) then Slowed else old(slowFactor))
      ensures t0 == old(t0)
    {
      var os, slowed;
      os, slowed, ratHit := ObstacleLoop(PlayerBox(y), obs);
      obs := os;
      if slowed {
        slowFactor := Slowed;
      }
    }

    /** The coin loop: each coin the player touches is worth 1 and moves off-screen. */
    method CollectCoins()
      modifies this
      ensures var p := PlayerBox(old(y));
              State() == old(State()).(coins := CollectedCoins(p, old(coins)),
                                       score := old(score) + CoinHits(p, old(coins)))
      ensures t0 == old(t0)
    {
      var cs, gained := CoinLoop(PlayerBox(y), coins);
      coins := cs;
      score := score + gained;
    }

    /** The first purge loop. */
    method PurgeObstacles()
      modifies this
      ensures State() == old(State()).(obs := PurgedObs(old(obs))) && t0 == old(t0)
    {
      obs := DropLeadingObstacles(obs);
    }

    /** The second purge loop. */
    method PurgeCoins()
      modifies this
      ensures State() == old(State()).(coins := PurgedCoins(old(coins))) && t0 == old(t0)
    {
      coins := DropLeadingCoins(coins);
    }

    /** The state half of `finish(won)`: stop the run and record its result. */
    method Finish(won: bool)
      modifies this
      ensures State() == Finished(old(State()), won) && t0 == old(t0)
    {
      alive := false;
      reported := reported + [Outcome(won, score, Min(Duration, elapsed))];
    }

    /** `step(dt)`. */
    method Step(dt: real, d: Draw)
      requires ValidDraw(d)
      modifies this
      ensures State() == Stepped(cfg, old(State()), dt, d) && t0 == old(t0)
      ensures old(Valid()) ==> Valid()
    {
      if !alive {
        return;
      }
      ghost var w := State();
      Integrate(dt);
      Scroll(dt);
      ghost var m := State();
      assert m == Moved(cfg, w, dt);
      var ratHit := ResolveObstacles();
      assert State() == ObstaclesResolved(m);
      if ratHit {
        Finish(false);
      } else {
        CollectCoins();
        assert State() == CoinsCollected(ObstaclesResolved(m));
        PurgeObstacles();
        PurgeCoins();
        assert State() == Purged(CoinsCollected(ObstaclesResolved(m)));
        TrySpawn(dt, d);
        if elapsed >= Duration {
          Finish(true);
        }
      }
      if old(Valid()) {
        StepPreservesInv(cfg, w, dt, d);
      }
    }

    /** One animation frame: the time step from the frame clock, then `step`. */
    method Frame(now: real, d: Draw)
      requires ValidDraw(d)
      modifies this
      ensures State() == Stepped(cfg, old(State()), FrameDt(now, old(t0), old(slowFactor)), d)
      ensures t0 == now
      ensures old(Valid()) ==> Valid()
    {
      var dt := Min(MaxFrameDt, (now - t0) / 1000.0) * slowFactor;
      t0 := now;
      Step(dt, d);
    }

    /** The fixed 60 Hz timer: a step of 1/60 s scaled by the slow factor, while the run is live. */
    method IntervalTick(d: Draw)
      requires ValidDraw(d)
      modifies this
      ensures State() == (if old(alive) then Stepped(cfg, old(State()), TickDt * old(slowFactor), d) else old(State()))
      ensures t0 == old(t0)
      ensures old(Valid()) ==> Valid()
    {
      if alive {
        Step(TickDt * slowFactor, d);
      }
    }
  }
}
