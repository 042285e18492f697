/** One frame of the road game's simulation, as pure functions over a World
    value: steering and firing, the car clamp, the fire cooldown, timed
    spawning, and the obstacle, fuel, power-up and bullet passes with their
    collision handling, followed by the game-over latch and the restart.
    The GameScreen class in module Screen runs the same steps in place; its
    methods are proved to compute exactly these functions. */
module Simulation {
  import opened Numbers
  import opened Geometry
  import Settings

  // Base speeds, in units per second
  const CarSpeed: real := 500.0
  const ObstacleSpeed: real := 300.0
  const FuelSpeed: real := 250.0
  const PowerUpSpeed: real := 220.0
  const BulletSpeed: real := 700.0

  const ShootCooldownTime: real := 0.25
  const CarY: real := 100.0
  const MaxHealth: real := 100.0
  const CrashDamage: real := 20.0
  const FuelHealing: real := 10.0
  const FuelScore: int := 5
  const HitScore: int := 10
  const SpeedIncreasePerCrash: real := 0.1
  const InvincibleDuration: real := 3.0
  const FuelSpawnInterval: real := 2.0
  const PowerUpSpawnInterval: real := 5.0

  // Volume factors applied to the configured sound volume
  const CrashVolume: real := 0.5
  const CollectVolume: real := 0.5
  const PowerUpVolume: real := 0.5
  const ShootVolume: real := 0.3

  datatype Size = Size(width: real, height: real)

  /** The screen size and the scaled sprite sizes, fixed while the screen is shown. */
  datatype Config = Config(
    screenWidth: int, screenHeight: int,
    car: Size, obstacle: Size, fuel: Size, powerUp: Size, bullet: Size)

  datatype Sound = CrashSound | CollectSound | PowerUpSound | ShootSound

  /** A sound played at the given volume. */
  datatype SoundEvent = Play(sound: Sound, volume: real)

  /** What one frame receives: the elapsed time, the keys held or just pressed,
      and the values the random generator draws for the three spawn positions. */
  datatype Input = Input(
    delta: real, left: bool, right: bool, fire: bool, restart: bool,
    obstacleX: int, fuelX: int, powerUpX: int)

  /** What the screen reads from the game settings while it runs. */
  datatype Env = Env(volume: real, difficulty: Settings.Difficulty)

  /** The bound handed to Random.nextInt for a sprite: screen width minus the
      sprite width cast to int. */
  function SpawnBound(c: Config, s: Size): int
  {
    c.screenWidth - Trunc(s.width)
  }

  /** Elapsed time is never negative, and each drawn position lies in
      [0, bound), as Random.nextInt(bound) guarantees. */
  predicate ValidInput(c: Config, i: Input)
  {
    && i.delta >= 0.0
    && 0 <= i.obstacleX < SpawnBound(c, c.obstacle)
    && 0 <= i.fuelX < SpawnBound(c, c.fuel)
    && 0 <= i.powerUpX < SpawnBound(c, c.powerUp)
  }

  /** The whole state of a run. `sounds` and `submitted` record what the screen
      asked of the audio and leaderboard collaborators; a restart keeps them. */
  datatype World = World(
    car: Rect,
    obstacles: seq<Rect>, fuels: seq<Rect>, powerUps: seq<Rect>, bullets: seq<Rect>,
    obstacleSpawnTimer: real, fuelSpawnTimer: real, powerUpSpawnTimer: real, shootCooldown: real,
    score: int, health: real, invincible: bool, invincibleTimer: real,
    speedMultiplier: real, difficultySpeedMultiplier: real, difficultySpawnRate: real,
    gameOver: bool, scoreSaved: bool,
    sounds: seq<SoundEvent>, submitted: seq<int>)

  /** The state every run starts from: the car centred at height 100, no
      entities, zeroed timers, full health, multiplier 1, and the difficulty's
      two multipliers. A fresh run satisfies the run invariant and keeps what
      was already played and submitted. */
  function Reset(c: Config, d: Settings.Difficulty, sounds: seq<SoundEvent>, submitted: seq<int>): (r: World)
    ensures Inv(c, r)
    ensures r.sounds == sounds && r.submitted == submitted
  {
    World(
      Rect(c.screenWidth as real / 2.0 - c.car.width / 2.0, CarY, c.car.width, c.car.height),
      [], [], [], [],
      0.0, 0.0, 0.0, 0.0,
      0, MaxHealth, false, 0.0,
      1.0, Settings.SpeedMultiplier(d), Settings.ObstacleSpawnRate(d),
      false, false,
      sounds, submitted)
  }

  /** What holds of every state a run reaches (see SimulationLemmas.InvPreserved):
      health in [0, 100] and zero exactly when the run is over, a latched score
      submission exactly when the run is over, a multiplier of at least 1, an
      invincibility timer in (0, 3] while invincible, and the car at height 100
      within the road whenever the road is wide enough for it. */
  predicate Inv(c: Config, w: World)
  {
    && 0.0 <= w.health <= MaxHealth
    && (w.gameOver <==> w.health == 0.0)
    && w.scoreSaved == w.gameOver
    && w.score >= 0
    && w.speedMultiplier >= 1.0
    && w.difficultySpawnRate > 0.0
    && (w.invincible ==> 0.0 < w.invincibleTimer <= InvincibleDuration)
    && w.car.y == CarY && w.car.width == c.car.width && w.car.height == c.car.height
    && (0.0 <= c.car.width <= c.screenWidth as real ==> 0.0 <= w.car.x <= c.screenWidth as real - c.car.width)
  }

  // ---------------------------------------------------------------------------
  // Steering, firing, clamping, cooldown

  /** A new bullet centred on the car's top edge. */
  function BulletFrom(c: Config, car: Rect): Rect
  {
    Rect(car.x + car.width / 2.0 - c.bullet.width / 2.0, car.y + car.height, c.bullet.width, c.bullet.height)
  }

  /** Fires only when the cooldown has run out, and then restarts it, so a
      cooldown is always running afterwards and a second call adds nothing. */
  function Shoot(c: Config, w: World, volume: real): (r: World)
    ensures r.bullets == w.bullets || r.bullets == w.bullets + [BulletFrom(c, w.car)]
    ensures |r.bullets| == |w.bullets| + 1 <==> w.shootCooldown <= 0.0
    ensures r.shootCooldown > 0.0
    ensures r.car == w.car && r.score == w.score && r.health == w.health
  {
    if w.shootCooldown <= 0.0 then
      w.(bullets := w.bullets + [BulletFrom(c, w.car)],
         sounds := w.sounds + [Play(ShootSound, volume * ShootVolume)],
         shootCooldown := ShootCooldownTime)
    else w
  }

  /** Left, then right, each by CarSpeed·delta·total. */
  function Steer(w: World, i: Input, total: real): World
  {
    var x1 := if i.left then w.car.x - CarSpeed * i.delta * total else w.car.x;
    var x2 := if i.right then x1 + CarSpeed * i.delta * total else x1;
    w.(car := w.car.(x := x2))
  }

  /** Firing sees the car where steering left it, before the clamp. */
  function SteerAndFire(c: Config, w: World, i: Input, total: real, volume: real): World
  {
    var steered := Steer(w, i, total);
    if i.fire then Shoot(c, steered, volume) else steered
  }

  function ClampCar(c: Config, w: World): World
  {
    w.(car := w.car.(x := Clamp(w.car.x, 0.0, c.screenWidth as real - w.car.width)))
  }

  function CoolDown(w: World, delta: real): World
  {
    if w.shootCooldown > 0.0 then w.(shootCooldown := w.shootCooldown - delta) else w
  }

  // ---------------------------------------------------------------------------
  // Spawning

  /** A sprite entering at the top edge at the drawn horizontal position. */
  function SpawnAt(c: Config, x: int, s: Size): Rect
  {
    Rect(x as real, c.screenHeight as real, s.width, s.height)
  }

  function ObstacleSpawnInterval(w: World): real
    requires w.difficultySpawnRate > 0.0
  {
    1.0 / w.difficultySpawnRate
  }

  /** All three spawn timers advance by delta. */
  function AdvanceSpawnTimers(w: World, delta: real): World
  {
    w.(obstacleSpawnTimer := w.obstacleSpawnTimer + delta,
       fuelSpawnTimer := w.fuelSpawnTimer + delta,
       powerUpSpawnTimer := w.powerUpSpawnTimer + delta)
  }

  /** An obstacle timer strictly past the difficulty's interval appends one
      obstacle and resets itself. */
  function ReleaseObstacle(c: Config, w: World, i: Input): World
    requires w.difficultySpawnRate > 0.0
  {
    if w.obstacleSpawnTimer > ObstacleSpawnInterval(w) then
      w.(obstacles := w.obstacles + [SpawnAt(c, i.obstacleX, c.obstacle)], obstacleSpawnTimer := 0.0)
    else w
  }

  function ReleaseFuel(c: Config, w: World, i: Input): World
  {
    if w.fuelSpawnTimer > FuelSpawnInterval then
      w.(fuels := w.fuels + [SpawnAt(c, i.fuelX, c.fuel)], fuelSpawnTimer := 0.0)
    else w
  }

  function ReleasePowerUp(c: Config, w: World, i: Input): World
  {
    if w.powerUpSpawnTimer > PowerUpSpawnInterval then
      w.(powerUps := w.powerUps + [SpawnAt(c, i.powerUpX, c.powerUp)], powerUpSpawnTimer := 0.0)
    else w
  }

  /** The timers advance first; then each timer strictly past its interval
      appends one sprite and resets itself. */
  function Spawn(c: Config, w: World, i: Input): (r: World)
    requires w.difficultySpawnRate > 0.0
    ensures r.difficultySpeedMultiplier == w.difficultySpeedMultiplier && r.difficultySpawnRate == w.difficultySpawnRate
    ensures r.gameOver == w.gameOver && r.scoreSaved == w.scoreSaved && r.submitted == w.submitted
  {
    var t := AdvanceSpawnTimers(w, i.delta);
    ReleasePowerUp(c, ReleaseFuel(c, ReleaseObstacle(c, t, i), i), i)
  }

  // ---------------------------------------------------------------------------
  // Falling sprites and the car

  function Fall(r: Rect, dy: real): Rect
  {
    r.(y := r.y - dy)
  }

  function Rise(r: Rect, dy: real): Rect
  {
    r.(y := r.y + dy)
  }

  /** Entirely below the bottom edge. */
  predicate BelowScreen(r: Rect)
  {
    r.y + r.height < 0.0
  }

  /** An obstacle damages the car when it overlaps it and the car is not invincible. */
  predicate Crashes(o: Rect, car: Rect, invincible: bool)
  {
    Overlaps(o, car) && !invincible
  }

  /** A sprite the car touches is never also below the screen while the car sits
      at a non-negative height: the pickup and off-screen removals of one sprite
      exclude each other, so no sprite is removed twice. */
  lemma PickupIsOnScreen(r: Rect, car: Rect)
    requires car.y >= 0.0 && Overlaps(r, car)
    ensures !BelowScreen(r)
  {
  }

  datatype CrashOutcome = CrashOutcome(kept: seq<Rect>, health: real, speedMultiplier: real, sounds: seq<SoundEvent>)

  /** The obstacle loop: every obstacle falls by dy; one that crashes into the car
      is removed, costs 20 health (floored at 0), plays the crash sound and adds
      0.1 to the speed multiplier; one below the screen is removed; the rest stay,
      in order. */
  function CrashPass(obs: seq<Rect>, dy: real, car: Rect, invincible: bool, health: real, speed: real, volume: real): (r: CrashOutcome)
    ensures |r.kept| + |r.sounds| <= |obs|
    ensures r.health == if r.sounds == [] then health else Max(0.0, health - CrashDamage * |r.sounds| as real)
    ensures r.speedMultiplier == speed + SpeedIncreasePerCrash * |r.sounds| as real
    decreases |obs|
  {
    if obs == [] then CrashOutcome([], health, speed, [])
    else
      var before := obs[..|obs| - 1];
      assert obs == before + [obs[|obs| - 1]];
      var prev := CrashPass(before, dy, car, invincible, health, speed, volume);
      var o := Fall(obs[|obs| - 1], dy);
      if Crashes(o, car, invincible) then
        prev.(health := Max(0.0, prev.health - CrashDamage),
              speedMultiplier := prev.speedMultiplier + SpeedIncreasePerCrash,
              sounds := prev.sounds + [Play(CrashSound, volume * CrashVolume)])
      else if BelowScreen(o) then prev
      else prev.(kept := prev.kept + [o])
  }

  /** How many of the obstacles crash into the car once they have fallen by dy. */
  function CrashCount(obs: seq<Rect>, dy: real, car: Rect, invincible: bool): (n: nat)
    ensures n <= |obs|
    ensures invincible ==> n == 0
    ensures n == 0 <==> forall o :: o in obs ==> !Crashes(Fall(o, dy), car, invincible)
    decreases |obs|
  {
    if obs == [] then 0
    else
      var before := obs[..|obs| - 1];
      assert obs == before + [obs[|obs| - 1]];
      CrashCount(before, dy, car, invincible) + (if Crashes(Fall(obs[|obs| - 1], dy), car, invincible) then 1 else 0)
  }

  /** One crash sound per obstacle that crashes, so 20 health lost and 0.1 added
      to the multiplier for each of them; the obstacles kept are fallen input
      obstacles, and they are exactly those that neither crash nor have left the
      screen. */
  lemma {:induction false} CrashPassKeeps(obs: seq<Rect>, dy: real, car: Rect, invincible: bool, health: real, speed: real, volume: real)
    ensures var r := CrashPass(obs, dy, car, invincible, health, speed, volume);
      && |r.sounds| == CrashCount(obs, dy, car, invincible)
      && (forall e :: e in r.sounds ==> e == Play(CrashSound, volume * CrashVolume))
      && (forall o :: o in r.kept ==> !BelowScreen(o) && !Crashes(o, car, invincible))
      && (forall o :: o in r.kept ==> exists p :: p in obs && o == Fall(p, dy))
      && (forall o :: o in obs && !BelowScreen(Fall(o, dy)) && !Crashes(Fall(o, dy), car, invincible) ==> Fall(o, dy) in r.kept)
    decreases |obs|
  {
    if obs != [] {
      var before := obs[..|obs| - 1];
      assert obs == before + [obs[|obs| - 1]];
      CrashPassKeeps(before, dy, car, invincible, health, speed, volume);
      assert forall p :: p in before ==> p in obs;
    }
  }

  datatype PickupOutcome = PickupOutcome(kept: seq<Rect>, health: real, score: int, sounds: seq<SoundEvent>)

  /** The fuel loop: every fuel falls by dy; one the car touches is removed, adds
      10 health (capped at 100) and 5 points and plays the collect sound; one
      below the screen is removed; the rest stay, in order. */
  function FuelPass(fuels: seq<Rect>, dy: real, car: Rect, health: real, score: int, volume: real): (r: PickupOutcome)
    ensures |r.kept| + |r.sounds| <= |fuels|
    ensures r.health == if r.sounds == [] then health else Min(MaxHealth, health + FuelHealing * |r.sounds| as real)
    ensures r.score == score + FuelScore * |r.sounds|
    decreases |fuels|
  {
    if fuels == [] then PickupOutcome([], health, score, [])
    else
      var before := fuels[..|fuels| - 1];
      assert fuels == before + [fuels[|fuels| - 1]];
      var prev := FuelPass(before, dy, car, health, score, volume);
      var f := Fall(fuels[|fuels| - 1], dy);
      if Overlaps(f, car) then
        prev.(health := Min(MaxHealth, prev.health + FuelHealing),
              score := prev.score + FuelScore,
              sounds := prev.sounds + [Play(CollectSound, volume * CollectVolume)])
      else if BelowScreen(f) then prev
      else prev.(kept := prev.kept + [f])
  }

  /** How many of the sprites the car touches once they have fallen by dy. */
  function TouchCount(s: seq<Rect>, dy: real, car: Rect): (n: nat)
    ensures n <= |s|
    ensures n == 0 <==> forall x :: x in s ==> !Overlaps(Fall(x, dy), car)
    decreases |s|
  {
    if s == [] then 0
    else
      var before := s[..|s| - 1];
      assert s == before + [s[|s| - 1]];
      TouchCount(before, dy, car) + (if Overlaps(Fall(s[|s| - 1], dy), car) then 1 else 0)
  }

  /** One collect sound per fuel the car touches, so 5 points and 10 health
      (capped) for each of them; the fuels kept are fallen input fuels, and they
      are exactly those the car does not touch that have not left the screen. */
  lemma {:induction false} FuelPassKeeps(fuels: seq<Rect>, dy: real, car: Rect, health: real, score: int, volume: real)
    ensures var r := FuelPass(fuels, dy, car, health, score, volume);
      && |r.sounds| == TouchCount(fuels, dy, car)
      && (forall e :: e in r.sounds ==> e == Play(CollectSound, volume * CollectVolume))
      && (forall f :: f in r.kept ==> !BelowScreen(f) && !Overlaps(f, car))
      && (forall f :: f in r.kept ==> exists p :: p in fuels && f == Fall(p, dy))
      && (forall f :: f in fuels && !BelowScreen(Fall(f, dy)) && !Overlaps(Fall(f, dy), car) ==> Fall(f, dy) in r.kept)
    decreases |fuels|
  {
    if fuels != [] {
      var before := fuels[..|fuels| - 1];
      assert fuels == before + [fuels[|fuels| - 1]];
      FuelPassKeeps(before, dy, car, health, score, volume);
      assert forall p :: p in before ==> p in fuels;
    }
  }

  datatype PowerUpOutcome = PowerUpOutcome(kept: seq<Rect>, invincible: bool, invincibleTimer: real, sounds: seq<SoundEvent>)

  /** The power-up loop: every power-up falls by dy; one the car touches is
      removed, makes the car invincible, sets (not extends) the timer to 3 s and
      plays the power-up sound; one below the screen is removed. */
  function PowerUpPass(ps: seq<Rect>, dy: real, car: Rect, invincible: bool, timer: real, volume: real): (r: PowerUpOutcome)
    ensures |r.kept| + |r.sounds| <= |ps|
    ensures r.sounds == [] ==> r.invincible == invincible && r.invincibleTimer == timer
    ensures r.sounds != [] ==> r.invincible && r.invincibleTimer == InvincibleDuration
    decreases |ps|
  {
    if ps == [] then PowerUpOutcome([], invincible, timer, [])
    else
      var before := ps[..|ps| - 1];
      assert ps == before + [ps[|ps| - 1]];
      var prev := PowerUpPass(before, dy, car, invincible, timer, volume);
      var p := Fall(ps[|ps| - 1], dy);
      if Overlaps(p, car) then
        prev.(invincible := true, invincibleTimer := InvincibleDuration,
              sounds := prev.sounds + [Play(PowerUpSound, volume * PowerUpVolume)])
      else if BelowScreen(p) then prev
      else prev.(kept := prev.kept + [p])
  }

  /** One power-up sound per power-up the car touches; the power-ups kept are
      fallen input power-ups, and they are exactly those the car does not touch
      that have not left the screen. */
  lemma {:induction false} PowerUpPassKeeps(ps: seq<Rect>, dy: real, car: Rect, invincible: bool, timer: real, volume: real)
    ensures var r := PowerUpPass(ps, dy, car, invincible, timer, volume);
      && |r.sounds| == TouchCount(ps, dy, car)
      && (forall e :: e in r.sounds ==> e == Play(PowerUpSound, volume * PowerUpVolume))
      && (forall p :: p in r.kept ==> !BelowScreen(p) && !Overlaps(p, car))
      && (forall p :: p in r.kept ==> exists q :: q in ps && p == Fall(q, dy))
      && (forall p :: p in ps && !BelowScreen(Fall(p, dy)) && !Overlaps(Fall(p, dy), car) ==> Fall(p, dy) in r.kept)
    decreases |ps|
  {
    if ps != [] {
      var before := ps[..|ps| - 1];
      assert ps == before + [ps[|ps| - 1]];
      PowerUpPassKeeps(before, dy, car, invincible, timer, volume);
      assert forall q :: q in before ==> q in ps;
    }
  }

  function ResolveObstacles(w: World, dy: real, volume: real): World
  {
    var r := CrashPass(w.obstacles, dy, w.car, w.invincible, w.health, w.speedMultiplier, volume);
    w.(obstacles := r.kept, health := r.health, speedMultiplier := r.speedMultiplier, sounds := w.sounds + r.sounds)
  }

  function ResolveFuels(w: World, dy: real, volume: real): World
  {
    var r := FuelPass(w.fuels, dy, w.car, w.health, w.score, volume);
    w.(fuels := r.kept, health := r.health, score := r.score, sounds := w.sounds + r.sounds)
  }

  function ResolvePowerUps(w: World, dy: real, volume: real): World
  {
    var r := PowerUpPass(w.powerUps, dy, w.car, w.invincible, w.invincibleTimer, volume);
    w.(powerUps := r.kept, invincible := r.invincible, invincibleTimer := r.invincibleTimer, sounds := w.sounds + r.sounds)
  }

  /** While invincible the timer runs down by delta, and invincibility ends once
      it is no longer positive. */
  function TickInvincibility(w: World, delta: real): (r: World)
    ensures r.difficultySpeedMultiplier == w.difficultySpeedMultiplier && r.difficultySpawnRate == w.difficultySpawnRate
    ensures r.gameOver == w.gameOver && r.scoreSaved == w.scoreSaved && r.submitted == w.submitted
  {
    if w.invincible then
      var t := w.invincibleTimer - delta;
      w.(invincibleTimer := t, invincible := !(t <= 0.0))
    else w
  }

  // ---------------------------------------------------------------------------
  // Bullets

  /** The outcome of scanning the obstacles for one bullet. */
  datatype Hit = Miss | HitAt(index: nat)

  /** The first obstacle the bullet overlaps, if any. */
  function FirstHit(b: Rect, obs: seq<Rect>): (h: Hit)
    ensures h.HitAt? ==> h.index < |obs|
    decreases |obs|
  {
    if obs == [] then Miss
    else if Overlaps(b, obs[0]) then HitAt(0)
    else match FirstHit(b, obs[1..])
      case Miss => Miss
      case HitAt(k) => HitAt(k + 1)
  }

  /** A hit names an obstacle the bullet overlaps with none overlapping before
      it; a miss means the bullet overlaps no obstacle. */
  lemma {:induction false} FirstHitIsFirst(b: Rect, obs: seq<Rect>)
    ensures FirstHit(b, obs).HitAt? ==> Overlaps(b, obs[FirstHit(b, obs).index])
    ensures FirstHit(b, obs).HitAt? ==> forall k :: 0 <= k < FirstHit(b, obs).index ==> !Overlaps(b, obs[k])
    ensures FirstHit(b, obs).Miss? ==> forall k :: 0 <= k < |obs| ==> !Overlaps(b, obs[k])
    decreases |obs|
  {
    if obs != [] && !Overlaps(b, obs[0]) {
      FirstHitIsFirst(b, obs[1..]);
      assert forall k :: 1 <= k < |obs| ==> obs[k] == obs[1..][k - 1];
    }
  }

  function RemoveAt(s: seq<Rect>, k: nat): (r: seq<Rect>)
    requires k < |s|
    ensures |r| == |s| - 1
    ensures multiset(r) + multiset{s[k]} == multiset(s)
  {
    assert s == s[..k] + [s[k]] + s[k + 1..];
    s[..k] + s[k + 1..]
  }

  /** The bullets kept so far, the obstacles still standing, and the hits scored. */
  datatype Volley = Volley(bullets: seq<Rect>, obstacles: seq<Rect>, hits: nat)

  /** One turn of the bullet loop for a bullet that has already risen: a bullet
      that hits removes the first obstacle it overlaps and scores; a bullet that
      hits or has left the top of the screen is removed, once; any other bullet
      is kept. */
  function VisitBullet(b: Rect, v: Volley, screenHeight: int): (r: Volley)
    ensures r.bullets == v.bullets || r.bullets == v.bullets + [b]
    ensures |r.bullets| == |v.bullets| + 1 <==> b.y <= screenHeight as real && FirstHit(b, v.obstacles).Miss?
    ensures r.hits == v.hits + (if FirstHit(b, v.obstacles).HitAt? then 1 else 0)
    ensures FirstHit(b, v.obstacles).HitAt? ==> r.obstacles == RemoveAt(v.obstacles, FirstHit(b, v.obstacles).index)
    ensures FirstHit(b, v.obstacles).Miss? ==> r.obstacles == v.obstacles
  {
    var offScreen := b.y > screenHeight as real;
    match FirstHit(b, v.obstacles)
    case HitAt(k) => Volley(v.bullets, RemoveAt(v.obstacles, k), v.hits + 1)
    case Miss => if offScreen then v else v.(bullets := v.bullets + [b])
  }

  /** The bullet loop: every bullet rises by dy and is visited in order against
      the obstacles the earlier bullets left standing. */
  function BulletPass(bs: seq<Rect>, dy: real, obs: seq<Rect>, screenHeight: int): (r: Volley)
    ensures |r.obstacles| + r.hits == |obs|
    ensures |r.bullets| + r.hits <= |bs|
    decreases |bs|
  {
    if bs == [] then Volley([], obs, 0)
    else
      var prev := BulletPass(bs[..|bs| - 1], dy, obs, screenHeight);
      VisitBullet(Rise(bs[|bs| - 1], dy), prev, screenHeight)
  }

  /** The obstacles left standing are some of those there were; every bullet
      kept is still on screen; and no kept bullet overlaps a standing obstacle. */
  lemma {:induction false} BulletPassKeeps(bs: seq<Rect>, dy: real, obs: seq<Rect>, screenHeight: int)
    ensures var r := BulletPass(bs, dy, obs, screenHeight);
      && multiset(r.obstacles) <= multiset(obs)
      && (forall b :: b in r.bullets ==> b.y <= screenHeight as real)
      && (forall b, o :: b in r.bullets && o in r.obstacles ==> !Overlaps(b, o))
    decreases |bs|
  {
    if bs != [] {
      var prev := BulletPass(bs[..|bs| - 1], dy, obs, screenHeight);
      var b := Rise(bs[|bs| - 1], dy);
      var r := VisitBullet(b, prev, screenHeight);
      BulletPassKeeps(bs[..|bs| - 1], dy, obs, screenHeight);
      FirstHitIsFirst(b, prev.obstacles);
      assert forall o :: o in r.obstacles ==> o in prev.obstacles by {
        if FirstHit(b, prev.obstacles).HitAt? {
          forall o | o in r.obstacles ensures o in prev.obstacles {
            assert o in multiset(r.obstacles);
          }
        }
      }
      if |r.bullets| == |prev.bullets| + 1 {
        assert r.bullets == prev.bullets + [b];
        forall o | o in r.obstacles ensures !Overlaps(b, o) {
          var k :| 0 <= k < |prev.obstacles| && prev.obstacles[k] == o;
        }
      }
    }
  }

  function ResolveBullets(c: Config, w: World, dy: real): (r: World)
    ensures r.difficultySpeedMultiplier == w.difficultySpeedMultiplier && r.difficultySpawnRate == w.difficultySpawnRate
    ensures r.gameOver == w.gameOver && r.scoreSaved == w.scoreSaved && r.submitted == w.submitted
  {
    var v := BulletPass(w.bullets, dy, w.obstacles, c.screenHeight);
    w.(bullets := v.bullets, obstacles := v.obstacles, score := w.score + HitScore * v.hits)
  }

  /** GameScreen.java:393 and 398 as written: the bullet iterator's remove() runs
      once for a bullet past the top edge and again for a bullet that hits, and
      a second remove() of the same element throws IllegalStateException (after
      the obstacle has already been removed). */
  datatype VisitResult = Completed(v: Volley) | IllegalState(obstaclesLeft: seq<Rect>)

  function BulletVisitAsWritten(b: Rect, v: Volley, screenHeight: int): (r: VisitResult)
    ensures r.IllegalState? <==> b.y > screenHeight as real && FirstHit(b, v.obstacles).HitAt?
    ensures r.IllegalState? ==> |r.obstaclesLeft| + 1 == |v.obstacles|
  {
    var offScreen := b.y > screenHeight as real;
    match FirstHit(b, v.obstacles)
    case HitAt(k) =>
      if offScreen then IllegalState(RemoveAt(v.obstacles, k))
      else Completed(Volley(v.bullets, RemoveAt(v.obstacles, k), v.hits + 1))
    case Miss => Completed(if offScreen then v else v.(bullets := v.bullets + [b]))
  }

  // ---------------------------------------------------------------------------
  // The frame

  /** The factor applied to every speed in a frame: the crash multiplier times
      the difficulty's speed multiplier. */
  function TotalMultiplier(w: World): real
  {
    w.speedMultiplier * w.difficultySpeedMultiplier
  }

  /** GameScreen.update: the total speed multiplier is taken once, before any
      crash of this frame raises it. */
  function Update(c: Config, w: World, i: Input, volume: real): (r: World)
    requires w.difficultySpawnRate > 0.0
    ensures r.difficultySpeedMultiplier == w.difficultySpeedMultiplier
    ensures r.difficultySpawnRate == w.difficultySpawnRate
    ensures r.gameOver == w.gameOver && r.scoreSaved == w.scoreSaved && r.submitted == w.submitted
  {
    Advance(c, w, i, volume, TotalMultiplier(w))
  }

  /** How far a sprite moving at the given base speed travels in one frame. */
  function Distance(speed: real, i: Input, total: real): real
  {
    speed * i.delta * total
  }

  /** The player's part of a frame: steering, firing, the clamp, the cooldown. */
  function Drive(c: Config, w: World, i: Input, total: real, volume: real): (r: World)
    ensures r.difficultySpeedMultiplier == w.difficultySpeedMultiplier && r.difficultySpawnRate == w.difficultySpawnRate
    ensures r.gameOver == w.gameOver && r.scoreSaved == w.scoreSaved && r.submitted == w.submitted
  {
    CoolDown(ClampCar(c, SteerAndFire(c, w, i, total, volume)), i.delta)
  }

  /** Obstacles, fuels and power-ups fall in that order, each against the car. */
  function MoveFalling(w: World, i: Input, total: real, volume: real): (r: World)
    ensures r.difficultySpeedMultiplier == w.difficultySpeedMultiplier && r.difficultySpawnRate == w.difficultySpawnRate
    ensures r.gameOver == w.gameOver && r.scoreSaved == w.scoreSaved && r.submitted == w.submitted
  {
    var w1 := ResolveObstacles(w, Distance(ObstacleSpeed, i, total), volume);
    var w2 := ResolveFuels(w1, Distance(FuelSpeed, i, total), volume);
    ResolvePowerUps(w2, Distance(PowerUpSpeed, i, total), volume)
  }

  /** The blocks of GameScreen.update in order, every speed scaled by total. */
  function Advance(c: Config, w: World, i: Input, volume: real, total: real): (r: World)
    requires w.difficultySpawnRate > 0.0
    ensures r.difficultySpeedMultiplier == w.difficultySpeedMultiplier && r.difficultySpawnRate == w.difficultySpawnRate
    ensures r.gameOver == w.gameOver && r.scoreSaved == w.scoreSaved && r.submitted == w.submitted
  {
    var w3 := Drive(c, w, i, total, volume);
    var w4 := Spawn(c, w3, i);
    var w7 := MoveFalling(w4, i, total, volume);
    var w8 := TickInvincibility(w7, i.delta);
    ResolveBullets(c, w8, Distance(BulletSpeed, i, total))
  }

  /** Game over is latched once health is no longer positive; the score is
      submitted only if it has not been submitted in this run. */
  function Latch(u: World): (r: World)
    ensures r.gameOver <==> u.gameOver || u.health <= 0.0
    ensures r.scoreSaved <==> u.scoreSaved || u.health <= 0.0
    ensures r.submitted == if u.health <= 0.0 && !u.scoreSaved then u.submitted + [u.score] else u.submitted
    ensures r.(gameOver := u.gameOver, scoreSaved := u.scoreSaved, submitted := u.submitted) == u
  {
    if u.health <= 0.0 then
      u.(gameOver := true,
         submitted := if u.scoreSaved then u.submitted else u.submitted + [u.score],
         scoreSaved := true)
    else u
  }

  /** The simulation part of GameScreen.render: a running game updates and then
      latches game over; a finished game changes only when a restart is
      requested. */
  function Frame(c: Config, w: World, i: Input, env: Env): (r: World)
    requires w.difficultySpawnRate > 0.0
    ensures r.submitted == w.submitted || r.submitted == w.submitted + [r.score]
    ensures r.difficultySpawnRate > 0.0
  {
    if !w.gameOver then
      Latch(Update(c, w, i, env.volume))
    else if i.restart then Reset(c, env.difficulty, w.sounds, w.submitted)
    else w
  }
}
