/** The game screen as the program runs it: one object whose fields hold the
    run state and whose methods change them in place, frame by frame. Each
    method is proved to compute the corresponding function of module
    Simulation, so what SimulationLemmas proves of those functions holds of
    every run of this class. */
module Screen {
  import opened Numbers
  import opened Geometry
  import opened Simulation
  import Settings
  import SimulationLemmas

  /** The inner loop of the bullet pass: the first obstacle, in list order, that
      the bullet overlaps. */
  method FindFirstHit(b: Rect, obs: seq<Rect>) returns (hit: Hit)
    ensures hit == FirstHit(b, obs)
  {
    var j := 0;
    while j < |obs|
      invariant 0 <= j <= |obs|
      invariant forall k :: 0 <= k < j ==> !Overlaps(b, obs[k])
    {
      if Overlaps(b, obs[j]) {
        FirstHitIsFirst(b, obs);
        return HitAt(j);
      }
      j := j + 1;
    }
    FirstHitIsFirst(b, obs);
    return Miss;
  }

  /** The obstacle loop of GameScreen.update over a copy of the list: each
      obstacle falls by dy, a crash (unless invincible) removes it, costs health
      floored at zero, plays the crash sound and raises the speed multiplier, and
      an obstacle wholly below the screen is removed. A crash and an off-screen
      removal never both apply to one obstacle while the car sits at a
      non-negative height (Simulation.PickupIsOnScreen). */
  method CrashLoop(list: seq<Rect>, dy: real, player: Rect, shielded: bool, health0: real, speed0: real, volume: real)
    returns (r: CrashOutcome)
    ensures r == CrashPass(list, dy, player, shielded, health0, speed0, volume)
  {
    var kept: seq<Rect> := [];
    var health, speed := health0, speed0;
    var played: seq<SoundEvent> := [];
    var i := 0;
    while i < |list|
      invariant 0 <= i <= |list|
      invariant CrashPass(list[..i], dy, player, shielded, health0, speed0, volume) == CrashOutcome(kept, health, speed, played)
    {
      var obstacle := Fall(list[i], dy);
      var removed := false;
      if Overlaps(obstacle, player) && !shielded {
        removed := true;
        health := health - CrashDamage;
        if health < 0.0 {
          health := 0.0;
        }
        played := played + [Play(CrashSound, volume * CrashVolume)];
        speed := speed + SpeedIncreasePerCrash;
      }
      if obstacle.y + obstacle.height < 0.0 {
        removed := true;
      }
      if !removed {
        kept := kept + [obstacle];
      }
      assert list[..i + 1][..i] == list[..i];
      i := i + 1;
    }
    assert list[..i] == list;
    return CrashOutcome(kept, health, speed, played);
  }

  /** The fuel loop: a fuel the car touches heals (capped at full health),
      scores and plays the collect sound; one wholly below the screen is
      removed. */
  method FuelLoop(list: seq<Rect>, dy: real, player: Rect, health0: real, score0: int, volume: real)
    returns (r: PickupOutcome)
    ensures r == FuelPass(list, dy, player, health0, score0, volume)
  {
    var kept: seq<Rect> := [];
    var health, points := health0, score0;
    var played: seq<SoundEvent> := [];
    var i := 0;
    while i < |list|
      invariant 0 <= i <= |list|
      invariant FuelPass(list[..i], dy, player, health0, score0, volume) == PickupOutcome(kept, health, points, played)
    {
      var fuel := Fall(list[i], dy);
      var removed := false;
      if Overlaps(fuel, player) {
        removed := true;
        health := Min(MaxHealth, health + FuelHealing);
        points := points + FuelScore;
        played := played + [Play(CollectSound, volume * CollectVolume)];
      }
      if fuel.y + fuel.height < 0.0 {
        removed := true;
      }
      if !removed {
        kept := kept + [fuel];
      }
      assert list[..i + 1][..i] == list[..i];
      i := i + 1;
    }
    assert list[..i] == list;
    return PickupOutcome(kept, health, points, played);
  }

  /** The power-up loop: a power-up the car touches switches invincibility on
      with a fresh timer and plays its sound; one wholly below the screen is
      removed. */
  method PowerUpLoop(list: seq<Rect>, dy: real, player: Rect, invincible0: bool, timer0: real, volume: real)
    returns (r: PowerUpOutcome)
    ensures r == PowerUpPass(list, dy, player, invincible0, timer0, volume)
  {
    var kept: seq<Rect> := [];
    var invincible, timer := invincible0, timer0;
    var played: seq<SoundEvent> := [];
    var i := 0;
    while i < |list|
      invariant 0 <= i <= |list|
      invariant PowerUpPass(list[..i], dy, player, invincible0, timer0, volume) == PowerUpOutcome(kept, invincible, timer, played)
    {
      var powerUp := Fall(list[i], dy);
      var removed := false;
      if Overlaps(powerUp, player) {
        removed := true;
        invincible := true;
        timer := InvincibleDuration;
        played := played + [Play(PowerUpSound, volume * PowerUpVolume)];
      }
      if powerUp.y + powerUp.height < 0.0 {
        removed := true;
      }
      if !removed {
        kept := kept + [powerUp];
      }
      assert list[..i + 1][..i] == list[..i];
      i := i + 1;
    }
    assert list[..i] == list;
    return PowerUpOutcome(kept, invincible, timer, played);
  }

  /** The bullet loop, with the nested scan of the obstacles: each bullet rises
      by dy, and the first obstacle it overlaps is removed together with the
      bullet; a bullet above the screen is removed as well. A bullet is removed
      once even when it both leaves the screen and hits (see
      Simulation.BulletVisitAsWritten for the code as written). The returned
      score is the old one plus HitScore per hit. */
  method BulletLoop(list: seq<Rect>, dy: real, obstacles0: seq<Rect>, screenHeight: int, score0: int)
    returns (v: Volley, points: int)
    ensures v == BulletPass(list, dy, obstacles0, screenHeight)
    ensures points == score0 + HitScore * v.hits
  {
    var kept: seq<Rect> := [];
    var standing := obstacles0;
    points := score0;
    var hits: nat := 0;
    var i := 0;
    while i < |list|
      invariant 0 <= i <= |list|
      invariant BulletPass(list[..i], dy, obstacles0, screenHeight) == Volley(kept, standing, hits)
      invariant points == score0 + HitScore * hits
    {
      var bullet := Rise(list[i], dy);
      var removed := bullet.y > screenHeight as real;
      var hit := FindFirstHit(bullet, standing);
      if hit.HitAt? {
        standing := RemoveAt(standing, hit.index);
        removed := true;
        points := points + HitScore;
        hits := hits + 1;
      }
      if !removed {
        kept := kept + [bullet];
      }
      assert list[..i + 1][..i] == list[..i];
      i := i + 1;
    }
    assert list[..i] == list;
    v := Volley(kept, standing, hits);
  }

  class GameScreen {
    const config: Config
    const settings: Settings.GameSettings

    var car: Rect
    var obstacles: seq<Rect>
    var fuels: seq<Rect>
    var powerUps: seq<Rect>
    var bullets: seq<Rect>
    var obstacleSpawnTimer: real
    var fuelSpawnTimer: real
    var powerUpSpawnTimer: real
    var shootCooldown: real
    var score: int
    var currentHealth: real
    var isInvincible: bool
    var invincibleTimer: real
    var gameSpeedMultiplier: real
    var difficultySpeedMultiplier: real
    var difficultySpawnRate: real
    var isGameOver: bool
    var scoreSaved: bool
    // What the screen asked of its collaborators: sounds played, scores submitted
    var sounds: seq<SoundEvent>
    var submitted: seq<int>

    /** The run state held in the fields, as one value. */
    ghost function Snapshot(): World
      reads this
    {
      World(car, obstacles, fuels, powerUps, bullets,
            obstacleSpawnTimer, fuelSpawnTimer, powerUpSpawnTimer, shootCooldown,
            score, currentHealth, isInvincible, invincibleTimer,
            gameSpeedMultiplier, difficultySpeedMultiplier, difficultySpawnRate,
            isGameOver, scoreSaved, sounds, submitted)
    }

    ghost predicate Valid()
      reads this
    {
      Inv(config, Snapshot())
    }

    /** The screen as show() leaves it: sprite sizes fixed, then a fresh run. */
    constructor (config: Config, settings: Settings.GameSettings)
      ensures this.config == config && this.settings == settings
      ensures Snapshot() == Reset(config, settings.CurrentDifficulty(), [], [])
      ensures Valid()
    {
      this.config := config;
      this.settings := settings;
      sounds := [];
      submitted := [];
      new;
      ResetGame();
    }

    /** Starts a fresh run with the difficulty currently selected in the settings. */
    method ResetGame()
      modifies this
      ensures Snapshot() == Reset(config, old(settings.CurrentDifficulty()), old(sounds), old(submitted))
    {
      var difficulty := settings.CurrentDifficulty();
      PlaceCar();
      ClearSprites();
      ZeroTimers();
      ResetProgress();
      RearmLatch();
      ApplyDifficulty(difficulty);
    }

    /** The car back at the centre of the screen, at its fixed height. */
    method PlaceCar()
      modifies this
      ensures Snapshot() == old(Snapshot()).(
        car := Rect(config.screenWidth as real / 2.0 - config.car.width / 2.0, CarY, config.car.width, config.car.height))
    {
      car := Rect(config.screenWidth as real / 2.0 - config.car.width / 2.0, CarY, config.car.width, config.car.height);
    }

    method ClearSprites()
      modifies this
      ensures Snapshot() == old(Snapshot()).(obstacles := [], fuels := [], powerUps := [], bullets := [])
    {
      obstacles, fuels, powerUps, bullets := [], [], [], [];
    }

    method ZeroTimers()
      modifies this
      ensures Snapshot() == old(Snapshot()).(
        obstacleSpawnTimer := 0.0, fuelSpawnTimer := 0.0, powerUpSpawnTimer := 0.0, shootCooldown := 0.0)
    {
      obstacleSpawnTimer, fuelSpawnTimer, powerUpSpawnTimer, shootCooldown := 0.0, 0.0, 0.0, 0.0;
    }

    method ResetProgress()
      modifies this
      ensures Snapshot() == old(Snapshot()).(score := 0, health := MaxHealth, invincible := false, invincibleTimer := 0.0)
    {
      score := 0;
      currentHealth := MaxHealth;
      isInvincible := false;
      invincibleTimer := 0.0;
    }

    /** The crash multiplier back at 1 and the game-over latch open again. */
    method RearmLatch()
      modifies this
      ensures Snapshot() == old(Snapshot()).(speedMultiplier := 1.0, gameOver := false, scoreSaved := false)
    {
      gameSpeedMultiplier := 1.0;
      isGameOver := false;
      scoreSaved := false;
    }

    method ApplyDifficulty(difficulty: Settings.Difficulty)
      modifies this
      ensures Snapshot() == old(Snapshot()).(
        difficultySpeedMultiplier := Settings.SpeedMultiplier(difficulty),
        difficultySpawnRate := Settings.ObstacleSpawnRate(difficulty))
    {
      difficultySpeedMultiplier := Settings.SpeedMultiplier(difficulty);
      difficultySpawnRate := Settings.ObstacleSpawnRate(difficulty);
    }

    /** The steering keys, each moving the car by CarSpeed·delta·total. */
    method Steer(i: Input, total: real)
      modifies this
      ensures Snapshot() == Simulation.Steer(old(Snapshot()), i, total)
    {
      if i.left {
        car := car.(x := car.x - CarSpeed * i.delta * total);
      }
      if i.right {
        car := car.(x := car.x + CarSpeed * i.delta * total);
      }
    }

    method Shoot(volume: real)
      modifies this
      ensures Snapshot() == Simulation.Shoot(config, old(Snapshot()), volume)
    {
      if shootCooldown <= 0.0 {
        bullets := bullets + [BulletFrom(config, car)];
        sounds := sounds + [Play(ShootSound, volume * ShootVolume)];
        shootCooldown := ShootCooldownTime;
      }
    }

    /** Keeps the car within [0, screen width - car width]. */
    method ClampCar()
      modifies this
      ensures Snapshot() == Simulation.ClampCar(config, old(Snapshot()))
    {
      car := car.(x := Max(0.0, Min(config.screenWidth as real - car.width, car.x)));
    }

    method CoolDown(delta: real)
      modifies this
      ensures Snapshot() == Simulation.CoolDown(old(Snapshot()), delta)
    {
      if shootCooldown > 0.0 {
        shootCooldown := shootCooldown - delta;
      }
    }

    /** Steering, firing, the clamp and the cooldown, in the order update runs them. */
    method Drive(i: Input, total: real, volume: real)
      modifies this
      ensures Snapshot() == Simulation.Drive(config, old(Snapshot()), i, total, volume)
    {
      Steer(i, total);
      if i.fire {
        Shoot(volume);
      }
      ClampCar();
      CoolDown(i.delta);
    }

    method AdvanceSpawnTimers(delta: real)
      modifies this
      ensures Snapshot() == Simulation.AdvanceSpawnTimers(old(Snapshot()), delta)
    {
      obstacleSpawnTimer := obstacleSpawnTimer + delta;
      fuelSpawnTimer := fuelSpawnTimer + delta;
      powerUpSpawnTimer := powerUpSpawnTimer + delta;
    }

    method ReleaseObstacle(i: Input)
      requires difficultySpawnRate > 0.0
      modifies this
      ensures Snapshot() == Simulation.ReleaseObstacle(config, old(Snapshot()), i)
    {
      var obstacleSpawnInterval := 1.0 / difficultySpawnRate;
      if obstacleSpawnTimer > obstacleSpawnInterval {
        obstacles := obstacles + [SpawnAt(config, i.obstacleX, config.obstacle)];
        obstacleSpawnTimer := 0.0;
      }
    }

    method ReleaseFuel(i: Input)
      modifies this
      ensures Snapshot() == Simulation.ReleaseFuel(config, old(Snapshot()), i)
    {
      if fuelSpawnTimer > FuelSpawnInterval {
        fuels := fuels + [SpawnAt(config, i.fuelX, config.fuel)];
        fuelSpawnTimer := 0.0;
      }
    }

    method ReleasePowerUp(i: Input)
      modifies this
      ensures Snapshot() == Simulation.ReleasePowerUp(config, old(Snapshot()), i)
    {
      if powerUpSpawnTimer > PowerUpSpawnInterval {
        powerUps := powerUps + [SpawnAt(config, i.powerUpX, config.powerUp)];
        powerUpSpawnTimer := 0.0;
      }
    }

    /** The three spawn timers and the sprites they release. */
    method SpawnEntities(i: Input)
      requires difficultySpawnRate > 0.0
      modifies this
      ensures Snapshot() == Simulation.Spawn(config, old(Snapshot()), i)
    {
      AdvanceSpawnTimers(i.delta);
      ReleaseObstacle(i);
      ReleaseFuel(i);
      ReleasePowerUp(i);
    }

    method MoveObstacles(dy: real, volume: real)
      modifies this
      ensures Snapshot() == ResolveObstacles(old(Snapshot()), dy, volume)
    {
      ghost var w := Snapshot();
      var r := CrashLoop(obstacles, dy, car, isInvincible, currentHealth, gameSpeedMultiplier, volume);
      obstacles, currentHealth, gameSpeedMultiplier, sounds := r.kept, r.health, r.speedMultiplier, sounds + r.sounds;
      assert Snapshot() == w.(obstacles := r.kept, health := r.health, speedMultiplier := r.speedMultiplier, sounds := w.sounds + r.sounds);
    }

    method MoveFuels(dy: real, volume: real)
      modifies this
      ensures Snapshot() == ResolveFuels(old(Snapshot()), dy, volume)
    {
      ghost var w := Snapshot();
      var r := FuelLoop(fuels, dy, car, currentHealth, score, volume);
      fuels, currentHealth, score, sounds := r.kept, r.health, r.score, sounds + r.sounds;
      assert Snapshot() == w.(fuels := r.kept, health := r.health, score := r.score, sounds := w.sounds + r.sounds);
    }

    method MovePowerUps(dy: real, volume: real)
      modifies this
      ensures Snapshot() == ResolvePowerUps(old(Snapshot()), dy, volume)
    {
      ghost var w := Snapshot();
      var r := PowerUpLoop(powerUps, dy, car, isInvincible, invincibleTimer, volume);
      powerUps, isInvincible, invincibleTimer, sounds := r.kept, r.invincible, r.invincibleTimer, sounds + r.sounds;
      assert Snapshot() == w.(powerUps := r.kept, invincible := r.invincible, invincibleTimer := r.invincibleTimer, sounds := w.sounds + r.sounds);
    }

    /** Obstacles, fuels and power-ups, each moved by its own speed. */
    method MoveFalling(i: Input, total: real, volume: real)
      modifies this
      ensures Snapshot() == Simulation.MoveFalling(old(Snapshot()), i, total, volume)
    {
      MoveObstacles(Distance(ObstacleSpeed, i, total), volume);
      MoveFuels(Distance(FuelSpeed, i, total), volume);
      MovePowerUps(Distance(PowerUpSpeed, i, total), volume);
    }

    method TickInvincibility(delta: real)
      modifies this
      ensures Snapshot() == Simulation.TickInvincibility(old(Snapshot()), delta)
    {
      if isInvincible {
        invincibleTimer := invincibleTimer - delta;
        if invincibleTimer <= 0.0 {
          isInvincible := false;
        }
      }
    }

    method MoveBullets(dy: real)
      modifies this
      ensures Snapshot() == ResolveBullets(config, old(Snapshot()), dy)
    {
      var v, points := BulletLoop(bullets, dy, obstacles, config.screenHeight, score);
      bullets, obstacles, score := v.bullets, v.obstacles, points;
    }

    /** GameScreen.update: one step of the running game, block by block, with the
        total speed multiplier taken once at the start. */
    method Update(i: Input)
      requires difficultySpawnRate > 0.0
      modifies this
      ensures Snapshot() == Simulation.Update(config, old(Snapshot()), i, old(settings.SoundVolume()))
    {
      ghost var w0 := Snapshot();
      var volume := settings.SoundVolume();
      var total := gameSpeedMultiplier * difficultySpeedMultiplier;
      assert total == TotalMultiplier(w0);
      Drive(i, total, volume);
      SpawnEntities(i);
      MoveFalling(i, total, volume);
      TickInvincibility(i.delta);
      MoveBullets(Distance(BulletSpeed, i, total));
    }

    /** Game over once health is no longer positive, with one score submission
        per run. */
    method LatchGameOver()
      modifies this
      ensures Snapshot() == Latch(old(Snapshot()))
    {
      if currentHealth <= 0.0 {
        isGameOver := true;
        if !scoreSaved {
          submitted := submitted + [score];
          scoreSaved := true;
        }
      }
    }

    /** The simulation part of render: update a running game and latch game over;
        restart a finished game on request. */
    method Render(i: Input)
      requires Valid() && i.delta >= 0.0
      modifies this
      ensures Valid()
      ensures Snapshot() == Frame(config, old(Snapshot()), i, Env(old(settings.SoundVolume()), old(settings.CurrentDifficulty())))
    {
      ghost var w0 := Snapshot();
      ghost var env := Env(settings.SoundVolume(), settings.CurrentDifficulty());
      if !isGameOver {
        Update(i);
        LatchGameOver();
      } else if i.restart {
        ResetGame();
      }
      SimulationLemmas.InvPreserved(config, w0, i, env);
    }
  }
}
