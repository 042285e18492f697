/** What the game promises of its frame loop, proved of the functions of module
    Simulation: the run invariant, the car clamp, timed spawning, the fire
    cooldown, the invincibility window, bullet scoring, the game-over latch with
    its single score submission, and the restart. */
module SimulationLemmas {
  import opened Numbers
  import opened Geometry
  import opened Simulation
  import Settings

  // ---------------------------------------------------------------------------
  // The run invariant

  /** Health stays within [0, 100] through an update: crashes floor it at 0
      and fuel caps it at 100. */
  lemma UpdateKeepsHealthInRange(c: Config, w: World, i: Input, volume: real)
    requires Inv(c, w) && i.delta >= 0.0
    ensures 0.0 <= Update(c, w, i, volume).health <= MaxHealth
  {
    UpdatePhases(c, w, i, volume);
  }

  /** An update never lowers the score or the speed multiplier. */
  lemma UpdateNeverLowersProgress(c: Config, w: World, i: Input, volume: real)
    requires Inv(c, w) && i.delta >= 0.0
    ensures Update(c, w, i, volume).score >= w.score
    ensures Update(c, w, i, volume).speedMultiplier >= w.speedMultiplier
  {
    UpdatePhases(c, w, i, volume);
  }

  /** While invincible after an update, the timer lies in (0, 3]. */
  lemma UpdateKeepsShieldTimer(c: Config, w: World, i: Input, volume: real)
    requires Inv(c, w) && i.delta >= 0.0
    ensures Update(c, w, i, volume).invincible ==> 0.0 < Update(c, w, i, volume).invincibleTimer <= InvincibleDuration
  {
    UpdatePhases(c, w, i, volume);
  }

  /** The phases of an update one after another, each with what it changes and
      what it keeps in bounds. */
  lemma UpdatePhases(c: Config, w: World, i: Input, volume: real)
    requires w.difficultySpawnRate > 0.0
    ensures var total := TotalMultiplier(w);
      var w3 := Drive(c, w, i, total, volume);
      var w4 := Spawn(c, w3, i);
      var w7 := MoveFalling(w4, i, total, volume);
      var w8 := TickInvincibility(w7, i.delta);
      var u := ResolveBullets(c, w8, Distance(BulletSpeed, i, total));
      && Update(c, w, i, volume) == u
      && w3 == w.(car := w.car.(x := w3.car.x), bullets := w3.bullets, sounds := w3.sounds, shootCooldown := w3.shootCooldown)
      && w4 == w3.(obstacles := w4.obstacles, fuels := w4.fuels, powerUps := w4.powerUps,
                   obstacleSpawnTimer := w4.obstacleSpawnTimer, fuelSpawnTimer := w4.fuelSpawnTimer,
                   powerUpSpawnTimer := w4.powerUpSpawnTimer)
      && (0.0 <= w4.health <= MaxHealth ==> 0.0 <= w7.health <= MaxHealth)
      && w7.score >= w4.score && w7.speedMultiplier >= w4.speedMultiplier
      && ((w4.invincible ==> 0.0 < w4.invincibleTimer <= InvincibleDuration) ==>
            (w7.invincible ==> 0.0 < w7.invincibleTimer <= InvincibleDuration))
      && w7 == w4.(obstacles := w7.obstacles, fuels := w7.fuels, powerUps := w7.powerUps, health := w7.health,
                   score := w7.score, speedMultiplier := w7.speedMultiplier, invincible := w7.invincible,
                   invincibleTimer := w7.invincibleTimer, sounds := w7.sounds)
      && ((i.delta >= 0.0 && (w7.invincible ==> 0.0 < w7.invincibleTimer <= InvincibleDuration)) ==>
            (w8.invincible ==> 0.0 < w8.invincibleTimer <= InvincibleDuration))
      && w8 == w7.(invincible := w8.invincible, invincibleTimer := w8.invincibleTimer)
      && u == w8.(bullets := u.bullets, obstacles := u.obstacles, score := u.score)
      && u.score >= w8.score
  {
    var total := TotalMultiplier(w);
    var w3 := Drive(c, w, i, total, volume);
    SpawnChangesOnlySprites(c, w3, i);
    MoveFallingBounds(Spawn(c, w3, i), i, total, volume);
  }

  /** Spawning changes only the three sprite lists and their timers. */
  lemma SpawnChangesOnlySprites(c: Config, w: World, i: Input)
    requires w.difficultySpawnRate > 0.0
    ensures var s := Spawn(c, w, i);
      s == w.(obstacles := s.obstacles, fuels := s.fuels, powerUps := s.powerUps,
              obstacleSpawnTimer := s.obstacleSpawnTimer, fuelSpawnTimer := s.fuelSpawnTimer,
              powerUpSpawnTimer := s.powerUpSpawnTimer)
  {
  }

  /** The falling sprites keep health in range, never lower the score or the
      speed multiplier, and keep the shield timer in (0, 3] while invincible. */
  lemma MoveFallingBounds(w: World, i: Input, total: real, volume: real)
    ensures var m := MoveFalling(w, i, total, volume);
      && (0.0 <= w.health <= MaxHealth ==> 0.0 <= m.health <= MaxHealth)
      && m.score >= w.score && m.speedMultiplier >= w.speedMultiplier
      && ((w.invincible ==> 0.0 < w.invincibleTimer <= InvincibleDuration) ==>
            (m.invincible ==> 0.0 < m.invincibleTimer <= InvincibleDuration))
  {
  }

  /** One update of a state satisfying the invariant keeps every part of it
      that does not depend on the latch. */
  lemma UpdateKeepsBounds(c: Config, w: World, i: Input, volume: real)
    requires Inv(c, w) && i.delta >= 0.0
    ensures var u := Update(c, w, i, volume);
      && 0.0 <= u.health <= MaxHealth
      && u.score >= w.score
      && u.speedMultiplier >= w.speedMultiplier
      && u.difficultySpeedMultiplier == w.difficultySpeedMultiplier
      && u.difficultySpawnRate == w.difficultySpawnRate
      && u.gameOver == w.gameOver && u.scoreSaved == w.scoreSaved && u.submitted == w.submitted
      && (u.invincible ==> 0.0 < u.invincibleTimer <= InvincibleDuration)
      && u.car.y == CarY && u.car.width == c.car.width && u.car.height == c.car.height
      && (0.0 <= c.car.width <= c.screenWidth as real ==> 0.0 <= u.car.x <= c.screenWidth as real - c.car.width)
  {
    UpdateKeepsHealthInRange(c, w, i, volume);
    UpdateNeverLowersProgress(c, w, i, volume);
    UpdateKeepsShieldTimer(c, w, i, volume);
    if 0.0 <= c.car.width <= c.screenWidth as real {
      CarStaysOnRoad(c, w, i, volume);
    } else {
      CarKeepsHeight(c, w, i, volume);
    }
  }

  /** Every frame keeps the invariant, whether it updates a running game, keeps
      a finished one or restarts it. */
  lemma InvPreserved(c: Config, w: World, i: Input, env: Env)
    requires Inv(c, w) && i.delta >= 0.0
    ensures Inv(c, Frame(c, w, i, env))
  {
    if !w.gameOver {
      UpdateKeepsBounds(c, w, i, env.volume);
    }
  }

  // ---------------------------------------------------------------------------
  // Steering

  /** Whatever the steering keys and the elapsed time, the car ends the update
      within [0, screen width - car width] when it fits on the road. */
  lemma CarStaysOnRoad(c: Config, w: World, i: Input, volume: real)
    requires w.difficultySpawnRate > 0.0
    requires 0.0 <= w.car.width <= c.screenWidth as real
    ensures 0.0 <= Update(c, w, i, volume).car.x <= c.screenWidth as real - w.car.width
    ensures Update(c, w, i, volume).car.y == w.car.y
  {
    UpdatePhases(c, w, i, volume);
  }

  /** Steering moves the car only sideways. */
  lemma CarKeepsHeight(c: Config, w: World, i: Input, volume: real)
    requires w.difficultySpawnRate > 0.0
    ensures Update(c, w, i, volume).car.y == w.car.y
    ensures Update(c, w, i, volume).car.width == w.car.width
    ensures Update(c, w, i, volume).car.height == w.car.height
  {
    UpdatePhases(c, w, i, volume);
  }

  // ---------------------------------------------------------------------------
  // Spawning

  /** A spawn timer advanced by delta either passed its interval, and then one
      sprite entering at the top edge at a position in [0, bound) was appended
      and the timer reset to 0, or it did not, and then the list is unchanged
      and the timer keeps the advanced value. */
  predicate TimedSpawn(before: seq<Rect>, after: seq<Rect>, timer: real, newTimer: real,
                       delta: real, interval: real, bound: int, top: real)
  {
    if timer + delta > interval then
      && |after| == |before| + 1 && after[..|before|] == before
      && 0.0 <= after[|before|].x < bound as real && after[|before|].y == top
      && newTimer == 0.0
    else after == before && newTimer == timer + delta
  }

  /** The three spawners run independently: obstacles every 1 / spawn-rate
      seconds, fuel every 2 s and power-ups every 5 s, each strictly after its
      interval has passed. */
  lemma SpawnOnThreshold(c: Config, w: World, i: Input)
    requires w.difficultySpawnRate > 0.0 && ValidInput(c, i)
    ensures var s := Spawn(c, w, i);
      && TimedSpawn(w.obstacles, s.obstacles, w.obstacleSpawnTimer, s.obstacleSpawnTimer, i.delta,
                    1.0 / w.difficultySpawnRate, SpawnBound(c, c.obstacle), c.screenHeight as real)
      && TimedSpawn(w.fuels, s.fuels, w.fuelSpawnTimer, s.fuelSpawnTimer, i.delta,
                    FuelSpawnInterval, SpawnBound(c, c.fuel), c.screenHeight as real)
      && TimedSpawn(w.powerUps, s.powerUps, w.powerUpSpawnTimer, s.powerUpSpawnTimer, i.delta,
                    PowerUpSpawnInterval, SpawnBound(c, c.powerUp), c.screenHeight as real)
      && s.bullets == w.bullets && s.car == w.car && s.health == w.health && s.score == w.score
  {
  }

  /** A timer that reaches its interval exactly does not spawn yet. */
  lemma ExactThresholdWaits(c: Config, w: World, i: Input)
    requires w.difficultySpawnRate > 0.0
    requires w.fuelSpawnTimer + i.delta == FuelSpawnInterval
    ensures Spawn(c, w, i).fuels == w.fuels
    ensures Spawn(c, w, i).fuelSpawnTimer == FuelSpawnInterval
  {
  }

  // ---------------------------------------------------------------------------
  // Firing

  /** The number of shots among the played sounds. */
  function Shots(s: seq<SoundEvent>): nat
  {
    if s == [] then 0 else Shots(s[..|s| - 1]) + (if s[|s| - 1].sound == ShootSound then 1 else 0)
  }

  lemma {:induction false} ShotsAppend(a: seq<SoundEvent>, b: seq<SoundEvent>)
    ensures Shots(a + b) == Shots(a) + Shots(b)
    decreases |b|
  {
    if b != [] {
      assert (a + b)[..|a + b| - 1] == a + b[..|b| - 1];
      ShotsAppend(a, b[..|b| - 1]);
    } else {
      assert a + b == a;
    }
  }

  lemma {:induction false} NoShots(s: seq<SoundEvent>)
    requires forall e :: e in s ==> e.sound != ShootSound
    ensures Shots(s) == 0
    decreases |s|
  {
    if s != [] {
      assert s[|s| - 1] in s;
      assert forall e :: e in s[..|s| - 1] ==> e in s;
      NoShots(s[..|s| - 1]);
    }
  }

  /** Firing adds one bullet from the car's top centre and one shot sound only
      when the cooldown has run out; it then restarts the cooldown at 0.25 s,
      of which this frame's delta is already taken. Otherwise the bullets and
      sounds stay and a running cooldown goes down by delta. */
  lemma FireRespectsCooldown(c: Config, w: World, i: Input, total: real, volume: real)
    ensures var s := SteerAndFire(c, w, i, total, volume);
      var f := CoolDown(ClampCar(c, s), i.delta);
      && (i.fire && w.shootCooldown <= 0.0 ==>
            && f.bullets == w.bullets + [BulletFrom(c, s.car)]
            && f.sounds == w.sounds + [Play(ShootSound, volume * ShootVolume)]
            && f.shootCooldown == ShootCooldownTime - i.delta)
      && (!(i.fire && w.shootCooldown <= 0.0) ==>
            && f.bullets == w.bullets && f.sounds == w.sounds
            && f.shootCooldown == if w.shootCooldown > 0.0 then w.shootCooldown - i.delta else w.shootCooldown)
  {
  }

  /** Over a whole update exactly one shot is heard when fire is pressed with
      the cooldown run out, and none otherwise: no crash, pickup or hit sound is
      a shot. */
  lemma ShotsPerFrame(c: Config, w: World, i: Input, volume: real)
    requires w.difficultySpawnRate > 0.0
    ensures Shots(Update(c, w, i, volume).sounds) == Shots(w.sounds) + (if i.fire && w.shootCooldown <= 0.0 then 1 else 0)
  {
    var total := TotalMultiplier(w);
    var w3 := Drive(c, w, i, total, volume);
    var w4 := Spawn(c, w3, i);
    var w5 := ResolveObstacles(w4, Distance(ObstacleSpeed, i, total), volume);
    var w6 := ResolveFuels(w5, Distance(FuelSpeed, i, total), volume);
    var w7 := ResolvePowerUps(w6, Distance(PowerUpSpeed, i, total), volume);
    UpdatePhases(c, w, i, volume);
    FireRespectsCooldown(c, w, i, total, volume);
    if i.fire && w.shootCooldown <= 0.0 {
      ShotsAppend(w.sounds, [Play(ShootSound, volume * ShootVolume)]);
      assert Shots([Play(ShootSound, volume * ShootVolume)]) == 1;
    }
    var crashes := CrashPass(w4.obstacles, Distance(ObstacleSpeed, i, total), w4.car, w4.invincible, w4.health, w4.speedMultiplier, volume).sounds;
    var pickups := FuelPass(w5.fuels, Distance(FuelSpeed, i, total), w5.car, w5.health, w5.score, volume).sounds;
    var boosts := PowerUpPass(w6.powerUps, Distance(PowerUpSpeed, i, total), w6.car, w6.invincible, w6.invincibleTimer, volume).sounds;
    CrashPassKeeps(w4.obstacles, Distance(ObstacleSpeed, i, total), w4.car, w4.invincible, w4.health, w4.speedMultiplier, volume);
    FuelPassKeeps(w5.fuels, Distance(FuelSpeed, i, total), w5.car, w5.health, w5.score, volume);
    PowerUpPassKeeps(w6.powerUps, Distance(PowerUpSpeed, i, total), w6.car, w6.invincible, w6.invincibleTimer, volume);
    NoShots(crashes);
    NoShots(pickups);
    NoShots(boosts);
    ShotsAppend(w4.sounds, crashes);
    ShotsAppend(w5.sounds, pickups);
    ShotsAppend(w6.sounds, boosts);
    assert w7 == MoveFalling(w4, i, total, volume);
    assert w7.sounds == w4.sounds + crashes + pickups + boosts;
  }

  // ---------------------------------------------------------------------------
  // Invincibility

  /** Touching a power-up sets (never extends) the timer to 3 s, and this
      frame's delta is then taken off; without a pickup an invincible car's
      timer runs down by delta, and invincibility ends once it is no longer
      positive. */
  lemma InvincibilityWindow(w: World, dy: real, volume: real, delta: real)
    ensures var t := TickInvincibility(ResolvePowerUps(w, dy, volume), delta);
      && ((exists p :: p in w.powerUps && Overlaps(Fall(p, dy), w.car)) ==>
            t.invincibleTimer == InvincibleDuration - delta && (t.invincible <==> InvincibleDuration - delta > 0.0))
      && ((forall p :: p in w.powerUps ==> !Overlaps(Fall(p, dy), w.car)) ==>
            && (w.invincible ==> t.invincibleTimer == w.invincibleTimer - delta && (t.invincible <==> w.invincibleTimer - delta > 0.0))
            && (!w.invincible ==> !t.invincible && t.invincibleTimer == w.invincibleTimer))
  {
    PowerUpPassKeeps(w.powerUps, dy, w.car, w.invincible, w.invincibleTimer, volume);
  }

  // ---------------------------------------------------------------------------
  // Bullets

  /** Every obstacle a bullet destroys scores exactly 10 points, no bullet is
      created by the pass, and no surviving bullet overlaps a surviving
      obstacle. */
  lemma BulletScoresPerKill(c: Config, w: World, dy: real)
    ensures var r := ResolveBullets(c, w, dy);
      && |r.obstacles| <= |w.obstacles|
      && r.score == w.score + HitScore * (|w.obstacles| - |r.obstacles|)
      && |r.bullets| <= |w.bullets|
      && forall b, o :: b in r.bullets && o in r.obstacles ==> !Overlaps(b, o)
  {
    BulletPassKeeps(w.bullets, dy, w.obstacles, c.screenHeight);
  }

  /** The code as written completes exactly when the bullet does not both leave
      the screen and hit, and then it agrees with the corrected visit. */
  lemma CorrectedAgreesWhereNoThrow(b: Rect, v: Volley, screenHeight: int)
    ensures BulletVisitAsWritten(b, v, screenHeight).Completed?
        <==> !(b.y > screenHeight as real && FirstHit(b, v.obstacles).HitAt?)
    ensures BulletVisitAsWritten(b, v, screenHeight).Completed?
        ==> BulletVisitAsWritten(b, v, screenHeight).v == VisitBullet(b, v, screenHeight)
  {
  }

  /** A bullet that has just risen past the top edge of a 600-high screen while
      overlapping an obstacle that entered there a moment ago: the code as
      written throws, having already removed the obstacle, whereas the
      corrected visit removes the bullet once and scores the hit. */
  lemma OffScreenHitThrows()
    ensures var v := Volley([], [Rect(0.0, 595.0, 30.0, 30.0)], 0);
      var b := Rect(0.0, 605.0, 2.0, 10.0);
      && BulletVisitAsWritten(b, v, 600) == IllegalState([])
      && VisitBullet(b, v, 600) == Volley([], [], 1)
  {
    var v := Volley([], [Rect(0.0, 595.0, 30.0, 30.0)], 0);
    var b := Rect(0.0, 605.0, 2.0, 10.0);
    assert Overlaps(b, v.obstacles[0]);
    assert FirstHit(b, v.obstacles) == HitAt(0);
  }

  // ---------------------------------------------------------------------------
  // The game-over latch, the restart and whole runs

  /** A finished game stays exactly as it is until a restart is requested. */
  lemma GameOverFreezes(c: Config, w: World, i: Input, env: Env)
    requires w.difficultySpawnRate > 0.0 && w.gameOver && !i.restart
    ensures Frame(c, w, i, env) == w
  {
  }

  /** A running game ends in the frame whose update leaves health at or below
      zero, and in that frame the final score is submitted once; in any other
      frame nothing is submitted. */
  lemma GameOverLatches(c: Config, w: World, i: Input, env: Env)
    requires Inv(c, w) && i.delta >= 0.0 && !w.gameOver
    ensures var f := Frame(c, w, i, env);
      && (f.gameOver <==> Update(c, w, i, env.volume).health <= 0.0)
      && (f.gameOver ==> f.health == 0.0 && f.submitted == w.submitted + [f.score])
      && (!f.gameOver ==> f.submitted == w.submitted)
  {
    UpdateKeepsBounds(c, w, i, env.volume);
  }

  /** Without a restart, a frame never lowers the score or the speed multiplier. */
  lemma ProgressNeverDecreases(c: Config, w: World, i: Input, env: Env)
    requires Inv(c, w) && i.delta >= 0.0 && !(w.gameOver && i.restart)
    ensures Frame(c, w, i, env).score >= w.score
    ensures Frame(c, w, i, env).speedMultiplier >= w.speedMultiplier
  {
    if !w.gameOver {
      UpdateKeepsBounds(c, w, i, env.volume);
    }
  }

  /** A restart of a finished game begins a fresh run with the difficulty
      selected now, keeping only what was already played and submitted. */
  lemma RestartStartsFreshRun(c: Config, w: World, i: Input, env: Env)
    requires w.difficultySpawnRate > 0.0 && w.gameOver && i.restart
    ensures var f := Frame(c, w, i, env);
      && !f.gameOver && !f.scoreSaved && f.score == 0 && f.health == MaxHealth
      && f.obstacles == [] && f.fuels == [] && f.powerUps == [] && f.bullets == []
      && f.speedMultiplier == 1.0 && !f.invincible
      && f.difficultySpeedMultiplier == Settings.SpeedMultiplier(env.difficulty)
      && f.difficultySpawnRate == Settings.ObstacleSpawnRate(env.difficulty)
      && f.sounds == w.sounds && f.submitted == w.submitted
  {
  }

  /** The state after a sequence of frames under one setting of volume and
      difficulty. */
  ghost function Run(c: Config, w: World, frames: seq<Input>, env: Env): World
    requires Inv(c, w)
    requires forall k :: 0 <= k < |frames| ==> frames[k].delta >= 0.0
    decreases |frames|
  {
    if frames == [] then w
    else
      InvPreserved(c, w, frames[0], env);
      Run(c, Frame(c, w, frames[0], env), frames[1..], env)
  }

  /** Over any run without a restart: a finished game never changes, the score
      and the speed multiplier never go down, nothing is submitted while the
      game is running, and a game that ends is submitted exactly once, with its
      final score. */
  lemma {:induction false} SubmitsOncePerRun(c: Config, w: World, frames: seq<Input>, env: Env)
    requires Inv(c, w)
    requires forall k :: 0 <= k < |frames| ==> frames[k].delta >= 0.0 && !frames[k].restart
    ensures var r := Run(c, w, frames, env);
      && (w.gameOver ==> r == w)
      && r.score >= w.score && r.speedMultiplier >= w.speedMultiplier
      && (!r.gameOver ==> r.submitted == w.submitted)
      && (r.gameOver && !w.gameOver ==> r.submitted == w.submitted + [r.score])
    decreases |frames|
  {
    if frames != [] {
      InvPreserved(c, w, frames[0], env);
      ProgressNeverDecreases(c, w, frames[0], env);
      var w1 := Frame(c, w, frames[0], env);
      SubmitsOncePerRun(c, w1, frames[1..], env);
      if !w.gameOver {
        GameOverLatches(c, w, frames[0], env);
      }
    }
  }
}
