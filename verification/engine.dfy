/**
 * The game's module-level state and the operations that change it: the
 * per-frame update, the jump input, the overlap callbacks (recyclable,
 * hazard, goal), damage, level completion and level progression.
 */
module Engine {
  import opened Wrappers
  import opened Geometry
  import opened Oscillator
  import opened Landing
  import opened Placement
  import opened Layout
  import opened Rules

  /** The platform the player stands on: an index among the walls or among the moving platforms. */
  datatype PlatformRef = WallRef(i: nat) | MoverRef(i: nat)

  /** What touching the goal did: nothing (game over or level done), complete the level, or report how many are missing. */
  datatype GoalResponse = Ignored | Completed | NeedMore(missing: int)

  /** The player is outside the playfield: below y = 130 or beyond x = -10 / x = 170. */
  predicate OutOfBounds(b: Body) {
    !InPlayBounds(Point(b.x, b.y))
  }

  /** The goal sits where the choice over `walls` puts it. */
  ghost predicate GoalPlaced(walls: seq<Platform>, goal: Option<Point>) {
    exists best :: GoalChoice(walls, best) && goal == Some(GoalPoint(walls, best))
  }

  /** `r` names an existing wall or moving platform. */
  predicate RefValid(r: PlatformRef, walls: seq<Platform>, movers: seq<Platform>) {
    match r
    case WallRef(i) => i < |walls|
    case MoverRef(i) => i < |movers|
  }

  /** The player at `p` at rest. */
  function AtRest(p: Point): (b: Body)
    ensures b.x == p.x && b.y == p.y && b.vx == 0.0 && b.vy == 0.0
  {
    Body(p.x, p.y, 0.0, 0.0)
  }

  /**
   * The hazards of a level build: one per spot drawn from the pool spots
   * that avoid the safe zone and the 15-boxes around `recs`, at most
   * `count`; each starts at a distinct pool position, which it remembers
   * as its origin.
   */
  ghost predicate HazardsPlaced(hs: seq<Hazard>, recs: seq<Point>, flags: seq<bool>, count: int, picks: seq<nat>, draws: seq<HazardDraw>) {
    && |flags| == |Pool| && count >= 0
    && var valid := StartSpots(Spots(flags), Boxes(recs, RecyclableMargin));
    && |hs| == MinCount(count, |valid|)
    && PicksFit(picks, |valid|, |hs|) && |hs| <= |draws|
    && hs == NewHazards(Drawn(valid, picks, |hs|), draws)
    && (forall k :: 0 <= k < |hs| ==>
          && hs[k].origin == Position(hs[k]) && hs[k].canRelocate
          && Position(hs[k]) in Pool && StartOk(Position(hs[k]), Boxes(recs, RecyclableMargin)))
    && (forall j, k :: 0 <= j < k < |hs| ==> Position(hs[j]) != Position(hs[k]))
  }

  /**
   * The recyclables of a level build: none when no platform is eligible;
   * otherwise `needed` of them, the i-th on its drawn eligible platform,
   * and clear of every hazard whenever one of its ten tries was.
   */
  ghost predicate ItemsPlaced(recs: seq<Point>, platforms: seq<Platform>, needed: int, choices: seq<nat>,
                              attempts: seq<seq<real>>, hs: seq<Hazard>)
  {
    var valid := ItemPlatforms(platforms);
    && (valid == [] ==> recs == [])
    && (valid != [] ==>
          && |recs| == Max0(needed) && |recs| <= |choices| && |recs| <= |attempts|
          && forall i :: 0 <= i < |recs| ==>
               && ItemPlatform(ChosenPlatform(valid, choices[i]))
               && AttemptDraws(attempts[i])
               && ItemOk(recs[i], ChosenPlatform(valid, choices[i]), attempts[i], hs))
  }

  /**
   * The hazards built from the drawn spots are at distinct pool positions,
   * each outside the safe zone and every recyclable's 15-box, and each
   * remembers its start as its origin.
   */
  lemma HazardPlacementSound(level: int, recs: seq<Point>, flags: seq<bool>, count: int, picks: seq<nat>, draws: seq<HazardDraw>)
    requires HazardDrawsOk(level, recs, flags, count, picks, draws)
    ensures var valid := StartSpots(Spots(flags), Boxes(recs, RecyclableMargin));
      HazardsPlaced(NewHazards(Drawn(valid, picks, MinCount(count, |valid|)), draws), recs, flags, count, picks, draws)
  {
    var zones := Boxes(recs, RecyclableMargin);
    var valid := StartSpots(Spots(flags), zones);
    var n := MinCount(count, |valid|);
    var selected := Drawn(valid, picks, n);
    var hs := NewHazards(selected, draws);
    StartPlacementSound(flags, zones, picks, n);
    forall k | 0 <= k < |hs|
      ensures Position(hs[k]) == selected[k].at && hs[k].origin == selected[k].at && hs[k].canRelocate
    {
      assert hs[k] == NewHazard(selected[k], draws[k]);
    }
  }

  class Game {
    var level: int
    var lives: int
    var score: int
    var recyclablesCollected: int
    var recyclablesNeeded: int
    var currentLevelScore: int
    var isGameOver: bool
    var isLevelComplete: bool
    var goalActive: bool
    /** The goal bin's position; it exists only once activated. */
    var goal: Option<Point>
    var playerSpeed: int
    var jumpPower: int
    var player: Body
    var isOnGround: bool
    var currentPlatform: Option<PlatformRef>
    var jumpForgivenessFrames: int
    /** Every Wall sprite in creation order (they are never destroyed). */
    var walls: seq<Platform>
    /** Every MovingPlatform sprite in creation order. */
    var movers: seq<Platform>
    var hazards: seq<Hazard>
    var recyclables: seq<Point>
    /** How many times the goal has been activated during the current level. */
    ghost var activations: nat

    /** The position of a platform in the enumeration walls-then-movers. */
    function IndexOf(r: PlatformRef): nat
      reads this`walls
    {
      match r
      case WallRef(i) => i
      case MoverRef(i) => |walls| + i
    }

    function RefAt(k: nat): (r: PlatformRef)
      reads this`walls
      ensures IndexOf(r) == k
    {
      if k < |walls| then WallRef(k) else MoverRef(k - |walls|)
    }

    /** Collection progress: the score follows the count and the goal is active exactly when enough are in. */
    ghost predicate ProgressValid()
      reads this`level, this`recyclablesNeeded, this`recyclablesCollected, this`score, this`goalActive,
            this`goal, this`activations
    {
      && level >= 1
      && recyclablesNeeded >= 1
      && recyclablesCollected >= 0
      && score == 10 * recyclablesCollected
      && (goalActive <==> recyclablesCollected >= recyclablesNeeded)
      && (goalActive <==> goal.Some?)
      && activations == (if goalActive then 1 else 0)
    }

    /** Lives and the end-of-play flags. */
    ghost predicate LivesValid()
      reads this`lives, this`isGameOver, this`isLevelComplete
    {
      && lives >= 0
      && (!isGameOver ==> lives >= 1)
      && (isLevelComplete ==> isGameOver && lives >= 1)
    }

    /** The player's footing and the respawn point. */
    ghost predicate FootingValid()
      reads this`jumpForgivenessFrames, this`currentPlatform, this`isOnGround, this`walls, this`movers
    {
      && (jumpForgivenessFrames == 0 || jumpForgivenessFrames == MaxJumpForgiveness)
      && (currentPlatform.Some? ==> isOnGround && RefValid(currentPlatform.value, walls, movers))
      && GroundFirst(walls)
    }

    ghost predicate Valid()
      reads this`level, this`recyclablesNeeded, this`jumpForgivenessFrames, this`lives, this`isGameOver,
            this`isLevelComplete, this`recyclablesCollected, this`score, this`goalActive, this`goal,
            this`activations, this`currentPlatform, this`isOnGround, this`walls, this`movers
    {
      ProgressValid() && LivesValid() && FootingValid()
    }

    /**
     * The initial values of the module-level state; the program's first
     * statement, the level build, is `CreateEnvironment`.
     */
    constructor ()
      ensures Valid()
      ensures level == 1 && lives == 3 && score == 0 && recyclablesCollected == 0 && recyclablesNeeded == 4
      ensures playerSpeed == 100 && jumpPower == 200 && currentLevelScore == 0
      ensures !isGameOver && !isLevelComplete && !goalActive && goal.None?
      ensures !isOnGround && currentPlatform.None? && jumpForgivenessFrames == 0
      ensures player == AtRest(Point(0.0, 0.0))
      ensures walls == [] && movers == [] && hazards == [] && recyclables == []
    {
      level := 1;
      lives := 3;
      score := 0;
      recyclablesCollected := 0;
      recyclablesNeeded := 4;
      currentLevelScore := 0;
      isGameOver := false;
      isLevelComplete := false;
      goalActive := false;
      goal := None;
      playerSpeed := 100;
      jumpPower := 200;
      player := AtRest(Point(0.0, 0.0));
      isOnGround := false;
      currentPlatform := None;
      jumpForgivenessFrames := 0;
      walls := [];
      movers := [];
      hazards := [];
      recyclables := [];
      activations := 0;
    }

    // ------------------------------------------------------------- input

    /** The A button: jump when on the ground or within the forgiveness window. */
    method Jump() returns (jumped: bool)
      requires Valid()
      modifies this`player, this`isOnGround, this`currentPlatform, this`jumpForgivenessFrames
      ensures Valid()
      ensures jumped <==> old(isOnGround) || old(jumpForgivenessFrames) > 0
      ensures jumped ==> player == old(player).(vy := -(jumpPower as real)) && !isOnGround
                         && currentPlatform.None? && jumpForgivenessFrames == 0
      ensures !jumped ==> player == old(player) && !isOnGround && currentPlatform == old(currentPlatform)
                          && jumpForgivenessFrames == 0
    {
      jumped := false;
      if isOnGround || jumpForgivenessFrames > 0 {
        player := player.(vy := -(jumpPower as real));
        isOnGround := false;
        currentPlatform := None;
        jumpForgivenessFrames := 0;
        jumped := true;
      }
    }

    // --------------------------------------------------------- per frame

    /** Reverse every moving platform that has reached one of its bounds. */
    method OscillatePlatforms()
      requires Valid()
      modifies this`movers
      ensures Valid()
      ensures movers == StepPlatforms(old(movers))
    {
      var i := 0;
      while i < |movers|
        invariant 0 <= i <= |movers| == |old(movers)|
        invariant forall k :: 0 <= k < i ==> movers[k] == PlatformStep(old(movers)[k])
        invariant forall k :: i <= k < |movers| ==> movers[k] == old(movers)[k]
        invariant Valid()
      {
        movers := movers[i := PlatformStep(movers[i])];
        i := i + 1;
      }
    }

    /** Reverse every moving hazard at a bound, then push it out of its avoid zone. */
    method OscillateHazards()
      requires Valid()
      modifies this`hazards
      ensures Valid()
      ensures hazards == StepHazards(old(hazards))
    {
      var i := 0;
      while i < |hazards|
        invariant 0 <= i <= |hazards| == |old(hazards)|
        invariant forall k :: 0 <= k < i ==> hazards[k] == HazardStep(old(hazards)[k])
        invariant forall k :: i <= k < |hazards| ==> hazards[k] == old(hazards)[k]
      {
        hazards := hazards[i := HazardStep(hazards[i])];
        i := i + 1;
      }
    }

    /**
     * Land the player on the first platform (walls, then moving platforms)
     * it overlaps from above; `overlapping[k]` is the host's pixel test
     * against the k-th platform of that enumeration.
     */
    method CheckPlatformCollisions(overlapping: seq<bool>)
      requires Valid()
      requires |overlapping| == |walls| + |movers|
      modifies this`player, this`isOnGround, this`currentPlatform, this`jumpForgivenessFrames
      ensures Valid()
      ensures isOnGround <==> exists k :: 0 <= k < |walls + movers| && Lands(old(player), (walls + movers)[k], overlapping[k])
      ensures isOnGround ==>
        && currentPlatform.Some?
        && var k := IndexOf(currentPlatform.value);
        && k < |walls + movers|
        && Lands(old(player), (walls + movers)[k], overlapping[k])
        && (forall j :: 0 <= j < k ==> !Lands(old(player), (walls + movers)[j], overlapping[j]))
        && player == Snap(old(player), (walls + movers)[k])
        && jumpForgivenessFrames == MaxJumpForgiveness
      ensures !isOnGround ==>
        && currentPlatform.None? && player == old(player)
        && jumpForgivenessFrames == (if old(isOnGround) then MaxJumpForgiveness else old(jumpForgivenessFrames))
    {
      var wasOnGround := isOnGround;
      var allPlatforms := walls + movers;
      var k := FindLanding(player, allPlatforms, overlapping);
      if k.Some? {
        player := Snap(player, allPlatforms[k.value]);
        isOnGround, currentPlatform := true, Some(RefAt(k.value));
        jumpForgivenessFrames := MaxJumpForgiveness;
      } else {
        isOnGround, currentPlatform := false, None;
        if wasOnGround {
          jumpForgivenessFrames := MaxJumpForgiveness;
        }
      }
    }

    /** A player standing on a moving platform is carried by a tenth of its velocity. */
    method UpdatePlayerOnMovingPlatform()
      requires Valid()
      modifies this`player
      ensures Valid()
      ensures isOnGround && currentPlatform.Some? && currentPlatform.value.MoverRef? ==>
        player == old(player).(x := old(player).x + movers[currentPlatform.value.i].vx / 10.0)
      ensures !(isOnGround && currentPlatform.Some? && currentPlatform.value.MoverRef?) ==> player == old(player)
    {
      if isOnGround && currentPlatform.Some? && currentPlatform.value.MoverRef? {
        player := player.(x := player.x + movers[currentPlatform.value.i].vx / 10.0);
      }
    }

    /**
     * One frame of the update callback; `overlapping` is the host's overlap
     * test of the player against walls then moving platforms.
     */
    method Tick(overlapping: seq<bool>)
      requires Valid()
      requires |overlapping| == |walls| + |movers|
      modifies this`movers, this`hazards, this`player, this`isOnGround, this`currentPlatform,
               this`jumpForgivenessFrames, this`lives, this`isGameOver
      ensures Valid()
      ensures walls == old(walls)
      ensures movers == StepPlatforms(old(movers))
      ensures hazards == StepHazards(old(hazards))
      ensures lives == old(lives) || (lives == old(lives) - 1 && !old(isGameOver))
      ensures old(isGameOver) ==> isGameOver
      ensures isGameOver ==> old(isGameOver) || lives == 0
    {
      OscillatePlatforms();
      OscillateHazards();
      CheckPlatformCollisions(overlapping);
      UpdatePlayerOnMovingPlatform();
      CheckPlayerBounds();
    }

    // ------------------------------------------------------------ damage

    /** Put the player back on the ground platform (or the fallback) at rest. */
    method ResetPlayer()
      modifies this`player, this`isOnGround, this`currentPlatform
      ensures player == AtRest(SpawnPoint(walls, RespawnFallback))
      ensures isOnGround && currentPlatform.None?
    {
      player := player.(vx := 0.0, vy := 0.0);
      var ground := FindGround(walls);
      if ground.Some? {
        player := player.(x := walls[ground.value].x, y := PlatformTop(walls[ground.value]) - Half(PlayerHeight));
      } else {
        player := player.(x := RespawnFallback.x, y := RespawnFallback.y);
      }
      isOnGround := true;
      currentPlatform := None;
    }

    /** Stop the game and the player. */
    method GameOver()
      modifies this`isGameOver, this`player
      ensures isGameOver
      ensures player == old(player).(vx := 0.0, vy := 0.0)
    {
      isGameOver := true;
      player := player.(vx := 0.0, vy := 0.0);
    }

    /** Lose a life, put the player back at the respawn point, and end the game at zero lives. */
    method LoseLife()
      requires Valid() && !isGameOver
      modifies this`lives, this`player, this`isOnGround, this`currentPlatform, this`isGameOver
      ensures Valid()
      ensures lives == old(lives) - 1
      ensures player == AtRest(SpawnPoint(walls, RespawnFallback)) && isOnGround && currentPlatform.None?
      ensures isGameOver <==> lives == 0
    {
      lives := lives - 1;
      ResetPlayer();
      if lives <= 0 {
        GameOver();
      }
    }

    /** Losing a life by leaving the playfield; ignored once the game is over. */
    method TakeFallDamage()
      requires Valid()
      modifies this`lives, this`player, this`isOnGround, this`currentPlatform, this`isGameOver
      ensures Valid()
      ensures old(isGameOver) ==>
        && isGameOver && lives == old(lives) && player == old(player)
        && isOnGround == old(isOnGround) && currentPlatform == old(currentPlatform)
      ensures !old(isGameOver) ==>
        && lives == old(lives) - 1
        && player == AtRest(SpawnPoint(walls, RespawnFallback)) && isOnGround && currentPlatform.None?
        && (isGameOver <==> lives == 0)
    {
      if isGameOver {
        return;
      }
      LoseLife();
    }

    /**
     * Below the screen or beyond either side costs a life. The two checks
     * run one after the other, but the respawn point is inside the
     * playfield, so one call costs at most one life.
     */
    method CheckPlayerBounds()
      requires Valid()
      modifies this`lives, this`player, this`isOnGround, this`currentPlatform, this`isGameOver
      ensures Valid()
      ensures old(isGameOver) || !OutOfBounds(old(player)) ==>
        && lives == old(lives) && player == old(player) && isGameOver == old(isGameOver)
        && isOnGround == old(isOnGround) && currentPlatform == old(currentPlatform)
      ensures !old(isGameOver) && OutOfBounds(old(player)) ==>
        && lives == old(lives) - 1
        && player == AtRest(SpawnPoint(walls, RespawnFallback)) && isOnGround && currentPlatform.None?
        && (isGameOver <==> lives == 0)
    {
      GroundFirstSpawnsInBounds(walls);
      if player.y > 130.0 {
        TakeFallDamage();
      }
      if player.x < -10.0 || player.x > 170.0 {
        TakeFallDamage();
      }
    }

    /** Splice hazard `i` out of the list. */
    method RemoveHazard(i: nat)
      requires i < |hazards|
      modifies this`hazards
      ensures hazards == Splice(old(hazards), i)
    {
      hazards := Splice(hazards, i);
    }

    /**
     * Move hazard `i` to a drawn free pool position, with fresh bounds and
     * velocity when it moves; remove it when no position is free.
     */
    method RelocateHazard(i: nat, pick: nat, speed: int, flip: bool)
      requires i < |hazards| && hazards[i].canRelocate
      requires |RelocationTargets(recyclables, hazards, i)| > 0 ==> pick < |RelocationTargets(recyclables, hazards, i)|
      modifies this`hazards
      ensures hazards == AfterHit(old(hazards), i, recyclables, pick, speed, flip)
    {
      var newPosition := FindNewHazardPosition(hazards, i, recyclables, pick);
      if newPosition.Some? {
        hazards := hazards[i := Relocated(hazards[i], newPosition.value, speed, flip)];
      } else {
        RemoveHazard(i);
      }
    }

    /**
     * Hazard `i` hits the player: a life is lost, the hazard is relocated
     * (or removed), the player respawns, and the game ends at zero lives.
     * `pick`, `speed` (25..40) and `flip` are the relocation's draws.
     */
    method TakeDamage(i: nat, pick: nat, speed: int, flip: bool)
      requires Valid() && !isGameOver
      requires i < |hazards|
      requires |RelocationTargets(recyclables, hazards, i)| > 0 ==> pick < |RelocationTargets(recyclables, hazards, i)|
      requires 25 <= speed <= 40
      modifies this`lives, this`player, this`isOnGround, this`currentPlatform, this`isGameOver, this`hazards
      ensures Valid()
      ensures lives == old(lives) - 1
      ensures hazards == AfterHit(old(hazards), i, recyclables, pick, speed, flip)
      ensures player == AtRest(SpawnPoint(walls, RespawnFallback)) && isOnGround && currentPlatform.None?
      ensures isGameOver <==> lives == 0
    {
      // The hazard list and the life count are independent fields, so the
      // life is taken after the hazard is dealt with.
      if hazards[i].canRelocate {
        RelocateHazard(i, pick, speed, flip);
      } else {
        RemoveHazard(i);
      }
      LoseLife();
    }

    /** The hazard overlap callback: ignored once the game is over. */
    method HazardHit(i: nat, pick: nat, speed: int, flip: bool)
      requires Valid()
      requires i < |hazards|
      requires |RelocationTargets(recyclables, hazards, i)| > 0 ==> pick < |RelocationTargets(recyclables, hazards, i)|
      requires 25 <= speed <= 40
      modifies this`lives, this`player, this`isOnGround, this`currentPlatform, this`isGameOver, this`hazards
      ensures Valid()
      ensures old(isGameOver) ==>
        && isGameOver && lives == old(lives) && hazards == old(hazards) && player == old(player)
        && isOnGround == old(isOnGround) && currentPlatform == old(currentPlatform)
      ensures !old(isGameOver) ==>
        && lives == old(lives) - 1
        && hazards == AfterHit(old(hazards), i, recyclables, pick, speed, flip)
        && player == AtRest(SpawnPoint(walls, RespawnFallback)) && isOnGround && currentPlatform.None?
        && (isGameOver <==> lives == 0)
    {
      if isGameOver {
        return;
      }
      TakeDamage(i, pick, speed, flip);
    }

    // -------------------------------------------------- collection, goal

    method UpdateScore()
      modifies this`score
      ensures score == 10 * recyclablesCollected
    {
      score := recyclablesCollected * 10;
    }

    /** Create the goal bin on the chosen wall (or the screen centre); it starts inactive. */
    method CreateGoal()
      modifies this`goal, this`goalActive
      ensures GoalPlaced(walls, goal)
      ensures !goalActive
    {
      var best := ChooseGoalPlatform(walls);
      goal := Some(GoalPoint(walls, best));
      goalActive := false;
      assert GoalChoice(walls, best) && goal == Some(GoalPoint(walls, best));
    }

    /** Create the goal and mark it active. */
    method ActivateGoal()
      modifies this`goal, this`goalActive, this`activations
      ensures GoalPlaced(walls, goal)
      ensures goalActive
      ensures activations == old(activations) + 1
    {
      CreateGoal();
      goalActive := true;
      activations := activations + 1;
    }

    /** Activate the goal the first time enough recyclables have been collected. */
    method UpdateGoalStatus()
      modifies this`goal, this`goalActive, this`activations
      ensures old(recyclablesCollected >= recyclablesNeeded && !goalActive) ==>
        && goalActive && activations == old(activations) + 1
        && GoalPlaced(walls, goal)
      ensures !old(recyclablesCollected >= recyclablesNeeded && !goalActive) ==>
        goalActive == old(goalActive) && goal == old(goal) && activations == old(activations)
    {
      if recyclablesCollected >= recyclablesNeeded && !goalActive {
        goalActive := true;
        ActivateGoal();
      }
    }

    /**
     * The recyclable overlap callback for item `i`: count it, update the
     * score, drop it from the list, and activate the goal on reaching the
     * target. It is not guarded by the game-over flag.
     */
    method Collect(i: nat)
      requires Valid()
      requires i < |recyclables|
      modifies this`recyclablesCollected, this`score, this`recyclables, this`goal, this`goalActive, this`activations
      ensures Valid()
      ensures recyclablesCollected == old(recyclablesCollected) + 1
      ensures score == old(score) + 10
      ensures recyclables == Splice(old(recyclables), i)
      ensures recyclablesCollected + |recyclables| == old(recyclablesCollected + |recyclables|)
      ensures old(goalActive) ==> goal == old(goal)
      ensures !old(goalActive) && goalActive ==>
        GoalPlaced(walls, goal)
    {
      recyclablesCollected := recyclablesCollected + 1;
      UpdateScore();
      recyclables := Splice(recyclables, i);
      UpdateGoalStatus();
    }

    /** The goal overlap callback. */
    method GoalReached() returns (r: GoalResponse)
      requires Valid()
      modifies this`isLevelComplete, this`isGameOver, this`currentLevelScore
      ensures Valid()
      ensures old(isGameOver || isLevelComplete) ==>
        r == Ignored && isGameOver == old(isGameOver) && isLevelComplete == old(isLevelComplete)
        && currentLevelScore == old(currentLevelScore)
      ensures !old(isGameOver || isLevelComplete) && goalActive ==>
        r == Completed && isLevelComplete && isGameOver
        && currentLevelScore == LevelScore(score, lives, |hazards|, level)
      ensures !old(isGameOver || isLevelComplete) && !goalActive ==>
        r == NeedMore(recyclablesNeeded - recyclablesCollected) && r.missing >= 1
        && !isGameOver && !isLevelComplete && currentLevelScore == old(currentLevelScore)
    {
      if isGameOver || isLevelComplete {
        return Ignored;
      }
      if goalActive {
        CompleteLevel();
        r := Completed;
      } else {
        r := NeedMore(recyclablesNeeded - recyclablesCollected);
      }
    }

    // ------------------------------------------------------ level flow

    /** End the level: freeze play and compute the level total. */
    method CompleteLevel()
      requires Valid()
      modifies this`isLevelComplete, this`isGameOver, this`currentLevelScore
      ensures Valid()
      ensures old(isLevelComplete || isGameOver) ==>
        isLevelComplete == old(isLevelComplete) && isGameOver == old(isGameOver)
        && currentLevelScore == old(currentLevelScore)
      ensures !old(isLevelComplete || isGameOver) ==>
        isLevelComplete && isGameOver && currentLevelScore == LevelScore(score, lives, |hazards|, level)
    {
      if isLevelComplete || isGameOver {
        return;
      }
      isLevelComplete := true;
      isGameOver := true;
      var livesBonus := lives * 50;
      var hazardBonus := if |hazards| == 0 then 100 else 0;
      var levelBonus := level * 25;
      currentLevelScore := score + livesBonus + hazardBonus + levelBonus;
    }

    /** Destroy the level's recyclables, hazards and goal; platforms stay. */
    method ClearLevel()
      modifies this`recyclables, this`hazards, this`goal
      ensures recyclables == [] && hazards == [] && goal.None?
    {
      recyclables := [];
      hazards := [];
      goal := None;
    }

    /** Advance to the next level with harder parameters and build it. */
    method NextLevel(d: LevelDraws)
      requires Valid() && lives >= 1
      requires LevelDrawsOk(d, level + 1, 5 + level, [])
      modifies this
      ensures Valid()
      ensures level == old(level) + 1 && recyclablesNeeded == 4 + level
      ensures playerSpeed == old(playerSpeed) + 10 && jumpPower == old(jumpPower) + 10
      ensures recyclablesCollected == 0 && score == 0 && currentLevelScore == 0 && lives == old(lives)
      ensures !goalActive && goal.None? && !isLevelComplete && !isGameOver
      ensures walls == old(walls) + LayoutWalls + Boundaries
      ensures movers == old(movers) + LayoutMovers(d.platformSpeeds, d.platformFlips)
      ensures player == AtRest(SpawnPoint(walls, StartFallback)) && isOnGround && currentPlatform.None?
      ensures jumpForgivenessFrames == old(jumpForgivenessFrames)
      ensures HazardsPlaced(hazards, [], d.movingFlags, d.hazardCount, d.hazardPicks, d.hazardDraws)
      ensures ItemsPlaced(recyclables, walls + movers, recyclablesNeeded, d.itemPlatforms, d.itemAttempts, hazards)
    {
      ResetLevelState();
      CreateEnvironment(d);
    }

    /** The part of a level change before the build: counters, difficulty, flags, and the old level's objects. */
    method ResetLevelState()
      requires Valid() && lives >= 1
      modifies this`level, this`recyclablesNeeded, this`playerSpeed, this`jumpPower, this`recyclablesCollected,
               this`score, this`goalActive, this`activations, this`currentLevelScore, this`isLevelComplete,
               this`isGameOver, this`recyclables, this`hazards, this`goal
      ensures level == old(level) + 1 && recyclablesNeeded == 4 + level
      ensures playerSpeed == old(playerSpeed) + 10 && jumpPower == old(jumpPower) + 10
      ensures recyclablesCollected == 0 && score == 0 && currentLevelScore == 0
      ensures !goalActive && goal.None? && !isLevelComplete && !isGameOver
      ensures recyclables == [] && hazards == [] && activations == 0
      ensures Valid()
    {
      RaiseDifficulty();
      ResetCounters();
      ClearLevel();
    }

    method RaiseDifficulty()
      modifies this`level, this`recyclablesNeeded, this`playerSpeed, this`jumpPower
      ensures level == old(level) + 1 && recyclablesNeeded == 4 + level
      ensures playerSpeed == old(playerSpeed) + 10 && jumpPower == old(jumpPower) + 10
    {
      level := level + 1;
      recyclablesNeeded := 4 + level;
      playerSpeed := playerSpeed + 10;
      jumpPower := jumpPower + 10;
    }

    method ResetCounters()
      modifies this`recyclablesCollected, this`score, this`goalActive, this`activations,
               this`currentLevelScore, this`isLevelComplete, this`isGameOver
      ensures recyclablesCollected == 0 && score == 0 && currentLevelScore == 0
      ensures !goalActive && !isLevelComplete && !isGameOver && activations == 0
    {
      recyclablesCollected := 0;
      score := 0;
      goalActive := false;
      activations := 0;
      currentLevelScore := 0;
      isLevelComplete := false;
      isGameOver := false;
    }

    /** The A press that follows a level's completion message. */
    method Acknowledge(d: LevelDraws) returns (advanced: bool)
      requires Valid()
      requires isLevelComplete ==> LevelDrawsOk(d, level + 1, 5 + level, [])
      modifies this
      ensures Valid()
      ensures advanced <==> old(isLevelComplete)
      ensures !advanced ==> unchanged(this)
      ensures advanced ==> level == old(level) + 1 && lives == old(lives) && !isGameOver && !isLevelComplete
    {
      advanced := false;
      if isLevelComplete {
        isLevelComplete := false;
        isGameOver := false;
        NextLevel(d);
        advanced := true;
      }
    }

    // ------------------------------------------------------ level build

    /** The ground, the two low walls and the three moving platforms. */
    method CreatePlatforms(speeds: seq<int>, flips: seq<bool>)
      requires PlatformDrawsOk(speeds, flips)
      modifies this`walls, this`movers
      ensures walls == old(walls) + LayoutWalls
      ensures movers == old(movers) + LayoutMovers(speeds, flips)
    {
      walls := walls + LayoutWalls;
      movers := movers + LayoutMovers(speeds, flips);
    }

    /** The two invisible walls just beyond the screen's sides. */
    method CreateBoundaries()
      modifies this`walls
      ensures walls == old(walls) + Boundaries
    {
      walls := walls + Boundaries;
    }

    /** Stand a fresh player at rest on the ground platform (or the start fallback). */
    method CreatePlayer()
      modifies this`player, this`isOnGround, this`currentPlatform
      ensures player == AtRest(SpawnPoint(walls, StartFallback))
      ensures isOnGround && currentPlatform.None?
    {
      player := AtRest(Point(0.0, 0.0));
      var ground := FindGround(walls);
      if ground.Some? {
        player := player.(x := walls[ground.value].x, y := PlatformTop(walls[ground.value]) - Half(PlayerHeight));
      } else {
        player := player.(x := StartFallback.x, y := StartFallback.y);
      }
      isOnGround := true;
      currentPlatform := None;
    }

    /**
     * Replace the hazards with the ones created at spots drawn from the
     * pool positions that avoid the safe zone and the recyclables' 15-boxes.
     */
    method CreateHazards(flags: seq<bool>, count: int, picks: seq<nat>, draws: seq<HazardDraw>)
      requires HazardDrawsOk(level, recyclables, flags, count, picks, draws)
      modifies this`hazards
      ensures HazardsPlaced(hazards, recyclables, flags, count, picks, draws)
      ensures unchanged(this`level, this`recyclablesNeeded, this`playerSpeed, this`jumpPower, this`recyclablesCollected, this`score, this`currentLevelScore, this`lives, this`goalActive, this`goal, this`isLevelComplete, this`isGameOver)
    {
      hazards := [];
      var zones := ZonesAround(recyclables, RecyclableMargin);
      var valid := FilterStartSpots(Spots(flags), zones);
      var numberOfHazards := MinCount(count, |valid|);
      assert MinCount(numberOfHazards, |valid|) == numberOfHazards;
      var selected := SelectPositions(valid, numberOfHazards, picks);
      var i := 0;
      while i < |selected|
        invariant 0 <= i <= |selected|
        invariant |hazards| == i
        invariant forall k :: 0 <= k < i ==> hazards[k] == NewHazard(selected[k], draws[k])
      {
        hazards := hazards + [NewHazard(selected[i], draws[i])];
        i := i + 1;
      }
      HazardPlacementSound(level, recyclables, flags, count, picks, draws);
    }

    /**
     * Replace the recyclables: for each of the needed items, a drawn
     * platform among those eligible, then a position on it clear of the
     * hazards if one of the ten tries is.
     */
    method CreateRecyclables(choices: seq<nat>, attempts: seq<seq<real>>, fallbacks: seq<real>)
      requires ItemDrawsOk(recyclablesNeeded, choices, attempts, fallbacks)
      modifies this`recyclables
      ensures ItemsPlaced(recyclables, walls + movers, recyclablesNeeded, choices, attempts, hazards)
      ensures unchanged(this`level, this`recyclablesNeeded, this`playerSpeed, this`jumpPower, this`recyclablesCollected, this`score, this`currentLevelScore, this`lives, this`goalActive, this`goal, this`isLevelComplete, this`isGameOver)
    {
      recyclables := [];
      var platforms, hs := walls + movers, hazards;
      var valid := FilterItemPlatforms(platforms);
      var i := 0;
      while i < recyclablesNeeded
        invariant 0 <= i <= Max0(recyclablesNeeded)
        invariant valid == [] ==> recyclables == []
        invariant valid != [] ==> |recyclables| == i
        invariant valid != [] ==> forall j :: 0 <= j < i ==>
          && ItemPlatform(ChosenPlatform(valid, choices[j]))
          && AttemptDraws(attempts[j])
          && ItemOk(recyclables[j], ChosenPlatform(valid, choices[j]), attempts[j], hs)
      {
        if valid != [] {
          var plat := valid[choices[i] % |valid|];
          var pos := PlaceItem(plat, hs, attempts[i], fallbacks[i]);
          recyclables := recyclables + [pos];
        }
        i := i + 1;
      }
    }

    /** The first half of a level build: platforms, boundaries, then the player standing on the ground. */
    method CreateTerrain(speeds: seq<int>, flips: seq<bool>)
      requires Valid()
      requires PlatformDrawsOk(speeds, flips)
      modifies this`walls, this`movers, this`player, this`isOnGround, this`currentPlatform
      ensures Valid()
      ensures walls == old(walls) + LayoutWalls + Boundaries
      ensures movers == old(movers) + LayoutMovers(speeds, flips)
      ensures player == AtRest(SpawnPoint(walls, StartFallback)) && isOnGround && currentPlatform.None?
      ensures unchanged(this`level, this`recyclablesNeeded, this`playerSpeed, this`jumpPower, this`recyclablesCollected, this`score, this`currentLevelScore, this`lives, this`goalActive, this`goal, this`isLevelComplete, this`isGameOver)
    {
      BuildKeepsGroundFirst(walls);
      CreatePlatforms(speeds, flips);
      CreateBoundaries();
      CreatePlayer();
    }

    /** Build a level: platforms, boundaries, player, hazards, recyclables. */
    method CreateEnvironment(d: LevelDraws)
      requires Valid()
      requires LevelDrawsOk(d, level, recyclablesNeeded, recyclables)
      modifies this`walls, this`movers, this`player, this`isOnGround, this`currentPlatform, this`hazards, this`recyclables
      ensures Valid()
      ensures walls == old(walls) + LayoutWalls + Boundaries
      ensures movers == old(movers) + LayoutMovers(d.platformSpeeds, d.platformFlips)
      ensures player == AtRest(SpawnPoint(walls, StartFallback)) && isOnGround && currentPlatform.None?
      ensures unchanged(this`level, this`recyclablesNeeded, this`playerSpeed, this`jumpPower, this`recyclablesCollected, this`score, this`currentLevelScore, this`lives, this`goalActive, this`goal, this`isLevelComplete, this`isGameOver)
      ensures HazardsPlaced(hazards, old(recyclables), d.movingFlags, d.hazardCount, d.hazardPicks, d.hazardDraws)
      ensures ItemsPlaced(recyclables, walls + movers, recyclablesNeeded, d.itemPlatforms, d.itemAttempts, hazards)
    {
      CreateTerrain(d.platformSpeeds, d.platformFlips);
      CreateHazards(d.movingFlags, d.hazardCount, d.hazardPicks, d.hazardDraws);
      CreateRecyclables(d.itemPlatforms, d.itemAttempts, d.itemFallbacks);
    }
  }

  /** One hazard per selected spot, each with its own draws. */
  function NewHazards(spots: seq<Spot>, draws: seq<HazardDraw>): (hs: seq<Hazard>)
    requires |spots| <= |draws|
    ensures |hs| == |spots|
    ensures forall k :: 0 <= k < |hs| ==> hs[k] == NewHazard(spots[k], draws[k])
  {
    if spots == [] then [] else NewHazards(spots[..|spots| - 1], draws) + [NewHazard(spots[|spots| - 1], draws[|spots| - 1])]
  }

  function Max0(n: int): nat {
    if n < 0 then 0 else n
  }
}
