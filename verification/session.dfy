/**
  The game session: the one object that owns the canvas size, the player,
  the platform, coin and obstacle lists, the counters, the running flag and
  the set of held keys, with one method per callback of the game. Each
  method is proved to compute the per-frame rules of the other modules.

  The running flag gives three phases: idle (before the first start) and
  stopped (after a game over) both have the flag clear and behave alike;
  running has it set.
 */
module Session {
  import opened Entities
  import opened Physics
  import opened Coins
  import opened Obstacles
  import opened Controls
  import opened Setup

  /** Draws for the obstacles' respawn positions, one per obstacle. */
  predicate RespawnDraws(draws: seq<real>) {
    |draws| == ObstacleCount && forall i :: 0 <= i < |draws| ==> IsDraw(draws[i])
  }

  class Game {
    var canvasWidth: nat
    var canvasHeight: nat
    var gameRunning: bool
    var score: nat
    var coins: nat
    var highScore: nat
    var player: Player
    var platforms: seq<Platform>
    var coinsList: seq<Coin>
    var obstacles: seq<Obstacle>
    var keys: map<string, bool>

    /**
      The session invariant: the list sizes a start creates, the entity
      shapes that never change, the coin counter equal to the number of
      collected coins, and each coin worth PointsPerCoin of the score.
     */
    ghost predicate Valid()
      reads this
    {
      && |platforms| == PlatformCount
      && |coinsList| == CoinCount
      && |obstacles| == ObstacleCount
      && (forall i :: 0 <= i < |platforms| ==> platforms[i].height == PlatformHeight)
      && (forall i :: 0 <= i < |coinsList| ==>
            coinsList[i].width == CoinSize && coinsList[i].height == CoinSize)
      && (forall i :: 0 <= i < |obstacles| ==>
            obstacles[i].width == ObstacleSize && obstacles[i].height == ObstacleSize &&
            2.0 <= obstacles[i].speed < 5.0)
      && coins == CollectedCount(coinsList)
      && score >= PointsPerCoin * coins
    }

    /**
      Page load: size the canvas, read the stored high score, set up the
      player record and populate the lists once for the idle preview.
     */
    constructor (clientWidth: nat, storedHighScore: nat,
                 platformDraws: seq<(real, real)>, coinDraws: seq<(real, real)>,
                 obstacleDraws: seq<(real, real, real)>)
      requires PlatformDraws(platformDraws) && CoinDraws(coinDraws) && ObstacleDraws(obstacleDraws)
      ensures Valid()
      ensures canvasWidth == clientWidth && canvasHeight == CanvasHeight(clientWidth)
      ensures !gameRunning && score == 0 && coins == 0 && highScore == storedHighScore
      ensures keys == map[]
      ensures player == StartPlayer(canvasWidth, canvasHeight)
      ensures platforms == StartPlatforms(platformDraws, canvasWidth, canvasHeight)
      ensures coinsList == StartCoins(coinDraws, canvasWidth, canvasHeight)
      ensures obstacles == StartObstacles(obstacleDraws, canvasWidth, canvasHeight)
    {
      gameRunning := false;
      score := 0;
      coins := 0;
      highScore := storedHighScore;
      canvasWidth := clientWidth;
      canvasHeight := CanvasHeight(clientWidth);
      player := Player(clientWidth as real / 2.0, CanvasHeight(clientWidth) as real - 100.0, 0.0, false);
      platforms := [];
      coinsList := [];
      obstacles := [];
      keys := map[];
      new;
      InitGame(platformDraws, coinDraws, obstacleDraws);
    }

    /** A resize of the container: the canvas takes its width and the derived height. */
    method Resize(clientWidth: nat)
      requires Valid()
      modifies this`canvasWidth, this`canvasHeight
      ensures Valid()
      ensures canvasWidth == clientWidth && canvasHeight == CanvasHeight(clientWidth)
    {
      canvasWidth := clientWidth;
      canvasHeight := CanvasHeight(clientWidth);
    }

    /**
      (Re)initialise a run: clear and refill the three lists, put the player
      back at the start position at rest, zero the score and the coins.
     */
    method InitGame(platformDraws: seq<(real, real)>, coinDraws: seq<(real, real)>,
                    obstacleDraws: seq<(real, real, real)>)
      requires PlatformDraws(platformDraws) && CoinDraws(coinDraws) && ObstacleDraws(obstacleDraws)
      modifies this`platforms, this`coinsList, this`obstacles, this`player, this`score, this`coins
      ensures Valid()
      ensures platforms == StartPlatforms(platformDraws, canvasWidth, canvasHeight)
      ensures coinsList == StartCoins(coinDraws, canvasWidth, canvasHeight)
      ensures obstacles == StartObstacles(obstacleDraws, canvasWidth, canvasHeight)
      ensures player == StartPlayer(canvasWidth, canvasHeight)
      ensures score == 0 && coins == 0
    {
      platforms := [];
      coinsList := [];
      obstacles := [];

      ghost var wantPlatforms := StartPlatforms(platformDraws, canvasWidth, canvasHeight);
      for i := 0 to PlatformCount
        invariant platforms == wantPlatforms[..i]
        invariant coinsList == [] && obstacles == []
      {
        platforms := platforms + [NewPlatform(i, platformDraws[i].0, platformDraws[i].1, canvasWidth, canvasHeight)];
      }

      ghost var wantCoins := StartCoins(coinDraws, canvasWidth, canvasHeight);
      for i := 0 to CoinCount
        invariant coinsList == wantCoins[..i]
        invariant platforms == wantPlatforms && obstacles == []
      {
        coinsList := coinsList + [NewCoin(coinDraws[i].0, coinDraws[i].1, canvasWidth, canvasHeight)];
      }

      ghost var wantObstacles := StartObstacles(obstacleDraws, canvasWidth, canvasHeight);
      for i := 0 to ObstacleCount
        invariant obstacles == wantObstacles[..i]
        invariant platforms == wantPlatforms && coinsList == wantCoins
      {
        obstacles := obstacles + [NewObstacle(obstacleDraws[i].0, obstacleDraws[i].1, obstacleDraws[i].2,
                                              canvasWidth, canvasHeight)];
      }
      assert platforms == wantPlatforms && coinsList == wantCoins && obstacles == wantObstacles;

      player := player.(x := canvasWidth as real / 2.0, y := canvasHeight as real - 100.0,
                        isJumping := false, velocityY := 0.0);

      score := 0;
      coins := 0;
    }

    /**
      The player update of a frame: gravity, the platform pass in list
      order, the floor, the screen edges. Returns whether a platform or the
      floor stopped the fall.
     */
    method UpdatePlayer() returns (onPlatform: bool)
      modifies this`player
      ensures Contact(player, onPlatform) == PlayerStep(old(player), platforms, canvasWidth, canvasHeight)
      ensures player.y <= canvasHeight as real - PlayerHeight
      ensures canvasWidth as real >= PlayerWidth ==>
                PlayerWidth / 2.0 <= player.x <= canvasWidth as real - PlayerWidth / 2.0
    {
      player := player.(velocityY := player.velocityY + Gravity);
      player := player.(y := player.y + player.velocityY);
      ghost var fallen := player;
      assert fallen == Fall(old(player));

      onPlatform := false;
      for i := 0 to |platforms|
        invariant Contact(player, onPlatform) == Settle(fallen, platforms[..i])
      {
        var platform := platforms[i];
        assert platforms[..i + 1][..i] == platforms[..i];
        if OnTopOf(player, platform) {
          player := player.(y := platform.y - PlayerHeight, velocityY := 0.0, isJumping := false);
          onPlatform := true;
        }
      }
      assert platforms[..|platforms|] == platforms;

      if player.y > canvasHeight as real - PlayerHeight {
        player := player.(y := canvasHeight as real - PlayerHeight, velocityY := 0.0, isJumping := false);
        onPlatform := true;
      }

      if player.x - PlayerWidth / 2.0 < 0.0 {
        player := player.(x := PlayerWidth / 2.0);
      }
      if player.x + PlayerWidth / 2.0 > canvasWidth as real {
        player := player.(x := canvasWidth as real - PlayerWidth / 2.0);
      }
    }

    /**
      The coin pass of a frame: every uncollected coin the player touches is
      collected, and each one adds a coin and PointsPerCoin points.
     */
    method UpdateCoins()
      requires Valid()
      modifies this`coinsList, this`coins, this`score
      ensures Valid()
      ensures |coinsList| == |old(coinsList)|
      ensures forall i :: 0 <= i < |coinsList| ==> coinsList[i] == CollectCoin(player, old(coinsList)[i])
      ensures NeverUncollects(old(coinsList), coinsList)
      ensures coins == old(coins) + NewlyCollected(old(coinsList), coinsList)
      ensures score == old(score) + PointsPerCoin * NewlyCollected(old(coinsList), coinsList)
    {
      ghost var before := coinsList;
      for i := 0 to |coinsList|
        invariant |coinsList| == |before|
        invariant forall j :: 0 <= j < i ==> coinsList[j] == CollectCoin(player, before[j])
        invariant forall j :: i <= j < |coinsList| ==> coinsList[j] == before[j]
        invariant coins == old(coins) + NewlyCollected(before[..i], coinsList[..i])
        invariant score == old(score) + PointsPerCoin * NewlyCollected(before[..i], coinsList[..i])
      {
        ghost var prefix := coinsList[..i];
        var coin := coinsList[i];
        if !coin.collected && Touches(player, coin) {
          coinsList := coinsList[i := coin.(collected := true)];
          coins := coins + 1;
          score := score + PointsPerCoin;
        }
        assert before[..i + 1][..i] == before[..i];
        assert coinsList[..i + 1][..i] == prefix;
      }
      assert before[..|before|] == before && coinsList[..|coinsList|] == coinsList;
      CollectedCountGrows(before, coinsList);
    }

    /**
      The obstacle pass of a frame: each obstacle falls (wrapping back to the
      top past the bottom) and, if it then hits the player, the game is over.
      Later obstacles still move after a hit.
     */
    method UpdateObstacles(respawnDraws: seq<real>)
      requires Valid() && RespawnDraws(respawnDraws)
      modifies this`obstacles, this`gameRunning, this`highScore
      ensures Valid()
      ensures |obstacles| == |old(obstacles)|
      ensures forall i :: 0 <= i < |obstacles| ==>
                obstacles[i] == MoveObstacle(old(obstacles)[i], respawnDraws[i], canvasWidth, canvasHeight)
      ensures gameRunning == (old(gameRunning) && !AnyHit(player, obstacles))
      ensures highScore == if AnyHit(player, obstacles) then KeptHighScore(old(highScore), score)
                           else old(highScore)
    {
      ghost var before := obstacles;
      for i := 0 to |obstacles|
        invariant |obstacles| == |before|
        invariant forall j :: 0 <= j < i ==>
                    obstacles[j] == MoveObstacle(before[j], respawnDraws[j], canvasWidth, canvasHeight)
        invariant forall j :: i <= j < |obstacles| ==> obstacles[j] == before[j]
        invariant gameRunning == (old(gameRunning) && !AnyHit(player, obstacles[..i]))
        invariant highScore == if AnyHit(player, obstacles[..i]) then KeptHighScore(old(highScore), score)
                               else old(highScore)
      {
        var obstacle := obstacles[i];
        obstacle := obstacle.(y := obstacle.y + obstacle.speed);
        if obstacle.y > canvasHeight as real {
          obstacle := obstacle.(y := RespawnY, x := Scaled(respawnDraws[i], canvasWidth as real));
        }
        obstacles := obstacles[i := obstacle];
        assert obstacles[..i + 1] == obstacles[..i] + [obstacle];
        if Hits(player, obstacle) {
          GameOver();
        }
        AnyHitExtend(player, obstacles[..i], obstacle);
      }
      assert obstacles[..|obstacles|] == obstacles;
    }

    /** Game over: stop the run and keep the larger of the high score and the score. */
    method GameOver()
      modifies this`gameRunning, this`highScore
      ensures !gameRunning
      ensures highScore == KeptHighScore(old(highScore), score)
    {
      gameRunning := false;
      if score > highScore {
        highScore := score;
      }
    }

    /**
      One animation frame. With the flag clear nothing changes; otherwise the
      player, coin and obstacle updates run in that order and the score gains
      one survival point, after any game over has already recorded the high
      score, so that point is never part of it.
     */
    method GameLoop(respawnDraws: seq<real>)
      requires Valid() && RespawnDraws(respawnDraws)
      modifies this`player, this`coinsList, this`coins, this`score, this`obstacles, this`gameRunning, this`highScore
      ensures Valid()
      ensures !old(gameRunning) ==> unchanged(this)
      ensures old(gameRunning) ==>
                && player == PlayerStep(old(player), platforms, canvasWidth, canvasHeight).player
                && (forall i :: 0 <= i < |coinsList| ==> coinsList[i] == CollectCoin(player, old(coinsList)[i]))
                && (forall i :: 0 <= i < |obstacles| ==>
                      obstacles[i] == MoveObstacle(old(obstacles)[i], respawnDraws[i], canvasWidth, canvasHeight))
                && coins == old(coins) + NewlyCollected(old(coinsList), coinsList)
                && score == old(score) + PointsPerCoin * NewlyCollected(old(coinsList), coinsList) + 1
                && gameRunning == !AnyHit(player, obstacles)
                && highScore == if gameRunning then old(highScore) else KeptHighScore(old(highScore), score - 1)
      ensures score >= old(score)
      ensures NeverUncollects(old(coinsList), coinsList)
    {
      if !gameRunning {
        return;
      }
      var _ := UpdatePlayer();
      UpdateCoins();
      UpdateObstacles(respawnDraws);
      score := score + 1;
    }

    /** The start button: only when no run is going, re-initialise and run a first frame. */
    method Start(platformDraws: seq<(real, real)>, coinDraws: seq<(real, real)>,
                 obstacleDraws: seq<(real, real, real)>, respawnDraws: seq<real>)
      requires Valid()
      requires PlatformDraws(platformDraws) && CoinDraws(coinDraws) && ObstacleDraws(obstacleDraws)
      requires RespawnDraws(respawnDraws)
      modifies this`platforms, this`player, this`coinsList, this`coins, this`score, this`obstacles,
               this`gameRunning, this`highScore
      ensures Valid()
      ensures old(gameRunning) ==> unchanged(this)
      ensures !old(gameRunning) ==> FirstFrameOfRun(platformDraws, coinDraws, obstacleDraws, respawnDraws, old(highScore))
    {
      if !gameRunning {
        InitGame(platformDraws, coinDraws, obstacleDraws);
        gameRunning := true;
        GameLoop(respawnDraws);
      }
    }

    /** The reset button: re-initialise and run a first frame, whether or not a run is going. */
    method Reset(platformDraws: seq<(real, real)>, coinDraws: seq<(real, real)>,
                 obstacleDraws: seq<(real, real, real)>, respawnDraws: seq<real>)
      requires Valid()
      requires PlatformDraws(platformDraws) && CoinDraws(coinDraws) && ObstacleDraws(obstacleDraws)
      requires RespawnDraws(respawnDraws)
      modifies this`platforms, this`player, this`coinsList, this`coins, this`score, this`obstacles,
               this`gameRunning, this`highScore
      ensures Valid()
      ensures FirstFrameOfRun(platformDraws, coinDraws, obstacleDraws, respawnDraws, old(highScore))
    {
      InitGame(platformDraws, coinDraws, obstacleDraws);
      gameRunning := true;
      GameLoop(respawnDraws);
    }

    /**
      The state after a fresh start and its first frame: fresh platforms, the
      start player after one update, the fresh coins after one pickup pass,
      the fresh obstacles after one move, a score of one point plus the coin
      bonus, and a game over exactly when an obstacle hit the player.
     */
    ghost predicate FirstFrameOfRun(platformDraws: seq<(real, real)>, coinDraws: seq<(real, real)>,
                                    obstacleDraws: seq<(real, real, real)>, respawnDraws: seq<real>,
                                    previousHighScore: nat)
      requires PlatformDraws(platformDraws) && CoinDraws(coinDraws) && ObstacleDraws(obstacleDraws)
      requires RespawnDraws(respawnDraws)
      reads this
    {
      var startCoins := StartCoins(coinDraws, canvasWidth, canvasHeight);
      var startObstacles := StartObstacles(obstacleDraws, canvasWidth, canvasHeight);
      && platforms == StartPlatforms(platformDraws, canvasWidth, canvasHeight)
      && player == PlayerStep(StartPlayer(canvasWidth, canvasHeight), platforms, canvasWidth, canvasHeight).player
      && |coinsList| == CoinCount
      && (forall i :: 0 <= i < CoinCount ==> coinsList[i] == CollectCoin(player, startCoins[i]))
      && |obstacles| == ObstacleCount
      && (forall i :: 0 <= i < ObstacleCount ==>
            obstacles[i] == MoveObstacle(startObstacles[i], respawnDraws[i], canvasWidth, canvasHeight))
      && coins == NewlyCollected(startCoins, coinsList)
      && score == PointsPerCoin * coins + 1
      && gameRunning == !AnyHit(player, obstacles)
      && highScore == if gameRunning then previousHighScore else KeptHighScore(previousHighScore, score - 1)
    }

    /**
      A key press: the key is recorded as held, and a jump key starts a jump
      unless the player is already jumping.
     */
    method KeyDown(key: string)
      requires Valid()
      modifies this`keys, this`player
      ensures Valid()
      ensures keys == old(keys)[key := true]
      ensures player == Jump(old(player), key)
    {
      keys := keys[key := true];
      if IsJumpKey(key) && !player.isJumping {
        player := player.(velocityY := -JumpPower, isJumping := true);
      }
    }

    /** A key release: the key is recorded as no longer held. */
    method KeyUp(key: string)
      requires Valid()
      modifies this`keys
      ensures Valid()
      ensures keys == old(keys)[key := false]
    {
      keys := keys[key := false];
    }

    /** The movement poll: held direction keys move the player, without any clamping. */
    method HandleInput()
      requires Valid()
      modifies this`player
      ensures Valid()
      ensures player == Displace(old(player), keys)
    {
      if LeftHeld(keys) {
        player := player.(x := player.x - PlayerSpeed);
      }
      if RightHeld(keys) {
        player := player.(x := player.x + PlayerSpeed);
      }
      if DownHeld(keys) {
        player := player.(y := player.y + PlayerSpeed);
      }
    }
  }
}
