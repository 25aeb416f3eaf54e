/**
  What a (re)start creates: the platforms, coins and obstacles built from
  Math.random() draws scaled to the canvas, and the player's start position.
 */
module Setup {
  import opened Entities
  import opened Coins

  /**
    Platform i of a start: a random x on the canvas, a random width in
    [150, 250), height PlatformHeight, and a top edge 50 pixels above the
    canvas bottom for i = 0 and 100 pixels higher for each next i.
   */
  function NewPlatform(i: nat, drawX: real, drawWidth: real, canvasWidth: nat, canvasHeight: nat): (p: Platform)
    requires IsDraw(drawX) && IsDraw(drawWidth)
    ensures p.y == canvasHeight as real - 50.0 - (i as real) * 100.0
    ensures p.height == PlatformHeight
    ensures 150.0 <= p.width < 250.0
    ensures 0.0 <= p.x && (canvasWidth > 0 ==> p.x < canvasWidth as real)
  {
    Platform(Scaled(drawX, canvasWidth as real), canvasHeight as real - 50.0 - (i as real) * 100.0,
             150.0 + Scaled(drawWidth, 100.0), PlatformHeight)
  }

  /**
    A coin of a start: uncollected, CoinSize square, centred at a random x
    on the canvas and a random y in the upper half of it.
   */
  function NewCoin(drawX: real, drawY: real, canvasWidth: nat, canvasHeight: nat): (c: Coin)
    requires IsDraw(drawX) && IsDraw(drawY)
    ensures !c.collected
    ensures c.width == CoinSize && c.height == CoinSize
    ensures 0.0 <= c.x && (canvasWidth > 0 ==> c.x < canvasWidth as real)
    ensures 0.0 <= c.y && (canvasHeight > 0 ==> c.y < canvasHeight as real / 2.0)
  {
    Coin(Scaled(drawX, canvasWidth as real), Scaled(drawY, canvasHeight as real) / 2.0,
         CoinSize, CoinSize, false)
  }

  /**
    An obstacle of a start: ObstacleSize square at a random x on the canvas
    and a random y in its upper two thirds, falling at a random speed in
    [2, 5).
   */
  function NewObstacle(drawX: real, drawY: real, drawSpeed: real, canvasWidth: nat, canvasHeight: nat): (o: Obstacle)
    requires IsDraw(drawX) && IsDraw(drawY) && IsDraw(drawSpeed)
    ensures o.width == ObstacleSize && o.height == ObstacleSize
    ensures 2.0 <= o.speed < 5.0
    ensures 0.0 <= o.x && (canvasWidth > 0 ==> o.x < canvasWidth as real)
    ensures 0.0 <= o.y && (canvasHeight > 0 ==> o.y < canvasHeight as real / 1.5)
  {
    Obstacle(Scaled(drawX, canvasWidth as real), Scaled(drawY, canvasHeight as real) / 1.5,
             ObstacleSize, ObstacleSize, 2.0 + Scaled(drawSpeed, 3.0))
  }

  /** The player at a start: centred horizontally, 100 pixels above the bottom, at rest. */
  function StartPlayer(canvasWidth: nat, canvasHeight: nat): (p: Player)
    ensures !p.isJumping && p.velocityY == 0.0
    ensures p.x * 2.0 == canvasWidth as real
    ensures p.y == canvasHeight as real - 100.0
  {
    Player(canvasWidth as real / 2.0, canvasHeight as real - 100.0, 0.0, false)
  }

  /**
    On a canvas at least as wide as the player, the start position is inside
    the screen and above the floor, the two bounds every player update keeps.
   */
  lemma StartPlayerOnScreen(canvasWidth: nat, canvasHeight: nat)
    requires canvasWidth as real >= PlayerWidth
    ensures var p := StartPlayer(canvasWidth, canvasHeight);
            PlayerWidth / 2.0 <= p.x <= canvasWidth as real - PlayerWidth / 2.0 &&
            p.y <= canvasHeight as real - PlayerHeight
  {
  }

  /**
    A start on an 800 pixel wide container: the canvas is 480 high and the
    player starts at (400, 380), at rest.
   */
  lemma StartOn800WideCanvas()
    ensures CanvasHeight(800) == 480
    ensures StartPlayer(800, CanvasHeight(800)) == Player(400.0, 380.0, 0.0, false)
  {
  }

  /** One pair of draws (x, width) for each platform. */
  predicate PlatformDraws(draws: seq<(real, real)>) {
    |draws| == PlatformCount &&
    forall i :: 0 <= i < |draws| ==> IsDraw(draws[i].0) && IsDraw(draws[i].1)
  }

  /** One pair of draws (x, y) for each coin. */
  predicate CoinDraws(draws: seq<(real, real)>) {
    |draws| == CoinCount &&
    forall i :: 0 <= i < |draws| ==> IsDraw(draws[i].0) && IsDraw(draws[i].1)
  }

  /** One triple of draws (x, y, speed) for each obstacle. */
  predicate ObstacleDraws(draws: seq<(real, real, real)>) {
    |draws| == ObstacleCount &&
    forall i :: 0 <= i < |draws| ==> IsDraw(draws[i].0) && IsDraw(draws[i].1) && IsDraw(draws[i].2)
  }

  /**
    The platforms of a start, in creation order: PlatformCount of them, each
    PlatformHeight high, stacked 100 pixels apart upwards from 50 pixels
    above the canvas bottom.
   */
  function StartPlatforms(draws: seq<(real, real)>, canvasWidth: nat, canvasHeight: nat): (ps: seq<Platform>)
    requires PlatformDraws(draws)
    ensures |ps| == PlatformCount
    ensures forall i :: 0 <= i < |ps| ==>
              ps[i].y == canvasHeight as real - 50.0 - (i as real) * 100.0 && ps[i].height == PlatformHeight
    ensures forall i, j :: 0 <= i < j < |ps| ==> ps[j].y < ps[i].y
  {
    seq(PlatformCount, i requires 0 <= i < PlatformCount =>
      NewPlatform(i, draws[i].0, draws[i].1, canvasWidth, canvasHeight))
  }

  /** The coins of a start: CoinCount of them, CoinSize square, none collected. */
  function StartCoins(draws: seq<(real, real)>, canvasWidth: nat, canvasHeight: nat): (cs: seq<Coin>)
    requires CoinDraws(draws)
    ensures |cs| == CoinCount
    ensures forall i :: 0 <= i < |cs| ==>
              !cs[i].collected && cs[i].width == CoinSize && cs[i].height == CoinSize
    ensures CollectedCount(cs) == 0
  {
    var cs := seq(CoinCount, i requires 0 <= i < CoinCount =>
      NewCoin(draws[i].0, draws[i].1, canvasWidth, canvasHeight));
    NoneCollected(cs);
    cs
  }

  /** The obstacles of a start: ObstacleCount of them, ObstacleSize square, speed in [2, 5). */
  function StartObstacles(draws: seq<(real, real, real)>, canvasWidth: nat, canvasHeight: nat): (os: seq<Obstacle>)
    requires ObstacleDraws(draws)
    ensures |os| == ObstacleCount
    ensures forall i :: 0 <= i < |os| ==>
              os[i].width == ObstacleSize && os[i].height == ObstacleSize && 2.0 <= os[i].speed < 5.0
  {
    seq(ObstacleCount, i requires 0 <= i < ObstacleCount =>
      NewObstacle(draws[i].0, draws[i].1, draws[i].2, canvasWidth, canvasHeight))
  }
}
