/**
  The plain data records of the runner game: the player, the platforms, the
  coins and the obstacles, the fixed sizes the game gives them, and the
  canvas dimensions they live in. Positions are exact reals: the game only
  adds, scales and compares them.
 */
module Entities {

  // The player's fixed attributes (the `player` record's constant fields).
  const PlayerWidth: real := 40.0
  const PlayerHeight: real := 60.0
  const PlayerSpeed: real := 5.0
  const JumpPower: real := 12.0
  const Gravity: real := 0.5

  // How many entities a (re)start creates, and their fixed sizes.
  const PlatformCount: nat := 10
  const CoinCount: nat := 20
  const ObstacleCount: nat := 8
  const PlatformHeight: real := 20.0
  const CoinSize: real := 20.0
  const ObstacleSize: real := 30.0

  // Score rules and the height at which a fallen obstacle reappears.
  const PointsPerCoin: nat := 100
  const RespawnY: real := -50.0

  // Largest canvas height, whatever the container width.
  const MaxCanvasHeight: nat := 500

  /** The mutable part of the player record; y is the player's bottom edge. */
  datatype Player = Player(x: real, y: real, velocityY: real, isJumping: bool)

  /** A platform never changes once created. */
  datatype Platform = Platform(x: real, y: real, width: real, height: real)

  /** A coin is centred on (x, y); `collected` goes from false to true once. */
  datatype Coin = Coin(x: real, y: real, width: real, height: real, collected: bool)

  /** An obstacle's top-left corner is (x, y); it falls by `speed` each frame. */
  datatype Obstacle = Obstacle(x: real, y: real, width: real, height: real, speed: real)

  /** A value of Math.random(): a real in [0, 1). */
  predicate IsDraw(r: real) {
    0.0 <= r < 1.0
  }

  /**
    The canvas height for a container `width` pixels wide: 0.6 of the width,
    at most 500, truncated to whole pixels as every canvas dimension is.
   */
  function CanvasHeight(width: nat): (h: nat)
    ensures h <= MaxCanvasHeight
    ensures 10 * h <= 6 * width
    ensures h == MaxCanvasHeight || 6 * width < 10 * (h + 1)
  {
    var scaled := 6 * width / 10;
    if scaled < MaxCanvasHeight then scaled else MaxCanvasHeight
  }

  /** A draw scaled to a non-negative extent, as `Math.random() * extent`: in [0, extent). */
  function Scaled(draw: real, extent: real): (v: real)
    requires IsDraw(draw) && 0.0 <= extent
    ensures 0.0 <= v <= extent
    ensures 0.0 < extent ==> v < extent
  {
    ProductSign(draw, extent);
    ProductSign(1.0 - draw, extent);
    assert (1.0 - draw) * extent == extent - draw * extent;
    draw * extent
  }

  /** The product of two non-negative reals is non-negative, and positive if both are. */
  lemma ProductSign(a: real, b: real)
    requires 0.0 <= a && 0.0 <= b
    ensures 0.0 <= a * b
    ensures 0.0 < a && 0.0 < b ==> 0.0 < a * b
  {
  }
}
