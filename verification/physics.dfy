/**
  The player's per-frame physics: gravity, landing on platforms, the floor
  and the left and right screen edges, as functions on values. The session's
  UpdatePlayer method is proved to compute PlayerStep.
 */
module Physics {
  import opened Entities

  /** The player after one frame, and whether something now supports it. */
  datatype Contact = Contact(player: Player, onPlatform: bool)

  /** Gravity: the velocity grows by Gravity, then the player moves by it. */
  function Fall(p: Player): Player {
    var v := p.velocityY + Gravity;
    p.(velocityY := v, y := p.y + v)
  }

  /**
    The platform test of one frame: the player overlaps the platform
    horizontally, its bottom edge (plus a 5 pixel tolerance) has reached the
    platform's top without passing its bottom, and the player is falling.
   */
  predicate OnTopOf(p: Player, platform: Platform) {
    && p.x + PlayerWidth / 2.0 > platform.x
    && p.x - PlayerWidth / 2.0 < platform.x + platform.width
    && p.y + 5.0 > platform.y
    && p.y < platform.y + platform.height
    && p.velocityY > 0.0
  }

  /**
    The snap: the player's bottom edge is put PlayerHeight above the
    platform's top, with velocity 0 and the jumping flag cleared.
   */
  function LandOn(p: Player, platform: Platform): Player {
    p.(y := platform.y - PlayerHeight, velocityY := 0.0, isJumping := false)
  }

  /**
    The platform pass, one platform after another in list order, each test
    seeing the player as the earlier platforms left it.
   */
  function Settle(p: Player, platforms: seq<Platform>): (r: Contact)
    ensures r.onPlatform ==> r.player.velocityY == 0.0 && !r.player.isJumping
    ensures !r.onPlatform ==> r.player == p
    decreases |platforms|
  {
    if platforms == [] then Contact(p, false)
    else
      var c := Settle(p, platforms[..|platforms| - 1]);
      var last := platforms[|platforms| - 1];
      if OnTopOf(c.player, last) then Contact(LandOn(c.player, last), true) else c
  }

  /** Platform j is the first one in the list that the player is on top of. */
  predicate IsFirstLanding(p: Player, platforms: seq<Platform>, j: int) {
    && 0 <= j < |platforms|
    && OnTopOf(p, platforms[j])
    && forall k :: 0 <= k < j ==> !OnTopOf(p, platforms[k])
  }

  /**
    At most one platform snaps the player in a frame, and it is the FIRST
    matching one: the snap zeroes the velocity and every later test needs a
    falling player. With no match the pass changes nothing.
   */
  lemma {:induction false} SettleLandsOnFirstMatch(p: Player, platforms: seq<Platform>)
    ensures (forall k :: 0 <= k < |platforms| ==> !OnTopOf(p, platforms[k]))
            ==> Settle(p, platforms) == Contact(p, false)
    ensures forall j :: (IsFirstLanding(p, platforms, j)
                         ==> Settle(p, platforms) == Contact(LandOn(p, platforms[j]), true))
    ensures Settle(p, platforms).onPlatform ==> p.velocityY > 0.0
    decreases |platforms|
  {
    if platforms != [] {
      var n := |platforms| - 1;
      var init := platforms[..n];
      SettleLandsOnFirstMatch(p, init);
      assert forall k :: 0 <= k < n ==> init[k] == platforms[k];
      if exists k :: 0 <= k < n && OnTopOf(p, platforms[k]) {
        var j := FindFirstLanding(p, platforms, n);
        assert IsFirstLanding(p, init, j);
        assert !OnTopOf(LandOn(p, init[j]), platforms[n]);
        forall j' | IsFirstLanding(p, platforms, j')
          ensures j' == j
        {}
      } else {
        forall j' | IsFirstLanding(p, platforms, j')
          ensures j' == n
        {}
      }
    }
  }

  /** Some platform below `bound` matches, so there is a first such platform. */
  lemma {:induction false} FindFirstLanding(p: Player, platforms: seq<Platform>, bound: nat) returns (j: nat)
    requires bound <= |platforms|
    requires exists k :: 0 <= k < bound && OnTopOf(p, platforms[k])
    ensures j < bound && IsFirstLanding(p, platforms, j)
    decreases bound
  {
    var k :| 0 <= k < bound && OnTopOf(p, platforms[k]);
    if exists k' :: 0 <= k' < k && OnTopOf(p, platforms[k']) {
      j := FindFirstLanding(p, platforms, k);
    } else {
      j := k;
    }
  }

  /**
    The floor: the player's bottom edge never goes below the floor line,
    canvasHeight - PlayerHeight, which is PlayerHeight above the canvas bottom.
   */
  function FloorClamp(c: Contact, canvasHeight: nat): (r: Contact)
    ensures r.player.y <= canvasHeight as real - PlayerHeight
    ensures c.player.y > canvasHeight as real - PlayerHeight ==>
              r.player.y == canvasHeight as real - PlayerHeight &&
              r.player.velocityY == 0.0 && !r.player.isJumping && r.onPlatform
    ensures c.player.y <= canvasHeight as real - PlayerHeight ==> r == c
    ensures r.player.x == c.player.x
  {
    var floor := canvasHeight as real - PlayerHeight;
    if c.player.y > floor then
      Contact(c.player.(y := floor, velocityY := 0.0, isJumping := false), true)
    else c
  }

  /**
    The screen edges: the left test first, then the right one. When the
    canvas is at least as wide as the player, the player's centre ends within
    [PlayerWidth/2, canvasWidth - PlayerWidth/2]; a player already inside is
    left alone; only x ever changes.
   */
  function ClampToScreen(p: Player, canvasWidth: nat): (r: Player)
    ensures canvasWidth as real >= PlayerWidth ==>
              PlayerWidth / 2.0 <= r.x <= canvasWidth as real - PlayerWidth / 2.0
    ensures PlayerWidth / 2.0 <= p.x <= canvasWidth as real - PlayerWidth / 2.0 ==> r == p
    ensures r.(x := p.x) == p
  {
    var w := canvasWidth as real;
    var left := if p.x - PlayerWidth / 2.0 < 0.0 then p.(x := PlayerWidth / 2.0) else p;
    if left.x + PlayerWidth / 2.0 > w then left.(x := w - PlayerWidth / 2.0) else left
  }

  /**
    One call of the player update: gravity, the platform pass, the floor and
    the screen edges. Afterwards the player is above the floor and inside the
    screen, and `onPlatform` says a platform or the floor stopped the fall.
   */
  function PlayerStep(p: Player, platforms: seq<Platform>, canvasWidth: nat, canvasHeight: nat): (r: Contact)
    ensures r.player.y <= canvasHeight as real - PlayerHeight
    ensures canvasWidth as real >= PlayerWidth ==>
              PlayerWidth / 2.0 <= r.player.x <= canvasWidth as real - PlayerWidth / 2.0
    ensures r.onPlatform ==> r.player.velocityY == 0.0 && !r.player.isJumping
    ensures !r.onPlatform ==> r.player.velocityY == p.velocityY + Gravity &&
                              r.player.isJumping == p.isJumping
  {
    var fallen := Fall(p);
    var settled := Settle(fallen, platforms);
    SettleLandsOnFirstMatch(fallen, platforms);
    var grounded := FloorClamp(settled, canvasHeight);
    Contact(ClampToScreen(grounded.player, canvasWidth), grounded.onPlatform)
  }

  /**
    Where a frame leaves the player when the first matching platform is j
    and the platform's top is on the canvas: its bottom edge PlayerHeight
    above platform j's top, with support reported.
   */
  lemma PlayerStepRestsOnFirstPlatform(p: Player, platforms: seq<Platform>, canvasWidth: nat, canvasHeight: nat, j: nat)
    requires IsFirstLanding(Fall(p), platforms, j)
    requires platforms[j].y <= canvasHeight as real
    ensures PlayerStep(p, platforms, canvasWidth, canvasHeight).player.y == platforms[j].y - PlayerHeight
    ensures PlayerStep(p, platforms, canvasWidth, canvasHeight).onPlatform
  {
    SettleLandsOnFirstMatch(Fall(p), platforms);
  }

  /**
    A frame in which no platform matches and the fallen player is above the
    floor leaves the player in free fall: y moves by the new velocity.
   */
  lemma PlayerStepInFreeFall(p: Player, platforms: seq<Platform>, canvasWidth: nat, canvasHeight: nat)
    requires forall k :: 0 <= k < |platforms| ==> !OnTopOf(Fall(p), platforms[k])
    requires Fall(p).y <= canvasHeight as real - PlayerHeight
    ensures PlayerStep(p, platforms, canvasWidth, canvasHeight).player.y == p.y + p.velocityY + Gravity
    ensures !PlayerStep(p, platforms, canvasWidth, canvasHeight).onPlatform
  {
    SettleLandsOnFirstMatch(Fall(p), platforms);
  }

  /**
    A snap does not hold the player. The snap leaves its bottom edge
    PlayerHeight above the platform's top, out of the 5 pixel reach of the
    platform test, so in the next frame platform j no longer matches; unless
    another platform matches, the player is unsupported and drops by Gravity.
   */
  lemma SnapDoesNotHold(p: Player, platforms: seq<Platform>, canvasWidth: nat, canvasHeight: nat, j: nat)
    requires IsFirstLanding(Fall(p), platforms, j)
    requires platforms[j].y + Gravity <= canvasHeight as real
    requires var q := PlayerStep(p, platforms, canvasWidth, canvasHeight).player;
             forall k :: 0 <= k < |platforms| && k != j ==> !OnTopOf(Fall(q), platforms[k])
    ensures var q := PlayerStep(p, platforms, canvasWidth, canvasHeight).player;
            var next := PlayerStep(q, platforms, canvasWidth, canvasHeight);
            q.y == platforms[j].y - PlayerHeight &&
            next.player.y == q.y + Gravity && !next.onPlatform
  {
    PlayerStepRestsOnFirstPlatform(p, platforms, canvasWidth, canvasHeight, j);
    var q := PlayerStep(p, platforms, canvasWidth, canvasHeight).player;
    assert !OnTopOf(Fall(q), platforms[j]);
    PlayerStepInFreeFall(q, platforms, canvasWidth, canvasHeight);
  }

  /**
    The floor, by contrast, holds: a player at rest with its bottom edge at
    the floor line stays there and is reported supported, as long as no
    platform matches.
   */
  lemma FloorHolds(p: Player, platforms: seq<Platform>, canvasWidth: nat, canvasHeight: nat)
    requires p.y == canvasHeight as real - PlayerHeight && p.velocityY == 0.0
    requires forall k :: 0 <= k < |platforms| ==> !OnTopOf(Fall(p), platforms[k])
    ensures PlayerStep(p, platforms, canvasWidth, canvasHeight).player.y == p.y
    ensures PlayerStep(p, platforms, canvasWidth, canvasHeight).onPlatform
  {
    SettleLandsOnFirstMatch(Fall(p), platforms);
  }
}
