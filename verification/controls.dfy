/**
  Keyboard input: the jump, which fires on a key press, and the movement
  poll, which reads the set of keys currently held down.
 */
module Controls {
  import opened Entities

  /** The keys that make the player jump: space, w, W and the up arrow. */
  predicate IsJumpKey(key: string) {
    key == " " || key == "w" || key == "W" || key == "ArrowUp"
  }

  /**
    The jump on a key press: a jump key on a player that is not already
    jumping gives it the upward velocity JumpPower and marks it jumping; any
    other press, and any press in the air, leaves the player as it is. The
    position itself never changes here.
   */
  function Jump(p: Player, key: string): (r: Player)
    ensures IsJumpKey(key) && !p.isJumping ==> r.velocityY == -JumpPower && r.isJumping
    ensures p.isJumping || !IsJumpKey(key) ==> r == p
    ensures r.x == p.x && r.y == p.y
    ensures p.isJumping ==> r.isJumping
  {
    if IsJumpKey(key) && !p.isJumping then p.(velocityY := -JumpPower, isJumping := true) else p
  }

  /** The player after a sequence of key presses, handled in order. */
  function JumpAll(p: Player, keys: seq<string>): Player
    decreases |keys|
  {
    if keys == [] then p else Jump(JumpAll(p, keys[..|keys| - 1]), keys[|keys| - 1])
  }

  /**
    Pressing keys again, with no frame in between, after a jump key press
    changes nothing: no double jump, no velocity stacking.
   */
  lemma {:induction false} RepeatedJumpIsIdempotent(p: Player, keys: seq<string>)
    requires |keys| > 0 && IsJumpKey(keys[0])
    ensures JumpAll(p, keys) == Jump(p, keys[0])
    decreases |keys|
  {
    if |keys| > 1 {
      var rest := keys[..|keys| - 1];
      RepeatedJumpIsIdempotent(p, rest);
    }
  }

  /**
    Whether a key is held: the map records the last key-down (true) or
    key-up (false) of each key; a key never pressed is not held.
   */
  predicate Held(keys: map<string, bool>, key: string) {
    key in keys && keys[key]
  }

  predicate LeftHeld(keys: map<string, bool>) {
    Held(keys, "a") || Held(keys, "A") || Held(keys, "ArrowLeft")
  }

  predicate RightHeld(keys: map<string, bool>) {
    Held(keys, "d") || Held(keys, "D") || Held(keys, "ArrowRight")
  }

  predicate DownHeld(keys: map<string, bool>) {
    Held(keys, "s") || Held(keys, "S") || Held(keys, "ArrowDown")
  }

  /**
    One movement poll: the player moves PlayerSpeed left, right or down for
    each direction held; left and right together cancel out. The poll does
    not clamp and never touches the velocity or the jumping flag.
   */
  function Displace(p: Player, keys: map<string, bool>): (r: Player)
    ensures r.velocityY == p.velocityY && r.isJumping == p.isJumping
    ensures LeftHeld(keys) == RightHeld(keys) ==> r.x == p.x
    ensures LeftHeld(keys) && !RightHeld(keys) ==> r.x == p.x - PlayerSpeed
    ensures RightHeld(keys) && !LeftHeld(keys) ==> r.x == p.x + PlayerSpeed
    ensures r.y == if DownHeld(keys) then p.y + PlayerSpeed else p.y
  {
    var afterLeft := if LeftHeld(keys) then p.(x := p.x - PlayerSpeed) else p;
    var afterRight := if RightHeld(keys) then afterLeft.(x := afterLeft.x + PlayerSpeed) else afterLeft;
    if DownHeld(keys) then afterRight.(y := afterRight.y + PlayerSpeed) else afterRight
  }

  /**
    The poll has no lower bound on x: with a left key held and no right key,
    every player moves PlayerSpeed left wherever it stands, so a player at or
    left of the left edge ends past it, until the next player update clamps.
   */
  lemma DisplaceDoesNotClamp(p: Player, keys: map<string, bool>)
    requires LeftHeld(keys) && !RightHeld(keys)
    ensures Displace(p, keys).x == p.x - PlayerSpeed
    ensures p.x <= PlayerWidth / 2.0 ==> Displace(p, keys).x < PlayerWidth / 2.0
  {
  }
}
