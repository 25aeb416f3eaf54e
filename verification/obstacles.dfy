/**
  Falling obstacles: one frame of motion with the wrap back above the
  canvas, the box test that ends a run, and the high-score rule applied at
  game over.
 */
module Obstacles {
  import opened Entities

  /**
    One frame of an obstacle's motion. It falls by its speed; once it is
    below the canvas it reappears at y = RespawnY with x = `draw` scaled to
    the canvas width. Size and speed never change.
   */
  function MoveObstacle(o: Obstacle, draw: real, canvasWidth: nat, canvasHeight: nat): (m: Obstacle)
    requires IsDraw(draw)
    ensures m.width == o.width && m.height == o.height && m.speed == o.speed
    ensures o.y + o.speed <= canvasHeight as real ==> m.y == o.y + o.speed && m.x == o.x
    ensures o.y + o.speed > canvasHeight as real ==>
              m.y == RespawnY && 0.0 <= m.x && (canvasWidth > 0 ==> m.x < canvasWidth as real)
    ensures m.y <= canvasHeight as real
  {
    var y := o.y + o.speed;
    if y > canvasHeight as real then o.(y := RespawnY, x := Scaled(draw, canvasWidth as real))
    else o.(y := y)
  }

  /**
    The player's box (centred on x, bottom edge at y) overlaps the
    obstacle's box (top-left corner at the obstacle's x and y).
   */
  predicate Hits(p: Player, o: Obstacle) {
    && p.x + PlayerWidth / 2.0 > o.x
    && p.x - PlayerWidth / 2.0 < o.x + o.width
    && p.y - PlayerHeight < o.y + o.height
    && p.y > o.y
  }

  /** Some obstacle of `obstacles` hits the player. */
  predicate AnyHit(p: Player, obstacles: seq<Obstacle>) {
    exists i :: 0 <= i < |obstacles| && Hits(p, obstacles[i])
  }

  /** Appending one obstacle adds exactly its own hit to AnyHit. */
  lemma AnyHitExtend(p: Player, obstacles: seq<Obstacle>, o: Obstacle)
    ensures AnyHit(p, obstacles + [o]) <==> AnyHit(p, obstacles) || Hits(p, o)
  {
    var extended := obstacles + [o];
    assert extended[|obstacles|] == o;
    if AnyHit(p, obstacles) {
      var i :| 0 <= i < |obstacles| && Hits(p, obstacles[i]);
      assert extended[i] == obstacles[i];
    }
  }

  /**
    The high score kept at game over: the final score replaces the stored
    one only when it is strictly greater, so the result is their maximum.
   */
  function KeptHighScore(highScore: nat, score: nat): (r: nat)
    ensures r >= highScore && r >= score
    ensures r == highScore || r == score
  {
    if score > highScore then score else highScore
  }

  /** A second game over with the same score keeps the high score it left. */
  lemma KeptHighScoreIdempotent(highScore: nat, score: nat)
    ensures KeptHighScore(KeptHighScore(highScore, score), score) == KeptHighScore(highScore, score)
  {
  }

  /**
    An obstacle with positive speed that is on the canvas moves strictly
    down in a frame, unless it falls off and wraps back to the top.
   */
  lemma ObstacleFallsOrWraps(o: Obstacle, draw: real, canvasWidth: nat, canvasHeight: nat)
    requires IsDraw(draw) && o.speed > 0.0
    ensures var m := MoveObstacle(o, draw, canvasWidth, canvasHeight);
            m.y > o.y || (m.y == RespawnY && o.y + o.speed > canvasHeight as real)
  {
  }
}
