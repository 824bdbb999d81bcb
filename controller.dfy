/**
 * The player controller of the Game scene's update: ground contact bounces
 * the player with a fixed upward impulse and the jump texture, falling shows
 * the stand texture, horizontal input steers only while airborne, and the
 * player wraps around the left and right edges of the screen.
 */
module Controller {
  /** The two player textures, 'bunny-stand' and 'bunny-jump'. */
  datatype Texture = Stand | Jump

  /** The player sprite: position, velocity and texture. */
  datatype Player = Player(x: real, y: real, vx: real, vy: real, texture: Texture)

  const JumpVelocity: real := -600.0
  const MoveSpeed: real := 200.0
  /** Width of the game canvas (the scale manager's width). */
  const GameWidth: real := 480.0

  /**
   * Velocity and texture at the end of the controller step, from the body's
   * post-physics state. vy is read back after the impulse, so a grounded
   * frame never reaches the stand switch.
   */
  function Controlled(p: Player, touchingDown: bool, left: bool, right: bool): (q: Player)
    ensures q.x == p.x && q.y == p.y
    ensures touchingDown ==> q.vy == JumpVelocity && q.texture == Jump
    ensures !touchingDown ==> q.vy == p.vy
    ensures q.texture == Stand <==> !touchingDown && (p.vy > 0.0 || p.texture == Stand)
    ensures q.vx == -MoveSpeed || q.vx == 0.0 || q.vx == MoveSpeed
    ensures q.vx < 0.0 <==> left && !touchingDown
    ensures q.vx > 0.0 <==> right && !left && !touchingDown
  {
    var vy := if touchingDown then JumpVelocity else p.vy;
    var texture := if touchingDown then Jump else p.texture;
    var texture' := if vy > 0.0 && texture != Stand then Stand else texture;
    var vx :=
      if left && !touchingDown then -MoveSpeed
      else if right && !touchingDown then MoveSpeed
      else 0.0;
    Player(p.x, p.y, vx, vy, texture')
  }

  /** The band the player's x is kept in: one half sprite past either edge. */
  predicate InBand(x: real, halfWidth: real, gameWidth: real) {
    -halfWidth <= x <= gameWidth + halfWidth
  }

  /** Teleports an x that has left the band to the opposite edge of the band. */
  function Wrap(x: real, halfWidth: real, gameWidth: real): (r: real)
    requires halfWidth >= 0.0 && gameWidth >= 0.0
    ensures InBand(r, halfWidth, gameWidth)
    ensures InBand(x, halfWidth, gameWidth) ==> r == x
    ensures x < -halfWidth ==> r == gameWidth + halfWidth
    ensures x > gameWidth + halfWidth ==> r == -halfWidth
  {
    if x < -halfWidth then gameWidth + halfWidth
    else if x > gameWidth + halfWidth then -halfWidth
    else x
  }

  /** Wrapping twice is wrapping once: a wrapped x is never teleported back. */
  lemma WrapIdempotent(x: real, halfWidth: real, gameWidth: real)
    requires halfWidth >= 0.0 && gameWidth >= 0.0
    ensures Wrap(Wrap(x, halfWidth, gameWidth), halfWidth, gameWidth) == Wrap(x, halfWidth, gameWidth)
  {
  }
}
