/**
 * The arcade sprites the scene creates in its `pipes` and `logos` groups, with
 * the settings `addOnePipe` and `spawnLogo` give them.
 */
module Sprites {

  datatype Texture = PipeBody | PipeCap | LogoTexture

  /**
   * One arcade sprite: its texture key, position, horizontal velocity, whether
   * its body is immovable and feels gravity, its vertical flip and its depth
   * (Phaser's default depth is 0).
   */
  datatype Sprite = Sprite(
    texture: Texture,
    x: real,
    y: real,
    vx: real,
    immovable: bool,
    allowGravity: bool,
    flipY: bool,
    depth: real)

  const PIPE_VELOCITY: real := -200.0
  const LOGO_VELOCITY: real := -250.0
  const CAP_DEPTH_RAISE: real := 1000.0

  /** A sprite of the `pipes` group: a pipe texture, scrolling left at 200, immovable, no gravity, raised only when flipped. */
  predicate IsPipe(p: Sprite)
  {
    && p.texture != LogoTexture
    && p.vx == PIPE_VELOCITY
    && p.immovable
    && !p.allowGravity
    && (p.depth != 0.0 ==> p.flipY)
  }

  /** A sprite of the `logos` group: the logo texture, scrolling left at 250, immovable, no gravity, unflipped. */
  predicate IsLogo(l: Sprite)
  {
    && l.texture == LogoTexture
    && l.vx == LOGO_VELOCITY
    && l.immovable
    && !l.allowGravity
    && !l.flipY
    && l.depth == 0.0
  }

  /** The sprite `addOnePipe(x, y, texture, flipVertical, isCap)` puts into the `pipes` group. */
  function MakePipe(x: real, y: real, texture: Texture, flipVertical: bool, isCap: bool): (p: Sprite)
    requires texture != LogoTexture
    ensures IsPipe(p)
    ensures p.x == x && p.y == y && p.texture == texture && p.flipY == flipVertical
    ensures p.depth != 0.0 ==> isCap && flipVertical
    ensures isCap && flipVertical ==> p.depth == y + CAP_DEPTH_RAISE
  {
    Sprite(texture, x, y, PIPE_VELOCITY, true, false, flipVertical,
           if isCap && flipVertical then y + CAP_DEPTH_RAISE else 0.0)
  }

  /** The sprite `spawnLogo` puts into the `logos` group at `(x, y)`. */
  function MakeLogo(x: real, y: real): (l: Sprite)
    ensures IsLogo(l) && l.x == x && l.y == y
  {
    Sprite(LogoTexture, x, y, LOGO_VELOCITY, true, false, false, 0.0)
  }

  /** The sprites `s` moved to the horizontal positions `xs`, everything else kept. */
  function MoveTo(s: seq<Sprite>, xs: seq<real>): (moved: seq<Sprite>)
    requires |xs| == |s|
    ensures |moved| == |s|
    ensures forall i :: 0 <= i < |s| ==> moved[i] == s[i].(x := xs[i])
    ensures forall m :: m in moved ==> exists i :: 0 <= i < |s| && m == s[i].(x := xs[i])
  {
    seq(|s|, i requires 0 <= i < |s| => s[i].(x := xs[i]))
  }
}
