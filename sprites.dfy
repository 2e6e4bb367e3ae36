/** What the entities share once rendering is abstracted away: the size a
    sprite is drawn at, and constant horizontal motion at `speed` pixels per
    second over a frame of `delta` milliseconds. */
module Sprites {

  /** A catalog entry can be drawn and moved: its `height` (the fraction of
      the screen it takes, as a divisor), its `speed` divisor and its image
      height are all non-zero. */
  predicate Drawable(height: real, speed: real, imageHeight: real)
  {
    height != 0.0 && speed != 0.0 && imageHeight != 0.0
  }

  /** `sprite.setScale((screenWidth / height) / sprite.height)` applied to
      an image `imageWidth` wide. */
  function DisplayWidth(screenWidth: real, height: real, imageWidth: real, imageHeight: real): real
    requires height != 0.0 && imageHeight != 0.0
  {
    imageWidth * ((screenWidth / height) / imageHeight)
  }

  /** `this.speed = screenWidth / data.speed`. */
  function Speed(screenWidth: real, speedDivisor: real): real
    requires speedDivisor != 0.0
  {
    screenWidth / speedDivisor
  }

  /** `x -= (speed * delta) / 1000`. */
  function MoveLeft(x: real, speed: real, delta: real): real
  {
    x - (speed * delta) / 1000.0
  }

  /** `x += (speed * delta) / 1000`. */
  function MoveRight(x: real, speed: real, delta: real): real
  {
    x + (speed * delta) / 1000.0
  }

  /** `x < -displayWidth`: wholly past the left edge. */
  predicate PastLeftEdge(x: real, displayWidth: real)
  {
    x < -displayWidth
  }

  /** `x > screenHeight + displayWidth`: wholly past the right edge of the
      landscape screen. */
  predicate PastRightEdge(x: real, displayWidth: real, screenHeight: real)
  {
    x > screenHeight + displayWidth
  }

  lemma NonNegativeProduct(a: real, b: real)
    requires a >= 0.0 && b >= 0.0
    ensures a * b >= 0.0
  {
  }

  /** Moving left never increases x, and once past the left edge a sprite
      stays past it. */
  lemma MoveLeftIsMonotone(x: real, speed: real, delta: real, displayWidth: real)
    requires speed >= 0.0 && delta >= 0.0
    ensures MoveLeft(x, speed, delta) <= x
    ensures PastLeftEdge(x, displayWidth) ==> PastLeftEdge(MoveLeft(x, speed, delta), displayWidth)
  {
    NonNegativeProduct(speed, delta);
  }

  /** Moving right never decreases x, and once past the right edge a sprite
      stays past it. */
  lemma MoveRightIsMonotone(x: real, speed: real, delta: real, displayWidth: real, screenHeight: real)
    requires speed >= 0.0 && delta >= 0.0
    ensures MoveRight(x, speed, delta) >= x
    ensures PastRightEdge(x, displayWidth, screenHeight) ==> PastRightEdge(MoveRight(x, speed, delta), displayWidth, screenHeight)
  {
    NonNegativeProduct(speed, delta);
  }
}
