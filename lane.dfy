// The per-column world of release/Ramble.js (`Lane`) and the block whose
// height creates the scrollable area (`ScrollBlock`). A lane moves its
// column by changing its top margin and shifts its tiles by changing its
// top padding; its `adjusted` flag limits the padding change to one per
// frame.
module Lanes {
  import opened Wrappers
  import opened Tiles

  /** The top margin after a frame's movement: the margin follows the
    * velocity when its magnitude exceeds 0.1 and never goes above 0; the
    * clamp fires exactly when the moved margin would be positive. */
  function MovedMargin(marginTop: real, vy: real): (m: real)
    ensures (vy > 0.1 || vy < -0.1) ==> m == marginTop + vy
    ensures -0.1 <= vy <= 0.1 ==> m == marginTop
  {
    var speed := if vy < 0.0 then -vy else vy;
    if speed > 0.1 then marginTop + vy else marginTop
  }

  /** `marginTop > 0` resets the margin to 0. */
  function ClampMargin(m: real): (r: real)
    ensures r <= 0.0
    ensures m <= 0.0 ==> r == m
    ensures m > 0.0 ==> r == 0.0
  {
    if m > 0.0 then 0.0 else m
  }

  class Lane {
    /** The column's top margin: how far it has scrolled (never positive). */
    var marginTop: real
    /** The column's velocity. */
    var velocityX: real
    var velocityY: real
    /** The top padding that stands in for the tiles recycled above. */
    var paddingTop: JsNum
    /** Whether this frame already changed the top padding. */
    var adjusted: bool

    constructor (paddingTop: real)
      ensures marginTop == 0.0 && velocityX == 0.0 && velocityY == 0.0
      ensures this.paddingTop == Num(paddingTop) && !adjusted
    {
      marginTop := 0.0;
      velocityX := 0.0;
      velocityY := 0.0;
      this.paddingTop := Num(paddingTop);
      adjusted := false;
    }

    /** `Lane.prototype.step` after friction and the driver's force have been
      * integrated into the velocity `(vx, vy)`: the margin follows the
      * velocity and is clamped at 0, the velocity is zeroed exactly when
      * the clamp fires, and the `adjusted` flag is cleared for the next
      * frame. */
    method Step(vx: real, vy: real)
      modifies this`marginTop, this`velocityX, this`velocityY, this`adjusted
      ensures marginTop == ClampMargin(MovedMargin(old(marginTop), vy))
      ensures marginTop <= 0.0
      ensures MovedMargin(old(marginTop), vy) > 0.0 ==> velocityX == 0.0 && velocityY == 0.0
      ensures MovedMargin(old(marginTop), vy) <= 0.0 ==> velocityX == vx && velocityY == vy
      ensures !adjusted
    {
      velocityX, velocityY := vx, vy;
      var speed := if velocityY < 0.0 then -velocityY else velocityY;
      if speed > 0.1 {
        marginTop := marginTop + velocityY;
      }
      if marginTop > 0.0 {
        marginTop := 0.0;
        velocityX, velocityY := velocityX * 0.0, velocityY * 0.0;
      }
      adjusted := false;
    }

    /** `Lane.prototype.step_`: clears the flag and moves the margin against
      * the driver's vertical force. */
    method StepByForce(forceY: real)
      modifies this`marginTop, this`adjusted
      ensures marginTop == old(marginTop) - forceY
      ensures !adjusted
    {
      adjusted := false;
      marginTop := marginTop - forceY;
    }
  }

  /** The element whose height makes the page scrollable. */
  class ScrollBlock {
    var height: real
    var heightBuffer: real

    constructor (height: real, heightBuffer: real)
      ensures this.height == height && this.heightBuffer == heightBuffer
    {
      this.height := height;
      this.heightBuffer := heightBuffer;
    }

    /** `addHeight(opt_val)`: grows the block by the given amount, or by the
      * height buffer when none (or 0) is given. */
    method AddHeight(optVal: Option<real>)
      modifies this`height
      ensures height == old(height) + OrElse(optVal, heightBuffer)
      ensures (optVal.None? || optVal.value == 0.0) && heightBuffer > 0.0 ==> height > old(height)
    {
      var val := OrElse(optVal, heightBuffer);
      height := height + val;
    }
  }
}
