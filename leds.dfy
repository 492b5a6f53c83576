/**
 * `DisplayLED`: the placement, pixel table and on/off state of one indicator
 * lamp of the gauge, and the request it makes when drawn.
 */
module Leds {
  import opened Sprites

  /** What drawing a lamp with the given state and placement asks of the
      target sprite: one `pushImage` of its own rectangle and table when it is
      lit, nothing when it is dark. */
  function DrawRequests(lit: bool, x: u16, y: u16, width: u16, height: u16, imageData: ImageRef)
    : (r: seq<Request>)
    ensures |r| <= 1
    ensures r != [] <==> lit
    ensures forall q :: q in r ==>
      q == PushImage(x as int, y as int, width as int, height as int, imageData)
  {
    if lit then [PushImage(x as int, y as int, width as int, height as int, imageData)] else []
  }

  class DisplayLED {
    var x: u16
    var y: u16
    var width: u16
    var height: u16
    var imageData: ImageRef
    var state: bool

    /** The default lamp: an empty rectangle at the origin, no image, dark. */
    constructor ()
      ensures x == 0 && y == 0 && width == 0 && height == 0
      ensures imageData == Null && !state
    {
      x, y, width, height := 0, 0, 0, 0;
      imageData := Null;
      state := false;
    }

    /** A lamp at the given rectangle showing the given table; starts dark. */
    constructor WithImage(x: u16, y: u16, width: u16, height: u16, imageData: ImageRef)
      ensures this.x == x && this.y == y && this.width == width && this.height == height
      ensures this.imageData == imageData && !state
    {
      this.x := x;
      this.y := y;
      this.width := width;
      this.height := height;
      this.imageData := imageData;
      state := false;
    }

    method SetState(state: bool)
      modifies this`state
      ensures this.state == state
      ensures x == old(x) && y == old(y) && width == old(width) && height == old(height)
      ensures imageData == old(imageData)
    {
      this.state := state;
    }

    method GetState() returns (s: bool)
      ensures s == state
    {
      s := state;
    }

    /** Appends the lamp's request, if any, to the target's log; the lamp
        itself and the rest of the target stay as they were. */
    method Draw(target: Sprite)
      modifies target`log
      ensures target.log == old(target.log) + DrawRequests(state, x, y, width, height, imageData)
      ensures unchanged(this)
    {
      if state {
        target.PushImageAt(x as int, y as int, width as int, height as int, imageData);
      }
    }
  }
}
