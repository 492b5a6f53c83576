/**
 * The slice of the TFT_eSPI sprite interface that the turn coordinator uses.
 * The library itself (pixel buffers, rotation sampling, clipping, colour keys,
 * DMA) is not modelled: a sprite is its size, its pivot and the ordered log of
 * the requests that were made to draw into it since it was created.
 */
module Sprites {

  /** The library's 16-bit unsigned integer (uint16_t). */
  newtype u16 = n: int | 0 <= n < 0x1_0000

  /** TFT_WHITE in RGB565, the colour used as transparency mask. */
  const TftWhite: u16 := 0xFFFF

  datatype Point = Point(x: int, y: int)

  /** The pixel tables compiled into the program. */
  datatype Image =
    | Dial | BallImage | PlaneOutline
    | APDot | AltDot | UpDot | DownDot | ReadyDot | LowVoltFlag

  /** A `const uint16_t *` pointing at a pixel table, or nullptr. */
  datatype ImageRef = Null | Table(image: Image)

  /** The three sprites the program declares. */
  datatype SpriteName = MainSprite | PlaneSprite | BallSprite

  /** One request recorded in the log of the sprite it draws into. */
  datatype Request =
      /** `pushImage(x, y, w, h, data)`: copy a pixel table into this sprite. */
    | PushImage(x: int, y: int, w: int, h: int, data: ImageRef)
      /** `source.pushToSprite(this, x, y, mask)`: composite another sprite. */
    | PushFrom(source: SpriteName, x: int, y: int, mask: u16)
      /** `setPivot(x, y)` on this sprite. */
    | SetPivot(pivot: Point)
      /** `source.pushRotated(this, angle, mask)`: the source, rotated by `angle`
          degrees about `sourcePivot`, placed with that point on `pivot`. */
    | PushRotatedFrom(source: SpriteName, angle: int, mask: u16, sourcePivot: Point, pivot: Point)
      /** `pushSprite(x, y)`: present this sprite on the screen. */
    | PushSprite(x: int, y: int)

  class Sprite {
    const name: SpriteName
    var width: nat
    var height: nat
    var pivot: Point
    var log: seq<Request>

    /** `TFT_eSprite(&tft)`: no buffer yet, pivot at the origin. */
    constructor (name: SpriteName)
      ensures this.name == name
      ensures width == 0 && height == 0 && pivot == Point(0, 0) && log == []
    {
      this.name := name;
      width, height := 0, 0;
      pivot := Point(0, 0);
      log := [];
    }

    /** `createSprite(w, h)`: a fresh buffer of the given size. */
    method CreateSprite(w: nat, h: nat)
      modifies this`width, this`height, this`log
      ensures width == w && height == h && log == []
    {
      width, height := w, h;
      log := [];
    }

    /** `setPivot(x, y)`: only the pivot changes. */
    method SetPivotTo(p: Point)
      modifies this`pivot, this`log
      ensures pivot == p
      ensures log == old(log) + [SetPivot(p)]
    {
      pivot := p;
      log := log + [SetPivot(p)];
    }

    method PushImageAt(x: int, y: int, w: int, h: int, data: ImageRef)
      modifies this`log
      ensures log == old(log) + [PushImage(x, y, w, h, data)]
    {
      log := log + [PushImage(x, y, w, h, data)];
    }

    /** Composites this sprite into `target`; only the target's log grows. */
    method PushToSprite(target: Sprite, x: int, y: int, mask: u16)
      modifies target`log
      ensures target.log == old(target.log) + [PushFrom(name, x, y, mask)]
    {
      target.log := target.log + [PushFrom(name, x, y, mask)];
    }

    /** Composites this sprite into `target`, rotated about this sprite's pivot
        and placed on the target's pivot. */
    method PushRotated(target: Sprite, angle: int, mask: u16)
      modifies target`log
      ensures target.log == old(target.log) + [PushRotatedFrom(name, angle, mask, pivot, target.pivot)]
    {
      target.log := target.log + [PushRotatedFrom(name, angle, mask, pivot, target.pivot)];
    }

    /** `pushSprite(x, y)`: hands the whole buffer to the display. */
    method PushSpriteAt(x: int, y: int)
      modifies this`log
      ensures log == old(log) + [PushSprite(x, y)]
    {
      log := log + [PushSprite(x, y)];
    }
  }
}
