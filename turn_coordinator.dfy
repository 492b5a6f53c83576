/**
 * The turn coordinator demo: `setup()` creates three sprites, and every call
 * of `loop()` sweeps the plane from 30 degrees to -30 degrees and back,
 * redrawing the whole instrument into the main sprite for each step.
 */
module TurnCoordinator {
  import opened Sprites

  /** INSTRUMENT_WIDTH and INSTRUMENT_HEIGHT: the size of the main sprite. */
  const InstrumentWidth: nat := 320
  const InstrumentHeight: nat := 300

  /** The plane rotates about the centre of its fuselage. */
  const PlanePivot := Point(83, 22)
  /** The point of the main sprite where the plane's pivot is placed. */
  const MainPivot := Point(160, 150)

  /** The first and last value of the loop counter. */
  const SweepStart: int := -60
  const SweepEnd: int := 60

  datatype Size = Size(w: nat, h: nat)
  datatype Placement = Placement(at: Point, size: Size)

  /** Sizes and positions that come with the pixel tables; their values are
      not part of this model, so they are kept as parameters. The four
      autopilot dots share one size. */
  datatype Assets = Assets(
    dial: Size, ball: Size, plane: Size,
    apDot: Size, stDot: Point, hdDot: Point, trkLoDot: Point, trkHiDot: Point,
    altDot: Placement, upDot: Placement, downDot: Placement,
    readyDot: Placement, lowVoltFlag: Placement)

  /** What `loop()` reads from the sprites: the main sprite's size, the
      ball sprite's height and the plane sprite's pivot. */
  datatype Geometry = Geometry(width: nat, height: nat, ballHeight: nat, planePivot: Point)

  /** The geometry once `setup()` has run. */
  function SetupGeometry(a: Assets): Geometry
  {
    Geometry(InstrumentWidth, InstrumentHeight, a.ball.h, PlanePivot)
  }

  function Abs(n: int): (r: nat)
    ensures r == n || r == -n
  {
    if n < 0 then -n else n
  }

  /** One pass of the loop body. `pause` says whether the 2000 ms delay is
      taken, `lampsDrawn` whether the nine lamp images are drawn, and the
      requests are the ones the main sprite receives, in order. */
  datatype Frame = Frame(
    i: int, angle: int, ballX: int, ballY: int,
    pause: bool, lampsDrawn: bool, requests: seq<Request>)

  function Lamp(p: Placement, img: Image): Request
  {
    PushImage(p.at.x, p.at.y, p.size.w, p.size.h, Table(img))
  }

  /** The nine lamp images, in the order the loop draws them. */
  function AllLamps(a: Assets): (r: seq<Request>)
    ensures |r| == 9
    ensures forall q :: q in r ==> q.PushImage? && q.data.Table? && q.data.image !in {Dial, BallImage, PlaneOutline}
  {
    [ Lamp(Placement(a.stDot, a.apDot), APDot),
      Lamp(Placement(a.hdDot, a.apDot), APDot),
      Lamp(Placement(a.trkLoDot, a.apDot), APDot),
      Lamp(Placement(a.trkHiDot, a.apDot), APDot),
      Lamp(a.altDot, AltDot),
      Lamp(a.upDot, UpDot),
      Lamp(a.downDot, DownDot),
      Lamp(a.readyDot, ReadyDot),
      Lamp(a.lowVoltFlag, LowVoltFlag) ]
  }

  /** The background request the loop starts every frame with. */
  function Background(a: Assets): Request
  {
    PushImage(0, 0, a.dial.w, a.dial.h, Table(Dial))
  }

  /** The requests of one frame: background, ball, the lamps when gated,
      then the main pivot, the rotated plane, and the transfer to the screen. */
  function FrameRequests(g: Geometry, a: Assets, angle: int, ballX: int, ballY: int): seq<Request>
  {
    [Background(a), PushFrom(BallSprite, ballX, ballY, TftWhite)]
    + (if angle < 10 then AllLamps(a) else [])
    + [ SetPivot(MainPivot),
        PushRotatedFrom(PlaneSprite, angle, TftWhite, g.planePivot, MainPivot),
        PushSprite(0, 0) ]
  }

  /** The frame the loop body produces for counter value `i`. The ball's
      vertical term is `round(abs(angle) / 5)` with C integer division on a
      non-negative value, so the rounding does nothing. */
  function FrameAt(g: Geometry, a: Assets, i: int): Frame
  {
    var angle := Abs(i) - 30;
    var ballX := g.width / 2 + angle - 10;
    var ballY := g.height - g.ballHeight - Abs(angle) / 5 - 24;
    Frame(i, angle, ballX, ballY, angle == 0, angle < 10, FrameRequests(g, a, angle, ballX, ballY))
  }

  /** The frames for the counter values from SweepStart up to, but not
      including, `n`, in counter order. */
  function SweepUpTo(g: Geometry, a: Assets, n: int): seq<Frame>
    decreases n - SweepStart
  {
    if n <= SweepStart then [] else SweepUpTo(g, a, n - 1) + [FrameAt(g, a, n - 1)]
  }

  /** The frames of one call of `loop()`. */
  function Sweep(g: Geometry, a: Assets): seq<Frame>
  {
    SweepUpTo(g, a, SweepEnd + 1)
  }

  /** All requests of a sequence of frames, in order. */
  function AllRequests(frames: seq<Frame>): seq<Request>
  {
    if frames == [] then [] else AllRequests(frames[..|frames| - 1]) + frames[|frames| - 1].requests
  }

  lemma ConcatAssoc<T>(a: seq<T>, b: seq<T>, c: seq<T>)
    ensures a + (b + c) == (a + b) + c
  {
  }

  lemma DropPrefix<T>(a: seq<T>, b: seq<T>)
    ensures (a + b)[|a|..] == b
  {
  }

  lemma AllRequestsAppend(frames: seq<Frame>, f: Frame)
    ensures AllRequests(frames + [f]) == AllRequests(frames) + f.requests
  {
    assert (frames + [f])[..|frames|] == frames;
  }

  /** The program's global sprites and compiled-in tables. */
  class Gauge {
    const assets: Assets
    const mainSpr: Sprite
    const planeSpr: Sprite
    const ballSpr: Sprite

    predicate Valid()
      reads this
    {
      mainSpr != planeSpr && mainSpr != ballSpr && planeSpr != ballSpr &&
      mainSpr.name == MainSprite && planeSpr.name == PlaneSprite && ballSpr.name == BallSprite
    }

    function Geom(): Geometry
      reads this, mainSpr, ballSpr, planeSpr
    {
      Geometry(mainSpr.width, mainSpr.height, ballSpr.height, planeSpr.pivot)
    }

    /** The global declarations: three sprite objects, none created yet. */
    constructor (assets: Assets)
      ensures Valid() && this.assets == assets
      ensures fresh(mainSpr) && fresh(planeSpr) && fresh(ballSpr)
      ensures mainSpr.log == [] && planeSpr.log == [] && ballSpr.log == []
    {
      this.assets := assets;
      mainSpr := new Sprite(MainSprite);
      planeSpr := new Sprite(PlaneSprite);
      ballSpr := new Sprite(BallSprite);
    }

    /** `setup()` without the serial port and display initialisation. */
    method Setup()
      requires Valid()
      modifies mainSpr, planeSpr, ballSpr
      ensures Geom() == SetupGeometry(assets)
      ensures mainSpr.width == InstrumentWidth && mainSpr.height == InstrumentHeight
      ensures planeSpr.width == assets.plane.w && planeSpr.height == assets.plane.h
      ensures ballSpr.width == assets.ball.w && ballSpr.height == assets.ball.h
      ensures planeSpr.pivot == PlanePivot
      ensures mainSpr.log == [Background(assets)]
      ensures planeSpr.log == [SetPivot(PlanePivot), PushImage(0, 0, assets.plane.w, assets.plane.h, Table(PlaneOutline))]
      ensures ballSpr.log == [PushImage(0, 0, assets.ball.w, assets.ball.h, Table(BallImage))]
    {
      mainSpr.CreateSprite(InstrumentWidth, InstrumentHeight);
      mainSpr.PushImageAt(0, 0, assets.dial.w, assets.dial.h, Table(Dial));

      planeSpr.CreateSprite(assets.plane.w, assets.plane.h);
      planeSpr.SetPivotTo(PlanePivot);
      planeSpr.PushImageAt(0, 0, assets.plane.w, assets.plane.h, Table(PlaneOutline));

      ballSpr.CreateSprite(assets.ball.w, assets.ball.h);
      ballSpr.PushImageAt(0, 0, assets.ball.w, assets.ball.h, Table(BallImage));
    }

    /** Draws the nine lamp images into the main sprite. */
    method DrawLamps()
      modifies mainSpr`log
      ensures mainSpr.log == old(mainSpr.log) + AllLamps(assets)
    {
      var a := assets;
      mainSpr.PushImageAt(a.stDot.x, a.stDot.y, a.apDot.w, a.apDot.h, Table(APDot));
      mainSpr.PushImageAt(a.hdDot.x, a.hdDot.y, a.apDot.w, a.apDot.h, Table(APDot));
      mainSpr.PushImageAt(a.trkLoDot.x, a.trkLoDot.y, a.apDot.w, a.apDot.h, Table(APDot));
      mainSpr.PushImageAt(a.trkHiDot.x, a.trkHiDot.y, a.apDot.w, a.apDot.h, Table(APDot));

      mainSpr.PushImageAt(a.altDot.at.x, a.altDot.at.y, a.altDot.size.w, a.altDot.size.h, Table(AltDot));

      mainSpr.PushImageAt(a.upDot.at.x, a.upDot.at.y, a.upDot.size.w, a.upDot.size.h, Table(UpDot));
      mainSpr.PushImageAt(a.downDot.at.x, a.downDot.at.y, a.downDot.size.w, a.downDot.size.h, Table(DownDot));

      mainSpr.PushImageAt(a.readyDot.at.x, a.readyDot.at.y, a.readyDot.size.w, a.readyDot.size.h, Table(ReadyDot));

      mainSpr.PushImageAt(a.lowVoltFlag.at.x, a.lowVoltFlag.at.y, a.lowVoltFlag.size.w, a.lowVoltFlag.size.h, Table(LowVoltFlag));
    }

    /** The start of the loop body: a fresh background, then the ball,
        placed from the main sprite's and the ball sprite's sizes. */
    method DrawBackgroundAndBall(angle: int) returns (ballX: int, ballY: int)
      requires Valid()
      modifies mainSpr`log
      ensures ballX == mainSpr.width / 2 + angle - 10
      ensures ballY == mainSpr.height - ballSpr.height - Abs(angle) / 5 - 24
      ensures mainSpr.log == old(mainSpr.log) + [Background(assets), PushFrom(BallSprite, ballX, ballY, TftWhite)]
    {
      mainSpr.PushImageAt(0, 0, assets.dial.w, assets.dial.h, Table(Dial));

      ballX := mainSpr.width / 2 + angle - 10;
      ballY := mainSpr.height - ballSpr.height - Abs(angle) / 5 - 24;
      ballSpr.PushToSprite(mainSpr, ballX, ballY, TftWhite);
    }

    /** The end of the loop body: the plane on top of everything, rotated
        about its own pivot onto the main pivot, then the whole sprite to
        the screen. */
    method DrawPlaneAndPresent(angle: int)
      requires Valid()
      modifies mainSpr`log, mainSpr`pivot
      ensures mainSpr.pivot == MainPivot
      ensures mainSpr.log == old(mainSpr.log) +
        [SetPivot(MainPivot), PushRotatedFrom(PlaneSprite, angle, TftWhite, planeSpr.pivot, MainPivot), PushSprite(0, 0)]
    {
      mainSpr.SetPivotTo(MainPivot);
      planeSpr.PushRotated(mainSpr, angle, TftWhite);

      mainSpr.PushSpriteAt(0, 0);
    }

    /** One pass of the loop body for counter value `i`. */
    method DrawFrame(i: int) returns (frame: Frame)
      requires Valid()
      modifies mainSpr`log, mainSpr`pivot
      ensures frame == FrameAt(old(Geom()), assets, i)
      ensures Geom() == old(Geom())
      ensures mainSpr.log == old(mainSpr.log) + frame.requests
      ensures mainSpr.pivot == MainPivot
    {
      var before := mainSpr.log;
      var angle := Abs(i) - 30;

      var ballX, ballY := DrawBackgroundAndBall(angle);

      var pause := angle == 0;

      ghost var lamps: seq<Request> := [];
      if angle < 10 {
        DrawLamps();
        lamps := AllLamps(assets);
      }

      DrawPlaneAndPresent(angle);
      ghost var head := [Background(assets), PushFrom(BallSprite, ballX, ballY, TftWhite)];
      ghost var tail := [SetPivot(MainPivot), PushRotatedFrom(PlaneSprite, angle, TftWhite, planeSpr.pivot, MainPivot), PushSprite(0, 0)];
      ConcatAssoc(before, head + lamps, tail);
      DropPrefix(before, head + lamps + tail);

      frame := Frame(i, angle, ballX, ballY, pause, angle < 10, mainSpr.log[|before|..]);
    }

    /** `loop()`: one sweep of 121 frames. Returns the frames it drew; the
        main sprite's log grows by exactly their requests. */
    method Loop() returns (frames: seq<Frame>)
      requires Valid()
      modifies mainSpr`log, mainSpr`pivot
      ensures frames == Sweep(old(Geom()), assets)
      ensures Geom() == old(Geom())
      ensures mainSpr.log == old(mainSpr.log) + AllRequests(frames)
      ensures mainSpr.pivot == MainPivot
      ensures forall k :: 0 <= k < |frames| ==> -30 <= frames[k].angle <= 30
    {
      ghost var g := Geom();
      ghost var log0 := mainSpr.log;
      frames := [];
      var i: int := SweepStart;
      while i <= SweepEnd
        invariant SweepStart <= i <= SweepEnd + 1
        invariant Geom() == g
        invariant frames == SweepUpTo(g, assets, i)
        invariant mainSpr.log == log0 + AllRequests(frames)
        invariant forall k :: 0 <= k < |frames| ==> -30 <= frames[k].angle <= 30
        invariant i > SweepStart ==> mainSpr.pivot == MainPivot
      {
        var frame := DrawFrame(i);
        AllRequestsAppend(frames, frame);
        ConcatAssoc(log0, AllRequests(frames), frame.requests);
        frames := frames + [frame];
        i := i + 1;
      }
    }
  }
}
