/**
 * What one call of `loop()` draws: the shape of the angle sweep, where the
 * ball goes, when the lamps and the pause happen, and the order of the
 * requests inside every frame.
 */
module SweepFacts {
  import opened Sprites
  import opened TurnCoordinator

  lemma {:induction false} SweepUpToShape(g: Geometry, a: Assets, n: int)
    requires SweepStart <= n
    ensures |SweepUpTo(g, a, n)| == n - SweepStart
    ensures forall k :: 0 <= k < n - SweepStart ==> SweepUpTo(g, a, n)[k] == FrameAt(g, a, SweepStart + k)
    decreases n - SweepStart
  {
    if n > SweepStart {
      SweepUpToShape(g, a, n - 1);
    }
  }

  /** A sweep has 121 frames, the k-th one for counter value k - 60. */
  lemma SweepShape(g: Geometry, a: Assets)
    ensures |Sweep(g, a)| == 121
    ensures forall k :: 0 <= k < 121 ==> Sweep(g, a)[k] == FrameAt(g, a, k - 60)
  {
    SweepUpToShape(g, a, SweepEnd + 1);
  }

  /** Every angle is |i| - 30 for a counter value i in [-60, 60], and so
      lies in [-30, 30]. */
  lemma SweepAngles(g: Geometry, a: Assets)
    ensures forall k :: 0 <= k < |Sweep(g, a)| ==>
      var f := Sweep(g, a)[k];
      f.i == k - 60 && -60 <= f.i <= 60 && f.angle == Abs(f.i) - 30 && -30 <= f.angle <= 30
  {
    SweepShape(g, a);
  }

  /** The angle starts at 30, falls one degree per frame to -30 in the
      middle frame, and climbs back to 30. */
  lemma SweepProfile(g: Geometry, a: Assets)
    ensures |Sweep(g, a)| == 121
    ensures Sweep(g, a)[0].angle == 30 && Sweep(g, a)[60].angle == -30 && Sweep(g, a)[120].angle == 30
    ensures forall k :: 0 <= k < 60 ==> Sweep(g, a)[k + 1].angle == Sweep(g, a)[k].angle - 1
    ensures forall k :: 60 <= k < 120 ==> Sweep(g, a)[k + 1].angle == Sweep(g, a)[k].angle + 1
  {
    SweepShape(g, a);
  }

  /** The frames for i and -i are the same apart from the counter. */
  lemma SweepSymmetric(g: Geometry, a: Assets)
    ensures |Sweep(g, a)| == 121
    ensures forall k :: 0 <= k < 121 ==>
      Sweep(g, a)[120 - k] == Sweep(g, a)[k].(i := -Sweep(g, a)[k].i)
  {
    SweepShape(g, a);
    forall k | 0 <= k < 121
      ensures Sweep(g, a)[120 - k] == Sweep(g, a)[k].(i := -Sweep(g, a)[k].i)
    {
      assert Abs(60 - k) == Abs(k - 60);
    }
  }

  /** The angle is 0 in exactly two frames, i = -30 and i = 30, and those
      are the frames that pause. */
  lemma SweepPauses(g: Geometry, a: Assets)
    ensures forall f :: f in Sweep(g, a) ==> (f.pause <==> f.angle == 0)
    ensures forall f :: f in Sweep(g, a) ==> (f.pause <==> f.i == -30 || f.i == 30)
    ensures (set k | 0 <= k < |Sweep(g, a)| && Sweep(g, a)[k].pause) == {30, 90}
  {
    SweepShape(g, a);
    var s := Sweep(g, a);
    assert s[30].pause && s[90].pause;
  }

  /** The nine lamp images are drawn exactly in the frames whose angle is
      below 10, which are the frames with -40 < i < 40 and include every
      negative angle. */
  lemma SweepLamps(g: Geometry, a: Assets)
    ensures forall f :: f in Sweep(g, a) ==> (f.lampsDrawn <==> f.angle < 10)
    ensures forall f :: f in Sweep(g, a) ==> (f.lampsDrawn <==> -40 < f.i < 40)
    ensures forall f :: f in Sweep(g, a) && f.angle < 0 ==> f.lampsDrawn
    ensures forall f, q :: f in Sweep(g, a) && q in AllLamps(a) ==> (q in f.requests <==> f.lampsDrawn)
  {
    SweepShape(g, a);
    forall f, q | f in Sweep(g, a) && q in AllLamps(a)
      ensures q in f.requests <==> f.lampsDrawn
    {
      FrameLampGate(g, a, f.i);
    }
  }

  /** Inside every frame: background first, the ball masked with white
      second, the lamps (if any) next, then the main pivot, the rotated
      plane, and the transfer to the screen last. The plane is rotated
      once and nothing draws after it. */
  lemma FrameOrder(g: Geometry, a: Assets, i: int)
    ensures var f := FrameAt(g, a, i);
      var r := f.requests;
      var n := |r|;
      n == (if f.lampsDrawn then 14 else 5) &&
      r[0] == Background(a) &&
      r[1] == PushFrom(BallSprite, f.ballX, f.ballY, TftWhite) &&
      r[2..n - 3] == (if f.lampsDrawn then AllLamps(a) else []) &&
      r[n - 3] == SetPivot(MainPivot) &&
      r[n - 2] == PushRotatedFrom(PlaneSprite, f.angle, TftWhite, g.planePivot, MainPivot) &&
      r[n - 1] == PushSprite(0, 0)
  {
    var f := FrameAt(g, a, i);
    var lamps := if f.lampsDrawn then AllLamps(a) else [];
    var head := [Background(a), PushFrom(BallSprite, f.ballX, f.ballY, TftWhite)];
    var tail := [SetPivot(MainPivot), PushRotatedFrom(PlaneSprite, f.angle, TftWhite, g.planePivot, MainPivot), PushSprite(0, 0)];
    var r := head + lamps + tail;
    assert f.requests == r;
    assert r[2..|r| - 3] == lamps;
  }

  /** Nothing before the last two requests of a frame rotates a sprite or
      presents the main sprite: the plane is composited once, after the
      background, the ball and the lamps. */
  lemma FramePlaneLast(g: Geometry, a: Assets, i: int)
    ensures var r := FrameAt(g, a, i).requests;
      |r| >= 5 &&
      forall k :: 0 <= k < |r| - 2 ==> !r[k].PushRotatedFrom? && !r[k].PushSprite?
  {
    FrameOrder(g, a, i);
    var r := FrameAt(g, a, i).requests;
    forall k | 0 <= k < |r| - 2
      ensures !r[k].PushRotatedFrom? && !r[k].PushSprite?
    {
      if 2 <= k < |r| - 3 {
        assert r[k] == r[2..|r| - 3][k - 2];
        assert r[k] in AllLamps(a);
      }
    }
  }

  /** A lamp image is among a frame's requests exactly when the frame's
      lamps are gated on: no other request of the frame pushes a lamp table. */
  lemma FrameLampGate(g: Geometry, a: Assets, i: int)
    ensures var f := FrameAt(g, a, i);
      f.lampsDrawn <==> f.angle < 10
    ensures var f := FrameAt(g, a, i);
      forall q :: q in AllLamps(a) ==> (q in f.requests <==> f.lampsDrawn)
  {
    var f := FrameAt(g, a, i);
    var lamps := if f.lampsDrawn then AllLamps(a) else [];
    var head := [Background(a), PushFrom(BallSprite, f.ballX, f.ballY, TftWhite)];
    var tail := [SetPivot(MainPivot), PushRotatedFrom(PlaneSprite, f.angle, TftWhite, g.planePivot, MainPivot), PushSprite(0, 0)];
    assert f.requests == head + lamps + tail;
    forall q | q in AllLamps(a)
      ensures q in f.requests <==> f.lampsDrawn
    {
      assert q !in head && q !in tail;
    }
  }

  /** How much the ball is lifted above its lowest position: the
      `round(abs(angle) / 5)` term. */
  function BallLift(a: Assets, f: Frame): int
  {
    InstrumentHeight - a.ball.h - 24 - f.ballY
  }

  /** After `setup()`, the ball's x is 150 + angle, within [120, 180]; its
      lift is abs(angle) / 5 in integer division, within [0, 6], and largest
      exactly at the ends of the sweep. */
  lemma SweepBallAfterSetup(a: Assets)
    ensures forall f :: f in Sweep(SetupGeometry(a), a) ==>
      f.ballX == 150 + f.angle && 120 <= f.ballX <= 180 &&
      BallLift(a, f) == Abs(f.angle) / 5 && 0 <= BallLift(a, f) <= 6 &&
      (BallLift(a, f) == 6 <==> Abs(f.angle) == 30)
  {
    SweepShape(SetupGeometry(a), a);
  }

  /** After `setup()`, every frame turns the plane about its pivot (83, 22)
      placed on the point (160, 150) of the main sprite. */
  lemma SweepPlaneAfterSetup(a: Assets)
    ensures forall f :: f in Sweep(SetupGeometry(a), a) ==>
      PushRotatedFrom(PlaneSprite, f.angle, TftWhite, Point(83, 22), Point(160, 150)) in f.requests
  {
    var g := SetupGeometry(a);
    SweepShape(g, a);
    forall f | f in Sweep(g, a)
      ensures PushRotatedFrom(PlaneSprite, f.angle, TftWhite, Point(83, 22), Point(160, 150)) in f.requests
    {
      FrameOrder(g, a, f.i);
    }
  }
}
