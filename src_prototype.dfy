/** The simulation of the src prototype mode (src/modes/prototype.js): one
    physics for both forms (the cube's gravity and ground also act on the
    plane), a four-kind level, and barrier pairs for the plane. */
module SrcPrototypeMode {
  import opened World
  import opened Layout

  const JumpVelocity: real := 0.45
  const PlaneThrust: real := 0.015
  /** The player's x: set when the player is created, copied by transforms. */
  const PlayerX: real := -4.0
  const StartSpeed: real := 0.12
  const ScoreStep: real := 0.2
  const SpeedPerScore: real := 0.00005
  const GroundPieces: nat := 30
  const GroundWrap: real := 90.0
  const BarrierCount: nat := 8
  const BarrierSpacing: real := 8.0
  const LevelDraws: nat := 20
  const CubeDraws: nat := 10
  const PortalStartX: real := 30.0

  /** Recycled barriers reappear at x = 50 with a gap centred in
      [-0.5, 1.5) and 2.5 to 3.0 high. */
  const Gaps: GapRule := GapRule(50.0, Spread(-0.5, 2.0), Spread(2.5, 0.5))
  /** Barriers spawned by a transform have a gap centred in [-0.2, 1.3) and
      3.2 to 4.0 high (they are first placed 8 apart, not at the respawn x). */
  const SpawnGaps: GapRule := GapRule(50.0, Spread(-0.2, 1.5), Spread(3.2, 0.8))

  /** The draws a portal may consume when it transforms the player: the gaps
      of a plane section, kinds and platform heights of a cube section. */
  datatype PortalDraws = PortalDraws(gapYs: seq<real>, gapSizes: seq<real>, kinds: seq<real>, heights: seq<real>)
  {
    predicate Ok()
    {
      |gapYs| == |gapSizes| == BarrierCount && AllDraws(gapYs) && AllDraws(gapSizes) &&
      |kinds| == |heights| == CubeDraws && AllDraws(kinds) && AllDraws(heights)
    }
  }

  predicate AllPortalDrawsOk(ds: seq<PortalDraws>)
  {
    forall i :: 0 <= i < |ds| ==> ds[i].Ok()
  }

  /** Every gap of this mode, spawned or recycled, lets the plane through:
      it is higher than the plane's extent, and its centre is above the
      ground the plane rests on. */
  lemma GapsPassable(b: GapBarrier)
    requires || (Gaps.gapY.low <= b.gapY < Gaps.gapY.low + Gaps.gapY.span &&
                 Gaps.gapSize.low <= b.gapSize < Gaps.gapSize.low + Gaps.gapSize.span)
             || (SpawnGaps.gapY.low <= b.gapY < SpawnGaps.gapY.low + SpawnGaps.gapY.span &&
                 SpawnGaps.gapSize.low <= b.gapSize < SpawnGaps.gapSize.low + SpawnGaps.gapSize.span)
    ensures var y := b.gapY;
            CubeFloor <= y &&
            b.gapY - b.gapSize / 2.0 <= y - PlaneRadius && y + PlaneRadius <= b.gapY + b.gapSize / 2.0 &&
            !BarrierHit(PlayerX, y, b)
  {
  }

  // ---------------------------------------------------------------------
  // Specification of the portal pass

  /** Only the active form has obstacles; platforms stand above the ground
      and both halves of a barrier move together. */
  ghost predicate PoolsOk(form: Form, spikes: seq<Spike>, platforms: seq<Platform>, barriers: seq<GapBarrier>)
  {
    && (form == Cube ==> barriers == [])
    && (form == Plane ==> spikes == [] && platforms == [])
    && PlatformsAboveGround(platforms)
    && BarriersAligned(barriers)
  }

  ghost predicate SceneOk(s: Scene<GapBarrier>)
  {
    PoolsOk(s.form, s.spikes, s.platforms, s.barriers)
  }

  /** What a firing portal does, keeping the player's velocity: a cube
      meeting a plane portal becomes a plane among eight fresh barrier pairs
      (`transformToPlane`); a plane meeting a cube portal becomes a cube on a
      fresh course of ten draws of the cube kinds from x = 10
      (`transformToCube`); a player that already has the portal's form is
      left alone. */
  function Transition(s: Scene<GapBarrier>, target: Form, d: PortalDraws): (r: Scene<GapBarrier>)
    requires d.Ok()
    ensures r.form == target && r.v == s.v
    ensures target == s.form ==> r == s
    ensures SceneOk(s) ==> SceneOk(r)
    ensures SceneOk(s) && s.form == Cube && target == Plane ==>
              r.spikes == [] && r.platforms == [] && r.barriers == BarrierField(BarrierSpacing, SpawnGaps, d.gapYs, d.gapSizes)
    ensures SceneOk(s) && s.form == Plane && target == Cube ==>
              var c := Generate(SrcCubeKinds, d.kinds, d.heights, 10.0);
              r.barriers == [] && r.spikes == c.spikes && r.platforms == c.platforms
  {
    SrcCubeKindsOk();
    if target == s.form then s
    else
      match target
      case Plane => Scene(Plane, s.v, [], [], s.barriers + BarrierField(BarrierSpacing, SpawnGaps, d.gapYs, d.gapSizes))
      case Cube =>
        var c := Generate(SrcCubeKinds, d.kinds, d.heights, 10.0);
        GenerateWellLaid(SrcCubeKinds, d.kinds, d.heights, 10.0);
        Scene(Cube, s.v, s.spikes + c.spikes, s.platforms + c.platforms, [])
  }

  /** The portal pass of `updatePortals` on the scene: portal i, when it
      fires, applies the transition to its target with draws i. The form it
      leaves is the one the last firing portal names; if nothing fires the
      scene is untouched; the velocity is always kept. */
  function PortalPass(s: Scene<GapBarrier>, ps: seq<Portal>, ds: seq<PortalDraws>, speed: real): (r: Scene<GapBarrier>)
    requires |ds| == |ps| && AllPortalDrawsOk(ds)
    ensures r.form == FormAfterPortals(s.form, ps, speed, PlayerX, false)
    ensures (forall i :: 0 <= i < |ps| ==> StepPortal(ps[i], speed, PlayerX, false).trigger.None?) ==> r == s
    ensures r.v == s.v
    ensures SceneOk(s) ==> SceneOk(r)
    decreases |ps|
  {
    if |ps| == 0 then s
    else
      var n := |ps| - 1;
      var before := PortalPass(s, ps[..n], ds[..n], speed);
      assert forall i :: 0 <= i < n ==> ps[..n][i] == ps[i];
      assert ds[n].Ok();
      match StepPortal(ps[n], speed, PlayerX, false).trigger
      case Some(t) => Transition(before, t, ds[n])
      case None => before
  }

  /** Passing one more portal applies its transition, if it fires, to the
      scene the earlier portals left. */
  lemma PortalPassSnoc(s: Scene<GapBarrier>, ps: seq<Portal>, ds: seq<PortalDraws>, speed: real, i: nat,
                       before: Scene<GapBarrier>, after: Scene<GapBarrier>)
    requires |ds| == |ps| && AllPortalDrawsOk(ds) && i < |ps|
    requires before == PortalPass(s, ps[..i], ds[..i], speed)
    requires var t := StepPortal(ps[i], speed, PlayerX, false).trigger;
             ds[i].Ok() && after == (if t.Some? then Transition(before, t.value, ds[i]) else before)
    ensures after == PortalPass(s, ps[..i + 1], ds[..i + 1], speed)
  {
    assert ps[..i + 1][..i] == ps[..i];
    assert ds[..i + 1][..i] == ds[..i];
  }

  // ---------------------------------------------------------------------
  // Specification of the tick

  /** Score and speed agree, and the pools keep their invariant. */
  ghost predicate StateOk(st: State<GapBarrier>)
  {
    && st.score >= 0.0 && st.speed == StartSpeed + st.score * SpeedPerScore
    && PoolsOk(st.form, st.spikes, st.platforms, st.barriers)
  }

  /** `handleInput` on the state. Input only touches the player's velocity
      and ground flag: a plane's velocity never drops, a cube only leaves the
      ground by a jump at 0.45, and nothing happens once the game is over or
      while the control is released. */
  function Pressed(st: State<GapBarrier>, keys: set<string>, mobileJump: bool): (r: State<GapBarrier>)
    ensures r == st.(body := r.body) && r.body.y == st.body.y
    ensures st.over || !JumpHeld(keys, mobileJump) ==> r == st
    ensures st.form == Plane ==> r.body.v >= st.body.v && r.body.grounded == st.body.grounded
    ensures st.form == Cube && r.body != st.body ==>
              st.body.grounded && r.body == Body(st.body.y, JumpVelocity, false)
  {
    if st.over || !JumpHeld(keys, mobileJump) then st
    else if st.form == Plane then st.(body := st.body.(v := st.body.v + PlaneThrust))
    else if st.body.grounded then st.(body := Body(st.body.y, JumpVelocity, false))
    else st
  }

  /** The player's motion at the head of `update`, the same in both forms. */
  function Motion(st: State<GapBarrier>): Body
  {
    FallAndLand(PlayerX, st.body, st.platforms)
  }

  /** The scene after the scrolling passes, with the moved player's velocity:
      platforms always scroll, spikes only for a cube, barriers only for a
      plane. */
  function Scrolled(st: State<GapBarrier>, v: real, platformYs: seq<real>, gapYs: seq<real>, gapSizes: seq<real>): Scene<GapBarrier>
    requires |platformYs| == |st.platforms| && AllDraws(platformYs)
    requires |gapYs| == |gapSizes| == |st.barriers| && AllDraws(gapYs) && AllDraws(gapSizes)
  {
    Scene(st.form, v,
          if st.form == Cube then ScrollSpikes(st.spikes, st.speed) else st.spikes,
          ScrollPlatforms(st.platforms, st.speed, platformYs),
          if st.form == Plane then ScrollBarriers(st.barriers, st.speed, Gaps, gapYs, gapSizes) else st.barriers)
  }

  /** The collision test of the active form against the scrolled obstacles. */
  predicate Touches(y: real, s: Scene<GapBarrier>)
  {
    if s.form == Cube then AnySpikeHit(PlayerX, y, s.spikes) else AnyBarrierHit(PlayerX, y, s.barriers)
  }

  /** One `update` of the game on the whole state: the player falls and
      lands; ground and platforms scroll, spikes only for a cube and barriers
      only for a plane, and the game ends iff the player touches one of the
      active form's obstacles; then the portal pass; then score and speed. */
  function Step(st: State<GapBarrier>, platformYs: seq<real>, gapYs: seq<real>, gapSizes: seq<real>,
                ds: seq<PortalDraws>): (r: State<GapBarrier>)
    requires |platformYs| == |st.platforms| && AllDraws(platformYs)
    requires |gapYs| == |gapSizes| == |st.barriers| && AllDraws(gapYs) && AllDraws(gapSizes)
    requires |ds| == |st.portals| && AllPortalDrawsOk(ds)
    ensures st.over ==> r == st
    ensures !st.over ==> r.score == st.score + ScoreStep && r.speed == StartSpeed + r.score * SpeedPerScore
  {
    if st.over then st
    else
      var b := Motion(st);
      var scrolled := Scrolled(st, b.v, platformYs, gapYs, gapSizes);
      assert PlatformsAboveGround(st.platforms) ==> PlatformsAboveGround(scrolled.platforms) by {
        if PlatformsAboveGround(st.platforms) {
          ScrollPlatformsAboveGround(st.platforms, st.speed, platformYs);
        }
      }
      var s := PortalPass(scrolled, st.portals, ds, st.speed);
      var score := st.score + ScoreStep;
      State(b.(v := s.v), s.form, score, StartSpeed + score * SpeedPerScore, Touches(b.y, scrolled),
            ScrollGrounds(st.ground, st.speed, GroundWrap), s.spikes, s.platforms, s.barriers,
            StepPortals(st.portals, st.speed, PlayerX, false))
  }

  /** The tick keeps the state's invariant. */
  lemma StepKeepsInvariant(st: State<GapBarrier>, platformYs: seq<real>, gapYs: seq<real>, gapSizes: seq<real>,
                           ds: seq<PortalDraws>)
    requires |platformYs| == |st.platforms| && AllDraws(platformYs)
    requires |gapYs| == |gapSizes| == |st.barriers| && AllDraws(gapYs) && AllDraws(gapSizes)
    requires |ds| == |st.portals| && AllPortalDrawsOk(ds)
    requires StateOk(st)
    ensures StateOk(Step(st, platformYs, gapYs, gapSizes, ds))
  {
  }

  /** A running tick scrolls the ground, steps every portal, leaves the form
      the portals decide, and moves the player by the common physics (the
      portal pass never moves the player nor changes its velocity). */
  lemma StepAdvances(st: State<GapBarrier>, platformYs: seq<real>, gapYs: seq<real>, gapSizes: seq<real>,
                     ds: seq<PortalDraws>)
    requires |platformYs| == |st.platforms| && AllDraws(platformYs)
    requires |gapYs| == |gapSizes| == |st.barriers| && AllDraws(gapYs) && AllDraws(gapSizes)
    requires |ds| == |st.portals| && AllPortalDrawsOk(ds)
    requires !st.over
    ensures var r := Step(st, platformYs, gapYs, gapSizes, ds);
            && r.ground == ScrollGrounds(st.ground, st.speed, GroundWrap)
            && r.portals == StepPortals(st.portals, st.speed, PlayerX, false)
            && r.form == FormAfterPortals(st.form, st.portals, st.speed, PlayerX, false)
            && r.body == Motion(st)
  {
  }

  /** A plane stands on the ground at worst and crashes iff it is within
      reach of a scrolled barrier pair and outside its gap. */
  lemma StepPlane(st: State<GapBarrier>, platformYs: seq<real>, gapYs: seq<real>, gapSizes: seq<real>,
                  ds: seq<PortalDraws>)
    requires |platformYs| == |st.platforms| && AllDraws(platformYs)
    requires |gapYs| == |gapSizes| == |st.barriers| && AllDraws(gapYs) && AllDraws(gapSizes)
    requires |ds| == |st.portals| && AllPortalDrawsOk(ds)
    requires !st.over && st.form == Plane && PlatformsAboveGround(st.platforms)
    ensures var r := Step(st, platformYs, gapYs, gapSizes, ds);
            && -MaxFallVelocity <= r.body.v <= MaxFallVelocity && r.body.y >= CubeFloor
            && r.over == AnyBarrierHit(PlayerX, r.body.y, ScrollBarriers(st.barriers, st.speed, Gaps, gapYs, gapSizes))
  {
  }

  /** A cube never sinks below the ground top and dies iff it touches one of
      the scrolled spikes. */
  lemma StepCube(st: State<GapBarrier>, platformYs: seq<real>, gapYs: seq<real>, gapSizes: seq<real>,
                 ds: seq<PortalDraws>)
    requires |platformYs| == |st.platforms| && AllDraws(platformYs)
    requires |gapYs| == |gapSizes| == |st.barriers| && AllDraws(gapYs) && AllDraws(gapSizes)
    requires |ds| == |st.portals| && AllPortalDrawsOk(ds)
    requires !st.over && st.form == Cube && PlatformsAboveGround(st.platforms)
    ensures var r := Step(st, platformYs, gapYs, gapSizes, ds);
            && r.body.y >= CubeFloor
            && r.over == AnySpikeHit(PlayerX, r.body.y, ScrollSpikes(st.spikes, st.speed))
  {
  }

  /** A tick in which no portal fires keeps the form and only scrolls the
      pools: platforms always, spikes for a cube, barriers for a plane. */
  lemma StepWithoutPortal(st: State<GapBarrier>, platformYs: seq<real>, gapYs: seq<real>, gapSizes: seq<real>,
                          ds: seq<PortalDraws>)
    requires |platformYs| == |st.platforms| && AllDraws(platformYs)
    requires |gapYs| == |gapSizes| == |st.barriers| && AllDraws(gapYs) && AllDraws(gapSizes)
    requires |ds| == |st.portals| && AllPortalDrawsOk(ds)
    requires !st.over
    requires forall i :: 0 <= i < |st.portals| ==> StepPortal(st.portals[i], st.speed, PlayerX, false).trigger.None?
    ensures var r := Step(st, platformYs, gapYs, gapSizes, ds);
            && r.form == st.form && r.body == Motion(st)
            && r.platforms == ScrollPlatforms(st.platforms, st.speed, platformYs)
            && r.spikes == (if st.form == Cube then ScrollSpikes(st.spikes, st.speed) else st.spikes)
            && r.barriers == (if st.form == Plane then ScrollBarriers(st.barriers, st.speed, Gaps, gapYs, gapSizes) else st.barriers)
  {
  }

  /** Step assembled from its parts, for the methods that compute it in
      stages. */
  lemma StepParts(st: State<GapBarrier>, platformYs: seq<real>, gapYs: seq<real>, gapSizes: seq<real>,
                  ds: seq<PortalDraws>, b: Body, scrolled: Scene<GapBarrier>, s: Scene<GapBarrier>, r: State<GapBarrier>)
    requires |platformYs| == |st.platforms| && AllDraws(platformYs)
    requires |gapYs| == |gapSizes| == |st.barriers| && AllDraws(gapYs) && AllDraws(gapSizes)
    requires |ds| == |st.portals| && AllPortalDrawsOk(ds)
    requires !st.over && b == Motion(st)
    requires scrolled == Scrolled(st, b.v, platformYs, gapYs, gapSizes)
    requires s == PortalPass(scrolled, st.portals, ds, st.speed)
    requires r.body == b.(v := s.v) && r.form == s.form && r.over == Touches(b.y, scrolled)
    requires r.score == st.score + ScoreStep && r.speed == StartSpeed + r.score * SpeedPerScore
    requires r.ground == ScrollGrounds(st.ground, st.speed, GroundWrap)
    requires r.spikes == s.spikes && r.platforms == s.platforms && r.barriers == s.barriers
    requires r.portals == StepPortals(st.portals, st.speed, PlayerX, false)
    ensures Step(st, platformYs, gapYs, gapSizes, ds) == r
  {
  }

  class PrototypeMode {
    var playerY: real
    var verticalVelocity: real
    var isOnGround: bool
    var gameMode: Form
    var score: real
    var gameSpeed: real
    var isGameOver: bool
    /** x of each ground piece */
    var ground: seq<real>
    var platforms: seq<Platform>
    var spikes: seq<Spike>
    var barriers: seq<GapBarrier>
    var portals: seq<Portal>

    /** Speed follows score; only the active form has obstacles; platforms
        stand above the ground and both halves of a barrier move together. */
    ghost predicate Valid()
      reads this`score, this`gameSpeed, this`gameMode, this`spikes, this`platforms, this`barriers
    {
      && score >= 0.0 && gameSpeed == StartSpeed + score * SpeedPerScore
      && PoolsOk(gameMode, spikes, platforms, barriers)
    }

    function PlayerBody(): Body
      reads this
    {
      Body(playerY, verticalVelocity, isOnGround)
    }

    function Snapshot(): State<GapBarrier>
      reads this
    {
      State(PlayerBody(), gameMode, score, gameSpeed, isGameOver, ground, spikes, platforms, barriers, portals)
    }

    /** The part of the state a firing portal may change. */
    function PortalScene(): Scene<GapBarrier>
      reads this`gameMode, this`verticalVelocity, this`spikes, this`platforms, this`barriers
    {
      Scene(gameMode, verticalVelocity, spikes, platforms, barriers)
    }

    /** The state before `init`: no player yet, empty pools. */
    constructor ()
      ensures Valid()
      ensures score == 0.0 && gameSpeed == StartSpeed && !isGameOver && gameMode == Cube
      ensures verticalVelocity == 0.0 && !isOnGround
      ensures ground == [] && platforms == [] && spikes == [] && barriers == [] && portals == []
    {
      playerY := 0.0;
      verticalVelocity := 0.0;
      isOnGround := false;
      gameMode := Cube;
      score := 0.0;
      gameSpeed := StartSpeed;
      isGameOver := false;
      ground := [];
      platforms := [];
      spikes := [];
      barriers := [];
      portals := [];
    }

    /** `init`: the player on the ground, 30 ground pieces, the first level. */
    method Init(kinds: seq<real>, heights: seq<real>)
      requires Valid() && gameMode == Cube
      requires |kinds| == |heights| == LevelDraws && AllDraws(kinds) && AllDraws(heights)
      modifies this`playerY, this`ground, this`spikes, this`platforms, this`portals
      ensures Valid()
      ensures playerY == CubeFloor
      ensures ground == old(ground) + GroundRow(GroundPieces, 3.0, -10.0)
      ensures var c := Generate(SrcLevelKinds, kinds, heights, 5.0);
              spikes == old(spikes) + c.spikes && platforms == old(platforms) + c.platforms
      ensures portals == old(portals) + [Portal(PortalStartX, Plane, false)]
    {
      playerY := CubeFloor;
      CreateGround();
      CreateLevel(kinds, heights);
    }

    method CreateGround()
      modifies this`ground
      ensures ground == old(ground) + GroundRow(GroundPieces, 3.0, -10.0)
    {
      var i := 0;
      while i < GroundPieces
        invariant 0 <= i <= GroundPieces
        invariant ground == old(ground) + GroundRow(i, 3.0, -10.0)
      {
        ground := ground + [(i as real) * 3.0 - 10.0];
        i := i + 1;
      }
    }

    /** `createLevel`: 20 draws of four kinds from x = 5, then one portal at
        x = 30 aimed at the plane. */
    method CreateLevel(kinds: seq<real>, heights: seq<real>)
      requires Valid() && gameMode == Cube
      requires |kinds| == |heights| == LevelDraws && AllDraws(kinds) && AllDraws(heights)
      modifies this`spikes, this`platforms, this`portals
      ensures Valid()
      ensures var c := Generate(SrcLevelKinds, kinds, heights, 5.0);
              spikes == old(spikes) + c.spikes && platforms == old(platforms) + c.platforms
      ensures portals == old(portals) + [Portal(PortalStartX, Plane, false)]
    {
      LayLevel(kinds, heights);
      portals := portals + [Portal(PortalStartX, Plane, false)];
    }

    /** The obstacle loop of `createLevel`. */
    method LayLevel(kinds: seq<real>, heights: seq<real>)
      requires |kinds| == |heights| == LevelDraws && AllDraws(kinds) && AllDraws(heights)
      requires PlatformsAboveGround(platforms)
      modifies this`spikes, this`platforms
      ensures var c := Generate(SrcLevelKinds, kinds, heights, 5.0);
              spikes == old(spikes) + c.spikes && platforms == old(platforms) + c.platforms
      ensures PlatformsAboveGround(platforms)
    {
      SrcLevelKindsOk();
      var xPos := 5.0;
      var i := 0;
      while i < |kinds|
        invariant 0 <= i <= |kinds|
        invariant var c := Generate(SrcLevelKinds, kinds[..i], heights[..i], 5.0);
                  spikes == old(spikes) + c.spikes && platforms == old(platforms) + c.platforms && xPos == c.cursor
        invariant PlatformsAboveGround(platforms)
      {
        GenerateSnoc(SrcLevelKinds, kinds, heights, 5.0, i);
        ghost var before := Generate(SrcLevelKinds, kinds[..i], heights[..i], 5.0);
        var obstacleType := Pick(kinds[i], 4);
        xPos := PlaceLevelObstacle(obstacleType, xPos, heights[i]);
        PlacePieceShift(old(spikes), old(platforms), before, SrcLevelKinds[obstacleType], heights[i]);
        assert PlacePiece(before, SrcLevelKinds[obstacleType], heights[i]) == Generate(SrcLevelKinds, kinds[..i + 1], heights[..i + 1], 5.0);
        i := i + 1;
      }
      assert kinds[..i] == kinds && heights[..i] == heights;
    }

    /** One draw of the switch of `createLevel`. */
    method PlaceLevelObstacle(obstacleType: nat, xPos: real, h: real) returns (next: real)
      requires obstacleType < |SrcLevelKinds| && IsDraw(h)
      requires PlatformsAboveGround(platforms)
      modifies this`spikes, this`platforms
      ensures Course(spikes, platforms, next) == PlacePiece(Course(old(spikes), old(platforms), xPos), SrcLevelKinds[obstacleType], h)
      ensures PlatformsAboveGround(platforms)
    {
      SrcLevelKindsOk();
      if obstacleType == 0 {
        spikes := spikes + [Spike(xPos, SpikeY)];
        next := xPos + 4.0;
      } else if obstacleType == 1 {
        platforms := platforms + [Platform(xPos, GroundY + (0.5 + h * 1.5))];
        next := xPos + 5.0;
      } else if obstacleType == 2 {
        spikes := spikes + [Spike(xPos, SpikeY), Spike(xPos + 1.2, SpikeY), Spike(xPos + 2.4, SpikeY)];
        next := xPos + 6.0;
      } else {
        platforms := platforms + [Platform(xPos, GroundY + (2.0 + h * 1.0))];
        spikes := spikes + [Spike(xPos + 2.0, SpikeY)];
        next := xPos + 6.0;
        assert SpikesAt(xPos, [2.0]) == [Spike(xPos + 2.0, SpikeY)];
      }
    }

    /** `handleInput`: a grounded cube jumps; a plane gains thrust each tick
        the control is held; nothing happens once the game is over. */
    method HandleInput(keys: set<string>, mobileJump: bool)
      modifies this`verticalVelocity, this`isOnGround
      ensures isGameOver ==> verticalVelocity == old(verticalVelocity) && isOnGround == old(isOnGround)
      ensures !isGameOver && gameMode == Cube ==>
                if JumpHeld(keys, mobileJump) && old(isOnGround)
                then verticalVelocity == JumpVelocity && !isOnGround
                else verticalVelocity == old(verticalVelocity) && isOnGround == old(isOnGround)
      ensures !isGameOver && gameMode == Plane ==>
                isOnGround == old(isOnGround) &&
                verticalVelocity == old(verticalVelocity) + (if JumpHeld(keys, mobileJump) then PlaneThrust else 0.0)
    {
      if isGameOver {
        return;
      }
      if gameMode == Cube {
        if ("Space" in keys || "ArrowUp" in keys || mobileJump) && isOnGround {
          verticalVelocity := JumpVelocity;
          isOnGround := false;
        }
      } else if gameMode == Plane {
        if "Space" in keys || "ArrowUp" in keys || mobileJump {
          verticalVelocity := verticalVelocity + PlaneThrust;
        }
      }
    }

    /** `update`: one tick of the running game. */
    method Update(platformYs: seq<real>, gapYs: seq<real>, gapSizes: seq<real>, portalDraws: seq<PortalDraws>)
      requires Valid()
      requires |platformYs| == |platforms| && AllDraws(platformYs)
      requires |gapYs| == |gapSizes| == |barriers| && AllDraws(gapYs) && AllDraws(gapSizes)
      requires |portalDraws| == |portals| && AllPortalDrawsOk(portalDraws)
      modifies this
      ensures Valid()
      ensures Snapshot() == Step(old(Snapshot()), platformYs, gapYs, gapSizes, portalDraws)
    {
      if isGameOver {
        return;
      }
      Tick(platformYs, gapYs, gapSizes, portalDraws);
    }

    /** The body of `update` for a running game. */
    method Tick(platformYs: seq<real>, gapYs: seq<real>, gapSizes: seq<real>, portalDraws: seq<PortalDraws>)
      requires Valid() && !isGameOver
      requires |platformYs| == |platforms| && AllDraws(platformYs)
      requires |gapYs| == |gapSizes| == |barriers| && AllDraws(gapYs) && AllDraws(gapSizes)
      requires |portalDraws| == |portals| && AllPortalDrawsOk(portalDraws)
      modifies this
      ensures Valid()
      ensures Snapshot() == Step(old(Snapshot()), platformYs, gapYs, gapSizes, portalDraws)
    {
      ghost var st := Snapshot();
      MoveAndScroll(platformYs, gapYs, gapSizes);
      ghost var b := PlayerBody();
      ghost var scrolled := PortalScene();
      ghost var over := isGameOver;
      ghost var g := ground;
      UpdatePortals(portalDraws);
      ghost var s := PortalScene();
      score := score + ScoreStep;
      gameSpeed := StartSpeed + score * SpeedPerScore;
      ghost var r := State(b.(v := s.v), s.form, score, gameSpeed, over, g, s.spikes, s.platforms, s.barriers, portals);
      assert Snapshot() == r;
      StepParts(st, platformYs, gapYs, gapSizes, portalDraws, b, scrolled, s, r);
    }

    /** The first half of `update`: the player's motion, then the scrolling
        passes with their collision tests. */
    method MoveAndScroll(platformYs: seq<real>, gapYs: seq<real>, gapSizes: seq<real>)
      requires Valid() && !isGameOver
      requires |platformYs| == |platforms| && AllDraws(platformYs)
      requires |gapYs| == |gapSizes| == |barriers| && AllDraws(gapYs) && AllDraws(gapSizes)
      modifies this`verticalVelocity, this`playerY, this`isOnGround
      modifies this`ground, this`platforms, this`spikes, this`barriers, this`isGameOver
      ensures Valid()
      ensures PlayerBody() == Motion(old(Snapshot()))
      ensures PortalScene() == Scrolled(old(Snapshot()), verticalVelocity, platformYs, gapYs, gapSizes)
      ensures isGameOver == Touches(playerY, PortalScene())
      ensures ground == ScrollGrounds(old(ground), gameSpeed, GroundWrap)
    {
      MovePlayer();
      ScrollObstacles(platformYs, gapYs, gapSizes);
    }

    /** One animation frame of the page: input, then the tick. */
    method Frame(keys: set<string>, mobileJump: bool,
                 platformYs: seq<real>, gapYs: seq<real>, gapSizes: seq<real>, portalDraws: seq<PortalDraws>)
      requires Valid()
      requires |platformYs| == |platforms| && AllDraws(platformYs)
      requires |gapYs| == |gapSizes| == |barriers| && AllDraws(gapYs) && AllDraws(gapSizes)
      requires |portalDraws| == |portals| && AllPortalDrawsOk(portalDraws)
      modifies this
      ensures Valid()
      ensures Snapshot() == Step(Pressed(old(Snapshot()), keys, mobileJump), platformYs, gapYs, gapSizes, portalDraws)
    {
      HandleInput(keys, mobileJump);
      Update(platformYs, gapYs, gapSizes, portalDraws);
    }

    /** The scrolling passes of `update`, with their collision tests. */
    method ScrollObstacles(platformYs: seq<real>, gapYs: seq<real>, gapSizes: seq<real>)
      requires Valid() && !isGameOver
      requires |platformYs| == |platforms| && AllDraws(platformYs)
      requires |gapYs| == |gapSizes| == |barriers| && AllDraws(gapYs) && AllDraws(gapSizes)
      modifies this`ground, this`platforms, this`spikes, this`barriers, this`isGameOver
      ensures Valid()
      ensures ground == ScrollGrounds(old(ground), gameSpeed, GroundWrap)
      ensures platforms == ScrollPlatforms(old(platforms), gameSpeed, platformYs)
      ensures spikes == (if gameMode == Cube then ScrollSpikes(old(spikes), gameSpeed) else old(spikes))
      ensures barriers == (if gameMode == Plane then ScrollBarriers(old(barriers), gameSpeed, Gaps, gapYs, gapSizes)
                           else old(barriers))
      ensures isGameOver == (if gameMode == Cube then AnySpikeHit(PlayerX, playerY, spikes)
                             else AnyBarrierHit(PlayerX, playerY, barriers))
    {
      UpdateGround();
      UpdatePlatforms(platformYs);
      UpdateSpikes();
      UpdateBarriers(gapYs, gapSizes);
    }

    /** The player physics at the head of `update`, the same for both forms:
        gravity, the velocity clamp, the move, the ground check and the
        platform pass. */
    method MovePlayer()
      modifies this`verticalVelocity, this`playerY, this`isOnGround
      ensures PlayerBody() == FallAndLand(PlayerX, old(PlayerBody()), platforms)
    {
      verticalVelocity := verticalVelocity - FallGravity;
      verticalVelocity := Clamp(verticalVelocity, -MaxFallVelocity, MaxFallVelocity);
      playerY := playerY + verticalVelocity;
      isOnGround := false;
      if playerY <= CubeFloor {
        playerY := CubeFloor;
        verticalVelocity := 0.0;
        isOnGround := true;
      }
      assert PlayerBody() == ClampedFall(old(PlayerBody()));
      LandOnPlatforms();
    }

    /** The platform pass: the first platform the falling player reaches
        catches it. */
    method LandOnPlatforms()
      modifies this`verticalVelocity, this`playerY, this`isOnGround
      ensures PlayerBody() == Land(PlayerX, old(PlayerBody()), platforms)
    {
      var i := 0;
      while i < |platforms|
        invariant 0 <= i <= |platforms|
        invariant Land(PlayerX, PlayerBody(), platforms[i..]) == Land(PlayerX, old(PlayerBody()), platforms)
      {
        var platform := platforms[i];
        var distance := Abs(PlayerX - platform.x);
        var heightDiff := playerY - platform.y;
        ghost var before := PlayerBody();
        if distance < 1.6 && heightDiff > 0.0 && heightDiff < 0.9 && verticalVelocity < 0.0 {
          playerY := platform.y + 0.6;
          verticalVelocity := 0.0;
          isOnGround := true;
        }
        LandPass(PlayerX, before, platforms, i, PlayerBody());
        i := i + 1;
      }
    }

    method UpdateGround()
      modifies this`ground
      ensures ground == ScrollGrounds(old(ground), gameSpeed, GroundWrap)
    {
      var i := 0;
      while i < |ground|
        invariant 0 <= i <= |ground| == |old(ground)|
        invariant forall k :: 0 <= k < i ==> ground[k] == ScrollGround(old(ground)[k], gameSpeed, GroundWrap)
        invariant forall k :: i <= k < |ground| ==> ground[k] == old(ground)[k]
      {
        var x := ground[i] - gameSpeed;
        if x < LeftEdge {
          x := x + GroundWrap;
        }
        ground := ground[i := x];
        i := i + 1;
      }
    }

    method UpdatePlatforms(rs: seq<real>)
      requires Valid()
      requires |rs| == |platforms| && AllDraws(rs)
      modifies this`platforms
      ensures Valid()
      ensures platforms == ScrollPlatforms(old(platforms), gameSpeed, rs)
    {
      var i := 0;
      while i < |platforms|
        invariant 0 <= i <= |platforms| == |old(platforms)|
        invariant forall k :: 0 <= k < i ==> platforms[k] == ScrollPlatform(old(platforms)[k], gameSpeed, rs[k])
        invariant forall k :: i <= k < |platforms| ==> platforms[k] == old(platforms)[k]
      {
        var platform := platforms[i];
        platform := platform.(x := platform.x - gameSpeed);
        if platform.x < LeftEdge {
          platform := Platform(RespawnX, GroundY + 0.5 + rs[i] * 2.0);
        }
        platforms := platforms[i := platform];
        i := i + 1;
      }
      ScrollPlatformsAboveGround(old(platforms), gameSpeed, rs);
    }

    method UpdateSpikes()
      requires Valid()
      modifies this`spikes, this`isGameOver
      ensures Valid()
      ensures gameMode == Cube ==>
                spikes == ScrollSpikes(old(spikes), gameSpeed) &&
                isGameOver == (old(isGameOver) || AnySpikeHit(PlayerX, playerY, spikes))
      ensures gameMode != Cube ==> spikes == old(spikes) && isGameOver == old(isGameOver)
    {
      if gameMode == Cube {
        var i := 0;
        while i < |spikes|
          invariant 0 <= i <= |spikes| == |old(spikes)|
          invariant forall k :: 0 <= k < i ==> spikes[k] == ScrollSpike(old(spikes)[k], gameSpeed)
          invariant forall k :: i <= k < |spikes| ==> spikes[k] == old(spikes)[k]
          invariant isGameOver == (old(isGameOver) || exists k :: 0 <= k < i && SpikeHit(PlayerX, playerY, spikes[k]))
        {
          var spike := spikes[i];
          spike := spike.(x := spike.x - gameSpeed);
          if spike.x < LeftEdge {
            spike := spike.(x := RespawnX);
          }
          spikes := spikes[i := spike];
          var distance := Abs(PlayerX - spike.x);
          var heightDiff := Abs(playerY - spike.y);
          if distance < 0.6 && heightDiff < 0.8 {
            GameOver();
          }
          i := i + 1;
        }
      }
    }

    /** The barrier pass: in plane form both halves scroll; a pair past the
        threshold reappears at x = 50 with a fresh gap; the plane dies when
        it is within reach of a pair and not inside its gap. */
    method UpdateBarriers(ys: seq<real>, sizes: seq<real>)
      requires Valid()
      requires |ys| == |sizes| == |barriers| && AllDraws(ys) && AllDraws(sizes)
      modifies this`barriers, this`isGameOver
      ensures Valid()
      ensures gameMode == Plane ==>
                barriers == ScrollBarriers(old(barriers), gameSpeed, Gaps, ys, sizes) &&
                isGameOver == (old(isGameOver) || AnyBarrierHit(PlayerX, playerY, barriers))
      ensures gameMode != Plane ==> barriers == old(barriers) && isGameOver == old(isGameOver)
    {
      if gameMode == Plane {
        var i := 0;
        while i < |barriers|
          invariant 0 <= i <= |barriers| == |old(barriers)|
          invariant forall k :: 0 <= k < i ==> barriers[k] == ScrollBarrier(old(barriers)[k], gameSpeed, Gaps, ys[k], sizes[k])
          invariant forall k :: i <= k < |barriers| ==> barriers[k] == old(barriers)[k]
          invariant isGameOver == (old(isGameOver) || exists k :: 0 <= k < i && BarrierHit(PlayerX, playerY, barriers[k]))
          invariant BarriersAligned(barriers)
        {
          var barrier := barriers[i];
          barrier := barrier.(topX := barrier.topX - gameSpeed, bottomX := barrier.bottomX - gameSpeed);
          if barrier.topX < LeftEdge {
            var newGapY := -0.5 + ys[i] * 2.0;
            var newGapSize := 2.5 + sizes[i] * 0.5;
            barrier := GapBarrier(50.0, 50.0, newGapY, newGapSize);
          }
          barriers := barriers[i := barrier];
          var distance := Abs(PlayerX - barrier.topX);
          if distance < 0.8 {
            if playerY + PlaneRadius > barrier.gapY + barrier.gapSize / 2.0 ||
               playerY - PlaneRadius < barrier.gapY - barrier.gapSize / 2.0 {
              GameOver();
            }
          }
          i := i + 1;
        }
      }
    }

    /** `updatePortals`: each portal scrolls, may latch and transform the
        player, and only then is recycled; the last portal to fire decides
        the form. */
    method UpdatePortals(draws: seq<PortalDraws>)
      requires Valid()
      requires |draws| == |portals| && AllPortalDrawsOk(draws)
      modifies this`portals, this`gameMode, this`spikes, this`platforms, this`barriers
      ensures Valid()
      ensures portals == StepPortals(old(portals), gameSpeed, PlayerX, false)
      ensures PortalScene() == PortalPass(old(PortalScene()), old(portals), draws, gameSpeed)
    {
      ghost var s0 := PortalScene();
      ghost var ps0 := portals;
      var i := 0;
      while i < |portals|
        invariant Valid()
        invariant 0 <= i <= |portals| == |ps0| == |draws|
        invariant forall k :: 0 <= k < |portals| ==>
                    portals[k] == if k < i then StepPortal(ps0[k], gameSpeed, PlayerX, false).portal else ps0[k]
        invariant PortalScene() == PortalPass(s0, ps0[..i], draws[..i], gameSpeed)
      {
        ghost var before := PortalScene();
        PassPortal(i, draws[i]);
        PortalPassSnoc(s0, ps0, draws, gameSpeed, i, before, PortalScene());
        i := i + 1;
      }
      assert ps0[..i] == ps0;
      assert draws[..i] == draws;
    }

    /** One iteration of `updatePortals`: the portal steps, and if it fires
        the scene takes the transition to its target. */
    method PassPortal(i: nat, d: PortalDraws)
      requires Valid() && i < |portals| && d.Ok()
      modifies this`portals, this`gameMode, this`spikes, this`platforms, this`barriers
      ensures Valid()
      ensures portals == old(portals)[i := StepPortal(old(portals)[i], gameSpeed, PlayerX, false).portal]
      ensures var t := StepPortal(old(portals)[i], gameSpeed, PlayerX, false).trigger;
              PortalScene() == (if t.Some? then Transition(old(PortalScene()), t.value, d) else old(PortalScene()))
    {
      var portal := portals[i];
      portal := portal.(x := portal.x - gameSpeed);
      var distance := Abs(PlayerX - portal.x);
      if distance < PortalReach && !portal.activated {
        portal := portal.(activated := true);
        if portal.target == Plane && gameMode == Cube {
          TransformToPlane(d.gapYs, d.gapSizes);
        } else if portal.target == Cube && gameMode == Plane {
          TransformToCube(d.kinds, d.heights);
        }
      }
      if portal.x < LeftEdge {
        portal := Portal(PortalRespawnX, if portal.target == Plane then Cube else Plane, false);
      }
      portals := portals[i := portal];
    }

    /** `transformToPlane`: the player becomes a plane keeping its velocity,
        the cube's obstacles go and 8 barrier pairs are spawned 8 apart. */
    method TransformToPlane(ys: seq<real>, sizes: seq<real>)
      requires Valid()
      requires |ys| == |sizes| == BarrierCount && AllDraws(ys) && AllDraws(sizes)
      modifies this`gameMode, this`spikes, this`platforms, this`barriers
      ensures Valid()
      ensures gameMode == Plane
      ensures spikes == [] && platforms == []
      ensures barriers == old(barriers) + BarrierField(BarrierSpacing, SpawnGaps, ys, sizes)
    {
      gameMode := Plane;
      spikes := [];
      platforms := [];
      SpawnBarriers(ys, sizes);
    }

    /** The spawning loop of `transformToPlane`. */
    method SpawnBarriers(ys: seq<real>, sizes: seq<real>)
      requires |ys| == |sizes| == BarrierCount && AllDraws(ys) && AllDraws(sizes)
      requires BarriersAligned(barriers)
      modifies this`barriers
      ensures barriers == old(barriers) + BarrierField(BarrierSpacing, SpawnGaps, ys, sizes)
      ensures BarriersAligned(barriers)
    {
      var i := 0;
      while i < BarrierCount
        invariant 0 <= i <= BarrierCount
        invariant barriers == old(barriers) + BarrierField(BarrierSpacing, SpawnGaps, ys[..i], sizes[..i])
        invariant BarriersAligned(barriers)
      {
        var xPos := 10.0 + (i as real) * 8.0;
        var gapY := -0.2 + ys[i] * 1.5;
        var gapSize := 3.2 + sizes[i] * 0.8;
        barriers := barriers + [GapBarrier(xPos, xPos, gapY, gapSize)];
        i := i + 1;
      }
      assert ys[..i] == ys && sizes[..i] == sizes;
    }

    /** `transformToCube`: the player becomes a cube keeping its velocity,
        the barriers go and a fresh course of 10 draws of the cube kinds is
        laid from x = 10. */
    method TransformToCube(kinds: seq<real>, heights: seq<real>)
      requires Valid()
      requires |kinds| == |heights| == CubeDraws && AllDraws(kinds) && AllDraws(heights)
      modifies this`gameMode, this`spikes, this`platforms, this`barriers
      ensures Valid()
      ensures gameMode == Cube && barriers == []
      ensures var c := Generate(SrcCubeKinds, kinds, heights, 10.0);
              spikes == old(spikes) + c.spikes && platforms == old(platforms) + c.platforms
    {
      gameMode := Cube;
      barriers := [];
      LayCubeSection(kinds, heights);
    }

    /** The obstacle loop of `transformToCube`. */
    method LayCubeSection(kinds: seq<real>, heights: seq<real>)
      requires |kinds| == |heights| == CubeDraws && AllDraws(kinds) && AllDraws(heights)
      requires PlatformsAboveGround(platforms)
      modifies this`spikes, this`platforms
      ensures var c := Generate(SrcCubeKinds, kinds, heights, 10.0);
              spikes == old(spikes) + c.spikes && platforms == old(platforms) + c.platforms
      ensures PlatformsAboveGround(platforms)
    {
      SrcCubeKindsOk();
      var xPos := 10.0;
      var i := 0;
      while i < |kinds|
        invariant 0 <= i <= |kinds|
        invariant var c := Generate(SrcCubeKinds, kinds[..i], heights[..i], 10.0);
                  spikes == old(spikes) + c.spikes && platforms == old(platforms) + c.platforms && xPos == c.cursor
        invariant PlatformsAboveGround(platforms)
      {
        GenerateSnoc(SrcCubeKinds, kinds, heights, 10.0, i);
        ghost var before := Generate(SrcCubeKinds, kinds[..i], heights[..i], 10.0);
        var obstacleType := Pick(kinds[i], 4);
        xPos := PlaceCubeObstacle(obstacleType, xPos, heights[i]);
        PlacePieceShift(old(spikes), old(platforms), before, SrcCubeKinds[obstacleType], heights[i]);
        assert PlacePiece(before, SrcCubeKinds[obstacleType], heights[i]) == Generate(SrcCubeKinds, kinds[..i + 1], heights[..i + 1], 10.0);
        i := i + 1;
      }
      assert kinds[..i] == kinds && heights[..i] == heights;
    }

    /** One draw of the switch of `transformToCube`. */
    method PlaceCubeObstacle(obstacleType: nat, xPos: real, h: real) returns (next: real)
      requires obstacleType < |SrcCubeKinds| && IsDraw(h)
      requires PlatformsAboveGround(platforms)
      modifies this`spikes, this`platforms
      ensures Course(spikes, platforms, next) == PlacePiece(Course(old(spikes), old(platforms), xPos), SrcCubeKinds[obstacleType], h)
      ensures PlatformsAboveGround(platforms)
    {
      SrcCubeKindsOk();
      if obstacleType == 0 {
        spikes := spikes + [Spike(xPos, SpikeY)];
        next := xPos + 4.0;
      } else if obstacleType == 1 {
        platforms := platforms + [Platform(xPos, GroundY + (0.5 + h * 1.5))];
        next := xPos + 5.0;
      } else if obstacleType == 2 {
        spikes := spikes + [Spike(xPos, SpikeY), Spike(xPos + 1.2, SpikeY)];
        next := xPos + 5.0;
      } else {
        platforms := platforms + [Platform(xPos, GroundY + (2.0 + h * 1.0))];
        spikes := spikes + [Spike(xPos + 2.0, SpikeY)];
        next := xPos + 6.0;
        assert SpikesAt(xPos, [2.0]) == [Spike(xPos + 2.0, SpikeY)];
      }
    }

    /** `gameOver`: the terminal flag (the display is not modelled). */
    method GameOver()
      modifies this`isGameOver
      ensures isGameOver
    {
      isGameOver := true;
    }

    /** `restart`: every pool emptied, the scalars reset, and `init` again. */
    method Restart(kinds: seq<real>, heights: seq<real>)
      requires |kinds| == |heights| == LevelDraws && AllDraws(kinds) && AllDraws(heights)
      modifies this
      ensures Valid()
      ensures score == 0.0 && gameSpeed == StartSpeed && !isGameOver && gameMode == Cube
      ensures verticalVelocity == 0.0 && !isOnGround && playerY == CubeFloor
      ensures ground == GroundRow(GroundPieces, 3.0, -10.0)
      ensures var c := Generate(SrcLevelKinds, kinds, heights, 5.0); spikes == c.spikes && platforms == c.platforms
      ensures barriers == [] && portals == [Portal(PortalStartX, Plane, false)]
    {
      Reset();
      Init(kinds, heights);
    }

    /** The first half of `restart`: pools emptied, scalars reset. */
    method Reset()
      modifies this
      ensures Valid()
      ensures score == 0.0 && gameSpeed == StartSpeed && !isGameOver && gameMode == Cube
      ensures verticalVelocity == 0.0 && !isOnGround
      ensures ground == [] && platforms == [] && spikes == [] && barriers == [] && portals == []
    {
      spikes := [];
      platforms := [];
      barriers := [];
      ground := [];
      portals := [];
      score := 0.0;
      gameSpeed := StartSpeed;
      isGameOver := false;
      verticalVelocity := 0.0;
      isOnGround := false;
      gameMode := Cube;
    }

    /** `cleanup`: every pool emptied. */
    method Cleanup()
      modifies this`spikes, this`platforms, this`barriers, this`ground, this`portals
      ensures spikes == [] && platforms == [] && barriers == [] && ground == [] && portals == []
    {
      spikes := [];
      platforms := [];
      barriers := [];
      ground := [];
      portals := [];
    }
  }
}
