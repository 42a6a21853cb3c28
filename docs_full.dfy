/** The simulation of the full docs mode (docs/modes/full.js): a cube that
    jumps over spikes and lands on platforms, and that portals turn into a
    plane flying between asteroids. */
module DocsFullMode {
  import opened World
  import opened Layout

  const Gravity: real := 0.015
  const JumpVelocity: real := 0.45
  const PlaneGravity: real := 0.005
  const PlaneThrust: real := 0.018
  const PlaneMaxUp: real := 0.35
  const PlaneMaxDown: real := 0.3
  const PlaneDrag: real := 0.97
  const PlaneCeiling: real := 4.5
  /** The plane's flight constants. */
  const Wings: Flight := Flight(PlaneGravity, PlaneDrag, PlaneMaxUp, PlaneMaxDown, PlaneCeiling)
  /** The player's x: set when the player is created, copied by transforms. */
  const PlayerX: real := -4.0
  const StartSpeed: real := 0.12
  const ScoreStep: real := 0.2
  const SpeedPerScore: real := 0.00005
  const GroundPieces: nat := 30
  const GroundWrap: real := 90.0
  const AsteroidRespawnX: real := 60.0
  const AsteroidCount: nat := 8
  const LevelDraws: nat := 20
  const CubeDraws: nat := 10
  const PortalStartX: real := 30.0

  /** An asteroid: position and radius. */
  datatype Asteroid = Asteroid(x: real, y: real, size: real)

  /** The draws a portal may consume when it transforms the player: heights
      and sizes of the asteroids of a plane section, kinds and platform
      heights of a cube section. */
  datatype PortalDraws = PortalDraws(asteroidYs: seq<real>, asteroidSizes: seq<real>, kinds: seq<real>, heights: seq<real>)
  {
    predicate Ok()
    {
      |asteroidYs| == |asteroidSizes| == AsteroidCount && AllDraws(asteroidYs) && AllDraws(asteroidSizes) &&
      |kinds| == |heights| == CubeDraws && AllDraws(kinds) && AllDraws(heights)
    }
  }

  predicate AllPortalDrawsOk(ds: seq<PortalDraws>)
  {
    forall i :: 0 <= i < |ds| ==> ds[i].Ok()
  }

  // ---------------------------------------------------------------------
  // Specification of the physics

  /** The cube's fall and the ground check (first half of `handleCubeMode`):
      a grounded cube is held at rest, an airborne one accelerates down; on
      reaching the ground it stops there and is grounded. */
  function CubeFall(b: Body): (r: Body)
    ensures r.y >= CubeFloor
    ensures r.grounded ==> r == Body(CubeFloor, 0.0, true)
    ensures !r.grounded ==> r.v == (if b.grounded then 0.0 else b.v - Gravity) && r.y == b.y + r.v
    ensures r.grounded <==> b.y + (if b.grounded then 0.0 else b.v - Gravity) <= CubeFloor
  {
    var v := if b.grounded then 0.0 else b.v - Gravity;
    var y := b.y + v;
    if y <= CubeFloor then Body(CubeFloor, 0.0, true) else Body(y, v, false)
  }

  /** One tick of cube motion: the fall, then the landing pass. */
  function CubeMotion(b: Body, ps: seq<Platform>): (r: Body)
    ensures PlatformsAboveGround(ps) ==> r.y >= CubeFloor
    ensures r.grounded ==> r.v == 0.0
  {
    Land(PlayerX, CubeFall(b), ps)
  }

  /** A grounded cube that is not jumping ends the tick at rest. */
  lemma GroundedCubeRests(b: Body, ps: seq<Platform>)
    requires b.grounded
    ensures CubeMotion(b, ps).v == 0.0
  {
    LandAtRest(PlayerX, CubeFall(b), ps);
  }

  // ---------------------------------------------------------------------
  // Specification of the asteroids

  /** An asteroid scrolls left; past the threshold it reappears at x = 60 at a
      fresh height in [GroundY + 1.5, GroundY + 4), keeping its size. */
  function ScrollAsteroid(a: Asteroid, speed: real, r: real): (b: Asteroid)
    requires IsDraw(r)
    ensures b.size == a.size && b.x >= LeftEdge
    ensures a.x - speed >= LeftEdge ==> b == Asteroid(a.x - speed, a.y, a.size)
    ensures a.x - speed < LeftEdge ==> b.x == AsteroidRespawnX && GroundY + 1.5 <= b.y < GroundY + 4.0
  {
    var moved := a.x - speed;
    if moved < LeftEdge then Asteroid(AsteroidRespawnX, GroundY + Spread(1.5, 2.5).At(r), a.size)
    else Asteroid(moved, a.y, a.size)
  }

  function ScrollAsteroids(as_: seq<Asteroid>, speed: real, rs: seq<real>): (bs: seq<Asteroid>)
    requires |rs| == |as_| && AllDraws(rs)
    ensures |bs| == |as_|
    ensures forall i :: 0 <= i < |as_| ==> bs[i] == ScrollAsteroid(as_[i], speed, rs[i])
  {
    seq(|as_|, i requires 0 <= i < |as_| => ScrollAsteroid(as_[i], speed, rs[i]))
  }

  /** The plane hits an asteroid when their centres are closer than the
      asteroid's size plus 0.4 (compared squared). */
  predicate AsteroidHit(px: real, py: real, a: Asteroid)
  {
    var dx := px - a.x;
    var dy := py - a.y;
    dx * dx + dy * dy < (a.size + 0.4) * (a.size + 0.4)
  }

  predicate AnyAsteroidHit(px: real, py: real, as_: seq<Asteroid>)
  {
    exists i :: 0 <= i < |as_| && AsteroidHit(px, py, as_[i])
  }

  /** The squared test agrees with the source's `Math.sqrt(dx*dx + dy*dy) <
      size + 0.4` for every asteroid of positive size. */
  lemma AsteroidHitIsDistanceTest(px: real, py: real, a: Asteroid, distance: real)
    requires a.size > 0.0
    requires distance >= 0.0
    requires distance * distance == (px - a.x) * (px - a.x) + (py - a.y) * (py - a.y)
    ensures AsteroidHit(px, py, a) <==> distance < a.size + 0.4
  {
    var c := a.size + 0.4;
    if distance < c {
      assert distance * distance <= distance * c;
      assert distance * c < c * c;
    } else {
      assert distance * distance >= c * distance;
      assert c * distance >= c * c;
    }
  }

  ghost predicate AsteroidsSized(as_: seq<Asteroid>)
  {
    forall i :: 0 <= i < |as_| ==> 0.6 <= as_[i].size < 1.0
  }

  /** The asteroids a transform into the plane spawns: 8 of them, 8 apart
      from x = 10, at heights in [GroundY + 1.5, GroundY + 4) and of sizes in
      [0.6, 1.0). */
  function AsteroidField(ys: seq<real>, sizes: seq<real>): (as_: seq<Asteroid>)
    requires |ys| == |sizes| && AllDraws(ys) && AllDraws(sizes)
    ensures |as_| == |ys|
    ensures AsteroidsSized(as_)
    ensures forall i :: 0 <= i < |as_| ==>
              as_[i].x == 10.0 + 8.0 * (i as real) && GroundY + 1.5 <= as_[i].y < GroundY + 4.0
  {
    seq(|ys|, i requires 0 <= i < |ys| =>
      Asteroid(10.0 + 8.0 * (i as real), GroundY + Spread(1.5, 2.5).At(ys[i]), Spread(0.6, 0.4).At(sizes[i])))
  }

  // ---------------------------------------------------------------------
  // Specification of the portal pass

  /** Only the active form has obstacles; platforms stand above the ground
      and asteroids have their spawn sizes. */
  ghost predicate PoolsOk(form: Form, spikes: seq<Spike>, platforms: seq<Platform>, barriers: seq<Asteroid>)
  {
    && (form == Cube ==> barriers == [])
    && (form == Plane ==> spikes == [] && platforms == [])
    && PlatformsAboveGround(platforms)
    && AsteroidsSized(barriers)
  }

  ghost predicate SceneOk(s: Scene<Asteroid>)
  {
    PoolsOk(s.form, s.spikes, s.platforms, s.barriers)
  }

  /** What a firing portal does: a cube meeting a plane portal becomes a
      plane at rest among fresh asteroids (`transformToPlane`); a plane
      meeting a cube portal becomes a cube at rest on a fresh course of ten
      draws from x = 10 (`transformToCube`); a player that already has the
      portal's form is left alone. */
  function Transition(s: Scene<Asteroid>, target: Form, d: PortalDraws): (r: Scene<Asteroid>)
    requires d.Ok()
    ensures r.form == target
    ensures target == s.form ==> r == s
    ensures target != s.form ==> r.v == 0.0
    ensures SceneOk(s) ==> SceneOk(r)
    ensures SceneOk(s) && s.form == Cube && target == Plane ==>
              r.spikes == [] && r.platforms == [] && r.barriers == AsteroidField(d.asteroidYs, d.asteroidSizes)
    ensures SceneOk(s) && s.form == Plane && target == Cube ==>
              var c := Generate(DocsKinds, d.kinds, d.heights, 10.0);
              r.barriers == [] && r.spikes == c.spikes && r.platforms == c.platforms
  {
    DocsKindsOk();
    if target == s.form then s
    else
      match target
      case Plane => Scene(Plane, 0.0, [], [], s.barriers + AsteroidField(d.asteroidYs, d.asteroidSizes))
      case Cube =>
        var c := Generate(DocsKinds, d.kinds, d.heights, 10.0);
        GenerateWellLaid(DocsKinds, d.kinds, d.heights, 10.0);
        Scene(Cube, 0.0, s.spikes + c.spikes, s.platforms + c.platforms, [])
  }

  /** The portal pass of `updatePortals` on the scene: portal i, when it
      fires, applies the transition to its target with draws i. The form it
      leaves is the one the last firing portal names; if nothing fires the
      scene is untouched, and any change leaves the player at rest. */
  function PortalPass(s: Scene<Asteroid>, ps: seq<Portal>, ds: seq<PortalDraws>, speed: real): (r: Scene<Asteroid>)
    requires |ds| == |ps| && AllPortalDrawsOk(ds)
    ensures r.form == FormAfterPortals(s.form, ps, speed, PlayerX, true)
    ensures (forall i :: 0 <= i < |ps| ==> StepPortal(ps[i], speed, PlayerX, true).trigger.None?) ==> r == s
    ensures r == s || r.v == 0.0
    ensures SceneOk(s) ==> SceneOk(r)
    decreases |ps|
  {
    if |ps| == 0 then s
    else
      var n := |ps| - 1;
      var before := PortalPass(s, ps[..n], ds[..n], speed);
      assert forall i :: 0 <= i < n ==> ps[..n][i] == ps[i];
      assert ds[n].Ok();
      match StepPortal(ps[n], speed, PlayerX, true).trigger
      case Some(t) => Transition(before, t, ds[n])
      case None => before
  }

  /** Passing one more portal applies its transition, if it fires, to the
      scene the earlier portals left. */
  lemma PortalPassSnoc(s: Scene<Asteroid>, ps: seq<Portal>, ds: seq<PortalDraws>, speed: real, i: nat,
                       before: Scene<Asteroid>, after: Scene<Asteroid>)
    requires |ds| == |ps| && AllPortalDrawsOk(ds) && i < |ps|
    requires before == PortalPass(s, ps[..i], ds[..i], speed)
    requires var t := StepPortal(ps[i], speed, PlayerX, true).trigger;
             ds[i].Ok() && after == (if t.Some? then Transition(before, t.value, ds[i]) else before)
    ensures after == PortalPass(s, ps[..i + 1], ds[..i + 1], speed)
  {
    assert ps[..i + 1][..i] == ps[..i];
    assert ds[..i + 1][..i] == ds[..i];
  }

  // ---------------------------------------------------------------------
  // Specification of the tick

  /** Score and speed agree, and the scene keeps its invariant. */
  ghost predicate StateOk(st: State<Asteroid>)
  {
    && st.score >= 0.0 && st.speed == StartSpeed + st.score * SpeedPerScore
    && PoolsOk(st.form, st.spikes, st.platforms, st.barriers)
  }

  /** `handleInput` on the state. Input only touches the player's velocity
      and ground flag: a plane's velocity never drops, a cube only leaves the
      ground by a jump at 0.45, and nothing happens once the game is over or
      while the control is released. */
  function Pressed(st: State<Asteroid>, keys: set<string>, mobileJump: bool): (r: State<Asteroid>)
    ensures r == st.(body := r.body) && r.body.y == st.body.y
    ensures st.over || !JumpHeld(keys, mobileJump) ==> r == st
    ensures st.form == Plane ==> r.body.v >= st.body.v && r.body.grounded == st.body.grounded
    ensures st.form == Cube && r.body != st.body ==>
              st.body.grounded && r.body == Body(st.body.y, JumpVelocity, false)
  {
    if st.over || !JumpHeld(keys, mobileJump) then st
    else if st.form == Plane then st.(body := st.body.(v := st.body.v + PlaneThrust))
    else if st.body.grounded then st.(body := Body(st.body.y, JumpVelocity, false))
    else st
  }

  /** The player's motion in its form (`handlePlaneMode` or `handleCubeMode`). */
  function Motion(st: State<Asteroid>): Body
  {
    if st.form == Plane then Glide(Wings, st.body) else CubeMotion(st.body, st.platforms)
  }

  /** The scene after the scrolling passes, with the moved player's velocity:
      platforms always scroll, spikes only for a cube, asteroids only for a
      plane. */
  function Scrolled(st: State<Asteroid>, v: real, platformYs: seq<real>, asteroidYs: seq<real>): Scene<Asteroid>
    requires |platformYs| == |st.platforms| && AllDraws(platformYs)
    requires |asteroidYs| == |st.barriers| && AllDraws(asteroidYs)
  {
    Scene(st.form, v,
          if st.form == Cube then ScrollSpikes(st.spikes, st.speed) else st.spikes,
          ScrollPlatforms(st.platforms, st.speed, platformYs),
          if st.form == Plane then ScrollAsteroids(st.barriers, st.speed, asteroidYs) else st.barriers)
  }

  /** The collision test of the active form against the scrolled obstacles. */
  predicate Touches(y: real, s: Scene<Asteroid>)
  {
    if s.form == Cube then AnySpikeHit(PlayerX, y, s.spikes) else AnyAsteroidHit(PlayerX, y, s.barriers)
  }

  /** One `update` of the game on the whole state: the player moves in its
      form; ground and platforms scroll, spikes only for a cube and asteroids
      only for a plane, and the game ends iff the player touches one of the
      active form's obstacles; then the portal pass; then score and speed. */
  function Step(st: State<Asteroid>, platformYs: seq<real>, asteroidYs: seq<real>, ds: seq<PortalDraws>): (r: State<Asteroid>)
    requires |platformYs| == |st.platforms| && AllDraws(platformYs)
    requires |asteroidYs| == |st.barriers| && AllDraws(asteroidYs)
    requires |ds| == |st.portals| && AllPortalDrawsOk(ds)
    ensures st.over ==> r == st
    ensures !st.over ==> r.score == st.score + ScoreStep && r.speed == StartSpeed + r.score * SpeedPerScore
  {
    if st.over then st
    else
      var b := Motion(st);
      var scrolled := Scrolled(st, b.v, platformYs, asteroidYs);
      assert PlatformsAboveGround(st.platforms) ==> PlatformsAboveGround(scrolled.platforms) by {
        if PlatformsAboveGround(st.platforms) {
          ScrollPlatformsAboveGround(st.platforms, st.speed, platformYs);
        }
      }
      var s := PortalPass(scrolled, st.portals, ds, st.speed);
      var score := st.score + ScoreStep;
      State(b.(v := s.v), s.form, score, StartSpeed + score * SpeedPerScore, Touches(b.y, scrolled),
            ScrollGrounds(st.ground, st.speed, GroundWrap), s.spikes, s.platforms, s.barriers,
            StepPortals(st.portals, st.speed, PlayerX, true))
  }

  /** The tick keeps the state's invariant. */
  lemma StepKeepsInvariant(st: State<Asteroid>, platformYs: seq<real>, asteroidYs: seq<real>, ds: seq<PortalDraws>)
    requires |platformYs| == |st.platforms| && AllDraws(platformYs)
    requires |asteroidYs| == |st.barriers| && AllDraws(asteroidYs)
    requires |ds| == |st.portals| && AllPortalDrawsOk(ds)
    requires StateOk(st)
    ensures StateOk(Step(st, platformYs, asteroidYs, ds))
  {
  }

  /** A running tick scrolls the ground, steps every portal, leaves the form
      the portals decide, and moves the player as its form dictates (the
      portal pass never moves the player). */
  lemma StepAdvances(st: State<Asteroid>, platformYs: seq<real>, asteroidYs: seq<real>, ds: seq<PortalDraws>)
    requires |platformYs| == |st.platforms| && AllDraws(platformYs)
    requires |asteroidYs| == |st.barriers| && AllDraws(asteroidYs)
    requires |ds| == |st.portals| && AllPortalDrawsOk(ds)
    requires !st.over
    ensures var r := Step(st, platformYs, asteroidYs, ds);
            && r.ground == ScrollGrounds(st.ground, st.speed, GroundWrap)
            && r.portals == StepPortals(st.portals, st.speed, PlayerX, true)
            && r.form == FormAfterPortals(st.form, st.portals, st.speed, PlayerX, true)
            && r.body.y == Motion(st).y && r.body.grounded == Motion(st).grounded
  {
  }

  /** A plane stays inside its flight band and crashes iff it touches one of
      the scrolled asteroids. */
  lemma StepPlane(st: State<Asteroid>, platformYs: seq<real>, asteroidYs: seq<real>, ds: seq<PortalDraws>)
    requires |platformYs| == |st.platforms| && AllDraws(platformYs)
    requires |asteroidYs| == |st.barriers| && AllDraws(asteroidYs)
    requires |ds| == |st.portals| && AllPortalDrawsOk(ds)
    requires !st.over && st.form == Plane
    ensures var r := Step(st, platformYs, asteroidYs, ds);
            && -PlaneMaxDown <= r.body.v <= PlaneMaxUp && PlaneFloor <= r.body.y <= PlaneCeiling
            && r.over == AnyAsteroidHit(PlayerX, r.body.y, ScrollAsteroids(st.barriers, st.speed, asteroidYs))
  {
  }

  /** A cube never sinks below the ground top and dies iff it touches one of
      the scrolled spikes. */
  lemma StepCube(st: State<Asteroid>, platformYs: seq<real>, asteroidYs: seq<real>, ds: seq<PortalDraws>)
    requires |platformYs| == |st.platforms| && AllDraws(platformYs)
    requires |asteroidYs| == |st.barriers| && AllDraws(asteroidYs)
    requires |ds| == |st.portals| && AllPortalDrawsOk(ds)
    requires !st.over && st.form == Cube && PlatformsAboveGround(st.platforms)
    ensures var r := Step(st, platformYs, asteroidYs, ds);
            && r.body.y >= CubeFloor
            && r.over == AnySpikeHit(PlayerX, r.body.y, ScrollSpikes(st.spikes, st.speed))
  {
  }

  /** A tick in which no portal fires keeps the form and only scrolls the
      pools: platforms always, spikes for a cube, asteroids for a plane. */
  lemma StepWithoutPortal(st: State<Asteroid>, platformYs: seq<real>, asteroidYs: seq<real>, ds: seq<PortalDraws>)
    requires |platformYs| == |st.platforms| && AllDraws(platformYs)
    requires |asteroidYs| == |st.barriers| && AllDraws(asteroidYs)
    requires |ds| == |st.portals| && AllPortalDrawsOk(ds)
    requires !st.over
    requires forall i :: 0 <= i < |st.portals| ==> StepPortal(st.portals[i], st.speed, PlayerX, true).trigger.None?
    ensures var r := Step(st, platformYs, asteroidYs, ds);
            && r.form == st.form && r.body == Motion(st)
            && r.platforms == ScrollPlatforms(st.platforms, st.speed, platformYs)
            && r.spikes == (if st.form == Cube then ScrollSpikes(st.spikes, st.speed) else st.spikes)
            && r.barriers == (if st.form == Plane then ScrollAsteroids(st.barriers, st.speed, asteroidYs) else st.barriers)
  {
  }

  /** Step assembled from its parts, for the methods that compute it in
      stages. */
  lemma StepParts(st: State<Asteroid>, platformYs: seq<real>, asteroidYs: seq<real>, ds: seq<PortalDraws>,
                  b: Body, scrolled: Scene<Asteroid>, s: Scene<Asteroid>, r: State<Asteroid>)
    requires |platformYs| == |st.platforms| && AllDraws(platformYs)
    requires |asteroidYs| == |st.barriers| && AllDraws(asteroidYs)
    requires |ds| == |st.portals| && AllPortalDrawsOk(ds)
    requires !st.over && b == Motion(st)
    requires scrolled == Scrolled(st, b.v, platformYs, asteroidYs)
    requires s == PortalPass(scrolled, st.portals, ds, st.speed)
    requires r.body == b.(v := s.v) && r.form == s.form && r.over == Touches(b.y, scrolled)
    requires r.score == st.score + ScoreStep && r.speed == StartSpeed + r.score * SpeedPerScore
    requires r.ground == ScrollGrounds(st.ground, st.speed, GroundWrap)
    requires r.spikes == s.spikes && r.platforms == s.platforms && r.barriers == s.barriers
    requires r.portals == StepPortals(st.portals, st.speed, PlayerX, true)
    ensures Step(st, platformYs, asteroidYs, ds) == r
  {
  }

  /** Holding the control as a plane never leaves it lower after the tick. */
  lemma ThrustNeverLowers(st: State<Asteroid>, keys: set<string>, mobileJump: bool,
                          platformYs: seq<real>, asteroidYs: seq<real>, ds: seq<PortalDraws>)
    requires |platformYs| == |st.platforms| && AllDraws(platformYs)
    requires |asteroidYs| == |st.barriers| && AllDraws(asteroidYs)
    requires |ds| == |st.portals| && AllPortalDrawsOk(ds)
    requires st.form == Plane && !st.over
    ensures Step(Pressed(st, keys, mobileJump), platformYs, asteroidYs, ds).body.y >=
            Step(st, platformYs, asteroidYs, ds).body.y
  {
    var thrust := if JumpHeld(keys, mobileJump) then PlaneThrust else 0.0;
    assert Pressed(st, keys, mobileJump).body == st.body.(v := st.body.v + thrust);
    GlideMonotone(Wings, st.body, thrust);
  }

  // ---------------------------------------------------------------------
  // The mode object

  class FullMode {
    var playerY: real
    var verticalVelocity: real
    var isOnGround: bool
    var gameMode: Form
    var score: real
    var gameSpeed: real
    var isGameOver: bool
    /** x of each ground piece */
    var ground: seq<real>
    var platforms: seq<Platform>
    var spikes: seq<Spike>
    /** the asteroids (the source keeps them in its `barriers` list) */
    var barriers: seq<Asteroid>
    var portals: seq<Portal>

    /** Speed follows score; only the active form has obstacles; platforms
        stand above the ground and asteroids have their spawn sizes. */
    ghost predicate Valid()
      reads this`score, this`gameSpeed, this`gameMode, this`spikes, this`platforms, this`barriers
    {
      && score >= 0.0 && gameSpeed == StartSpeed + score * SpeedPerScore
      && PoolsOk(gameMode, spikes, platforms, barriers)
    }

    function PlayerBody(): Body
      reads this
    {
      Body(playerY, verticalVelocity, isOnGround)
    }

    function Snapshot(): State<Asteroid>
      reads this
    {
      State(PlayerBody(), gameMode, score, gameSpeed, isGameOver, ground, spikes, platforms, barriers, portals)
    }

    /** The part of the state a firing portal may change. */
    function PortalScene(): Scene<Asteroid>
      reads this`gameMode, this`verticalVelocity, this`spikes, this`platforms, this`barriers
    {
      Scene(gameMode, verticalVelocity, spikes, platforms, barriers)
    }

    /** The state before `init`: no player yet, empty pools. */
    constructor ()
      ensures Valid()
      ensures score == 0.0 && gameSpeed == StartSpeed && !isGameOver && gameMode == Cube
      ensures verticalVelocity == 0.0 && !isOnGround
      ensures ground == [] && platforms == [] && spikes == [] && barriers == [] && portals == []
    {
      playerY := 0.0;
      verticalVelocity := 0.0;
      isOnGround := false;
      gameMode := Cube;
      score := 0.0;
      gameSpeed := StartSpeed;
      isGameOver := false;
      ground := [];
      platforms := [];
      spikes := [];
      barriers := [];
      portals := [];
    }

    /** `init`: the player on the ground, 30 ground pieces, the first level. */
    method Init(kinds: seq<real>, heights: seq<real>)
      requires Valid() && gameMode == Cube
      requires |kinds| == |heights| == LevelDraws && AllDraws(kinds) && AllDraws(heights)
      modifies this`playerY, this`ground, this`spikes, this`platforms, this`portals
      ensures Valid()
      ensures playerY == CubeFloor
      ensures ground == old(ground) + GroundRow(GroundPieces, 3.0, -10.0)
      ensures var c := Generate(DocsKinds, kinds, heights, 5.0);
              spikes == old(spikes) + c.spikes && platforms == old(platforms) + c.platforms
      ensures portals == old(portals) + [Portal(PortalStartX, Plane, false)]
    {
      playerY := CubeFloor;
      CreateGround();
      CreateLevel(kinds, heights);
    }

    method CreateGround()
      modifies this`ground
      ensures ground == old(ground) + GroundRow(GroundPieces, 3.0, -10.0)
    {
      var i := 0;
      while i < GroundPieces
        invariant 0 <= i <= GroundPieces
        invariant ground == old(ground) + GroundRow(i, 3.0, -10.0)
      {
        ground := ground + [(i as real) * 3.0 - 10.0];
        i := i + 1;
      }
    }

    /** `createLevel`: 20 draws from x = 5, then one portal at x = 30 aimed at
        the plane. */
    method CreateLevel(kinds: seq<real>, heights: seq<real>)
      requires Valid() && gameMode == Cube
      requires |kinds| == |heights| == LevelDraws && AllDraws(kinds) && AllDraws(heights)
      modifies this`spikes, this`platforms, this`portals
      ensures Valid()
      ensures var c := Generate(DocsKinds, kinds, heights, 5.0);
              spikes == old(spikes) + c.spikes && platforms == old(platforms) + c.platforms
      ensures portals == old(portals) + [Portal(PortalStartX, Plane, false)]
    {
      LayCourse(kinds, heights, 5.0);
      portals := portals + [Portal(PortalStartX, Plane, false)];
    }

    /** The obstacle loop of `createLevel` and `transformToCube`. */
    method LayCourse(kinds: seq<real>, heights: seq<real>, start: real)
      requires |kinds| == |heights| && AllDraws(kinds) && AllDraws(heights)
      requires PlatformsAboveGround(platforms)
      modifies this`spikes, this`platforms
      ensures var c := Generate(DocsKinds, kinds, heights, start);
              spikes == old(spikes) + c.spikes && platforms == old(platforms) + c.platforms
      ensures PlatformsAboveGround(platforms)
    {
      DocsKindsOk();
      var xPos := start;
      var i := 0;
      while i < |kinds|
        invariant 0 <= i <= |kinds|
        invariant var c := Generate(DocsKinds, kinds[..i], heights[..i], start);
                  spikes == old(spikes) + c.spikes && platforms == old(platforms) + c.platforms && xPos == c.cursor
        invariant PlatformsAboveGround(platforms)
      {
        GenerateSnoc(DocsKinds, kinds, heights, start, i);
        ghost var before := Generate(DocsKinds, kinds[..i], heights[..i], start);
        var obstacleType := Pick(kinds[i], 5);
        xPos := PlaceObstacle(obstacleType, xPos, heights[i]);
        PlacePieceShift(old(spikes), old(platforms), before, DocsKinds[obstacleType], heights[i]);
        assert PlacePiece(before, DocsKinds[obstacleType], heights[i]) == Generate(DocsKinds, kinds[..i + 1], heights[..i + 1], start);
        i := i + 1;
      }
      assert kinds[..i] == kinds && heights[..i] == heights;
    }

    /** One draw of the obstacle switch: the kind's obstacles at the cursor,
        and the cursor advanced by its stride. */
    method PlaceObstacle(obstacleType: nat, xPos: real, h: real) returns (next: real)
      requires obstacleType < |DocsKinds| && IsDraw(h)
      requires PlatformsAboveGround(platforms)
      modifies this`spikes, this`platforms
      ensures Course(spikes, platforms, next) == PlacePiece(Course(old(spikes), old(platforms), xPos), DocsKinds[obstacleType], h)
      ensures PlatformsAboveGround(platforms)
    {
      DocsKindsOk();
      if obstacleType == 0 {
        spikes := spikes + [Spike(xPos, SpikeY)];
        next := xPos + 4.0;
      } else if obstacleType == 1 {
        platforms := platforms + [Platform(xPos, GroundY + (0.5 + h * 1.5))];
        next := xPos + 5.0;
      } else if obstacleType == 2 {
        spikes := spikes + [Spike(xPos, SpikeY), Spike(xPos + 1.2, SpikeY)];
        next := xPos + 5.0;
      } else if obstacleType == 3 {
        platforms := platforms + [Platform(xPos, GroundY + (2.0 + h * 1.0))];
        next := xPos + 5.0;
      } else {
        next := xPos + 6.0;
      }
    }

    /** `handleInput`: a grounded cube jumps; a plane gains thrust each tick
        the control is held; nothing happens once the game is over. */
    method HandleInput(keys: set<string>, mobileJump: bool)
      modifies this`verticalVelocity, this`isOnGround
      ensures isGameOver ==> verticalVelocity == old(verticalVelocity) && isOnGround == old(isOnGround)
      ensures !isGameOver && gameMode == Cube ==>
                if JumpHeld(keys, mobileJump) && old(isOnGround)
                then verticalVelocity == JumpVelocity && !isOnGround
                else verticalVelocity == old(verticalVelocity) && isOnGround == old(isOnGround)
      ensures !isGameOver && gameMode == Plane ==>
                isOnGround == old(isOnGround) &&
                verticalVelocity == old(verticalVelocity) + (if JumpHeld(keys, mobileJump) then PlaneThrust else 0.0)
    {
      if isGameOver {
        return;
      }
      if gameMode == Cube {
        if ("Space" in keys || "ArrowUp" in keys || mobileJump) && isOnGround {
          verticalVelocity := JumpVelocity;
          isOnGround := false;
        }
      } else if gameMode == Plane {
        if "Space" in keys || "ArrowUp" in keys || mobileJump {
          verticalVelocity := verticalVelocity + PlaneThrust;
        }
      }
    }

    /** `update`: one tick of the running game. */
    method Update(platformYs: seq<real>, asteroidYs: seq<real>, portalDraws: seq<PortalDraws>)
      requires Valid()
      requires |platformYs| == |platforms| && AllDraws(platformYs)
      requires |asteroidYs| == |barriers| && AllDraws(asteroidYs)
      requires |portalDraws| == |portals| && AllPortalDrawsOk(portalDraws)
      modifies this
      ensures Valid()
      ensures Snapshot() == Step(old(Snapshot()), platformYs, asteroidYs, portalDraws)
    {
      if isGameOver {
        return;
      }
      Tick(platformYs, asteroidYs, portalDraws);
    }

    /** The body of `update` for a running game. */
    method Tick(platformYs: seq<real>, asteroidYs: seq<real>, portalDraws: seq<PortalDraws>)
      requires Valid() && !isGameOver
      requires |platformYs| == |platforms| && AllDraws(platformYs)
      requires |asteroidYs| == |barriers| && AllDraws(asteroidYs)
      requires |portalDraws| == |portals| && AllPortalDrawsOk(portalDraws)
      modifies this
      ensures Valid()
      ensures Snapshot() == Step(old(Snapshot()), platformYs, asteroidYs, portalDraws)
    {
      ghost var st := Snapshot();
      MoveAndScroll(platformYs, asteroidYs);
      ghost var b := PlayerBody();
      ghost var scrolled := PortalScene();
      ghost var over := isGameOver;
      ghost var g := ground;
      UpdatePortals(portalDraws);
      ghost var s := PortalScene();
      score := score + ScoreStep;
      gameSpeed := StartSpeed + score * SpeedPerScore;
      assert PlayerBody() == b.(v := s.v);
      ghost var r := State(b.(v := s.v), s.form, score, gameSpeed, over, g, s.spikes, s.platforms, s.barriers, portals);
      assert Snapshot() == r;
      StepParts(st, platformYs, asteroidYs, portalDraws, b, scrolled, s, r);
    }

    /** The first half of `update`: the player's motion, then the scrolling
        passes with their collision tests. */
    method MoveAndScroll(platformYs: seq<real>, asteroidYs: seq<real>)
      requires Valid() && !isGameOver
      requires |platformYs| == |platforms| && AllDraws(platformYs)
      requires |asteroidYs| == |barriers| && AllDraws(asteroidYs)
      modifies this`verticalVelocity, this`playerY, this`isOnGround
      modifies this`ground, this`platforms, this`spikes, this`barriers, this`isGameOver
      ensures Valid()
      ensures PlayerBody() == Motion(old(Snapshot()))
      ensures PortalScene() == Scrolled(old(Snapshot()), verticalVelocity, platformYs, asteroidYs)
      ensures isGameOver == Touches(playerY, PortalScene())
      ensures ground == ScrollGrounds(old(ground), gameSpeed, GroundWrap)
    {
      MovePlayer();
      ScrollObstacles(platformYs, asteroidYs);
    }

    /** The scrolling passes of `update`, with their collision tests. */
    method ScrollObstacles(platformYs: seq<real>, asteroidYs: seq<real>)
      requires Valid() && !isGameOver
      requires |platformYs| == |platforms| && AllDraws(platformYs)
      requires |asteroidYs| == |barriers| && AllDraws(asteroidYs)
      modifies this`ground, this`platforms, this`spikes, this`barriers, this`isGameOver
      ensures Valid()
      ensures ground == ScrollGrounds(old(ground), gameSpeed, GroundWrap)
      ensures platforms == ScrollPlatforms(old(platforms), gameSpeed, platformYs)
      ensures spikes == (if gameMode == Cube then ScrollSpikes(old(spikes), gameSpeed) else old(spikes))
      ensures barriers == (if gameMode == Plane then ScrollAsteroids(old(barriers), gameSpeed, asteroidYs) else old(barriers))
      ensures isGameOver == (if gameMode == Cube then AnySpikeHit(PlayerX, playerY, spikes)
                             else AnyAsteroidHit(PlayerX, playerY, barriers))
    {
      UpdateGround();
      UpdatePlatforms(platformYs);
      UpdateSpikes();
      UpdateBarriers(asteroidYs);
    }

    /** The player's motion in the current form. */
    method MovePlayer()
      requires Valid()
      modifies this`verticalVelocity, this`playerY, this`isOnGround
      ensures Valid()
      ensures gameMode == Plane ==> PlayerBody() == Glide(Wings, old(PlayerBody()))
      ensures gameMode == Cube ==> PlayerBody() == CubeMotion(old(PlayerBody()), platforms)
    {
      if gameMode == Plane {
        HandlePlaneMode();
      } else {
        HandleCubeMode();
      }
    }

    /** One animation frame of the page: input, then the tick. */
    method Frame(keys: set<string>, mobileJump: bool,
                 platformYs: seq<real>, asteroidYs: seq<real>, portalDraws: seq<PortalDraws>)
      requires Valid()
      requires |platformYs| == |platforms| && AllDraws(platformYs)
      requires |asteroidYs| == |barriers| && AllDraws(asteroidYs)
      requires |portalDraws| == |portals| && AllPortalDrawsOk(portalDraws)
      modifies this
      ensures Valid()
      ensures Snapshot() == Step(Pressed(old(Snapshot()), keys, mobileJump), platformYs, asteroidYs, portalDraws)
    {
      HandleInput(keys, mobileJump);
      Update(platformYs, asteroidYs, portalDraws);
    }

    method HandlePlaneMode()
      modifies this`verticalVelocity, this`playerY
      ensures PlayerBody() == Glide(Wings, old(PlayerBody()))
    {
      verticalVelocity := verticalVelocity - PlaneGravity;
      verticalVelocity := verticalVelocity * PlaneDrag;
      if verticalVelocity > PlaneMaxUp {
        verticalVelocity := PlaneMaxUp;
      }
      if verticalVelocity < -PlaneMaxDown {
        verticalVelocity := -PlaneMaxDown;
      }
      playerY := playerY + verticalVelocity;
      if playerY > PlaneCeiling {
        playerY := PlaneCeiling;
        verticalVelocity := 0.0;
      }
      if playerY < PlaneFloor {
        playerY := PlaneFloor;
        verticalVelocity := 0.0;
      }
    }

    method HandleCubeMode()
      modifies this`verticalVelocity, this`playerY, this`isOnGround
      ensures PlayerBody() == CubeMotion(old(PlayerBody()), platforms)
    {
      if isOnGround {
        verticalVelocity := 0.0;
      } else {
        verticalVelocity := verticalVelocity - Gravity;
      }
      playerY := playerY + verticalVelocity;
      isOnGround := false;
      if playerY <= CubeFloor {
        playerY := CubeFloor;
        verticalVelocity := 0.0;
        isOnGround := true;
      }
      assert PlayerBody() == CubeFall(old(PlayerBody()));
      LandOnPlatforms();
    }

    /** The platform pass of `handleCubeMode`: the first platform the falling
        cube reaches catches it. */
    method LandOnPlatforms()
      modifies this`verticalVelocity, this`playerY, this`isOnGround
      ensures PlayerBody() == Land(PlayerX, old(PlayerBody()), platforms)
    {
      var i := 0;
      while i < |platforms|
        invariant 0 <= i <= |platforms|
        invariant Land(PlayerX, PlayerBody(), platforms[i..]) == Land(PlayerX, old(PlayerBody()), platforms)
      {
        var platform := platforms[i];
        var distance := Abs(PlayerX - platform.x);
        var heightDiff := playerY - platform.y;
        ghost var before := PlayerBody();
        if distance < 1.6 && heightDiff > 0.0 && heightDiff < 0.9 && verticalVelocity < 0.0 {
          playerY := platform.y + 0.6;
          verticalVelocity := 0.0;
          isOnGround := true;
        }
        LandPass(PlayerX, before, platforms, i, PlayerBody());
        i := i + 1;
      }
    }

    method UpdateGround()
      modifies this`ground
      ensures ground == ScrollGrounds(old(ground), gameSpeed, GroundWrap)
    {
      var i := 0;
      while i < |ground|
        invariant 0 <= i <= |ground| == |old(ground)|
        invariant forall k :: 0 <= k < i ==> ground[k] == ScrollGround(old(ground)[k], gameSpeed, GroundWrap)
        invariant forall k :: i <= k < |ground| ==> ground[k] == old(ground)[k]
      {
        var x := ground[i] - gameSpeed;
        if x < LeftEdge {
          x := x + GroundWrap;
        }
        ground := ground[i := x];
        i := i + 1;
      }
    }

    method UpdatePlatforms(rs: seq<real>)
      requires |rs| == |platforms| && AllDraws(rs)
      requires Valid()
      modifies this`platforms
      ensures Valid()
      ensures platforms == ScrollPlatforms(old(platforms), gameSpeed, rs)
    {
      var i := 0;
      while i < |platforms|
        invariant 0 <= i <= |platforms| == |old(platforms)|
        invariant forall k :: 0 <= k < i ==> platforms[k] == ScrollPlatform(old(platforms)[k], gameSpeed, rs[k])
        invariant forall k :: i <= k < |platforms| ==> platforms[k] == old(platforms)[k]
      {
        var platform := platforms[i];
        platform := platform.(x := platform.x - gameSpeed);
        if platform.x < LeftEdge {
          platform := Platform(RespawnX, GroundY + 0.5 + rs[i] * 2.0);
        }
        platforms := platforms[i := platform];
        i := i + 1;
      }
      ScrollPlatformsAboveGround(old(platforms), gameSpeed, rs);
    }

    method UpdateSpikes()
      requires Valid()
      modifies this`spikes, this`isGameOver
      ensures Valid()
      ensures gameMode == Cube ==>
                spikes == ScrollSpikes(old(spikes), gameSpeed) &&
                isGameOver == (old(isGameOver) || AnySpikeHit(PlayerX, playerY, spikes))
      ensures gameMode != Cube ==> spikes == old(spikes) && isGameOver == old(isGameOver)
    {
      if gameMode == Cube {
        var i := 0;
        while i < |spikes|
          invariant 0 <= i <= |spikes| == |old(spikes)|
          invariant forall k :: 0 <= k < i ==> spikes[k] == ScrollSpike(old(spikes)[k], gameSpeed)
          invariant forall k :: i <= k < |spikes| ==> spikes[k] == old(spikes)[k]
          invariant isGameOver == (old(isGameOver) || exists k :: 0 <= k < i && SpikeHit(PlayerX, playerY, spikes[k]))
        {
          var spike := spikes[i];
          spike := spike.(x := spike.x - gameSpeed);
          if spike.x < LeftEdge {
            spike := spike.(x := RespawnX);
          }
          spikes := spikes[i := spike];
          var distance := Abs(PlayerX - spike.x);
          var heightDiff := Abs(playerY - spike.y);
          if distance < 0.6 && heightDiff < 0.8 {
            GameOver();
          }
          i := i + 1;
        }
      }
    }

    method UpdateBarriers(rs: seq<real>)
      requires |rs| == |barriers| && AllDraws(rs)
      requires Valid()
      modifies this`barriers, this`isGameOver
      ensures Valid()
      ensures gameMode == Plane ==>
                barriers == ScrollAsteroids(old(barriers), gameSpeed, rs) &&
                isGameOver == (old(isGameOver) || AnyAsteroidHit(PlayerX, playerY, barriers))
      ensures gameMode != Plane ==> barriers == old(barriers) && isGameOver == old(isGameOver)
    {
      if gameMode == Plane {
        var i := 0;
        while i < |barriers|
          invariant 0 <= i <= |barriers| == |old(barriers)|
          invariant forall k :: 0 <= k < i ==> barriers[k] == ScrollAsteroid(old(barriers)[k], gameSpeed, rs[k])
          invariant forall k :: i <= k < |barriers| ==> barriers[k] == old(barriers)[k]
          invariant isGameOver == (old(isGameOver) || exists k :: 0 <= k < i && AsteroidHit(PlayerX, playerY, barriers[k]))
        {
          var asteroid := barriers[i];
          asteroid := asteroid.(x := asteroid.x - gameSpeed);
          if asteroid.x < LeftEdge {
            asteroid := asteroid.(x := AsteroidRespawnX, y := GroundY + 1.5 + rs[i] * 2.5);
          }
          barriers := barriers[i := asteroid];
          var dx := PlayerX - asteroid.x;
          var dy := playerY - asteroid.y;
          var collisionDistance := asteroid.size + 0.4;
          if dx * dx + dy * dy < collisionDistance * collisionDistance {
            GameOver();
          }
          i := i + 1;
        }
      }
    }

    /** `updatePortals`: each portal scrolls, is recycled first, then may
        latch and transform the player; the last portal to fire decides the
        form. */
    method UpdatePortals(draws: seq<PortalDraws>)
      requires Valid()
      requires |draws| == |portals| && AllPortalDrawsOk(draws)
      modifies this`portals, this`gameMode, this`verticalVelocity, this`spikes, this`platforms, this`barriers
      ensures Valid()
      ensures portals == StepPortals(old(portals), gameSpeed, PlayerX, true)
      ensures PortalScene() == PortalPass(old(PortalScene()), old(portals), draws, gameSpeed)
    {
      ghost var s0 := PortalScene();
      ghost var ps0 := portals;
      var i := 0;
      while i < |portals|
        invariant Valid()
        invariant 0 <= i <= |portals| == |ps0| == |draws|
        invariant forall k :: 0 <= k < |portals| ==>
                    portals[k] == if k < i then StepPortal(ps0[k], gameSpeed, PlayerX, true).portal else ps0[k]
        invariant PortalScene() == PortalPass(s0, ps0[..i], draws[..i], gameSpeed)
      {
        ghost var before := PortalScene();
        PassPortal(i, draws[i]);
        PortalPassSnoc(s0, ps0, draws, gameSpeed, i, before, PortalScene());
        i := i + 1;
      }
      assert ps0[..i] == ps0;
      assert draws[..i] == draws;
    }

    /** One iteration of `updatePortals`: the portal steps, and if it fires
        the scene takes the transition to its target. */
    method PassPortal(i: nat, d: PortalDraws)
      requires Valid() && i < |portals| && d.Ok()
      modifies this`portals, this`gameMode, this`verticalVelocity, this`spikes, this`platforms, this`barriers
      ensures Valid()
      ensures portals == old(portals)[i := StepPortal(old(portals)[i], gameSpeed, PlayerX, true).portal]
      ensures var t := StepPortal(old(portals)[i], gameSpeed, PlayerX, true).trigger;
              PortalScene() == (if t.Some? then Transition(old(PortalScene()), t.value, d) else old(PortalScene()))
    {
      var portal := portals[i];
      portal := portal.(x := portal.x - gameSpeed);
      if portal.x < LeftEdge {
        portal := Portal(PortalRespawnX, if portal.target == Plane then Cube else Plane, false);
      }
      var fired := false;
      var distance := Abs(PlayerX - portal.x);
      if distance < PortalReach && !portal.activated {
        portal := portal.(activated := true);
        fired := true;
      }
      portals := portals[i := portal];
      if fired {
        if portal.target == Plane && gameMode == Cube {
          TransformToPlane(d.asteroidYs, d.asteroidSizes);
        } else if portal.target == Cube && gameMode == Plane {
          TransformToCube(d.kinds, d.heights);
        }
      }
    }

    /** `transformToPlane`: the player becomes a plane at rest, the cube's
        obstacles go and 8 asteroids are spawned. */
    method TransformToPlane(ys: seq<real>, sizes: seq<real>)
      requires Valid()
      requires |ys| == |sizes| == AsteroidCount && AllDraws(ys) && AllDraws(sizes)
      modifies this`gameMode, this`verticalVelocity, this`spikes, this`platforms, this`barriers
      ensures Valid()
      ensures gameMode == Plane && verticalVelocity == 0.0
      ensures spikes == [] && platforms == []
      ensures barriers == old(barriers) + AsteroidField(ys, sizes)
    {
      gameMode := Plane;
      verticalVelocity := 0.0;
      spikes := [];
      platforms := [];
      SpawnAsteroids(ys, sizes);
    }

    /** The spawning loop of `transformToPlane`. */
    method SpawnAsteroids(ys: seq<real>, sizes: seq<real>)
      requires |ys| == |sizes| == AsteroidCount && AllDraws(ys) && AllDraws(sizes)
      requires AsteroidsSized(barriers)
      modifies this`barriers
      ensures barriers == old(barriers) + AsteroidField(ys, sizes)
      ensures AsteroidsSized(barriers)
    {
      var i := 0;
      while i < AsteroidCount
        invariant 0 <= i <= AsteroidCount
        invariant barriers == old(barriers) + AsteroidField(ys[..i], sizes[..i])
        invariant AsteroidsSized(barriers)
      {
        var xPos := 10.0 + (i as real) * 8.0;
        var yPos := GroundY + 1.5 + ys[i] * 2.5;
        CreateAsteroid(xPos, yPos, sizes[i]);
        i := i + 1;
      }
      assert ys[..i] == ys && sizes[..i] == sizes;
    }

    /** `createAsteroid`: one asteroid of size 0.6 + 0.4 * r. */
    method CreateAsteroid(x: real, y: real, r: real)
      requires IsDraw(r)
      modifies this`barriers
      ensures barriers == old(barriers) + [Asteroid(x, y, 0.6 + r * 0.4)]
    {
      var size := 0.6 + r * 0.4;
      barriers := barriers + [Asteroid(x, y, size)];
    }

    /** `transformToCube`: the player becomes a cube at rest, the asteroids go
        and a fresh course of 10 draws is laid from x = 10. */
    method TransformToCube(kinds: seq<real>, heights: seq<real>)
      requires Valid()
      requires |kinds| == |heights| == CubeDraws && AllDraws(kinds) && AllDraws(heights)
      modifies this`gameMode, this`verticalVelocity, this`spikes, this`platforms, this`barriers
      ensures Valid()
      ensures gameMode == Cube && verticalVelocity == 0.0 && barriers == []
      ensures var c := Generate(DocsKinds, kinds, heights, 10.0);
              spikes == old(spikes) + c.spikes && platforms == old(platforms) + c.platforms
    {
      gameMode := Cube;
      verticalVelocity := 0.0;
      barriers := [];
      LayCourse(kinds, heights, 10.0);
    }

    /** `gameOver`: the terminal flag (the display is not modelled). */
    method GameOver()
      modifies this`isGameOver
      ensures isGameOver
    {
      isGameOver := true;
    }

    /** `restart`: tear everything down, reset the scalars and start over. */
    method Restart(kinds: seq<real>, heights: seq<real>)
      requires |kinds| == |heights| == LevelDraws && AllDraws(kinds) && AllDraws(heights)
      modifies this
      ensures Valid()
      ensures score == 0.0 && gameSpeed == StartSpeed && !isGameOver && gameMode == Cube
      ensures verticalVelocity == 0.0 && !isOnGround && playerY == CubeFloor
      ensures ground == GroundRow(GroundPieces, 3.0, -10.0)
      ensures var c := Generate(DocsKinds, kinds, heights, 5.0); spikes == c.spikes && platforms == c.platforms
      ensures barriers == [] && portals == [Portal(PortalStartX, Plane, false)]
    {
      Cleanup();
      score := 0.0;
      gameSpeed := StartSpeed;
      isGameOver := false;
      verticalVelocity := 0.0;
      isOnGround := false;
      gameMode := Cube;
      Init(kinds, heights);
    }

    /** `cleanup`: every pool emptied. */
    method Cleanup()
      modifies this`spikes, this`platforms, this`barriers, this`ground, this`portals
      ensures spikes == [] && platforms == [] && barriers == [] && ground == [] && portals == []
    {
      spikes := [];
      platforms := [];
      barriers := [];
      ground := [];
      portals := [];
    }
  }
}
