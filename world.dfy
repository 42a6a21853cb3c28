/** Entities of the side-scrolling world and the per-entity rules that the
    game modes share: scrolling and recycling, collision tests, the
    platform landing rule and the portal latch.  Constants that differ
    between the modes live in the mode modules. */
module World {

  datatype Option<T> = None | Some(value: T)

  /** The two player forms. */
  datatype Form = Cube | Plane

  function Flip(f: Form): (g: Form)
    ensures g != f
    ensures f == Cube <==> g == Plane
  {
    if f == Cube then Plane else Cube
  }

  /** Height of the ground surface (`groundY`, the same in every mode). */
  const GroundY: real := -2.0
  /** Left threshold past which obstacles, ground and portals are recycled. */
  const LeftEdge: real := -15.0
  /** Where recycled spikes and platforms reappear. */
  const RespawnX: real := 40.0
  /** Where recycled portals reappear. */
  const PortalRespawnX: real := 60.0
  /** Height at which every spike is created. */
  const SpikeY: real := GroundY + 0.75
  /** Horizontal reach of a portal. */
  const PortalReach: real := 1.2

  /** A value `Math.random()` can return. */
  predicate IsDraw(r: real) { 0.0 <= r < 1.0 }

  predicate AllDraws(rs: seq<real>) { forall i :: 0 <= i < |rs| ==> IsDraw(rs[i]) }

  function Abs(x: real): real { if x < 0.0 then -x else x }

  /** `Math.floor(Math.random() * n)`: a uniform choice among n kinds. */
  function Pick(r: real, n: nat): (k: nat)
    requires IsDraw(r) && n > 0
    ensures k < n
  {
    assert r * (n as real) < n as real;
    (r * (n as real)).Floor
  }

  /** `low + Math.random() * span`. */
  datatype Spread = Spread(low: real, span: real) {
    function At(r: real): (y: real)
      requires IsDraw(r) && span > 0.0
      ensures low <= y < low + span
    {
      assert r * span < span;
      low + r * span
    }
  }

  /** The jump/thrust control: Space or ArrowUp held, or a one-shot touch. */
  predicate JumpHeld(keys: set<string>, mobileJump: bool)
  {
    "Space" in keys || "ArrowUp" in keys || mobileJump
  }

  /** Vertical state of the player: position, velocity and the grounded flag. */
  datatype Body = Body(y: real, v: real, grounded: bool)

  /** Height of the cube resting on the ground. */
  const CubeFloor: real := GroundY + 0.9
  /** Lowest height of the plane. */
  const PlaneFloor: real := GroundY + 0.5

  function Clamp(v: real, lo: real, hi: real): (c: real)
    requires lo <= hi
    ensures lo <= c <= hi
    ensures lo <= v <= hi ==> c == v
    ensures v > hi ==> c == hi
    ensures v < lo ==> c == lo
  {
    if v > hi then hi else if v < lo then lo else v
  }

  // ---------------------------------------------------------------------
  // Plane flight (the docs modes)

  /** The flight constants of a mode. */
  datatype Flight = Flight(gravity: real, drag: real, maxUp: real, maxDown: real, ceiling: real)
  {
    predicate Ok() { maxUp >= 0.0 && maxDown >= 0.0 && ceiling >= PlaneFloor }
  }

  /** One tick of plane flight (`handlePlaneMode`): light gravity, drag, the
      velocity clamp, then the ceiling and the floor, each of which stops the
      plane where it is met. */
  function Glide(f: Flight, b: Body): (r: Body)
    requires f.Ok()
    ensures -f.maxDown <= r.v <= f.maxUp
    ensures PlaneFloor <= r.y <= f.ceiling
    ensures r.grounded == b.grounded
    ensures r.v == 0.0 || r.y == b.y + r.v
    ensures r.y != b.y + r.v ==> r.v == 0.0 && (r.y == f.ceiling || r.y == PlaneFloor)
    ensures var v := Clamp((b.v - f.gravity) * f.drag, -f.maxDown, f.maxUp);
            && (PlaneFloor <= b.y + v <= f.ceiling ==> r == Body(b.y + v, v, b.grounded))
            && (b.y + v > f.ceiling ==> r == Body(f.ceiling, 0.0, b.grounded))
            && (b.y + v < PlaneFloor ==> r == Body(PlaneFloor, 0.0, b.grounded))
  {
    var v := Clamp((b.v - f.gravity) * f.drag, -f.maxDown, f.maxUp);
    var y := b.y + v;
    if y > f.ceiling then Body(f.ceiling, 0.0, b.grounded)
    else if y < PlaneFloor then Body(PlaneFloor, 0.0, b.grounded)
    else Body(y, v, b.grounded)
  }

  /** Between floor and ceiling, the plane moves by exactly its new velocity,
      and holding thrust against gravity never makes it fall faster than
      gliding without thrust. */
  lemma GlideMonotone(f: Flight, b: Body, thrust: real)
    requires f.Ok() && thrust >= 0.0 && f.drag >= 0.0
    ensures Glide(f, b.(v := b.v + thrust)).y >= Glide(f, b).y
  {
    var c := b.(v := b.v + thrust);
    var x1 := (b.v - f.gravity) * f.drag;
    var x2 := (c.v - f.gravity) * f.drag;
    Distribute(b.v - f.gravity, thrust, f.drag);
    MulNonNegative(thrust, f.drag);
    var v1 := Clamp(x1, -f.maxDown, f.maxUp);
    var v2 := Clamp(x2, -f.maxDown, f.maxUp);
    ClampMonotone(x1, x2, -f.maxDown, f.maxUp);
    GlideHeight(f, b);
    GlideHeight(f, c);
    ClampMonotone(b.y + v1, b.y + v2, PlaneFloor, f.ceiling);
  }

  lemma GlideHeight(f: Flight, b: Body)
    requires f.Ok()
    ensures Glide(f, b).y == Clamp(b.y + Clamp((b.v - f.gravity) * f.drag, -f.maxDown, f.maxUp), PlaneFloor, f.ceiling)
  {
  }

  lemma Distribute(a: real, t: real, d: real)
    ensures (a + t) * d == a * d + t * d
  {
  }

  lemma MulNonNegative(a: real, b: real)
    requires a >= 0.0 && b >= 0.0
    ensures a * b >= 0.0
  {
  }

  lemma ClampMonotone(a: real, b: real, lo: real, hi: real)
    requires lo <= hi && a <= b
    ensures Clamp(a, lo, hi) <= Clamp(b, lo, hi)
  {
  }

  // ---------------------------------------------------------------------
  // Cube fall of the prototype modes

  /** The cube's gravity and terminal velocity in the prototype modes. */
  const FallGravity: real := 0.015
  const MaxFallVelocity: real := 0.8

  /** The fall and ground check of the prototypes: gravity, the velocity
      clamp, the move; reaching the floor stops and grounds the cube. */
  function ClampedFall(b: Body): (r: Body)
    ensures r.y >= CubeFloor
    ensures r.grounded ==> r == Body(CubeFloor, 0.0, true)
    ensures !r.grounded ==> -MaxFallVelocity <= r.v <= MaxFallVelocity && r.y == b.y + r.v
    ensures b.y <= CubeFloor && b.v <= FallGravity ==> r.grounded
    ensures var v := Clamp(b.v - FallGravity, -MaxFallVelocity, MaxFallVelocity);
            (r.grounded <==> b.y + v <= CubeFloor) && (!r.grounded ==> r.v == v)
  {
    var v := Clamp(b.v - FallGravity, -MaxFallVelocity, MaxFallVelocity);
    var y := b.y + v;
    if y <= CubeFloor then Body(CubeFloor, 0.0, true) else Body(y, v, false)
  }

  // ---------------------------------------------------------------------
  // Ground

  /** One ground piece, given by its x: it scrolls left and, once past the
      left threshold, jumps forward by exactly one wrap length. */
  function ScrollGround(x: real, speed: real, wrap: real): (r: real)
    ensures r == x - speed || r == x - speed + wrap
    ensures r == x - speed <==> (x - speed >= LeftEdge || wrap == 0.0)
  {
    var moved := x - speed;
    if moved < LeftEdge then moved + wrap else moved
  }

  function ScrollGrounds(xs: seq<real>, speed: real, wrap: real): (rs: seq<real>)
    ensures |rs| == |xs|
    ensures forall i :: 0 <= i < |xs| ==> rs[i] == ScrollGround(xs[i], speed, wrap)
  {
    seq(|xs|, i requires 0 <= i < |xs| => ScrollGround(xs[i], speed, wrap))
  }

  /** The initial floor: n pieces, `spacing` apart, the first at `first`. */
  function GroundRow(n: nat, spacing: real, first: real): (xs: seq<real>)
    ensures |xs| == n
    ensures forall i :: 0 <= i < n ==> xs[i] == first + spacing * (i as real)
  {
    seq(n, i requires 0 <= i < n => first + spacing * (i as real))
  }

  /** Ground pieces that start inside the window [LeftEdge, hi] stay inside it,
      provided the step is no longer than the wrap and the window spans it. */
  lemma GroundStaysInWindow(x: real, speed: real, wrap: real, hi: real)
    requires LeftEdge <= x <= hi
    requires 0.0 <= speed <= wrap && LeftEdge + wrap <= hi
    ensures LeftEdge <= ScrollGround(x, speed, wrap) <= hi
  {
  }

  /** Recycling keeps the spacing of two ground pieces up to one wrap length,
      so the tiling of the floor is preserved. */
  lemma GroundSpacingKept(a: real, b: real, speed: real, wrap: real)
    ensures var d := (ScrollGround(a, speed, wrap) - ScrollGround(b, speed, wrap)) - (a - b);
            d == 0.0 || d == wrap || d == -wrap
  {
  }

  // ---------------------------------------------------------------------
  // Spikes

  datatype Spike = Spike(x: real, y: real)

  /** A spike scrolls left; past the threshold it reappears at RespawnX. */
  function ScrollSpike(s: Spike, speed: real): (t: Spike)
    ensures t.y == s.y && t.x >= LeftEdge
    ensures t.x == s.x - speed <==> s.x - speed >= LeftEdge
    ensures t.x != s.x - speed ==> t.x == RespawnX
  {
    var moved := s.x - speed;
    if moved < LeftEdge then Spike(RespawnX, s.y) else Spike(moved, s.y)
  }

  function ScrollSpikes(ss: seq<Spike>, speed: real): (ts: seq<Spike>)
    ensures |ts| == |ss|
    ensures forall i :: 0 <= i < |ss| ==> ts[i] == ScrollSpike(ss[i], speed)
  {
    seq(|ss|, i requires 0 <= i < |ss| => ScrollSpike(ss[i], speed))
  }

  /** A spike kills the cube when it is within 0.6 horizontally and 0.8 vertically. */
  predicate SpikeHit(px: real, py: real, s: Spike)
  {
    Abs(px - s.x) < 0.6 && Abs(py - s.y) < 0.8
  }

  predicate AnySpikeHit(px: real, py: real, ss: seq<Spike>)
  {
    exists i :: 0 <= i < |ss| && SpikeHit(px, py, ss[i])
  }

  // ---------------------------------------------------------------------
  // Platforms

  datatype Platform = Platform(x: real, y: real)

  /** A platform scrolls left; past the threshold it reappears at RespawnX at a
      fresh height in [GroundY + 0.5, GroundY + 2.5). */
  function ScrollPlatform(p: Platform, speed: real, r: real): (q: Platform)
    requires IsDraw(r)
    ensures q.x >= LeftEdge
    ensures p.x - speed >= LeftEdge ==> q == Platform(p.x - speed, p.y)
    ensures p.x - speed < LeftEdge ==> q.x == RespawnX && GroundY + 0.5 <= q.y < GroundY + 2.5
  {
    var moved := p.x - speed;
    if moved < LeftEdge then Platform(RespawnX, GroundY + Spread(0.5, 2.0).At(r))
    else Platform(moved, p.y)
  }

  function ScrollPlatforms(ps: seq<Platform>, speed: real, rs: seq<real>): (qs: seq<Platform>)
    requires |rs| == |ps| && AllDraws(rs)
    ensures |qs| == |ps|
    ensures forall i :: 0 <= i < |ps| ==> qs[i] == ScrollPlatform(ps[i], speed, rs[i])
  {
    seq(|ps|, i requires 0 <= i < |ps| => ScrollPlatform(ps[i], speed, rs[i]))
  }

  /** Every platform stands at least 0.5 above the ground. */
  predicate PlatformsAboveGround(ps: seq<Platform>)
  {
    forall i :: 0 <= i < |ps| ==> ps[i].y >= GroundY + 0.5
  }

  lemma ScrollPlatformsAboveGround(ps: seq<Platform>, speed: real, rs: seq<real>)
    requires |rs| == |ps| && AllDraws(rs) && PlatformsAboveGround(ps)
    ensures PlatformsAboveGround(ScrollPlatforms(ps, speed, rs))
  {
    var qs := ScrollPlatforms(ps, speed, rs);
    forall i | 0 <= i < |qs| ensures qs[i].y >= GroundY + 0.5 {
      assert qs[i] == ScrollPlatform(ps[i], speed, rs[i]);
    }
  }

  /** The cube lands on a platform only when it is within 1.6 horizontally,
      strictly above the platform by less than 0.9 and falling. */
  predicate LandsOn(px: real, b: Body, p: Platform)
  {
    Abs(px - p.x) < 1.6 && 0.0 < b.y - p.y < 0.9 && b.v < 0.0
  }

  /** The landing pass over the platforms, in order: the first platform the
      body lands on puts it 0.6 above that platform, at rest and grounded;
      after that the body no longer falls, so no later platform catches it.
      Either nothing happens or the body ends at rest, grounded, and (over
      platforms above the ground) not below the ground top. */
  function Land(px: real, b: Body, ps: seq<Platform>): (r: Body)
    ensures r == b || (r.v == 0.0 && r.grounded)
    ensures PlatformsAboveGround(ps) && r != b ==> r.y >= CubeFloor
  {
    if |ps| == 0 then b
    else if LandsOn(px, b, ps[0]) then Body(ps[0].y + 0.6, 0.0, true)
    else
      assert PlatformsAboveGround(ps) ==> PlatformsAboveGround(ps[1..]);
      Land(px, b, ps[1..])
  }

  /** The index of the first platform the body lands on, or -1 when it
      reaches none. */
  function FirstLanding(px: real, b: Body, ps: seq<Platform>): (i: int)
    ensures -1 <= i < |ps|
    ensures i >= 0 ==> LandsOn(px, b, ps[i])
    ensures forall j :: 0 <= j < |ps| && (i < 0 || j < i) ==> !LandsOn(px, b, ps[j])
    decreases |ps|
  {
    if |ps| == 0 then -1
    else if LandsOn(px, b, ps[0]) then 0
    else
      var k := FirstLanding(px, b, ps[1..]);
      assert forall j :: 1 <= j < |ps| ==> ps[j] == ps[1..][j - 1];
      if k < 0 then -1 else k + 1
  }

  /** The landing pass puts the body on the first platform it reaches, and
      leaves it alone when it reaches none. */
  lemma {:induction false} LandOnFirst(px: real, b: Body, ps: seq<Platform>)
    ensures var i := FirstLanding(px, b, ps);
            Land(px, b, ps) == if i < 0 then b else Body(ps[i].y + 0.6, 0.0, true)
    decreases |ps|
  {
    if |ps| > 0 && !LandsOn(px, b, ps[0]) {
      LandOnFirst(px, b, ps[1..]);
    }
  }

  /** A body that is not falling is left alone by the landing pass. */
  lemma {:induction false} LandAtRest(px: real, b: Body, ps: seq<Platform>)
    requires b.v >= 0.0
    ensures Land(px, b, ps) == b
  {
    if |ps| > 0 {
      LandAtRest(px, b, ps[1..]);
    }
  }

  /** Testing platform i and then passing the rest is the landing pass from
      platform i on. */
  lemma LandPass(px: real, b: Body, ps: seq<Platform>, i: nat, after: Body)
    requires i < |ps|
    requires after == if LandsOn(px, b, ps[i]) then Body(ps[i].y + 0.6, 0.0, true) else b
    ensures Land(px, after, ps[i + 1..]) == Land(px, b, ps[i..])
  {
    assert ps[i..][1..] == ps[i + 1..];
    if LandsOn(px, b, ps[i]) {
      LandAtRest(px, after, ps[i + 1..]);
    }
  }

  /** One tick of cube motion in the prototypes: the clamped fall, then the
      landing pass. */
  function FallAndLand(px: real, b: Body, ps: seq<Platform>): (r: Body)
    ensures PlatformsAboveGround(ps) ==> r.y >= CubeFloor
    ensures r.grounded ==> r.v == 0.0
    ensures -MaxFallVelocity <= r.v <= MaxFallVelocity
  {
    Land(px, ClampedFall(b), ps)
  }

  /** A cube resting on the ground stays there, whatever the platforms. */
  lemma RestingCubeStays(px: real, ps: seq<Platform>)
    ensures FallAndLand(px, Body(CubeFloor, 0.0, true), ps) == Body(CubeFloor, 0.0, true)
  {
    LandAtRest(px, ClampedFall(Body(CubeFloor, 0.0, true)), ps);
  }

  // ---------------------------------------------------------------------
  // Portals

  /** A portal: its x, the form it turns the player into and its latch. */
  datatype Portal = Portal(x: real, target: Form, activated: bool)

  /** The portal after one tick and, when it fired this tick, the form it
      asked for. */
  datatype PortalOutcome = PortalOutcome(portal: Portal, trigger: Option<Form>)

  /** Recycling: past the threshold a portal reappears at PortalRespawnX,
      unlatched and aimed at the other form. */
  function RecyclePortal(p: Portal): (q: Portal)
    ensures p.x < LeftEdge ==> q == Portal(PortalRespawnX, Flip(p.target), false)
    ensures p.x >= LeftEdge ==> q == p
  {
    if p.x < LeftEdge then Portal(PortalRespawnX, Flip(p.target), false) else p
  }

  /** Activation: an unlatched portal within reach of the player latches and
      fires its target form. */
  function ActivatePortal(p: Portal, px: real): (o: PortalOutcome)
    ensures o.trigger.Some? <==> Abs(px - p.x) < PortalReach && !p.activated
    ensures o.trigger.Some? ==> o.trigger.value == p.target && o.portal == p.(activated := true)
    ensures o.trigger.None? ==> o.portal == p
  {
    if Abs(px - p.x) < PortalReach && !p.activated then
      PortalOutcome(p.(activated := true), Some(p.target))
    else PortalOutcome(p, None)
  }

  /** One portal tick: scroll, then recycle and activate in one of the two
      orders the modes use. */
  function StepPortal(p: Portal, speed: real, px: real, recycleFirst: bool): (o: PortalOutcome)
    ensures o.trigger.Some? ==> o.trigger.value == p.target || recycleFirst
    ensures o.portal.x == p.x - speed || o.portal.x == PortalRespawnX
  {
    var moved := p.(x := p.x - speed);
    if recycleFirst then
      ActivatePortal(RecyclePortal(moved), px)
    else
      var a := ActivatePortal(moved, px);
      PortalOutcome(RecyclePortal(a.portal), a.trigger)
  }

  /** A portal fires exactly when, after the scroll (and, recycling first,
      the recycling), it is within reach of the player and not yet latched;
      it then yields the target it has at that moment. */
  lemma StepPortalFires(p: Portal, speed: real, px: real, recycleFirst: bool)
    ensures var o := StepPortal(p, speed, px, recycleFirst);
            var moved := p.(x := p.x - speed);
            var q := if recycleFirst then RecyclePortal(moved) else moved;
            && (o.trigger.Some? <==> Abs(px - q.x) < PortalReach && !q.activated)
            && (o.trigger.Some? ==> o.trigger.value == q.target)
  {
  }

  /** When the player stands well inside the recycling band, the order of
      recycling and activation makes no difference. */
  lemma PortalOrderIrrelevant(p: Portal, speed: real, px: real)
    requires LeftEdge + PortalReach <= px <= PortalRespawnX - PortalReach
    ensures StepPortal(p, speed, px, true) == StepPortal(p, speed, px, false)
  {
  }

  /** A latched portal that is not recycled stays latched and does not fire. */
  lemma LatchHolds(p: Portal, speed: real, px: real, recycleFirst: bool)
    requires p.activated && p.x - speed >= LeftEdge
    ensures StepPortal(p, speed, px, recycleFirst) == PortalOutcome(p.(x := p.x - speed), None)
  {
  }

  function Sum(speeds: seq<real>): real
  {
    if |speeds| == 0 then 0.0 else speeds[0] + Sum(speeds[1..])
  }

  /** How many times a portal fires over a run of ticks with the given speeds. */
  function FireCount(p: Portal, speeds: seq<real>, px: real, recycleFirst: bool): nat
    decreases |speeds|
  {
    if |speeds| == 0 then 0
    else
      var o := StepPortal(p, speeds[0], px, recycleFirst);
      (if o.trigger.Some? then 1 else 0) + FireCount(o.portal, speeds[1..], px, recycleFirst)
  }

  /** Between two recycles a portal fires at most once, and not at all when it
      is already latched. */
  lemma {:induction false} FiresAtMostOnce(p: Portal, speeds: seq<real>, px: real, recycleFirst: bool)
    requires forall i :: 0 <= i < |speeds| ==> speeds[i] >= 0.0
    requires p.x - Sum(speeds) >= LeftEdge
    ensures FireCount(p, speeds, px, recycleFirst) <= 1
    ensures p.activated ==> FireCount(p, speeds, px, recycleFirst) == 0
    decreases |speeds|
  {
    if |speeds| > 0 {
      var o := StepPortal(p, speeds[0], px, recycleFirst);
      var rest := speeds[1..];
      assert forall i :: 0 <= i < |rest| ==> rest[i] == speeds[i + 1];
      SumNonNegative(rest);
      assert p.x - speeds[0] >= LeftEdge;
      assert o.portal.x == p.x - speeds[0];
      assert o.trigger.Some? ==> o.portal.activated;
      assert p.activated ==> o.trigger.None? && o.portal.activated;
      FiresAtMostOnce(o.portal, rest, px, recycleFirst);
    }
  }

  lemma {:induction false} SumNonNegative(speeds: seq<real>)
    requires forall i :: 0 <= i < |speeds| ==> speeds[i] >= 0.0
    ensures Sum(speeds) >= 0.0
  {
    if |speeds| > 0 {
      var rest := speeds[1..];
      assert forall i :: 0 <= i < |rest| ==> rest[i] == speeds[i + 1];
      SumNonNegative(rest);
    }
  }

  /** The form of the player after the portal pass: each portal that fires
      leaves the player in its target form (it transforms the player or the
      player already has that form); a pass in which nothing fires leaves the
      form alone. */
  function FormAfterPortals(f: Form, ps: seq<Portal>, speed: real, px: real, recycleFirst: bool): (g: Form)
    ensures (forall i :: 0 <= i < |ps| ==> StepPortal(ps[i], speed, px, recycleFirst).trigger.None?) ==> g == f
    decreases |ps|
  {
    if |ps| == 0 then f
    else
      var n := |ps| - 1;
      var before := FormAfterPortals(f, ps[..n], speed, px, recycleFirst);
      assert forall i :: 0 <= i < n ==> ps[..n][i] == ps[i];
      match StepPortal(ps[n], speed, px, recycleFirst).trigger
      case Some(t) => t
      case None => before
  }

  /** The index of the last portal that fires in the pass, or -1 when none
      does. */
  function LastFiring(ps: seq<Portal>, speed: real, px: real, recycleFirst: bool): (i: int)
    ensures -1 <= i < |ps|
    ensures i >= 0 ==> StepPortal(ps[i], speed, px, recycleFirst).trigger.Some?
    ensures forall j :: i < j < |ps| ==> StepPortal(ps[j], speed, px, recycleFirst).trigger.None?
    decreases |ps|
  {
    if |ps| == 0 then -1
    else
      var n := |ps| - 1;
      if StepPortal(ps[n], speed, px, recycleFirst).trigger.Some? then n
      else
        assert forall j :: 0 <= j < n ==> ps[..n][j] == ps[j];
        LastFiring(ps[..n], speed, px, recycleFirst)
  }

  /** The last portal to fire decides the form; if none fires the form is
      kept. */
  lemma {:induction false} LastFiringDecides(f: Form, ps: seq<Portal>, speed: real, px: real, recycleFirst: bool)
    ensures var i := LastFiring(ps, speed, px, recycleFirst);
            FormAfterPortals(f, ps, speed, px, recycleFirst) ==
              if i < 0 then f else StepPortal(ps[i], speed, px, recycleFirst).trigger.value
    decreases |ps|
  {
    if |ps| > 0 {
      var n := |ps| - 1;
      if StepPortal(ps[n], speed, px, recycleFirst).trigger.None? {
        LastFiringDecides(f, ps[..n], speed, px, recycleFirst);
        var i := LastFiring(ps[..n], speed, px, recycleFirst);
        if i >= 0 {
          assert ps[..n][i] == ps[i];
        }
      }
    }
  }

  /** The portals after the portal pass. */
  function StepPortals(ps: seq<Portal>, speed: real, px: real, recycleFirst: bool): (qs: seq<Portal>)
    ensures |qs| == |ps|
    ensures forall i :: 0 <= i < |ps| ==> qs[i] == StepPortal(ps[i], speed, px, recycleFirst).portal
  {
    seq(|ps|, i requires 0 <= i < |ps| => StepPortal(ps[i], speed, px, recycleFirst).portal)
  }

  /** The part of a portal mode's state that a portal may change when it
      transforms the player: the form, the vertical velocity and the three
      obstacle pools (`B` is the mode's barrier type). */
  datatype Scene<B> = Scene(form: Form, v: real, spikes: seq<Spike>, platforms: seq<Platform>, barriers: seq<B>)

  /** The whole simulated state of a portal mode between two ticks. */
  datatype State<B> = State(body: Body, form: Form, score: real, speed: real, over: bool,
                            ground: seq<real>, spikes: seq<Spike>, platforms: seq<Platform>,
                            barriers: seq<B>, portals: seq<Portal>)

  // ---------------------------------------------------------------------
  // Gap barriers (plane obstacles of the prototype modes)

  /** A barrier pair: the x of its top and bottom halves and its gap. */
  datatype GapBarrier = GapBarrier(topX: real, bottomX: real, gapY: real, gapSize: real)

  /** How a mode respawns barriers: where, and the ranges of the fresh gap. */
  datatype GapRule = GapRule(respawnX: real, gapY: Spread, gapSize: Spread)
  {
    predicate Ok() { gapY.span > 0.0 && gapSize.span > 0.0 }
  }

  /** Both halves scroll left together; once the top half is past the
      threshold both reappear at the respawn x with a fresh gap. */
  function ScrollBarrier(b: GapBarrier, speed: real, rule: GapRule, ry: real, rs: real): (c: GapBarrier)
    requires rule.Ok() && IsDraw(ry) && IsDraw(rs)
    ensures b.topX - speed >= LeftEdge ==>
              c == GapBarrier(b.topX - speed, b.bottomX - speed, b.gapY, b.gapSize)
    ensures b.topX == b.bottomX ==> c.topX == c.bottomX
    ensures b.topX - speed < LeftEdge ==>
              c.topX == c.bottomX == rule.respawnX &&
              rule.gapY.low <= c.gapY < rule.gapY.low + rule.gapY.span &&
              rule.gapSize.low <= c.gapSize < rule.gapSize.low + rule.gapSize.span
  {
    var top, bottom := b.topX - speed, b.bottomX - speed;
    if top < LeftEdge then
      GapBarrier(rule.respawnX, rule.respawnX, rule.gapY.At(ry), rule.gapSize.At(rs))
    else GapBarrier(top, bottom, b.gapY, b.gapSize)
  }

  function ScrollBarriers(bs: seq<GapBarrier>, speed: real, rule: GapRule, ys: seq<real>, sizes: seq<real>): (cs: seq<GapBarrier>)
    requires rule.Ok() && |ys| == |sizes| == |bs| && AllDraws(ys) && AllDraws(sizes)
    ensures |cs| == |bs|
    ensures forall i :: 0 <= i < |bs| ==> cs[i] == ScrollBarrier(bs[i], speed, rule, ys[i], sizes[i])
  {
    seq(|bs|, i requires 0 <= i < |bs| => ScrollBarrier(bs[i], speed, rule, ys[i], sizes[i]))
  }

  /** The two halves of every barrier stand at the same x. */
  predicate BarriersAligned(bs: seq<GapBarrier>)
  {
    forall i :: 0 <= i < |bs| ==> bs[i].topX == bs[i].bottomX
  }

  /** Half the height of the plane's hit box. */
  const PlaneRadius: real := 0.5

  /** The plane hits a barrier when it is within 0.8 of it horizontally and
      its vertical extent is not inside the gap. */
  predicate BarrierHit(px: real, py: real, b: GapBarrier)
  {
    Abs(px - b.topX) < 0.8 &&
    (py + PlaneRadius > b.gapY + b.gapSize / 2.0 || py - PlaneRadius < b.gapY - b.gapSize / 2.0)
  }

  predicate AnyBarrierHit(px: real, py: real, bs: seq<GapBarrier>)
  {
    exists i :: 0 <= i < |bs| && BarrierHit(px, py, bs[i])
  }

  /** A plane whose extent fits the gap of a barrier cannot hit it, and one
      within reach whose extent does not fit always does. */
  lemma BarrierHitIffOutsideGap(px: real, py: real, b: GapBarrier)
    requires Abs(px - b.topX) < 0.8
    ensures BarrierHit(px, py, b) <==>
              !(b.gapY - b.gapSize / 2.0 <= py - PlaneRadius && py + PlaneRadius <= b.gapY + b.gapSize / 2.0)
  {
  }

  /** The barriers a transform into the plane spawns: `count` of them,
      `spacing` apart starting at x = 10, each with a fresh gap. */
  function BarrierField(spacing: real, rule: GapRule, ys: seq<real>, sizes: seq<real>): (bs: seq<GapBarrier>)
    requires rule.Ok() && |ys| == |sizes| && AllDraws(ys) && AllDraws(sizes)
    ensures |bs| == |ys|
    ensures forall i :: 0 <= i < |bs| ==>
              bs[i].topX == bs[i].bottomX == 10.0 + spacing * (i as real) &&
              rule.gapY.low <= bs[i].gapY < rule.gapY.low + rule.gapY.span &&
              rule.gapSize.low <= bs[i].gapSize < rule.gapSize.low + rule.gapSize.span
  {
    seq(|ys|, i requires 0 <= i < |ys| =>
      var x := 10.0 + spacing * (i as real);
      GapBarrier(x, x, rule.gapY.At(ys[i]), rule.gapSize.At(sizes[i])))
  }

  /** The spawned barriers are strictly ordered left to right. */
  lemma BarrierFieldOrdered(spacing: real, rule: GapRule, ys: seq<real>, sizes: seq<real>, i: nat, j: nat)
    requires rule.Ok() && |ys| == |sizes| && AllDraws(ys) && AllDraws(sizes)
    requires spacing > 0.0 && i < j < |ys|
    ensures BarrierField(spacing, rule, ys, sizes)[i].topX < BarrierField(spacing, rule, ys, sizes)[j].topX
  {
    var bs := BarrierField(spacing, rule, ys, sizes);
    assert (j as real) - (i as real) >= 1.0;
    assert spacing * (j as real) - spacing * (i as real) == spacing * ((j as real) - (i as real));
  }
}
