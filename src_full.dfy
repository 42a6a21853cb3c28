/** The simulation of the src full mode (src/modes/full.js): a jetpack-style
    flyer that holds thrust against constant gravity between a floor and a
    ceiling, dodging floating missiles. */
module SrcFullMode {
  import opened World

  const Gravity: real := 0.008
  const Thrust: real := 0.015
  const MaxVelocity: real := 0.3
  const CeilingY: real := 3.0
  /** Lowest and highest height of the flyer. */
  const FlyFloor: real := GroundY + 0.5
  const FlyCeiling: real := CeilingY - 0.5
  /** The flyer's x: set when the player is created and never changed. */
  const PlayerX: real := -3.0
  const PlayerStartY: real := 0.5
  const StartSpeed: real := 0.08
  const ScoreStep: real := 0.1
  const SpeedPerScore: real := 0.00003
  const GroundPieces: nat := 20
  const GroundWrap: real := 100.0
  const MissileCount: nat := 5
  /** Missiles are recycled once past x = -10 and reappear at x = 25. */
  const MissileEdge: real := -10.0
  const MissileRespawnX: real := 25.0
  const DecorationCount: nat := 10
  /** Decorations drift at half speed inside [-20, 20], wrapping around. */
  const DecorationEdge: real := -20.0
  const DecorationRespawnX: real := 20.0

  /** A floating missile: its position and the height it records in its
      user data. */
  datatype Missile = Missile(x: real, y: real, yPosition: real)

  // ---------------------------------------------------------------------
  // Specification of the flight

  /** One tick of flight: constant gravity, the velocity clamp, the move,
      then the floor and the ceiling, each of which stops the flyer. */
  function Hover(b: Body): (r: Body)
    ensures -MaxVelocity <= r.v <= MaxVelocity
    ensures FlyFloor <= r.y <= FlyCeiling
    ensures r.grounded == b.grounded
    ensures r.y != b.y + r.v ==> r.v == 0.0 && (r.y == FlyFloor || r.y == FlyCeiling)
    ensures var v := Clamp(b.v - Gravity, -MaxVelocity, MaxVelocity);
            && (FlyFloor <= b.y + v <= FlyCeiling ==> r == Body(b.y + v, v, b.grounded))
            && (b.y + v < FlyFloor ==> r == Body(FlyFloor, 0.0, b.grounded))
            && (b.y + v > FlyCeiling ==> r == Body(FlyCeiling, 0.0, b.grounded))
  {
    var v := Clamp(b.v - Gravity, -MaxVelocity, MaxVelocity);
    var y := b.y + v;
    if y < FlyFloor then Body(FlyFloor, 0.0, b.grounded)
    else if y > FlyCeiling then Body(FlyCeiling, 0.0, b.grounded)
    else Body(y, v, b.grounded)
  }

  /** Holding thrust never leaves the flyer lower than letting go. */
  lemma HoverMonotone(b: Body, thrust: real)
    requires thrust >= 0.0
    ensures Hover(b.(v := b.v + thrust)).y >= Hover(b).y
  {
    var c := b.(v := b.v + thrust);
    var v1 := Clamp(b.v - Gravity, -MaxVelocity, MaxVelocity);
    var v2 := Clamp(c.v - Gravity, -MaxVelocity, MaxVelocity);
    ClampMonotone(b.v - Gravity, c.v - Gravity, -MaxVelocity, MaxVelocity);
    assert Hover(b).y == Clamp(b.y + v1, FlyFloor, FlyCeiling);
    assert Hover(c).y == Clamp(b.y + v2, FlyFloor, FlyCeiling);
    ClampMonotone(b.y + v1, b.y + v2, FlyFloor, FlyCeiling);
  }

  // ---------------------------------------------------------------------
  // Specification of the missiles

  /** A missile's height as drawn: `Math.random() * 3 - 1.5`. */
  function MissileHeight(r: real): (y: real)
    requires IsDraw(r)
    ensures -1.5 <= y < 1.5
  {
    r * 3.0 - 1.5
  }

  /** A missile scrolls left; past x = -10 it reappears at x = 25 at a fresh
      height, recorded in its user data as well. */
  function ScrollMissile(m: Missile, speed: real, r: real): (n: Missile)
    requires IsDraw(r)
    ensures n.x >= MissileEdge
    ensures m.x - speed >= MissileEdge ==> n == m.(x := m.x - speed)
    ensures m.x - speed < MissileEdge ==> n.x == MissileRespawnX && n.y == n.yPosition && -1.5 <= n.y < 1.5
  {
    var moved := m.x - speed;
    if moved < MissileEdge then
      var y := MissileHeight(r);
      Missile(MissileRespawnX, y, y)
    else m.(x := moved)
  }

  function ScrollMissiles(ms: seq<Missile>, speed: real, rs: seq<real>): (ns: seq<Missile>)
    requires |rs| == |ms| && AllDraws(rs)
    ensures |ns| == |ms|
    ensures forall i :: 0 <= i < |ms| ==> ns[i] == ScrollMissile(ms[i], speed, rs[i])
  {
    seq(|ms|, i requires 0 <= i < |ms| => ScrollMissile(ms[i], speed, rs[i]))
  }

  /** Every missile's recorded height is its height, inside [-1.5, 1.5). */
  ghost predicate MissilesSound(ms: seq<Missile>)
  {
    forall i :: 0 <= i < |ms| ==> ms[i].y == ms[i].yPosition && -1.5 <= ms[i].y < 1.5
  }

  lemma ScrollMissilesSound(ms: seq<Missile>, speed: real, rs: seq<real>)
    requires |rs| == |ms| && AllDraws(rs) && MissilesSound(ms)
    ensures MissilesSound(ScrollMissiles(ms, speed, rs))
  {
    var ns := ScrollMissiles(ms, speed, rs);
    forall i | 0 <= i < |ns|
      ensures ns[i].y == ns[i].yPosition && -1.5 <= ns[i].y < 1.5
    {
      assert ns[i] == ScrollMissile(ms[i], speed, rs[i]);
    }
  }

  /** The flyer hits a missile within 0.8 horizontally and 0.5 vertically. */
  predicate MissileHit(px: real, py: real, m: Missile)
  {
    Abs(px - m.x) < 0.8 && Abs(py - m.y) < 0.5
  }

  predicate AnyMissileHit(px: real, py: real, ms: seq<Missile>)
  {
    exists i :: 0 <= i < |ms| && MissileHit(px, py, ms[i])
  }

  /** Every missile leaves a lane the flyer can use: its height is at least
      0.5 away from the floor or from the ceiling of the flight band. */
  lemma MissileAvoidable(m: Missile)
    requires -1.5 <= m.y < 1.5
    ensures exists y :: FlyFloor <= y <= FlyCeiling && !MissileHit(PlayerX, y, m)
  {
    assert !MissileHit(PlayerX, FlyCeiling, m);
  }

  // ---------------------------------------------------------------------
  // Specification of the decorations

  /** A decoration drifts at half speed; past x = -20 it reappears at 20. */
  function DriftDecoration(x: real, speed: real): (y: real)
    ensures x - speed * 0.5 >= DecorationEdge ==> y == x - speed * 0.5
    ensures x - speed * 0.5 < DecorationEdge ==> y == DecorationRespawnX
  {
    var moved := x - speed * 0.5;
    if moved < DecorationEdge then DecorationRespawnX else moved
  }

  function DriftDecorations(xs: seq<real>, speed: real): (ys: seq<real>)
    ensures |ys| == |xs|
    ensures forall i :: 0 <= i < |xs| ==> ys[i] == DriftDecoration(xs[i], speed)
  {
    seq(|xs|, i requires 0 <= i < |xs| => DriftDecoration(xs[i], speed))
  }

  /** Every decoration lies in [-20, 20]. */
  ghost predicate DecorationsInWindow(xs: seq<real>)
  {
    forall i :: 0 <= i < |xs| ==> DecorationEdge <= xs[i] <= DecorationRespawnX
  }

  /** Drifting at a non-negative speed keeps every decoration in the window. */
  lemma DriftStaysInWindow(xs: seq<real>, speed: real)
    requires speed >= 0.0 && DecorationsInWindow(xs)
    ensures DecorationsInWindow(DriftDecorations(xs, speed))
  {
    var ys := DriftDecorations(xs, speed);
    forall i | 0 <= i < |ys|
      ensures DecorationEdge <= ys[i] <= DecorationRespawnX
    {
      assert ys[i] == DriftDecoration(xs[i], speed);
    }
  }

  // ---------------------------------------------------------------------
  // The mode object

  class FullMode {
    var playerY: real
    var verticalVelocity: real
    var score: real
    var gameSpeed: real
    var isGameOver: bool
    /** x of each ground piece */
    var ground: seq<real>
    /** the missiles (the source keeps them in its `obstacles` list) */
    var obstacles: seq<Missile>
    /** x of each background crystal */
    var decorations: seq<real>

    /** Speed follows score; the flyer is inside its band; missiles are
        sound and decorations inside their window. */
    ghost predicate Valid()
      reads this`score, this`gameSpeed, this`playerY, this`obstacles, this`decorations
    {
      && score >= 0.0 && gameSpeed == StartSpeed + score * SpeedPerScore
      && FlyFloor <= playerY <= FlyCeiling
      && MissilesSound(obstacles)
      && DecorationsInWindow(decorations)
    }

    function PlayerBody(): Body
      reads this
    {
      Body(playerY, verticalVelocity, false)
    }

    /** The state before `init`: empty pools. */
    constructor ()
      ensures Valid()
      ensures score == 0.0 && gameSpeed == StartSpeed && !isGameOver && verticalVelocity == 0.0
      ensures ground == [] && obstacles == [] && decorations == []
    {
      playerY := PlayerStartY;
      verticalVelocity := 0.0;
      score := 0.0;
      gameSpeed := StartSpeed;
      isGameOver := false;
      ground := [];
      obstacles := [];
      decorations := [];
    }

    /** `init`: the flyer at (-3, 0.5), 20 ground pieces, 5 missiles 15
        apart from x = 8, and 10 background crystals. */
    method Init(missileYs: seq<real>, crystalXs: seq<real>)
      requires Valid()
      requires |missileYs| == MissileCount && AllDraws(missileYs)
      requires |crystalXs| == DecorationCount && AllDraws(crystalXs)
      modifies this`playerY, this`ground, this`obstacles, this`decorations
      ensures Valid()
      ensures playerY == PlayerStartY
      ensures ground == old(ground) + GroundRow(GroundPieces, 5.0, -10.0)
      ensures obstacles == old(obstacles) + MissileRow(missileYs)
      ensures decorations == old(decorations) + CrystalRow(crystalXs)
    {
      playerY := PlayerStartY;
      CreateGround();
      CreateObstacles(missileYs);
      CreateDecorations(crystalXs);
    }

    method CreateGround()
      modifies this`ground
      ensures ground == old(ground) + GroundRow(GroundPieces, 5.0, -10.0)
    {
      var i := 0;
      while i < GroundPieces
        invariant 0 <= i <= GroundPieces
        invariant ground == old(ground) + GroundRow(i, 5.0, -10.0)
      {
        ground := ground + [(i as real) * 5.0 - 10.0];
        i := i + 1;
      }
    }

    /** `createObstacles`: one missile per draw, 15 apart from x = 8. */
    method CreateObstacles(ys: seq<real>)
      requires AllDraws(ys) && MissilesSound(obstacles)
      modifies this`obstacles
      ensures obstacles == old(obstacles) + MissileRow(ys)
      ensures MissilesSound(obstacles)
    {
      var i := 0;
      while i < |ys|
        invariant 0 <= i <= |ys|
        invariant obstacles == old(obstacles) + MissileRow(ys[..i])
        invariant MissilesSound(obstacles)
      {
        assert ys[..i + 1][..i] == ys[..i];
        CreateObstacle((i as real) * 15.0 + 8.0, ys[i]);
        i := i + 1;
      }
      assert ys[..i] == ys;
    }

    /** `createObstacle`: a missile at a drawn height, recorded twice. */
    method CreateObstacle(x: real, r: real)
      requires IsDraw(r)
      modifies this`obstacles
      ensures obstacles == old(obstacles) + [Missile(x, MissileHeight(r), MissileHeight(r))]
    {
      var yPosition := r * 3.0 - 1.5;
      obstacles := obstacles + [Missile(x, yPosition, yPosition)];
    }

    /** `createDecorations`: one crystal per draw, in [-20, 20). */
    method CreateDecorations(xs: seq<real>)
      requires AllDraws(xs) && DecorationsInWindow(decorations)
      modifies this`decorations
      ensures decorations == old(decorations) + CrystalRow(xs)
      ensures DecorationsInWindow(decorations)
    {
      var i := 0;
      while i < |xs|
        invariant 0 <= i <= |xs|
        invariant decorations == old(decorations) + CrystalRow(xs[..i])
        invariant DecorationsInWindow(decorations)
      {
        assert xs[..i + 1][..i] == xs[..i];
        decorations := decorations + [xs[i] * 40.0 - 20.0];
        i := i + 1;
      }
      assert xs[..i] == xs;
    }

    /** `handleInput`: thrust while the control is held, unless the game is
        over. */
    method HandleInput(keys: set<string>, mobileJump: bool)
      modifies this`verticalVelocity
      ensures verticalVelocity ==
                old(verticalVelocity) + (if !isGameOver && JumpHeld(keys, mobileJump) then Thrust else 0.0)
    {
      if isGameOver {
        return;
      }
      if "Space" in keys || "ArrowUp" in keys || mobileJump {
        verticalVelocity := verticalVelocity + Thrust;
      }
    }

    /** `update`: one tick of the running game. */
    method Update(missileYs: seq<real>)
      requires Valid()
      requires |missileYs| == |obstacles| && AllDraws(missileYs)
      modifies this
      ensures Valid()
      ensures old(isGameOver) ==> unchanged(this)
      ensures !old(isGameOver) ==>
                && PlayerBody() == Hover(old(PlayerBody()))
                && ground == ScrollGrounds(old(ground), old(gameSpeed), GroundWrap)
                && obstacles == ScrollMissiles(old(obstacles), old(gameSpeed), missileYs)
                && isGameOver == AnyMissileHit(PlayerX, playerY, obstacles)
                && decorations == DriftDecorations(old(decorations), old(gameSpeed))
                && score == old(score) + ScoreStep
                && gameSpeed == StartSpeed + score * SpeedPerScore
    {
      if isGameOver {
        return;
      }
      MovePlayer();
      UpdateGround();
      UpdateObstacles(missileYs);
      UpdateDecorations();
      score := score + ScoreStep;
      gameSpeed := StartSpeed + score * SpeedPerScore;
    }

    /** One animation frame of the page: input, then the tick. */
    method Frame(keys: set<string>, mobileJump: bool, missileYs: seq<real>)
      requires Valid()
      requires |missileYs| == |obstacles| && AllDraws(missileYs)
      modifies this
      ensures Valid()
      ensures old(isGameOver) ==> unchanged(this)
      ensures !old(isGameOver) ==>
                && PlayerBody() == Hover(old(PlayerBody()).(v := old(verticalVelocity) + (if JumpHeld(keys, mobileJump) then Thrust else 0.0)))
                && ground == ScrollGrounds(old(ground), old(gameSpeed), GroundWrap)
                && obstacles == ScrollMissiles(old(obstacles), old(gameSpeed), missileYs)
                && isGameOver == AnyMissileHit(PlayerX, playerY, obstacles)
                && decorations == DriftDecorations(old(decorations), old(gameSpeed))
                && score == old(score) + ScoreStep
                && gameSpeed == StartSpeed + score * SpeedPerScore
    {
      HandleInput(keys, mobileJump);
      Update(missileYs);
    }

    /** The flight step at the head of `update`. */
    method MovePlayer()
      modifies this`verticalVelocity, this`playerY
      ensures PlayerBody() == Hover(old(PlayerBody()))
    {
      verticalVelocity := verticalVelocity - Gravity;
      verticalVelocity := Clamp(verticalVelocity, -MaxVelocity, MaxVelocity);
      playerY := playerY + verticalVelocity;
      if playerY < FlyFloor {
        playerY := FlyFloor;
        verticalVelocity := 0.0;
      }
      if playerY > FlyCeiling {
        playerY := FlyCeiling;
        verticalVelocity := 0.0;
      }
    }

    method UpdateGround()
      modifies this`ground
      ensures ground == ScrollGrounds(old(ground), gameSpeed, GroundWrap)
    {
      var i := 0;
      while i < |ground|
        invariant 0 <= i <= |ground| == |old(ground)|
        invariant forall k :: 0 <= k < i ==> ground[k] == ScrollGround(old(ground)[k], gameSpeed, GroundWrap)
        invariant forall k :: i <= k < |ground| ==> ground[k] == old(ground)[k]
      {
        var x := ground[i] - gameSpeed;
        if x < LeftEdge {
          x := x + GroundWrap;
        }
        ground := ground[i := x];
        i := i + 1;
      }
    }

    /** The missile pass: each missile scrolls and is recycled, then is
        checked against the flyer; a hit ends the game but not the pass. */
    method UpdateObstacles(rs: seq<real>)
      requires |rs| == |obstacles| && AllDraws(rs) && MissilesSound(obstacles)
      modifies this`obstacles, this`isGameOver
      ensures obstacles == ScrollMissiles(old(obstacles), gameSpeed, rs)
      ensures isGameOver == (old(isGameOver) || AnyMissileHit(PlayerX, playerY, obstacles))
      ensures MissilesSound(obstacles)
    {
      var i := 0;
      while i < |obstacles|
        invariant 0 <= i <= |obstacles| == |old(obstacles)|
        invariant forall k :: 0 <= k < i ==> obstacles[k] == ScrollMissile(old(obstacles)[k], gameSpeed, rs[k])
        invariant forall k :: i <= k < |obstacles| ==> obstacles[k] == old(obstacles)[k]
        invariant isGameOver == (old(isGameOver) || exists k :: 0 <= k < i && MissileHit(PlayerX, playerY, obstacles[k]))
      {
        var obstacle := obstacles[i];
        obstacle := obstacle.(x := obstacle.x - gameSpeed);
        if obstacle.x < MissileEdge {
          var newY := rs[i] * 3.0 - 1.5;
          obstacle := Missile(MissileRespawnX, newY, newY);
        }
        obstacles := obstacles[i := obstacle];
        var distance := Abs(PlayerX - obstacle.x);
        var heightDiff := Abs(playerY - obstacle.y);
        if distance < 0.8 && heightDiff < 0.5 {
          GameOver();
        }
        i := i + 1;
      }
      ScrollMissilesSound(old(obstacles), gameSpeed, rs);
    }

    /** The decoration pass (only the horizontal drift is modelled). */
    method UpdateDecorations()
      requires gameSpeed >= 0.0 && DecorationsInWindow(decorations)
      modifies this`decorations
      ensures decorations == DriftDecorations(old(decorations), gameSpeed)
      ensures DecorationsInWindow(decorations)
    {
      var i := 0;
      while i < |decorations|
        invariant 0 <= i <= |decorations| == |old(decorations)|
        invariant forall k :: 0 <= k < i ==> decorations[k] == DriftDecoration(old(decorations)[k], gameSpeed)
        invariant forall k :: i <= k < |decorations| ==> decorations[k] == old(decorations)[k]
      {
        var x := decorations[i] - gameSpeed * 0.5;
        if x < DecorationEdge {
          x := DecorationRespawnX;
        }
        decorations := decorations[i := x];
        i := i + 1;
      }
      DriftStaysInWindow(old(decorations), gameSpeed);
    }

    /** `gameOver`: the terminal flag (the display is not modelled). */
    method GameOver()
      modifies this`isGameOver
      ensures isGameOver
    {
      isGameOver := true;
    }

    /** `restart`: every pool emptied, the scalars reset, and `init` again. */
    method Restart(missileYs: seq<real>, crystalXs: seq<real>)
      requires |missileYs| == MissileCount && AllDraws(missileYs)
      requires |crystalXs| == DecorationCount && AllDraws(crystalXs)
      modifies this
      ensures Valid()
      ensures score == 0.0 && gameSpeed == StartSpeed && !isGameOver
      ensures verticalVelocity == 0.0 && playerY == PlayerStartY
      ensures ground == GroundRow(GroundPieces, 5.0, -10.0)
      ensures obstacles == MissileRow(missileYs)
      ensures decorations == CrystalRow(crystalXs)
    {
      obstacles := [];
      ground := [];
      decorations := [];
      score := 0.0;
      gameSpeed := StartSpeed;
      isGameOver := false;
      verticalVelocity := 0.0;
      playerY := PlayerStartY;
      Init(missileYs, crystalXs);
    }

    /** `cleanup`: every pool emptied. */
    method Cleanup()
      modifies this`obstacles, this`ground, this`decorations
      ensures obstacles == [] && ground == [] && decorations == []
    {
      obstacles := [];
      ground := [];
      decorations := [];
    }
  }

  /** The missiles `createObstacles` lays: 15 apart from x = 8, each sound. */
  function MissileRow(ys: seq<real>): (ms: seq<Missile>)
    requires AllDraws(ys)
    ensures |ms| == |ys|
    ensures MissilesSound(ms)
    ensures forall i :: 0 <= i < |ms| ==> ms[i].x == 8.0 + 15.0 * (i as real)
  {
    seq(|ys|, i requires 0 <= i < |ys| =>
      Missile(8.0 + 15.0 * (i as real), MissileHeight(ys[i]), MissileHeight(ys[i])))
  }

  /** The crystals `createDecorations` lays: each draw spread over [-20, 20),
      so inside the window. */
  function CrystalRow(xs: seq<real>): (cs: seq<real>)
    requires AllDraws(xs)
    ensures |cs| == |xs|
    ensures forall i :: 0 <= i < |xs| ==> cs[i] == Spread(DecorationEdge, 40.0).At(xs[i])
    ensures forall i :: 0 <= i < |cs| ==> DecorationEdge <= cs[i] < DecorationRespawnX
    ensures DecorationsInWindow(cs)
  {
    seq(|xs|, i requires 0 <= i < |xs| => xs[i] * 40.0 - 20.0)
  }
}
