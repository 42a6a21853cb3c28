/** Procedural course generation: a cursor walks right, and for each draw
    one kind of obstacle is laid at the cursor, which then advances by the
    stride of that kind (`createLevel` and `transformToCube`). */
module Layout {
  import opened World

  /** One obstacle kind: spikes at offsets from the cursor, optionally a
      platform at the cursor whose height above the ground is drawn from a
      spread, and the stride by which the cursor advances. */
  datatype Piece = Piece(spikeOffsets: seq<real>, platform: Option<Spread>, stride: real)

  /** What a generation run produced, and where its cursor ended. */
  datatype Course = Course(spikes: seq<Spike>, platforms: seq<Platform>, cursor: real)

  ghost predicate PieceOk(p: Piece)
  {
    && p.stride > 0.0
    && (forall j :: 0 <= j < |p.spikeOffsets| ==> 0.0 <= p.spikeOffsets[j] < p.stride)
    && (forall j, k :: 0 <= j < k < |p.spikeOffsets| ==> p.spikeOffsets[j] < p.spikeOffsets[k])
    && (p.platform.Some? ==> p.platform.value.span > 0.0 && p.platform.value.low >= 0.5)
  }

  ghost predicate SchemeOk(scheme: seq<Piece>)
  {
    |scheme| > 0 && forall k :: 0 <= k < |scheme| ==> PieceOk(scheme[k])
  }

  /** The five kinds of the docs modes: spike, low platform, double spike,
      high platform, gap; strides 4, 5, 5, 5, 6. */
  const DocsKinds: seq<Piece> := [
    Piece([0.0], None, 4.0),
    Piece([], Some(Spread(0.5, 1.5)), 5.0),
    Piece([0.0, 1.2], None, 5.0),
    Piece([], Some(Spread(2.0, 1.0)), 5.0),
    Piece([], None, 6.0)]

  /** The four kinds of the src prototype's first level: spike, platform,
      triple spike, floating platform with a spike 2 further on; strides
      4, 5, 6, 6. */
  const SrcLevelKinds: seq<Piece> := [
    Piece([0.0], None, 4.0),
    Piece([], Some(Spread(0.5, 1.5)), 5.0),
    Piece([0.0, 1.2, 2.4], None, 6.0),
    Piece([2.0], Some(Spread(2.0, 1.0)), 6.0)]

  /** The four kinds the src prototype lays when it turns back into a cube:
      as its first level, but a double spike with stride 5. */
  const SrcCubeKinds: seq<Piece> := [
    Piece([0.0], None, 4.0),
    Piece([], Some(Spread(0.5, 1.5)), 5.0),
    Piece([0.0, 1.2], None, 5.0),
    Piece([2.0], Some(Spread(2.0, 1.0)), 6.0)]

  lemma DocsKindsOk()
    ensures SchemeOk(DocsKinds)
  {
  }

  lemma SrcLevelKindsOk()
    ensures SchemeOk(SrcLevelKinds)
  {
  }

  lemma SrcCubeKindsOk()
    ensures SchemeOk(SrcCubeKinds)
  {
  }

  function SpikesAt(x: real, offsets: seq<real>): (ss: seq<Spike>)
    ensures |ss| == |offsets|
    ensures forall j :: 0 <= j < |offsets| ==> ss[j] == Spike(x + offsets[j], SpikeY)
  {
    seq(|offsets|, j requires 0 <= j < |offsets| => Spike(x + offsets[j], SpikeY))
  }

  /** Lays one piece at the cursor of a course. */
  function PlacePiece(c: Course, p: Piece, h: real): Course
    requires IsDraw(h) && (p.platform.Some? ==> p.platform.value.span > 0.0)
  {
    Course(
      c.spikes + SpikesAt(c.cursor, p.spikeOffsets),
      c.platforms + (if p.platform.Some? then [Platform(c.cursor, GroundY + p.platform.value.At(h))] else []),
      c.cursor + p.stride)
  }

  /** Laying a piece after earlier obstacles is laying it on the run alone
      and keeping the earlier obstacles in front. */
  lemma PlacePieceShift(ss: seq<Spike>, ps: seq<Platform>, c: Course, p: Piece, h: real)
    requires IsDraw(h) && (p.platform.Some? ==> p.platform.value.span > 0.0)
    ensures var d := PlacePiece(c, p, h);
            PlacePiece(Course(ss + c.spikes, ps + c.platforms, c.cursor), p, h) == Course(ss + d.spikes, ps + d.platforms, d.cursor)
  {
    var added := SpikesAt(c.cursor, p.spikeOffsets);
    assert (ss + c.spikes) + added == ss + (c.spikes + added);
    var more := if p.platform.Some? then [Platform(c.cursor, GroundY + p.platform.value.At(h))] else [];
    assert (ps + c.platforms) + more == ps + (c.platforms + more);
  }

  /** A whole generation run: draw k picks the kind and, when that kind has a
      platform, height draw k sets its height. */
  function Generate(scheme: seq<Piece>, kinds: seq<real>, heights: seq<real>, start: real): Course
    requires SchemeOk(scheme) && |kinds| == |heights| && AllDraws(kinds) && AllDraws(heights)
    decreases |kinds|
  {
    if |kinds| == 0 then Course([], [], start)
    else
      var n := |kinds| - 1;
      var piece := scheme[Pick(kinds[n], |scheme|)];
      assert PieceOk(piece);
      PlacePiece(Generate(scheme, kinds[..n], heights[..n], start), piece, heights[n])
  }

  /** Generating one more draw lays one more piece at the old cursor. */
  lemma GenerateSnoc(scheme: seq<Piece>, kinds: seq<real>, heights: seq<real>, start: real, i: nat)
    requires SchemeOk(scheme) && |kinds| == |heights| && AllDraws(kinds) && AllDraws(heights)
    requires i < |kinds|
    ensures PieceOk(scheme[Pick(kinds[i], |scheme|)])
    ensures Generate(scheme, kinds[..i + 1], heights[..i + 1], start) ==
            PlacePiece(Generate(scheme, kinds[..i], heights[..i], start), scheme[Pick(kinds[i], |scheme|)], heights[i])
  {
    assert kinds[..i + 1][..i] == kinds[..i];
    assert heights[..i + 1][..i] == heights[..i];
  }

  ghost predicate SpikesOrdered(ss: seq<Spike>)
  {
    forall i, j :: 0 <= i < j < |ss| ==> ss[i].x < ss[j].x
  }

  ghost predicate PlatformsOrdered(ps: seq<Platform>)
  {
    forall i, j :: 0 <= i < j < |ps| ==> ps[i].x < ps[j].x
  }

  /** Everything a run lays lies in [start, cursor), strictly ordered left to
      right within each pool; every spike stands at SpikeY and every platform
      at least 0.5 above the ground. */
  ghost predicate WellLaid(c: Course, start: real)
  {
    && start <= c.cursor
    && SpikesOrdered(c.spikes) && PlatformsOrdered(c.platforms)
    && (forall i :: 0 <= i < |c.spikes| ==> start <= c.spikes[i].x < c.cursor && c.spikes[i].y == SpikeY)
    && (forall i :: 0 <= i < |c.platforms| ==> start <= c.platforms[i].x < c.cursor)
    && PlatformsAboveGround(c.platforms)
  }

  lemma PlacePieceWellLaid(c: Course, p: Piece, h: real, start: real)
    requires IsDraw(h) && PieceOk(p) && WellLaid(c, start)
    ensures WellLaid(PlacePiece(c, p, h), start)
  {
    var d := PlacePiece(c, p, h);
    var added := SpikesAt(c.cursor, p.spikeOffsets);
    assert d.spikes == c.spikes + added;
    forall i, j | 0 <= i < j < |d.spikes| ensures d.spikes[i].x < d.spikes[j].x {
      if j < |c.spikes| {
      } else if i < |c.spikes| {
        assert d.spikes[j] == added[j - |c.spikes|];
      } else {
        assert d.spikes[i] == added[i - |c.spikes|];
        assert d.spikes[j] == added[j - |c.spikes|];
      }
    }
    forall i | 0 <= i < |d.spikes| ensures start <= d.spikes[i].x < d.cursor && d.spikes[i].y == SpikeY {
      if i >= |c.spikes| {
        assert d.spikes[i] == added[i - |c.spikes|];
      }
    }
  }

  /** Every run of a well-formed scheme is well laid. */
  lemma {:induction false} GenerateWellLaid(scheme: seq<Piece>, kinds: seq<real>, heights: seq<real>, start: real)
    requires SchemeOk(scheme) && |kinds| == |heights| && AllDraws(kinds) && AllDraws(heights)
    ensures WellLaid(Generate(scheme, kinds, heights, start), start)
    decreases |kinds|
  {
    if |kinds| > 0 {
      var n := |kinds| - 1;
      GenerateWellLaid(scheme, kinds[..n], heights[..n], start);
      var piece := scheme[Pick(kinds[n], |scheme|)];
      PlacePieceWellLaid(Generate(scheme, kinds[..n], heights[..n], start), piece, heights[n], start);
    }
  }

  /** Every kind of the scheme advances the cursor by 4 to 6. */
  ghost predicate StridesWithin(scheme: seq<Piece>)
  {
    forall k :: 0 <= k < |scheme| ==> 4.0 <= scheme[k].stride <= 6.0
  }

  /** Every scheme of the game has strides between 4 and 6. */
  lemma SchemesStrides()
    ensures StridesWithin(DocsKinds) && StridesWithin(SrcLevelKinds) && StridesWithin(SrcCubeKinds)
  {
  }

  /** One more draw moves the cursor by the stride of the kind drawn. */
  lemma GenerateCursorStep(scheme: seq<Piece>, kinds: seq<real>, heights: seq<real>, start: real)
    requires SchemeOk(scheme) && |kinds| == |heights| && AllDraws(kinds) && AllDraws(heights)
    requires |kinds| > 0
    ensures var n := |kinds| - 1;
            Generate(scheme, kinds, heights, start).cursor ==
            Generate(scheme, kinds[..n], heights[..n], start).cursor + scheme[Pick(kinds[n], |scheme|)].stride
  {
  }

  /** A run of n draws moves the cursor by between 4n and 6n: the course
      grows with the number of draws and stays within reach. */
  lemma {:induction false} GenerateCursor(scheme: seq<Piece>, kinds: seq<real>, heights: seq<real>, start: real)
    requires SchemeOk(scheme) && StridesWithin(scheme)
    requires |kinds| == |heights| && AllDraws(kinds) && AllDraws(heights)
    ensures var c := Generate(scheme, kinds, heights, start);
            start + 4.0 * (|kinds| as real) <= c.cursor <= start + 6.0 * (|kinds| as real)
    decreases |kinds|
  {
    if |kinds| > 0 {
      var n := |kinds| - 1;
      GenerateCursor(scheme, kinds[..n], heights[..n], start);
      GenerateCursorStep(scheme, kinds, heights, start);
      assert 4.0 <= scheme[Pick(kinds[n], |scheme|)].stride <= 6.0;
    }
  }
}
