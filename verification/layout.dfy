/**
 * The procedurally laid-out road network: the highway of road segments, the
 * two-lane centre line, the dashed lane lines, the pedestrian crossing and
 * the two sidewalks. Each builder appends to the shared road-network group in
 * place, as the source does, and is proved against a function that gives the
 * placements it appends; the lemmas state the layout rules those functions
 * obey.
 */
module Layout {
  import opened SceneGraph
  import opened Counting

  const RoadWidth: real := 25.0
  const RoadSegmentLength: real := 50.0

  /** The highway runs along z from HighwayStart to HighwayEnd. */
  const HighwayStart: real := -200.0
  const HighwayEnd: real := 200.0

  /** Every road segment is one plane, RoadWidth wide and RoadSegmentLength
      long; lying it flat (-pi/2 about x) turns its length onto world z. */
  const RoadPlane := Plane(RoadWidth, RoadSegmentLength)

  // ---------------------------------------------------------------------
  // Road segments

  /** The segment `addRoadSegment(x, z, rotation)` creates (rotation in units of pi). */
  function RoadSegment(x: real, z: real, rotation: real): Placement
  {
    Placement(RoadPlane, Vec3(x, 0.0, z), Vec3(-0.5, 0.0, rotation), 1.0)
  }

  method AddRoadSegment(network: Group, x: real, z: real, rotation: real)
    modifies network
    ensures network.children == old(network.children) + [RoadSegment(x, z, rotation)]
  {
    network.Add(RoadSegment(x, z, rotation));
  }

  function SegmentCount(): nat
  {
    CountUpTo(HighwayStart, HighwayEnd, RoadSegmentLength)
  }

  /** The segments of the highway, in the order the loop adds them. */
  function Highway(): seq<Placement>
  {
    seq(SegmentCount(), k => RoadSegment(0.0, HighwayStart + k as real * RoadSegmentLength, 0.0))
  }

  /** The highway loop: one segment every RoadSegmentLength while z <= HighwayEnd. */
  method BuildHighway(network: Group)
    modifies network
    ensures network.children == old(network.children) + Highway()
  {
    var z := HighwayStart;
    ghost var k: nat := 0;
    while z <= HighwayEnd
      invariant z == HighwayStart + k as real * RoadSegmentLength
      invariant k <= SegmentCount()
      invariant network.children == old(network.children) + Highway()[..k]
      decreases SegmentCount() - k
    {
      CountUpToSpec(HighwayStart, HighwayEnd, RoadSegmentLength, k);
      AddRoadSegment(network, 0.0, z, 0.0);
      assert Highway()[..k + 1] == Highway()[..k] + [Highway()[k]];
      z := z + RoadSegmentLength;
      k := k + 1;
    }
    CountUpToSpec(HighwayStart, HighwayEnd, RoadSegmentLength, k);
    assert Highway()[..k] == Highway();
  }

  /** Nine flat segments at x = 0, centred at z = -200, -150, ..., 200. */
  lemma HighwayLayout()
    ensures |Highway()| == 9
    ensures forall k :: 0 <= k < 9 ==>
      Highway()[k].shape == RoadPlane &&
      Highway()[k].position == Vec3(0.0, 0.0, -200.0 + 50.0 * k as real) &&
      Highway()[k].rotation == Vec3(-0.5, 0.0, 0.0)
    ensures Highway()[0].position.z == HighwayStart && Highway()[8].position.z == HighwayEnd
  {
    assert SegmentCount() == 9;
  }

  /** Consecutive segments abut: their centres are exactly one segment length
      apart, so the far edge of one is the near edge of the next. */
  lemma HighwayTiles(k: nat)
    requires k + 1 < |Highway()|
    ensures Highway()[k + 1].position.z - Highway()[k].position.z == RoadPlane.height
    ensures Highway()[k].position.z + RoadPlane.height / 2.0 == Highway()[k + 1].position.z - RoadPlane.height / 2.0
  {
  }

  // ---------------------------------------------------------------------
  // Two-lane centre line

  /** The box every dash of a centre or lane line is built from. */
  const DashBox := Box(0.2, 0.01, 2.0)
  const DashHeight: real := 0.01
  const DashStride: real := 10.0

  /** A centre-line dash: turned a quarter turn about y, so it runs along x. */
  function CenterLineDash(x: real, zPos: real): Placement
  {
    Placement(DashBox, Vec3(x, DashHeight, zPos), Vec3(0.0, 0.5, 0.0), 1.0)
  }

  function CenterLine(startX: real, endX: real, zPos: real): seq<Placement>
  {
    seq(CountBelow(startX, endX, DashStride), k => CenterLineDash(startX + k as real * DashStride, zPos))
  }

  /** `addTwoLaneCenterLine`: one dash every DashStride while x < endX. */
  method AddTwoLaneCenterLine(network: Group, startX: real, endX: real, zPos: real)
    modifies network
    ensures network.children == old(network.children) + CenterLine(startX, endX, zPos)
  {
    ghost var n := CountBelow(startX, endX, DashStride);
    var x := startX;
    ghost var k: nat := 0;
    while x < endX
      invariant x == startX + k as real * DashStride
      invariant k <= n
      invariant network.children == old(network.children) + CenterLine(startX, endX, zPos)[..k]
      decreases n - k
    {
      CountBelowSpec(startX, endX, DashStride, k);
      network.Add(CenterLineDash(x, zPos));
      assert CenterLine(startX, endX, zPos)[..k + 1]
          == CenterLine(startX, endX, zPos)[..k] + [CenterLine(startX, endX, zPos)[k]];
      x := x + DashStride;
      k := k + 1;
    }
    CountBelowSpec(startX, endX, DashStride, k);
    assert CenterLine(startX, endX, zPos)[..k] == CenterLine(startX, endX, zPos);
  }

  /** Every dash starts in [startX, endX), on the line z = zPos, slightly
      above the road, and consecutive dashes are DashStride apart. */
  lemma {:induction false} CenterLineBounds(startX: real, endX: real, zPos: real, k: nat)
    requires k < |CenterLine(startX, endX, zPos)|
    ensures startX <= CenterLine(startX, endX, zPos)[k].position.x < endX
    ensures CenterLine(startX, endX, zPos)[k].position.z == zPos
    ensures CenterLine(startX, endX, zPos)[k].position.y == DashHeight
    ensures k + 1 < |CenterLine(startX, endX, zPos)| ==>
      CenterLine(startX, endX, zPos)[k + 1].position.x - CenterLine(startX, endX, zPos)[k].position.x == DashStride
  {
    CountBelowSpec(startX, endX, DashStride, k);
  }

  const CenterLineStartX: real := 20.0
  const CenterLineEndX: real := 100.0
  const CenterLineZ: real := -50.0

  /** The one centre line the scene has: 8 dashes at x = 20, 30, ..., 90 on z = -50. */
  lemma SourceCenterLine()
    ensures |CenterLine(CenterLineStartX, CenterLineEndX, CenterLineZ)| == 8
    ensures forall k :: 0 <= k < 8 ==>
      CenterLine(CenterLineStartX, CenterLineEndX, CenterLineZ)[k].position == Vec3(20.0 + 10.0 * k as real, 0.01, -50.0)
  {
    assert CountBelow(CenterLineStartX, CenterLineEndX, DashStride) == 8;
  }

  // ---------------------------------------------------------------------
  // Lane lines

  const LaneWidth: real := RoadWidth / 5.0

  /** The x-offset of lane line i. */
  function LaneOffset(i: int): real
  {
    i as real * LaneWidth
  }

  function LaneDash(x: real, z: real): Placement
  {
    Placement(DashBox, Vec3(x, DashHeight, z), NoRotation, 1.0)
  }

  function DashesPerLine(): nat
  {
    CountBelow(HighwayStart, HighwayEnd, DashStride)
  }

  /** One dashed line at offset x: a dash every DashStride while z < HighwayEnd. */
  function LaneLine(x: real): seq<Placement>
  {
    seq(DashesPerLine(), k => LaneDash(x, HighwayStart + k as real * DashStride))
  }

  /** The dashed lines for i = lo, ..., hi - 1, in loop order. */
  function LaneMarkings(lo: int, hi: int): seq<Placement>
    decreases hi - lo
  {
    if hi <= lo then [] else LaneMarkings(lo, hi - 1) + LaneLine(LaneOffset(hi - 1))
  }

  /** `addLaneLines`: for i = -2 .. 2, a dashed line at x = i * laneWidth. */
  method AddLaneLines(network: Group)
    modifies network
    ensures network.children == old(network.children) + LaneMarkings(-2, 3)
  {
    var i := -2;
    while i <= 2
      invariant -2 <= i <= 3
      invariant network.children == old(network.children) + LaneMarkings(-2, i)
    {
      var xPos := i as real * LaneWidth;
      ghost var before := network.children;
      var z := HighwayStart;
      ghost var k: nat := 0;
      while z < HighwayEnd
        invariant z == HighwayStart + k as real * DashStride
        invariant k <= DashesPerLine()
        invariant network.children == before + LaneLine(xPos)[..k]
        decreases DashesPerLine() - k
      {
        CountBelowSpec(HighwayStart, HighwayEnd, DashStride, k);
        network.Add(LaneDash(xPos, z));
        assert LaneLine(xPos)[..k + 1] == LaneLine(xPos)[..k] + [LaneLine(xPos)[k]];
        z := z + DashStride;
        k := k + 1;
      }
      CountBelowSpec(HighwayStart, HighwayEnd, DashStride, k);
      assert LaneLine(xPos)[..k] == LaneLine(xPos);
      i := i + 1;
    }
  }

  lemma DashesPerLineIs40()
    ensures DashesPerLine() == 40
  {
  }

  /** Dash j of the lines lo .. hi - 1 belongs to line lo + j / 40 and is the
      (j % 40)-th dash along it. */
  lemma {:induction false} LaneMarkingsAt(lo: int, hi: int, j: int)
    requires lo <= hi && 0 <= j < (hi - lo) * 40
    ensures |LaneMarkings(lo, hi)| == (hi - lo) * 40
    ensures LaneMarkings(lo, hi)[j] == LaneDash(LaneOffset(lo + j / 40), HighwayStart + (j % 40) as real * DashStride)
    decreases hi - lo
  {
    DashesPerLineIs40();
    var prev := (hi - 1 - lo) * 40;
    if j < prev {
      LaneMarkingsAt(lo, hi - 1, j);
    } else {
      if hi - 1 > lo {
        LaneMarkingsAt(lo, hi - 1, 0);
      }
      assert |LaneMarkings(lo, hi - 1)| == prev;
      assert j / 40 == hi - 1 - lo;
      assert LaneMarkings(lo, hi)[j] == LaneLine(LaneOffset(hi - 1))[j - prev];
    }
  }

  /** Five dashed lines of 40 dashes each: dash j lies on offset
      LaneOffset(j / 40 - 2) at z = -200 + 10 * (j % 40), so every dash has z < 200. */
  lemma LaneLinesLayout(j: int)
    requires 0 <= j < 200
    ensures |LaneMarkings(-2, 3)| == 200
    ensures LaneMarkings(-2, 3)[j].position
         == Vec3(LaneOffset(j / 40 - 2), DashHeight, -200.0 + 10.0 * (j % 40) as real)
    ensures -200.0 <= LaneMarkings(-2, 3)[j].position.z < 200.0
  {
    LaneMarkingsAt(-2, 3, j);
  }

  /** The line offsets are {-10, -5, 0, 5, 10}: closed under negation, strictly
      inside the road, and each the centre of one of the five lanes. */
  lemma LaneOffsets()
    ensures (set i | -2 <= i <= 2 :: LaneOffset(i)) == {-10.0, -5.0, 0.0, 5.0, 10.0}
    ensures forall i :: -2 <= i <= 2 ==> -LaneOffset(i) == LaneOffset(-i)
    ensures forall i :: -2 <= i <= 2 ==> -RoadWidth / 2.0 < LaneOffset(i) < RoadWidth / 2.0
    ensures forall i :: -2 <= i <= 2 ==>
      LaneOffset(i) == -RoadWidth / 2.0 + (i + 2) as real * LaneWidth + LaneWidth / 2.0
  {
    var s := set i | -2 <= i <= 2 :: LaneOffset(i);
    assert LaneOffset(-2) == -10.0 && LaneOffset(-1) == -5.0 && LaneOffset(0) == 0.0;
    assert LaneOffset(1) == 5.0 && LaneOffset(2) == 10.0;
    assert forall x :: x in s ==> x in {-10.0, -5.0, 0.0, 5.0, 10.0};
  }

  // ---------------------------------------------------------------------
  // Pedestrian crossing

  const StripeLength: real := 1.5
  const StripeHeight: real := 0.02

  /** `Math.floor(roadWidth / (stripeWidth + stripeGap))`; negative for a negative width. */
  function NumStripes(roadWidth: real, stripeWidth: real, stripeGap: real): int
    requires stripeWidth + stripeGap > 0.0
  {
    (roadWidth / (stripeWidth + stripeGap)).Floor
  }

  /** The centre of stripe i, packed from the left road edge. */
  function StripeX(roadWidth: real, stripeWidth: real, stripeGap: real, i: int): real
  {
    -roadWidth / 2.0 + i as real * (stripeWidth + stripeGap) + stripeWidth / 2.0
  }

  function StripeAt(zPos: real, roadWidth: real, stripeWidth: real, stripeGap: real, i: int): Placement
  {
    Placement(Box(stripeWidth, StripeHeight, StripeLength),
              Vec3(StripeX(roadWidth, stripeWidth, stripeGap, i), StripeHeight, zPos), NoRotation, 1.0)
  }

  /** The stripes the loop `for (i = 0; i < numStripes; i++)` adds. */
  function CrossingStripes(zPos: real, roadWidth: real, stripeWidth: real, stripeGap: real): seq<Placement>
    requires stripeWidth + stripeGap > 0.0
  {
    var n := NumStripes(roadWidth, stripeWidth, stripeGap);
    seq(if n < 0 then 0 else n, i => StripeAt(zPos, roadWidth, stripeWidth, stripeGap, i))
  }

  /** The crossing group, at the origin, holding the stripes. */
  function Crossing(zPos: real, roadWidth: real, stripeWidth: real, stripeGap: real): Placement
    requires stripeWidth + stripeGap > 0.0
  {
    Placement(GroupOf(CrossingStripes(zPos, roadWidth, stripeWidth, stripeGap)), Origin, NoRotation, 1.0)
  }

  const CrossingStripeWidth: real := RoadWidth / 10.0
  const CrossingStripeGap: real := 1.5

  /** `addPedestrianCrossing`: stripes go into a fresh group, which is then
      added to the road network as one child. */
  method AddPedestrianCrossing(network: Group, zPos: real)
    modifies network
    ensures network.children
         == old(network.children) + [Crossing(zPos, RoadWidth, CrossingStripeWidth, CrossingStripeGap)]
  {
    var crossing := new Group();
    var numStripes := NumStripes(RoadWidth, CrossingStripeWidth, CrossingStripeGap);
    ghost var stripes := CrossingStripes(zPos, RoadWidth, CrossingStripeWidth, CrossingStripeGap);
    var i := 0;
    while i < numStripes
      invariant 0 <= i <= |stripes|
      invariant crossing.children == stripes[..i]
      invariant network.children == old(network.children)
    {
      var x := -RoadWidth / 2.0 + i as real * (CrossingStripeWidth + CrossingStripeGap) + CrossingStripeWidth / 2.0;
      crossing.Add(Placement(Box(CrossingStripeWidth, StripeHeight, StripeLength), Vec3(x, StripeHeight, zPos), NoRotation, 1.0));
      assert stripes[..i + 1] == stripes[..i] + [stripes[i]];
      i := i + 1;
    }
    assert stripes[..i] == stripes;
    network.Add(Placement(GroupOf(crossing.children), Origin, NoRotation, 1.0));
  }

  /** With the scene's values (road 25 wide, stripes 2.5 wide, gaps 1.5) there are 6 stripes. */
  lemma SourceStripeCount(zPos: real)
    ensures NumStripes(RoadWidth, CrossingStripeWidth, CrossingStripeGap) == 6
    ensures |CrossingStripes(zPos, RoadWidth, CrossingStripeWidth, CrossingStripeGap)| == 6
  {
  }

  /** Every stripe lies on the road: its extent [x - w/2, x + w/2] is inside
      [-roadWidth/2, roadWidth/2]. */
  lemma {:induction false} StripeWithinRoad(zPos: real, roadWidth: real, stripeWidth: real, stripeGap: real, i: int)
    requires stripeWidth > 0.0 && stripeGap >= 0.0
    requires 0 <= i < |CrossingStripes(zPos, roadWidth, stripeWidth, stripeGap)|
    ensures -roadWidth / 2.0 <= CrossingStripes(zPos, roadWidth, stripeWidth, stripeGap)[i].position.x - stripeWidth / 2.0
    ensures CrossingStripes(zPos, roadWidth, stripeWidth, stripeGap)[i].position.x + stripeWidth / 2.0 <= roadWidth / 2.0
  {
    var pitch := stripeWidth + stripeGap;
    var q := roadWidth / pitch;
    var x := CrossingStripes(zPos, roadWidth, stripeWidth, stripeGap)[i].position.x;
    assert x == -roadWidth / 2.0 + i as real * pitch + stripeWidth / 2.0;
    assert q * pitch == roadWidth;
    assert i < q.Floor;
    assert (i + 1) as real <= q;
    ScaleOrder((i + 1) as real, q, pitch);
    assert (i + 1) as real * pitch <= roadWidth;
    assert (i + 1) as real * pitch == i as real * pitch + pitch;
    ScaleOrder(0.0, i as real, pitch);
  }

  /** Consecutive stripes are exactly one pitch (stripe width plus gap) apart,
      leaving exactly stripeGap between them. */
  lemma StripeSpacing(zPos: real, roadWidth: real, stripeWidth: real, stripeGap: real, i: int)
    requires stripeWidth + stripeGap > 0.0
    requires 0 <= i && i + 1 < |CrossingStripes(zPos, roadWidth, stripeWidth, stripeGap)|
    ensures CrossingStripes(zPos, roadWidth, stripeWidth, stripeGap)[i + 1].position.x
          - CrossingStripes(zPos, roadWidth, stripeWidth, stripeGap)[i].position.x == stripeWidth + stripeGap
    ensures (CrossingStripes(zPos, roadWidth, stripeWidth, stripeGap)[i + 1].position.x - stripeWidth / 2.0)
          - (CrossingStripes(zPos, roadWidth, stripeWidth, stripeGap)[i].position.x + stripeWidth / 2.0) == stripeGap
  {
  }

  /** Some stripe is emitted exactly when the road is at least one pitch wide;
      a narrower road gets an empty crossing rather than an error. */
  lemma {:induction false} StripesIffWideEnough(zPos: real, roadWidth: real, stripeWidth: real, stripeGap: real)
    requires stripeWidth + stripeGap > 0.0
    ensures |CrossingStripes(zPos, roadWidth, stripeWidth, stripeGap)| > 0 <==> roadWidth >= stripeWidth + stripeGap
  {
    var pitch := stripeWidth + stripeGap;
    var q := roadWidth / pitch;
    assert q * pitch == roadWidth;
    ScaleOrder(1.0, q, pitch);
  }

  // ---------------------------------------------------------------------
  // Sidewalks

  const SidewalkWidth: real := 4.0
  const SidewalkLength: real := RoadSegmentLength * 9.0
  const SidewalkHeight: real := 0.2
  const SidewalkBox := Box(SidewalkWidth, SidewalkHeight, SidewalkLength)

  function LeftSidewalk(): Placement
  {
    Placement(SidewalkBox, Vec3(-RoadWidth / 2.0 - SidewalkWidth / 2.0, SidewalkHeight / 2.0, 0.0), NoRotation, 1.0)
  }

  function RightSidewalk(): Placement
  {
    Placement(SidewalkBox, Vec3(RoadWidth / 2.0 + SidewalkWidth / 2.0, SidewalkHeight / 2.0, 0.0), NoRotation, 1.0)
  }

  /** `addSidewalks`: the left sidewalk, then the right one. */
  method AddSidewalks(network: Group)
    modifies network
    ensures network.children == old(network.children) + [LeftSidewalk(), RightSidewalk()]
  {
    network.Add(Placement(SidewalkBox, Vec3(-RoadWidth / 2.0 - SidewalkWidth / 2.0, SidewalkHeight / 2.0, 0.0), NoRotation, 1.0));
    network.Add(Placement(SidewalkBox, Vec3(RoadWidth / 2.0 + SidewalkWidth / 2.0, SidewalkHeight / 2.0, 0.0), NoRotation, 1.0));
  }

  /** The sidewalks mirror each other across x = 0, their inner faces are flush
      with the road edges, their bottoms rest on y = 0, and along z they cover
      exactly the stretch the highway's segments cover. */
  lemma SidewalksFlankRoad()
    ensures LeftSidewalk().position.x == -RightSidewalk().position.x
    ensures LeftSidewalk().position.y == RightSidewalk().position.y
    ensures LeftSidewalk().position.z == RightSidewalk().position.z
    ensures LeftSidewalk().position.x + SidewalkWidth / 2.0 == -RoadWidth / 2.0
    ensures RightSidewalk().position.x - SidewalkWidth / 2.0 == RoadWidth / 2.0
    ensures LeftSidewalk().position.y - SidewalkHeight / 2.0 == 0.0
    ensures LeftSidewalk().position.z - SidewalkLength / 2.0
         == Highway()[0].position.z - RoadSegmentLength / 2.0
    ensures LeftSidewalk().position.z + SidewalkLength / 2.0
         == Highway()[|Highway()| - 1].position.z + RoadSegmentLength / 2.0
  {
    HighwayLayout();
  }

  // ---------------------------------------------------------------------
  // The whole road network

  const CrossingZ: real := -70.0

  /** Everything the road network holds once the layout code has run. */
  function RoadNetwork(): seq<Placement>
  {
    Highway()
    + CenterLine(CenterLineStartX, CenterLineEndX, CenterLineZ)
    + LaneMarkings(-2, 3)
    + [Crossing(CrossingZ, RoadWidth, CrossingStripeWidth, CrossingStripeGap)]
    + [LeftSidewalk(), RightSidewalk()]
  }

  /** The top-level layout code, in source order. */
  method BuildRoadNetwork(network: Group)
    modifies network
    ensures network.children == old(network.children) + RoadNetwork()
  {
    BuildHighway(network);
    AddTwoLaneCenterLine(network, CenterLineStartX, CenterLineEndX, CenterLineZ);
    AddLaneLines(network);
    AddPedestrianCrossing(network, CrossingZ);
    AddSidewalks(network);
    AppendInOrder(old(network.children), Highway(), CenterLine(CenterLineStartX, CenterLineEndX, CenterLineZ),
                  LaneMarkings(-2, 3), [Crossing(CrossingZ, RoadWidth, CrossingStripeWidth, CrossingStripeGap)],
                  [LeftSidewalk(), RightSidewalk()]);
  }

  lemma AppendInOrder<T>(s: seq<T>, a: seq<T>, b: seq<T>, c: seq<T>, d: seq<T>, e: seq<T>)
    ensures s + a + b + c + d + e == s + (a + b + c + d + e)
  {
  }

  /** 9 segments + 8 centre-line dashes + 200 lane dashes + 1 crossing group + 2 sidewalks. */
  lemma RoadNetworkSize()
    ensures |RoadNetwork()| == 220
  {
    HighwayLayout();
    SourceCenterLine();
    LaneLinesLayout(0);
  }
}
