/**
 * Placement of the loaded building assets. Once an asset has loaded, its
 * callback walks z from a start value while z <= an end value, in steps of a
 * fixed spacing, and at every step adds two clones to the scene: one on the
 * left of the road and one on the right, each with its own yaw, at a common
 * height and scale. The two callbacks differ only in their constants, so both
 * are one PlacementRule here.
 */
module Buildings {
  import opened SceneGraph
  import opened Counting

  /** Yaws are in units of pi radians. */
  datatype PlacementRule = PlacementRule(
    asset: Asset,
    start: real, end: real, spacing: real,
    leftX: real, rightX: real, y: real,
    scale: real, leftYaw: real, rightYaw: real)

  ghost predicate WellFormed(rule: PlacementRule)
  {
    rule.spacing > 0.0
  }

  /** The house callback: z = -215, -185, ... while z <= 220, clones at x = -20 and x = 20. */
  const HouseRule := PlacementRule(HouseModel, -215.0, 220.0, 30.0, -20.0, 20.0, -1.5, 2.0, -1.5, -0.5)

  /** The apartment callback: z = -230, -200, ... while z <= 230, clones at x = -26 and x = 26. */
  const ApartmentRule := PlacementRule(ApartmentModel, -230.0, 230.0, 30.0, -26.0, 26.0, -0.7, 0.03, -1.5, -0.5)

  function Steps(rule: PlacementRule): nat
    requires WellFormed(rule)
  {
    CountUpTo(rule.start, rule.end, rule.spacing)
  }

  /** The z of step k. */
  function StepZ(rule: PlacementRule, k: nat): real
  {
    rule.start + k as real * rule.spacing
  }

  function LeftClone(rule: PlacementRule, k: nat): Placement
  {
    Placement(ModelClone(rule.asset), Vec3(rule.leftX, rule.y, StepZ(rule, k)), Vec3(0.0, rule.leftYaw, 0.0), rule.scale)
  }

  function RightClone(rule: PlacementRule, k: nat): Placement
  {
    Placement(ModelClone(rule.asset), Vec3(rule.rightX, rule.y, StepZ(rule, k)), Vec3(0.0, rule.rightYaw, 0.0), rule.scale)
  }

  /** The clones of the first k steps, in the order they are added to the scene. */
  function ClonesUpTo(rule: PlacementRule, k: nat): seq<Placement>
  {
    if k == 0 then [] else ClonesUpTo(rule, k - 1) + [LeftClone(rule, k - 1), RightClone(rule, k - 1)]
  }

  function Clones(rule: PlacementRule): seq<Placement>
    requires WellFormed(rule)
  {
    ClonesUpTo(rule, Steps(rule))
  }

  /** The loop body of a loader callback, repeated while z <= rule.end. */
  method PlaceClones(scene: Group, rule: PlacementRule)
    requires WellFormed(rule)
    modifies scene
    ensures scene.children == old(scene.children) + Clones(rule)
  {
    var z := rule.start;
    ghost var k: nat := 0;
    while z <= rule.end
      invariant z == StepZ(rule, k)
      invariant k <= Steps(rule)
      invariant scene.children == old(scene.children) + ClonesUpTo(rule, k)
      decreases Steps(rule) - k
    {
      CountUpToSpec(rule.start, rule.end, rule.spacing, k);
      scene.Add(Placement(ModelClone(rule.asset), Vec3(rule.leftX, rule.y, z), Vec3(0.0, rule.leftYaw, 0.0), rule.scale));
      scene.Add(Placement(ModelClone(rule.asset), Vec3(rule.rightX, rule.y, z), Vec3(0.0, rule.rightYaw, 0.0), rule.scale));
      z := z + rule.spacing;
      k := k + 1;
    }
    CountUpToSpec(rule.start, rule.end, rule.spacing, k);
  }

  /** Step j contributes exactly its left clone at index 2j and its right
      clone at index 2j + 1: two clones per step, nothing else. */
  lemma {:induction false} ClonePairs(rule: PlacementRule, k: nat, j: nat)
    requires j < k
    ensures |ClonesUpTo(rule, k)| == 2 * k
    ensures ClonesUpTo(rule, k)[2 * j] == LeftClone(rule, j)
    ensures ClonesUpTo(rule, k)[2 * j + 1] == RightClone(rule, j)
  {
    if j < k - 1 {
      ClonePairs(rule, k - 1, j);
    } else if k > 1 {
      ClonePairs(rule, k - 1, 0);
    }
  }

  /** Every clone stands at a step z within [start, end], and the two clones of
      one step share z, height and scale; they are mirror images across x = 0
      whenever the rule's offsets are. */
  lemma {:induction false} ClonesInRange(rule: PlacementRule, j: nat)
    requires WellFormed(rule) && j < Steps(rule)
    ensures |Clones(rule)| == 2 * Steps(rule)
    ensures rule.start <= Clones(rule)[2 * j].position.z <= rule.end
    ensures Clones(rule)[2 * j].position.z == Clones(rule)[2 * j + 1].position.z
    ensures Clones(rule)[2 * j].position.y == Clones(rule)[2 * j + 1].position.y == rule.y
    ensures Clones(rule)[2 * j].scale == Clones(rule)[2 * j + 1].scale == rule.scale
    ensures rule.leftX == -rule.rightX ==> Clones(rule)[2 * j].position.x == -Clones(rule)[2 * j + 1].position.x
  {
    ClonePairs(rule, Steps(rule), j);
    CountUpToSpec(rule.start, rule.end, rule.spacing, j);
    ScaleOrder(0.0, j as real, rule.spacing);
  }

  /** Houses: 15 steps at z = -215 + 30k (the last at 205 <= 220), 30 clones,
      the pair at x = -20 and x = 20, height -1.5, scale 2. */
  lemma HouseLayout(j: nat)
    requires j < 15
    ensures WellFormed(HouseRule) && Steps(HouseRule) == 15 && |Clones(HouseRule)| == 30
    ensures Clones(HouseRule)[2 * j].position == Vec3(-20.0, -1.5, -215.0 + 30.0 * j as real)
    ensures Clones(HouseRule)[2 * j + 1].position == Vec3(20.0, -1.5, -215.0 + 30.0 * j as real)
    ensures Clones(HouseRule)[2 * j].scale == Clones(HouseRule)[2 * j + 1].scale == 2.0
    ensures StepZ(HouseRule, 14) == 205.0
  {
    assert Steps(HouseRule) == 15;
    ClonePairs(HouseRule, 15, j);
  }

  /** Apartments: 16 steps at z = -230 + 30k (the last at 220 <= 230), 32
      clones, the pair at x = -26 and x = 26, height -0.7, scale 0.03. */
  lemma ApartmentLayout(j: nat)
    requires j < 16
    ensures WellFormed(ApartmentRule) && Steps(ApartmentRule) == 16 && |Clones(ApartmentRule)| == 32
    ensures Clones(ApartmentRule)[2 * j].position == Vec3(-26.0, -0.7, -230.0 + 30.0 * j as real)
    ensures Clones(ApartmentRule)[2 * j + 1].position == Vec3(26.0, -0.7, -230.0 + 30.0 * j as real)
    ensures Clones(ApartmentRule)[2 * j].scale == Clones(ApartmentRule)[2 * j + 1].scale == 0.03
    ensures StepZ(ApartmentRule, 15) == 220.0
  {
    assert Steps(ApartmentRule) == 16;
    ClonePairs(ApartmentRule, 16, j);
  }
}
