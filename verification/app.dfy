/**
 * The application: the scene and road-network groups, the taxi once its
 * model has loaded, the two cameras and the renderer, with the start-up
 * layout, the loader callbacks' placement work and the per-frame `animate`
 * step. Window size, held keys and the trigonometric functions are inputs.
 */
module App {
  import opened SceneGraph
  import opened Vehicle
  import opened Cameras
  import opened Render
  import Layout
  import Buildings

  /** What one frame of `animate` computes once the taxi exists: the taxi's
      pose, the chase camera's position and look-at target, and the minimap
      camera's position and look-at target. */
  datatype Rig = Rig(taxi: Pose, chase: Vec3, chaseTarget: Vec3, minimapEye: Vec3, minimapTarget: Vec3)

  /** One frame: drive the taxi first, then aim both cameras at its new pose. */
  function Frame(r: Rig, keys: Keys, sin: real -> real, cos: real -> real): Rig
  {
    var t := Step(r.taxi, keys, sin, cos);
    Rig(t, ChaseFollow(r.chase, t, sin, cos), Position(t), MinimapEye(t), MinimapLookAt(t))
  }

  /** n frames with the same keys held. */
  function Frames(r: Rig, keys: Keys, sin: real -> real, cos: real -> real, n: nat): Rig
  {
    if n == 0 then r else Frame(Frames(r, keys, sin, cos, n - 1), keys, sin, cos)
  }

  /** After a frame the minimap camera is exactly over the taxi's new position
      and looks straight down at it, the chase camera looks at the taxi, and
      the chase camera's gap to its goal is 0.9 of what it was. */
  lemma FrameTracksTaxi(r: Rig, keys: Keys, sin: real -> real, cos: real -> real)
    ensures var f := Frame(r, keys, sin, cos);
      f.minimapEye == Vec3(f.taxi.x, MinimapHeight, f.taxi.z) &&
      f.minimapTarget == Vec3(f.taxi.x, 0.0, f.taxi.z) &&
      f.chaseTarget == Position(f.taxi) &&
      f.chase.Minus(ChaseGoal(f.taxi, sin, cos)) == r.chase.Minus(ChaseGoal(f.taxi, sin, cos)).Times(0.9)
  {
    LerpShrinksGap(r.chase, ChaseGoal(Step(r.taxi, keys, sin, cos), sin, cos));
  }

  /** With no arrow key held (absent, or released and stored as false) the
      taxi stays put, so the chase camera closes on one fixed goal: after n
      frames its gap is 0.9^n of the first gap, and it is at the goal only if
      it started there. */
  lemma {:induction false} ParkedTaxiChase(r: Rig, keys: Keys, sin: real -> real, cos: real -> real, n: nat)
    requires !Held(keys, "ArrowUp") && !Held(keys, "ArrowDown")
    requires !Held(keys, "ArrowLeft") && !Held(keys, "ArrowRight")
    ensures Frames(r, keys, sin, cos, n).taxi == r.taxi
    ensures Frames(r, keys, sin, cos, n).chase == Approach(r.chase, ChaseGoal(r.taxi, sin, cos), n)
    ensures Frames(r, keys, sin, cos, n).chase.Minus(ChaseGoal(r.taxi, sin, cos))
         == r.chase.Minus(ChaseGoal(r.taxi, sin, cos)).Times(Decay(n))
    ensures Frames(r, keys, sin, cos, n).chase == ChaseGoal(r.taxi, sin, cos) <==> r.chase == ChaseGoal(r.taxi, sin, cos)
  {
    if n > 0 {
      ParkedTaxiChase(r, keys, sin, cos, n - 1);
      IdleStep(Frames(r, keys, sin, cos, n - 1).taxi, keys, sin, cos);
    }
    ApproachGap(r.chase, ChaseGoal(r.taxi, sin, cos), n);
    ApproachNeverArrives(r.chase, ChaseGoal(r.taxi, sin, cos), n);
  }

  class World {
    var taxi: Taxi?
    var chasePosition: Vec3
    var chaseTarget: Vec3
    var minimapPosition: Vec3
    var minimapTarget: Vec3
    var minimapUp: Vec3
    const scene: Group
    const roadNetwork: Group
    const renderer: Renderer

    ghost predicate Valid()
      reads this
    {
      scene != roadNetwork
    }

    function CurrentRig(): Rig
      reads this, taxi
      requires taxi != null
    {
      Rig(taxi.State(), chasePosition, chaseTarget, minimapPosition, minimapTarget)
    }

    /** Start-up: the road network is built, no model has loaded yet, the
        chase camera is at the origin looking down -z, and the minimap camera
        is 100 above the origin looking down. */
    constructor Start(width: nat, height: nat)
      ensures Valid() && taxi == null
      ensures fresh(scene) && fresh(roadNetwork) && fresh(renderer)
      ensures roadNetwork.children == Layout.RoadNetwork() && scene.children == []
      ensures chasePosition == Origin && chaseTarget == Vec3(0.0, 0.0, -1.0)
      ensures minimapPosition == Vec3(0.0, MinimapHeight, 0.0) && minimapTarget == Origin && minimapUp == MinimapUp
      ensures renderer.log == [] && !renderer.scissorTest
      ensures renderer.viewport == FullWindow(width, height) && renderer.scissor == FullWindow(width, height)
    {
      var network := new Group();
      Layout.BuildRoadNetwork(network);
      roadNetwork := network;
      scene := new Group();
      renderer := new Renderer(width, height);
      taxi := null;
      chasePosition := Origin;
      chaseTarget := Vec3(0.0, 0.0, -1.0);
      minimapPosition := Vec3(0.0, MinimapHeight, 0.0);
      minimapTarget := Origin;
      minimapUp := MinimapUp;
    }

    /** The taxi loader's success callback. */
    method TaxiLoaded()
      requires Valid()
      modifies this, scene
      ensures Valid() && taxi != null && fresh(taxi)
      ensures taxi.State() == Pose(0.0, 0.0, 230.0, 0.0) && taxi.scale == 0.5
      ensures scene.children == old(scene.children) + [Placement(ModelClone(TaxiModel), Vec3(0.0, 0.0, 230.0), NoRotation, 0.5)]
      ensures roadNetwork.children == old(roadNetwork.children)
      ensures chasePosition == old(chasePosition) && chaseTarget == old(chaseTarget)
      ensures minimapPosition == old(minimapPosition) && minimapTarget == old(minimapTarget) && minimapUp == old(minimapUp)
    {
      var t := new Taxi.Load();
      taxi := t;
      scene.Add(Placement(ModelClone(TaxiModel), Vec3(t.x, t.y, t.z), NoRotation, t.scale));
    }

    /** The house loader's success callback. */
    method HouseLoaded()
      requires Valid()
      modifies scene
      ensures scene.children == old(scene.children) + Buildings.Clones(Buildings.HouseRule)
      ensures roadNetwork.children == old(roadNetwork.children)
    {
      Buildings.PlaceClones(scene, Buildings.HouseRule);
    }

    /** The apartment loader's success callback. */
    method ApartmentLoaded()
      requires Valid()
      modifies scene
      ensures scene.children == old(scene.children) + Buildings.Clones(Buildings.ApartmentRule)
      ensures roadNetwork.children == old(roadNetwork.children)
    {
      Buildings.PlaceClones(scene, Buildings.ApartmentRule);
    }

    /** One call of `animate`. Before the taxi has loaded, only the render
        passes happen; afterwards the taxi and both cameras advance by Frame. */
    method Animate(keys: Keys, sin: real -> real, cos: real -> real, width: nat, height: nat)
      requires Valid()
      modifies this, taxi, renderer
      ensures Valid() && taxi == old(taxi)
      ensures old(taxi) == null ==>
        chasePosition == old(chasePosition) && chaseTarget == old(chaseTarget) &&
        minimapPosition == old(minimapPosition) && minimapTarget == old(minimapTarget) && minimapUp == old(minimapUp)
      ensures old(taxi) != null ==>
        CurrentRig() == Frame(old(CurrentRig()), keys, sin, cos) && minimapUp == MinimapUp
      ensures renderer.log == old(renderer.log) + FrameCommands(width, height, old(renderer.scissor))
      ensures !renderer.scissorTest
      ensures renderer.viewport == MinimapRect(width, height) && renderer.scissor == MinimapRect(width, height)
    {
      if taxi != null {
        taxi.Drive(keys, sin, cos);

        minimapPosition := Vec3(taxi.x, MinimapHeight, taxi.z);
        minimapTarget := Vec3(taxi.x, 0.0, taxi.z);
        minimapUp := MinimapUp;

        var offset := RotateY(ChaseOffset, taxi.yaw, sin, cos);
        var desired := Vec3(taxi.x, taxi.y, taxi.z).Plus(offset);
        chasePosition := Lerp(chasePosition, desired, ChaseBlend);
        chaseTarget := Vec3(taxi.x, taxi.y, taxi.z);
      }
      RenderFrame(renderer, width, height);
    }
  }
}
