/**
 * The per-frame render passes: the main view through the chase camera over
 * the whole window with the scissor test off, then, inside a fixed-size
 * rectangle near the top-right corner with the scissor test on, the border
 * backdrop and the overhead minimap view; finally the scissor test is turned
 * off again. The renderer is an external backend: the model keeps only its
 * viewport and scissor state and a log of the clears and draws issued to it.
 */
module Render {

  /** A pixel rectangle: lower-left corner, width and height (window y grows upward). */
  datatype Rect = Rect(x: int, y: int, width: int, height: int)

  datatype SceneId = MainScene | BorderScene
  datatype CameraId = ChaseCamera | MinimapCamera | BorderCamera

  /** A call into the backend, with the state it ran under. */
  datatype Command =
    | Clear(scissorTest: bool)
    | Draw(scene: SceneId, camera: CameraId, viewport: Rect, scissor: Rect, scissorTest: bool)

  const MinimapSize: int := 200
  const Padding: int := 10

  function FullWindow(width: nat, height: nat): Rect
  {
    Rect(0, 0, width, height)
  }

  /** The minimap rectangle: MinimapSize square, Padding in from the right and top edges. */
  function MinimapRect(width: nat, height: nat): Rect
  {
    Rect(width - MinimapSize - Padding, height - MinimapSize - Padding, MinimapSize, MinimapSize)
  }

  /** The rendering backend's state that the frame sets and reads. */
  class Renderer {
    var viewport: Rect
    var scissor: Rect
    var scissorTest: bool
    var log: seq<Command>

    /** A fresh renderer for a window: full-window viewport and scissor, scissor test off. */
    constructor (width: nat, height: nat)
      ensures viewport == FullWindow(width, height) && scissor == FullWindow(width, height)
      ensures !scissorTest && log == []
    {
      viewport := FullWindow(width, height);
      scissor := FullWindow(width, height);
      scissorTest := false;
      log := [];
    }

    method SetViewport(r: Rect)
      modifies this
      ensures viewport == r
      ensures scissor == old(scissor) && scissorTest == old(scissorTest) && log == old(log)
    {
      viewport := r;
    }

    method SetScissor(r: Rect)
      modifies this
      ensures scissor == r
      ensures viewport == old(viewport) && scissorTest == old(scissorTest) && log == old(log)
    {
      scissor := r;
    }

    method SetScissorTest(on: bool)
      modifies this
      ensures scissorTest == on
      ensures viewport == old(viewport) && scissor == old(scissor) && log == old(log)
    {
      scissorTest := on;
    }

    method ClearBuffers()
      modifies this
      ensures log == old(log) + [Clear(scissorTest)]
      ensures viewport == old(viewport) && scissor == old(scissor) && scissorTest == old(scissorTest)
    {
      log := log + [Clear(scissorTest)];
    }

    method Render(scene: SceneId, camera: CameraId)
      modifies this
      ensures log == old(log) + [Draw(scene, camera, viewport, scissor, scissorTest)]
      ensures viewport == old(viewport) && scissor == old(scissor) && scissorTest == old(scissorTest)
    {
      log := log + [Draw(scene, camera, viewport, scissor, scissorTest)];
    }
  }

  /** The commands one frame issues, given the scissor rectangle left over
      from before (it is set only for the minimap passes). */
  function FrameCommands(width: nat, height: nat, priorScissor: Rect): seq<Command>
  {
    var mini := MinimapRect(width, height);
    [ Clear(false),
      Draw(MainScene, ChaseCamera, FullWindow(width, height), priorScissor, false),
      Draw(BorderScene, BorderCamera, mini, mini, true),
      Draw(MainScene, MinimapCamera, mini, mini, true) ]
  }

  /** The render half of `animate`. */
  method RenderFrame(renderer: Renderer, width: nat, height: nat)
    modifies renderer
    ensures renderer.log == old(renderer.log) + FrameCommands(width, height, old(renderer.scissor))
    ensures !renderer.scissorTest
    ensures renderer.viewport == MinimapRect(width, height) && renderer.scissor == MinimapRect(width, height)
  {
    renderer.SetViewport(Rect(0, 0, width, height));
    renderer.SetScissorTest(false);
    renderer.ClearBuffers();
    renderer.Render(MainScene, ChaseCamera);

    renderer.SetViewport(Rect(width - MinimapSize - Padding, height - MinimapSize - Padding, MinimapSize, MinimapSize));
    renderer.SetScissor(Rect(width - MinimapSize - Padding, height - MinimapSize - Padding, MinimapSize, MinimapSize));
    renderer.SetScissorTest(true);

    renderer.Render(BorderScene, BorderCamera);
    renderer.Render(MainScene, MinimapCamera);

    renderer.SetScissorTest(false);
  }

  /** The scissor discipline of a frame: the window is cleared with the scissor
      test off; the chase view covers the whole window with it off; the border
      and minimap views are confined to the minimap rectangle, with viewport
      and scissor both equal to it and the test on. */
  ghost predicate Scissored(cmds: seq<Command>, width: nat, height: nat)
  {
    forall i :: 0 <= i < |cmds| ==>
      match cmds[i]
      case Clear(on) => !on
      case Draw(_, camera, viewport, scissor, on) =>
        if camera == ChaseCamera then !on && viewport == FullWindow(width, height)
        else on && viewport == MinimapRect(width, height) && scissor == MinimapRect(width, height)
  }

  /** Every frame keeps the scissor discipline, draws the main scene once per
      camera and paints the border backdrop before the minimap view. */
  lemma FrameIsScissored(width: nat, height: nat, priorScissor: Rect)
    ensures Scissored(FrameCommands(width, height, priorScissor), width, height)
    ensures |FrameCommands(width, height, priorScissor)| == 4
    ensures FrameCommands(width, height, priorScissor)[2].Draw? && FrameCommands(width, height, priorScissor)[2].scene == BorderScene
    ensures FrameCommands(width, height, priorScissor)[3].Draw? && FrameCommands(width, height, priorScissor)[3].camera == MinimapCamera
  {
  }

  /** The rectangle is MinimapSize square with its right edge at width - 10 and
      its top edge at height - 10. */
  lemma MinimapRectEdges(width: nat, height: nat)
    ensures MinimapRect(width, height).width == MinimapRect(width, height).height == 200
    ensures MinimapRect(width, height).x + MinimapRect(width, height).width == width - Padding
    ensures MinimapRect(width, height).y + MinimapRect(width, height).height == height - Padding
  {
  }

  /** The rectangle lies inside the window exactly when the window is at
      least 210 pixels in each direction. */
  lemma MinimapRectInWindow(width: nat, height: nat)
    ensures (var r := MinimapRect(width, height);
             0 <= r.x && r.x + r.width <= width && 0 <= r.y && r.y + r.height <= height)
        <==> width >= 210 && height >= 210
  {
  }

  /** The border backdrop: a square plane 1.05 times the minimap size at
      z = -1, seen by an orthographic camera at z = 5 whose view is MinimapSize
      square with near 1 and far 10. */
  const BorderPlaneSize: real := 200.0 * 1.05
  const BorderPlaneZ: real := -1.0
  const BorderCameraZ: real := 5.0
  const BorderCameraHalf: real := 100.0
  const BorderNear: real := 1.0
  const BorderFar: real := 10.0

  /** The backdrop fills the border camera's whole view and lies between its
      near and far planes, so the minimap rectangle is painted opaque. */
  lemma BorderFillsMinimapView()
    ensures BorderPlaneSize / 2.0 >= BorderCameraHalf
    ensures BorderNear <= BorderCameraZ - BorderPlaneZ <= BorderFar
  {
  }
}
