/** The driver of main.cpp: the global input state the render loop and the
    GLFW callbacks update step by step. Key states are inputs sampled once
    per frame (pressed or released); the window, the clock and the scenes'
    rendering are not modelled. */
module Driver {
  import opened Glfw
  import opened CameraModel
  import opened Remainders

  /** 2^64: the range of size_t, into which `currentScene + 1` is converted
      before the modulo by scenes.size(). */
  const SIZE_T_MODULUS: int := 0x1_0000_0000_0000_0000

  /** A value of size_t, such as scenes.size(). */
  type SizeT = n: int | 0 <= n < SIZE_T_MODULUS

  // Initial pointer position (centre of the 800x600 window).
  const INITIAL_MOUSE_X: real := 400.0
  const INITIAL_MOUSE_Y: real := 300.0

  /** The keys processInput polls: true when GLFW reports them pressed.
      The fields stand for KEY_ESCAPE, KEY_LEFT, KEY_RIGHT, KEY_W, KEY_A,
      KEY_S, KEY_D, KEY_M, KEY_PAGE_UP and KEY_PAGE_DOWN. */
  datatype KeyStates = KeyStates(escape: bool, left: bool, right: bool,
                                 w: bool, a: bool, s: bool, d: bool,
                                 m: bool, pageUp: bool, pageDown: bool)

  /** The globals processInput reads and writes. */
  datatype InputLatch = InputLatch(currentScene: int, drawWireframe: bool,
                                   prevSceneKeyAlreadyPressed: bool,
                                   nextSceneKeyAlreadyPressed: bool,
                                   wireframeKeyAlreadyPressed: bool)

  /** A key forwarded to scenes[scene]->handleKey(key, deltaTime). */
  datatype SceneKey = SceneKey(scene: int, key: int, deltaTime: real)

  /** Everything one call of processInput does: the new globals, whether the
      window was asked to close, the movement directions passed to the
      camera's processKeyboard, in call order, and the keys handed to the
      active scene, in call order. */
  datatype FrameInput = FrameInput(next: InputLatch, closeWindow: bool,
                                   cameraMoves: seq<CameraMovement>,
                                   sceneKeys: seq<SceneKey>)

  /** The globals the cursor callback reads and writes. */
  datatype MouseLatch = MouseLatch(firstMouse: bool, lastMouseX: real, lastMouseY: real)

  /** One cursor event: the new globals and the offsets handed to the camera. */
  datatype MouseStep = MouseStep(next: MouseLatch, xOffset: real, yOffset: real)

  /** Stepping back below zero to the last scene is subtraction modulo the count. */
  lemma PrevWrapIsModular(cs: int, n: int)
    requires 0 < n
    ensures 0 <= cs < n ==> (cs + n - 1) % n == if cs - 1 < 0 then n - 1 else cs - 1
  {
    if cs == 0 {
      SmallRemainder(n - 1, n);
    } else if 0 < cs < n {
      OneWrapRemainder(cs + n - 1, n);
    }
  }

  /** The size_t remainder of the next index wraps the last scene to 0. */
  lemma NextWrapIsModular(cs: int, n: SizeT)
    requires 0 < n
    ensures 0 <= cs < n ==> ((cs + 1) % SIZE_T_MODULUS) % n == if cs == n - 1 then 0 else cs + 1
  {
    if 0 <= cs < n {
      SmallRemainder(cs + 1, SIZE_T_MODULUS);
      if cs == n - 1 {
        OneWrapRemainder(n, n);
      } else {
        SmallRemainder(cs + 1, n);
      }
    }
  }

  /** Left arrow: on a press edge the scene index steps back, wrapping below
      zero to the last scene; a release re-arms the edge. */
  function PrevSceneKey(l: InputLatch, pressed: bool, sceneCount: SizeT): (r: InputLatch)
    requires 0 < sceneCount
    ensures r.drawWireframe == l.drawWireframe
    ensures r.nextSceneKeyAlreadyPressed == l.nextSceneKeyAlreadyPressed
    ensures r.wireframeKeyAlreadyPressed == l.wireframeKeyAlreadyPressed
    ensures r.prevSceneKeyAlreadyPressed == pressed
    ensures r.currentScene != l.currentScene ==> pressed && !l.prevSceneKeyAlreadyPressed
    ensures pressed && !l.prevSceneKeyAlreadyPressed && 0 <= l.currentScene < sceneCount ==>
      r.currentScene == (l.currentScene + sceneCount - 1) % sceneCount
  {
    if pressed then
      if !l.prevSceneKeyAlreadyPressed then
        var s := l.currentScene - 1;
        PrevWrapIsModular(l.currentScene, sceneCount);
        l.(currentScene := if s < 0 then sceneCount - 1 else s,
           prevSceneKeyAlreadyPressed := true)
      else
        l
    else
      l.(prevSceneKeyAlreadyPressed := false)
  }

  /** Right arrow: on a press edge the scene index steps forward modulo the
      scene count (after conversion to size_t); a release re-arms the edge. */
  function NextSceneKey(l: InputLatch, pressed: bool, sceneCount: SizeT): (r: InputLatch)
    requires 0 < sceneCount
    ensures r.drawWireframe == l.drawWireframe
    ensures r.prevSceneKeyAlreadyPressed == l.prevSceneKeyAlreadyPressed
    ensures r.wireframeKeyAlreadyPressed == l.wireframeKeyAlreadyPressed
    ensures r.nextSceneKeyAlreadyPressed == pressed
    ensures r.currentScene != l.currentScene ==> pressed && !l.nextSceneKeyAlreadyPressed
    ensures pressed && !l.nextSceneKeyAlreadyPressed ==> 0 <= r.currentScene < sceneCount
    ensures pressed && !l.nextSceneKeyAlreadyPressed && 0 <= l.currentScene < sceneCount ==>
      r.currentScene == if l.currentScene == sceneCount - 1 then 0 else l.currentScene + 1
  {
    if pressed then
      if !l.nextSceneKeyAlreadyPressed then
        NextWrapIsModular(l.currentScene, sceneCount);
        l.(currentScene := ((l.currentScene + 1) % SIZE_T_MODULUS) % sceneCount,
           nextSceneKeyAlreadyPressed := true)
      else
        l
    else
      l.(nextSceneKeyAlreadyPressed := false)
  }

  /** M: on a press edge the wireframe mode flips; a release re-arms the edge. */
  function WireframeKey(l: InputLatch, pressed: bool): (r: InputLatch)
    ensures r.currentScene == l.currentScene
    ensures r.prevSceneKeyAlreadyPressed == l.prevSceneKeyAlreadyPressed
    ensures r.nextSceneKeyAlreadyPressed == l.nextSceneKeyAlreadyPressed
    ensures r.wireframeKeyAlreadyPressed == pressed
    ensures r.drawWireframe == (l.drawWireframe != (pressed && !l.wireframeKeyAlreadyPressed))
  {
    if pressed then
      if !l.wireframeKeyAlreadyPressed then
        l.(drawWireframe := !l.drawWireframe, wireframeKeyAlreadyPressed := true)
      else
        l
    else
      l.(wireframeKeyAlreadyPressed := false)
  }

  /** 1 for a key held down, 0 otherwise. */
  function Count(held: bool): nat {
    if held then 1 else 0
  }

  /** The position of each direction's key block in processInput: W, A, S, D. */
  function MoveRank(m: CameraMovement): nat {
    match m
    case Forward => 0
    case Left => 1
    case Backward => 2
    case Right => 3
  }

  /** The movement directions processInput hands to the camera: W, A, S, D
      in that order, one for each key held down. */
  function CameraMoves(keys: KeyStates): (r: seq<CameraMovement>)
    ensures Forward in r <==> keys.w
    ensures Left in r <==> keys.a
    ensures Backward in r <==> keys.s
    ensures Right in r <==> keys.d
    ensures |r| == Count(keys.w) + Count(keys.a) + Count(keys.s) + Count(keys.d)
    ensures forall i, j :: 0 <= i < j < |r| ==> MoveRank(r[i]) < MoveRank(r[j])
  {
    (if keys.w then [Forward] else [])
    + (if keys.a then [Left] else [])
    + (if keys.s then [Backward] else [])
    + (if keys.d then [Right] else [])
  }

  /** The keys forwarded to the active scene: page up and page down on every
      frame they are held, with no edge detection. */
  function ForwardedKeys(keys: KeyStates, scene: int, deltaTime: real): (r: seq<SceneKey>)
    ensures forall k :: 0 <= k < |r| ==> r[k].scene == scene && r[k].deltaTime == deltaTime
    ensures forall k :: 0 <= k < |r| ==> r[k].key == KEY_PAGE_UP || r[k].key == KEY_PAGE_DOWN
    ensures SceneKey(scene, KEY_PAGE_UP, deltaTime) in r <==> keys.pageUp
    ensures SceneKey(scene, KEY_PAGE_DOWN, deltaTime) in r <==> keys.pageDown
    ensures |r| == Count(keys.pageUp) + Count(keys.pageDown)
    ensures |r| == 2 ==> r[0].key == KEY_PAGE_UP && r[1].key == KEY_PAGE_DOWN
  {
    (if keys.pageUp then [SceneKey(scene, KEY_PAGE_UP, deltaTime)] else [])
    + (if keys.pageDown then [SceneKey(scene, KEY_PAGE_DOWN, deltaTime)] else [])
  }

  /** One call of processInput. */
  function InputStep(l: InputLatch, keys: KeyStates, sceneCount: SizeT, deltaTime: real): (f: FrameInput)
    requires 0 < sceneCount
    ensures 0 <= l.currentScene < sceneCount ==> 0 <= f.next.currentScene < sceneCount
    ensures f.closeWindow == keys.escape
    ensures f.cameraMoves == CameraMoves(keys)
    ensures f.sceneKeys == ForwardedKeys(keys, f.next.currentScene, deltaTime)
  {
    var next := WireframeKey(NextSceneKey(PrevSceneKey(l, keys.left, sceneCount), keys.right, sceneCount), keys.m);
    FrameInput(next, keys.escape, CameraMoves(keys), ForwardedKeys(keys, next.currentScene, deltaTime))
  }

  /** The globals after processInput has run on each frame's key states in turn. */
  function Frames(l: InputLatch, frames: seq<KeyStates>, sceneCount: SizeT, deltaTime: real): InputLatch
    requires 0 < sceneCount
    decreases |frames|
  {
    if frames == [] then l
    else Frames(InputStep(l, frames[0], sceneCount, deltaTime).next, frames[1..], sceneCount, deltaTime)
  }

  /** While the left arrow stays down (and the right arrow up) after its
      edge was taken, the scene index no longer moves. */
  lemma {:induction false} HeldPrevKeyIsInert(l: InputLatch, frames: seq<KeyStates>, sceneCount: SizeT, deltaTime: real)
    requires 0 < sceneCount
    requires l.prevSceneKeyAlreadyPressed
    requires forall i :: 0 <= i < |frames| ==> frames[i].left && !frames[i].right
    ensures Frames(l, frames, sceneCount, deltaTime).currentScene == l.currentScene
    ensures Frames(l, frames, sceneCount, deltaTime).prevSceneKeyAlreadyPressed
    decreases |frames|
  {
    if frames != [] {
      HeldPrevKeyIsInert(InputStep(l, frames[0], sceneCount, deltaTime).next, frames[1..], sceneCount, deltaTime);
    }
  }

  /** The frame that takes the left arrow's edge steps the index back
      modulo the scene count and arms the edge. */
  lemma PrevEdgeFrame(l: InputLatch, keys: KeyStates, sceneCount: SizeT, deltaTime: real)
    requires 0 < sceneCount && 0 <= l.currentScene < sceneCount
    requires !l.prevSceneKeyAlreadyPressed && keys.left && !keys.right
    ensures InputStep(l, keys, sceneCount, deltaTime).next.currentScene
         == (l.currentScene + sceneCount - 1) % sceneCount
    ensures InputStep(l, keys, sceneCount, deltaTime).next.prevSceneKeyAlreadyPressed
  {
    var p := PrevSceneKey(l, true, sceneCount);
    assert InputStep(l, keys, sceneCount, deltaTime).next
        == WireframeKey(NextSceneKey(p, false, sceneCount), keys.m);
  }

  /** Holding the left arrow over any number of frames from an armed state
      steps back exactly one scene. */
  lemma HeldPrevKeyStepsOnce(l: InputLatch, frames: seq<KeyStates>, sceneCount: SizeT, deltaTime: real)
    requires 0 < sceneCount && 0 <= l.currentScene < sceneCount
    requires !l.prevSceneKeyAlreadyPressed
    requires frames != []
    requires forall i :: 0 <= i < |frames| ==> frames[i].left && !frames[i].right
    ensures Frames(l, frames, sceneCount, deltaTime).currentScene
         == (l.currentScene + sceneCount - 1) % sceneCount
  {
    var l' := InputStep(l, frames[0], sceneCount, deltaTime).next;
    PrevEdgeFrame(l, frames[0], sceneCount, deltaTime);
    HeldPrevKeyIsInert(l', frames[1..], sceneCount, deltaTime);
  }

  /** While the right arrow stays down (and the left arrow up) after its
      edge was taken, the scene index no longer moves. */
  lemma {:induction false} HeldNextKeyIsInert(l: InputLatch, frames: seq<KeyStates>, sceneCount: SizeT, deltaTime: real)
    requires 0 < sceneCount
    requires l.nextSceneKeyAlreadyPressed
    requires forall i :: 0 <= i < |frames| ==> frames[i].right && !frames[i].left
    ensures Frames(l, frames, sceneCount, deltaTime).currentScene == l.currentScene
    ensures Frames(l, frames, sceneCount, deltaTime).nextSceneKeyAlreadyPressed
    decreases |frames|
  {
    if frames != [] {
      HeldNextKeyIsInert(InputStep(l, frames[0], sceneCount, deltaTime).next, frames[1..], sceneCount, deltaTime);
    }
  }

  /** The frame that takes the right arrow's edge steps the index forward
      modulo the scene count and arms the edge. */
  lemma NextEdgeFrame(l: InputLatch, keys: KeyStates, sceneCount: SizeT, deltaTime: real)
    requires 0 < sceneCount && 0 <= l.currentScene < sceneCount
    requires !l.nextSceneKeyAlreadyPressed && keys.right && !keys.left
    ensures InputStep(l, keys, sceneCount, deltaTime).next.currentScene == (l.currentScene + 1) % sceneCount
    ensures InputStep(l, keys, sceneCount, deltaTime).next.nextSceneKeyAlreadyPressed
  {
    var p := PrevSceneKey(l, false, sceneCount);
    var q := NextSceneKey(p, true, sceneCount);
    assert q.currentScene == if l.currentScene == sceneCount - 1 then 0 else l.currentScene + 1;
    if l.currentScene == sceneCount - 1 {
      OneWrapRemainder(sceneCount, sceneCount);
    } else {
      SmallRemainder(l.currentScene + 1, sceneCount);
    }
  }

  /** Holding the right arrow over any number of frames from an armed state
      steps forward exactly one scene. */
  lemma HeldNextKeyStepsOnce(l: InputLatch, frames: seq<KeyStates>, sceneCount: SizeT, deltaTime: real)
    requires 0 < sceneCount && 0 <= l.currentScene < sceneCount
    requires !l.nextSceneKeyAlreadyPressed
    requires frames != []
    requires forall i :: 0 <= i < |frames| ==> frames[i].right && !frames[i].left
    ensures Frames(l, frames, sceneCount, deltaTime).currentScene
         == (l.currentScene + 1) % sceneCount
  {
    var l' := InputStep(l, frames[0], sceneCount, deltaTime).next;
    NextEdgeFrame(l, frames[0], sceneCount, deltaTime);
    HeldNextKeyIsInert(l', frames[1..], sceneCount, deltaTime);
  }

  /** While M stays down after its edge was taken, the mode no longer flips. */
  lemma {:induction false} HeldWireframeKeyIsInert(l: InputLatch, frames: seq<KeyStates>, sceneCount: SizeT, deltaTime: real)
    requires 0 < sceneCount
    requires l.wireframeKeyAlreadyPressed
    requires forall i :: 0 <= i < |frames| ==> frames[i].m
    ensures Frames(l, frames, sceneCount, deltaTime).drawWireframe == l.drawWireframe
    ensures Frames(l, frames, sceneCount, deltaTime).wireframeKeyAlreadyPressed
    decreases |frames|
  {
    if frames != [] {
      HeldWireframeKeyIsInert(InputStep(l, frames[0], sceneCount, deltaTime).next, frames[1..], sceneCount, deltaTime);
    }
  }

  /** Holding M over any number of frames from an armed state flips the
      wireframe mode exactly once. */
  lemma HeldWireframeKeyTogglesOnce(l: InputLatch, frames: seq<KeyStates>, sceneCount: SizeT, deltaTime: real)
    requires 0 < sceneCount
    requires !l.wireframeKeyAlreadyPressed
    requires frames != []
    requires forall i :: 0 <= i < |frames| ==> frames[i].m
    ensures Frames(l, frames, sceneCount, deltaTime).drawWireframe == !l.drawWireframe
  {
    var l' := InputStep(l, frames[0], sceneCount, deltaTime).next;
    HeldWireframeKeyIsInert(l', frames[1..], sceneCount, deltaTime);
  }

  /** A press, a release, a press and a release of M restore the mode and
      leave the edge armed. */
  lemma TwoWireframePressesRestore(l: InputLatch, press: KeyStates, release: KeyStates,
                                   sceneCount: SizeT, deltaTime: real)
    requires 0 < sceneCount
    requires !l.wireframeKeyAlreadyPressed
    requires press.m && !release.m
    ensures var r := Frames(l, [press, release, press, release], sceneCount, deltaTime);
      r.drawWireframe == l.drawWireframe && !r.wireframeKeyAlreadyPressed
  {
    var frames := [press, release, press, release];
    var l1 := InputStep(l, press, sceneCount, deltaTime).next;
    var l2 := InputStep(l1, release, sceneCount, deltaTime).next;
    var l3 := InputStep(l2, press, sceneCount, deltaTime).next;
    var l4 := InputStep(l3, release, sceneCount, deltaTime).next;
    assert frames[1..] == [release, press, release];
    assert frames[1..][1..] == [press, release];
    assert frames[1..][1..][1..] == [release];
    assert Frames(l3, [release], sceneCount, deltaTime) == l4;
    assert Frames(l2, [press, release], sceneCount, deltaTime) == l4;
    assert Frames(l1, [release, press, release], sceneCount, deltaTime) == l4;
    assert Frames(l, frames, sceneCount, deltaTime) == l4;
  }

  /** One cursor event: the first one only records the position and yields
      zero offsets (so the view does not jump); later ones yield the motion
      since the last event, with y reversed (screen y grows downwards). */
  function MouseMove(m: MouseLatch, xPos: real, yPos: real): (r: MouseStep)
    ensures r.next == MouseLatch(false, xPos, yPos)
    ensures m.firstMouse ==> r.xOffset == 0.0 && r.yOffset == 0.0
    ensures !m.firstMouse ==> r.xOffset == xPos - m.lastMouseX && r.yOffset == m.lastMouseY - yPos
  {
    var m' := if m.firstMouse then MouseLatch(false, xPos, yPos) else m;
    MouseStep(MouseLatch(false, xPos, yPos), xPos - m'.lastMouseX, m'.lastMouseY - yPos)
  }

  /** The horizontal offsets of a run of cursor events, in order. */
  function XOffsets(m: MouseLatch, xs: seq<real>, ys: seq<real>): (r: seq<real>)
    requires |xs| == |ys|
    ensures |r| == |xs|
    decreases |xs|
  {
    if xs == [] then []
    else
      var step := MouseMove(m, xs[0], ys[0]);
      [step.xOffset] + XOffsets(step.next, xs[1..], ys[1..])
  }

  function Sum(s: seq<real>): real
    decreases |s|
  {
    if s == [] then 0.0 else s[0] + Sum(s[1..])
  }

  /** The offsets of consecutive events telescope: after the latch has a
      position, the horizontal offsets of a run of events add up to the
      pointer's total travel. */
  lemma {:induction false} XOffsetsTelescope(m: MouseLatch, xs: seq<real>, ys: seq<real>)
    requires |xs| == |ys| && xs != []
    requires !m.firstMouse
    ensures Sum(XOffsets(m, xs, ys)) == xs[|xs| - 1] - m.lastMouseX
    decreases |xs|
  {
    var step := MouseMove(m, xs[0], ys[0]);
    if |xs| > 1 {
      XOffsetsTelescope(step.next, xs[1..], ys[1..]);
    }
  }

  /** The scroll callback hands a tenth of the wheel offset to the camera. */
  function ScrollToZoomOffset(yOffset: real): (r: real)
    ensures r * 10.0 == yOffset
  {
    yOffset / 10.0
  }

  class Driver {
    /** The single shared camera. */
    const camera: Camera
    /** scenes.size(): the scene list is fixed once the render loop runs. */
    const sceneCount: SizeT

    var currentScene: int
    var drawWireframe: bool
    var firstMouse: bool
    var lastMouseX: real
    var lastMouseY: real
    var deltaTime: real
    var lastFrameTime: real
    var nextSceneKeyAlreadyPressed: bool
    var prevSceneKeyAlreadyPressed: bool
    var wireframeKeyAlreadyPressed: bool

    /** A non-empty scene list with the active index inside it. */
    ghost predicate Valid()
      reads this
    {
      0 < sceneCount && 0 <= currentScene < sceneCount
    }

    function Latch(): InputLatch
      reads this
    {
      InputLatch(currentScene, drawWireframe, prevSceneKeyAlreadyPressed,
                 nextSceneKeyAlreadyPressed, wireframeKeyAlreadyPressed)
    }

    function Mouse(): MouseLatch
      reads this
    {
      MouseLatch(firstMouse, lastMouseX, lastMouseY)
    }

    /** The globals' initial values, with the scene list already filled. */
    constructor (camera: Camera, sceneCount: SizeT)
      requires 0 < sceneCount
      ensures Valid()
      ensures this.camera == camera && this.sceneCount == sceneCount
      ensures Latch() == InputLatch(0, false, false, false, false)
      ensures Mouse() == MouseLatch(true, INITIAL_MOUSE_X, INITIAL_MOUSE_Y)
      ensures deltaTime == 0.0 && lastFrameTime == 0.0
    {
      this.camera := camera;
      this.sceneCount := sceneCount;
      currentScene := 0;
      drawWireframe := false;
      firstMouse := true;
      lastMouseX := INITIAL_MOUSE_X;
      lastMouseY := INITIAL_MOUSE_Y;
      deltaTime := 0.0;
      lastFrameTime := 0.0;
      nextSceneKeyAlreadyPressed := false;
      prevSceneKeyAlreadyPressed := false;
      wireframeKeyAlreadyPressed := false;
    }

    /** Start of a frame: the time since the previous frame. */
    method BeginFrame(currentFrameTime: real)
      modifies this`deltaTime, this`lastFrameTime
      ensures deltaTime == currentFrameTime - old(lastFrameTime)
      ensures lastFrameTime == currentFrameTime
    {
      deltaTime := currentFrameTime - lastFrameTime;
      lastFrameTime := currentFrameTime;
    }

    /** Keyboard handling for one frame. */
    method ProcessInput(keys: KeyStates)
      returns (closeWindow: bool, cameraMoves: seq<CameraMovement>, sceneKeys: seq<SceneKey>)
      requires Valid()
      modifies this`currentScene, this`drawWireframe, this`prevSceneKeyAlreadyPressed,
               this`nextSceneKeyAlreadyPressed, this`wireframeKeyAlreadyPressed
      ensures Valid()
      ensures InputStep(old(Latch()), keys, sceneCount, deltaTime)
           == FrameInput(Latch(), closeWindow, cameraMoves, sceneKeys)
    {
      // ESC
      closeWindow := false;
      if keys.escape {
        closeWindow := true;
      }

      PrevSceneArrow(keys.left);
      NextSceneArrow(keys.right);
      cameraMoves := MovementKeys(keys);
      WireframeToggleKey(keys.m);
      sceneKeys := PageKeys(keys);
    }

    /** The W, A, S, D blocks of processInput: one camera call per held key. */
    method MovementKeys(keys: KeyStates) returns (moves: seq<CameraMovement>)
      ensures moves == CameraMoves(keys)
    {
      moves := [];
      if keys.w {
        moves := moves + [Forward];
      }
      if keys.a {
        moves := moves + [Left];
      }
      if keys.s {
        moves := moves + [Backward];
      }
      if keys.d {
        moves := moves + [Right];
      }
    }

    /** The page up / page down blocks of processInput: forwarded to the
        active scene on every frame they are held. */
    method PageKeys(keys: KeyStates) returns (forwarded: seq<SceneKey>)
      ensures forwarded == ForwardedKeys(keys, currentScene, deltaTime)
    {
      forwarded := [];
      if keys.pageUp {
        forwarded := forwarded + [SceneKey(currentScene, KEY_PAGE_UP, deltaTime)];
      }
      if keys.pageDown {
        forwarded := forwarded + [SceneKey(currentScene, KEY_PAGE_DOWN, deltaTime)];
      }
    }

    /** The left-arrow block of processInput. */
    method PrevSceneArrow(pressed: bool)
      requires 0 < sceneCount
      modifies this`currentScene, this`prevSceneKeyAlreadyPressed
      ensures Latch() == PrevSceneKey(old(Latch()), pressed, sceneCount)
    {
      if pressed {
        if !prevSceneKeyAlreadyPressed {
          currentScene := currentScene - 1;
          if currentScene < 0 {
            currentScene := sceneCount - 1;
          }
          prevSceneKeyAlreadyPressed := true;
        }
      } else {
        prevSceneKeyAlreadyPressed := false;
      }
    }

    /** The right-arrow block of processInput. */
    method NextSceneArrow(pressed: bool)
      requires 0 < sceneCount
      modifies this`currentScene, this`nextSceneKeyAlreadyPressed
      ensures Latch() == NextSceneKey(old(Latch()), pressed, sceneCount)
    {
      if pressed {
        if !nextSceneKeyAlreadyPressed {
          currentScene := ((currentScene + 1) % SIZE_T_MODULUS) % sceneCount;
          nextSceneKeyAlreadyPressed := true;
        }
      } else {
        nextSceneKeyAlreadyPressed := false;
      }
    }

    /** The M block of processInput. */
    method WireframeToggleKey(pressed: bool)
      modifies this`drawWireframe, this`wireframeKeyAlreadyPressed
      ensures Latch() == WireframeKey(old(Latch()), pressed)
    {
      if pressed {
        if !wireframeKeyAlreadyPressed {
          drawWireframe := !drawWireframe;
          wireframeKeyAlreadyPressed := true;
        }
      } else {
        wireframeKeyAlreadyPressed := false;
      }
    }

    /** Cursor callback: offsets from the latch, then the camera turns with
        the pitch clamp on. */
    method MouseCallback(xPos: real, yPos: real)
      modifies this`firstMouse, this`lastMouseX, this`lastMouseY,
               camera`yaw, camera`pitch, camera`front, camera`right, camera`up
      ensures var step := MouseMove(old(Mouse()), xPos, yPos);
        && Mouse() == step.next
        && camera.yaw == old(camera.yaw) + step.xOffset * camera.mouseSensitivity
        && camera.pitch == TurnedPitch(old(camera.pitch), step.yOffset * camera.mouseSensitivity, true)
      ensures camera.BasisCurrent()
    {
      if firstMouse {
        lastMouseX := xPos;
        lastMouseY := yPos;
        firstMouse := false;
      }

      var xOffset := xPos - lastMouseX;
      var yOffset := lastMouseY - yPos;

      lastMouseX := xPos;
      lastMouseY := yPos;

      camera.ProcessMouseMovement(xOffset, yOffset, true);
    }

    /** Scroll callback: a tenth of the wheel offset zooms the camera. */
    method ScrollCallback(xOffset: real, yOffset: real)
      modifies camera`zoom
      ensures camera.zoom == ScrolledZoom(old(camera.zoom), ScrollToZoomOffset(yOffset))
    {
      camera.ProcessMouseScroll(yOffset / 10.0);
    }
  }
}
