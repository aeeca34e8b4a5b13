/** The textured-box scene of box_scene.cpp: a blend weight between two
    textures nudged by page up / page down, and a row of boxes of which
    every third one spins with time. */
module BoxScene {
  import opened Vectors
  import opened Glfw
  import opened Scenes
  import CameraModel

  function Min(a: real, b: real): real { if a <= b then a else b }
  function Max(a: real, b: real): real { if a >= b then a else b }

  /** The blend weight after handleKey: page up raises it by deltaTime up to
      1, page down lowers it by deltaTime down to 0, other keys keep it. */
  function MixAfterKey(textureMix: real, key: int, deltaTime: real): (r: real)
    ensures key == KEY_PAGE_UP ==> r == Min(textureMix + deltaTime, 1.0)
    ensures key == KEY_PAGE_DOWN ==> r == Max(textureMix - deltaTime, 0.0)
    ensures key != KEY_PAGE_UP && key != KEY_PAGE_DOWN ==> r == textureMix
    ensures 0.0 <= textureMix <= 1.0 && deltaTime >= 0.0 ==> 0.0 <= r <= 1.0
  {
    var raised := if key == KEY_PAGE_UP then textureMix + deltaTime else textureMix;
    var m := if key == KEY_PAGE_UP && raised > 1.0 then 1.0 else raised;
    var lowered := if key == KEY_PAGE_DOWN then m - deltaTime else m;
    if key == KEY_PAGE_DOWN && lowered < 0.0 then 0.0 else lowered
  }

  /** Away from the clamps, page down undoes page up for the same frame time. */
  lemma PageDownUndoesPageUp(textureMix: real, deltaTime: real)
    requires 0.0 <= textureMix && 0.0 <= deltaTime && textureMix + deltaTime <= 1.0
    ensures MixAfterKey(MixAfterKey(textureMix, KEY_PAGE_UP, deltaTime), KEY_PAGE_DOWN, deltaTime) == textureMix
  {
  }

  /** Holding a page key over frames with non-negative frame times keeps the
      weight in [0, 1]. */
  lemma {:induction false} HeldKeysKeepMixInRange(textureMix: real, key: int, deltaTimes: seq<real>)
    requires 0.0 <= textureMix <= 1.0
    requires forall i :: 0 <= i < |deltaTimes| ==> deltaTimes[i] >= 0.0
    ensures 0.0 <= HeldMix(textureMix, key, deltaTimes) <= 1.0
    decreases |deltaTimes|
  {
    if deltaTimes != [] {
      HeldKeysKeepMixInRange(MixAfterKey(textureMix, key, deltaTimes[0]), key, deltaTimes[1..]);
    }
  }

  /** The weight after handleKey(key, deltaTimes[i]) on each frame in turn. */
  function HeldMix(textureMix: real, key: int, deltaTimes: seq<real>): real
    decreases |deltaTimes|
  {
    if deltaTimes == [] then textureMix
    else HeldMix(MixAfterKey(textureMix, key, deltaTimes[0]), key, deltaTimes[1..])
  }

  /** The rotation angle of box i at time t, in degrees: 20 degrees per
      index, plus 50 degrees per second for every third box. */
  function BoxAngle(i: nat, time: real): (angle: real)
    ensures i % 3 != 0 ==> angle == 20.0 * i as real
    ensures i % 3 == 0 ==> angle - 50.0 * time == 20.0 * i as real
  {
    var angle := 20.0 * i as real;
    if i % 3 == 0 then angle + time * 50.0 else angle
  }

  /** A box's angle moves with time exactly when its index is a multiple of 3. */
  lemma BoxSpinsIffThird(i: nat, t1: real, t2: real)
    requires t1 != t2
    ensures BoxAngle(i, t1) != BoxAngle(i, t2) <==> i % 3 == 0
  {
  }

  /** One box of a frame: where it is translated to and its angle. */
  datatype BoxDraw = BoxDraw(position: Vec3, angle: real)

  /** Everything render hands to the shader that the model tracks. */
  datatype BoxFrame = BoxFrame(mixWeight: real, projection: Projection, boxes: seq<BoxDraw>)

  class BoxScene {
    const camera: CameraModel.Camera
    /** The box positions, declared in box_scene.h. */
    const boxPositions: seq<Vec3>
    var textureMix: real

    /** box_scene.h, which holds the initial weight, is not part of this
        model: the initial value is a parameter. */
    constructor (camera: CameraModel.Camera, boxPositions: seq<Vec3>, textureMix: real)
      ensures this.camera == camera && this.boxPositions == boxPositions
      ensures this.textureMix == textureMix
    {
      this.camera := camera;
      this.boxPositions := boxPositions;
      this.textureMix := textureMix;
    }

    method HandleKey(key: int, deltaTime: real)
      modifies this`textureMix
      ensures textureMix == MixAfterKey(old(textureMix), key, deltaTime)
    {
      // Page up
      if key == KEY_PAGE_UP {
        textureMix := textureMix + deltaTime;
        if textureMix > 1.0 {
          textureMix := 1.0;
        }
      }

      // Page down
      if key == KEY_PAGE_DOWN {
        textureMix := textureMix - deltaTime;
        if textureMix < 0.0 {
          textureMix := 0.0;
        }
      }
    }

    /** One frame into a framebuffer of the given size. The clock is read
        inside the loop, once per spinning box: `clock[i]` is the reading
        taken while box i is drawn, and boxes that do not spin never read it.
        Changes no state: neither the weight nor the camera. */
    method Render(clock: seq<real>, viewportWidth: int, viewportHeight: int) returns (frame: BoxFrame)
      requires |clock| == |boxPositions|
      ensures frame.mixWeight == textureMix
      ensures frame.projection == ProjectionFor(camera.zoom, viewportWidth, viewportHeight)
      ensures |frame.boxes| == |boxPositions|
      ensures forall i :: 0 <= i < |boxPositions| ==>
        frame.boxes[i] == BoxDraw(boxPositions[i], BoxAngle(i, clock[i]))
    {
      var mixWeight := textureMix;
      var projection := Projection(camera.zoom, viewportWidth, viewportHeight, NEAR_PLANE, FAR_PLANE);
      var boxes: seq<BoxDraw> := [];
      for i := 0 to |boxPositions|
        invariant |boxes| == i
        invariant forall j :: 0 <= j < i ==> boxes[j] == BoxDraw(boxPositions[j], BoxAngle(j, clock[j]))
      {
        var angle := 20.0 * i as real;
        if i % 3 == 0 {
          // Every third box spins, at the time read for it
          angle := angle + clock[i] * 50.0;
        }
        boxes := boxes + [BoxDraw(boxPositions[i], angle)];
      }
      frame := BoxFrame(mixWeight, projection, boxes);
    }
  }
}
