/** The free-look camera of camera.h / camera.cpp: Euler-angle accumulation
    from mouse input, a clamped field-of-view zoom from the scroll wheel and
    keyboard displacement on the ground plane.

    The trigonometry of updateCameraVectors and the square root inside
    glm::normalize are not modelled: a camera carries them as a `Numerics`
    value fixed at construction, and the model only calls them. */
module CameraModel {
  import opened Vectors

  /** The four movement directions; nothing else can be passed. */
  datatype CameraMovement = Forward | Backward | Left | Right

  // Default camera values.
  const YAW: real := -90.0
  const PITCH: real := 0.0
  const SPEED: real := 2.5
  const SENSITIVITY: real := 0.05
  /** The default zoom (called FOV in the header's revision). */
  const ZOOM: real := 45.0

  // Clamp bounds used by the input handlers.
  const MIN_ZOOM: real := 1.0
  const MAX_ZOOM: real := 45.0
  const MAX_PITCH: real := 89.0

  /** The default angles and zoom already lie within the input clamps, and
      the default speed and sensitivity are positive. */
  lemma DefaultsWithinClamps()
    ensures YAW == -90.0 && PITCH == 0.0 && SPEED == 2.5 && SENSITIVITY == 0.05 && ZOOM == 45.0
    ensures -MAX_PITCH <= PITCH <= MAX_PITCH && MIN_ZOOM <= ZOOM <= MAX_ZOOM
    ensures SPEED > 0.0 && SENSITIVITY > 0.0
  {
  }

  /** The orthonormal frame updateCameraVectors derives. */
  datatype Basis = Basis(front: Vec3, right: Vec3, up: Vec3)

  /** The float numerics left abstract: `basis` is what updateCameraVectors
      computes from yaw, pitch and world-up (cos, sin, normalize, cross);
      `invLength` is the reciprocal length glm::normalize divides by. */
  datatype Numerics = Numerics(basis: (real, real, Vec3) -> Basis, invLength: Vec3 -> real)

  /** glm::normalize: a scalar multiple of its argument. */
  function Normalize(n: Numerics, v: Vec3): (r: Vec3)
    ensures r == Scale(v, n.invLength(v))
    ensures v.y == 0.0 ==> r.y == 0.0
  {
    Scale(v, n.invLength(v))
  }

  /** The ground-plane projection of a direction: its height set to zero. */
  function Horizontal(v: Vec3): (h: Vec3)
    ensures h.y == 0.0 && h.x == v.x && h.z == v.z
  {
    Vec3(v.x, 0.0, v.z)
  }

  /** Zoom after one scroll event: the offset is subtracted, then the
      value is clamped to [MIN_ZOOM, MAX_ZOOM]. */
  function ScrolledZoom(zoom: real, yoffset: real): (r: real)
    ensures MIN_ZOOM <= r <= MAX_ZOOM
    ensures MIN_ZOOM <= zoom - yoffset <= MAX_ZOOM ==> r == zoom - yoffset
    ensures zoom - yoffset < MIN_ZOOM ==> r == MIN_ZOOM
    ensures zoom - yoffset > MAX_ZOOM ==> r == MAX_ZOOM
  {
    var z := zoom - yoffset;
    var z' := if z < MIN_ZOOM then MIN_ZOOM else z;
    if z' > MAX_ZOOM then MAX_ZOOM else z'
  }

  /** Pitch after one mouse event whose scaled vertical offset is `delta`:
      clamped to [-MAX_PITCH, MAX_PITCH] only when `constrainPitch` holds. */
  function TurnedPitch(pitch: real, delta: real, constrainPitch: bool): (r: real)
    ensures constrainPitch ==> -MAX_PITCH <= r <= MAX_PITCH
    ensures constrainPitch && -MAX_PITCH <= pitch + delta <= MAX_PITCH ==> r == pitch + delta
    ensures constrainPitch && pitch + delta > MAX_PITCH ==> r == MAX_PITCH
    ensures constrainPitch && pitch + delta < -MAX_PITCH ==> r == -MAX_PITCH
    ensures !constrainPitch ==> r == pitch + delta
  {
    var p := pitch + delta;
    if constrainPitch then
      var p' := if p > MAX_PITCH then MAX_PITCH else p;
      if p' < -MAX_PITCH then -MAX_PITCH else p'
    else
      p
  }

  /** Position after one keyboard step with velocity = speed * deltaTime:
      forward/backward along the normalised ground projection of `front`,
      left/right along `right`. */
  function KeyboardMove(n: Numerics, position: Vec3, direction: CameraMovement,
                        front: Vec3, right: Vec3, velocity: real): (p: Vec3)
    ensures (direction == Forward || direction == Backward) ==> p.y == position.y
    ensures direction == Forward ==>
      p == Add(position, Scale(Normalize(n, Horizontal(front)), velocity))
    ensures direction == Backward ==>
      p == Sub(position, Scale(Normalize(n, Horizontal(front)), velocity))
    ensures direction == Left ==> p == Sub(position, Scale(right, velocity))
    ensures direction == Right ==> p == Add(position, Scale(right, velocity))
  {
    var ground := Scale(Normalize(n, Horizontal(front)), velocity);
    match direction
    case Forward => Add(position, ground)
    case Backward => Sub(position, ground)
    case Left => Sub(position, Scale(right, velocity))
    case Right => Add(position, Scale(right, velocity))
  }

  /** A forward step undone by a backward step of the same length, with
      the basis unchanged in between, returns to the start; likewise
      left then right. */
  lemma OppositeStepsCancel(n: Numerics, position: Vec3, front: Vec3, right: Vec3, velocity: real)
    ensures KeyboardMove(n, KeyboardMove(n, position, Forward, front, right, velocity),
                         Backward, front, right, velocity) == position
    ensures KeyboardMove(n, KeyboardMove(n, position, Left, front, right, velocity),
                         Right, front, right, velocity) == position
  {
  }

  /** Walking forward and backward any number of steps never changes the
      height, whatever the look direction. */
  lemma {:induction false} GroundStepsKeepHeight(n: Numerics, position: Vec3, steps: seq<CameraMovement>,
                                                 front: Vec3, right: Vec3, velocity: real)
    requires forall i :: 0 <= i < |steps| ==> steps[i] == Forward || steps[i] == Backward
    ensures Walk(n, position, steps, front, right, velocity).y == position.y
    decreases |steps|
  {
    if steps != [] {
      var p := KeyboardMove(n, position, steps[0], front, right, velocity);
      GroundStepsKeepHeight(n, p, steps[1..], front, right, velocity);
    }
  }

  /** A sequence of keyboard steps applied with a fixed basis and velocity. */
  function Walk(n: Numerics, position: Vec3, steps: seq<CameraMovement>,
                front: Vec3, right: Vec3, velocity: real): Vec3
    decreases |steps|
  {
    if steps == [] then position
    else Walk(n, KeyboardMove(n, position, steps[0], front, right, velocity), steps[1..],
              front, right, velocity)
  }

  class Camera {
    // Camera attributes
    var position: Vec3
    var front: Vec3
    var up: Vec3
    var right: Vec3
    var worldUp: Vec3
    // Euler angles, in degrees
    var yaw: real
    var pitch: real
    // Camera options
    var movementSpeed: real
    var mouseSensitivity: real
    var zoom: real
    // Pending movement directions for the current frame; no operation of
    // this model reads or writes them after construction.
    var moveForward: bool
    var moveBack: bool
    var moveLeft: bool
    var moveRight: bool

    const numerics: Numerics

    /** The basis is the one updateCameraVectors derives from the angles. */
    ghost predicate BasisCurrent()
      reads this
    {
      Basis(front, right, up) == numerics.basis(yaw, pitch, worldUp)
    }

    /** Constructor with vectors; the defaults give the origin and +y as world up. */
    constructor (numerics: Numerics, position: Vec3 := Vec3(0.0, 0.0, 0.0),
                 up: Vec3 := Vec3(0.0, 1.0, 0.0), yaw: real := YAW, pitch: real := PITCH)
      ensures this.numerics == numerics
      ensures this.position == position && worldUp == up && this.yaw == yaw && this.pitch == pitch
      ensures movementSpeed == SPEED && mouseSensitivity == SENSITIVITY && zoom == ZOOM
      ensures BasisCurrent()
      ensures !moveForward && !moveBack && !moveLeft && !moveRight
    {
      this.numerics := numerics;
      front := Vec3(0.0, 0.0, -1.0);
      movementSpeed := SPEED;
      mouseSensitivity := SENSITIVITY;
      zoom := ZOOM;
      this.position := position;
      worldUp := up;
      this.yaw := yaw;
      this.pitch := pitch;
      moveForward, moveBack, moveLeft, moveRight := false, false, false, false;
      new;
      UpdateCameraVectors();
    }

    /** Constructor with scalar values. */
    constructor FromScalars(numerics: Numerics, posX: real, posY: real, posZ: real,
                            upX: real, upY: real, upZ: real, yaw: real, pitch: real)
      ensures this.numerics == numerics
      ensures position == Vec3(posX, posY, posZ) && worldUp == Vec3(upX, upY, upZ)
      ensures this.yaw == yaw && this.pitch == pitch
      ensures movementSpeed == SPEED && mouseSensitivity == SENSITIVITY && zoom == ZOOM
      ensures BasisCurrent()
      ensures !moveForward && !moveBack && !moveLeft && !moveRight
    {
      this.numerics := numerics;
      front := Vec3(0.0, 0.0, -1.0);
      movementSpeed := SPEED;
      mouseSensitivity := SENSITIVITY;
      zoom := ZOOM;
      position := Vec3(posX, posY, posZ);
      worldUp := Vec3(upX, upY, upZ);
      this.yaw := yaw;
      this.pitch := pitch;
      moveForward, moveBack, moveLeft, moveRight := false, false, false, false;
      new;
      UpdateCameraVectors();
    }

    /** Keyboard input: moves the position only. */
    method ProcessKeyboard(direction: CameraMovement, deltaTime: real)
      modifies this`position
      ensures position == KeyboardMove(numerics, old(position), direction, front, right,
                                       movementSpeed * deltaTime)
    {
      var velocity := movementSpeed * deltaTime;
      if direction == Forward {
        position := Add(position, Scale(Normalize(numerics, Horizontal(front)), velocity));
      }
      if direction == Backward {
        position := Sub(position, Scale(Normalize(numerics, Horizontal(front)), velocity));
      }
      if direction == Left {
        position := Sub(position, Scale(right, velocity));
      }
      if direction == Right {
        position := Add(position, Scale(right, velocity));
      }
    }

    /** Mouse movement: scaled offsets are added to yaw (never clamped) and
        pitch (clamped when asked), then the basis is recomputed. */
    method ProcessMouseMovement(xoffset: real, yoffset: real, constrainPitch: bool := true)
      modifies this`yaw, this`pitch, this`front, this`right, this`up
      ensures yaw == old(yaw) + xoffset * mouseSensitivity
      ensures pitch == TurnedPitch(old(pitch), yoffset * mouseSensitivity, constrainPitch)
      ensures BasisCurrent()
    {
      var xoffset' := xoffset * mouseSensitivity;
      var yoffset' := yoffset * mouseSensitivity;

      yaw := yaw + xoffset';
      pitch := pitch + yoffset';

      if constrainPitch {
        if pitch > MAX_PITCH {
          pitch := MAX_PITCH;
        }
        if pitch < -MAX_PITCH {
          pitch := -MAX_PITCH;
        }
      }

      UpdateCameraVectors();
    }

    /** Scroll wheel: zoom only, kept within [MIN_ZOOM, MAX_ZOOM]. */
    method ProcessMouseScroll(yoffset: real)
      modifies this`zoom
      ensures zoom == ScrolledZoom(old(zoom), yoffset)
      ensures MIN_ZOOM <= zoom <= MAX_ZOOM
    {
      zoom := zoom - yoffset;
      if zoom < MIN_ZOOM {
        zoom := MIN_ZOOM;
      }
      if zoom > MAX_ZOOM {
        zoom := MAX_ZOOM;
      }
    }

    /** Recomputes front, right and up from the Euler angles (abstract numerics). */
    method UpdateCameraVectors()
      modifies this`front, this`right, this`up
      ensures BasisCurrent()
    {
      var b := numerics.basis(yaw, pitch, worldUp);
      front := b.front;
      right := b.right;
      up := b.up;
    }
  }
}
