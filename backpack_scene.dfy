/** The lit backpack scene of backpack_scene.h / backpack_scene.cpp: a
    lighting scheme cycled by the arrow keys, each scheme a fixed row of
    light colours written by adjustLights; a flashlight flag that gates the
    spotlight; and the light values render uploads.

    The model, the shaders, the buffers and all matrix work (view-space
    transforms, normal matrix, cos of the cut-off angles) are not modelled. */
module BackpackScene {
  import opened Vectors
  import opened Glfw
  import opened Options
  import opened Scenes
  import CameraModel
  import opened Remainders

  const POINT_LIGHT_COUNT: nat := 4
  const SCHEME_COUNT: int := 5

  /** The fraction of a light's colour uploaded as its ambient term. */
  const AMBIENT_FACTOR: real := 0.1

  /** The vertices of the light-source cube: 36 positions of 3 floats. */
  const LIGHT_VERTICES: seq<real> := [
    -0.5, -0.5, -0.5, 0.5, -0.5, -0.5, 0.5, 0.5, -0.5,
    0.5, 0.5, -0.5, -0.5, 0.5, -0.5, -0.5, -0.5, -0.5,
    -0.5, -0.5, 0.5, 0.5, -0.5, 0.5, 0.5, 0.5, 0.5,
    0.5, 0.5, 0.5, -0.5, 0.5, 0.5, -0.5, -0.5, 0.5,
    -0.5, 0.5, 0.5, -0.5, 0.5, -0.5, -0.5, -0.5, -0.5,
    -0.5, -0.5, -0.5, -0.5, -0.5, 0.5, -0.5, 0.5, 0.5,
    0.5, 0.5, 0.5, 0.5, 0.5, -0.5, 0.5, -0.5, -0.5,
    0.5, -0.5, -0.5, 0.5, -0.5, 0.5, 0.5, 0.5, 0.5,
    -0.5, -0.5, -0.5, 0.5, -0.5, -0.5, 0.5, -0.5, 0.5,
    0.5, -0.5, 0.5, -0.5, -0.5, 0.5, -0.5, -0.5, -0.5,
    -0.5, 0.5, -0.5, 0.5, 0.5, -0.5, 0.5, 0.5, 0.5,
    0.5, 0.5, 0.5, -0.5, 0.5, 0.5, -0.5, 0.5, -0.5
  ]

  /** Vertices per light-source draw call. */
  const LIGHT_VERTEX_COUNT: nat := 36

  /** C++ `%` on int: truncates toward zero, so the result takes the sign of
      the dividend and the dividend minus the result is a multiple of the
      divisor. */
  function CRem(a: int, b: int): (r: int)
    requires b != 0
    ensures 0 <= a ==> 0 <= r < (if b < 0 then -b else b)
    ensures 0 <= a ==> r == a % (if b < 0 then -b else b)
    ensures 0 <= a < (if b < 0 then -b else b) ==> r == a
    ensures a < 0 ==> -(if b < 0 then -b else b) < r <= 0
    ensures (a - r) % (if b < 0 then -b else b) == 0
  {
    var m := if b < 0 then -b else b;
    if 0 <= a < m then
      SmallRemainder(a, m);
      MultipleRemainder(0, m);
      a
    else if a >= 0 then
      TruncatedRemainderDivides(a, m);
      a % m
    else
      TruncatedRemainderDivides(-a, m);
      -((-a) % m)
  }

  /** The fields adjustLights writes: sky colour, directional colour and
      specular, and the point-light colours and speculars. */
  datatype LightColours = LightColours(sky: Vec3, directionalColor: Vec3, directionalSpecular: Vec3,
                                       pointColors: seq<Vec3>, pointSpeculars: seq<Vec3>)

  function Four(c: Vec3): seq<Vec3> {
    [c, c, c, c]
  }

  /** The scheme table of adjustLights: Default, Desert, Factory, Horror and
      Biochemical lab; no row for any other index. */
  function SchemeRow(k: int): (r: Option<LightColours>)
    ensures r.Some? <==> 0 <= k < SCHEME_COUNT
    ensures r.Some? ==> (|r.value.pointColors| == POINT_LIGHT_COUNT
                         && |r.value.pointSpeculars| == POINT_LIGHT_COUNT)
  {
    if k == 0 then
      Some(LightColours(Vec3(0.05, 0.05, 0.1), Splat(0.5), Splat(1.0),
                        Four(Splat(0.5)), Four(Splat(1.0))))
    else if k == 1 then
      Some(LightColours(Vec3(0.7, 0.5, 0.3), Vec3(0.8, 0.7, 0.4), Splat(1.0),
                        [Vec3(1.0, 0.3, 0.0), Vec3(1.0, 0.0, 0.0), Vec3(1.0, 0.3, 0.0), Vec3(0.8, 0.5, 0.0)],
                        Four(Splat(1.0))))
    else if k == 2 then
      Some(LightColours(Vec3(0.1, 0.1, 0.1), Vec3(0.2, 0.1, 0.5), Splat(0.5),
                        Four(Vec3(0.1, 0.1, 0.3)), Four(Splat(1.0))))
    else if k == 3 then
      Some(LightColours(Vec3(0.0, 0.0, 0.0), Vec3(0.01, 0.01, 0.01), Splat(0.0),
                        Four(Vec3(0.1, 0.025, 0.0)), Four(Vec3(0.4, 0.1, 0.0))))
    else if k == 4 then
      Some(LightColours(Vec3(0.95, 1.0, 0.95), Vec3(0.5, 0.7, 0.5), Splat(1.0),
                        Four(Vec3(0.4, 0.7, 0.4)), Four(Splat(1.0))))
    else
      None
  }

  /** The scene's tunable state (the fields of backpack_scene.h that the
      scene reads when it reacts to keys or renders). */
  datatype BackpackState = BackpackState(
    lightingScheme: int, amountSchemes: int, flashlight: bool, skyColor: Vec3,
    directionalLightDirection: Vec3, directionalLightColor: Vec3, directionalLightSpecular: Vec3,
    pointLightPositions: seq<Vec3>, pointLightColors: seq<Vec3>, pointLightSpeculars: seq<Vec3>,
    spotLightColor: Vec3, spotLightSpecular: Vec3,
    spotLightInnerCutOff: real, spotLightOuterCutOff: real)
  {
    /** The fields adjustLights writes. */
    function Colours(): LightColours {
      LightColours(skyColor, directionalLightColor, directionalLightSpecular,
                   pointLightColors, pointLightSpeculars)
    }

    /** The current colours are the table row of the current scheme. */
    ghost predicate Consistent() {
      && amountSchemes == SCHEME_COUNT
      && 0 <= lightingScheme < SCHEME_COUNT
      && SchemeRow(lightingScheme) == Some(Colours())
      && |pointLightPositions| == POINT_LIGHT_COUNT
    }
  }

  /** The field initialisers of backpack_scene.h. */
  function InitialState(): (s: BackpackState)
    ensures s.lightingScheme == 0 && s.amountSchemes == 5 && s.flashlight
    ensures s.spotLightInnerCutOff < s.spotLightOuterCutOff
    ensures |s.pointLightPositions| == |s.pointLightColors| == |s.pointLightSpeculars| == POINT_LIGHT_COUNT
    ensures s.Consistent()
  {
    BackpackState(
      0, 5, true, Vec3(0.05, 0.05, 0.1),
      Vec3(-0.2, -1.0, -0.3), Splat(0.5), Splat(1.0),
      [Vec3(0.7, 0.2, 2.0), Vec3(2.3, -3.3, -4.0), Vec3(-4.0, 2.0, -12.0), Vec3(0.0, 0.0, -3.0)],
      Four(Splat(0.5)), Four(Splat(1.0)),
      Splat(1.0), Splat(1.0), 12.5, 17.5)
  }

  /** adjustLights: for a scheme index with a table row, overwrite exactly
      the colour fields with that row; for any other index change nothing. */
  function AdjustedLights(s: BackpackState): (r: BackpackState)
    ensures SchemeRow(s.lightingScheme).Some? ==> r.Colours() == SchemeRow(s.lightingScheme).value
    ensures SchemeRow(s.lightingScheme).None? ==> r == s
    ensures r.lightingScheme == s.lightingScheme && r.amountSchemes == s.amountSchemes
    ensures r.flashlight == s.flashlight
    ensures r.spotLightColor == s.spotLightColor && r.spotLightSpecular == s.spotLightSpecular
    ensures r.spotLightInnerCutOff == s.spotLightInnerCutOff && r.spotLightOuterCutOff == s.spotLightOuterCutOff
    ensures r.pointLightPositions == s.pointLightPositions
    ensures r.directionalLightDirection == s.directionalLightDirection
  {
    match SchemeRow(s.lightingScheme)
    case None => s
    case Some(row) =>
      s.(skyColor := row.sky,
         directionalLightColor := row.directionalColor,
         directionalLightSpecular := row.directionalSpecular,
         pointLightColors := row.pointColors,
         pointLightSpeculars := row.pointSpeculars)
  }

  /** The next scheme: up steps forward modulo the count (C++ remainder). */
  function NextScheme(k: int, amount: int): (r: int)
    requires amount != 0
    ensures 0 <= k < amount ==> 0 <= r < amount
    ensures 0 <= k < amount ==> r == if k == amount - 1 then 0 else k + 1
  {
    CRem(k + 1, amount)
  }

  /** The previous scheme: down steps back, wrapping below 0 to the last. */
  function PrevScheme(k: int, amount: int): (r: int)
    ensures 0 <= k < amount ==> 0 <= r < amount
    ensures 0 <= k < amount ==> r == if k == 0 then amount - 1 else k - 1
  {
    if k - 1 < 0 then amount - 1 else k - 1
  }

  /** handleKey: up / down cycle the scheme and reapply the table, F flips
      the flashlight, every other key (page up and page down included)
      changes nothing. deltaTime plays no part. */
  function KeyTransition(s: BackpackState, key: int): (r: BackpackState)
    requires key == KEY_UP ==> s.amountSchemes != 0
    ensures key == KEY_UP ==>
      r == AdjustedLights(s.(lightingScheme := NextScheme(s.lightingScheme, s.amountSchemes)))
    ensures key == KEY_DOWN ==>
      r == AdjustedLights(s.(lightingScheme := PrevScheme(s.lightingScheme, s.amountSchemes)))
    ensures key == KEY_F ==> r == s.(flashlight := !s.flashlight)
    ensures key != KEY_UP && key != KEY_DOWN && key != KEY_F ==> r == s
    ensures 0 <= s.lightingScheme < s.amountSchemes ==> 0 <= r.lightingScheme < r.amountSchemes
  {
    if key == KEY_UP then
      AdjustedLights(s.(lightingScheme := CRem(s.lightingScheme + 1, s.amountSchemes)))
    else if key == KEY_DOWN then
      var k := s.lightingScheme - 1;
      AdjustedLights(s.(lightingScheme := if k < 0 then s.amountSchemes - 1 else k))
    else if key == KEY_F then
      s.(flashlight := !s.flashlight)
    else
      s
  }

  /** Every key keeps the colours equal to the table row of the scheme. */
  lemma HandleKeyKeepsConsistent(s: BackpackState, key: int)
    requires s.Consistent()
    ensures KeyTransition(s, key).Consistent()
  {
  }

  /** F changes the flashlight only, and a second F restores the state. */
  lemma FlashlightTogglesBack(s: BackpackState)
    ensures KeyTransition(s, KEY_F).Colours() == s.Colours()
    ensures KeyTransition(KeyTransition(s, KEY_F), KEY_F) == s
  {
  }

  /** The state after handleKey on each key in turn. */
  function Keys(s: BackpackState, keys: seq<int>): BackpackState
    requires s.Consistent()
    decreases |keys|
  {
    if keys == [] then s
    else
      HandleKeyKeepsConsistent(s, keys[0]);
      Keys(KeyTransition(s, keys[0]), keys[1..])
  }

  /** n presses of up from a consistent state: the scheme advances by n
      modulo the count and the colours are that scheme's row. */
  lemma {:induction false} UpPresses(s: BackpackState, n: nat)
    requires s.Consistent()
    ensures var r := Keys(s, seq(n, _ => KEY_UP));
      r == s.(lightingScheme := (s.lightingScheme + n) % SCHEME_COUNT)
            .(skyColor := r.skyColor, directionalLightColor := r.directionalLightColor,
              directionalLightSpecular := r.directionalLightSpecular,
              pointLightColors := r.pointLightColors, pointLightSpeculars := r.pointLightSpeculars)
      && r.Consistent()
    decreases n
  {
    if n > 0 {
      var s' := KeyTransition(s, KEY_UP);
      HandleKeyKeepsConsistent(s, KEY_UP);
      assert s'.lightingScheme == if s.lightingScheme == SCHEME_COUNT - 1 then 0 else s.lightingScheme + 1;
      assert (s'.lightingScheme + (n - 1)) % SCHEME_COUNT == (s.lightingScheme + n) % SCHEME_COUNT;
      assert seq(n, _ => KEY_UP)[1..] == seq(n - 1, _ => KEY_UP);
      assert Keys(s, seq(n, _ => KEY_UP)) == Keys(s', seq(n - 1, _ => KEY_UP));
      UpPresses(s', n - 1);
    }
  }

  /** Five presses of up from a consistent state (the initial one among
      them) restore every field, colours included. */
  lemma FiveUpsRestore(s: BackpackState)
    requires s.Consistent()
    ensures Keys(s, [KEY_UP, KEY_UP, KEY_UP, KEY_UP, KEY_UP]) == s
  {
    UpPresses(s, 5);
    assert seq(5, _ => KEY_UP) == [KEY_UP, KEY_UP, KEY_UP, KEY_UP, KEY_UP];
  }

  /** Down undoes up from a consistent state, and up undoes down. */
  lemma UpDownInverse(s: BackpackState)
    requires s.Consistent()
    ensures KeyTransition(KeyTransition(s, KEY_UP), KEY_DOWN) == s
    ensures KeyTransition(KeyTransition(s, KEY_DOWN), KEY_UP) == s
  {
  }

  /** The ambient, diffuse and specular values uploaded for one light. */
  datatype LightUniform = LightUniform(ambient: Vec3, diffuse: Vec3, specular: Vec3)

  /** A colour at AMBIENT_FACTOR as ambient, itself as diffuse, and its specular. */
  function Lit(color: Vec3, specular: Vec3): LightUniform {
    LightUniform(Scale(color, AMBIENT_FACTOR), color, specular)
  }

  // Attenuation terms, shared by every point light and the spotlight.
  const ATTENUATION_CONSTANT: real := 1.0
  const ATTENUATION_LINEAR: real := 0.09
  const ATTENUATION_QUADRATIC: real := 0.032
  const MATERIAL_SHININESS: real := 32.0
  const MATERIAL_EMISSION: real := 0.0

  /** The light values render uploads that do not depend on the camera. */
  datatype LightUploads = LightUploads(
    clearColor: Vec3,
    shininess: real, emissionIntensity: real,
    directional: LightUniform,
    points: seq<LightUniform>, pointAttenuation: seq<(real, real, real)>,
    spotPosition: Vec3, spotDirection: Vec3, spot: LightUniform, spotAttenuation: (real, real, real),
    spotCutOffDegrees: (real, real),
    lightSourceColors: seq<Vec3>, lightSourceVertexCount: nat)

  /** What render uploads: directional and point lights from their colours,
      the spotlight from its colour when the flashlight is on and all zero
      when it is off, and each light-source cube in its point light's colour. */
  function Uploads(s: BackpackState): (u: LightUploads)
    requires |s.pointLightColors| == |s.pointLightPositions| == |s.pointLightSpeculars|
    ensures u.clearColor == s.skyColor
    ensures u.directional == Lit(s.directionalLightColor, s.directionalLightSpecular)
    ensures |u.points| == |u.pointAttenuation| == |u.lightSourceColors| == |s.pointLightPositions|
    ensures forall i :: 0 <= i < |u.points| ==>
      u.points[i] == Lit(s.pointLightColors[i], s.pointLightSpeculars[i])
      && u.lightSourceColors[i] == s.pointLightColors[i]
    ensures s.flashlight ==> u.spot == Lit(s.spotLightColor, s.spotLightSpecular)
    ensures !s.flashlight ==> u.spot == LightUniform(Zero(), Zero(), Zero())
  {
    var attenuation := (ATTENUATION_CONSTANT, ATTENUATION_LINEAR, ATTENUATION_QUADRATIC);
    var n := |s.pointLightPositions|;
    LightUploads(
      s.skyColor, MATERIAL_SHININESS, MATERIAL_EMISSION,
      Lit(s.directionalLightColor, s.directionalLightSpecular),
      seq(n, i requires 0 <= i < n => Lit(s.pointLightColors[i], s.pointLightSpeculars[i])),
      seq(n, _ => attenuation),
      Zero(), Vec3(0.0, 0.0, -1.0),
      if s.flashlight then Lit(s.spotLightColor, s.spotLightSpecular) else LightUniform(Zero(), Zero(), Zero()),
      attenuation,
      (s.spotLightInnerCutOff, s.spotLightOuterCutOff),
      seq(n, i requires 0 <= i < n => s.pointLightColors[i]),
      LIGHT_VERTEX_COUNT)
  }

  /** The flashlight flag reaches only the spotlight's three values: the
      rest of the upload is the same whichever way it is set. */
  lemma FlashlightOnlyGatesSpot(s: BackpackState, on: bool)
    requires |s.pointLightColors| == |s.pointLightPositions| == |s.pointLightSpeculars|
    ensures Uploads(s.(flashlight := on)) == Uploads(s).(spot := Uploads(s.(flashlight := on)).spot)
  {
  }

  /** The cube data holds exactly the vertices one light-source draw uses. */
  lemma LightCubeMatchesDrawCount()
    ensures |LIGHT_VERTICES| == 3 * LIGHT_VERTEX_COUNT
  {
  }

  class BackpackScene {
    const camera: CameraModel.Camera

    // Light properties
    var directionalLightDirection: Vec3
    var directionalLightColor: Vec3
    var directionalLightSpecular: Vec3
    const pointLightPositions: array<Vec3>
    const pointLightColors: array<Vec3>
    const pointLightSpeculars: array<Vec3>
    var spotLightColor: Vec3
    var spotLightSpecular: Vec3
    var spotLightInnerCutOff: real
    var spotLightOuterCutOff: real

    // Other
    var lightingScheme: int
    var amountSchemes: int
    var flashlight: bool
    var skyColor: Vec3

    /** Three separate four-element arrays and a valid scheme count. */
    ghost predicate Valid()
      reads this
    {
      && pointLightPositions.Length == POINT_LIGHT_COUNT
      && pointLightColors.Length == POINT_LIGHT_COUNT
      && pointLightSpeculars.Length == POINT_LIGHT_COUNT
      && pointLightPositions != pointLightColors
      && pointLightPositions != pointLightSpeculars
      && pointLightColors != pointLightSpeculars
      && amountSchemes == SCHEME_COUNT
      && 0 <= lightingScheme < SCHEME_COUNT
    }

    function State(): BackpackState
      reads this, pointLightPositions, pointLightColors, pointLightSpeculars
    {
      BackpackState(lightingScheme, amountSchemes, flashlight, skyColor,
                    directionalLightDirection, directionalLightColor, directionalLightSpecular,
                    pointLightPositions[..], pointLightColors[..], pointLightSpeculars[..],
                    spotLightColor, spotLightSpecular, spotLightInnerCutOff, spotLightOuterCutOff)
    }

    /** The scene with its field initialisers; model loading and buffer
        setup are not modelled. */
    constructor (camera: CameraModel.Camera)
      ensures Valid() && State() == InitialState() && this.camera == camera
      ensures fresh(pointLightPositions) && fresh(pointLightColors) && fresh(pointLightSpeculars)
    {
      var s := InitialState();
      this.camera := camera;
      directionalLightDirection := s.directionalLightDirection;
      directionalLightColor := s.directionalLightColor;
      directionalLightSpecular := s.directionalLightSpecular;
      pointLightPositions := new Vec3[4][Vec3(0.7, 0.2, 2.0), Vec3(2.3, -3.3, -4.0),
                                         Vec3(-4.0, 2.0, -12.0), Vec3(0.0, 0.0, -3.0)];
      pointLightColors := new Vec3[4](_ => Splat(0.5));
      pointLightSpeculars := new Vec3[4](_ => Splat(1.0));
      spotLightColor := s.spotLightColor;
      spotLightSpecular := s.spotLightSpecular;
      spotLightInnerCutOff := s.spotLightInnerCutOff;
      spotLightOuterCutOff := s.spotLightOuterCutOff;
      lightingScheme := s.lightingScheme;
      amountSchemes := s.amountSchemes;
      flashlight := s.flashlight;
      skyColor := s.skyColor;
      new;
      assert pointLightPositions[..] == s.pointLightPositions;
      assert pointLightColors[..] == s.pointLightColors;
      assert pointLightSpeculars[..] == s.pointLightSpeculars;
    }

    /** Scene-specific keys. */
    method HandleKey(key: int, deltaTime: real)
      requires Valid()
      modifies this`lightingScheme, this`flashlight, this`skyColor,
               this`directionalLightColor, this`directionalLightSpecular,
               pointLightColors, pointLightSpeculars
      ensures Valid()
      ensures State() == KeyTransition(old(State()), key)
    {
      // Up arrow
      if key == KEY_UP {
        lightingScheme := CRem(lightingScheme + 1, amountSchemes);
        AdjustLights();
      }

      // Down arrow
      if key == KEY_DOWN {
        lightingScheme := lightingScheme - 1;
        if lightingScheme < 0 {
          lightingScheme := amountSchemes - 1;
        }
        AdjustLights();
      }

      // F
      if key == KEY_F {
        flashlight := !flashlight;
      }

      // Page up and page down: nothing implemented
    }

    /** Writes the colour fields from the table row of the current scheme. */
    method AdjustLights()
      requires Valid()
      modifies this`skyColor, this`directionalLightColor, this`directionalLightSpecular,
               pointLightColors, pointLightSpeculars
      ensures Valid()
      ensures State() == AdjustedLights(old(State()))
    {
      var row := SchemeRow(lightingScheme);
      if row.Some? {
        var r := row.value;
        skyColor := r.sky;
        directionalLightColor := r.directionalColor;
        directionalLightSpecular := r.directionalSpecular;
        pointLightColors[0] := r.pointColors[0];
        pointLightColors[1] := r.pointColors[1];
        pointLightColors[2] := r.pointColors[2];
        pointLightColors[3] := r.pointColors[3];
        pointLightSpeculars[0] := r.pointSpeculars[0];
        pointLightSpeculars[1] := r.pointSpeculars[1];
        pointLightSpeculars[2] := r.pointSpeculars[2];
        pointLightSpeculars[3] := r.pointSpeculars[3];
        assert pointLightColors[..] == r.pointColors;
        assert pointLightSpeculars[..] == r.pointSpeculars;
      }
    }

    /** One frame: the light values, in the order of the loop over point
        lights, and the projection from the camera's zoom. Changes nothing. */
    method Render(viewportWidth: int, viewportHeight: int)
      returns (uploads: LightUploads, projection: Projection)
      requires Valid()
      ensures uploads == Uploads(State())
      ensures projection == ProjectionFor(camera.zoom, viewportWidth, viewportHeight)
    {
      projection := Projection(camera.zoom, viewportWidth, viewportHeight, NEAR_PLANE, FAR_PLANE);
      var attenuation := (ATTENUATION_CONSTANT, ATTENUATION_LINEAR, ATTENUATION_QUADRATIC);
      var directional := Lit(directionalLightColor, directionalLightSpecular);

      // Point light properties
      var points: seq<LightUniform> := [];
      var pointAttenuation: seq<(real, real, real)> := [];
      for i := 0 to pointLightPositions.Length
        invariant |points| == |pointAttenuation| == i
        invariant forall j :: 0 <= j < i ==>
          points[j] == Lit(pointLightColors[j], pointLightSpeculars[j]) && pointAttenuation[j] == attenuation
      {
        points := points + [PointUniformAt(i)];
        pointAttenuation := pointAttenuation + [attenuation];
      }

      // Spotlight properties
      var spot: LightUniform;
      if flashlight {
        spot := LightUniform(Scale(spotLightColor, AMBIENT_FACTOR), spotLightColor, spotLightSpecular);
      } else {
        spot := LightUniform(Zero(), Zero(), Zero());
      }

      // Light sources
      var sourceColors: seq<Vec3> := [];
      for i := 0 to pointLightPositions.Length
        invariant |sourceColors| == i
        invariant forall j :: 0 <= j < i ==> sourceColors[j] == pointLightColors[j]
      {
        sourceColors := sourceColors + [pointLightColors[i]];
      }

      uploads := LightUploads(skyColor, MATERIAL_SHININESS, MATERIAL_EMISSION, directional,
                              points, pointAttenuation,
                              Zero(), Vec3(0.0, 0.0, -1.0), spot, attenuation,
                              (spotLightInnerCutOff, spotLightOuterCutOff),
                              sourceColors, LIGHT_VERTEX_COUNT);
    }

    /** The values uploaded for point light i. */
    function PointUniformAt(i: nat): (u: LightUniform)
      requires Valid() && i < POINT_LIGHT_COUNT
      reads this, pointLightColors, pointLightSpeculars
      ensures u == Lit(pointLightColors[i], pointLightSpeculars[i])
    {
      LightUniform(Scale(pointLightColors[i], AMBIENT_FACTOR), pointLightColors[i], pointLightSpeculars[i])
    }
  }
}
