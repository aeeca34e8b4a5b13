/** What every scene's render shares: a perspective projection built from
    the camera's zoom and the framebuffer size, with fixed clip planes. The
    matrix itself (glm::perspective) is not modelled, only its arguments. */
module Scenes {

  const NEAR_PLANE: real := 0.1
  const FAR_PLANE: real := 100.0

  /** The arguments of the perspective call: vertical field of view in
      degrees, the framebuffer size whose ratio is the aspect, and the clip
      planes. */
  datatype Projection = Projection(fovDegrees: real, viewportWidth: int, viewportHeight: int,
                                   near: real, far: real)

  function ProjectionFor(zoom: real, viewportWidth: int, viewportHeight: int): (p: Projection)
    ensures p.fovDegrees == zoom && p.near == NEAR_PLANE && p.far == FAR_PLANE
    ensures p.viewportWidth == viewportWidth && p.viewportHeight == viewportHeight
  {
    Projection(zoom, viewportWidth, viewportHeight, NEAR_PLANE, FAR_PLANE)
  }
}
