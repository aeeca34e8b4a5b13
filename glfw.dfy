/** The GLFW key codes the rendering sandbox reacts to (values of the
    GLFW 3 public header). The windowing library itself is not modelled:
    key states arrive as inputs. */
module Glfw {

  const KEY_A: int := 65
  const KEY_D: int := 68
  const KEY_F: int := 70
  const KEY_M: int := 77
  const KEY_S: int := 83
  const KEY_W: int := 87
  const KEY_ESCAPE: int := 256
  const KEY_RIGHT: int := 262
  const KEY_LEFT: int := 263
  const KEY_DOWN: int := 264
  const KEY_UP: int := 265
  const KEY_PAGE_UP: int := 266
  const KEY_PAGE_DOWN: int := 267
}
