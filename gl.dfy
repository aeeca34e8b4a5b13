/** The OpenGL values the model refers to (values of the OpenGL 3.3 core
    header). No GL call is modelled. */
module Gl {

  /** An unsigned 32-bit GL name or count. */
  type GLuint = n: int | 0 <= n < 0x1_0000_0000

  // Pixel formats
  const GL_RED: int := 0x1903
  const GL_RGB: int := 0x1907
  const GL_RGBA: int := 0x1908

  // Texture parameters
  const GL_LINEAR: int := 0x2601
  const GL_LINEAR_MIPMAP_LINEAR: int := 0x2703
}
