/** Types and constants shared by the EGL loader and the bridge front end. */
module EglTypes {

  /** `EGLint`: a signed 32-bit integer. */
  type EGLint = x: int | -0x8000_0000 <= x < 0x8000_0000

  /** `EGLenum`: an unsigned 32-bit integer. */
  type EGLenum = x: int | 0 <= x < 0x1_0000_0000

  /** Every pointer, library handle and EGL object of a 64-bit process; 0 is null. */
  type Ptr = x: int | 0 <= x < 0x1_0000_0000_0000_0000

  const NULL: Ptr := 0

  // Token values of the EGL 1.4 specification (table 3.4 and section 3.7).
  const EGL_NONE: EGLint := 0x3038
  const EGL_DEPTH_SIZE: EGLint := 0x3025
  const EGL_RENDERABLE_TYPE: EGLint := 0x3040
  const EGL_OPENGL_ES2_BIT: EGLint := 0x0004
  const EGL_CONTEXT_CLIENT_VERSION: EGLint := 0x3098
  const EGL_OPENGL_ES_API: EGLenum := 0x30A0

  // The null EGL objects are null pointers.
  const EGL_NO_CONTEXT: Ptr := 0
  const EGL_NO_DISPLAY: Ptr := 0
  const EGL_NO_SURFACE: Ptr := 0

  /** A value that may be absent, such as a C pointer argument that may be null. */
  datatype Option<+T> = None | Some(value: T)

  /** The outcome of calling through a saved function pointer: a null pointer is
      called without a check (the process crashes), otherwise the call is forwarded. */
  datatype Forward<+A, +R> = NullCall | Call(target: Ptr, arg: A, result: R)
}
