/** Vocabulary shared by both variants of the storybook. */
module Common {

  datatype Option<T> = None | Some(value: T)

  /** Number of marker pages in the image-target file (anchor indices 0 to 14). */
  const PageCount: nat := 15

  /**
   * A marker index. Each page owns exactly one model object, one mixer slot and
   * one narration (and possibly one tap-sound) audio element, so the index also
   * serves as the identity of those objects in the process-wide registry.
   */
  type PageId = p: nat | p < PageCount

  /** A pointer or touch position in client pixels. */
  datatype Point = Point(x: real, y: real)

  /** A three-component vector, as used for a scene's scale and position. */
  datatype Vec3 = Vec3(x: real, y: real, z: real)

  /** The same factor on all three axes. */
  function Uniform(k: real): Vec3
  {
    Vec3(k, k, k)
  }
}
