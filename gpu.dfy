/**
 * The GPU objects the effect chain manages, reduced to the state the chain reads and writes.
 * Compiling a shader is a foreign call: whether a source compiles is the parameter `compiles`.
 */
module Gpu {
  import opened Outcomes

  /** A widget or buffer size, as the framework's (width, height) pair; no sign check is made. */
  datatype Size = Size(width: real, height: real)

  /** An opaque GPU texture: only its identity matters. */
  class Texture {
    constructor () {}
  }

  /** The message of the exception raised when a new fragment shader does not compile. */
  const CompileFailure: string := "failed"

  /**
   * What replacing the shader source `previous` of `sh` by `value` leaves behind: the new source
   * when it compiles, otherwise the previous source again, with an exception.
   */
  predicate Replaced(sh: Shader, previous: string, value: string, compiles: string -> bool, r: Outcome)
    reads sh
  {
    && (r == Success <==> compiles(value))
    && (r != Success ==> r == Raised(CompileFailure))
    && sh.fs == (if compiles(value) then value else previous)
    && sh.success == compiles(sh.fs)
  }

  /** A compiled shader program: its fragment source and whether the last compilation worked. */
  class Shader {
    var fs: string
    var success: bool

    /** The framework's own default program, written here as the empty source. */
    constructor Default()
      ensures fs == "" && success
    {
      fs := "";
      success := true;
    }

    /** Assigning `fs`: the source is stored and compiled at once. */
    method Load(source: string, compiles: string -> bool)
      modifies this
      ensures fs == source && success == compiles(source)
    {
      fs := source;
      success := compiles(source);
    }

    /** Replaces the fragment source, restoring the previous one if the new one does not compile. */
    method Replace(value: string, compiles: string -> bool) returns (r: Outcome)
      modifies this
      ensures Replaced(this, old(fs), value, compiles, r)
    {
      var oldValue := fs;
      Load(value, compiles);
      if !success {
        Load(oldValue, compiles);
        r := Raised(CompileFailure);
      } else {
        r := Success;
      }
    }
  }

  /**
   * One stage of the effect chain: an off-screen buffer with its own texture and shader, and the
   * rectangle it draws (its size and the texture it samples), folded into the buffer.
   */
  class EffectFbo {
    var size: Size
    const texture: Texture
    var rectSize: Size
    var rectTexture: Texture?
    const shader: Shader

    constructor (size0: Size)
      ensures size == size0 && rectSize == size0 && rectTexture == null
      ensures fresh(texture) && fresh(shader) && shader.fs == "" && shader.success
    {
      size := size0;
      rectSize := size0;
      rectTexture := null;
      texture := new Texture();
      shader := new Shader.Default();
    }

    /** EffectFbo.set_fs */
    method SetFs(value: string, compiles: string -> bool) returns (r: Outcome)
      modifies shader
      ensures Replaced(shader, old(shader.fs), value, compiles, r)
    {
      r := shader.Replace(value, compiles);
    }
  }
}
