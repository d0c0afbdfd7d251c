/**
 * Effects: an effect holds its GLSL body and the Fbo it is drawn into. Whenever either changes,
 * the effect reinstalls its assembled shader on that Fbo (EffectBase binds `fbo` and `glsl` to
 * set_fbo_shader). Property observers are written as explicit calls that fire only when the
 * value actually changes, as the framework's properties do.
 */
module Effects {
  import opened Outcomes
  import opened Shaders
  import opened Gpu

  /** The parameters of the parametrised effects; `Plain` covers the fixed-body ones. */
  datatype Params =
    | Plain
    | ChannelMix(order: seq<int>)
    | Pixelate(pixelSize: real)
    | HorizontalBlur(size: real)
    | VerticalBlur(size: real)

  const DefaultOrder: seq<int> := [1, 2, 0]
  /** The class defaults of PixelateEffect.pixel_size and of the blur effects' size. */
  const DefaultPixelSize: real := 10.0
  const DefaultBlurSize: real := 4.0

  /** The default order [1, 2, 0] takes the green, blue and red channels, in that order. */
  lemma DefaultOrderMix()
    ensures ChannelMixGlsl(DefaultOrder) == Ok(MixHead + "y" + MixSeparator + "z" + MixSeparator + "x" + MixTail)
  {
    var order := DefaultOrder;
    assert order[0] == 1 && order[1] == 2 && order[2] == 0;
    assert ChannelNames[1] == 'y' && ChannelNames[2] == 'z' && ChannelNames[0] == 'x';
    assert ChannelLetters(order).Ok?;
  }

  /** The Effect's shader frame: the shader of its Fbo, if it has one. */
  function FboShader(f: EffectFbo?): set<Shader> {
    if f == null then {} else {f.shader}
  }

  class Effect {
    var glsl: string
    var fbo: EffectFbo?
    var params: Params

    /** EffectBase: the body starts as the trivial effect, which returns its input colour. */
    constructor Base()
      ensures glsl == EffectTrivial && fbo == null && params == Plain
    {
      glsl := EffectTrivial;
      fbo := null;
      params := Plain;
    }

    /** A fixed-body effect (monochrome, invert, scanlines, FXAA, a file's contents) given its body. */
    constructor (body: string)
      ensures glsl == body && fbo == null && params == Plain
    {
      glsl := body;
      fbo := null;
      params := Plain;
    }

    /** PixelateEffect: the body is generated from the pixel size, 10 unless given. */
    constructor Pixelate(render: real -> string, pixelSize: real := DefaultPixelSize)
      ensures glsl == PixelateGlsl(pixelSize, render) && fbo == null && params == Params.Pixelate(pixelSize)
    {
      glsl := PixelateGlsl(pixelSize, render);
      fbo := null;
      params := Params.Pixelate(pixelSize);
    }

    /** HorizontalBlurEffect: the body is generated from the width, 4 unless given. */
    constructor HorizontalBlur(render: real -> string, size: real := DefaultBlurSize)
      ensures glsl == HorizontalBlurGlsl(size, render) && fbo == null && params == Params.HorizontalBlur(size)
    {
      glsl := HorizontalBlurGlsl(size, render);
      fbo := null;
      params := Params.HorizontalBlur(size);
    }

    /** VerticalBlurEffect: the body is generated from the width, 4 unless given. */
    constructor VerticalBlur(render: real -> string, size: real := DefaultBlurSize)
      ensures glsl == VerticalBlurGlsl(size, render) && fbo == null && params == Params.VerticalBlur(size)
    {
      glsl := VerticalBlurGlsl(size, render);
      fbo := null;
      params := Params.VerticalBlur(size);
    }

    constructor ChannelMixOf(order: seq<int>, body: string)
      ensures glsl == body && fbo == null && params == ChannelMix(order)
    {
      glsl := body;
      fbo := null;
      params := ChannelMix(order);
    }

    /** ChannelMixEffect, with the order [1, 2, 0] unless given: construction raises KeyError or IndexError when `order` is unusable. */
    static method NewChannelMix(order: seq<int> := DefaultOrder) returns (r: Result<Effect, GlslError>)
      ensures r.Ok? <==> ChannelMixGlsl(order).Ok?
      ensures r.Err? ==> r.error == ChannelMixGlsl(order).error
      ensures r.Ok? ==> (fresh(r.value) && r.value.glsl == ChannelMixGlsl(order).value &&
        r.value.fbo == null && r.value.params == ChannelMix(order))
    {
      var body := ChannelMixGlsl(order);
      if body.Err? {
        r := Err(body.error);
        return;
      }
      var e := new Effect.ChannelMixOf(order, body.value);
      r := Ok(e);
    }

    /** EffectBase.set_fbo_shader: installs the assembled shader on the Fbo, if there is one. */
    method SetFboShader(compiles: string -> bool) returns (r: Outcome)
      modifies FboShader(fbo)
      ensures fbo == null ==> r == Success
      ensures fbo != null ==> Replaced(fbo.shader, old(fbo.shader.fs), FullSource(glsl), compiles, r)
    {
      if fbo == null {
        r := Success;
        return;
      }
      r := fbo.SetFs(FullSource(glsl), compiles);
    }

    /** Assigning `glsl`: when it changes, the shader is reinstalled. */
    method SetGlsl(value: string, compiles: string -> bool) returns (r: Outcome)
      modifies this, FboShader(fbo)
      ensures glsl == value && fbo == old(fbo) && params == old(params)
      ensures value == old(glsl) ==> r == Success && unchanged(FboShader(fbo))
      ensures value != old(glsl) && fbo == null ==> r == Success
      ensures value != old(glsl) && fbo != null ==> Replaced(fbo.shader, old(fbo.shader.fs), FullSource(value), compiles, r)
    {
      if value == glsl {
        r := Success;
        return;
      }
      glsl := value;
      r := SetFboShader(compiles);
    }

    /** Assigning `fbo`: when it changes to an Fbo, the shader is installed on the new one. */
    method SetFbo(f: EffectFbo?, compiles: string -> bool) returns (r: Outcome)
      modifies this, FboShader(f)
      ensures fbo == f && glsl == old(glsl) && params == old(params)
      ensures f == old(fbo) ==> r == Success && unchanged(FboShader(f))
      ensures f != old(fbo) && f == null ==> r == Success
      ensures f != old(fbo) && f != null ==> Replaced(f.shader, old(f.shader.fs), FullSource(glsl), compiles, r)
    {
      if f == fbo {
        r := Success;
        return;
      }
      fbo := f;
      r := SetFboShader(compiles);
    }

    /** Assigning PixelateEffect.pixel_size: a new size regenerates the body (on_pixel_size). */
    method SetPixelSize(pixelSize: real, render: real -> string, compiles: string -> bool) returns (r: Outcome)
      requires params.Pixelate?
      modifies this, FboShader(fbo)
      ensures params == Params.Pixelate(pixelSize) && fbo == old(fbo)
      ensures pixelSize == old(params.pixelSize) ==> glsl == old(glsl) && r == Success && unchanged(FboShader(fbo))
      ensures pixelSize != old(params.pixelSize) ==> glsl == PixelateGlsl(pixelSize, render)
      ensures (glsl == old(glsl) || fbo == null) ==> r == Success && unchanged(FboShader(fbo))
      ensures pixelSize != old(params.pixelSize) && glsl != old(glsl) && fbo != null ==>
        Replaced(fbo.shader, old(fbo.shader.fs), FullSource(glsl), compiles, r)
    {
      if pixelSize == params.pixelSize {
        r := Success;
        return;
      }
      params := Params.Pixelate(pixelSize);
      r := SetGlsl(PixelateGlsl(pixelSize, render), compiles);
    }

    /** Assigning HorizontalBlurEffect.size: a new width regenerates the body (on_size). */
    method SetHorizontalBlurSize(size: real, render: real -> string, compiles: string -> bool) returns (r: Outcome)
      requires params.HorizontalBlur?
      modifies this, FboShader(fbo)
      ensures params == Params.HorizontalBlur(size) && fbo == old(fbo)
      ensures size == old(params.size) ==> glsl == old(glsl) && r == Success && unchanged(FboShader(fbo))
      ensures size != old(params.size) ==> glsl == HorizontalBlurGlsl(size, render)
      ensures (glsl == old(glsl) || fbo == null) ==> r == Success && unchanged(FboShader(fbo))
      ensures size != old(params.size) && glsl != old(glsl) && fbo != null ==>
        Replaced(fbo.shader, old(fbo.shader.fs), FullSource(glsl), compiles, r)
    {
      if size == params.size {
        r := Success;
        return;
      }
      params := Params.HorizontalBlur(size);
      r := SetGlsl(HorizontalBlurGlsl(size, render), compiles);
    }

    /** Assigning VerticalBlurEffect.size: a new width regenerates the body (on_size). */
    method SetVerticalBlurSize(size: real, render: real -> string, compiles: string -> bool) returns (r: Outcome)
      requires params.VerticalBlur?
      modifies this, FboShader(fbo)
      ensures params == Params.VerticalBlur(size) && fbo == old(fbo)
      ensures size == old(params.size) ==> glsl == old(glsl) && r == Success && unchanged(FboShader(fbo))
      ensures size != old(params.size) ==> glsl == VerticalBlurGlsl(size, render)
      ensures (glsl == old(glsl) || fbo == null) ==> r == Success && unchanged(FboShader(fbo))
      ensures size != old(params.size) && glsl != old(glsl) && fbo != null ==>
        Replaced(fbo.shader, old(fbo.shader.fs), FullSource(glsl), compiles, r)
    {
      if size == params.size {
        r := Success;
        return;
      }
      params := Params.VerticalBlur(size);
      r := SetGlsl(VerticalBlurGlsl(size, render), compiles);
    }

    /**
     * Assigning ChannelMixEffect.order. The class regenerates its body from a hook named after a
     * `size` property it does not have, so a new order never reaches the body or the shader.
     */
    method SetOrder(order: seq<int>)
      requires params.ChannelMix?
      modifies this
      ensures params == ChannelMix(order) && glsl == old(glsl) && fbo == old(fbo)
    {
      params := ChannelMix(order);
    }
  }
}
