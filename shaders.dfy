/**
 * Shader source text: the fixed pieces every effect shader is assembled from, the assembly
 * itself (`EffectBase.set_fbo_shader`), and the `do_glsl` generators of the parametrised effects.
 * Effect bodies are opaque GLSL text; only the placeholders the generators fill matter here.
 */
module Shaders {
  import opened Outcomes
  import opened StrFormat

  // ---------------------------------------------------------------- fixed shader pieces

  const ShaderHeader: string :=
    "\n" +
    "#ifdef GL_ES\n" +
    "precision highp float;\n" +
    "#endif\n" +
    "\n" +
    "/* Outputs from the vertex shader */\n" +
    "varying vec4 frag_color;\n" +
    "varying vec2 tex_coord0;\n" +
    "\n" +
    "/* uniform texture samplers */\n" +
    "uniform sampler2D texture0;\n"

  const ShaderUniforms: string :=
    "\n" +
    "uniform vec2 resolution;\n" +
    "uniform float time;\n"

  const ShaderFooterEffect: string :=
    "\n" +
    "void main (void){\n" +
    "    vec4 normal_color = frag_color * texture2D(texture0, tex_coord0);\n" +
    "    vec4 effect_color = effect(normal_color, texture0, tex_coord0,\n" +
    "                               gl_FragCoord.xy);\n" +
    "    gl_FragColor = effect_color;\n" +
    "}\n"

  /** The body every effect starts with: it returns its input colour. */
  const EffectTrivial: string :=
    "\n" +
    "vec4 effect(vec4 color, sampler2D texture, vec2 tex_coords, vec2 coords)\n" +
    "{\n" +
    "    return color;\n" +
    "}\n"

  /** What stands before an effect body in an assembled shader. */
  const ShaderPrefix: string := ShaderHeader + ShaderUniforms

  // ---------------------------------------------------------------- assembly

  /** The full fragment shader an effect with body `glsl` installs on its Fbo. */
  function FullSource(glsl: string): string {
    ShaderHeader + ShaderUniforms + glsl + ShaderFooterEffect
  }

  /** The effect body inside an assembled shader, if `src` has the shape FullSource produces. */
  function EffectBody(src: string): Option<string> {
    Between(src, ShaderPrefix, ShaderFooterEffect)
  }

  /** The assembled shader determines the effect body: the two are inverse to each other. */
  lemma EffectBodyRoundTrip(src: string, glsl: string)
    ensures EffectBody(src) == Some(glsl) <==> src == FullSource(glsl)
  {
    if EffectBody(src) == Some(glsl) {
      BetweenInverse(src, ShaderPrefix, ShaderFooterEffect, glsl);
    }
    if src == FullSource(glsl) {
      BetweenOfConcat(ShaderPrefix, glsl, ShaderFooterEffect);
    }
  }

  lemma FullSourceInjective(a: string, b: string)
    ensures FullSource(a) == FullSource(b) <==> a == b
  {
    SpliceInjective(ShaderPrefix, ShaderFooterEffect, a, b);
  }

  // ---------------------------------------------------------------- ChannelMixEffect

  /** The channel selectors `color.x`, `color.y`, `color.z` keyed by channel index. */
  const ChannelNames: map<int, char> := map[0 := 'x', 1 := 'y', 2 := 'z']

  const MixHead: string :=
    "\n" +
    "vec4 effect(vec4 color, sampler2D texture, vec2 tex_coords, vec2 coords)\n" +
    "{\n" +
    "    return vec4(color."
  const MixSeparator: string := ", color."
  const MixTail: string :=
    ", 1.0);\n" +
    "}\n"
  const MixPieces: seq<string> := [MixHead, MixSeparator, MixSeparator, MixTail]

  /** The `effect_mix` format string: three `{}` fields, one per output channel. */
  const MixTemplate: string := Template(MixPieces)

  datatype GlslError = KeyError(key: int) | FormatFailed(reason: FormatError)

  /**
   * The list comprehension of ChannelMixEffect.do_glsl: each entry of `order` looked up in
   * ChannelNames, failing with KeyError on the first entry that is not a channel index.
   */
  function ChannelLetters(order: seq<int>): (r: Result<seq<char>, int>)
    ensures r.Ok? <==> forall i | 0 <= i < |order| :: order[i] in ChannelNames
    ensures r.Ok? ==> (|r.value| == |order| &&
      forall i | 0 <= i < |order| :: order[i] in ChannelNames && r.value[i] == ChannelNames[order[i]])
    ensures r.Err? ==> exists i | 0 <= i < |order| :: (order[i] == r.error && order[i] !in ChannelNames &&
      forall j | 0 <= j < i :: order[j] in ChannelNames)
  {
    if order == [] then Ok([])
    else if order[0] !in ChannelNames then Err(order[0])
    else
      match ChannelLetters(order[1..])
      case Err(key) =>
        assert forall j | 1 <= j < |order| :: order[j] == order[1..][j - 1];
        Err(key)
      case Ok(rest) =>
        assert forall j | 1 <= j < |order| :: order[j] == order[1..][j - 1];
        Ok([ChannelNames[order[0]]] + rest)
  }

  function Strings(cs: seq<char>): (r: seq<string>)
    ensures |r| == |cs| && forall i | 0 <= i < |cs| :: r[i] == [cs[i]]
  {
    seq(|cs|, i requires 0 <= i < |cs| => [cs[i]])
  }

  /** A failure of `str.format` surfaces as the exception it raises. */
  function Lifted(f: Result<string, FormatError>): Result<string, GlslError> {
    match f
    case Ok(text) => Ok(text)
    case Err(e) => Err(FormatFailed(e))
  }

  /**
   * ChannelMixEffect.do_glsl over a three-field template with literal parts `head`, `sep`, `sep`,
   * `tail`: the letters for `order` are substituted in order; only the first three are used, and
   * fewer than three fail with IndexError at the first missing field.
   */
  function ChannelMixWith(head: string, sep: string, tail: string, order: seq<int>): (r: Result<string, GlslError>)
    ensures r.Ok? <==> |order| >= 3 && forall i | 0 <= i < |order| :: order[i] in ChannelNames
    ensures r.Ok? ==> (r.value ==
      head + [ChannelNames[order[0]]] + sep + [ChannelNames[order[1]]] + sep + [ChannelNames[order[2]]] + tail)
    ensures r.Err? && r.error.KeyError? <==> exists i | 0 <= i < |order| :: order[i] !in ChannelNames
    ensures r.Err? && r.error.KeyError? ==> exists i | 0 <= i < |order| :: (order[i] == r.error.key &&
      order[i] !in ChannelNames && forall j | 0 <= j < i :: order[j] in ChannelNames)
    ensures r.Err? && r.error.FormatFailed? ==> r.error.reason == MissingArgument(|order|)
  {
    match ChannelLetters(order)
    case Err(key) => Err(KeyError(key))
    case Ok(letters) =>
      if |letters| >= 3 then Ok(head + [letters[0]] + sep + [letters[1]] + sep + [letters[2]] + tail)
      else Err(FormatFailed(MissingArgument(|letters|)))
  }

  /**
   * The letters, once looked up, are substituted by `str.format` itself: ChannelMixWith is the
   * outcome of formatting the template with them.
   */
  lemma ChannelMixWithFormats(head: string, sep: string, tail: string, order: seq<int>)
    requires ChannelLetters(order).Ok?
    ensures ChannelMixWith(head, sep, tail, order) ==
      Lifted(Format(Template([head, sep, sep, tail]), Strings(ChannelLetters(order).value)))
  {
    FormatThreeFields(head, sep, sep, tail, Strings(ChannelLetters(order).value));
  }

  /** ChannelMixEffect.do_glsl: the letters for `order` substituted into `effect_mix`. */
  function ChannelMixGlsl(order: seq<int>): Result<string, GlslError> {
    ChannelMixWith(MixHead, MixSeparator, MixTail, order)
  }

  /** ChannelMixGlsl is `effect_mix.format(*letters)` for the letters of any usable order. */
  lemma ChannelMixGlslFormats(order: seq<int>)
    requires ChannelLetters(order).Ok?
    ensures ChannelMixGlsl(order) == Lifted(Format(MixTemplate, Strings(ChannelLetters(order).value)))
  {
    ChannelMixWithFormats(MixHead, MixSeparator, MixTail, order);
  }

  // ---------------------------------------------------------------- PixelateEffect

  const PixelateHead: string :=
    "\n" +
    "vec4 effect(vec4 vcolor, sampler2D texture, vec2 texcoord, vec2 pixel_coords)\n" +
    "{\n" +
    "    vec2 pixelSize = "
  const PixelateTail: string :=
    " / resolution;\n" +
    "\n" +
    "    vec2 xy = floor(texcoord/pixelSize)*pixelSize + pixelSize/2.0;\n" +
    "\n" +
    "    return texture2D(texture, xy);\n" +
    "}\n"
  /** The `effect_pixelate` format string: one `{}` field for the pixel size. */
  const PixelateTemplate: string := Template([PixelateHead, PixelateTail])

  /**
   * PixelateEffect.do_glsl (the later of the two definitions, which wins): `pixelSize` converted
   * to a float, rendered as text by `render`, spliced into `effect_pixelate`.
   */
  function PixelateGlsl(pixelSize: real, render: real -> string): string {
    PixelateHead + render(pixelSize) + PixelateTail
  }

  /** The generated body is `effect_pixelate.format(float(pixel_size))`, and the size can be read back. */
  lemma PixelateGlslFormats(pixelSize: real, render: real -> string)
    ensures Format(PixelateTemplate, [render(pixelSize)]) == Ok(PixelateGlsl(pixelSize, render))
    ensures Between(PixelateGlsl(pixelSize, render), PixelateHead, PixelateTail) == Some(render(pixelSize))
  {
    FormatOneField(PixelateHead, PixelateTail, render(pixelSize));
    BetweenOfConcat(PixelateHead, render(pixelSize), PixelateTail);
  }

  // ---------------------------------------------------------------- blur effects

  const BlurHead: string :=
    "\n" +
    "vec4 effect(vec4 color, sampler2D texture, vec2 tex_coords, vec2 coords)\n" +
    "{\n" +
    "    float dt = ("
  /** `effect_blur_h` after its field: the step `dt` along x, then nine weighted taps. */
  const BlurHorizontalTail: string :=
    " / 4.0) * 1.0 / resolution.x;\n" +
    "    vec4 sum = vec4(0.0);\n" +
    "    sum += texture2D(texture, vec2(tex_coords.x - 4.0*dt, tex_coords.y))\n" +
    "                     * 0.05;\n" +
    "    sum += texture2D(texture, vec2(tex_coords.x - 3.0*dt, tex_coords.y))\n" +
    "                     * 0.09;\n" +
    "    sum += texture2D(texture, vec2(tex_coords.x - 2.0*dt, tex_coords.y))\n" +
    "                     * 0.12;\n" +
    "    sum += texture2D(texture, vec2(tex_coords.x - dt, tex_coords.y))\n" +
    "                     * 0.15;\n" +
    "    sum += texture2D(texture, vec2(tex_coords.x, tex_coords.y))\n" +
    "                     * 0.16;\n" +
    "    sum += texture2D(texture, vec2(tex_coords.x + dt, tex_coords.y))\n" +
    "                     * 0.15;\n" +
    "    sum += texture2D(texture, vec2(tex_coords.x + 2.0*dt, tex_coords.y))\n" +
    "                     * 0.12;\n" +
    "    sum += texture2D(texture, vec2(tex_coords.x + 3.0*dt, tex_coords.y))\n" +
    "                     * 0.09;\n" +
    "    sum += texture2D(texture, vec2(tex_coords.x + 4.0*dt, tex_coords.y))\n" +
    "                     * 0.05;\n" +
    "    return sum;\n" +
    "}\n"

  /** The `effect_blur_h` format string: one `{}` field for the blur width. */
  const BlurHorizontalTemplate: string := Template([BlurHead, BlurHorizontalTail])

  /** HorizontalBlurEffect.do_glsl: the float width spliced into `effect_blur_h`. */
  function HorizontalBlurGlsl(size: real, render: real -> string): string {
    BlurHead + render(size) + BlurHorizontalTail
  }

  /** The generated body is `effect_blur_h.format(float(size))`, and the width can be read back. */
  lemma HorizontalBlurGlslFormats(size: real, render: real -> string)
    ensures Format(BlurHorizontalTemplate, [render(size)]) == Ok(HorizontalBlurGlsl(size, render))
    ensures Between(HorizontalBlurGlsl(size, render), BlurHead, BlurHorizontalTail) == Some(render(size))
  {
    FormatOneField(BlurHead, BlurHorizontalTail, render(size));
    BetweenOfConcat(BlurHead, render(size), BlurHorizontalTail);
  }

  /**
   * VerticalBlurEffect.do_glsl as written: it formats the horizontal template `effect_blur_h`
   * (its own `effect_blur_v` is never used), so it blurs along x exactly as the horizontal one.
   */
  function VerticalBlurGlsl(size: real, render: real -> string): string {
    HorizontalBlurGlsl(size, render)
  }

  /**
   * The vertical blur generator yields the same shader body as the horizontal one. This holds by
   * the definition above, which follows VerticalBlurEffect.do_glsl in formatting `effect_blur_h`
   * rather than `effect_blur_v`; the lemma records that the vertical blur is a horizontal one.
   */
  lemma VerticalBlurIsHorizontal(size: real, render: real -> string)
    ensures VerticalBlurGlsl(size, render) == HorizontalBlurGlsl(size, render)
  {
  }

  /**
   * A parameter change always reaches the shader text: two sizes give the same generated body
   * exactly when they render to the same text.
   */
  lemma ParameterReachesShader(a: real, b: real, render: real -> string)
    ensures PixelateGlsl(a, render) == PixelateGlsl(b, render) <==> render(a) == render(b)
    ensures HorizontalBlurGlsl(a, render) == HorizontalBlurGlsl(b, render) <==> render(a) == render(b)
  {
    SpliceInjective(PixelateHead, PixelateTail, render(a), render(b));
    SpliceInjective(BlurHead, BlurHorizontalTail, render(a), render(b));
  }
}
