# Kivy EffectWidget, modelled in Dafny

Kivy's `EffectWidget` draws its children into a main off-screen buffer (an Fbo). It then passes
the result through a chain of `EffectFbo` stages, one per effect. Each stage runs the effect's
GLSL fragment shader and samples the texture of the stage before it. The widget displays the
texture of the last stage, or that of the main Fbo when it has no effects.

The model covers:

- the shader assembly of `EffectBase.set_fbo_shader`;
- the `do_glsl` text generators of the parametrised effects (channel mix, pixelate, the two
  blurs), built on a model of the part of Python's `str.format` they use;
- the compile-or-roll-back behaviour of `EffectFbo.set_fs` and `EffectWidget.on_fs`;
- the in-place rebuild of the chain in `refresh_fbo_setup`, with the property observers that
  trigger it (`on_size`, `on_effects`);
- the binding bookkeeping of `_update_glsl_bindings`.

Modules, one per file:

- `Outcomes` (`outcomes.dfy`): `Option`, `Result`, and `Outcome`. An `Outcome` is either success
  or a raised exception with its message.
- `StrFormat` (`str_format.dfy`): automatically numbered `{}` fields, and the `{{`/`}}` escapes.
- `Shaders` (`shaders.dfy`): the fixed shader pieces, the assembly, and the generators.
- `Gpu` (`gpu.dfy`): `Shader` and `EffectFbo` as classes whose fields change in place, and
  `Texture` as an opaque identity.
- `Effects` (`effects.dfy`): the `Effect` class with its `glsl`, `fbo` and parameter state.
- `Lists` (`lists.dfy`): sequence vocabulary for the widget's lists.
- `Widget` (`effect_widget.dfy`): the `EffectWidget` class.

Whether a shader source compiles is a parameter `compiles: string -> bool`. How a `float` is
written as text is a parameter `render: real -> string`. Kivy's property dispatch is written as
explicit calls. Each call fires only when the assigned value differs from the current one, as
Kivy properties do.

Two places where the code and its own docstrings disagree. The model follows the code in each:

- **The vertical blur.** The class docstring (kivy/uix/effectwidget.py:470-471) says it blurs
  vertically, but `VerticalBlurEffect.do_glsl` formats `effect_blur_h`, so it blurs
  horizontally. `effect_blur_v` is never used.
- **The channel order.** The docstrings (kivy/uix/effectwidget.py:417-422) describe the mix as
  following the `order` property. `ChannelMixEffect` regenerates its body in an `on_size` hook.
  It has no `size` property, so changing `order` after construction never reaches the shader.

More behaviours of the code that the model keeps:

- **An aborted refresh.** A stage whose shader fails to compile raises out of
  `refresh_fbo_setup`. The remaining effects are not attached. The first stage's input and the
  displayed texture are not updated. The refresh does not carry on past the failure.
- `_update_glsl_bindings` rebinds a local name to a new list, so `_bound_effects` is never
  updated. Nothing in the file calls the method.
- Sizes are stored as given, with no sign check.

## Model

| member | source | states |
|---|---|---|
| StrFormat.FormatFrom | kivy/uix/effectwidget.py:432-434 | text without braces formats to itself |
| StrFormat.FormatEscapeRoundTrip | kivy/uix/effectwidget.py:136-141 | a literal written with doubled braces formats back to the literal, whatever the arguments |
| StrFormat.FormatTemplate | kivy/uix/effectwidget.py:432-434 | formatting a template with n fields places arguments k..k+n-1 between its literal parts; with too few arguments it raises IndexError at the first missing index |
| StrFormat.FormatOneField | kivy/uix/effectwidget.py:449-450 | a one-field template with one argument gives head + argument + tail |
| StrFormat.FormatThreeFields | kivy/uix/effectwidget.py:432-434 | a three-field template takes the first three arguments in order, or raises IndexError with fewer than three |
| Shaders.EffectBodyRoundTrip | kivy/uix/effectwidget.py:331-335 | a source is the assembly of body g exactly when g is found between the header+uniforms prefix and the effect footer |
| Shaders.FullSourceInjective | kivy/uix/effectwidget.py:331-335 | two effect bodies assemble to the same shader exactly when they are equal |
| Shaders.ChannelLetters | kivy/uix/effectwidget.py:432-433 | the lookup succeeds exactly when every entry is 0, 1 or 2, giving x/y/z position by position; otherwise it fails with the first bad key |
| Shaders.ChannelMixWith | kivy/uix/effectwidget.py:432-434 | the result is a body exactly when the order has at least three entries, all channel indices; the body uses the first three letters; it raises KeyError exactly when some entry is not a channel, reporting the first one; otherwise it raises IndexError at the length |
| Shaders.ChannelMixWithFormats | kivy/uix/effectwidget.py:432-434 | for usable keys, the generated body is str.format of the three-field template applied to the looked-up letters |
| Shaders.ChannelMixGlslFormats | kivy/uix/effectwidget.py:432-434 | ChannelMixEffect.do_glsl equals `effect_mix.format(*letters)` |
| Effects.DefaultOrderMix | kivy/uix/effectwidget.py:421-434 | the default order [1, 2, 0] yields color.y, color.z, color.x |
| Shaders.PixelateGlslFormats | kivy/uix/effectwidget.py:449-450 | the pixelate body is `effect_pixelate.format(float(pixel_size))`, and the rendered size can be read back from it |
| Shaders.HorizontalBlurGlslFormats | kivy/uix/effectwidget.py:465-466 | the horizontal blur body is `effect_blur_h.format(float(size))`, and the width can be read back |
| Shaders.VerticalBlurIsHorizontal | kivy/uix/effectwidget.py:481-482 | the vertical blur yields exactly the horizontal blur's body |
| Shaders.ParameterReachesShader | kivy/uix/effectwidget.py:446-450 | two sizes give the same pixelate (or blur) body exactly when they render to the same text |
| Gpu.Shader.Replace | kivy/uix/effectwidget.py:497-504 | a source that compiles is kept and the call succeeds; otherwise the previous source is restored and `Exception('failed')` is raised; `success` reflects the source left in place |
| Gpu.EffectFbo.SetFs | kivy/uix/effectwidget.py:497-504 | EffectFbo.set_fs: the same replace-or-restore on the Fbo's shader |
| Gpu.EffectFbo.constructor | kivy/uix/effectwidget.py:579-587 | a new stage has the given size, a rectangle of that size with no texture, and fresh texture and shader objects |
| Effects.Effect.Base | kivy/uix/effectwidget.py:316-324 | an EffectBase starts with the trivial body, which returns its input colour, no Fbo and no parameters |
| Effects.Effect.constructor | kivy/uix/effectwidget.py:396-414 | a fixed-body effect (monochrome, invert, scanlines) starts with its body and no Fbo |
| Effects.Effect.Pixelate | kivy/uix/effectwidget.py:436-444 | PixelateEffect starts with the body generated from its pixel size, 10 by default |
| Effects.Effect.HorizontalBlur | kivy/uix/effectwidget.py:453-460 | HorizontalBlurEffect starts with the body generated from its width, 4.0 by default |
| Effects.Effect.VerticalBlur | kivy/uix/effectwidget.py:469-476 | VerticalBlurEffect starts with the body its generator yields from its width, 4.0 by default |
| Effects.Effect.NewChannelMix | kivy/uix/effectwidget.py:425-434 | construction, with the order [1, 2, 0] unless given, succeeds exactly when the order generates a body, and carries that body; otherwise it raises the generator's KeyError or IndexError |
| Effects.Effect.SetFboShader | kivy/uix/effectwidget.py:331-335 | with no Fbo nothing happens; otherwise the assembled source replaces the Fbo's shader, or the previous source is restored and the call raises |
| Effects.Effect.SetGlsl | kivy/uix/effectwidget.py:326-335 | the same body changes nothing; a new body is stored and is installed on the Fbo, if there is one |
| Effects.Effect.SetFbo | kivy/uix/effectwidget.py:326-335 | the same Fbo changes nothing; a new Fbo is stored and the current body is installed on it |
| Effects.Effect.SetPixelSize | kivy/uix/effectwidget.py:446-450 | a new pixel size regenerates the body, and the body is reinstalled when it changed; the same size changes nothing; a body that did not change, or an effect with no Fbo, succeeds and leaves every shader alone |
| Effects.Effect.SetHorizontalBlurSize | kivy/uix/effectwidget.py:462-466 | a new width regenerates the body and reinstalls it when it changed; the same width changes nothing; a body that did not change, or an effect with no Fbo, succeeds and leaves every shader alone |
| Effects.Effect.SetVerticalBlurSize | kivy/uix/effectwidget.py:478-482 | a new width regenerates the body (with the horizontal template) and reinstalls it when it changed; the same width changes nothing; a body that did not change, or an effect with no Fbo, succeeds and leaves every shader alone |
| Effects.Effect.SetOrder | kivy/uix/effectwidget.py:421-431 | a new channel order is stored, but the body and the Fbo stay as they were |
| Lists.Within | kivy/uix/effectwidget.py:628-629 | the comprehension keeps exactly the bound effects that are still listed |
| Lists.Without | kivy/uix/effectwidget.py:624-626 | the unbinding loop visits exactly the bound effects that are no longer listed |
| Lists.WithinDistinct | kivy/uix/effectwidget.py:628-629 | filtering introduces no repetition |
| Lists.WithoutDistinct | kivy/uix/effectwidget.py:624-626 | collecting the unlisted elements introduces no repetition |
| Lists.FiltersSplit | kivy/uix/effectwidget.py:624-629 | every bound effect is either kept or unbound, never both |
| Lists.Extend | kivy/uix/effectwidget.py:631-634 | the appending loop keeps the list it started from as a prefix |
| Lists.ExtendAppends | kivy/uix/effectwidget.py:631-634 | what the loop appends has no repetition, and holds exactly the listed effects not already held |
| Lists.ExtendDistinct | kivy/uix/effectwidget.py:631-634 | appending only absent elements keeps a list free of repetition |
| Widget.EffectWidget.constructor | kivy/uix/effectwidget.py:526-550 | a new widget has no effects and no stages, shows its main Fbo, and holds all the chain invariants |
| Widget.EffectWidget.ReconcileCount | kivy/uix/effectwidget.py:578-591 | after the two loops there is one stage per effect; surviving stages keep their places; new stages are fresh, have the widget's size and the default shader; dropped stages come off the end |
| Widget.EffectWidget.ResizeStages | kivy/uix/effectwidget.py:593-598 | the main Fbo, its rectangle, every stage and every stage's rectangle take the widget's size; the wiring is untouched |
| Widget.EffectWidget.LinkStages | kivy/uix/effectwidget.py:605-607 | each stage after the first samples the texture of the stage before it; sizes and the first stage's input are untouched |
| Widget.EffectWidget.BuildStages | kivy/uix/effectwidget.py:578-607 | one stage per effect, surviving stages kept, all sized and wired; no existing shader is touched, new ones hold the default source; nothing changes in the list when the count already matched |
| Widget.EffectWidget.AttachStage | kivy/uix/effectwidget.py:610-611 | effect i gets stage i; an effect that moves there and succeeds leaves its assembled shader on that stage; no other effect and no other stage's shader changes, and no effect's body or parameters; a failure means the effect's assembled shader does not compile, and that stage keeps its previous source; an effect already on that stage causes no reinstall |
| Widget.EffectWidget.AssignStep | kivy/uix/effectwidget.py:610-611 | one more effect attached keeps the loop's invariant: each attached effect on the stage of its last position so far, the rest on their old Fbos, the later stages with their old sources and, without repeated effects, each attached stage holding its effect's shader unless the effect was already there; a failure is a compile failure of this effect's shader, with this effect on its stage, every effect up to it on the stage of its last position so far, and this and every later stage unchanged; an effect already on this stage causes no reinstall |
| Widget.EffectWidget.AssignLoop | kivy/uix/effectwidget.py:609-613 | the whole loop ends with the invariant at the end of the list, or stops at an effect k whose shader does not compile, with every effect up to k on the stage of its last position so far and stage k and every later stage unchanged; effects already placed, none repeated, reinstall nothing |
| Widget.EffectWidget.AssignEffectFbos | kivy/uix/effectwidget.py:609-613 | on success each effect is on the stage at its last position in the list and, when no effect is listed twice, each stage holds its effect's assembled shader, or its previous source if the effect was already on it; no body or parameter changes; a failure names a stage k whose effect's shader does not compile, every effect up to k is on the stage of its last position so far, and stage k and all later stages keep their previous shader sources; if every shader compiles the loop succeeds; if the effects were already placed and no effect is listed twice, nothing is reinstalled |
| Widget.EffectWidget.ShowLastStage | kivy/uix/effectwidget.py:615-616 | the first stage samples the main Fbo and the widget shows the last stage's texture, which completes the chain |
| Widget.EffectWidget.ChainStages | kivy/uix/effectwidget.py:609-616 | with at least one stage: success leaves the whole chain reconciled and, when no effect is listed twice, each stage holding its effect's assembled shader unless the effect was already on it; no body or parameter changes; a failure leaves the displayed texture as it was; if every shader compiles the call succeeds; an already chained widget with no effect listed twice is left as it was |
| Widget.EffectWidget.RefreshFboSetup | kivy/uix/effectwidget.py:577-616 | one stage per effect, surviving stages in place, new ones fresh; all sized like the widget and wired in order; no body or parameter changes; on success each effect is on its stage and the widget shows the last stage's texture (the main Fbo's when there are no effects); a failure keeps the displayed texture; if every shader compiles the call succeeds; an already reconciled widget with no effect listed twice is left as it was (idempotence) |
| Widget.EffectWidget.OnSize | kivy/uix/effectwidget.py:556-559 | the main Fbo and every stage take the widget's size; there is one stage per effect, surviving stages in place and new ones fresh, even on failure; the stages are wired in order; the bound effects and every effect's body and parameters stay; on success the chain is reconciled, a failure keeps the displayed texture, and if every shader compiles the call succeeds |
| Widget.EffectWidget.SetSize | kivy/uix/effectwidget.py:556-559 | assigning the current size changes nothing at all (widget, stages, shaders, effects); a new size is stored and the chain is rebuilt at that size, one stage per effect, wired in order, surviving stages in place and new ones fresh; the bound effects and every effect's body and parameters stay; a failure keeps the displayed texture; if every shader compiles the call succeeds |
| Widget.EffectWidget.SetEffects | kivy/uix/effectwidget.py:570-571 | assigning the current list changes nothing at all (widget, stages, shaders, effects); a new list is stored and the chain is rebuilt with one stage per effect, wired in order, surviving stages in place and new ones fresh; the bound effects and every effect's body and parameters stay; a failure keeps the displayed texture; if every shader compiles the call succeeds |
| Widget.EffectWidget.OnFs | kivy/uix/effectwidget.py:636-643 | the canvas shader takes the new source, or keeps the previous one and raises `Exception('failed')` |
| Widget.EffectWidget.Unlisted | kivy/uix/effectwidget.py:624-626 | the loop collects exactly `Without(bound, listed)` |
| Widget.EffectWidget.StillListed | kivy/uix/effectwidget.py:628-629 | the comprehension yields exactly `Within(bound, listed)` |
| Widget.EffectWidget.BindNew | kivy/uix/effectwidget.py:631-634 | the loop ends with `Extend(kept, listed)`, which is the kept list followed by exactly the effects it binds |
| Widget.EffectWidget.UpdateGlslBindings | kivy/uix/effectwidget.py:618-634 | returns the effects it unbinds, the ones it binds and its local list, each as the list functions above; `boundEffects` is unchanged |
| Widget.GlslBindingsChange | kivy/uix/effectwidget.py:618-634 | it unbinds exactly the bound effects no longer listed; it binds exactly the listed effects not yet bound, each once; its local list holds exactly the listed effects |
| Widget.GlslBindingsDistinct | kivy/uix/effectwidget.py:618-634 | without repetitions among the bound effects, neither the unbound list nor the local list has any |

## Left out

- GLSL bodies of the fixed effects (monochrome, invert, scanlines, FXAA, plasma, red/green/blue) are opaque text; a fixed-body effect is `Effect(body)`. Only the templates the generators fill are spelled out.
- Shader compilation is a foreign call into the GPU driver. It is the parameter `compiles`. Float-to-text conversion is the parameter `render`.
- The framework's default shader program is written as the empty source, and assumed to compile.
- `update_glsl` and `update_fbos` (clock-driven uniform uploads and redraw requests), `EffectFromFile.on_source` (file I/O), `on_pos` (a translation), and the window and clock set-up in `__init__` are not modelled.
- `add_widget`, `remove_widget` and `clear_widgets` are not modelled: they redirect child canvases.
- `MixEffect` (kivy/uix/effectwidget.py:352-356) has no member of its own: it is the fixed-body `Effect(body)` whose body is the unformatted `effect_mix` template, braces included.
- The first definitions of `MonochromeEffect`, `InvertEffect`, `ScanlinesEffect` and `PixelateEffect` (kivy/uix/effectwidget.py:338-380) are shadowed by the later ones (kivy/uix/effectwidget.py:396-450), which are the ones modelled.
- `canvas.remove` of a dropped stage is not modelled: the model keeps no canvas tree. The `Color` instructions are also not modelled.
- The rectangles are folded into their owners: a stage's into the `EffectFbo` (`rectSize`, `rectTexture`), and the main Fbo's clearing rectangle into the widget (`fboRectangleSize`).
- The widget's `fs` property value is not stored; only its effect on the canvas shader is.
- Kivy's event dispatch is modelled as explicit calls, so the binding side effects of `bind`/`unbind` are not. `UpdateGlslBindings` returns the lists it would bind and unbind instead.
- Widget.EffectWidget.RefreshFboSetup: on a failure it states only that the displayed texture is unchanged and that there is at least one effect. `AssignEffectFbos` states which stage failed and that it and all later stages keep their shader sources; `BuildStages` states that sizing and wiring leave every shader alone.
- Widget.EffectWidget.ChainStages: on a failure it states only that the displayed texture is unchanged, for the same reason.
- Widget.EffectWidget.AssignEffectFbos: which source each stage holds after a success is stated only when no effect is listed twice. With a repeated effect, whether a stage is reinstalled depends on the Fbo the effect held at its previous position in the list rather than before the loop, which the contract does not track; `AttachStage` still states it per step.
- Widget.EffectWidget.ChainStages: the stages' sources after a success are stated against the stages as `BuildStages` left them, and only when no effect is listed twice, as for `AssignEffectFbos`.
- Widget.EffectWidget.RefreshFboSetup: does not state which source each stage's shader holds after a success. Carrying the `ChainStages` statement back across the resizing of the stage list, where new stages are fresh, is beyond the proof budget of the model; `BuildStages` and `ChainStages` state its two halves.
- Gpu.Shader.Replace: `success` after a rollback is stated as the compile result of the restored source, not as equal to its value before the call.
