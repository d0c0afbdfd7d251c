/**
 * EffectWidget: the widget draws its children into a main Fbo, then passes the result through one
 * EffectFbo per effect, each sampling the texture of the stage before it; the widget shows the
 * texture of the last stage. The main Fbo and its clearing rectangle are folded into the widget
 * (`fboTexture`, `fboSize`, `fboRectangleSize`).
 */
module Widget {
  import opened Outcomes
  import opened Lists
  import opened Shaders
  import opened Gpu
  import opened Effects

  class EffectWidget {
    var size: Size
    /** The texture of the main Fbo that the children are drawn into. */
    const fboTexture: Texture
    var fboSize: Size
    var fboRectangleSize: Size
    /** One EffectFbo per effect, in drawing order. */
    var fboList: seq<EffectFbo>
    var effects: seq<Effect>
    /** The texture the widget displays: the output of the last stage. */
    var texture: Texture?
    /** `_bound_effects`: the effects whose glsl the widget has bound to. */
    var boundEffects: seq<Effect>
    /** The shader of the widget's own render context. */
    const canvasShader: Shader

    ghost function StageShaders(): set<Shader>
      reads this
    {
      ShadersOf(fboList)
    }

    /** Every stage is its own Fbo with its own shader. */
    ghost predicate Valid()
      reads this
    {
      && Distinct(fboList)
      && (forall i, j | 0 <= i < j < |fboList| :: fboList[i].shader != fboList[j].shader)
    }

    /** The main Fbo, its rectangle, every stage and every stage's rectangle have the widget's size. */
    ghost predicate StagesSized()
      reads this, fboList
    {
      && fboSize == size && fboRectangleSize == size
      && forall i | 0 <= i < |fboList| :: fboList[i].size == size && fboList[i].rectSize == size
    }

    /** Each stage after the first samples the texture of the stage before it. */
    ghost predicate StagesLinked()
      reads this, fboList
    {
      forall i | 1 <= i < |fboList| :: fboList[i].rectTexture == fboList[i - 1].texture
    }

    /**
     * The chain: the first stage samples the main Fbo, each later stage the one before, and the
     * widget shows the last stage's texture, or the main Fbo's when there are no effects.
     */
    ghost predicate StagesChained()
      reads this, fboList
    {
      && StagesLinked()
      && (|fboList| == 0 ==> texture == fboTexture)
      && (|fboList| > 0 ==> fboList[0].rectTexture == fboTexture && texture == fboList[|fboList| - 1].texture)
    }

    /** Every effect draws into the stage at its position (its last position, if it is listed twice). */
    ghost predicate EffectsAtStages()
      reads this, effects
    {
      AtStages(effects, fboList)
    }

    /** The state refresh_fbo_setup establishes when no shader fails. */
    ghost predicate Reconciled()
      reads this, fboList, effects
    {
      |fboList| == |effects| && StagesSized() && StagesChained() && EffectsAtStages()
    }

    /** A new widget with no effects, showing its main Fbo. */
    constructor (size0: Size)
      ensures size == size0 && effects == [] && fboList == [] && boundEffects == []
      ensures texture == fboTexture && fboSize == size0 && fboRectangleSize == size0
      ensures fresh(canvasShader) && canvasShader.fs == "" && canvasShader.success
      ensures Valid() && Reconciled()
    {
      size := size0;
      fboTexture := new Texture();
      fboSize := size0;
      fboRectangleSize := size0;
      fboList := [];
      effects := [];
      texture := null;
      boundEffects := [];
      canvasShader := new Shader.Default();
      new;
      // With no effects there is no stage and no shader to compile, so any compiler will do.
      var _ := RefreshFboSetup(s => true);
    }

    /** The first loops of refresh_fbo_setup: add fresh Fbos, or drop the last ones, until there is one per effect. */
    method ReconcileCount()
      requires Valid()
      modifies this
      ensures Valid() && |fboList| == |effects|
      ensures size == old(size) && effects == old(effects) && texture == old(texture)
      ensures fboSize == old(fboSize) && fboRectangleSize == old(fboRectangleSize)
      ensures boundEffects == old(boundEffects)
      ensures |fboList| <= |old(fboList)| ==> fboList == old(fboList)[..|fboList|]
      ensures |fboList| > |old(fboList)| ==> fboList[..|old(fboList)|] == old(fboList)
      ensures forall i | |old(fboList)| <= i < |fboList| ::
        && fresh(fboList[i]) && fresh(fboList[i].shader)
        && fboList[i].size == size && fboList[i].rectSize == size && fboList[i].rectTexture == null
        && fboList[i].shader.fs == "" && fboList[i].shader.success
    {
      while |fboList| < |effects|
        invariant Valid() && size == old(size) && effects == old(effects) && texture == old(texture)
        invariant fboSize == old(fboSize) && fboRectangleSize == old(fboRectangleSize)
        invariant boundEffects == old(boundEffects)
        invariant |fboList| >= |old(fboList)| && fboList[..|old(fboList)|] == old(fboList)
        invariant |fboList| == |old(fboList)| || |fboList| <= |effects|
        invariant forall i | |old(fboList)| <= i < |fboList| ::
          && fresh(fboList[i]) && fresh(fboList[i].shader)
          && fboList[i].size == size && fboList[i].rectSize == size && fboList[i].rectTexture == null
          && fboList[i].shader.fs == "" && fboList[i].shader.success
        decreases |effects| - |fboList|
      {
        var f := new EffectFbo(size);
        fboList := fboList + [f];
      }
      ghost var grown := fboList;
      while |fboList| > |effects|
        invariant Valid() && size == old(size) && effects == old(effects) && texture == old(texture)
        invariant fboSize == old(fboSize) && fboRectangleSize == old(fboRectangleSize)
        invariant boundEffects == old(boundEffects)
        invariant |effects| <= |fboList| <= |grown| && fboList == grown[..|fboList|]
        invariant forall i | |old(fboList)| <= i < |fboList| ::
          && fresh(fboList[i]) && fresh(fboList[i].shader)
          && fboList[i].size == size && fboList[i].rectSize == size && fboList[i].rectTexture == null
          && fboList[i].shader.fs == "" && fboList[i].shader.success
        decreases |fboList|
      {
        fboList := fboList[..|fboList| - 1];
      }
    }

    /** The resizing loop of refresh_fbo_setup: the main Fbo, its rectangle and every stage take the widget's size. */
    method ResizeStages()
      modifies this, fboList
      ensures StagesSized()
      ensures size == old(size) && effects == old(effects) && fboList == old(fboList)
      ensures texture == old(texture) && boundEffects == old(boundEffects)
      ensures forall i | 0 <= i < |fboList| :: fboList[i].rectTexture == old(fboList[i].rectTexture)
    {
      fboSize := size;
      fboRectangleSize := size;
      var i := 0;
      while i < |fboList|
        invariant 0 <= i <= |fboList|
        invariant fboSize == size && fboRectangleSize == size
        invariant size == old(size) && effects == old(effects) && fboList == old(fboList)
        invariant texture == old(texture) && boundEffects == old(boundEffects)
        invariant forall j | 0 <= j < i :: fboList[j].size == size && fboList[j].rectSize == size
        invariant forall j | 0 <= j < |fboList| :: fboList[j].rectTexture == old(fboList[j].rectTexture)
      {
        fboList[i].size := size;
        fboList[i].rectSize := size;
        i := i + 1;
      }
    }

    /** The wiring loop of refresh_fbo_setup: each stage after the first samples the one before it. */
    method LinkStages()
      requires Valid()
      modifies fboList
      ensures StagesLinked()
      ensures |fboList| > 0 ==> fboList[0].rectTexture == old(fboList[0].rectTexture)
      ensures forall i | 0 <= i < |fboList| :: fboList[i].size == old(fboList[i].size) && fboList[i].rectSize == old(fboList[i].rectSize)
    {
      var i := 1;
      while i < |fboList|
        invariant 1 <= i <= |fboList| || |fboList| == 0
        invariant forall j | 1 <= j < i && j < |fboList| :: fboList[j].rectTexture == fboList[j - 1].texture
        invariant |fboList| > 0 ==> fboList[0].rectTexture == old(fboList[0].rectTexture)
        invariant forall j | 0 <= j < |fboList| :: fboList[j].size == old(fboList[j].size) && fboList[j].rectSize == old(fboList[j].rectSize)
      {
        fboList[i].rectTexture := fboList[i - 1].texture;
        i := i + 1;
      }
    }

    /**
     * Effect `i` is given stage `i`, and when that changes its Fbo it installs its assembled shader
     * there; the only exception is a compile failure of that shader, and no other effect and no
     * other stage's shader changes.
     */
    static method AttachStage(effects: seq<Effect>, stages: seq<EffectFbo>, i: nat, compiles: string -> bool) returns (r: Outcome)
      requires i < |stages| == |effects|
      requires forall a, b | 0 <= a < b < |stages| :: stages[a].shader != stages[b].shader
      modifies effects[i], stages[i].shader
      ensures effects[i].fbo == stages[i]
      ensures forall j | 0 <= j < |effects| ::
        effects[j].glsl == old(effects[j].glsl) && effects[j].params == old(effects[j].params)
      ensures forall j | 0 <= j < |effects| && effects[j] != effects[i] :: effects[j].fbo == old(effects[j].fbo)
      ensures forall m | 0 <= m < |stages| && m != i :: stages[m].shader.fs == old(stages[m].shader.fs)
      ensures r == Success || r == Raised(CompileFailure)
      ensures r != Success ==> !compiles(FullSource(effects[i].glsl)) && stages[i].shader.fs == old(stages[i].shader.fs)
      ensures old(effects[i].fbo) == stages[i] ==> r == Success && unchanged(stages[i].shader)
      ensures r == Success && old(effects[i].fbo) != stages[i] ==> stages[i].shader.fs == FullSource(effects[i].glsl)
    {
      r := effects[i].SetFbo(stages[i], compiles);
      forall m | 0 <= m < |stages| && m != i ensures stages[m].shader.fs == old(stages[m].shader.fs) {
        if m < i {
          assert stages[m].shader != stages[i].shader;
        } else {
          assert stages[i].shader != stages[m].shader;
        }
      }
    }

    /**
     * One step of the `zip` loop: after the first `i + 1` effects have been given their stages,
     * every effect is on the stage of its last position among them, every other effect still has
     * the Fbo `fbo0` gave it, the stages from `i + 1` on still hold the sources `fs0`, and, when no
     * effect is listed twice, each of the first `i + 1` stages holds its effect's shader unless the
     * effect was already on it.
     */
    static method AssignStep(effects: seq<Effect>, stages: seq<EffectFbo>, i: nat, compiles: string -> bool,
                             ghost fbo0: seq<EffectFbo?>, ghost fs0: seq<string>) returns (r: Outcome)
      requires i < |effects|
      requires forall a, b | 0 <= a < b < |stages| :: stages[a].shader != stages[b].shader
      requires AssignedUpTo(effects, stages, i, fbo0, fs0)
      modifies effects[i], stages[i].shader
      ensures forall j | 0 <= j < |effects| ::
        effects[j].glsl == old(effects[j].glsl) && effects[j].params == old(effects[j].params)
      ensures r == Success || r == Raised(CompileFailure)
      ensures r == Success ==> AssignedUpTo(effects, stages, i + 1, fbo0, fs0)
      ensures r != Success ==> StoppedAt(effects, stages, i, compiles, fs0)
      ensures old(effects[i].fbo) == stages[i] ==> r == Success && unchanged(stages[i].shader)
      ensures Distinct(effects) && fbo0[i] == stages[i] ==> r == Success && unchanged(stages[i].shader)
    {
      assert Distinct(effects) ==> AbsentBefore(effects, i, i);
      r := AttachStage(effects, stages, i, compiles);
      forall j | LastBefore(effects, j, i + 1) ensures effects[j].fbo == stages[j] {
        if j < i {
          assert LastBefore(effects, j, i) && effects[j] != effects[i];
        } else {
          assert j == i;
        }
      }
      if r != Success {
        return;
      }
    }

    /**
     * The `zip(self.effects, self.fbo_list)` loop of refresh_fbo_setup, against the Fbos `fbo0`
     * and the sources `fs0` the effects and stages had before it: each effect is given the stage at
     * its position, and the first shader that fails to compile aborts the loop.
     */
    static method AssignLoop(effects: seq<Effect>, stages: seq<EffectFbo>, compiles: string -> bool,
                             ghost fbo0: seq<EffectFbo?>, ghost fs0: seq<string>) returns (r: Outcome)
      requires forall a, b | 0 <= a < b < |stages| :: stages[a].shader != stages[b].shader
      requires AssignedUpTo(effects, stages, 0, fbo0, fs0)
      modifies effects, ShadersOf(stages)
      ensures forall j | 0 <= j < |effects| ::
        effects[j].glsl == old(effects[j].glsl) && effects[j].params == old(effects[j].params)
      ensures r == Success || r == Raised(CompileFailure)
      ensures r == Success ==> AssignedUpTo(effects, stages, |effects|, fbo0, fs0)
      ensures r != Success ==> exists k :: StoppedAt(effects, stages, k, compiles, fs0)
      ensures (forall j | 0 <= j < |effects| :: fbo0[j] == stages[j]) && Distinct(effects) ==>
        r == Success && unchanged(ShadersOf(stages))
    {
      ghost var settled := (forall j | 0 <= j < |effects| :: fbo0[j] == stages[j]) && Distinct(effects);
      var i := 0;
      while i < |effects|
        invariant 0 <= i <= |effects|
        invariant forall j | 0 <= j < |effects| ::
          effects[j].glsl == old(effects[j].glsl) && effects[j].params == old(effects[j].params)
        invariant AssignedUpTo(effects, stages, i, fbo0, fs0)
        invariant settled ==> forall m | 0 <= m < |stages| :: unchanged(stages[m].shader)
      {
        r := AssignStep(effects, stages, i, compiles, fbo0, fs0);
        if r != Success {
          return;
        }
        i := i + 1;
      }
      r := Success;
    }

    /**
     * The `zip(self.effects, self.fbo_list)` loop of refresh_fbo_setup: each effect is given the
     * stage at its position. An effect whose Fbo changes installs its shader there, and the first
     * shader that fails to compile aborts the loop with its exception. When no effect is listed
     * twice, each stage ends up holding its effect's shader, or its previous source if the effect
     * was already on it.
     */
    static method AssignEffectFbos(effects: seq<Effect>, stages: seq<EffectFbo>, compiles: string -> bool) returns (r: Outcome)
      requires |stages| == |effects|
      requires forall a, b | 0 <= a < b < |stages| :: stages[a].shader != stages[b].shader
      modifies effects, ShadersOf(stages)
      ensures r == Success || r == Raised(CompileFailure)
      ensures forall j | 0 <= j < |effects| ::
        effects[j].glsl == old(effects[j].glsl) && effects[j].params == old(effects[j].params)
      ensures r == Success ==> AtStages(effects, stages)
      ensures r == Success && Distinct(effects) ==>
        forall j | 0 <= j < |stages| ::
          stages[j].shader.fs == if old(effects[j].fbo) != stages[j] then FullSource(effects[j].glsl) else old(stages[j].shader.fs)
      ensures (forall i | 0 <= i < |effects| :: compiles(FullSource(effects[i].glsl))) ==> r == Success
      ensures r != Success ==> exists k | 0 <= k < |effects| ::
        && effects[k].fbo == stages[k] && !compiles(FullSource(effects[k].glsl))
        && (forall m | k <= m < |stages| :: stages[m].shader.fs == old(stages[m].shader.fs))
        && (forall j | LastBefore(effects, j, k + 1) :: effects[j].fbo == stages[j])
      ensures old(AtStages(effects, stages)) && Distinct(effects) ==>
        r == Success && unchanged(ShadersOf(stages))
    {
      ghost var fbo0 := seq(|effects|, j requires 0 <= j < |effects| reads effects => effects[j].fbo);
      ghost var fs0 := seq(|stages|, m requires 0 <= m < |stages| reads ShadersOf(stages) => stages[m].shader.fs);
      assert AssignedUpTo(effects, stages, 0, fbo0, fs0);
      if AtStages(effects, stages) && Distinct(effects) {
        DistinctAllLast(effects);
      }
      r := AssignLoop(effects, stages, compiles, fbo0, fs0);
    }

    /** The first three loops of refresh_fbo_setup: one stage per effect, all sized, each after the first wired to the one before. */
    method BuildStages()
      requires Valid()
      modifies this, fboList
      ensures Valid() && |fboList| == |effects|
      ensures size == old(size) && effects == old(effects) && boundEffects == old(boundEffects) && texture == old(texture)
      ensures forall i | 0 <= i < |fboList| && i < |old(fboList)| :: fboList[i] == old(fboList)[i]
      ensures forall i | |old(fboList)| <= i < |fboList| :: fresh(fboList[i]) && fresh(fboList[i].shader)
      ensures old(|fboList|) == |effects| ==> fboList == old(fboList)
      ensures old(|fboList|) == |effects| && |fboList| > 0 ==> fboList[0].rectTexture == old(fboList[0].rectTexture)
      ensures forall i | 0 <= i < |fboList| ::
        fboList[i].shader.fs == if i < |old(fboList)| then old(fboList[i].shader.fs) else ""
      ensures StagesSized() && StagesLinked()
    {
      ReconcileCount();
      ResizeStages();
      LinkStages();
    }

    /** The last two lines of refresh_fbo_setup: the first stage samples the main Fbo, the widget shows the last stage. */
    method ShowLastStage()
      requires Valid() && 0 < |fboList| == |effects|
      requires StagesSized() && StagesLinked() && EffectsAtStages()
      modifies this, fboList[0]
      ensures fboList == old(fboList) && size == old(size) && effects == old(effects) && boundEffects == old(boundEffects)
      ensures Valid() && Reconciled() && texture == fboList[|fboList| - 1].texture
      ensures old(StagesChained()) ==> texture == old(texture)
      ensures unchanged(StageShaders()) && unchanged(effects)
      ensures forall j | 0 <= j < |fboList| :: fboList[j].shader.fs == old(fboList[j].shader.fs)
    {
      fboList[0].rectTexture := fboTexture;
      texture := fboList[|fboList| - 1].texture;
    }

    /**
     * The rest of refresh_fbo_setup once there is at least one stage: the effects take their
     * stages, then the first stage samples the main Fbo and the widget shows the last stage.
     */
    method ChainStages(compiles: string -> bool) returns (r: Outcome)
      requires Valid() && 0 < |fboList| == |effects|
      requires StagesSized() && StagesLinked()
      modifies this, fboList, StageShaders(), effects
      ensures Valid() && fboList == old(fboList) && size == old(size) && effects == old(effects)
      ensures boundEffects == old(boundEffects)
      ensures StagesSized() && StagesLinked()
      ensures r == Success || r == Raised(CompileFailure)
      ensures forall j | 0 <= j < |effects| ::
        effects[j].glsl == old(effects[j].glsl) && effects[j].params == old(effects[j].params)
      ensures r == Success ==> Reconciled()
      ensures r == Success && Distinct(effects) ==>
        forall j | 0 <= j < |fboList| ::
          fboList[j].shader.fs == if old(effects[j].fbo) != fboList[j] then FullSource(effects[j].glsl) else old(fboList[j].shader.fs)
      ensures r != Success ==> texture == old(texture)
      ensures (forall i | 0 <= i < |effects| :: compiles(FullSource(effects[i].glsl))) ==> r == Success
      ensures old(EffectsAtStages() && StagesChained()) && Distinct(effects) ==>
        r == Success && texture == old(texture) && unchanged(StageShaders())
    {
      var es, st := effects, fboList;
      r := AssignEffectFbos(es, st, compiles);
      assert unchanged(this) && unchanged(fboList);
      assert Valid() && StagesSized() && StagesLinked();
      if r != Success {
        return;
      }
      ShowLastStage();
    }

    /**
     * EffectWidget.refresh_fbo_setup: one stage per effect (surviving stages kept in place, new
     * ones fresh), every stage sized like the widget, the stages chained, each effect given its
     * stage, the widget showing the last stage's texture. A shader that fails to compile aborts
     * the refresh after the sizing and the wiring of later stages, before the first stage and the
     * displayed texture are updated.
     */
    method RefreshFboSetup(compiles: string -> bool) returns (r: Outcome)
      requires Valid()
      modifies this, fboList, StageShaders(), effects
      ensures Valid() && |fboList| == |effects|
      ensures size == old(size) && effects == old(effects) && boundEffects == old(boundEffects)
      ensures forall i | 0 <= i < |fboList| && i < |old(fboList)| :: fboList[i] == old(fboList)[i]
      ensures forall i | |old(fboList)| <= i < |fboList| :: fresh(fboList[i]) && fresh(fboList[i].shader)
      ensures StagesSized() && StagesLinked()
      ensures r == Success || r == Raised(CompileFailure)
      ensures forall e | e in effects :: e.glsl == old(e.glsl) && e.params == old(e.params)
      ensures r == Success ==> Reconciled()
      ensures r != Success ==> texture == old(texture) && |effects| > 0
      ensures (forall e | e in effects :: compiles(FullSource(e.glsl))) ==> r == Success
      ensures old(Reconciled()) && Distinct(effects) ==>
        r == Success && fboList == old(fboList) && texture == old(texture) && unchanged(StageShaders())
    {
      ghost var settled := Reconciled() && Distinct(effects);
      BuildStages();
      if |fboList| == 0 {
        texture := fboTexture;
        r := Success;
        return;
      }
      assert settled ==> Reconciled();
      r := ChainStages(compiles);
    }

    /** EffectWidget.on_size: the main Fbo and its rectangle follow the new size, then the chain is rebuilt. */
    method OnSize(compiles: string -> bool) returns (r: Outcome)
      requires Valid()
      modifies this, fboList, StageShaders(), effects
      ensures Valid() && size == old(size) && effects == old(effects) && boundEffects == old(boundEffects)
      ensures |fboList| == |effects|
      ensures forall i | 0 <= i < |fboList| && i < |old(fboList)| :: fboList[i] == old(fboList)[i]
      ensures forall i | |old(fboList)| <= i < |fboList| :: fresh(fboList[i]) && fresh(fboList[i].shader)
      ensures forall e | e in effects :: e.glsl == old(e.glsl) && e.params == old(e.params)
      ensures r == Success || r == Raised(CompileFailure)
      ensures r == Success ==> Reconciled()
      ensures r != Success ==> texture == old(texture)
      ensures (forall e | e in effects :: compiles(FullSource(e.glsl))) ==> r == Success
      ensures StagesSized() && StagesLinked()
    {
      fboSize := size;
      fboRectangleSize := size;
      r := RefreshFboSetup(compiles);
    }

    /** Assigning `size`: an actual change dispatches on_size. */
    method SetSize(value: Size, compiles: string -> bool) returns (r: Outcome)
      requires Valid()
      modifies this, fboList, StageShaders(), effects
      ensures Valid() && size == value && effects == old(effects) && boundEffects == old(boundEffects)
      ensures value == old(size) ==>
        r == Success && unchanged(this) && unchanged(fboList) && unchanged(StageShaders()) && unchanged(effects)
      ensures forall i | 0 <= i < |fboList| && i < |old(fboList)| :: fboList[i] == old(fboList)[i]
      ensures forall i | |old(fboList)| <= i < |fboList| :: fresh(fboList[i]) && fresh(fboList[i].shader)
      ensures forall e | e in effects :: e.glsl == old(e.glsl) && e.params == old(e.params)
      ensures r == Success || r == Raised(CompileFailure)
      ensures value != old(size) ==> |fboList| == |effects|
      ensures value != old(size) && r == Success ==> Reconciled()
      ensures value != old(size) ==> StagesSized() && StagesLinked()
      ensures r != Success ==> texture == old(texture)
      ensures (forall e | e in effects :: compiles(FullSource(e.glsl))) ==> r == Success
    {
      if value == size {
        r := Success;
        return;
      }
      size := value;
      r := OnSize(compiles);
    }

    /** Assigning `effects`: an actual change dispatches on_effects, which rebuilds the chain. */
    method SetEffects(value: seq<Effect>, compiles: string -> bool) returns (r: Outcome)
      requires Valid()
      modifies this, fboList, StageShaders(), value
      ensures Valid() && effects == value && size == old(size) && boundEffects == old(boundEffects)
      ensures value == old(effects) ==>
        r == Success && unchanged(this) && unchanged(fboList) && unchanged(StageShaders()) && unchanged(value)
      ensures forall i | 0 <= i < |fboList| && i < |old(fboList)| :: fboList[i] == old(fboList)[i]
      ensures forall i | |old(fboList)| <= i < |fboList| :: fresh(fboList[i]) && fresh(fboList[i].shader)
      ensures forall e | e in value :: e.glsl == old(e.glsl) && e.params == old(e.params)
      ensures r == Success || r == Raised(CompileFailure)
      ensures value != old(effects) ==> |fboList| == |value| && StagesSized() && StagesLinked()
      ensures value != old(effects) && r == Success ==> Reconciled()
      ensures r != Success ==> texture == old(texture)
      ensures (forall e | e in value :: compiles(FullSource(e.glsl))) ==> r == Success
    {
      if value == effects {
        r := Success;
        return;
      }
      effects := value;
      r := RefreshFboSetup(compiles);
    }

    /** EffectWidget.on_fs: the widget's own shader takes the new source, or keeps the old one and raises. */
    method OnFs(value: string, compiles: string -> bool) returns (r: Outcome)
      modifies canvasShader
      ensures Replaced(canvasShader, old(canvasShader.fs), value, compiles, r)
    {
      r := canvasShader.Replace(value, compiles);
    }

    /** The first loop of _update_glsl_bindings: the bound effects that are no longer listed, in order. */
    static method Unlisted(bound: seq<Effect>, listed: seq<Effect>) returns (unbound: seq<Effect>)
      ensures unbound == Without(bound, listed)
    {
      unbound := [];
      var i := 0;
      while i < |bound|
        invariant 0 <= i <= |bound|
        invariant unbound == Without(bound[..i], listed)
      {
        assert bound[..i + 1][..i] == bound[..i];
        if bound[i] !in listed {
          unbound := unbound + [bound[i]];
        }
        i := i + 1;
      }
      assert bound[..i] == bound;
    }

    /** The filtering of _update_glsl_bindings: the bound effects that are still listed, in order. */
    static method StillListed(bound: seq<Effect>, listed: seq<Effect>) returns (kept: seq<Effect>)
      ensures kept == Within(bound, listed)
    {
      kept := [];
      var i := 0;
      while i < |bound|
        invariant 0 <= i <= |bound|
        invariant kept == Within(bound[..i], listed)
      {
        assert bound[..i + 1][..i] == bound[..i];
        if bound[i] in listed {
          kept := kept + [bound[i]];
        }
        i := i + 1;
      }
      assert bound[..i] == bound;
    }

    /** The last loop of _update_glsl_bindings: every listed effect not held yet is appended and bound. */
    static method BindNew(kept: seq<Effect>, listed: seq<Effect>) returns (bound: seq<Effect>, local: seq<Effect>)
      ensures local == Extend(kept, listed)
      ensures local == kept + bound
    {
      local := kept;
      bound := [];
      var i := 0;
      while i < |listed|
        invariant 0 <= i <= |listed|
        invariant local == Extend(kept, listed[..i]) && local == kept + bound
      {
        assert listed[..i + 1][..i] == listed[..i];
        if listed[i] !in local {
          local := local + [listed[i]];
          bound := bound + [listed[i]];
        }
        i := i + 1;
      }
      assert listed[..i] == listed;
    }

    /**
     * EffectWidget._update_glsl_bindings: the bound effects no longer listed are unbound, then
     * every listed effect not yet bound is bound. The filtered list is a new local list, so
     * `boundEffects` itself is never updated; the method returns what it unbinds, what it binds
     * and the local list it ends with.
     */
    method UpdateGlslBindings() returns (unbound: seq<Effect>, bound: seq<Effect>, local: seq<Effect>)
      ensures unbound == Without(boundEffects, effects)
      ensures local == Extend(Within(boundEffects, effects), effects)
      ensures local == Within(boundEffects, effects) + bound
    {
      unbound := Unlisted(boundEffects, effects);
      var kept := StillListed(boundEffects, effects);
      bound, local := BindNew(kept, effects);
    }
  }

  /** The shaders of the given stages. */
  ghost function ShadersOf(stages: seq<EffectFbo>): set<Shader> {
    set i | 0 <= i < |stages| :: stages[i].shader
  }

  /** Each effect draws into the stage at the same position (at its last position, if listed twice). */
  ghost predicate AtStages(effects: seq<Effect>, stages: seq<EffectFbo>)
    reads effects
  {
    |stages| == |effects| && forall i | LastBefore(effects, i, |effects|) :: effects[i].fbo == stages[i]
  }

  /**
   * The state of the `zip` loop of refresh_fbo_setup after `i` steps, measured against the Fbos
   * `fbo0` of the effects and the sources `fs0` of the stages before the loop.
   */
  /**
   * The state the `zip` loop leaves when effect `k`'s shader fails to compile: effect `k` is on
   * stage `k`, every effect up to `k` is on the stage of its last position so far, and stage `k`
   * and the later stages still hold the sources `fs0`.
   */
  ghost predicate StoppedAt(effects: seq<Effect>, stages: seq<EffectFbo>, k: int, compiles: string -> bool, fs0: seq<string>)
    reads effects, ShadersOf(stages)
  {
    && 0 <= k < |effects| == |stages| == |fs0|
    && effects[k].fbo == stages[k] && !compiles(FullSource(effects[k].glsl))
    && (forall m | k <= m < |stages| :: stages[m].shader.fs == fs0[m])
    && (forall j | LastBefore(effects, j, k + 1) :: effects[j].fbo == stages[j])
  }

  ghost predicate AssignedUpTo(effects: seq<Effect>, stages: seq<EffectFbo>, i: int, fbo0: seq<EffectFbo?>, fs0: seq<string>)
    reads effects, ShadersOf(stages)
  {
    && 0 <= i <= |effects| == |stages| == |fbo0| == |fs0|
    && (forall j | LastBefore(effects, j, i) :: effects[j].fbo == stages[j])
    && (forall j | AbsentBefore(effects, j, i) :: effects[j].fbo == fbo0[j])
    && (forall m | i <= m < |stages| :: stages[m].shader.fs == fs0[m])
    && (Distinct(effects) ==> forall m | 0 <= m < i ::
          stages[m].shader.fs == if fbo0[m] != stages[m] then FullSource(effects[m].glsl) else fs0[m])
  }

  /**
   * What _update_glsl_bindings does, stated outright: it unbinds exactly the bound effects that are
   * no longer listed and binds exactly the listed effects that were not bound, each once; its
   * local list then holds exactly the listed effects.
   */
  lemma GlslBindingsChange(boundEffects: seq<Effect>, effects: seq<Effect>)
    ensures forall e :: e in Without(boundEffects, effects) <==> e in boundEffects && e !in effects
    ensures var kept := Within(boundEffects, effects);
      var bound := Extend(kept, effects)[|kept|..];
      && Distinct(bound)
      && (forall e :: e in bound <==> e in effects && e !in boundEffects)
      && (forall e :: e in Extend(kept, effects) <==> e in effects)
  {
    var kept := Within(boundEffects, effects);
    ExtendAppends(kept, effects);
    var local := Extend(kept, effects);
    assert local == kept + local[|kept|..];
    forall e ensures e in Without(boundEffects, effects) <==> e in boundEffects && e !in effects {
      if e in boundEffects && e !in effects {
        var k :| 0 <= k < |boundEffects| && boundEffects[k] == e;
      }
    }
    forall e ensures e in kept <==> e in boundEffects && e in effects {
      if e in boundEffects && e in effects {
        var k :| 0 <= k < |boundEffects| && boundEffects[k] == e;
      }
    }
  }

  /** Without repetitions in the bound effects, neither the unbound list nor the local list has any. */
  lemma GlslBindingsDistinct(boundEffects: seq<Effect>, effects: seq<Effect>)
    requires Distinct(boundEffects)
    ensures Distinct(Without(boundEffects, effects))
    ensures Distinct(Extend(Within(boundEffects, effects), effects))
  {
    WithoutDistinct(boundEffects, effects);
    WithinDistinct(boundEffects, effects);
    ExtendDistinct(Within(boundEffects, effects), effects);
  }
}
