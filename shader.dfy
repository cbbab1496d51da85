/** ForgeShader.cpp: the reflection-driven part of shader creation. The GLSL
    compiler and the SPIR-V reflection are outside the model; their results
    (compile status, reflected stage inputs and uniform blocks) are inputs. */
module ForgeShader {
  import opened Vk
  import opened Forge

  /** FORGE_SHADER_MAX_INPUT_ATTRIBUTES and FORGE_SHADER_MAX_DYNAMIC_UNIFORM_BUFFERS. */
  const MaxInputAttributes: nat := 16
  const MaxUniforms: nat := 8

  /** FORGE_MAX_IMAGE_BINDINGS: the image slots of a description. */
  const MaxImageBindings: nat := 16

  /** The VkFormat values the reflection maps to. */
  const FormatR8G8B8A8Unorm: nat := 37
  const FormatR32Sfloat: nat := 100
  const FormatR32G32Sfloat: nat := 103
  const FormatR32G32B32Sfloat: nat := 106
  const FormatR32G32B32A32Sfloat: nat := 109

  /** VK_SHADER_STAGE_VERTEX_BIT and VK_SHADER_STAGE_FRAGMENT_BIT. */
  const StageVertexBit: bv32 := 0x1
  const StageFragmentBit: bv32 := 0x10

  /** VK_DESCRIPTOR_TYPE_UNIFORM_BUFFER_DYNAMIC. */
  const DescriptorTypeUniformBufferDynamic: nat := 8

  // ---------------------------------------------------------------------------
  // `_forge_spirv_type_vk_format` and `_forge_shader_stage_vk_stage`

  /** The part of a reflected SPIRType the format mapping looks at. */
  datatype SpirType = SpirType(isFloat: bool, vecsize: nat)

  /** How many 32-bit float components a format holds; 0 for any other format. */
  function FloatComponents(format: nat): nat {
    if format == FormatR32Sfloat then 1
    else if format == FormatR32G32Sfloat then 2
    else if format == FormatR32G32B32Sfloat then 3
    else if format == FormatR32G32B32A32Sfloat then 4
    else 0
  }

  /** `_forge_spirv_type_vk_format`: a float vector of 1 to 4 components becomes
      the float format with that many components. A float of any other width
      asserts and then, like every non-float type, falls through to
      R8G8B8A8_UNORM. */
  function SpirvTypeVkFormat(t: SpirType): (r: (nat, seq<Effect>))
    ensures r.1 == [] || r.1 == [AssertionFailed(UnsupportedFloatVecsize(t.vecsize))]
    ensures r.1 != [] <==> t.isFloat && !(1 <= t.vecsize <= 4)
    ensures FloatComponents(r.0) == if t.isFloat && 1 <= t.vecsize <= 4 then t.vecsize else 0
    ensures FloatComponents(r.0) == 0 ==> r.0 == FormatR8G8B8A8Unorm
  {
    if t.isFloat && t.vecsize == 1 then (FormatR32Sfloat, [])
    else if t.isFloat && t.vecsize == 2 then (FormatR32G32Sfloat, [])
    else if t.isFloat && t.vecsize == 3 then (FormatR32G32B32Sfloat, [])
    else if t.isFloat && t.vecsize == 4 then (FormatR32G32B32A32Sfloat, [])
    else if t.isFloat then (FormatR8G8B8A8Unorm, [AssertionFailed(UnsupportedFloatVecsize(t.vecsize))])
    else (FormatR8G8B8A8Unorm, [])
  }

  /** Float vectors of different widths get different formats. */
  lemma FloatFormatsDistinct(n: nat, m: nat)
    requires 1 <= n <= 4 && 1 <= m <= 4 && n != m
    ensures SpirvTypeVkFormat(SpirType(true, n)).0 != SpirvTypeVkFormat(SpirType(true, m)).0
  {
    assert FloatComponents(SpirvTypeVkFormat(SpirType(true, n)).0) == n;
    assert FloatComponents(SpirvTypeVkFormat(SpirType(true, m)).0) == m;
  }

  /** FORGE_SHADER_STAGE; StageCount is the enum's count entry, which the
      switch sends to its default branch. */
  datatype ShaderStage = VertexStage | FragmentStage | StageCount

  /** `_forge_shader_stage_vk_stage`. */
  function ShaderStageVkStage(stage: ShaderStage): (r: (bv32, seq<Effect>))
    ensures r.1 == [] <==> stage != StageCount
    ensures r.1 != [] ==> r == (0, [AssertionFailed(UnhandledShaderStage)])
    ensures stage == VertexStage ==> r.0 == StageVertexBit
    ensures stage == FragmentStage ==> r.0 == StageFragmentBit
  {
    match stage
    case VertexStage => (StageVertexBit, [])
    case FragmentStage => (StageFragmentBit, [])
    case StageCount => (0, [AssertionFailed(UnhandledShaderStage)])
  }

  /** The stages a mask records. The model keeps a uniform block's
      `VkShaderStageFlags` as the set of stages whose bits it holds. */
  function StageSet(stage: ShaderStage): set<ShaderStage> {
    if stage == StageCount then {} else {stage}
  }

  /** The `VkShaderStageFlags` value of a set of stages. */
  function StageFlags(stages: set<ShaderStage>): (r: bv32)
    ensures (r & StageVertexBit != 0) == (VertexStage in stages)
    ensures (r & StageFragmentBit != 0) == (FragmentStage in stages)
  {
    (if VertexStage in stages then StageVertexBit else 0) | (if FragmentStage in stages then StageFragmentBit else 0)
  }

  /** Adding a stage to the set is OR-ing its bit into the mask, which is
      what `uniform.stages |= _forge_shader_stage_vk_stage(stage)` does. */
  lemma StageFlagsAdd(stages: set<ShaderStage>, stage: ShaderStage)
    ensures StageFlags(stages + StageSet(stage)) == StageFlags(stages) | ShaderStageVkStage(stage).0
    ensures StageFlags(StageSet(stage)) == ShaderStageVkStage(stage).0
  {
    var v, f := VertexStage in stages, FragmentStage in stages;
    match stage
    case VertexStage =>
      assert VertexStage in stages + StageSet(stage);
      assert (FragmentStage in stages + StageSet(stage)) == f;
    case FragmentStage =>
      assert FragmentStage in stages + StageSet(stage);
      assert (VertexStage in stages + StageSet(stage)) == v;
    case StageCount =>
      assert stages + StageSet(stage) == stages;
  }

  // ---------------------------------------------------------------------------
  // The description

  /** `ForgeInputAttributeDescription`. */
  datatype InputAttribute = InputAttribute(name: string, location: nat, format: nat, offset: nat)

  /** `ForgeUniformBlockDescription`; a slot whose name is empty is unused. */
  datatype UniformBlock = UniformBlock(name: string, size: nat, stages: set<ShaderStage>)

  /** The layout of an image slot: its view type and whether it is a storage image. */
  datatype ImageLayout = ImageLayout(viewType: nat, storage: bool)

  /** A stage input as reflection reports it. */
  datatype ReflectedInput = ReflectedInput(binding: nat, name: string, location: nat, spirType: SpirType)

  /** A uniform buffer as reflection reports it, with its declared struct size. */
  datatype ReflectedUniform = ReflectedUniform(binding: nat, name: string, declaredSize: nat)

  /** A `VkDescriptorSetLayoutBinding` (no immutable samplers). */
  datatype DescriptorBinding = DescriptorBinding(binding: nat, descriptorType: nat, descriptorCount: nat, stageFlags: bv32)

  /** Every reflected uniform has a binding the assertion at line 122 admits. */
  predicate UniformBindingsInRange(us: seq<ReflectedUniform>) {
    forall i :: 0 <= i < |us| ==> us[i].binding < MaxUniforms
  }

  /** Every reflected input has a binding the assertion at line 149 admits. */
  predicate InputBindingsInRange(inputs: seq<ReflectedInput>) {
    forall i :: 0 <= i < |inputs| ==> inputs[i].binding < MaxInputAttributes
  }

  /** Some reflected uniform uses binding `b` (see OccursIff). */
  predicate Occurs(us: seq<ReflectedUniform>, b: nat)
    decreases |us|
  {
    us != [] && (us[|us| - 1].binding == b || Occurs(us[..|us| - 1], b))
  }

  /** Every part of a list in range is in range. */
  lemma RangeSlice(us: seq<ReflectedUniform>, lo: nat, hi: nat)
    requires UniformBindingsInRange(us) && lo <= hi <= |us|
    ensures UniformBindingsInRange(us[lo..hi])
  {
    forall i | 0 <= i < hi - lo ensures us[lo..hi][i].binding < MaxUniforms {
      assert us[lo..hi][i] == us[lo + i];
    }
  }

  /** Every prefix of a list of inputs in range is in range. */
  lemma InputRangeSlice(inputs: seq<ReflectedInput>, n: nat)
    requires InputBindingsInRange(inputs) && n <= |inputs|
    ensures InputBindingsInRange(inputs[..n])
  {
    forall i | 0 <= i < n ensures inputs[..n][i].binding < MaxInputAttributes {
      assert inputs[..n][i] == inputs[i];
    }
  }

  /** Occurs says that some element of the list has binding `b`. */
  lemma {:induction false} OccursIff(us: seq<ReflectedUniform>, b: nat)
    ensures Occurs(us, b) <==> exists i :: 0 <= i < |us| && us[i].binding == b
    decreases |us|
  {
    if us != [] {
      var us' := us[..|us| - 1];
      OccursIff(us', b);
      if Occurs(us', b) {
        var i :| 0 <= i < |us'| && us'[i].binding == b;
        assert us[i] == us'[i];
      }
      if us[|us| - 1].binding != b && exists i :: 0 <= i < |us| && us[i].binding == b {
        var i :| 0 <= i < |us| && us[i].binding == b;
        assert i < |us'| && us'[i] == us[i];
      }
    }
  }

  /** One iteration of `_forge_shader_uniform_blocks_init`: a named slot only
      gains the stage; an unused slot takes the uniform's name, its size
      (cast to 32 bits) and the stage alone. */
  function MergeBlock(block: UniformBlock, stage: ShaderStage, u: ReflectedUniform): UniformBlock {
    if block.name != "" then block.(stages := block.stages + StageSet(stage))
    else UniformBlock(u.name, u.declaredSize % U32, StageSet(stage))
  }

  /** The uniform slots after the loop has processed `us` in order. */
  function MergeUniforms(blocks: seq<UniformBlock>, stage: ShaderStage, us: seq<ReflectedUniform>): (r: seq<UniformBlock>)
    requires |blocks| == MaxUniforms && UniformBindingsInRange(us)
    ensures |r| == MaxUniforms
    decreases |us|
  {
    if us == [] then blocks
    else
      var prev := MergeUniforms(blocks, stage, us[..|us| - 1]);
      var u := us[|us| - 1];
      prev[u.binding := MergeBlock(prev[u.binding], stage, u)]
  }

  /** Processing `a` and then `c` is processing `a + c`. */
  lemma {:induction false} MergeUniformsConcat(blocks: seq<UniformBlock>, stage: ShaderStage, a: seq<ReflectedUniform>, c: seq<ReflectedUniform>)
    requires |blocks| == MaxUniforms && UniformBindingsInRange(a) && UniformBindingsInRange(c)
    ensures UniformBindingsInRange(a + c)
    ensures MergeUniforms(blocks, stage, a + c) == MergeUniforms(MergeUniforms(blocks, stage, a), stage, c)
    decreases |c|
  {
    assert UniformBindingsInRange(a + c) by {
      forall i | 0 <= i < |a + c|
        ensures (a + c)[i].binding < MaxUniforms
      {
        if i < |a| { assert (a + c)[i] == a[i]; } else { assert (a + c)[i] == c[i - |a|]; }
      }
    }
    if c == [] {
      assert a + c == a;
    } else {
      var c' := c[..|c| - 1];
      assert (a + c)[..|a + c| - 1] == a + c';
      assert (a + c)[|a + c| - 1] == c[|c| - 1];
      assert UniformBindingsInRange(c') by {
        forall i | 0 <= i < |c'| ensures c'[i].binding < MaxUniforms { assert c'[i] == c[i]; }
      }
      MergeUniformsConcat(blocks, stage, a, c');
    }
  }

  /** A slot no reflected uniform uses is left as it was. */
  lemma {:induction false} MergeUntouched(blocks: seq<UniformBlock>, stage: ShaderStage, us: seq<ReflectedUniform>, b: nat)
    requires |blocks| == MaxUniforms && UniformBindingsInRange(us) && b < MaxUniforms
    requires !Occurs(us, b)
    ensures MergeUniforms(blocks, stage, us)[b] == blocks[b]
    decreases |us|
  {
    if us != [] {
      MergeUntouched(blocks, stage, us[..|us| - 1], b);
    }
  }

  /** The stages a slot gains from `us`: the loop's stage if some uniform uses it. */
  function Gained(us: seq<ReflectedUniform>, stage: ShaderStage, b: nat): set<ShaderStage> {
    if Occurs(us, b) then StageSet(stage) else {}
  }

  /** A named slot keeps its name and size; its stages gain the loop's stage
      exactly when some reflected uniform uses the slot. */
  lemma {:induction false} MergeNamed(blocks: seq<UniformBlock>, stage: ShaderStage, us: seq<ReflectedUniform>, b: nat)
    requires |blocks| == MaxUniforms && UniformBindingsInRange(us) && b < MaxUniforms
    requires blocks[b].name != ""
    ensures MergeUniforms(blocks, stage, us)[b] == blocks[b].(stages := blocks[b].stages + Gained(us, stage, b))
    decreases |us|
  {
    if us != [] {
      var us' := us[..|us| - 1];
      RangeSlice(us, 0, |us| - 1);
      MergeNamed(blocks, stage, us', b);
      if us[|us| - 1].binding == b {
        assert Occurs(us, b);
        assert blocks[b].stages + Gained(us', stage, b) + StageSet(stage) == blocks[b].stages + Gained(us, stage, b);
      }
    }
  }

  /** The loop up to and including the first uniform that uses an unused
      slot gives that slot the uniform's name, size and stage. */
  lemma FirstUseStep(blocks: seq<UniformBlock>, stage: ShaderStage, us: seq<ReflectedUniform>, k: nat)
    requires |blocks| == MaxUniforms && UniformBindingsInRange(us) && k < |us|
    requires blocks[us[k].binding].name == ""
    requires forall j :: 0 <= j < k ==> us[j].binding != us[k].binding
    ensures UniformBindingsInRange(us[..k + 1])
    ensures MergeUniforms(blocks, stage, us[..k + 1])[us[k].binding] == UniformBlock(us[k].name, us[k].declaredSize % U32, StageSet(stage))
  {
    var before := us[..k];
    RangeSlice(us, 0, k);
    RangeSlice(us, 0, k + 1);
    OccursIff(before, us[k].binding);
    MergeUntouched(blocks, stage, before, us[k].binding);
    assert us[..k + 1][..k] == before;
  }

  /** An unused slot takes its name and size from the first uniform that uses
      it, provided that uniform is named; every later use only adds the same
      stage. */
  lemma MergeFirstUse(blocks: seq<UniformBlock>, stage: ShaderStage, us: seq<ReflectedUniform>, k: nat)
    requires |blocks| == MaxUniforms && UniformBindingsInRange(us) && k < |us|
    requires blocks[us[k].binding].name == "" && us[k].name != ""
    requires forall j :: 0 <= j < k ==> us[j].binding != us[k].binding
    ensures MergeUniforms(blocks, stage, us)[us[k].binding] == UniformBlock(us[k].name, us[k].declaredSize % U32, StageSet(stage))
  {
    var b := us[k].binding;
    FirstUseStep(blocks, stage, us, k);
    MergeSplit(blocks, stage, us, k + 1);
    var mid := MergeUniforms(blocks, stage, us[..k + 1]);
    MergeNamed(mid, stage, us[k + 1..], b);
    assert StageSet(stage) + Gained(us[k + 1..], stage, b) == StageSet(stage);
  }

  /** The loop over `us` is the loop over its first `n` uniforms followed by
      the loop over the rest. */
  lemma MergeSplit(blocks: seq<UniformBlock>, stage: ShaderStage, us: seq<ReflectedUniform>, n: nat)
    requires |blocks| == MaxUniforms && UniformBindingsInRange(us) && n <= |us|
    ensures UniformBindingsInRange(us[..n]) && UniformBindingsInRange(us[n..])
    ensures MergeUniforms(blocks, stage, us) == MergeUniforms(MergeUniforms(blocks, stage, us[..n]), stage, us[n..])
  {
    RangeSlice(us, 0, n);
    RangeSlice(us, n, |us|);
    MergeUniformsConcat(blocks, stage, us[..n], us[n..]);
    assert us[..n] + us[n..] == us;
  }

  /** `_forge_shader_description_init` processes the vertex stage and then the
      fragment stage. A block first named by the vertex stage keeps the vertex
      stage's name and size, and its mask is the vertex bit, plus the fragment
      bit if the fragment stage uses the block too. */
  lemma VertexThenFragment(blocks: seq<UniformBlock>, vertex: seq<ReflectedUniform>, fragment: seq<ReflectedUniform>, k: nat)
    requires |blocks| == MaxUniforms
    requires UniformBindingsInRange(vertex) && UniformBindingsInRange(fragment) && k < |vertex|
    requires blocks[vertex[k].binding].name == "" && vertex[k].name != ""
    requires forall j :: 0 <= j < k ==> vertex[j].binding != vertex[k].binding
    ensures var b := vertex[k].binding;
            var r := MergeUniforms(MergeUniforms(blocks, VertexStage, vertex), FragmentStage, fragment);
            && r[b].name == vertex[k].name && r[b].size == vertex[k].declaredSize % U32
            && StageFlags(r[b].stages) == if Occurs(fragment, b) then StageVertexBit | StageFragmentBit else StageVertexBit
  {
    var b := vertex[k].binding;
    MergeFirstUse(blocks, VertexStage, vertex, k);
    MergeNamed(MergeUniforms(blocks, VertexStage, vertex), FragmentStage, fragment, b);
    var r := MergeUniforms(MergeUniforms(blocks, VertexStage, vertex), FragmentStage, fragment);
    if Occurs(fragment, b) {
      assert r[b].stages == {VertexStage, FragmentStage};
    } else {
      assert r[b].stages == {VertexStage};
    }
  }

  // ---------------------------------------------------------------------------
  // Input attributes (the stage-input loop of `_forge_shader_description_init`)

  /** The attribute a reflected vertex input becomes; the offset is always 0. */
  function AttributeOf(input: ReflectedInput): InputAttribute {
    InputAttribute(input.name, input.location, SpirvTypeVkFormat(input.spirType).0, 0)
  }

  /** The attribute slots after the loop has processed `inputs` in order: each
      input overwrites the slot of its binding. */
  function PlaceAttributes(attributes: seq<InputAttribute>, inputs: seq<ReflectedInput>): (r: seq<InputAttribute>)
    requires |attributes| == MaxInputAttributes && InputBindingsInRange(inputs)
    ensures |r| == MaxInputAttributes
    decreases |inputs|
  {
    if inputs == [] then attributes
    else
      var input := inputs[|inputs| - 1];
      PlaceAttributes(attributes, inputs[..|inputs| - 1])[input.binding := AttributeOf(input)]
  }

  /** The failed assertions of the format mapping, in input order. */
  function FormatEffects(inputs: seq<ReflectedInput>): seq<Effect>
    decreases |inputs|
  {
    if inputs == [] then []
    else FormatEffects(inputs[..|inputs| - 1]) + SpirvTypeVkFormat(inputs[|inputs| - 1].spirType).1
  }

  /** A float input whose width has no format. */
  predicate UnsupportedInput(input: ReflectedInput) {
    input.spirType.isFloat && !(1 <= input.spirType.vecsize <= 4)
  }

  /** The format mapping asserts once per unsupported input and never otherwise. */
  lemma {:induction false} FormatEffectsCount(inputs: seq<ReflectedInput>)
    ensures |FormatEffects(inputs)| == |set i | 0 <= i < |inputs| && UnsupportedInput(inputs[i])|
    ensures forall e :: e in FormatEffects(inputs) ==> e.AssertionFailed? && e.site.UnsupportedFloatVecsize?
    decreases |inputs|
  {
    if inputs != [] {
      var n := |inputs| - 1;
      var prefix := inputs[..n];
      FormatEffectsCount(prefix);
      var before := set i | 0 <= i < n && UnsupportedInput(prefix[i]);
      var all := set i | 0 <= i < |inputs| && UnsupportedInput(inputs[i]);
      assert before == set i | 0 <= i < n && UnsupportedInput(inputs[i]) by {
        forall i | 0 <= i < n ensures prefix[i] == inputs[i] { }
      }
      if UnsupportedInput(inputs[n]) {
        assert all == before + {n};
      } else {
        assert all == before;
      }
    }
  }

  /** The last input bound to a slot decides it. */
  lemma {:induction false} LastInputWins(attributes: seq<InputAttribute>, inputs: seq<ReflectedInput>, k: nat)
    requires |attributes| == MaxInputAttributes && InputBindingsInRange(inputs) && k < |inputs|
    requires forall j :: k < j < |inputs| ==> inputs[j].binding != inputs[k].binding
    ensures PlaceAttributes(attributes, inputs)[inputs[k].binding] == AttributeOf(inputs[k])
    decreases |inputs|
  {
    var n := |inputs| - 1;
    if k < n {
      var prefix := inputs[..n];
      assert InputBindingsInRange(prefix) by {
        forall i | 0 <= i < n ensures prefix[i].binding < MaxInputAttributes { assert prefix[i] == inputs[i]; }
      }
      assert prefix[k] == inputs[k];
      LastInputWins(attributes, prefix, k);
    }
  }

  /** A slot no input is bound to keeps its attribute. */
  lemma {:induction false} AttributeUntouched(attributes: seq<InputAttribute>, inputs: seq<ReflectedInput>, b: nat)
    requires |attributes| == MaxInputAttributes && InputBindingsInRange(inputs) && b < MaxInputAttributes
    requires forall i :: 0 <= i < |inputs| ==> inputs[i].binding != b
    ensures PlaceAttributes(attributes, inputs)[b] == attributes[b]
    decreases |inputs|
  {
    if inputs != [] {
      var prefix := inputs[..|inputs| - 1];
      assert InputBindingsInRange(prefix) by {
        forall i | 0 <= i < |prefix| ensures prefix[i].binding < MaxInputAttributes { assert prefix[i] == inputs[i]; }
      }
      assert forall i :: 0 <= i < |prefix| ==> prefix[i].binding != b by {
        forall i | 0 <= i < |prefix| ensures prefix[i].binding != b { assert prefix[i] == inputs[i]; }
      }
      AttributeUntouched(attributes, prefix, b);
    }
  }

  // ---------------------------------------------------------------------------
  // The binding loop of `_forge_shader_pipeline_layout_init`

  /** The descriptor binding for uniform slot `i`. */
  function LayoutBinding(i: nat, uniform: UniformBlock): DescriptorBinding {
    DescriptorBinding(i, DescriptorTypeUniformBufferDynamic, 1, StageFlags(uniform.stages))
  }

  /** The bindings the loop has pushed after visiting slots `0 .. n-1`. */
  function BindingsUpTo(uniforms: seq<UniformBlock>, n: nat): seq<DescriptorBinding>
    requires n <= |uniforms|
  {
    if n == 0 then []
    else BindingsUpTo(uniforms, n - 1) + (if uniforms[n - 1].size > 0 then [LayoutBinding(n - 1, uniforms[n - 1])] else [])
  }

  /** Every pushed binding is the binding for a slot below `n` whose size is positive. */
  lemma {:induction false} BindingsSound(uniforms: seq<UniformBlock>, n: nat)
    requires n <= |uniforms|
    ensures forall k :: 0 <= k < |BindingsUpTo(uniforms, n)| ==>
              var d := BindingsUpTo(uniforms, n)[k];
              d.binding < n && uniforms[d.binding].size > 0 && d == LayoutBinding(d.binding, uniforms[d.binding])
  {
    if n > 0 {
      BindingsSound(uniforms, n - 1);
    }
  }

  /** The bindings come in strictly increasing slot order. */
  lemma {:induction false} BindingsIncreasing(uniforms: seq<UniformBlock>, n: nat)
    requires n <= |uniforms|
    ensures forall j, k :: 0 <= j < k < |BindingsUpTo(uniforms, n)| ==>
              BindingsUpTo(uniforms, n)[j].binding < BindingsUpTo(uniforms, n)[k].binding
  {
    if n > 0 {
      BindingsIncreasing(uniforms, n - 1);
      BindingsSound(uniforms, n - 1);
    }
  }

  /** Every slot below `n` whose size is positive gets a binding. */
  lemma {:induction false} BindingsComplete(uniforms: seq<UniformBlock>, n: nat, i: nat)
    requires i < n <= |uniforms| && uniforms[i].size > 0
    ensures exists k :: 0 <= k < |BindingsUpTo(uniforms, n)| && BindingsUpTo(uniforms, n)[k] == LayoutBinding(i, uniforms[i])
  {
    var r := BindingsUpTo(uniforms, n);
    if i == n - 1 {
      assert r[|r| - 1] == LayoutBinding(i, uniforms[i]);
    } else {
      BindingsComplete(uniforms, n - 1, i);
      var k :| 0 <= k < |BindingsUpTo(uniforms, n - 1)| && BindingsUpTo(uniforms, n - 1)[k] == LayoutBinding(i, uniforms[i]);
      assert r[k] == BindingsUpTo(uniforms, n - 1)[k];
    }
  }

  /** The loop itself, over the description the function receives by value. */
  method LayoutBindings(uniforms: seq<UniformBlock>) returns (bindings: seq<DescriptorBinding>)
    requires |uniforms| == MaxUniforms
    ensures bindings == BindingsUpTo(uniforms, MaxUniforms)
  {
    bindings := [];
    for i := 0 to MaxUniforms
      invariant bindings == BindingsUpTo(uniforms, i)
    {
      if uniforms[i].size > 0 {
        bindings := bindings + [LayoutBinding(i, uniforms[i])];
      }
    }
  }

  /** `_forge_shader_pipeline_layout_init`. The bindings are built and then
      not passed to the create call; they are returned here so that their
      contents can be stated. `created` is the outcome of
      `vkCreatePipelineLayout`. */
  method PipelineLayoutInit(forge: Forge, uniforms: seq<UniformBlock>, created: bool)
    returns (ok: bool, layout: Handle, bindings: seq<DescriptorBinding>)
    requires |uniforms| == MaxUniforms
    modifies forge
    ensures bindings == BindingsUpTo(uniforms, MaxUniforms)
    ensures ok == created
    ensures layout == if ok then old(forge.lastHandle) + 1 else Null
    ensures forge.trace == old(forge.trace) + if ok then [] else [ResultCheckFailed(CreatePipelineLayout)]
    ensures forge.lastHandle == old(forge.lastHandle) + (if ok then 1 else 0)
    ensures forge.nextCheckPoint == old(forge.nextCheckPoint)
  {
    bindings := LayoutBindings(uniforms);
    if created {
      layout := forge.NewHandle();
      ok := true;
    } else {
      forge.Emit(ResultCheckFailed(CreatePipelineLayout));
      layout := Null;
      ok := false;
    }
  }

  // ---------------------------------------------------------------------------
  // The shader object

  /** What reflection reports for one compiled stage. */
  datatype StageReflection = StageReflection(inputs: seq<ReflectedInput>, uniforms: seq<ReflectedUniform>)

  /** The outcome of compiling one stage and creating its module. */
  datatype StageOutcome = StageOutcome(compiles: bool, moduleCreated: bool, reflection: StageReflection)

  /** The outcomes for both stages of one source. */
  datatype ShaderDevice = ShaderDevice(vertex: StageOutcome, fragment: StageOutcome)

  /** The assertions in the reflection loops hold: every binding is in range. */
  predicate ReflectionInRange(device: ShaderDevice) {
    && InputBindingsInRange(device.vertex.reflection.inputs)
    && UniformBindingsInRange(device.vertex.reflection.uniforms)
    && UniformBindingsInRange(device.fragment.reflection.uniforms)
  }

  /** The index of a stage in `modules` and `spirv`. */
  function StageIndex(stage: ShaderStage): nat
    requires stage != StageCount
  {
    if stage == VertexStage then 0 else 1
  }

  predicate StageSucceeds(outcome: StageOutcome) {
    outcome.compiles && outcome.moduleCreated
  }

  /** The native calls of `_forge_shader_module_init` that leave a trace: the
      result check of a module creation that failed. */
  function ModuleEffects(outcome: StageOutcome): seq<Effect> {
    if outcome.compiles && !outcome.moduleCreated then [ResultCheckFailed(CreateShaderModule)] else []
  }

  /** `_forge_shader_init` succeeds exactly when both modules are built. */
  predicate ShaderInitSucceeds(device: ShaderDevice) {
    StageSucceeds(device.vertex) && StageSucceeds(device.fragment)
  }

  /** The trace of `_forge_shader_init`: each step runs only when the previous one succeeded. */
  function ShaderInitEffects(device: ShaderDevice): seq<Effect> {
    ModuleEffects(device.vertex)
    + if !StageSucceeds(device.vertex) then []
      else ModuleEffects(device.fragment)
           + if !StageSucceeds(device.fragment) then [] else FormatEffects(device.vertex.reflection.inputs)
  }

  /** `_forge_shader_init` stops at the first failing step: a failed vertex
      stage leaves at most its own result check, and no format assertion is
      reached unless both modules were created. */
  lemma ShaderInitStopsAtFirstFailure(device: ShaderDevice)
    ensures !StageSucceeds(device.vertex) ==> ShaderInitEffects(device) == ModuleEffects(device.vertex)
    ensures !ShaderInitSucceeds(device) ==> ShaderInitEffects(device) == ModuleEffects(device.vertex) + (if StageSucceeds(device.vertex) then ModuleEffects(device.fragment) else [])
  {
  }

  /** `ForgeShader`, with the description's arrays. The header declares no
      `images` member of the description although the binding list reads
      one; it is modelled as an array of FORGE_MAX_IMAGE_BINDINGS layouts
      that nothing in the shader fills. */
  class Shader {
    const modules: array<Handle>
    const attributes: array<InputAttribute>
    const uniforms: array<UniformBlock>
    const images: array<ImageLayout>

    predicate Valid()
      reads this
    {
      && modules.Length == 2
      && attributes.Length == MaxInputAttributes
      && uniforms.Length == MaxUniforms
      && images.Length == MaxImageBindings
      && modules as object != attributes && modules as object != uniforms && modules as object != images
      && attributes as object != uniforms && attributes as object != images
      && uniforms as object != images
    }

    /** `new ForgeShader()`: every member value-initialised. */
    constructor ()
      ensures Valid()
      ensures fresh(modules) && fresh(attributes) && fresh(uniforms) && fresh(images)
      ensures forall i :: 0 <= i < 2 ==> modules[i] == Null
      ensures forall i :: 0 <= i < MaxInputAttributes ==> attributes[i] == InputAttribute("", 0, 0, 0)
      ensures forall i :: 0 <= i < MaxUniforms ==> uniforms[i] == UniformBlock("", 0, {})
      ensures forall i :: 0 <= i < MaxImageBindings ==> images[i] == ImageLayout(0, false)
    {
      modules := new Handle[2](_ => Null);
      attributes := new InputAttribute[MaxInputAttributes](_ => InputAttribute("", 0, 0, 0));
      uniforms := new UniformBlock[MaxUniforms](_ => UniformBlock("", 0, {}));
      images := new ImageLayout[MaxImageBindings](_ => ImageLayout(0, false));
    }
  }

  /** `_forge_shader_module_init`: a source that does not compile fails
      without a native call; a failed module creation is result-checked. */
  method ModuleInit(forge: Forge, shader: Shader, stage: ShaderStage, outcome: StageOutcome) returns (ok: bool)
    requires shader.Valid() && stage != StageCount
    modifies forge, shader.modules
    ensures ok == StageSucceeds(outcome)
    ensures shader.modules[..] == if ok then old(shader.modules[..])[StageIndex(stage) := old(forge.lastHandle) + 1] else old(shader.modules[..])
    ensures forge.trace == old(forge.trace) + ModuleEffects(outcome)
    ensures forge.lastHandle == old(forge.lastHandle) + (if ok then 1 else 0)
    ensures forge.nextCheckPoint == old(forge.nextCheckPoint)
  {
    if !outcome.compiles {
      return false;
    }
    if !outcome.moduleCreated {
      forge.Emit(ResultCheckFailed(CreateShaderModule));
      return false;
    }
    var h := forge.NewHandle();
    shader.modules[StageIndex(stage)] := h;
    ok := true;
  }

  /** `_forge_shader_uniform_blocks_init`. */
  method UniformBlocksInit(shader: Shader, stage: ShaderStage, reflected: seq<ReflectedUniform>)
    requires shader.Valid() && stage != StageCount && UniformBindingsInRange(reflected)
    modifies shader.uniforms
    ensures shader.uniforms[..] == MergeUniforms(old(shader.uniforms[..]), stage, reflected)
  {
    ghost var blocks := shader.uniforms[..];
    for i := 0 to |reflected|
      invariant UniformBindingsInRange(reflected[..i])
      invariant shader.uniforms[..] == MergeUniforms(blocks, stage, reflected[..i])
    {
      var u := reflected[i];
      var uniform := shader.uniforms[u.binding];
      assert reflected[..i + 1][..i] == reflected[..i];
      RangeSlice(reflected, 0, i + 1);
      if uniform.name != "" {
        shader.uniforms[u.binding] := uniform.(stages := uniform.stages + StageSet(stage));
      } else {
        shader.uniforms[u.binding] := UniformBlock(u.name, u.declaredSize % U32, StageSet(stage));
      }
    }
    assert reflected[..|reflected|] == reflected;
  }

  /** The stage-input loop of `_forge_shader_description_init`. */
  method InputAttributesInit(forge: Forge, shader: Shader, inputs: seq<ReflectedInput>)
    requires shader.Valid() && InputBindingsInRange(inputs)
    modifies forge, shader.attributes
    ensures shader.attributes[..] == PlaceAttributes(old(shader.attributes[..]), inputs)
    ensures forge.trace == old(forge.trace) + FormatEffects(inputs)
    ensures forge.lastHandle == old(forge.lastHandle) && forge.nextCheckPoint == old(forge.nextCheckPoint)
  {
    ghost var attributes := shader.attributes[..];
    ghost var t0 := forge.trace;
    for i := 0 to |inputs|
      invariant InputBindingsInRange(inputs[..i])
      invariant shader.attributes[..] == PlaceAttributes(attributes, inputs[..i])
      invariant forge.trace == t0 + FormatEffects(inputs[..i])
      invariant forge.lastHandle == old(forge.lastHandle) && forge.nextCheckPoint == old(forge.nextCheckPoint)
    {
      var input := inputs[i];
      assert inputs[..i + 1][..i] == inputs[..i];
      InputRangeSlice(inputs, i + 1);
      var format := SpirvTypeVkFormat(input.spirType);
      forge.trace := forge.trace + format.1;
      shader.attributes[input.binding] := InputAttribute(input.name, input.location, format.0, 0);
    }
    assert inputs[..|inputs|] == inputs;
  }

  /** `_forge_shader_description_init`: the vertex stage's inputs, then the
      uniform blocks of the vertex stage and of the fragment stage. */
  method DescriptionInit(forge: Forge, shader: Shader, device: ShaderDevice) returns (ok: bool)
    requires shader.Valid() && ReflectionInRange(device)
    modifies forge, shader.attributes, shader.uniforms
    ensures ok
    ensures shader.attributes[..] == PlaceAttributes(old(shader.attributes[..]), device.vertex.reflection.inputs)
    ensures shader.uniforms[..] == MergeUniforms(MergeUniforms(old(shader.uniforms[..]), VertexStage, device.vertex.reflection.uniforms),
                                                 FragmentStage, device.fragment.reflection.uniforms)
    ensures forge.trace == old(forge.trace) + FormatEffects(device.vertex.reflection.inputs)
    ensures forge.lastHandle == old(forge.lastHandle) && forge.nextCheckPoint == old(forge.nextCheckPoint)
  {
    InputAttributesInit(forge, shader, device.vertex.reflection.inputs);
    UniformBlocksInit(shader, VertexStage, device.vertex.reflection.uniforms);
    UniformBlocksInit(shader, FragmentStage, device.fragment.reflection.uniforms);
    ok := true;
  }

  /** `_forge_shader_init`. */
  method ShaderInit(forge: Forge, shader: Shader, device: ShaderDevice) returns (ok: bool)
    requires shader.Valid() && ReflectionInRange(device)
    modifies forge, shader.modules, shader.attributes, shader.uniforms
    ensures ok == ShaderInitSucceeds(device)
    ensures shader.modules[0] == if StageSucceeds(device.vertex) then old(forge.lastHandle) + 1 else old(shader.modules[0])
    ensures shader.modules[1] == if ok then old(forge.lastHandle) + 2 else old(shader.modules[1])
    ensures shader.attributes[..] == if ok then PlaceAttributes(old(shader.attributes[..]), device.vertex.reflection.inputs) else old(shader.attributes[..])
    ensures shader.uniforms[..] == if ok then MergeUniforms(MergeUniforms(old(shader.uniforms[..]), VertexStage, device.vertex.reflection.uniforms),
                                                             FragmentStage, device.fragment.reflection.uniforms)
                                   else old(shader.uniforms[..])
    ensures forge.trace == old(forge.trace) + ShaderInitEffects(device)
    ensures forge.lastHandle == old(forge.lastHandle) + (if StageSucceeds(device.vertex) then 1 else 0) + (if ok then 1 else 0)
    ensures forge.nextCheckPoint == old(forge.nextCheckPoint)
  {
    ok := ModuleInit(forge, shader, VertexStage, device.vertex);
    if !ok {
      return;
    }
    ok := ModuleInit(forge, shader, FragmentStage, device.fragment);
    if !ok {
      return;
    }
    ok := DescriptionInit(forge, shader, device);
  }

  /** The attribute slots of a new shader, all value-initialised. */
  function NoAttributes(): seq<InputAttribute> {
    seq(MaxInputAttributes, _ => InputAttribute("", 0, 0, 0))
  }

  /** The uniform slots of a new shader, all value-initialised. */
  function NoUniforms(): seq<UniformBlock> {
    seq(MaxUniforms, _ => UniformBlock("", 0, {}))
  }

  /** `forge_shader_new`: a shader whose initialisation fails is handed to
      `forge_shader_destroy`, whose free function releases nothing. The
      shader handed out holds both modules and the description reflected
      from the two stages; its image slots stay value-initialised. */
  method ShaderNew(forge: Forge, device: ShaderDevice) returns (shader: Shader?)
    requires ReflectionInRange(device)
    modifies forge
    ensures shader != null <==> ShaderInitSucceeds(device)
    ensures shader != null ==>
              && fresh(shader) && shader.Valid()
              && shader.modules[0] == old(forge.lastHandle) + 1 && shader.modules[1] == old(forge.lastHandle) + 2
              && shader.attributes[..] == PlaceAttributes(NoAttributes(), device.vertex.reflection.inputs)
              && shader.uniforms[..] == MergeUniforms(MergeUniforms(NoUniforms(), VertexStage, device.vertex.reflection.uniforms),
                                                      FragmentStage, device.fragment.reflection.uniforms)
              && forall i :: 0 <= i < MaxImageBindings ==> shader.images[i] == ImageLayout(0, false)
    ensures forge.trace == old(forge.trace) + ShaderInitEffects(device)
    ensures forge.lastHandle == old(forge.lastHandle) + (if StageSucceeds(device.vertex) then 1 else 0) + (if shader != null then 1 else 0)
    ensures forge.nextCheckPoint == old(forge.nextCheckPoint)
  {
    shader := new Shader();
    assert shader.attributes[..] == NoAttributes();
    assert shader.uniforms[..] == NoUniforms();
    var ok := ShaderInit(forge, shader, device);
    if !ok {
      shader := null;
    }
  }
}
