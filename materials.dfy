/** src/engine/renderer/materials.c: the metallic material's descriptor
    layout, its shared pipeline layout, its two pipelines, the writes a
    material instance receives, and cleanup. */
module Materials {
  import opened Wrappers
  import opened Vulkan
  import opened RendererTypes
  import Pipelines

  datatype Topology = TriangleList
  datatype PolygonMode = Fill
  datatype CullMode = CullBack
  datatype FrontFace = CounterClockwise

  /** One configuration step applied to the pipeline builder, by name and
      arguments: the two direct field assignments (layout and shader
      stages) and the pipeline_builder_* setters. What the builder makes
      of them is not part of this model. */
  datatype BuilderStep =
    | SetLayout(layout: Handle)
    | SetShaderStages(vertex: Handle, fragment: Handle)
    | SetInputTopology(topology: Topology)
    | SetPolygonMode(mode: PolygonMode)
    | SetCullMode(cull: CullMode, front: FrontFace)
    | SetMultisamplingNone
    | DisableBlending
    | EnableBlending(flag: bool)
    | SetDepthTest(enable: bool, op: CompareOp)
    | SetColourAttachmentFormat(format: Format)
    | SetDepthFormat(format: Format)

  /** One pipeline_builder_build: the pipeline it returned and every step
      the builder had been given since it was zeroed. */
  datatype PipelineBuild = PipelineBuild(pipeline: Handle, steps: seq<BuilderStep>)

  /** The instance write_material returns and the writes it hands to the
      descriptor writer for the instance's set. */
  datatype WrittenMaterial = WrittenMaterial(instance: MaterialInstance, writes: seq<WriteDescriptorSet>)

  const MATERIAL_STAGES: Flags := SHADER_STAGE_VERTEX | SHADER_STAGE_FRAGMENT

  /** The bindings build_descriptors declares, before any stage is added. */
  const MATERIAL_BINDINGS: seq<DescriptorSetLayoutBinding> := [
    DescriptorSetLayoutBinding(0, UniformBuffer, 1, 0),
    DescriptorSetLayoutBinding(1, CombinedImageSampler, 1, 0),
    DescriptorSetLayoutBinding(2, CombinedImageSampler, 1, 0)
  ]

  /** The create info the material layout is made from. */
  function MaterialLayoutInfo(): DescriptorSetLayoutCreateInfo {
    DescriptorSetLayoutCreateInfo(Pipelines.WithStages(MATERIAL_BINDINGS, MATERIAL_STAGES), 0)
  }

  /** The material layout: binding 0 a uniform buffer, bindings 1 and 2
      combined image samplers, one descriptor each, all visible to the
      vertex and fragment stages, no creation flags. */
  lemma MaterialLayoutShape()
    ensures var info := MaterialLayoutInfo();
      info.flags == 0 && |info.bindings| == 3 &&
      info.bindings[0] == DescriptorSetLayoutBinding(0, UniformBuffer, 1, MATERIAL_STAGES) &&
      info.bindings[1] == DescriptorSetLayoutBinding(1, CombinedImageSampler, 1, MATERIAL_STAGES) &&
      info.bindings[2] == DescriptorSetLayoutBinding(2, CombinedImageSampler, 1, MATERIAL_STAGES)
  {
    Pipelines.OrZero(MATERIAL_STAGES);
  }

  /** The one pipeline layout both material pipelines use: set 0 the
      scene-data layout, set 1 the material layout, and a vertex-stage
      push-constant range covering the whole PushConstants struct. */
  function MaterialPipelineLayoutInfo(sceneDataLayout: Handle, materialLayout: Handle): PipelineLayoutCreateInfo {
    PipelineLayoutCreateInfo([sceneDataLayout, materialLayout],
                             [PushConstantRange(0, SIZEOF_PUSH_CONSTANTS, SHADER_STAGE_VERTEX)])
  }

  /** The builder's steps up to the opaque build, one append per step. */
  function OpaqueSteps(layout: Handle, vertex: Handle, fragment: Handle, colourFormat: Format, depthFormat: Format):
    seq<BuilderStep>
  {
    [SetLayout(layout), SetShaderStages(vertex, fragment)] + [SetInputTopology(TriangleList)] + [SetPolygonMode(Fill)]
    + [SetCullMode(CullBack, CounterClockwise)] + [SetMultisamplingNone] + [DisableBlending]
    + [SetDepthTest(true, GreaterOrEqual)] + [SetColourAttachmentFormat(colourFormat)] + [SetDepthFormat(depthFormat)]
  }

  /** The reused builder's steps at the transparent build: the opaque
      build's, then blending enabled and the depth test switched off. */
  function TransparentSteps(opaqueSteps: seq<BuilderStep>): seq<BuilderStep> {
    opaqueSteps + [EnableBlending(true)] + [SetDepthTest(false, GreaterOrEqual)]
  }

  /** The most recent depth-test step in a builder's history. */
  function LastDepthTest(steps: seq<BuilderStep>): (r: Option<(bool, CompareOp)>)
    ensures r.Some? ==> SetDepthTest(r.value.0, r.value.1) in steps
    ensures r.None? ==> forall step :: step in steps ==> !step.SetDepthTest?
  {
    if |steps| == 0 then None
    else if steps[|steps| - 1].SetDepthTest? then Some((steps[|steps| - 1].enable, steps[|steps| - 1].op))
    else
      assert steps == steps[..|steps| - 1] + [steps[|steps| - 1]];
      LastDepthTest(steps[..|steps| - 1])
  }

  /** The most recent blending step in a builder's history: Some(false)
      for disable_blending, Some(flag) for enable_blending(flag). */
  function LastBlending(steps: seq<BuilderStep>): (r: Option<bool>)
    ensures r == Some(false) ==> DisableBlending in steps || EnableBlending(false) in steps
    ensures r == Some(true) ==> EnableBlending(true) in steps
    ensures r.None? ==> forall step :: step in steps ==> !step.DisableBlending? && !step.EnableBlending?
  {
    if |steps| == 0 then None
    else if steps[|steps| - 1].DisableBlending? then Some(false)
    else if steps[|steps| - 1].EnableBlending? then Some(steps[|steps| - 1].flag)
    else
      assert steps == steps[..|steps| - 1] + [steps[|steps| - 1]];
      LastBlending(steps[..|steps| - 1])
  }

  /** The transparent pipeline is built from the opaque one's builder
      with exactly two more steps: its history starts with everything the
      opaque build saw, blending ends up enabled where the opaque build
      had it disabled, the depth test ends up off where the opaque build
      had it on, and both compare with GREATER_OR_EQUAL. */
  lemma TransparentBuildReusesOpaque(layout: Handle, vertex: Handle, fragment: Handle,
                                     colourFormat: Format, depthFormat: Format)
    ensures var first := OpaqueSteps(layout, vertex, fragment, colourFormat, depthFormat);
      var second := TransparentSteps(first);
      second[..|first|] == first && |second| == |first| + 2 &&
      LastBlending(first) == Some(false) && LastBlending(second) == Some(true) &&
      LastDepthTest(first) == Some((true, GreaterOrEqual)) &&
      LastDepthTest(second) == Some((false, GreaterOrEqual))
  {
    var p7 := [SetLayout(layout), SetShaderStages(vertex, fragment)] + [SetInputTopology(TriangleList)]
              + [SetPolygonMode(Fill)] + [SetCullMode(CullBack, CounterClockwise)] + [SetMultisamplingNone]
              + [DisableBlending];
    var p8 := p7 + [SetDepthTest(true, GreaterOrEqual)];
    var p9 := p8 + [SetColourAttachmentFormat(colourFormat)];
    var first := p9 + [SetDepthFormat(depthFormat)];
    var t1 := first + [EnableBlending(true)];
    var second := t1 + [SetDepthTest(false, GreaterOrEqual)];
    DropLast(p9, SetDepthFormat(depthFormat));
    DropLast(p8, SetColourAttachmentFormat(colourFormat));
    DropLast(p7, SetDepthTest(true, GreaterOrEqual));
    DropLast(first, EnableBlending(true));
    DropLast(t1, SetDepthTest(false, GreaterOrEqual));
    assert LastDepthTest(first) == LastDepthTest(p9) == LastDepthTest(p8);
    assert LastBlending(first) == LastBlending(p9) == LastBlending(p8) == LastBlending(p7);
    assert LastBlending(second) == LastBlending(t1);
    assert second[..|first|] == t1[..|first|];
  }

  lemma DropLast<T>(a: seq<T>, x: T)
    ensures (a + [x])[..|a|] == a
  {
  }

  /** write_material, given the set the growable allocator returned: the
      instance points at the transparent pipeline for a transparent pass
      and at the opaque one otherwise, keeps the pass type and the set, and
      the set receives three single-descriptor writes. */
  function WriteMaterial(passType: MaterialPass, resources: MaterialMetallicResources, materialSet: Handle):
    (r: WrittenMaterial)
    ensures r.instance.passType == passType && r.instance.materialSet == materialSet
    ensures r.instance.pipeline == TransparentPipeline <==> passType == Transparent
    ensures |r.writes| == 3
    ensures forall w :: w in r.writes ==> w.dstSet == materialSet && w.descriptorCount == 1
  {
    var choice := if passType == Transparent then TransparentPipeline else OpaquePipeline;
    var bufferInfo := DescriptorBufferInfo(resources.dataBuffer, resources.dataBufferOffset, SIZEOF_MATERIAL_CONSTANTS);
    var colourInfo := DescriptorImageInfo(resources.colourSampler, resources.colourImage.view, ShaderReadOnlyOptimal);
    var metalRoughInfo :=
      DescriptorImageInfo(resources.metalRoughSampler, resources.metalRoughImage.view, ShaderReadOnlyOptimal);
    WrittenMaterial(
      MaterialInstance(choice, materialSet, passType),
      [WriteDescriptorSet(materialSet, 0, 1, UniformBuffer, Some(bufferInfo), None),
       WriteDescriptorSet(materialSet, 1, 1, CombinedImageSampler, None, Some(colourInfo)),
       WriteDescriptorSet(materialSet, 2, 1, CombinedImageSampler, None, Some(metalRoughInfo))])
  }

  /** The material layout's bindings, spelled out. */
  lemma MaterialLayoutBindings()
    ensures MaterialLayoutInfo().bindings == [
      DescriptorSetLayoutBinding(0, UniformBuffer, 1, MATERIAL_STAGES),
      DescriptorSetLayoutBinding(1, CombinedImageSampler, 1, MATERIAL_STAGES),
      DescriptorSetLayoutBinding(2, CombinedImageSampler, 1, MATERIAL_STAGES)]
  {
    MaterialLayoutShape();
  }

  /** The writes fill the material layout exactly: write k goes to
      binding k of the layout with that binding's type and count, so each
      write fits the layout and every binding is written once. */
  lemma MaterialWritesFillLayout(passType: MaterialPass, resources: MaterialMetallicResources, materialSet: Handle)
    ensures var writes, bindings := WriteMaterial(passType, resources, materialSet).writes, MaterialLayoutInfo().bindings;
      |writes| == |bindings| &&
      forall k :: 0 <= k < |writes| ==>
        writes[k].dstBinding == bindings[k].binding && writes[k].descriptorType == bindings[k].descriptorType &&
        writes[k].descriptorCount == bindings[k].descriptorCount &&
        Pipelines.WriteFitsLayout(writes[k], MaterialLayoutInfo())
  {
    MaterialLayoutBindings();
    var info := MaterialLayoutInfo();
    var writes := WriteMaterial(passType, resources, materialSet).writes;
    forall k | 0 <= k < |writes|
      ensures Pipelines.WriteFitsLayout(writes[k], info)
    {
      assert info.bindings[k] in info.bindings;
    }
  }

  /** What the writes carry: the uniform-buffer write, and only it, holds
      buffer information, namely the material constants (256 bytes at the
      resources' offset in their data buffer); the two image writes, and
      only they, hold image information, namely the colour and the
      metal-rough view and sampler, both in SHADER_READ_ONLY_OPTIMAL
      layout. */
  lemma MaterialWritesCarryResources(passType: MaterialPass, resources: MaterialMetallicResources, materialSet: Handle)
    ensures var writes := WriteMaterial(passType, resources, materialSet).writes;
      (forall k :: 0 <= k < |writes| ==> (writes[k].descriptorType == UniformBuffer <==> writes[k].bufferInfo.Some?)) &&
      (forall k :: 0 <= k < |writes| ==>
        (writes[k].descriptorType == CombinedImageSampler <==> writes[k].imageInfo.Some?)) &&
      writes[0].bufferInfo == Some(DescriptorBufferInfo(resources.dataBuffer, resources.dataBufferOffset, 256)) &&
      writes[1].imageInfo == Some(DescriptorImageInfo(resources.colourSampler, resources.colourImage.view,
                                                      ShaderReadOnlyOptimal)) &&
      writes[2].imageInfo == Some(DescriptorImageInfo(resources.metalRoughSampler, resources.metalRoughImage.view,
                                                      ShaderReadOnlyOptimal))
  {
  }

  /** The material's calls during initialise_pipelines. */
  function InitialiseCalls(sceneDataLayout: Handle, materialLayout: Handle, pipelineLayout: Handle,
                           fragment: Handle, vertex: Handle, opaquePipe: Handle, transparentPipe: Handle): seq<SetupCall>
  {
    [CreateDescriptorSetLayout(materialLayout, MaterialLayoutInfo()),
     CreatePipelineLayout(pipelineLayout, MaterialPipelineLayoutInfo(sceneDataLayout, materialLayout)),
     CreateShaderModule(fragment), CreateShaderModule(vertex),
     CreateGraphicsPipeline(opaquePipe, pipelineLayout), CreateGraphicsPipeline(transparentPipe, pipelineLayout),
     DestroyShaderModule(fragment), DestroyShaderModule(vertex)]
  }

  /** The calls of material_metallic_cleanup. */
  function CleanupCalls(opaquePipe: MaterialPipeline, transparentPipe: MaterialPipeline, materialLayout: Handle):
    seq<SetupCall>
  {
    [DestroyPipeline(opaquePipe.pipeline), DestroyPipeline(transparentPipe.pipeline), DestroyPipelineLayout(opaquePipe.layout),
     DestroyDescriptorSetLayout(materialLayout)]
  }

  /** struct MaterialMetallic, and the calls and builds made for it. */
  class MaterialMetallic {
    var pipelineOpaque: MaterialPipeline
    var pipelineTransparent: MaterialPipeline
    var materialLayout: Handle
    var calls: seq<SetupCall>
    var builds: seq<PipelineBuild>

    /** Both pipelines use the same layout. */
    predicate SharedLayout()
      reads this
    {
      pipelineOpaque.layout == pipelineTransparent.layout
    }

    /** The zero-initialised struct inside the renderer. */
    constructor ()
      ensures pipelineOpaque == MaterialPipeline(NULL_HANDLE, NULL_HANDLE)
      ensures pipelineTransparent == MaterialPipeline(NULL_HANDLE, NULL_HANDLE)
      ensures materialLayout == NULL_HANDLE && calls == [] && builds == []
    {
      pipelineOpaque := MaterialPipeline(NULL_HANDLE, NULL_HANDLE);
      pipelineTransparent := MaterialPipeline(NULL_HANDLE, NULL_HANDLE);
      materialLayout := NULL_HANDLE;
      calls, builds := [], [];
    }

    /** material_metallic_build_descriptors: declares the three bindings
        and has create_descriptor_set_layout add the vertex and fragment
        stages to them. `created` is the driver's handle. */
    method BuildDescriptors(created: Handle)
      modifies this
      ensures materialLayout == created
      ensures calls == old(calls) + [CreateDescriptorSetLayout(created, MaterialLayoutInfo())]
      ensures pipelineOpaque == old(pipelineOpaque) && pipelineTransparent == old(pipelineTransparent)
      ensures builds == old(builds)
    {
      var bindings := new DescriptorSetLayoutBinding[3](i requires 0 <= i < 3 => MATERIAL_BINDINGS[i]);
      assert bindings[..3] == MATERIAL_BINDINGS;
      var layout, info := Pipelines.CreateSetLayout(bindings, 3, MATERIAL_STAGES, 0, created);
      calls := calls + [CreateDescriptorSetLayout(layout, info)];
      materialLayout := layout;
    }

    /** material_metallic_build_layouts: one pipeline layout, given to
        both pipelines. */
    method BuildLayouts(sceneDataLayout: Handle, created: Handle)
      modifies this
      ensures SharedLayout() && pipelineOpaque.layout == created
      ensures pipelineOpaque.pipeline == old(pipelineOpaque.pipeline)
      ensures pipelineTransparent.pipeline == old(pipelineTransparent.pipeline)
      ensures calls == old(calls) + [CreatePipelineLayout(created, MaterialPipelineLayoutInfo(sceneDataLayout, materialLayout))]
      ensures materialLayout == old(materialLayout) && builds == old(builds)
    {
      calls := calls + [CreatePipelineLayout(created, MaterialPipelineLayoutInfo(sceneDataLayout, materialLayout))];
      pipelineOpaque := pipelineOpaque.(layout := created);
      pipelineTransparent := pipelineTransparent.(layout := created);
    }

    /** material_metallic_build_pipelines: both shader modules are made
        (fragment first), one builder is configured and built for the
        opaque pipeline, then given two more steps and built again for the
        transparent one, and only then are both modules destroyed. The
        shader, pipeline and format handles are the driver's and the
        renderer's. */
    method BuildPipelines(fragment: Handle, vertex: Handle, opaquePipe: Handle, transparentPipe: Handle,
                          colourFormat: Format, depthFormat: Format)
      modifies this
      ensures pipelineOpaque == old(pipelineOpaque).(pipeline := opaquePipe)
      ensures pipelineTransparent == old(pipelineTransparent).(pipeline := transparentPipe)
      ensures materialLayout == old(materialLayout)
      ensures var steps := OpaqueSteps(old(pipelineOpaque.layout), vertex, fragment, colourFormat, depthFormat);
        builds == old(builds) + [PipelineBuild(opaquePipe, steps), PipelineBuild(transparentPipe, TransparentSteps(steps))]
      ensures calls == old(calls) + [CreateShaderModule(fragment), CreateShaderModule(vertex),
                                     CreateGraphicsPipeline(opaquePipe, old(pipelineOpaque.layout)),
                                     CreateGraphicsPipeline(transparentPipe, old(pipelineOpaque.layout)),
                                     DestroyShaderModule(fragment), DestroyShaderModule(vertex)]
    {
      var log := calls + [CreateShaderModule(fragment)];
      log := log + [CreateShaderModule(vertex)];

      var pb := [SetLayout(pipelineOpaque.layout), SetShaderStages(vertex, fragment)];
      pb := pb + [SetInputTopology(TriangleList)];
      pb := pb + [SetPolygonMode(Fill)];
      pb := pb + [SetCullMode(CullBack, CounterClockwise)];
      pb := pb + [SetMultisamplingNone];
      pb := pb + [DisableBlending];
      pb := pb + [SetDepthTest(true, GreaterOrEqual)];
      pb := pb + [SetColourAttachmentFormat(colourFormat)];
      pb := pb + [SetDepthFormat(depthFormat)];
      log := log + [CreateGraphicsPipeline(opaquePipe, pipelineOpaque.layout)];
      var built := [PipelineBuild(opaquePipe, pb)];

      pb := pb + [EnableBlending(true)];
      pb := pb + [SetDepthTest(false, GreaterOrEqual)];
      log := log + [CreateGraphicsPipeline(transparentPipe, pipelineOpaque.layout)];
      built := built + [PipelineBuild(transparentPipe, pb)];

      log := log + [DestroyShaderModule(fragment)];
      log := log + [DestroyShaderModule(vertex)];
      calls, builds := log, builds + built;
      pipelineOpaque := pipelineOpaque.(pipeline := opaquePipe);
      pipelineTransparent := pipelineTransparent.(pipeline := transparentPipe);
    }

    /** material_metallic_initialise_pipelines. */
    method InitialisePipelines(sceneDataLayout: Handle, createdLayout: Handle, createdPipelineLayout: Handle,
                               fragment: Handle, vertex: Handle, opaquePipe: Handle, transparentPipe: Handle,
                               colourFormat: Format, depthFormat: Format)
      modifies this
      ensures SharedLayout()
      ensures pipelineOpaque == MaterialPipeline(opaquePipe, createdPipelineLayout)
      ensures pipelineTransparent == MaterialPipeline(transparentPipe, createdPipelineLayout)
      ensures materialLayout == createdLayout
      ensures calls == old(calls) + InitialiseCalls(sceneDataLayout, createdLayout, createdPipelineLayout,
                                                    fragment, vertex, opaquePipe, transparentPipe)
      ensures var steps := OpaqueSteps(createdPipelineLayout, vertex, fragment, colourFormat, depthFormat);
        builds == old(builds) + [PipelineBuild(opaquePipe, steps), PipelineBuild(transparentPipe, TransparentSteps(steps))]
    {
      BuildDescriptors(createdLayout);
      BuildLayouts(sceneDataLayout, createdPipelineLayout);
      BuildPipelines(fragment, vertex, opaquePipe, transparentPipe, colourFormat, depthFormat);
    }

    /** material_metallic_write_material: the instance of WriteMaterial,
        after the allocator's set has received the writes. */
    method Write(passType: MaterialPass, resources: MaterialMetallicResources, materialSet: Handle)
      returns (instance: MaterialInstance)
      modifies this
      ensures instance == WriteMaterial(passType, resources, materialSet).instance
      ensures calls == old(calls) + [UpdateDescriptorSets(WriteMaterial(passType, resources, materialSet).writes)]
      ensures pipelineOpaque == old(pipelineOpaque) && pipelineTransparent == old(pipelineTransparent)
      ensures materialLayout == old(materialLayout) && builds == old(builds)
    {
      var written := WriteMaterial(passType, resources, materialSet);
      calls := calls + [UpdateDescriptorSets(written.writes)];
      instance := written.instance;
    }

    /** material_metallic_cleanup: both pipelines, then the layout through
        the opaque pipeline only, then the material layout. */
    method Cleanup()
      modifies this
      ensures calls == old(calls) + CleanupCalls(pipelineOpaque, pipelineTransparent, materialLayout)
      ensures pipelineOpaque == old(pipelineOpaque) && pipelineTransparent == old(pipelineTransparent)
      ensures materialLayout == old(materialLayout) && builds == old(builds)
    {
      calls := calls + CleanupCalls(pipelineOpaque, pipelineTransparent, materialLayout);
    }
  }

  /** The material's whole lifetime: initialise_pipelines, then cleanup. */
  function LifetimeCalls(sceneDataLayout: Handle, materialLayout: Handle, pipelineLayout: Handle,
                         fragment: Handle, vertex: Handle, opaquePipe: Handle, transparentPipe: Handle): seq<SetupCall>
  {
    InitialiseCalls(sceneDataLayout, materialLayout, pipelineLayout, fragment, vertex, opaquePipe, transparentPipe)
    + CleanupCalls(MaterialPipeline(opaquePipe, pipelineLayout), MaterialPipeline(transparentPipe, pipelineLayout),
                   materialLayout)
  }

  /** Over the material's lifetime, with the driver handing out distinct
      pipeline handles: both pipelines are created on the one shared
      layout, each pipeline is destroyed exactly once, and the shared
      layout is created once and destroyed once (not once per pipeline),
      after both pipelines. */
  lemma SharedLayoutDestroyedOnce(sceneDataLayout: Handle, materialLayout: Handle, pipelineLayout: Handle,
                                  fragment: Handle, vertex: Handle, opaquePipe: Handle, transparentPipe: Handle)
    requires opaquePipe != transparentPipe
    ensures var c := LifetimeCalls(sceneDataLayout, materialLayout, pipelineLayout, fragment, vertex,
                                   opaquePipe, transparentPipe);
      |c| == 12 &&
      c[1].CreatePipelineLayout? && c[1].pipelineLayout == pipelineLayout &&
      c[4] == CreateGraphicsPipeline(opaquePipe, pipelineLayout) &&
      c[5] == CreateGraphicsPipeline(transparentPipe, pipelineLayout) &&
      c[8] == DestroyPipeline(opaquePipe) && c[9] == DestroyPipeline(transparentPipe) &&
      c[10] == DestroyPipelineLayout(pipelineLayout) &&
      multiset(c)[DestroyPipeline(opaquePipe)] == 1 && multiset(c)[DestroyPipeline(transparentPipe)] == 1 &&
      multiset(c)[DestroyPipelineLayout(pipelineLayout)] == 1
  {
    var init := InitialiseCalls(sceneDataLayout, materialLayout, pipelineLayout, fragment, vertex,
                                opaquePipe, transparentPipe);
    var cleanup := CleanupCalls(MaterialPipeline(opaquePipe, pipelineLayout),
                                MaterialPipeline(transparentPipe, pipelineLayout), materialLayout);
    InitialiseDestroysNoPipelineOrLayout(sceneDataLayout, materialLayout, pipelineLayout, fragment, vertex,
                                         opaquePipe, transparentPipe);
    CleanupDestroysPipelinesOnce(opaquePipe, transparentPipe, pipelineLayout, materialLayout);
    CleanupDestroysLayoutsOnce(opaquePipe, transparentPipe, pipelineLayout, materialLayout);
    CountInSuffix(init, cleanup, DestroyPipeline(opaquePipe));
    CountInSuffix(init, cleanup, DestroyPipeline(transparentPipe));
    CountInSuffix(init, cleanup, DestroyPipelineLayout(pipelineLayout));
    LifetimeOrder(sceneDataLayout, materialLayout, pipelineLayout, fragment, vertex, opaquePipe, transparentPipe);
  }

  /** Over the material's lifetime, with distinct shader handles: each
      shader module is created, outlives both pipeline builds, and is
      destroyed exactly once; the material layout is created first and
      destroyed exactly once, last, after the pipeline layout that refers
      to it. */
  lemma ShadersAndMaterialLayoutDestroyedOnce(sceneDataLayout: Handle, materialLayout: Handle, pipelineLayout: Handle,
                                              fragment: Handle, vertex: Handle, opaquePipe: Handle,
                                              transparentPipe: Handle)
    requires fragment != vertex
    ensures var c := LifetimeCalls(sceneDataLayout, materialLayout, pipelineLayout, fragment, vertex,
                                   opaquePipe, transparentPipe);
      |c| == 12 &&
      c[0] == CreateDescriptorSetLayout(materialLayout, MaterialLayoutInfo()) &&
      c[1].CreatePipelineLayout? && c[1].pipelineLayoutInfo.setLayouts == [sceneDataLayout, materialLayout] &&
      c[2] == CreateShaderModule(fragment) && c[3] == CreateShaderModule(vertex) &&
      c[4].CreateGraphicsPipeline? && c[5].CreateGraphicsPipeline? &&
      c[6] == DestroyShaderModule(fragment) && c[7] == DestroyShaderModule(vertex) &&
      c[11] == DestroyDescriptorSetLayout(materialLayout) &&
      multiset(c)[DestroyShaderModule(fragment)] == 1 && multiset(c)[DestroyShaderModule(vertex)] == 1 &&
      multiset(c)[DestroyDescriptorSetLayout(materialLayout)] == 1
  {
    var init := InitialiseCalls(sceneDataLayout, materialLayout, pipelineLayout, fragment, vertex,
                                opaquePipe, transparentPipe);
    var cleanup := CleanupCalls(MaterialPipeline(opaquePipe, pipelineLayout),
                                MaterialPipeline(transparentPipe, pipelineLayout), materialLayout);
    InitialiseDestroysNoPipelineOrLayout(sceneDataLayout, materialLayout, pipelineLayout, fragment, vertex,
                                         opaquePipe, transparentPipe);
    InitialiseDestroysShadersOnce(sceneDataLayout, materialLayout, pipelineLayout, fragment, vertex,
                                  opaquePipe, transparentPipe);
    CleanupDestroysLayoutsOnce(opaquePipe, transparentPipe, pipelineLayout, materialLayout);
    CountInSuffix(init, cleanup, DestroyDescriptorSetLayout(materialLayout));
    CountInPrefix(init, cleanup, DestroyShaderModule(fragment));
    CountInPrefix(init, cleanup, DestroyShaderModule(vertex));
    LifetimeOrder(sceneDataLayout, materialLayout, pipelineLayout, fragment, vertex, opaquePipe, transparentPipe);
  }

  /** The order of the material's lifetime: the material layout, the
      pipeline layout on both set layouts, the two shader modules, the two
      pipeline builds on the pipeline layout, the two shader destructions,
      then cleanup's destruction of both pipelines, the pipeline layout
      and the material layout. */
  lemma LifetimeOrder(sceneDataLayout: Handle, materialLayout: Handle, pipelineLayout: Handle,
                      fragment: Handle, vertex: Handle, opaquePipe: Handle, transparentPipe: Handle)
    ensures var c := LifetimeCalls(sceneDataLayout, materialLayout, pipelineLayout, fragment, vertex,
                                   opaquePipe, transparentPipe);
      |c| == 12 &&
      c[0] == CreateDescriptorSetLayout(materialLayout, MaterialLayoutInfo()) &&
      c[1].CreatePipelineLayout? && c[1].pipelineLayout == pipelineLayout &&
      c[1].pipelineLayoutInfo.setLayouts == [sceneDataLayout, materialLayout] &&
      c[2] == CreateShaderModule(fragment) && c[3] == CreateShaderModule(vertex) &&
      c[4] == CreateGraphicsPipeline(opaquePipe, pipelineLayout) &&
      c[5] == CreateGraphicsPipeline(transparentPipe, pipelineLayout) &&
      c[6] == DestroyShaderModule(fragment) && c[7] == DestroyShaderModule(vertex) &&
      c[8] == DestroyPipeline(opaquePipe) && c[9] == DestroyPipeline(transparentPipe) &&
      c[10] == DestroyPipelineLayout(pipelineLayout) && c[11] == DestroyDescriptorSetLayout(materialLayout)
  {
  }

  /** initialise_pipelines destroys no pipeline and no layout. */
  lemma InitialiseDestroysNoPipelineOrLayout(sceneDataLayout: Handle, materialLayout: Handle, pipelineLayout: Handle,
                                             fragment: Handle, vertex: Handle, opaquePipe: Handle,
                                             transparentPipe: Handle)
    ensures var init := InitialiseCalls(sceneDataLayout, materialLayout, pipelineLayout, fragment, vertex,
                                        opaquePipe, transparentPipe);
      DestroyPipeline(opaquePipe) !in init && DestroyPipeline(transparentPipe) !in init &&
      DestroyPipelineLayout(pipelineLayout) !in init && DestroyDescriptorSetLayout(materialLayout) !in init
  {
  }

  /** initialise_pipelines destroys each of its two shader modules once. */
  lemma InitialiseDestroysShadersOnce(sceneDataLayout: Handle, materialLayout: Handle, pipelineLayout: Handle,
                                      fragment: Handle, vertex: Handle, opaquePipe: Handle, transparentPipe: Handle)
    requires fragment != vertex
    ensures var init := InitialiseCalls(sceneDataLayout, materialLayout, pipelineLayout, fragment, vertex,
                                        opaquePipe, transparentPipe);
      multiset(init)[DestroyShaderModule(fragment)] == 1 && multiset(init)[DestroyShaderModule(vertex)] == 1
  {
    var init := InitialiseCalls(sceneDataLayout, materialLayout, pipelineLayout, fragment, vertex,
                                opaquePipe, transparentPipe);
    var builds, frees := init[..6], [DestroyShaderModule(fragment), DestroyShaderModule(vertex)];
    assert init == builds + frees;
    CountInSuffix(builds, frees, DestroyShaderModule(fragment));
    CountInSuffix(builds, frees, DestroyShaderModule(vertex));
  }

  /** Cleanup destroys each of two distinct pipelines once. */
  lemma CleanupDestroysPipelinesOnce(opaquePipe: Handle, transparentPipe: Handle, pipelineLayout: Handle,
                                     materialLayout: Handle)
    requires opaquePipe != transparentPipe
    ensures var cleanup := CleanupCalls(MaterialPipeline(opaquePipe, pipelineLayout),
                                        MaterialPipeline(transparentPipe, pipelineLayout), materialLayout);
      multiset(cleanup)[DestroyPipeline(opaquePipe)] == 1 && multiset(cleanup)[DestroyPipeline(transparentPipe)] == 1
  {
  }

  /** Cleanup destroys the shared pipeline layout once, the material
      layout once, and no shader module. */
  lemma CleanupDestroysLayoutsOnce(opaquePipe: Handle, transparentPipe: Handle, pipelineLayout: Handle,
                                   materialLayout: Handle)
    ensures var cleanup := CleanupCalls(MaterialPipeline(opaquePipe, pipelineLayout),
                                        MaterialPipeline(transparentPipe, pipelineLayout), materialLayout);
      multiset(cleanup)[DestroyPipelineLayout(pipelineLayout)] == 1 &&
      multiset(cleanup)[DestroyDescriptorSetLayout(materialLayout)] == 1 &&
      forall shader :: DestroyShaderModule(shader) !in cleanup
  {
  }

  /** Occurrences in a concatenation whose first part lacks the value. */
  lemma CountInSuffix<T>(a: seq<T>, b: seq<T>, x: T)
    requires x !in a
    ensures multiset(a + b)[x] == multiset(b)[x]
  {
    assert multiset(a + b) == multiset(a) + multiset(b);
  }

  /** Occurrences in a concatenation whose second part lacks the value. */
  lemma CountInPrefix<T>(a: seq<T>, b: seq<T>, x: T)
    requires x !in b
    ensures multiset(a + b)[x] == multiset(a)[x]
  {
    assert multiset(a + b) == multiset(a) + multiset(b);
  }
}
