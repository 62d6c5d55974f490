/** src/engine/renderer/pipeline.c: descriptor set layouts and pools, the
    draw-image descriptor, and the compute pipeline's creation and
    cleanup. */
module Pipelines {
  import opened Wrappers
  import opened Vulkan

  /** One binding with `stages` added to its stage mask. */
  function AddStages(b: DescriptorSetLayoutBinding, stages: Flags): DescriptorSetLayoutBinding {
    b.(stageFlags := b.stageFlags | stages)
  }

  /** The bindings after create_descriptor_set_layout's loop: every
      binding's stage mask gains `stages`; nothing else changes. */
  function WithStages(bindings: seq<DescriptorSetLayoutBinding>, stages: Flags): (r: seq<DescriptorSetLayoutBinding>)
    ensures |r| == |bindings|
  {
    seq(|bindings|, i requires 0 <= i < |bindings| => AddStages(bindings[i], stages))
  }

  lemma OrZero(x: Flags)
    ensures 0 | x == x
  {
  }

  lemma OrKeeps(x: Flags, y: Flags)
    ensures (x | y) & x == x
  {
  }

  lemma OrAdds(x: Flags, y: Flags)
    ensures (x | y) & y == y
  {
  }

  /** Adding stages keeps every bit already set, sets every requested
      bit, and leaves the binding number, type and count alone. */
  lemma WithStagesKeepsAndAdds(bindings: seq<DescriptorSetLayoutBinding>, stages: Flags, i: nat)
    requires i < |bindings|
    ensures var b, b' := bindings[i], WithStages(bindings, stages)[i];
      b'.stageFlags & b.stageFlags == b.stageFlags && b'.stageFlags & stages == stages &&
      b'.binding == b.binding && b'.descriptorType == b.descriptorType && b'.descriptorCount == b.descriptorCount
  {
    OrKeeps(bindings[i].stageFlags, stages);
    OrAdds(bindings[i].stageFlags, stages);
  }

  /** Adding the same stages twice is adding them once. */
  lemma WithStagesIdempotent(bindings: seq<DescriptorSetLayoutBinding>, stages: Flags)
    ensures WithStages(WithStages(bindings, stages), stages) == WithStages(bindings, stages)
  {
    var once := WithStages(bindings, stages);
    forall i | 0 <= i < |bindings|
      ensures WithStages(once, stages)[i] == once[i]
    {
      var x := bindings[i].stageFlags;
      assert (x | stages) | stages == x | stages;
    }
  }

  /** create_descriptor_set_layout: ORs `stages` into the first n bindings
      in place and creates a layout over exactly those n bindings.
      `created` is the handle the driver returns. */
  method CreateSetLayout(bindings: array<DescriptorSetLayoutBinding>, n: nat, stages: Flags, flags: Flags,
                                   created: Handle)
    returns (layout: Handle, info: DescriptorSetLayoutCreateInfo)
    requires n <= bindings.Length
    modifies bindings
    ensures bindings[..n] == WithStages(old(bindings[..n]), stages)
    ensures bindings[n..] == old(bindings[n..])
    ensures info == DescriptorSetLayoutCreateInfo(bindings[..n], flags)
    ensures layout == created
  {
    ghost var before := bindings[..];
    for i := 0 to n
      invariant forall k :: 0 <= k < i ==> bindings[k] == AddStages(before[k], stages)
      invariant forall k :: i <= k < bindings.Length ==> bindings[k] == before[k]
    {
      bindings[i] := AddStages(bindings[i], stages);
    }
    assert bindings[..n] == WithStages(before[..n], stages);
    info := DescriptorSetLayoutCreateInfo(bindings[..n], flags);
    layout := created;
  }

  /** create_descriptor_pool: pool size i has type types[i] and
      ratios[i] * max_sets descriptors, computed in uint32_t arithmetic
      (so reduced modulo 2^32); the pool allows max_sets sets and has n
      pool sizes. */
  method CreatePool(maxSets: u32, types: array<DescriptorType>, ratios: array<u32>, n: nat)
    returns (info: DescriptorPoolCreateInfo)
    requires n <= types.Length && n <= ratios.Length
    ensures info.maxSets == maxSets && |info.poolSizes| == n
    ensures forall i :: 0 <= i < n ==>
      info.poolSizes[i].descriptorType == types[i] &&
      info.poolSizes[i].descriptorCount == ToU32(ratios[i] * maxSets)
    ensures forall i :: 0 <= i < n && ratios[i] * maxSets <= UINT32_MAX ==>
      info.poolSizes[i].descriptorCount == ratios[i] * maxSets
  {
    var poolSizes := new DescriptorPoolSize[n](_ => DescriptorPoolSize(CombinedImageSampler, 0));
    for i := 0 to n
      invariant forall k :: 0 <= k < i ==>
        poolSizes[k] == DescriptorPoolSize(types[k], ToU32(ratios[k] * maxSets))
    {
      poolSizes[i] := DescriptorPoolSize(types[i], ToU32(ratios[i] * maxSets));
    }
    info := DescriptorPoolCreateInfo(maxSets, poolSizes[..]);
  }

  /** How many sets the draw-image descriptor pool is created for. */
  const DRAW_IMAGE_MAX_SETS: u32 := 10

  /** The fields of struct Renderer that pipeline.c sets, and the calls
      it makes on the device. */
  class ComputePipeline {
    var descriptorPool: Handle
    var drawImageDescLayout: Handle
    var drawImageDescSet: Handle
    var pipelineLayout: Handle
    var pipeline: Handle
    var calls: seq<SetupCall>

    constructor ()
      ensures calls == []
    {
      descriptorPool, drawImageDescLayout, drawImageDescSet := NULL_HANDLE, NULL_HANDLE, NULL_HANDLE;
      pipelineLayout, pipeline := NULL_HANDLE, NULL_HANDLE;
      calls := [];
    }

    /** descriptors_initialise: a pool for 10 sets of storage images, a
        one-binding compute layout, one set from the pool, and one write
        pointing binding 0 at the draw image's view in GENERAL layout. The
        three handles are the driver's. */
    method DescriptorsInitialise(drawImageView: Handle, pool: Handle, setLayout: Handle, descSet: Handle)
      modifies this
      ensures descriptorPool == pool && drawImageDescLayout == setLayout && drawImageDescSet == descSet
      ensures calls == old(calls) + DescriptorSetup(drawImageView, pool, setLayout, descSet)
      ensures pipelineLayout == old(pipelineLayout) && pipeline == old(pipeline)
    {
      var types := new DescriptorType[1](_ => StorageImage);
      var ratios := new u32[1](_ => 1);
      var poolInfo := CreatePool(DRAW_IMAGE_MAX_SETS, types, ratios, 1);
      assert poolInfo.poolSizes == [DescriptorPoolSize(StorageImage, 10)];
      calls := calls + [CreateDescriptorPool(pool, poolInfo)];
      descriptorPool := pool;

      var bindings := new DescriptorSetLayoutBinding[1](_ => DescriptorSetLayoutBinding(0, StorageImage, 1, 0));
      var layout, layoutInfo := CreateSetLayout(bindings, 1, SHADER_STAGE_COMPUTE, 0, setLayout);
      OrZero(SHADER_STAGE_COMPUTE);
      assert layoutInfo.bindings == [DescriptorSetLayoutBinding(0, StorageImage, 1, SHADER_STAGE_COMPUTE)];
      calls := calls + [CreateDescriptorSetLayout(layout, layoutInfo)];
      drawImageDescLayout := layout;

      calls := calls + [AllocateDescriptorSet(descriptorPool, drawImageDescLayout, descSet)];
      drawImageDescSet := descSet;

      var imageInfo := DescriptorImageInfo(NULL_HANDLE, drawImageView, General);
      var write := WriteDescriptorSet(drawImageDescSet, 0, 1, StorageImage, None, Some(imageInfo));
      calls := calls + [UpdateDescriptorSets([write])];
    }

    /** create_pipeline_layout: one set layout, the draw-image layout, and
        no push constants. */
    method CreateLayout(created: Handle)
      modifies this
      ensures pipelineLayout == created
      ensures calls == old(calls) + [CreatePipelineLayout(created, PipelineLayoutCreateInfo([drawImageDescLayout], []))]
      ensures descriptorPool == old(descriptorPool) && drawImageDescLayout == old(drawImageDescLayout)
      ensures drawImageDescSet == old(drawImageDescSet) && pipeline == old(pipeline)
    {
      calls := calls + [CreatePipelineLayout(created, PipelineLayoutCreateInfo([drawImageDescLayout], []))];
      pipelineLayout := created;
    }

    /** create_pipeline: the compute shader module is created, the
        pipeline is created over it with the pipeline layout, and only then
        is the module destroyed. */
    method CreatePipeline(shader: Handle, created: Handle)
      modifies this
      ensures pipeline == created
      ensures calls == old(calls) + [CreateShaderModule(shader), CreateComputePipeline(created, pipelineLayout, shader),
                                     DestroyShaderModule(shader)]
      ensures descriptorPool == old(descriptorPool) && drawImageDescLayout == old(drawImageDescLayout)
      ensures drawImageDescSet == old(drawImageDescSet) && pipelineLayout == old(pipelineLayout)
    {
      calls := calls + [CreateShaderModule(shader)];
      calls := calls + [CreateComputePipeline(created, pipelineLayout, shader)];
      pipeline := created;
      calls := calls + [DestroyShaderModule(shader)];
    }

    /** pipeline_initialise. */
    method Initialise(drawImageView: Handle, pool: Handle, setLayout: Handle, descSet: Handle,
                      layout: Handle, shader: Handle, created: Handle)
      modifies this
      ensures calls == old(calls) + InitialiseCalls(drawImageView, pool, setLayout, descSet, layout, shader, created)
      ensures descriptorPool == pool && drawImageDescLayout == setLayout && drawImageDescSet == descSet
      ensures pipelineLayout == layout && pipeline == created
    {
      DescriptorsInitialise(drawImageView, pool, setLayout, descSet);
      CreateLayout(layout);
      CreatePipeline(shader, created);
    }

    /** pipeline_cleanup: the pipeline, then its layout, then the pool
        (which frees the set), then the set layout. */
    method Cleanup()
      modifies this
      ensures calls == old(calls) + CleanupCalls(pipeline, pipelineLayout, descriptorPool, drawImageDescLayout)
      ensures descriptorPool == old(descriptorPool) && drawImageDescLayout == old(drawImageDescLayout)
      ensures drawImageDescSet == old(drawImageDescSet) && pipelineLayout == old(pipelineLayout)
      ensures pipeline == old(pipeline)
    {
      calls := calls + [DestroyPipeline(pipeline)];
      calls := calls + [DestroyPipelineLayout(pipelineLayout)];
      calls := calls + [DestroyDescriptorPool(descriptorPool)];
      calls := calls + [DestroyDescriptorSetLayout(drawImageDescLayout)];
    }
  }

  /** The calls of descriptors_initialise. */
  function DescriptorSetup(drawImageView: Handle, pool: Handle, setLayout: Handle, descSet: Handle): seq<SetupCall> {
    [CreateDescriptorPool(pool, DescriptorPoolCreateInfo(DRAW_IMAGE_MAX_SETS, [DescriptorPoolSize(StorageImage, 10)])),
     CreateDescriptorSetLayout(setLayout, DescriptorSetLayoutCreateInfo(
       [DescriptorSetLayoutBinding(0, StorageImage, 1, SHADER_STAGE_COMPUTE)], 0)),
     AllocateDescriptorSet(pool, setLayout, descSet),
     UpdateDescriptorSets([WriteDescriptorSet(descSet, 0, 1, StorageImage, None,
                                              Some(DescriptorImageInfo(NULL_HANDLE, drawImageView, General)))])]
  }

  function InitialiseCalls(drawImageView: Handle, pool: Handle, setLayout: Handle, descSet: Handle,
                           layout: Handle, shader: Handle, created: Handle): seq<SetupCall>
  {
    DescriptorSetup(drawImageView, pool, setLayout, descSet)
    + [CreatePipelineLayout(layout, PipelineLayoutCreateInfo([setLayout], []))]
    + [CreateShaderModule(shader), CreateComputePipeline(created, layout, shader), DestroyShaderModule(shader)]
  }

  function CleanupCalls(pipeline: Handle, layout: Handle, pool: Handle, setLayout: Handle): seq<SetupCall> {
    [DestroyPipeline(pipeline), DestroyPipelineLayout(layout), DestroyDescriptorPool(pool),
     DestroyDescriptorSetLayout(setLayout)]
  }

  /** Whether a write fits a layout: the layout has a binding with the
      write's number, descriptor type and count. */
  predicate WriteFitsLayout(w: WriteDescriptorSet, layout: DescriptorSetLayoutCreateInfo) {
    exists b :: b in layout.bindings &&
      b.binding == w.dstBinding && b.descriptorType == w.descriptorType && b.descriptorCount == w.descriptorCount
  }

  /** descriptors_initialise is self-consistent: the set comes from the
      new pool with the new layout, its one write fits that layout (for a
      storage image the write carries an image, in GENERAL layout, on the
      draw image's view), the pool has room for it, and the layout is
      visible to the compute stage only. */
  lemma DrawImageDescriptorConsistent(drawImageView: Handle, pool: Handle, setLayout: Handle, descSet: Handle)
    ensures var c := DescriptorSetup(drawImageView, pool, setLayout, descSet);
      |c| == 4 && c[0].CreateDescriptorPool? && c[1].CreateDescriptorSetLayout? && c[3].UpdateDescriptorSets? &&
      c[2] == AllocateDescriptorSet(c[0].pool, c[1].setLayout, descSet) &&
      |c[3].writes| == 1 && c[3].writes[0].dstSet == descSet &&
      WriteFitsLayout(c[3].writes[0], c[1].layoutInfo) &&
      c[3].writes[0].imageInfo == Some(DescriptorImageInfo(NULL_HANDLE, drawImageView, General)) &&
      c[3].writes[0].bufferInfo.None? &&
      (forall b :: b in c[1].layoutInfo.bindings ==> b.stageFlags == SHADER_STAGE_COMPUTE) &&
      c[0].poolInfo.maxSets >= 1 &&
      (exists s :: s in c[0].poolInfo.poolSizes && s.descriptorType == StorageImage &&
                   s.descriptorCount >= c[3].writes[0].descriptorCount)
  {
    var c := DescriptorSetup(drawImageView, pool, setLayout, descSet);
    assert c[1].layoutInfo.bindings[0] in c[1].layoutInfo.bindings;
    assert c[0].poolInfo.poolSizes[0] in c[0].poolInfo.poolSizes;
  }


  /** Across pipeline_initialise and pipeline_cleanup every object is
      destroyed after it is created, the shader module is destroyed only
      after the pipeline that uses it has been created, the pipeline goes
      before its layout, and the set layout goes last, after the pipeline
      layout that refers to it and after the pool that holds its set. */
  lemma PipelineLifecycleOrdered(drawImageView: Handle, pool: Handle, setLayout: Handle, descSet: Handle,
                                 layout: Handle, shader: Handle, created: Handle)
    ensures var c := InitialiseCalls(drawImageView, pool, setLayout, descSet, layout, shader, created)
                     + CleanupCalls(created, layout, pool, setLayout);
      |c| == 12 &&
      c[4] == CreatePipelineLayout(layout, PipelineLayoutCreateInfo([setLayout], [])) &&
      c[5] == CreateShaderModule(shader) && c[6] == CreateComputePipeline(created, layout, shader) &&
      c[7] == DestroyShaderModule(shader) &&
      c[8] == DestroyPipeline(created) && c[9] == DestroyPipelineLayout(layout) &&
      c[10] == DestroyDescriptorPool(pool) && c[11] == DestroyDescriptorSetLayout(setLayout) &&
      c[0].CreateDescriptorPool? && c[0].pool == pool &&
      c[1].CreateDescriptorSetLayout? && c[1].setLayout == setLayout
  {
  }
}
