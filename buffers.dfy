/** src/engine/renderer/buffers.c: buffer creation requests and the
    staging upload of a mesh. Host memory is little-endian, so a 32-bit
    word is laid out least significant byte first; a Vertex is its twelve
    32-bit fields in declaration order, with no padding (48 bytes). */
module Buffers {
  import opened Wrappers
  import opened Vulkan
  import opened RendererTypes
  import opened Frame
  import Renderer

  // ---------------------------------------------------------------------
  // Byte images of the uploaded data

  function WordBytes(w: Word): (b: seq<Byte>)
    ensures |b| == 4
  {
    [(w & 0xFF) as Byte, ((w >> 8) & 0xFF) as Byte, ((w >> 16) & 0xFF) as Byte, ((w >> 24) & 0xFF) as Byte]
  }

  function BytesWord(b: seq<Byte>): Word
    requires |b| == 4
  {
    (b[0] as Word) | ((b[1] as Word) << 8) | ((b[2] as Word) << 16) | ((b[3] as Word) << 24)
  }

  lemma WordRoundTrip(w: Word)
    ensures BytesWord(WordBytes(w)) == w
  {
  }

  lemma BytesRoundTrip(b: seq<Byte>)
    requires |b| == 4
    ensures WordBytes(BytesWord(b)) == b
  {
  }

  /** The bytes of a sequence of words, as memcpy sees them. */
  function EncodeWords(ws: seq<Word>): (b: seq<Byte>)
    ensures |b| == 4 * |ws|
  {
    if ws == [] then [] else WordBytes(ws[0]) + EncodeWords(ws[1..])
  }

  function DecodeWords(b: seq<Byte>): (ws: seq<Word>)
    requires |b| % 4 == 0
    ensures 4 * |ws| == |b|
  {
    if b == [] then [] else [BytesWord(b[..4])] + DecodeWords(b[4..])
  }

  lemma {:induction false} DecodeEncodeWords(ws: seq<Word>)
    ensures DecodeWords(EncodeWords(ws)) == ws
  {
    if ws != [] {
      var b := EncodeWords(ws);
      assert b[..4] == WordBytes(ws[0]) && b[4..] == EncodeWords(ws[1..]);
      WordRoundTrip(ws[0]);
      DecodeEncodeWords(ws[1..]);
    }
  }

  lemma {:induction false} EncodeDecodeWords(b: seq<Byte>)
    requires |b| % 4 == 0
    ensures EncodeWords(DecodeWords(b)) == b
  {
    if b != [] {
      var ws := DecodeWords(b);
      assert ws[0] == BytesWord(b[..4]) && ws[1..] == DecodeWords(b[4..]);
      BytesRoundTrip(b[..4]);
      EncodeDecodeWords(b[4..]);
      assert b == b[..4] + b[4..];
    }
  }

  /** struct Vertex in memory order. */
  function VertexWords(v: Vertex): (ws: seq<Word>)
    ensures |ws| * SIZEOF_UINT32 == SIZEOF_VERTEX
  {
    [v.position.x, v.position.y, v.position.z, v.uvX,
     v.normal.x, v.normal.y, v.normal.z, v.uvY,
     v.colour.x, v.colour.y, v.colour.z, v.colour.w]
  }

  function WordsVertex(ws: seq<Word>): Vertex
    requires |ws| == 12
  {
    Vertex(Vec3(ws[0], ws[1], ws[2]), ws[3], Vec3(ws[4], ws[5], ws[6]), ws[7],
           Vec4(ws[8], ws[9], ws[10], ws[11]))
  }

  function VerticesWords(vs: seq<Vertex>): (ws: seq<Word>)
    ensures |ws| == 12 * |vs|
  {
    if vs == [] then [] else VertexWords(vs[0]) + VerticesWords(vs[1..])
  }

  function WordsVertices(ws: seq<Word>): (vs: seq<Vertex>)
    requires |ws| % 12 == 0
    ensures 12 * |vs| == |ws|
  {
    if ws == [] then [] else [WordsVertex(ws[..12])] + WordsVertices(ws[12..])
  }

  lemma {:induction false} WordsVerticesRoundTrip(vs: seq<Vertex>)
    ensures WordsVertices(VerticesWords(vs)) == vs
  {
    if vs != [] {
      var ws := VerticesWords(vs);
      assert ws[..12] == VertexWords(vs[0]) && ws[12..] == VerticesWords(vs[1..]);
      WordsVerticesRoundTrip(vs[1..]);
    }
  }

  /** The bytes memcpy copies out of a Vertex array. */
  function EncodeVertices(vs: seq<Vertex>): (b: seq<Byte>)
    ensures |b| == |vs| * SIZEOF_VERTEX
  {
    EncodeWords(VerticesWords(vs))
  }

  /** Reading a byte range back as Vertex records; None unless the length
      is a whole number of records. */
  function DecodeVertices(b: seq<Byte>): (r: Option<seq<Vertex>>)
    ensures r.Some? <==> |b| % SIZEOF_VERTEX == 0
    ensures r.Some? ==> |r.value| * SIZEOF_VERTEX == |b|
  {
    if |b| % SIZEOF_VERTEX != 0 then None
    else Some(WordsVertices(DecodeWords(b)))
  }

  /** The bytes memcpy copies out of a uint32_t index array. */
  function EncodeIndices(idx: seq<Word>): (b: seq<Byte>)
    ensures |b| == |idx| * SIZEOF_UINT32
  {
    EncodeWords(idx)
  }

  function DecodeIndices(b: seq<Byte>): (r: Option<seq<Word>>)
    ensures r.Some? <==> |b| % SIZEOF_UINT32 == 0
    ensures r.Some? ==> |r.value| * SIZEOF_UINT32 == |b|
  {
    if |b| % SIZEOF_UINT32 != 0 then None else Some(DecodeWords(b))
  }

  lemma VerticesRoundTrip(vs: seq<Vertex>)
    ensures DecodeVertices(EncodeVertices(vs)) == Some(vs)
  {
    DecodeEncodeWords(VerticesWords(vs));
    WordsVerticesRoundTrip(vs);
  }

  lemma IndicesRoundTrip(idx: seq<Word>)
    ensures DecodeIndices(EncodeIndices(idx)) == Some(idx)
  {
    DecodeEncodeWords(idx);
  }

  /** Every well-sized index region is the image of exactly one index list. */
  lemma IndexBytesRoundTrip(b: seq<Byte>)
    requires |b| % SIZEOF_UINT32 == 0
    ensures DecodeIndices(b).Some? && EncodeIndices(DecodeIndices(b).value) == b
  {
    EncodeDecodeWords(b);
  }

  // ---------------------------------------------------------------------
  // buffer_create

  /** buffer_create's request: size and usage as given, the given memory
      usage, and always a mapped allocation. */
  function BufferRequest(size: nat, usage: Flags, memoryUsage: MemoryUsage): (info: BufferCreateInfo)
    ensures info.size == size && info.usage == usage && info.memoryUsage == memoryUsage
    ensures info.mapped
  {
    BufferCreateInfo(size, usage, memoryUsage, true)
  }

  const VERTEX_BUFFER_USAGE: Flags :=
    BUFFER_USAGE_STORAGE_BUFFER | BUFFER_USAGE_TRANSFER_DST | BUFFER_USAGE_SHADER_DEVICE_ADDRESS
  const INDEX_BUFFER_USAGE: Flags := BUFFER_USAGE_INDEX_BUFFER | BUFFER_USAGE_TRANSFER_DST
  const STAGING_BUFFER_USAGE: Flags := BUFFER_USAGE_TRANSFER_SRC

  /** Only the vertex buffer can be addressed from shaders; both GPU
      buffers can receive transfers and only the staging buffer can be a
      transfer source. */
  lemma UsageFlagsSeparateRoles()
    ensures VERTEX_BUFFER_USAGE & BUFFER_USAGE_SHADER_DEVICE_ADDRESS != 0
    ensures INDEX_BUFFER_USAGE & BUFFER_USAGE_SHADER_DEVICE_ADDRESS == 0
    ensures STAGING_BUFFER_USAGE & BUFFER_USAGE_SHADER_DEVICE_ADDRESS == 0
    ensures VERTEX_BUFFER_USAGE & BUFFER_USAGE_TRANSFER_DST != 0 && INDEX_BUFFER_USAGE & BUFFER_USAGE_TRANSFER_DST != 0
    ensures STAGING_BUFFER_USAGE & BUFFER_USAGE_TRANSFER_SRC != 0
    ensures VERTEX_BUFFER_USAGE & BUFFER_USAGE_TRANSFER_SRC == 0 && INDEX_BUFFER_USAGE & BUFFER_USAGE_TRANSFER_SRC == 0
  {
  }

  // ---------------------------------------------------------------------
  // The GPU side of a buffer-to-buffer copy

  /** vkCmdCopyBuffer with one region, on the byte contents of the two
      buffers; None when the region does not fit either buffer. */
  function CopyRegion(src: seq<Byte>, dst: seq<Byte>, c: BufferCopy): (r: Option<seq<Byte>>)
    ensures r.Some? <==> c.srcOffset + c.size <= |src| && c.dstOffset + c.size <= |dst|
    ensures r.Some? ==> |r.value| == |dst|
    ensures r.Some? ==> r.value[c.dstOffset..c.dstOffset + c.size] == src[c.srcOffset..c.srcOffset + c.size]
    ensures r.Some? ==> r.value[..c.dstOffset] == dst[..c.dstOffset]
    ensures r.Some? ==> r.value[c.dstOffset + c.size..] == dst[c.dstOffset + c.size..]
  {
    if c.srcOffset + c.size <= |src| && c.dstOffset + c.size <= |dst| then
      var r := dst[..c.dstOffset] + src[c.srcOffset..c.srcOffset + c.size] + dst[c.dstOffset + c.size..];
      assert r[..c.dstOffset] == dst[..c.dstOffset];
      assert r[c.dstOffset..c.dstOffset + c.size] == src[c.srcOffset..c.srcOffset + c.size];
      assert r[c.dstOffset + c.size..] == dst[c.dstOffset + c.size..];
      Some(r)
    else None
  }

  /** The buffer contents after the GPU runs the buffer copies among
      `cmds` in order; None when one names a buffer that does not exist or
      a region that does not fit. Other commands leave buffers alone. */
  function ExecuteCopies(memory: map<Handle, seq<Byte>>, cmds: seq<Command>): (r: Option<map<Handle, seq<Byte>>>)
    ensures r.Some? ==> r.value.Keys == memory.Keys
    decreases |cmds|
  {
    if cmds == [] then Some(memory)
    else match cmds[0]
      case CopyBuffer(src, dst, region) =>
        if src in memory && dst in memory then
          match CopyRegion(memory[src], memory[dst], region)
          case None => None
          case Some(bytes) => ExecuteCopies(memory[dst := bytes], cmds[1..])
        else None
      case _ => ExecuteCopies(memory, cmds[1..])
  }

  // ---------------------------------------------------------------------
  // upload_mesh

  /** The staging buffer's contents: the vertex bytes, then right after
      them the index bytes. */
  function StagingBytes(vertices: seq<Vertex>, indices: seq<Word>): seq<Byte> {
    EncodeVertices(vertices) + EncodeIndices(indices)
  }

  /** The two copy regions: staging [0, vsize) to the vertex buffer at 0 and
      staging [vsize, vsize + isize) to the index buffer at 0. */
  function UploadCopies(staging: Handle, vertexBuffer: Handle, indexBuffer: Handle, vsize: nat, isize: nat): seq<Command> {
    [CopyBuffer(staging, vertexBuffer, BufferCopy(0, 0, vsize)),
     CopyBuffer(staging, indexBuffer, BufferCopy(vsize, 0, isize))]
  }

  /** The buffer calls of upload_mesh: the vertex buffer's creation and
      the query of its device address, then the index and staging buffers'
      creations. */
  function UploadCreateCalls(vertexBuffer: Handle, indexBuffer: Handle, staging: Handle, vsize: nat, isize: nat):
    seq<Call>
  {
    [CreateBuffer(vertexBuffer, BufferRequest(vsize, VERTEX_BUFFER_USAGE, GpuOnly))]
    + [GetBufferDeviceAddress(vertexBuffer)]
    + [CreateBuffer(indexBuffer, BufferRequest(isize, INDEX_BUFFER_USAGE, GpuOnly))]
    + [CreateBuffer(staging, BufferRequest(vsize + isize, STAGING_BUFFER_USAGE, CpuOnly))]
  }

  /** The immediate submission of upload_mesh: begin, the vertex copy,
      the index copy, then end, submit and wait. */
  function ImmediateCopyCalls(immCmd: Handle, immFence: Handle, vertexBuffer: Handle, indexBuffer: Handle,
                              staging: Handle, vsize: nat, isize: nat): seq<Call>
  {
    [ResetFence(immFence), ResetCommandBuffer(immCmd), BeginCommandBuffer(immCmd)]
    + [Record(immCmd, CopyBuffer(staging, vertexBuffer, BufferCopy(0, 0, vsize)))]
    + [Record(immCmd, CopyBuffer(staging, indexBuffer, BufferCopy(vsize, 0, isize)))]
    + [EndCommandBuffer(immCmd),
       QueueSubmit(SubmitInfo([], [PIPELINE_STAGE_ALL_GRAPHICS], [immCmd], []), immFence),
       WaitForFence(immFence)]
  }

  /** The calls of upload_mesh up to the wait on the immediate fence. */
  function UploadSubmitCalls(immCmd: Handle, immFence: Handle, vertexBuffer: Handle, indexBuffer: Handle, staging: Handle,
                             vsize: nat, isize: nat): seq<Call>
  {
    UploadCreateCalls(vertexBuffer, indexBuffer, staging, vsize, isize)
    + ImmediateCopyCalls(immCmd, immFence, vertexBuffer, indexBuffer, staging, vsize, isize)
  }

  /** All the calls of upload_mesh: then the staging buffer is destroyed. */
  function UploadCalls(immCmd: Handle, immFence: Handle, vertexBuffer: Handle, indexBuffer: Handle, staging: Handle,
                       vsize: nat, isize: nat): seq<Call>
  {
    UploadSubmitCalls(immCmd, immFence, vertexBuffer, indexBuffer, staging, vsize, isize) + [DestroyBuffer(staging)]
  }

  lemma Regroup<T>(a: seq<T>, p: seq<T>, x: seq<T>)
    ensures a + p + x == a + (p + x)
  {
  }

  /** The two memcpy calls into freshly mapped staging memory. */
  method FillStaging(vertices: seq<Vertex>, indices: seq<Word>) returns (staging: array<Byte>)
    ensures fresh(staging)
    ensures staging[..] == StagingBytes(vertices, indices)
  {
    var vertexBytes := EncodeVertices(vertices);
    var indexBytes := EncodeIndices(indices);
    var vsize := |vertexBytes|;
    staging := new Byte[vsize + |indexBytes|];
    forall i | 0 <= i < vsize {
      staging[i] := vertexBytes[i];
    }
    forall i | 0 <= i < |indexBytes| {
      staging[vsize + i] := indexBytes[i];
    }
    assert staging[..] == vertexBytes + indexBytes;
  }

  /** upload_mesh. The buffers the allocator creates and the device
      address that vkGetBufferDeviceAddress returns for the vertex buffer
      (logged as a call) are supplied by the caller;
      `gpuFinishes` says whether the immediate submission completes within
      the timeout (when it does not, VK_CHECK exits and nothing after the
      wait runs). The returned array is the mapped staging memory. */
  method UploadMesh(r: Renderer.Renderer, indices: seq<Word>, vertices: seq<Vertex>,
                    vertexBuffer: Buffer, indexBuffer: Buffer, stagingBuffer: Buffer,
                    vertexAddress: nat, gpuFinishes: bool)
    returns (mesh: MeshBuffers, staging: array<Byte>, completed: bool)
    modifies r
    ensures fresh(staging)
    ensures staging[..] == StagingBytes(vertices, indices)
    ensures mesh == MeshBuffers(indexBuffer, vertexBuffer, vertexAddress)
    ensures completed == gpuFinishes
    ensures var vsize, isize := |vertices| * SIZEOF_VERTEX, |indices| * SIZEOF_UINT32;
      var submitted := UploadSubmitCalls(r.immCommandBuffer, r.immFence, vertexBuffer.buffer, indexBuffer.buffer,
                                         stagingBuffer.buffer, vsize, isize);
      r.calls == old(r.calls) + (if completed then submitted + [DestroyBuffer(stagingBuffer.buffer)] else submitted)
    ensures completed ==> r.immFenceStatus == Signalled
    ensures r.immCommandBuffer == old(r.immCommandBuffer) && r.immFence == old(r.immFence)
    ensures r.fenceStatus == old(r.fenceStatus) && r.frameInFlight == old(r.frameInFlight) && r.frame == old(r.frame)
    ensures r.resizeRequested == old(r.resizeRequested)
  {
    var vsize := |vertices| * SIZEOF_VERTEX;
    var isize := |indices| * SIZEOF_UINT32;
    ghost var start := r.calls;
    var log := r.calls + [CreateBuffer(vertexBuffer.buffer, BufferRequest(vsize, VERTEX_BUFFER_USAGE, GpuOnly))];
    log := log + [GetBufferDeviceAddress(vertexBuffer.buffer)];
    mesh := MeshBuffers(indexBuffer, vertexBuffer, vertexAddress);
    log := log + [CreateBuffer(indexBuffer.buffer, BufferRequest(isize, INDEX_BUFFER_USAGE, GpuOnly))];
    log := log + [CreateBuffer(stagingBuffer.buffer, BufferRequest(vsize + isize, STAGING_BUFFER_USAGE, CpuOnly))];
    r.calls := log;
    assert log == start + UploadCreateCalls(vertexBuffer.buffer, indexBuffer.buffer, stagingBuffer.buffer, vsize, isize) by {
      var c1, a, c2 := [CreateBuffer(vertexBuffer.buffer, BufferRequest(vsize, VERTEX_BUFFER_USAGE, GpuOnly))],
        [GetBufferDeviceAddress(vertexBuffer.buffer)],
        [CreateBuffer(indexBuffer.buffer, BufferRequest(isize, INDEX_BUFFER_USAGE, GpuOnly))];
      Regroup(start, c1, a);
      Regroup(start, c1 + a, c2);
      Regroup(start, c1 + a + c2,
              [CreateBuffer(stagingBuffer.buffer, BufferRequest(vsize + isize, STAGING_BUFFER_USAGE, CpuOnly))]);
    }
    staging := FillStaging(vertices, indices);
    completed := SubmitCopies(r, stagingBuffer.buffer, vertexBuffer.buffer, indexBuffer.buffer, vsize, isize, gpuFinishes);
    ghost var submitted := UploadSubmitCalls(r.immCommandBuffer, r.immFence, vertexBuffer.buffer, indexBuffer.buffer,
                                             stagingBuffer.buffer, vsize, isize);
    Regroup(start, UploadCreateCalls(vertexBuffer.buffer, indexBuffer.buffer, stagingBuffer.buffer, vsize, isize),
            ImmediateCopyCalls(r.immCommandBuffer, r.immFence, vertexBuffer.buffer, indexBuffer.buffer,
                               stagingBuffer.buffer, vsize, isize));
    if !completed {
      return;
    }
    r.calls := r.calls + [DestroyBuffer(stagingBuffer.buffer)];
    Regroup(start, submitted, [DestroyBuffer(stagingBuffer.buffer)]);
  }

  /** The immediate submission inside upload_mesh: immediate_begin, the
      two vkCmdCopyBuffer calls, immediate_end. */
  method SubmitCopies(r: Renderer.Renderer, staging: Handle, vertexBuffer: Handle, indexBuffer: Handle,
                      vsize: nat, isize: nat, gpuFinishes: bool) returns (completed: bool)
    modifies r
    ensures completed == gpuFinishes && (completed ==> r.immFenceStatus == Signalled)
    ensures r.calls == old(r.calls) + ImmediateCopyCalls(r.immCommandBuffer, r.immFence, vertexBuffer, indexBuffer,
                                                         staging, vsize, isize)
    ensures r.immCommandBuffer == old(r.immCommandBuffer) && r.immFence == old(r.immFence)
    ensures r.fenceStatus == old(r.fenceStatus) && r.frameInFlight == old(r.frameInFlight) && r.frame == old(r.frame)
    ensures r.resizeRequested == old(r.resizeRequested)
  {
    ghost var start := r.calls;
    r.ImmediateBegin();
    r.RecordImmediate(CopyBuffer(staging, vertexBuffer, BufferCopy(0, 0, vsize)));
    r.RecordImmediate(CopyBuffer(staging, indexBuffer, BufferCopy(vsize, 0, isize)));
    completed := r.ImmediateEnd(gpuFinishes);
    ghost var begin := [ResetFence(r.immFence), ResetCommandBuffer(r.immCommandBuffer), BeginCommandBuffer(r.immCommandBuffer)];
    ghost var v := [Record(r.immCommandBuffer, CopyBuffer(staging, vertexBuffer, BufferCopy(0, 0, vsize)))];
    ghost var i := [Record(r.immCommandBuffer, CopyBuffer(staging, indexBuffer, BufferCopy(vsize, 0, isize)))];
    ghost var end := [EndCommandBuffer(r.immCommandBuffer),
                      QueueSubmit(SubmitInfo([], [PIPELINE_STAGE_ALL_GRAPHICS], [r.immCommandBuffer], []), r.immFence),
                      WaitForFence(r.immFence)];
    Regroup(start, begin, v);
    Regroup(start, begin + v, i);
    Regroup(start, begin + v + i, end);
  }

  /** The staging layout: bytes [0, vsize) are the vertices and bytes
      [vsize, vsize + isize) are the indices. */
  lemma StagingLayout(vertices: seq<Vertex>, indices: seq<Word>)
    ensures var b, vsize := StagingBytes(vertices, indices), |vertices| * SIZEOF_VERTEX;
      |b| == vsize + |indices| * SIZEOF_UINT32 &&
      DecodeVertices(b[..vsize]) == Some(vertices) && DecodeIndices(b[vsize..]) == Some(indices)
  {
    var b, vsize := StagingBytes(vertices, indices), |vertices| * SIZEOF_VERTEX;
    assert b[..vsize] == EncodeVertices(vertices) && b[vsize..] == EncodeIndices(indices);
    VerticesRoundTrip(vertices);
    IndicesRoundTrip(indices);
  }

  /** Running the two recorded copies from a staging buffer that holds
      what upload_mesh wrote leaves the vertex buffer holding exactly the
      vertices and the index buffer exactly the indices, whatever the two
      new buffers held before, as long as the three buffers are distinct
      and sized as requested. */
  lemma UploadDeliversMesh(vertices: seq<Vertex>, indices: seq<Word>, memory: map<Handle, seq<Byte>>,
                           staging: Handle, vertexBuffer: Handle, indexBuffer: Handle)
    requires staging != vertexBuffer && staging != indexBuffer && vertexBuffer != indexBuffer
    requires staging in memory && memory[staging] == StagingBytes(vertices, indices)
    requires vertexBuffer in memory && |memory[vertexBuffer]| == |vertices| * SIZEOF_VERTEX
    requires indexBuffer in memory && |memory[indexBuffer]| == |indices| * SIZEOF_UINT32
    ensures var vsize, isize := |vertices| * SIZEOF_VERTEX, |indices| * SIZEOF_UINT32;
      var after := ExecuteCopies(memory, UploadCopies(staging, vertexBuffer, indexBuffer, vsize, isize));
      after.Some? &&
      DecodeVertices(after.value[vertexBuffer]) == Some(vertices) &&
      DecodeIndices(after.value[indexBuffer]) == Some(indices) &&
      after.value[staging] == memory[staging]
  {
    var vsize, isize := |vertices| * SIZEOF_VERTEX, |indices| * SIZEOF_UINT32;
    var b := memory[staging];
    StagingLayout(vertices, indices);
    CopyFillsDestination(b, memory[vertexBuffer], 0);
    var m1 := memory[vertexBuffer := b[..vsize]];
    CopyFillsDestination(b, memory[indexBuffer], vsize);
    assert b[vsize..vsize + isize] == b[vsize..];
    var cmds := UploadCopies(staging, vertexBuffer, indexBuffer, vsize, isize);
    CopyStep(memory, cmds, b[..vsize]);
    CopyStep(m1, cmds[1..], b[vsize..]);
    assert cmds[1..][1..] == [];
  }

  /** A copy region that starts at destination offset 0 and is as long as
      the destination replaces the destination's whole contents. */
  lemma CopyFillsDestination(src: seq<Byte>, dst: seq<Byte>, offset: nat)
    requires offset + |dst| <= |src|
    ensures CopyRegion(src, dst, BufferCopy(offset, 0, |dst|)) == Some(src[offset..offset + |dst|])
  {
    var r := CopyRegion(src, dst, BufferCopy(offset, 0, |dst|));
    assert r.value == r.value[0..|dst|];
  }

  /** One step of ExecuteCopies: a leading copy whose region fits moves
      on with the destination replaced. */
  lemma CopyStep(memory: map<Handle, seq<Byte>>, cmds: seq<Command>, bytes: seq<Byte>)
    requires cmds != [] && cmds[0].CopyBuffer? && cmds[0].src in memory && cmds[0].dst in memory
    requires CopyRegion(memory[cmds[0].src], memory[cmds[0].dst], cmds[0].copy) == Some(bytes)
    ensures ExecuteCopies(memory, cmds) == ExecuteCopies(memory[cmds[0].dst := bytes], cmds[1..])
  {
  }

  /** The order upload_mesh relies on: the vertex buffer's address is
      queried right after that buffer is created; the two copies, and nothing else,
      are recorded after recording begins and before it ends, the submit follows, the wait on
      the immediate fence follows the submit, and the staging buffer is
      destroyed only after that wait, as the very last call. */
  lemma UploadCallOrder(immCmd: Handle, immFence: Handle, vertexBuffer: Handle, indexBuffer: Handle, staging: Handle,
                        vsize: nat, isize: nat)
    ensures var c := UploadCalls(immCmd, immFence, vertexBuffer, indexBuffer, staging, vsize, isize);
      |c| == 13 &&
      c[0].CreateBuffer? && c[0].buffer == vertexBuffer && c[1] == GetBufferDeviceAddress(vertexBuffer) &&
      c[6] == BeginCommandBuffer(immCmd) &&
      c[7] == Record(immCmd, CopyBuffer(staging, vertexBuffer, BufferCopy(0, 0, vsize))) &&
      c[8] == Record(immCmd, CopyBuffer(staging, indexBuffer, BufferCopy(vsize, 0, isize))) &&
      c[9] == EndCommandBuffer(immCmd) && c[10].QueueSubmit? && c[10].fence == immFence &&
      c[11] == WaitForFence(immFence) && c[12] == DestroyBuffer(staging) &&
      (forall k :: 0 <= k < 12 ==> !c[k].DestroyBuffer?) &&
      c[7..9] == Records(immCmd, UploadCopies(staging, vertexBuffer, indexBuffer, vsize, isize))
  {
    var recs := Records(immCmd, UploadCopies(staging, vertexBuffer, indexBuffer, vsize, isize));
    assert recs == [Record(immCmd, CopyBuffer(staging, vertexBuffer, BufferCopy(0, 0, vsize))),
                    Record(immCmd, CopyBuffer(staging, indexBuffer, BufferCopy(vsize, 0, isize)))];
  }
}
