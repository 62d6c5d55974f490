/** The renderer's own entities (src/engine/renderer/renderer.h). */
module RendererTypes {
  import opened Vulkan

  /** Number of rotating frame slots. */
  const FRAMES_IN_FLIGHT: nat := 3

  /** The values of a C `uint8_t`. */
  type u8 = x: nat | x < 0x100

  type Byte = bv8
  /** A 32-bit machine word: a `uint32_t`, or the bit pattern of a `float`. */
  type Word = bv32

  /** Floating-point vectors are kept as their bit patterns: the renderer
      only copies them, it never computes with them in the modelled code. */
  datatype Vec3 = Vec3(x: Word, y: Word, z: Word)
  datatype Vec4 = Vec4(x: Word, y: Word, z: Word, w: Word)

  /** struct Vertex: 12 floats, so sizeof(Vertex) is 48 bytes. */
  datatype Vertex = Vertex(position: Vec3, uvX: Word, normal: Vec3, uvY: Word, colour: Vec4)

  const SIZEOF_VERTEX: nat := 48
  const SIZEOF_UINT32: nat := 4
  /** sizeof(MaterialMetallicConstants): two vec4 plus 14 vec4 of padding. */
  const SIZEOF_MATERIAL_CONSTANTS: nat := 256
  /** sizeof(PushConstants): cglm's mat4 is 64 bytes aligned to 16, the
      64-bit device address follows at offset 64, and the struct is padded
      to its 16-byte alignment, so 80 bytes. */
  const SIZEOF_PUSH_CONSTANTS: nat := 80

  /** A 4x4 matrix, opaque: either one supplied by a caller or one
      translated by a fixed offset (glm_translate). */
  datatype Transform = Matrix(id: nat) | Translated(base: Transform, dx: int, dy: int, dz: int)

  datatype Buffer = Buffer(buffer: Handle, allocation: Handle)

  datatype Image = Image(image: Handle, view: Handle, allocation: Handle, extent: Extent3D, format: Format)

  datatype MaterialPass = MainColour | Transparent

  datatype MaterialPipeline = MaterialPipeline(pipeline: Handle, layout: Handle)

  /** Which of the two MaterialPipeline fields of a MaterialMetallic an
      instance points at. */
  datatype PipelineChoice = OpaquePipeline | TransparentPipeline

  datatype MaterialInstance = MaterialInstance(
    pipeline: PipelineChoice, materialSet: Handle, passType: MaterialPass)

  datatype MaterialMetallicResources = MaterialMetallicResources(
    colourImage: Image, colourSampler: Handle,
    metalRoughImage: Image, metalRoughSampler: Handle,
    dataBuffer: Handle, dataBufferOffset: u32)

  /** The material a render object points at; the scene collector always
      uses the renderer's default material instance. */
  datatype MaterialRef = DefaultMaterialInstance

  datatype RenderObject = RenderObject(
    transform: Transform, material: MaterialRef,
    vertexBufferAddress: nat, indexBuffer: Handle,
    indexCount: u32, firstIndex: u32)

  datatype MeshBuffers = MeshBuffers(indexBuffer: Buffer, vertexBuffer: Buffer, vertexBufferAddress: nat)

  datatype GeoSurface = GeoSurface(startIndex: u32, count: u32)

  /** struct Mesh; n_surfaces is the length of `surfaces`. */
  datatype Mesh = Mesh(surfaces: seq<GeoSurface>, meshBuffers: MeshBuffers)
}
