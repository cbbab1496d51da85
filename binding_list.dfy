/** ForgeBindingList.cpp: the resources bound for a draw, each checked
    against the shader's reflected description before it is stored. A check
    that fails logs an error, stores nothing and returns false. */
module ForgeBindingList {
  import opened Vk
  import opened ForgeBuffer
  import opened ForgeShader

  /** FORGE_MAX_VERTEX_BUFFER_BINDINGS; FORGE_MAX_IMAGE_BINDINGS is the
      shader's `MaxImageBindings`. */
  const MaxVertexBufferBindings: nat := 16

  /** VK_BUFFER_USAGE_INDEX_BUFFER_BIT and VK_BUFFER_USAGE_VERTEX_BUFFER_BIT. */
  const BufferUsageIndexBit: bv32 := 0x40
  const BufferUsageVertexBit: bv32 := 0x80

  /** VK_IMAGE_USAGE_SAMPLED_BIT and VK_IMAGE_USAGE_STORAGE_BIT. */
  const ImageUsageSampledBit: bv32 := 0x4
  const ImageUsageStorageBit: bv32 := 0x8

  /** A `std::pair<uint32_t, void*>`: the size of a uniform block and the
      host address of its data. */
  datatype UniformRef = UniformRef(size: nat, data: nat)

  /** The parts of `ForgeImage` the binding list looks at. ForgeImage.cpp is
      not part of this model. */
  class Image {
    const viewType: nat
    const usage: bv32

    constructor (viewType: nat, usage: bv32)
      ensures this.viewType == viewType && this.usage == usage
    {
      this.viewType := viewType;
      this.usage := usage;
    }
  }

  /** The image usage a layout demands: storage images need the storage bit,
      every other image the sampled bit. */
  function RequiredImageUsage(layout: ImageLayout): bv32 {
    if layout.storage then ImageUsageStorageBit else ImageUsageSampledBit
  }

  /** The check of `forge_binding_list_uniform_write`. */
  predicate UniformAccepted(layout: seq<UniformBlock>, binding: nat, block: UniformRef) {
    binding < MaxUniforms && binding < |layout| && layout[binding].size == block.size
  }

  /** The checks of `forge_binding_list_vertex_buffer_bind`. */
  predicate VertexBufferAccepted(attributes: seq<InputAttribute>, binding: nat, usage: bv32) {
    binding < MaxVertexBufferBindings && binding < |attributes| && attributes[binding].name != ""
    && usage & BufferUsageVertexBit != 0
  }

  /** The check of `forge_binding_list_index_buffer_bind`. */
  predicate IndexBufferAccepted(usage: bv32) {
    usage & BufferUsageIndexBit != 0
  }

  /** The checks of `forge_binding_list_image_bind`. */
  predicate ImageAccepted(layouts: seq<ImageLayout>, binding: nat, viewType: nat, usage: bv32) {
    binding < MaxImageBindings && binding < |layouts| && layouts[binding].viewType == viewType
    && usage & RequiredImageUsage(layouts[binding]) != 0
  }

  /** A storage slot never accepts an image that is only sampled, and a
      sampled slot never accepts one that is only a storage image. */
  lemma ImageUsageMatters(layouts: seq<ImageLayout>, binding: nat, viewType: nat)
    requires binding < |layouts|
    ensures layouts[binding].storage ==> !ImageAccepted(layouts, binding, viewType, ImageUsageSampledBit)
    ensures !layouts[binding].storage ==> !ImageAccepted(layouts, binding, viewType, ImageUsageStorageBit)
  {
  }

  /** Every uniform slot in use holds a block of the size its layout declares. */
  predicate UniformsConsistent(bound: seq<UniformRef>, layout: seq<UniformBlock>) {
    forall i :: 0 <= i < |bound| && bound[i] != UniformRef(0, 0) ==> i < |layout| && bound[i].size == layout[i].size
  }

  /** Every image bound to a slot passes the checks for that slot. */
  predicate ImagesConsistent(bound: seq<Image?>, layouts: seq<ImageLayout>) {
    forall i :: 0 <= i < |bound| && bound[i] != null ==> ImageAccepted(layouts, i, bound[i].viewType, bound[i].usage)
  }

  /** Every vertex buffer bound to a slot passes the checks for that slot. */
  predicate VertexBuffersConsistent(bound: seq<Buffer?>, attributes: seq<InputAttribute>)
    reads set i | 0 <= i < |bound| :: bound[i]
  {
    forall i :: 0 <= i < |bound| && bound[i] != null ==> VertexBufferAccepted(attributes, i, bound[i].description.usage)
  }

  /** Storing a block the check accepted keeps the uniforms consistent. */
  lemma UniformStoreConsistent(bound: seq<UniformRef>, layout: seq<UniformBlock>, binding: nat, block: UniformRef)
    requires UniformsConsistent(bound, layout) && binding < |bound| && UniformAccepted(layout, binding, block)
    ensures UniformsConsistent(bound[binding := block], layout)
  {
  }

  /** Storing an image the checks accepted keeps the images consistent. */
  lemma ImageStoreConsistent(bound: seq<Image?>, layouts: seq<ImageLayout>, binding: nat, image: Image)
    requires ImagesConsistent(bound, layouts) && binding < |bound| && ImageAccepted(layouts, binding, image.viewType, image.usage)
    ensures ImagesConsistent(bound[binding := image], layouts)
  {
  }

  /** Storing a vertex buffer the checks accepted keeps the vertex buffers consistent. */
  lemma VertexBufferStoreConsistent(bound: seq<Buffer?>, attributes: seq<InputAttribute>, binding: nat, buffer: Buffer)
    requires VertexBuffersConsistent(bound, attributes) && binding < |bound|
    requires VertexBufferAccepted(attributes, binding, buffer.description.usage)
    ensures VertexBuffersConsistent(bound[binding := buffer], attributes)
  {
  }

  /** `ForgeBindingList`. */
  class BindingList {
    const uniforms: array<UniformRef>
    const vertexBuffers: array<Buffer?>
    var indexBuffer: Buffer?
    const images: array<Image?>

    predicate Valid()
      reads this
    {
      && uniforms.Length == MaxUniforms
      && vertexBuffers.Length == MaxVertexBufferBindings
      && images.Length == MaxImageBindings
      && uniforms as object != vertexBuffers && uniforms as object != images && vertexBuffers as object != images
    }

    /** A value-initialised list: nothing bound. */
    constructor ()
      ensures Valid() && fresh(uniforms) && fresh(vertexBuffers) && fresh(images)
      ensures indexBuffer == null
      ensures forall i :: 0 <= i < MaxUniforms ==> uniforms[i] == UniformRef(0, 0)
      ensures forall i :: 0 <= i < MaxVertexBufferBindings ==> vertexBuffers[i] == null
      ensures forall i :: 0 <= i < MaxImageBindings ==> images[i] == null
    {
      uniforms := new UniformRef[MaxUniforms](_ => UniformRef(0, 0));
      vertexBuffers := new Buffer?[MaxVertexBufferBindings](_ => null);
      indexBuffer := null;
      images := new Image?[MaxImageBindings](_ => null);
    }

    /** Every bound uniform block has the size the shader declares for its
        slot, every bound vertex buffer and image passed the checks for its
        slot, and the index buffer, if any, has index usage. */
    predicate Consistent(shader: Shader)
      reads this, uniforms, vertexBuffers, images, shader, shader.uniforms, shader.attributes, shader.images
      reads set i | 0 <= i < vertexBuffers.Length :: vertexBuffers[i]
      reads indexBuffer
    {
      && UniformsConsistent(uniforms[..], shader.uniforms[..])
      && VertexBuffersConsistent(vertexBuffers[..], shader.attributes[..])
      && (indexBuffer != null ==> IndexBufferAccepted(indexBuffer.description.usage))
      && ImagesConsistent(images[..], shader.images[..])
    }
  }

  /** `forge_binding_list_uniform_write`. */
  method UniformWrite(list: BindingList, shader: Shader, binding: nat, block: UniformRef) returns (ok: bool)
    requires list.Valid() && shader.Valid()
    modifies list.uniforms
    ensures ok == UniformAccepted(old(shader.uniforms[..]), binding, block)
    ensures list.uniforms[..] == if ok then old(list.uniforms[..])[binding := block] else old(list.uniforms[..])
    ensures old(list.Consistent(shader)) ==> list.Consistent(shader)
  {
    if binding >= MaxUniforms {
      return false;
    }
    if shader.uniforms[binding].size != block.size {
      return false;
    }
    ghost var before := list.uniforms[..];
    if list.Consistent(shader) {
      UniformStoreConsistent(before, shader.uniforms[..], binding, block);
    }
    list.uniforms[binding] := block;
    ok := true;
  }

  /** `forge_binding_list_vertex_buffer_bind`. */
  method VertexBufferBind(list: BindingList, shader: Shader, binding: nat, buffer: Buffer) returns (ok: bool)
    requires list.Valid() && shader.Valid()
    modifies list.vertexBuffers
    ensures old(list.Consistent(shader)) ==> list.Consistent(shader)
    ensures ok == VertexBufferAccepted(shader.attributes[..], binding, buffer.description.usage)
    ensures list.vertexBuffers[..] == if ok then old(list.vertexBuffers[..])[binding := buffer] else old(list.vertexBuffers[..])
  {
    if binding >= MaxVertexBufferBindings {
      return false;
    }
    if shader.attributes[binding].name == "" {
      return false;
    }
    if buffer.description.usage & BufferUsageVertexBit == 0 {
      return false;
    }
    ghost var before := list.vertexBuffers[..];
    if list.Consistent(shader) {
      VertexBufferStoreConsistent(before, shader.attributes[..], binding, buffer);
    }
    list.vertexBuffers[binding] := buffer;
    ok := true;
  }

  /** `forge_binding_list_index_buffer_bind`. */
  method IndexBufferBind(list: BindingList, shader: Shader, buffer: Buffer) returns (ok: bool)
    modifies list
    ensures ok == IndexBufferAccepted(buffer.description.usage)
    ensures list.indexBuffer == if ok then buffer else old(list.indexBuffer)
    ensures old(list.Consistent(shader)) ==> list.Consistent(shader)
  {
    if buffer.description.usage & BufferUsageIndexBit == 0 {
      return false;
    }
    list.indexBuffer := buffer;
    ok := true;
  }

  /** `forge_binding_list_image_bind`. */
  method ImageBind(list: BindingList, shader: Shader, binding: nat, image: Image) returns (ok: bool)
    requires list.Valid() && shader.Valid()
    modifies list.images
    ensures ok == ImageAccepted(shader.images[..], binding, image.viewType, image.usage)
    ensures list.images[..] == if ok then old(list.images[..])[binding := image] else old(list.images[..])
    ensures old(list.Consistent(shader)) ==> list.Consistent(shader)
  {
    if binding >= MaxImageBindings {
      return false;
    }
    var layout := shader.images[binding];
    if layout.viewType != image.viewType {
      return false;
    }
    if layout.storage {
      if image.usage & ImageUsageStorageBit == 0 {
        return false;
      }
    } else {
      if image.usage & ImageUsageSampledBit == 0 {
        return false;
      }
    }
    assert ImageAccepted(shader.images[..], binding, image.viewType, image.usage);
    ghost var before := list.images[..];
    if list.Consistent(shader) {
      ImageStoreConsistent(before, shader.images[..], binding, image);
    }
    list.images[binding] := image;
    ok := true;
  }
}
