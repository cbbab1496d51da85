/** ForgeSwapchain.cpp: the presentation surface, the swapchain built on it and
    its negotiation with what the surface supports, the recreation after a
    resize, and the release. The surface queries (capabilities, present
    modes, formats) are inputs; their own result checks are not modelled. */
module ForgeSwapchain {
  import opened Vk
  import opened Forge
  import opened ForgeUtils

  /** FORGE_SWAPCHIAN_INFLIGH_FRAMES. */
  const InFlightFrames: nat := 2

  /** VK_COLOR_SPACE_SRGB_NONLINEAR_KHR. */
  const ColorSpaceSrgbNonlinear: nat := 0

  /** VkExtent2D. */
  datatype Extent = Extent(width: nat, height: nat)

  /** `ForgeSwapchainDescription`; `window` is the native window, 0 for nullptr. */
  datatype SwapchainDescription = SwapchainDescription(
    window: nat, presentMode: nat, extent: Extent, format: nat, imagesCount: nat)

  /** The members of VkSurfaceCapabilitiesKHR the RHI reads. */
  datatype SurfaceCapabilities = SurfaceCapabilities(minImageCount: nat, maxImageCount: nat, currentExtent: Extent)

  /** What `vkGetSwapchainImagesKHR` answers: whether the call worked at all
      and the images the new swapchain owns. */
  datatype ImagesAnswer = ImagesAnswer(answered: bool, available: seq<Handle>)

  /** What the platform and the driver answer while a swapchain is initialised.
      `win32` says whether the build targets the Win32 surface platform;
      `semaphoresCreated` is how many of the semaphore creations, in call
      order, succeed before the first one that fails. */
  datatype SwapchainDevice = SwapchainDevice(
    win32: bool,
    surfaceCreated: bool,
    capabilities: SurfaceCapabilities,
    presentModes: seq<nat>,
    formats: seq<SurfaceFormat>,
    swapchainCreated: bool,
    images: ImagesAnswer,
    semaphoresCreated: nat)

  // ---------------------------------------------------------------------------
  // Negotiation

  /** The image count `_forge_swapchain_init` settles on: too few images is a
      failure; more than a non-zero maximum is clamped to it. */
  function NegotiatedImageCount(requested: nat, caps: SurfaceCapabilities): (r: Option<nat>)
    ensures r.None? <==> requested < caps.minImageCount
    ensures r.Some? ==> r.value == requested || r.value == caps.maxImageCount
    ensures r.Some? && caps.maxImageCount > 0 ==> r.value <= caps.maxImageCount
    ensures r.Some? && caps.maxImageCount == 0 ==> r.value == requested
    ensures r.Some? && (caps.maxImageCount == 0 || caps.minImageCount <= caps.maxImageCount) ==> caps.minImageCount <= r.value
  {
    if requested < caps.minImageCount then None
    else if caps.maxImageCount > 0 && requested > caps.maxImageCount then Some(caps.maxImageCount)
    else Some(requested)
  }

  /** Negotiating a count that was already negotiated changes nothing, for
      capabilities whose maximum (when there is one) is at least the minimum. */
  lemma ImageCountSettles(requested: nat, caps: SurfaceCapabilities)
    requires caps.maxImageCount == 0 || caps.minImageCount <= caps.maxImageCount
    requires NegotiatedImageCount(requested, caps).Some?
    ensures NegotiatedImageCount(NegotiatedImageCount(requested, caps).value, caps) == NegotiatedImageCount(requested, caps)
  {
  }

  /** The present mode: the requested one when the surface supports it, FIFO otherwise. */
  function NegotiatedPresentMode(requested: nat, modes: seq<nat>): (r: nat)
    ensures r == requested || r == PresentModeFifo
    ensures r == requested <==> requested in modes || requested == PresentModeFifo
    ensures r != PresentModeFifo ==> r in modes
  {
    if PresentModeSupport(modes, requested) then requested else PresentModeFifo
  }

  /** Negotiating the present mode twice is negotiating it once. */
  lemma PresentModeSettles(requested: nat, modes: seq<nat>)
    ensures NegotiatedPresentMode(NegotiatedPresentMode(requested, modes), modes) == NegotiatedPresentMode(requested, modes)
  {
  }

  /** The format is usable only paired with SRGB_NONLINEAR. */
  predicate FormatSupported(format: nat, formats: seq<SurfaceFormat>) {
    SurfaceFormatSupport(formats, SurfaceFormat(format, ColorSpaceSrgbNonlinear))
  }

  /** The description after negotiation, when the image count was acceptable. */
  function Negotiated(d: SwapchainDescription, device: SwapchainDevice): SwapchainDescription
    requires NegotiatedImageCount(d.imagesCount, device.capabilities).Some?
  {
    d.(imagesCount := NegotiatedImageCount(d.imagesCount, device.capabilities).value,
       presentMode := NegotiatedPresentMode(d.presentMode, device.presentModes))
  }

  // ---------------------------------------------------------------------------
  // Reading back the images

  /** `n` null handles: what `std::vector::resize` puts in an empty vector. */
  function Nulls(n: nat): (r: seq<Handle>)
    ensures |r| == n && forall i :: 0 <= i < n ==> r[i] == Null
  {
    if n == 0 then [] else Nulls(n - 1) + [Null]
  }

  /** `vkGetSwapchainImagesKHR` succeeds when it can write every image into
      the room it is given; with too little room it reports VK_INCOMPLETE. */
  predicate ImagesRetrieved(capacity: nat, answer: ImagesAnswer) {
    answer.answered && |answer.available| <= capacity
  }

  /** The images vector after the call: as many images as fit, the rest of
      the resized vector left null. */
  function RetrievedImages(capacity: nat, answer: ImagesAnswer): (r: seq<Handle>)
    ensures |r| == capacity
    ensures ImagesRetrieved(capacity, answer) ==> r[..|answer.available|] == answer.available
  {
    if !answer.answered then Nulls(capacity)
    else if |answer.available| <= capacity then answer.available + Nulls(capacity - |answer.available|)
    else answer.available[..capacity]
  }

  /** The count the call writes back through its count pointer. */
  function RetrievedCount(capacity: nat, answer: ImagesAnswer): (r: nat)
    ensures ImagesRetrieved(capacity, answer) ==> r == |answer.available|
    ensures r <= capacity
  {
    if !answer.answered then capacity
    else if |answer.available| <= capacity then |answer.available|
    else capacity
  }

  /** The trace of reading back the images. */
  function ImagesEffects(capacity: nat, answer: ImagesAnswer): seq<Effect> {
    if ImagesRetrieved(capacity, answer) then [] else [ResultCheckFailed(GetSwapchainImages)]
  }

  // ---------------------------------------------------------------------------
  // The swapchain object

  /** `ForgeSwapchain`. `image_index` and `fence` are not used by the code modelled. */
  class Swapchain {
    var handle: Handle
    var surface: Handle
    var colorSpace: nat
    var images: seq<Handle>
    const imageAvailable: array<Handle>
    const renderingDone: array<Handle>
    var description: SwapchainDescription

    predicate Valid()
      reads this
    {
      imageAvailable.Length == InFlightFrames && renderingDone.Length == InFlightFrames
      && imageAvailable != renderingDone
    }

    /** `new ForgeSwapchain()` followed by the copy of the description. */
    constructor (description: SwapchainDescription)
      ensures Valid() && fresh(imageAvailable) && fresh(renderingDone)
      ensures handle == Null && surface == Null && colorSpace == 0 && images == []
      ensures forall i :: 0 <= i < InFlightFrames ==> imageAvailable[i] == Null && renderingDone[i] == Null
      ensures this.description == description
    {
      handle := Null;
      surface := Null;
      colorSpace := 0;
      images := [];
      imageAvailable := new Handle[InFlightFrames](_ => Null);
      renderingDone := new Handle[InFlightFrames](_ => Null);
      this.description := description;
    }
  }

  // ---------------------------------------------------------------------------
  // `_forge_swapchain_init`, one phase at a time

  /** The surface phase succeeds: a window, the Win32 platform, and a surface. */
  predicate SurfaceReady(d: SwapchainDescription, device: SwapchainDevice) {
    d.window != 0 && device.win32 && device.surfaceCreated
  }

  function SurfaceEffects(d: SwapchainDescription, device: SwapchainDevice, surface: Handle): seq<Effect> {
    if d.window == 0 || !device.win32 then []
    else if !device.surfaceCreated then [ResultCheckFailed(CreateSurface)]
    else [NamedObject(SurfaceObject, surface, "Surface")]
  }

  /** Lines 15-38: the window check, the platform and the surface. */
  method SurfaceInit(forge: Forge, swapchain: Swapchain, device: SwapchainDevice) returns (ok: bool)
    modifies forge, swapchain
    ensures ok == SurfaceReady(swapchain.description, device)
    ensures swapchain.surface == if ok then old(forge.lastHandle) + 1 else old(swapchain.surface)
    ensures swapchain.handle == old(swapchain.handle) && swapchain.description == old(swapchain.description)
    ensures swapchain.colorSpace == old(swapchain.colorSpace) && swapchain.images == old(swapchain.images)
    ensures forge.trace == old(forge.trace) + SurfaceEffects(swapchain.description, device, old(forge.lastHandle) + 1)
    ensures forge.lastHandle == old(forge.lastHandle) + (if ok then 1 else 0)
    ensures forge.nextCheckPoint == old(forge.nextCheckPoint)
  {
    if swapchain.description.window == 0 {
      return false;
    }
    if !device.win32 {
      return false;
    }
    if !device.surfaceCreated {
      forge.Emit(ResultCheckFailed(CreateSurface));
      return false;
    }
    var surface := forge.NewHandle();
    swapchain.surface := surface;
    forge.Emit(NamedObject(SurfaceObject, surface, "Surface"));
    ok := true;
  }

  /** The negotiation phase succeeds: enough images and a usable format. */
  predicate NegotiationSucceeds(d: SwapchainDescription, device: SwapchainDevice) {
    NegotiatedImageCount(d.imagesCount, device.capabilities).Some? && FormatSupported(d.format, device.formats)
  }

  /** Lines 46-97: the image count, the present mode and the format, each
      rewritten in place. A format failure leaves the first two rewritten. */
  method Negotiate(swapchain: Swapchain, device: SwapchainDevice) returns (ok: bool)
    modifies swapchain
    ensures ok == NegotiationSucceeds(old(swapchain.description), device)
    ensures swapchain.description == if NegotiatedImageCount(old(swapchain.description).imagesCount, device.capabilities).Some?
                                     then Negotiated(old(swapchain.description), device) else old(swapchain.description)
    ensures swapchain.colorSpace == if ok then ColorSpaceSrgbNonlinear else old(swapchain.colorSpace)
    ensures swapchain.handle == old(swapchain.handle) && swapchain.surface == old(swapchain.surface)
    ensures swapchain.images == old(swapchain.images)
  {
    var caps := device.capabilities;
    if swapchain.description.imagesCount < caps.minImageCount {
      return false;
    }
    if caps.maxImageCount > 0 && swapchain.description.imagesCount > caps.maxImageCount {
      swapchain.description := swapchain.description.(imagesCount := caps.maxImageCount);
    }
    if !PresentModeSupport(device.presentModes, swapchain.description.presentMode) {
      swapchain.description := swapchain.description.(presentMode := PresentModeFifo);
    }
    var surfaceFormat := SurfaceFormat(swapchain.description.format, ColorSpaceSrgbNonlinear);
    if SurfaceFormatSupport(device.formats, surfaceFormat) {
      swapchain.colorSpace := surfaceFormat.colorSpace;
    } else {
      return false;
    }
    ok := true;
  }

  function CreationEffects(capacity: nat, device: SwapchainDevice, handle: Handle): seq<Effect> {
    if !device.swapchainCreated then [ResultCheckFailed(CreateSwapchain)]
    else [NamedObject(SwapchainObject, handle, "Swapchain")] + ImagesEffects(capacity, device.images)
  }

  /** Lines 99-139: the swapchain and its images. */
  method CreationInit(forge: Forge, swapchain: Swapchain, device: SwapchainDevice) returns (ok: bool)
    modifies forge, swapchain
    ensures ok == (device.swapchainCreated && ImagesRetrieved(old(swapchain.description.imagesCount), device.images))
    ensures swapchain.handle == if device.swapchainCreated then old(forge.lastHandle) + 1 else old(swapchain.handle)
    ensures swapchain.images == if device.swapchainCreated then RetrievedImages(old(swapchain.description.imagesCount), device.images)
                                else old(swapchain.images)
    ensures swapchain.description == if device.swapchainCreated
                                     then old(swapchain.description).(imagesCount := RetrievedCount(old(swapchain.description.imagesCount), device.images))
                                     else old(swapchain.description)
    ensures swapchain.surface == old(swapchain.surface) && swapchain.colorSpace == old(swapchain.colorSpace)
    ensures forge.trace == old(forge.trace) + CreationEffects(old(swapchain.description.imagesCount), device, old(forge.lastHandle) + 1)
    ensures forge.lastHandle == old(forge.lastHandle) + (if device.swapchainCreated then 1 else 0)
    ensures forge.nextCheckPoint == old(forge.nextCheckPoint)
  {
    if !device.swapchainCreated {
      forge.Emit(ResultCheckFailed(CreateSwapchain));
      return false;
    }
    var h := forge.NewHandle();
    swapchain.handle := h;
    forge.Emit(NamedObject(SwapchainObject, h, "Swapchain"));
    ok := ImagesQuery(forge, swapchain, device.images);
  }

  /** Resizing the images vector to the image count and reading the images
      back, which also writes the count (lines 128-139 and 204-217). */
  method ImagesQuery(forge: Forge, swapchain: Swapchain, answer: ImagesAnswer) returns (ok: bool)
    modifies forge, swapchain
    ensures ok == ImagesRetrieved(old(swapchain.description.imagesCount), answer)
    ensures swapchain.images == RetrievedImages(old(swapchain.description.imagesCount), answer)
    ensures swapchain.description == old(swapchain.description).(imagesCount := RetrievedCount(old(swapchain.description.imagesCount), answer))
    ensures swapchain.handle == old(swapchain.handle) && swapchain.surface == old(swapchain.surface)
    ensures swapchain.colorSpace == old(swapchain.colorSpace)
    ensures forge.trace == old(forge.trace) + ImagesEffects(old(swapchain.description.imagesCount), answer)
    ensures forge.lastHandle == old(forge.lastHandle) && forge.nextCheckPoint == old(forge.nextCheckPoint)
  {
    var capacity := swapchain.description.imagesCount;
    swapchain.images := RetrievedImages(capacity, answer);
    swapchain.description := swapchain.description.(imagesCount := RetrievedCount(capacity, answer));
    ok := ImagesRetrieved(capacity, answer);
    if !ok {
      forge.Emit(ResultCheckFailed(GetSwapchainImages));
    }
  }

  /** Both semaphores of every in-flight frame are created. */
  predicate SemaphoresReady(device: SwapchainDevice) {
    device.semaphoresCreated >= 2 * InFlightFrames
  }

  function SemaphoreEffects(device: SwapchainDevice): seq<Effect> {
    if SemaphoresReady(device) then [] else [ResultCheckFailed(CreateSemaphore)]
  }

  /** The `j`th semaphore creation, in call order, with its handle when it succeeds. */
  function SemaphoreHandle(created: nat, j: nat, first: Handle, previous: Handle): Handle {
    if j < created then first + j else previous
  }

  /** Lines 141-162: per frame, the image-available semaphore and then the
      rendering-done one; the first failure ends the loop. */
  method SemaphoresInit(forge: Forge, swapchain: Swapchain, device: SwapchainDevice) returns (ok: bool)
    requires swapchain.Valid()
    modifies forge, swapchain.imageAvailable, swapchain.renderingDone
    ensures ok == SemaphoresReady(device)
    ensures forall i :: 0 <= i < InFlightFrames ==>
              && swapchain.imageAvailable[i] == SemaphoreHandle(device.semaphoresCreated, 2 * i, old(forge.lastHandle) + 1, old(swapchain.imageAvailable[i]))
              && swapchain.renderingDone[i] == SemaphoreHandle(device.semaphoresCreated, 2 * i + 1, old(forge.lastHandle) + 1, old(swapchain.renderingDone[i]))
    ensures forge.trace == old(forge.trace) + SemaphoreEffects(device)
    ensures forge.lastHandle == old(forge.lastHandle) + if ok then 2 * InFlightFrames else device.semaphoresCreated
    ensures forge.nextCheckPoint == old(forge.nextCheckPoint)
  {
    ghost var first := forge.lastHandle + 1;
    ghost var available := swapchain.imageAvailable[..];
    ghost var done := swapchain.renderingDone[..];
    for i := 0 to InFlightFrames
      invariant 2 * i <= device.semaphoresCreated
      invariant forge.lastHandle == first - 1 + 2 * i
      invariant forge.trace == old(forge.trace) && forge.nextCheckPoint == old(forge.nextCheckPoint)
      invariant forall k :: 0 <= k < InFlightFrames ==>
                  && swapchain.imageAvailable[k] == (if k < i then first + 2 * k else available[k])
                  && swapchain.renderingDone[k] == (if k < i then first + 2 * k + 1 else done[k])
    {
      if device.semaphoresCreated <= 2 * i {
        forge.Emit(ResultCheckFailed(CreateSemaphore));
        return false;
      }
      var a := forge.NewHandle();
      swapchain.imageAvailable[i] := a;
      if device.semaphoresCreated <= 2 * i + 1 {
        forge.Emit(ResultCheckFailed(CreateSemaphore));
        return false;
      }
      var r := forge.NewHandle();
      swapchain.renderingDone[i] := r;
    }
    ok := true;
  }

  /** Every phase of `_forge_swapchain_init` succeeds. */
  predicate InitSucceeds(d: SwapchainDescription, device: SwapchainDevice) {
    && SurfaceReady(d, device)
    && NegotiationSucceeds(d, device)
    && device.swapchainCreated
    && ImagesRetrieved(Negotiated(d, device).imagesCount, device.images)
    && SemaphoresReady(device)
  }

  /** The phases up to the swapchain creation succeed, so a swapchain handle exists. */
  predicate SwapchainMade(d: SwapchainDescription, device: SwapchainDevice) {
    SurfaceReady(d, device) && NegotiationSucceeds(d, device) && device.swapchainCreated
  }

  /** The trace of `_forge_swapchain_init`, which stops at the first failing
      phase. `h` is the handle the driver gave out last before it. */
  function InitEffects(d: SwapchainDescription, device: SwapchainDevice, h: Handle): seq<Effect> {
    SurfaceEffects(d, device, h + 1)
    + if !SurfaceReady(d, device) || !NegotiationSucceeds(d, device) then []
      else CreationEffects(Negotiated(d, device).imagesCount, device, h + 2)
           + if !device.swapchainCreated || !ImagesRetrieved(Negotiated(d, device).imagesCount, device.images) then []
             else SemaphoreEffects(device)
  }

  /** How many handles `_forge_swapchain_init` obtains from the driver: the
      surface, the swapchain and the semaphores created before a failure. */
  function InitHandles(d: SwapchainDescription, device: SwapchainDevice): (n: nat)
    ensures InitSucceeds(d, device) ==> n == 2 + 2 * InFlightFrames
    ensures !SurfaceReady(d, device) ==> n == 0
  {
    (if SurfaceReady(d, device) then 1 else 0)
    + (if SwapchainMade(d, device) then 1 else 0)
    + (if SwapchainMade(d, device) && ImagesRetrieved(Negotiated(d, device).imagesCount, device.images)
       then (if SemaphoresReady(device) then 2 * InFlightFrames else device.semaphoresCreated)
       else 0)
  }

  /** `_forge_swapchain_init`. */
  method Init(forge: Forge, swapchain: Swapchain, device: SwapchainDevice) returns (ok: bool)
    requires swapchain.Valid()
    modifies forge, swapchain, swapchain.imageAvailable, swapchain.renderingDone
    ensures ok == InitSucceeds(old(swapchain.description), device)
    ensures swapchain.surface == if SurfaceReady(old(swapchain.description), device) then old(forge.lastHandle) + 1 else old(swapchain.surface)
    ensures swapchain.handle == if SwapchainMade(old(swapchain.description), device) then old(forge.lastHandle) + 2 else old(swapchain.handle)
    ensures ok ==>
              && swapchain.description == Negotiated(old(swapchain.description), device).(imagesCount := |device.images.available|)
              && swapchain.images == RetrievedImages(Negotiated(old(swapchain.description), device).imagesCount, device.images)
              && swapchain.colorSpace == ColorSpaceSrgbNonlinear
              && forall i :: 0 <= i < InFlightFrames ==>
                   swapchain.imageAvailable[i] == old(forge.lastHandle) + 3 + 2 * i
                   && swapchain.renderingDone[i] == old(forge.lastHandle) + 4 + 2 * i
    ensures forge.trace == old(forge.trace) + InitEffects(old(swapchain.description), device, old(forge.lastHandle))
    ensures forge.lastHandle == old(forge.lastHandle) + InitHandles(old(swapchain.description), device)
    ensures forge.nextCheckPoint == old(forge.nextCheckPoint)
  {
    ghost var d := swapchain.description;
    ghost var h := forge.lastHandle;
    ghost var t0 := forge.trace;
    ok := SurfaceInit(forge, swapchain, device);
    if !ok {
      return;
    }
    ghost var t1 := forge.trace;
    ok := Negotiate(swapchain, device);
    if !ok {
      return;
    }
    assert swapchain.description == Negotiated(d, device);
    ok := CreationInit(forge, swapchain, device);
    if !ok {
      return;
    }
    ghost var t2 := forge.trace;
    assert t2 == t1 + CreationEffects(Negotiated(d, device).imagesCount, device, h + 2);
    ok := SemaphoresInit(forge, swapchain, device);
    assert forge.trace == t2 + SemaphoreEffects(device);
  }

  /** The trace of `_forge_swapchain_free`: the swapchain and the surface, when
      they exist. The four semaphores are not destroyed. */
  function FreeEffects(handle: Handle, surface: Handle): (es: seq<Effect>)
    ensures Destroyed(DestroySwapchainKHR, handle) in es <==> handle != Null
    ensures Destroyed(DestroySurfaceKHR, surface) in es <==> surface != Null
    ensures forall e :: e in es ==> e.Destroyed? && e.call != DestroySemaphore
  {
    (if handle != Null then [Destroyed(DestroySwapchainKHR, handle)] else [])
    + (if surface != Null then [Destroyed(DestroySurfaceKHR, surface)] else [])
  }

  /** `forge_swapchain_destroy` and `_forge_swapchain_free`. */
  method Destroy(forge: Forge, swapchain: Swapchain?)
    modifies forge, swapchain
    ensures swapchain != null ==> swapchain.images == []
    ensures swapchain != null ==> swapchain.handle == old(swapchain.handle) && swapchain.surface == old(swapchain.surface)
    ensures forge.trace == old(forge.trace) + if swapchain == null then [] else FreeEffects(swapchain.handle, swapchain.surface)
    ensures forge.lastHandle == old(forge.lastHandle) && forge.nextCheckPoint == old(forge.nextCheckPoint)
  {
    if swapchain != null {
      if swapchain.handle != Null {
        forge.Emit(Destroyed(DestroySwapchainKHR, swapchain.handle));
      }
      if swapchain.surface != Null {
        forge.Emit(Destroyed(DestroySurfaceKHR, swapchain.surface));
      }
      swapchain.images := [];
    }
  }

  /** The trace of `forge_swapchain_new`: the initialisation, then the release
      of whatever exists when it fails. */
  function NewEffects(d: SwapchainDescription, device: SwapchainDevice, h: Handle): seq<Effect> {
    InitEffects(d, device, h)
    + if InitSucceeds(d, device) then []
      else FreeEffects(if SwapchainMade(d, device) then h + 2 else Null, if SurfaceReady(d, device) then h + 1 else Null)
  }

  /** `forge_swapchain_new`. */
  method New(forge: Forge, description: SwapchainDescription, device: SwapchainDevice) returns (swapchain: Swapchain?)
    modifies forge
    ensures swapchain != null <==> InitSucceeds(description, device)
    ensures swapchain != null ==>
              && fresh(swapchain) && swapchain.Valid()
              && swapchain.surface == old(forge.lastHandle) + 1 && swapchain.handle == old(forge.lastHandle) + 2
              && swapchain.description == Negotiated(description, device).(imagesCount := |device.images.available|)
              && swapchain.images == RetrievedImages(Negotiated(description, device).imagesCount, device.images)
              && swapchain.colorSpace == ColorSpaceSrgbNonlinear
              && forall i :: 0 <= i < InFlightFrames ==>
                   swapchain.imageAvailable[i] == old(forge.lastHandle) + 3 + 2 * i
                   && swapchain.renderingDone[i] == old(forge.lastHandle) + 4 + 2 * i
    ensures forge.trace == old(forge.trace) + NewEffects(description, device, old(forge.lastHandle))
    ensures forge.lastHandle == old(forge.lastHandle) + InitHandles(description, device)
    ensures forge.nextCheckPoint == old(forge.nextCheckPoint)
  {
    ghost var t0, h0 := forge.trace, forge.lastHandle;
    swapchain := new Swapchain(description);
    assert forge.trace == t0 && forge.lastHandle == h0;
    var ok := Init(forge, swapchain, device);
    if !ok {
      ghost var t1 := forge.trace;
      Destroy(forge, swapchain);
      assert forge.trace == t1 + FreeEffects(swapchain.handle, swapchain.surface);
      swapchain := null;
    }
  }

  /** A failed `forge_swapchain_new` releases the surface and the swapchain it
      made, but not a semaphore. */
  lemma FailedNewReleases(d: SwapchainDescription, device: SwapchainDevice, h: Handle)
    requires !InitSucceeds(d, device)
    ensures SurfaceReady(d, device) ==> Destroyed(DestroySurfaceKHR, h + 1) in NewEffects(d, device, h)
    ensures SwapchainMade(d, device) ==> Destroyed(DestroySwapchainKHR, h + 2) in NewEffects(d, device, h)
    ensures forall e :: e in NewEffects(d, device, h) && e.Destroyed? ==> e.call != DestroySemaphore
  {
  }

  // ---------------------------------------------------------------------------
  // Recreation after a resize

  /** What the driver answers while a swapchain is recreated. */
  datatype RecreateDevice = RecreateDevice(swapchainCreated: bool, images: ImagesAnswer)

  /** `forge_swapchain_update` recreates only for a non-empty extent that
      differs from the stored one. */
  predicate UpdateNeeded(current: Extent, stored: Extent) {
    current.width != 0 && current.height != 0 && current != stored
  }

  /** Once the stored extent is the current one, no further update is needed. */
  lemma UpdateSettles(current: Extent)
    ensures !UpdateNeeded(current, current)
  {
  }

  function RecreateEffects(capacity: nat, device: RecreateDevice, previous: Handle): seq<Effect> {
    if !device.swapchainCreated then [ResultCheckFailed(CreateSwapchain)]
    else [WaitedIdle, Destroyed(DestroySwapchainKHR, previous)] + ImagesEffects(capacity, device.images)
  }

  /** `_forge_swapchain_update`: a new swapchain that replaces the old one,
      which is destroyed after the device has gone idle; then the images are
      read back. The extent is not stored here. */
  method Recreate(forge: Forge, swapchain: Swapchain, device: RecreateDevice) returns (ok: bool)
    modifies forge, swapchain
    ensures ok == (device.swapchainCreated && ImagesRetrieved(old(swapchain.description.imagesCount), device.images))
    ensures swapchain.handle == if device.swapchainCreated then old(forge.lastHandle) + 1 else old(swapchain.handle)
    ensures swapchain.images == if device.swapchainCreated then RetrievedImages(old(swapchain.description.imagesCount), device.images)
                                else old(swapchain.images)
    ensures swapchain.description == if device.swapchainCreated
                                     then old(swapchain.description).(imagesCount := RetrievedCount(old(swapchain.description.imagesCount), device.images))
                                     else old(swapchain.description)
    ensures swapchain.surface == old(swapchain.surface) && swapchain.colorSpace == old(swapchain.colorSpace)
    ensures forge.trace == old(forge.trace) + RecreateEffects(old(swapchain.description.imagesCount), device, old(swapchain.handle))
    ensures forge.lastHandle == old(forge.lastHandle) + (if device.swapchainCreated then 1 else 0)
    ensures forge.nextCheckPoint == old(forge.nextCheckPoint)
  {
    var previous := swapchain.handle;
    if !device.swapchainCreated {
      forge.Emit(ResultCheckFailed(CreateSwapchain));
      return false;
    }
    var h := forge.NewHandle();
    swapchain.handle := h;
    forge.Emit(WaitedIdle);
    forge.Emit(Destroyed(DestroySwapchainKHR, previous));
    swapchain.images := [];
    ok := ImagesQuery(forge, swapchain, device.images);
  }

  /** `forge_swapchain_update`, given the surface's current capabilities. */
  method Update(forge: Forge, swapchain: Swapchain?, caps: SurfaceCapabilities, device: RecreateDevice) returns (ok: bool)
    modifies forge, swapchain
    ensures ok == (swapchain != null && UpdateNeeded(caps.currentExtent, old(swapchain.description.extent))
                   && device.swapchainCreated && ImagesRetrieved(old(swapchain.description.imagesCount), device.images))
    ensures swapchain != null ==>
              var recreated := UpdateNeeded(caps.currentExtent, old(swapchain.description.extent)) && device.swapchainCreated;
              && swapchain.description == old(swapchain.description).(
                   extent := if ok then caps.currentExtent else old(swapchain.description.extent),
                   imagesCount := if recreated then RetrievedCount(old(swapchain.description.imagesCount), device.images)
                                  else old(swapchain.description.imagesCount))
              && swapchain.surface == old(swapchain.surface) && swapchain.colorSpace == old(swapchain.colorSpace)
              && swapchain.handle == (if recreated then old(forge.lastHandle) + 1 else old(swapchain.handle))
              && swapchain.images == (if recreated then RetrievedImages(old(swapchain.description.imagesCount), device.images)
                                      else old(swapchain.images))
    ensures forge.trace == old(forge.trace) +
              if swapchain != null && UpdateNeeded(caps.currentExtent, old(swapchain.description.extent))
              then RecreateEffects(old(swapchain.description.imagesCount), device, old(swapchain.handle)) else []
    ensures forge.lastHandle == old(forge.lastHandle)
              + (if swapchain != null && UpdateNeeded(caps.currentExtent, old(swapchain.description.extent)) && device.swapchainCreated
                 then 1 else 0)
    ensures forge.nextCheckPoint == old(forge.nextCheckPoint)
  {
    if swapchain == null {
      return false;
    }
    var current := caps.currentExtent;
    if current.width == 0 || current.height == 0 {
      return false;
    }
    if current != swapchain.description.extent {
      ok := Recreate(forge, swapchain, device);
      if ok {
        swapchain.description := swapchain.description.(extent := current);
        return true;
      }
    }
    ok := false;
  }
}
