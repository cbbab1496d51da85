/** ForgeUtils.h: memory-type selection, the support lookups over the lists
    the driver enumerates, and the two name tables. */
module ForgeUtils {
  import opened Vk

  // ---------------------------------------------------------------------------
  // `_find_memory_type`

  /** VK_MAX_MEMORY_TYPES: the length of `VkPhysicalDeviceMemoryProperties::memoryTypes`. */
  const MaxMemoryTypes: nat := 32

  /** Memory type `i` passes the test of the search loop: bit `i` of the
      filter is set and the type has every requested property. */
  predicate Suitable(typeFilter: bv32, memoryTypes: seq<bv32>, properties: bv32, i: nat)
    requires i < |memoryTypes| <= MaxMemoryTypes
  {
    Admits(typeFilter, i) && memoryTypes[i] & properties == properties
  }

  /** Bit `i` of the filter is set. */
  predicate Admits(typeFilter: bv32, i: nat)
    requires i < MaxMemoryTypes
  {
    typeFilter & (1 as bv32 << i) != 0
  }

  /** The loop of `_find_memory_type` from index `i` on. `memoryTypes` holds the
      property flags of the first `memoryTypeCount` memory types. */
  function FindMemoryTypeFrom(typeFilter: bv32, memoryTypes: seq<bv32>, properties: bv32, i: nat): (r: Option<nat>)
    requires i <= |memoryTypes| <= MaxMemoryTypes
    ensures r.Some? ==> i <= r.value < |memoryTypes| && Suitable(typeFilter, memoryTypes, properties, r.value)
    ensures r.Some? ==> forall j :: i <= j < r.value ==> !Suitable(typeFilter, memoryTypes, properties, j)
    ensures r.None? ==> forall j :: i <= j < |memoryTypes| ==> !Suitable(typeFilter, memoryTypes, properties, j)
    decreases |memoryTypes| - i
  {
    if i == |memoryTypes| then None
    else if Suitable(typeFilter, memoryTypes, properties, i) then Some(i)
    else FindMemoryTypeFrom(typeFilter, memoryTypes, properties, i + 1)
  }

  /** `_find_memory_type` without its fallback: the least suitable index, or
      None when no memory type is suitable. */
  function FindMemoryType(typeFilter: bv32, memoryTypes: seq<bv32>, properties: bv32): (r: Option<nat>)
    requires |memoryTypes| <= MaxMemoryTypes
    ensures r.Some? <==> exists j :: 0 <= j < |memoryTypes| && Suitable(typeFilter, memoryTypes, properties, j)
    ensures r.Some? ==> r.value < |memoryTypes| && Suitable(typeFilter, memoryTypes, properties, r.value)
                        && forall j :: 0 <= j < r.value ==> !Suitable(typeFilter, memoryTypes, properties, j)
  {
    FindMemoryTypeFrom(typeFilter, memoryTypes, properties, 0)
  }

  /** What `_find_memory_type` returns, and whether its assertion fails: with no
      suitable type it asserts and returns 0. */
  function MemoryTypeIndex(typeFilter: bv32, memoryTypes: seq<bv32>, properties: bv32): (r: (nat, seq<Effect>))
    requires |memoryTypes| <= MaxMemoryTypes
    ensures r.1 == [] || r.1 == [AssertionFailed(NoSuitableMemoryType)]
    ensures r.1 == [] ==> r.0 < |memoryTypes| && Suitable(typeFilter, memoryTypes, properties, r.0)
                          && forall j :: 0 <= j < r.0 ==> !Suitable(typeFilter, memoryTypes, properties, j)
    ensures r.1 != [] <==> forall j :: 0 <= j < |memoryTypes| ==> !Suitable(typeFilter, memoryTypes, properties, j)
    ensures r.1 != [] ==> r.0 == 0
  {
    match FindMemoryType(typeFilter, memoryTypes, properties)
    case Some(i) => (i, [])
    case None => (0, [AssertionFailed(NoSuitableMemoryType)])
  }

  /** Requesting no property at all picks the first type the filter admits. */
  lemma NoPropertiesFirstAllowed(typeFilter: bv32, memoryTypes: seq<bv32>, i: nat)
    requires i < |memoryTypes| <= MaxMemoryTypes
    requires Admits(typeFilter, i)
    requires forall j :: 0 <= j < i ==> !Admits(typeFilter, j)
    ensures FindMemoryType(typeFilter, memoryTypes, 0) == Some(i)
  {
    assert Suitable(typeFilter, memoryTypes, 0, i);
  }

  // ---------------------------------------------------------------------------
  // The `_forge_*_support` searches. Each receives the list the driver
  // enumerated; the enumeration calls themselves are not part of this model.

  /** The early-return scan the four support checks share. */
  function Supported<T(==)>(list: seq<T>, query: T): (r: bool)
    ensures r <==> exists i :: 0 <= i < |list| && list[i] == query
    decreases |list|
  {
    if |list| == 0 then false
    else if list[0] == query then true
    else
      var r' := Supported(list[1..], query);
      assert forall i :: 0 < i < |list| ==> list[i] == list[1..][i - 1];
      r'
  }

  /** `_forge_instance_extension_support`: the names as C strings compare equal
      exactly when they are the same sequence of characters. */
  function InstanceExtensionSupport(extensions: seq<string>, extension: string): (r: bool)
    ensures r <==> extension in extensions
  {
    Supported(extensions, extension)
  }

  /** `_forge_device_extension_support`, over the physical device's extensions. */
  function DeviceExtensionSupport(extensions: seq<string>, extension: string): (r: bool)
    ensures r <==> extension in extensions
  {
    Supported(extensions, extension)
  }

  /** VkPresentModeKHR values. */
  const PresentModeImmediate: nat := 0
  const PresentModeMailbox: nat := 1
  const PresentModeFifo: nat := 2
  const PresentModeFifoRelaxed: nat := 3

  /** `_forge_surface_present_mode_support`. */
  function PresentModeSupport(presentModes: seq<nat>, mode: nat): (r: bool)
    ensures r <==> mode in presentModes
  {
    Supported(presentModes, mode)
  }

  /** VkSurfaceFormatKHR. */
  datatype SurfaceFormat = SurfaceFormat(format: nat, colorSpace: nat)

  /** `_forge_surface_format_support`: both members must match the same entry. */
  function SurfaceFormatSupport(formats: seq<SurfaceFormat>, format: SurfaceFormat): (r: bool)
    ensures r <==> exists i :: 0 <= i < |formats| && formats[i].colorSpace == format.colorSpace
                                                 && formats[i].format == format.format
  {
    Supported(formats, format)
  }

  /** VK_FORMAT_R8G8B8A8_UNORM. */
  const FormatR8G8B8A8Unorm: nat := 37

  /** `_forge_surface_format_to_str`: only R8G8B8A8_UNORM has a name; every
      other format logs a warning and yields the empty string. */
  function SurfaceFormatToStr(format: nat): (name: string)
    ensures name != "" <==> format == FormatR8G8B8A8Unorm
  {
    if format == FormatR8G8B8A8Unorm then "VK_FORMAT_R8G8B8A8_UNORM" else ""
  }

  /** VK_PRESENT_MODE_SHARED_DEMAND_REFRESH_KHR and
      VK_PRESENT_MODE_SHARED_CONTINUOUS_REFRESH_KHR. */
  const PresentModeSharedDemandRefresh: nat := 1000111000
  const PresentModeSharedContinuousRefresh: nat := 1000111001

  /** The present modes `_forge_swapchain_present_mode_to_str` names. */
  predicate NamedPresentMode(mode: nat) {
    mode in {PresentModeImmediate, PresentModeMailbox, PresentModeFifo, PresentModeFifoRelaxed,
             PresentModeSharedDemandRefresh, PresentModeSharedContinuousRefresh}
  }

  /** `_forge_swapchain_present_mode_to_str`: the enumerator's own name, or the
      empty string (with a warning) for any other value, VK_PRESENT_MODE_MAX_ENUM_KHR included. */
  function PresentModeToStr(mode: nat): (name: string)
    ensures name != "" <==> NamedPresentMode(mode)
  {
    if mode == PresentModeImmediate then "VK_PRESENT_MODE_IMMEDIATE_KHR"
    else if mode == PresentModeMailbox then "VK_PRESENT_MODE_MAILBOX_KHR"
    else if mode == PresentModeFifo then "VK_PRESENT_MODE_FIFO_KHR"
    else if mode == PresentModeFifoRelaxed then "VK_PRESENT_MODE_FIFO_RELAXED_KHR"
    else if mode == PresentModeSharedDemandRefresh then "VK_PRESENT_MODE_SHARED_DEMAND_REFRESH_KHR"
    else if mode == PresentModeSharedContinuousRefresh then "VK_PRESENT_MODE_SHARED_CONTINUOUS_REFRESH_KHR"
    else ""
  }

  /** Named present modes have different names (the six names even differ in length). */
  lemma PresentModeNamesDistinct(m1: nat, m2: nat)
    requires NamedPresentMode(m1) && NamedPresentMode(m2) && m1 != m2
    ensures PresentModeToStr(m1) != PresentModeToStr(m2)
  {
    assert |PresentModeToStr(m1)| != |PresentModeToStr(m2)|;
  }

  // ---------------------------------------------------------------------------
  // `_forge_result_to_str`. The listed codes are grouped the way Vulkan
  // introduces them (core or extension, status or error); one flat switch
  // works the same way.

  /** The success and status codes of core Vulkan. */
  datatype CoreStatus =
    | Success
    | NotReady
    | Timeout
    | EventSet
    | EventReset
    | Incomplete
    | PipelineCompileRequired

  function StatusName(c: CoreStatus): (n: string)
    ensures n != ""
  {
    match c
    case Success => "VK_SUCCESS"
    case NotReady => "VK_NOT_READY"
    case Timeout => "VK_TIMEOUT"
    case EventSet => "VK_EVENT_SET"
    case EventReset => "VK_EVENT_RESET"
    case Incomplete => "VK_INCOMPLETE"
    case PipelineCompileRequired => "VK_PIPELINE_COMPILE_REQUIRED"
  }

  /** The status codes of KHR extensions. */
  datatype KhrStatus =
    | Suboptimal
    | ThreadIdle
    | ThreadDone
    | OperationDeferred
    | OperationNotDeferred

  function KhrStatusName(c: KhrStatus): (n: string)
    ensures n != ""
  {
    match c
    case Suboptimal => "VK_SUBOPTIMAL_KHR"
    case ThreadIdle => "VK_THREAD_IDLE_KHR"
    case ThreadDone => "VK_THREAD_DONE_KHR"
    case OperationDeferred => "VK_OPERATION_DEFERRED_KHR"
    case OperationNotDeferred => "VK_OPERATION_NOT_DEFERRED_KHR"
  }

  /** The error codes of Vulkan 1.0. */
  datatype CoreError =
    | OutOfHostMemory
    | OutOfDeviceMemory
    | InitializationFailed
    | DeviceLost
    | MemoryMapFailed
    | LayerNotPresent
    | ExtensionNotPresent
    | FeatureNotPresent
    | IncompatibleDriver
    | TooManyObjects
    | FormatNotSupported
    | FragmentedPool

  function ErrorName(c: CoreError): (n: string)
    ensures n != ""
  {
    match c
    case OutOfHostMemory => "VK_ERROR_OUT_OF_HOST_MEMORY"
    case OutOfDeviceMemory => "VK_ERROR_OUT_OF_DEVICE_MEMORY"
    case InitializationFailed => "VK_ERROR_INITIALIZATION_FAILED"
    case DeviceLost => "VK_ERROR_DEVICE_LOST"
    case MemoryMapFailed => "VK_ERROR_MEMORY_MAP_FAILED"
    case LayerNotPresent => "VK_ERROR_LAYER_NOT_PRESENT"
    case ExtensionNotPresent => "VK_ERROR_EXTENSION_NOT_PRESENT"
    case FeatureNotPresent => "VK_ERROR_FEATURE_NOT_PRESENT"
    case IncompatibleDriver => "VK_ERROR_INCOMPATIBLE_DRIVER"
    case TooManyObjects => "VK_ERROR_TOO_MANY_OBJECTS"
    case FormatNotSupported => "VK_ERROR_FORMAT_NOT_SUPPORTED"
    case FragmentedPool => "VK_ERROR_FRAGMENTED_POOL"
  }

  /** The error codes Vulkan 1.1 to 1.2 added to the core. */
  datatype LaterCoreError =
    | Unknown
    | OutOfPoolMemory
    | InvalidExternalHandle
    | Fragmentation
    | InvalidOpaqueCaptureAddress

  function LaterErrorName(c: LaterCoreError): (n: string)
    ensures n != ""
  {
    match c
    case Unknown => "VK_ERROR_UNKNOWN"
    case OutOfPoolMemory => "VK_ERROR_OUT_OF_POOL_MEMORY"
    case InvalidExternalHandle => "VK_ERROR_INVALID_EXTERNAL_HANDLE"
    case Fragmentation => "VK_ERROR_FRAGMENTATION"
    case InvalidOpaqueCaptureAddress => "VK_ERROR_INVALID_OPAQUE_CAPTURE_ADDRESS"
  }

  /** The error codes of KHR extensions. */
  datatype KhrError =
    | SurfaceLost
    | NativeWindowInUse
    | OutOfDate
    | IncompatibleDisplay
    | ImageUsageNotSupported
    | VideoPictureLayoutNotSupported
    | VideoProfileOperationNotSupported
    | VideoProfileFormatNotSupported
    | VideoProfileCodecNotSupported
    | VideoStdVersionNotSupported
    | NotPermitted

  function KhrErrorName(c: KhrError): (n: string)
    ensures n != ""
  {
    match c
    case SurfaceLost => "VK_ERROR_SURFACE_LOST_KHR"
    case NativeWindowInUse => "VK_ERROR_NATIVE_WINDOW_IN_USE_KHR"
    case OutOfDate => "VK_ERROR_OUT_OF_DATE_KHR"
    case IncompatibleDisplay => "VK_ERROR_INCOMPATIBLE_DISPLAY_KHR"
    case ImageUsageNotSupported => "VK_ERROR_IMAGE_USAGE_NOT_SUPPORTED_KHR"
    case VideoPictureLayoutNotSupported => "VK_ERROR_VIDEO_PICTURE_LAYOUT_NOT_SUPPORTED_KHR"
    case VideoProfileOperationNotSupported => "VK_ERROR_VIDEO_PROFILE_OPERATION_NOT_SUPPORTED_KHR"
    case VideoProfileFormatNotSupported => "VK_ERROR_VIDEO_PROFILE_FORMAT_NOT_SUPPORTED_KHR"
    case VideoProfileCodecNotSupported => "VK_ERROR_VIDEO_PROFILE_CODEC_NOT_SUPPORTED_KHR"
    case VideoStdVersionNotSupported => "VK_ERROR_VIDEO_STD_VERSION_NOT_SUPPORTED_KHR"
    case NotPermitted => "VK_ERROR_NOT_PERMITTED_KHR"
  }

  /** The error codes of EXT and NV extensions. */
  datatype VendorError =
    | ValidationFailed
    | InvalidShader
    | InvalidDrmFormatModifierPlaneLayout
    | FullScreenExclusiveModeLost
    | CompressionExhausted
    | IncompatibleShaderBinary

  function VendorErrorName(c: VendorError): (n: string)
    ensures n != ""
  {
    match c
    case ValidationFailed => "VK_ERROR_VALIDATION_FAILED_EXT"
    case InvalidShader => "VK_ERROR_INVALID_SHADER_NV"
    case InvalidDrmFormatModifierPlaneLayout => "VK_ERROR_INVALID_DRM_FORMAT_MODIFIER_PLANE_LAYOUT_EXT"
    case FullScreenExclusiveModeLost => "VK_ERROR_FULL_SCREEN_EXCLUSIVE_MODE_LOST_EXT"
    case CompressionExhausted => "VK_ERROR_COMPRESSION_EXHAUSTED_EXT"
    case IncompatibleShaderBinary => "VK_ERROR_INCOMPATIBLE_SHADER_BINARY_EXT"
  }

  /** The codes `_forge_result_to_str` can receive: a listed code, VK_RESULT_MAX_ENUM,
      or any other value of the enumeration type. */
  datatype VkResult =
    | Status(status: CoreStatus)
    | ExtensionStatus(extensionStatus: KhrStatus)
    | Error(error: CoreError)
    | LaterError(laterError: LaterCoreError)
    | ExtensionError(extensionError: KhrError)
    | VendorExtensionError(vendorError: VendorError)
    | ResultMaxEnum
    | OtherResult(code: int)

  /** The codes the switch has a named case for. */
  predicate Listed(r: VkResult) {
    !r.ResultMaxEnum? && !r.OtherResult?
  }

  /** `_forge_result_to_str`: the code's own name; "" for VK_RESULT_MAX_ENUM and
      for any code the switch does not list. */
  function ResultToStr(r: VkResult): (name: string)
    ensures name == "" <==> !Listed(r)
  {
    match r
    case Status(c) => StatusName(c)
    case ExtensionStatus(c) => KhrStatusName(c)
    case Error(c) => ErrorName(c)
    case LaterError(c) => LaterErrorName(c)
    case ExtensionError(c) => KhrErrorName(c)
    case VendorExtensionError(c) => VendorErrorName(c)
    case ResultMaxEnum => ""
    case OtherResult(_) => ""
  }

  // ---------------------------------------------------------------------------
  // `_forge_api_version_to_str`

  /** VK_MAKE_API_VERSION(variant, major, minor, patch). */
  function MakeApiVersion(variant: nat, major: nat, minor: nat, patch: nat): nat {
    variant * 0x2000_0000 + major * 0x40_0000 + minor * 0x1000 + patch
  }

  /** `_forge_api_version_to_str`: "1.0" to "1.3" for VK_API_VERSION_1_0 to
      VK_API_VERSION_1_3, "" for any other value. */
  function ApiVersionToStr(apiVersion: nat): (name: string)
    ensures name == "1.0" <==> apiVersion == MakeApiVersion(0, 1, 0, 0)
    ensures name == "1.1" <==> apiVersion == MakeApiVersion(0, 1, 1, 0)
    ensures name == "1.2" <==> apiVersion == MakeApiVersion(0, 1, 2, 0)
    ensures name == "1.3" <==> apiVersion == MakeApiVersion(0, 1, 3, 0)
    ensures name == "" <==> forall minor :: 0 <= minor <= 3 ==> apiVersion != MakeApiVersion(0, 1, minor, 0)
  {
    if apiVersion == MakeApiVersion(0, 1, 0, 0) then "1.0"
    else if apiVersion == MakeApiVersion(0, 1, 1, 0) then "1.1"
    else if apiVersion == MakeApiVersion(0, 1, 2, 0) then "1.2"
    else if apiVersion == MakeApiVersion(0, 1, 3, 0) then "1.3"
    else ""
  }
}
