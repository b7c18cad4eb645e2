/** Model of the OpenCL error-code names and the `ClError` newtype of
    src/error_codes.rs. An OpenCL API call reports failure as a `cl_int`;
    `ErrorText` names the code, and every conversion of `ClError` to text
    goes through it. */
module ErrorCodes {
  import opened ClTypes
  import opened Wrappers

  // Error codes of the OpenCL core API (0 to -19 and -30 to -72, from cl.h)
  // and of the Khronos, vendor and interop extensions. The values are the
  // ones the Khronos headers publish: CL_INVALID_GL_SHAREGROUP_REFERENCE_KHR
  // is in cl_gl.h; CL_PLATFORM_NOT_FOUND_KHR and the command-buffer codes are
  // in cl_ext.h; the other extension codes are also in src/ffi/cl_ext.rs,
  // cl_d3d11.rs, cl_dx9_media_sharing.rs and cl_egl.rs.

  const CL_SUCCESS: ClInt := 0
  const CL_DEVICE_NOT_FOUND: ClInt := -1
  const CL_DEVICE_NOT_AVAILABLE: ClInt := -2
  const CL_COMPILER_NOT_AVAILABLE: ClInt := -3
  const CL_MEM_OBJECT_ALLOCATION_FAILURE: ClInt := -4
  const CL_OUT_OF_RESOURCES: ClInt := -5
  const CL_OUT_OF_HOST_MEMORY: ClInt := -6
  const CL_PROFILING_INFO_NOT_AVAILABLE: ClInt := -7
  const CL_MEM_COPY_OVERLAP: ClInt := -8
  const CL_IMAGE_FORMAT_MISMATCH: ClInt := -9
  const CL_IMAGE_FORMAT_NOT_SUPPORTED: ClInt := -10
  const CL_BUILD_PROGRAM_FAILURE: ClInt := -11
  const CL_MAP_FAILURE: ClInt := -12
  const CL_MISALIGNED_SUB_BUFFER_OFFSET: ClInt := -13
  const CL_EXEC_STATUS_ERROR_FOR_EVENTS_IN_WAIT_LIST: ClInt := -14
  const CL_COMPILE_PROGRAM_FAILURE: ClInt := -15
  const CL_LINKER_NOT_AVAILABLE: ClInt := -16
  const CL_LINK_PROGRAM_FAILURE: ClInt := -17
  const CL_DEVICE_PARTITION_FAILED: ClInt := -18
  const CL_KERNEL_ARG_INFO_NOT_AVAILABLE: ClInt := -19
  const CL_INVALID_VALUE: ClInt := -30
  const CL_INVALID_DEVICE_TYPE: ClInt := -31
  const CL_INVALID_PLATFORM: ClInt := -32
  const CL_INVALID_DEVICE: ClInt := -33
  const CL_INVALID_CONTEXT: ClInt := -34
  const CL_INVALID_QUEUE_PROPERTIES: ClInt := -35
  const CL_INVALID_COMMAND_QUEUE: ClInt := -36
  const CL_INVALID_HOST_PTR: ClInt := -37
  const CL_INVALID_MEM_OBJECT: ClInt := -38
  const CL_INVALID_IMAGE_FORMAT_DESCRIPTOR: ClInt := -39
  const CL_INVALID_IMAGE_SIZE: ClInt := -40
  const CL_INVALID_SAMPLER: ClInt := -41
  const CL_INVALID_BINARY: ClInt := -42
  const CL_INVALID_BUILD_OPTIONS: ClInt := -43
  const CL_INVALID_PROGRAM: ClInt := -44
  const CL_INVALID_PROGRAM_EXECUTABLE: ClInt := -45
  const CL_INVALID_KERNEL_NAME: ClInt := -46
  const CL_INVALID_KERNEL_DEFINITION: ClInt := -47
  const CL_INVALID_KERNEL: ClInt := -48
  const CL_INVALID_ARG_INDEX: ClInt := -49
  const CL_INVALID_ARG_VALUE: ClInt := -50
  const CL_INVALID_ARG_SIZE: ClInt := -51
  const CL_INVALID_KERNEL_ARGS: ClInt := -52
  const CL_INVALID_WORK_DIMENSION: ClInt := -53
  const CL_INVALID_WORK_GROUP_SIZE: ClInt := -54
  const CL_INVALID_WORK_ITEM_SIZE: ClInt := -55
  const CL_INVALID_GLOBAL_OFFSET: ClInt := -56
  const CL_INVALID_EVENT_WAIT_LIST: ClInt := -57
  const CL_INVALID_EVENT: ClInt := -58
  const CL_INVALID_OPERATION: ClInt := -59
  const CL_INVALID_GL_OBJECT: ClInt := -60
  const CL_INVALID_BUFFER_SIZE: ClInt := -61
  const CL_INVALID_MIP_LEVEL: ClInt := -62
  const CL_INVALID_GLOBAL_WORK_SIZE: ClInt := -63
  const CL_INVALID_PROPERTY: ClInt := -64
  const CL_INVALID_IMAGE_DESCRIPTOR: ClInt := -65
  const CL_INVALID_COMPILER_OPTIONS: ClInt := -66
  const CL_INVALID_LINKER_OPTIONS: ClInt := -67
  const CL_INVALID_DEVICE_PARTITION_COUNT: ClInt := -68
  const CL_INVALID_PIPE_SIZE: ClInt := -69
  const CL_INVALID_DEVICE_QUEUE: ClInt := -70
  const CL_INVALID_SPEC_ID: ClInt := -71
  const CL_MAX_SIZE_RESTRICTION_EXCEEDED: ClInt := -72
  const CL_INVALID_GL_SHAREGROUP_REFERENCE_KHR: ClInt := -1000
  const CL_PLATFORM_NOT_FOUND_KHR: ClInt := -1001
  const CL_INVALID_D3D11_DEVICE_KHR: ClInt := -1006
  const CL_INVALID_D3D11_RESOURCE_KHR: ClInt := -1007
  const CL_D3D11_RESOURCE_ALREADY_ACQUIRED_KHR: ClInt := -1008
  const CL_D3D11_RESOURCE_NOT_ACQUIRED_KHR: ClInt := -1009
  const CL_INVALID_DX9_MEDIA_ADAPTER_KHR: ClInt := -1010
  const CL_INVALID_DX9_MEDIA_SURFACE_KHR: ClInt := -1011
  const CL_DX9_MEDIA_SURFACE_ALREADY_ACQUIRED_KHR: ClInt := -1012
  const CL_DX9_MEDIA_SURFACE_NOT_ACQUIRED_KHR: ClInt := -1013
  const CL_DEVICE_PARTITION_FAILED_EXT: ClInt := -1057
  const CL_INVALID_PARTITION_COUNT_EXT: ClInt := -1058
  const CL_INVALID_PARTITION_NAME_EXT: ClInt := -1059
  const CL_EGL_RESOURCE_NOT_ACQUIRED_KHR: ClInt := -1092
  const CL_INVALID_EGL_OBJECT_KHR: ClInt := -1093
  const CL_INVALID_ACCELERATOR_INTEL: ClInt := -1094
  const CL_INVALID_ACCELERATOR_TYPE_INTEL: ClInt := -1095
  const CL_INVALID_ACCELERATOR_DESCRIPTOR_INTEL: ClInt := -1096
  const CL_ACCELERATOR_TYPE_NOT_SUPPORTED_INTEL: ClInt := -1097
  const CL_COMMAND_TERMINATED_ITSELF_WITH_FAILURE_ARM: ClInt := -1108
  const CL_CONTEXT_TERMINATED_KHR: ClInt := -1121
  const CL_INVALID_SEMAPHORE_KHR: ClInt := -1142
  const CL_INVALID_COMMAND_BUFFER_KHR: ClInt := -1138
  const CL_INVALID_SYNC_POINT_WAIT_LIST_KHR: ClInt := -1139
  const CL_INCOMPATIBLE_COMMAND_QUEUE_KHR: ClInt := -1140

  /** The codes the D3D10 sharing extension defines (cl_d3d10.rs:33-36);
      `ErrorText` has no arm for them. */
  const CL_INVALID_D3D10_DEVICE_KHR: ClInt := -1002
  const CL_D3D10_RESOURCE_NOT_ACQUIRED_KHR: ClInt := -1005

  /** The name returned for a code that has no arm of its own. */
  const UNKNOWN_ERROR: string := "UNKNOWN_ERROR"

  /** The codes `ErrorText` names, described independently of its arms as the
      ranges they cover. */
  predicate IsListedCode(code: ClInt) {
    || -19 <= code <= 0
    || -72 <= code <= -30
    || -1001 <= code <= -1000
    || -1013 <= code <= -1006
    || -1059 <= code <= -1057
    || -1097 <= code <= -1092
    || code == -1108
    || code == -1121
    || -1140 <= code <= -1138
    || code == -1142
  }

  /** The inverse of `ErrorText` on the listed codes: the code whose arm
      gives `name`, or `None` for a text no arm gives. Only the names of the
      same length as `name` are compared with it. */
  function CodeOfName(name: string): Option<ClInt>
  {
    match |name|
    case 10 =>
      if name == "CL_SUCCESS" then Some(CL_SUCCESS)
      else None
    case 14 =>
      if name == "CL_MAP_FAILURE" then Some(CL_MAP_FAILURE)
      else None
    case 16 =>
      if name == "CL_INVALID_VALUE" then Some(CL_INVALID_VALUE)
      else if name == "CL_INVALID_EVENT" then Some(CL_INVALID_EVENT)
      else None
    case 17 =>
      if name == "CL_INVALID_DEVICE" then Some(CL_INVALID_DEVICE)
      else if name == "CL_INVALID_BINARY" then Some(CL_INVALID_BINARY)
      else if name == "CL_INVALID_KERNEL" then Some(CL_INVALID_KERNEL)
      else None
    case 18 =>
      if name == "CL_INVALID_CONTEXT" then Some(CL_INVALID_CONTEXT)
      else if name == "CL_INVALID_SAMPLER" then Some(CL_INVALID_SAMPLER)
      else if name == "CL_INVALID_PROGRAM" then Some(CL_INVALID_PROGRAM)
      else if name == "CL_INVALID_SPEC_ID" then Some(CL_INVALID_SPEC_ID)
      else None
    case 19 =>
      if name == "CL_DEVICE_NOT_FOUND" then Some(CL_DEVICE_NOT_FOUND)
      else if name == "CL_OUT_OF_RESOURCES" then Some(CL_OUT_OF_RESOURCES)
      else if name == "CL_MEM_COPY_OVERLAP" then Some(CL_MEM_COPY_OVERLAP)
      else if name == "CL_INVALID_PLATFORM" then Some(CL_INVALID_PLATFORM)
      else if name == "CL_INVALID_HOST_PTR" then Some(CL_INVALID_HOST_PTR)
      else if name == "CL_INVALID_ARG_SIZE" then Some(CL_INVALID_ARG_SIZE)
      else if name == "CL_INVALID_PROPERTY" then Some(CL_INVALID_PROPERTY)
      else None
    case 20 =>
      if name == "CL_INVALID_ARG_INDEX" then Some(CL_INVALID_ARG_INDEX)
      else if name == "CL_INVALID_ARG_VALUE" then Some(CL_INVALID_ARG_VALUE)
      else if name == "CL_INVALID_OPERATION" then Some(CL_INVALID_OPERATION)
      else if name == "CL_INVALID_GL_OBJECT" then Some(CL_INVALID_GL_OBJECT)
      else if name == "CL_INVALID_MIP_LEVEL" then Some(CL_INVALID_MIP_LEVEL)
      else if name == "CL_INVALID_PIPE_SIZE" then Some(CL_INVALID_PIPE_SIZE)
      else None
    case 21 =>
      if name == "CL_OUT_OF_HOST_MEMORY" then Some(CL_OUT_OF_HOST_MEMORY)
      else if name == "CL_INVALID_MEM_OBJECT" then Some(CL_INVALID_MEM_OBJECT)
      else if name == "CL_INVALID_IMAGE_SIZE" then Some(CL_INVALID_IMAGE_SIZE)
      else None
    case 22 =>
      if name == "CL_INVALID_DEVICE_TYPE" then Some(CL_INVALID_DEVICE_TYPE)
      else if name == "CL_INVALID_KERNEL_NAME" then Some(CL_INVALID_KERNEL_NAME)
      else if name == "CL_INVALID_KERNEL_ARGS" then Some(CL_INVALID_KERNEL_ARGS)
      else if name == "CL_INVALID_BUFFER_SIZE" then Some(CL_INVALID_BUFFER_SIZE)
      else None
    case 23 =>
      if name == "CL_DEVICE_NOT_AVAILABLE" then Some(CL_DEVICE_NOT_AVAILABLE)
      else if name == "CL_LINKER_NOT_AVAILABLE" then Some(CL_LINKER_NOT_AVAILABLE)
      else if name == "CL_LINK_PROGRAM_FAILURE" then Some(CL_LINK_PROGRAM_FAILURE)
      else if name == "CL_INVALID_DEVICE_QUEUE" then Some(CL_INVALID_DEVICE_QUEUE)
      else None
    case 24 =>
      if name == "CL_IMAGE_FORMAT_MISMATCH" then Some(CL_IMAGE_FORMAT_MISMATCH)
      else if name == "CL_BUILD_PROGRAM_FAILURE" then Some(CL_BUILD_PROGRAM_FAILURE)
      else if name == "CL_INVALID_COMMAND_QUEUE" then Some(CL_INVALID_COMMAND_QUEUE)
      else if name == "CL_INVALID_BUILD_OPTIONS" then Some(CL_INVALID_BUILD_OPTIONS)
      else if name == "CL_INVALID_GLOBAL_OFFSET" then Some(CL_INVALID_GLOBAL_OFFSET)
      else if name == "CL_INVALID_SEMAPHORE_KHR" then Some(CL_INVALID_SEMAPHORE_KHR)
      else None
    case 25 =>
      if name == "CL_COMPILER_NOT_AVAILABLE" then Some(CL_COMPILER_NOT_AVAILABLE)
      else if name == "CL_INVALID_WORK_DIMENSION" then Some(CL_INVALID_WORK_DIMENSION)
      else if name == "CL_INVALID_WORK_ITEM_SIZE" then Some(CL_INVALID_WORK_ITEM_SIZE)
      else if name == "CL_INVALID_LINKER_OPTIONS" then Some(CL_INVALID_LINKER_OPTIONS)
      else if name == "CL_PLATFORM_NOT_FOUND_KHR" then Some(CL_PLATFORM_NOT_FOUND_KHR)
      else if name == "CL_INVALID_EGL_OBJECT_KHR" then Some(CL_INVALID_EGL_OBJECT_KHR)
      else if name == "CL_CONTEXT_TERMINATED_KHR" then Some(CL_CONTEXT_TERMINATED_KHR)
      else None
    case 26 =>
      if name == "CL_COMPILE_PROGRAM_FAILURE" then Some(CL_COMPILE_PROGRAM_FAILURE)
      else if name == "CL_DEVICE_PARTITION_FAILED" then Some(CL_DEVICE_PARTITION_FAILED)
      else if name == "CL_INVALID_WORK_GROUP_SIZE" then Some(CL_INVALID_WORK_GROUP_SIZE)
      else if name == "CL_INVALID_EVENT_WAIT_LIST" then Some(CL_INVALID_EVENT_WAIT_LIST)
      else None
    case 27 =>
      if name == "CL_INVALID_QUEUE_PROPERTIES" then Some(CL_INVALID_QUEUE_PROPERTIES)
      else if name == "CL_INVALID_GLOBAL_WORK_SIZE" then Some(CL_INVALID_GLOBAL_WORK_SIZE)
      else if name == "CL_INVALID_IMAGE_DESCRIPTOR" then Some(CL_INVALID_IMAGE_DESCRIPTOR)
      else if name == "CL_INVALID_COMPILER_OPTIONS" then Some(CL_INVALID_COMPILER_OPTIONS)
      else if name == "CL_INVALID_D3D11_DEVICE_KHR" then Some(CL_INVALID_D3D11_DEVICE_KHR)
      else None
    case 28 =>
      if name == "CL_INVALID_KERNEL_DEFINITION" then Some(CL_INVALID_KERNEL_DEFINITION)
      else if name == "CL_INVALID_ACCELERATOR_INTEL" then Some(CL_INVALID_ACCELERATOR_INTEL)
      else None
    case 29 =>
      if name == "CL_IMAGE_FORMAT_NOT_SUPPORTED" then Some(CL_IMAGE_FORMAT_NOT_SUPPORTED)
      else if name == "CL_INVALID_PROGRAM_EXECUTABLE" then Some(CL_INVALID_PROGRAM_EXECUTABLE)
      else if name == "CL_INVALID_D3D11_RESOURCE_KHR" then Some(CL_INVALID_D3D11_RESOURCE_KHR)
      else if name == "CL_INVALID_PARTITION_NAME_EXT" then Some(CL_INVALID_PARTITION_NAME_EXT)
      else if name == "CL_INVALID_COMMAND_BUFFER_KHR" then Some(CL_INVALID_COMMAND_BUFFER_KHR)
      else None
    case 30 =>
      if name == "CL_DEVICE_PARTITION_FAILED_EXT" then Some(CL_DEVICE_PARTITION_FAILED_EXT)
      else if name == "CL_INVALID_PARTITION_COUNT_EXT" then Some(CL_INVALID_PARTITION_COUNT_EXT)
      else None
    case 31 =>
      if name == "CL_PROFILING_INFO_NOT_AVAILABLE" then Some(CL_PROFILING_INFO_NOT_AVAILABLE)
      else if name == "CL_MISALIGNED_SUB_BUFFER_OFFSET" then Some(CL_MISALIGNED_SUB_BUFFER_OFFSET)
      else None
    case 32 =>
      if name == "CL_MEM_OBJECT_ALLOCATION_FAILURE" then Some(CL_MEM_OBJECT_ALLOCATION_FAILURE)
      else if name == "CL_KERNEL_ARG_INFO_NOT_AVAILABLE" then Some(CL_KERNEL_ARG_INFO_NOT_AVAILABLE)
      else if name == "CL_MAX_SIZE_RESTRICTION_EXCEEDED" then Some(CL_MAX_SIZE_RESTRICTION_EXCEEDED)
      else if name == "CL_INVALID_DX9_MEDIA_ADAPTER_KHR" then Some(CL_INVALID_DX9_MEDIA_ADAPTER_KHR)
      else if name == "CL_INVALID_DX9_MEDIA_SURFACE_KHR" then Some(CL_INVALID_DX9_MEDIA_SURFACE_KHR)
      else if name == "CL_EGL_RESOURCE_NOT_ACQUIRED_KHR" then Some(CL_EGL_RESOURCE_NOT_ACQUIRED_KHR)
      else None
    case 33 =>
      if name == "CL_INVALID_DEVICE_PARTITION_COUNT" then Some(CL_INVALID_DEVICE_PARTITION_COUNT)
      else if name == "CL_INVALID_ACCELERATOR_TYPE_INTEL" then Some(CL_INVALID_ACCELERATOR_TYPE_INTEL)
      else if name == "CL_INCOMPATIBLE_COMMAND_QUEUE_KHR" then Some(CL_INCOMPATIBLE_COMMAND_QUEUE_KHR)
      else None
    case 34 =>
      if name == "CL_INVALID_IMAGE_FORMAT_DESCRIPTOR" then Some(CL_INVALID_IMAGE_FORMAT_DESCRIPTOR)
      else if name == "CL_D3D11_RESOURCE_NOT_ACQUIRED_KHR" then Some(CL_D3D11_RESOURCE_NOT_ACQUIRED_KHR)
      else None
    case 35 =>
      if name == "CL_INVALID_SYNC_POINT_WAIT_LIST_KHR" then Some(CL_INVALID_SYNC_POINT_WAIT_LIST_KHR)
      else None
    case 37 =>
      if name == "CL_DX9_MEDIA_SURFACE_NOT_ACQUIRED_KHR" then Some(CL_DX9_MEDIA_SURFACE_NOT_ACQUIRED_KHR)
      else None
    case 38 =>
      if name == "CL_INVALID_GL_SHAREGROUP_REFERENCE_KHR" then Some(CL_INVALID_GL_SHAREGROUP_REFERENCE_KHR)
      else if name == "CL_D3D11_RESOURCE_ALREADY_ACQUIRED_KHR" then Some(CL_D3D11_RESOURCE_ALREADY_ACQUIRED_KHR)
      else None
    case 39 =>
      if name == "CL_INVALID_ACCELERATOR_DESCRIPTOR_INTEL" then Some(CL_INVALID_ACCELERATOR_DESCRIPTOR_INTEL)
      else if name == "CL_ACCELERATOR_TYPE_NOT_SUPPORTED_INTEL" then Some(CL_ACCELERATOR_TYPE_NOT_SUPPORTED_INTEL)
      else None
    case 41 =>
      if name == "CL_DX9_MEDIA_SURFACE_ALREADY_ACQUIRED_KHR" then Some(CL_DX9_MEDIA_SURFACE_ALREADY_ACQUIRED_KHR)
      else None
    case 44 =>
      if name == "CL_EXEC_STATUS_ERROR_FOR_EVENTS_IN_WAIT_LIST" then Some(CL_EXEC_STATUS_ERROR_FOR_EVENTS_IN_WAIT_LIST)
      else None
    case 45 =>
      if name == "CL_COMMAND_TERMINATED_ITSELF_WITH_FAILURE_ARM" then Some(CL_COMMAND_TERMINATED_ITSELF_WITH_FAILURE_ARM)
      else None
    case _ => None
  }

  // The arms of the source's match, in its order, cut into blocks of at
  // most seven consecutive arms. Each block names exactly its own codes, and
  // each name it gives reads back to the code it was given for.

  /** The arms for the core status codes 0 to -6. */
  function CoreArms0(code: ClInt): (name: Option<string>)
    ensures name.Some? <==> -6 <= code <= 0
    ensures name.Some? ==> CodeOfName(name.value) == Some(code)
  {
    if code == CL_SUCCESS then Some("CL_SUCCESS")
    else if code == CL_DEVICE_NOT_FOUND then Some("CL_DEVICE_NOT_FOUND")
    else if code == CL_DEVICE_NOT_AVAILABLE then Some("CL_DEVICE_NOT_AVAILABLE")
    else if code == CL_COMPILER_NOT_AVAILABLE then Some("CL_COMPILER_NOT_AVAILABLE")
    else if code == CL_MEM_OBJECT_ALLOCATION_FAILURE then Some("CL_MEM_OBJECT_ALLOCATION_FAILURE")
    else if code == CL_OUT_OF_RESOURCES then Some("CL_OUT_OF_RESOURCES")
    else if code == CL_OUT_OF_HOST_MEMORY then Some("CL_OUT_OF_HOST_MEMORY")
    else None
  }

  /** The arms for the core status codes -7 to -13. */
  function CoreArms7(code: ClInt): (name: Option<string>)
    ensures name.Some? <==> -13 <= code <= -7
    ensures name.Some? ==> CodeOfName(name.value) == Some(code)
  {
    if code == CL_PROFILING_INFO_NOT_AVAILABLE then Some("CL_PROFILING_INFO_NOT_AVAILABLE")
    else if code == CL_MEM_COPY_OVERLAP then Some("CL_MEM_COPY_OVERLAP")
    else if code == CL_IMAGE_FORMAT_MISMATCH then Some("CL_IMAGE_FORMAT_MISMATCH")
    else if code == CL_IMAGE_FORMAT_NOT_SUPPORTED then Some("CL_IMAGE_FORMAT_NOT_SUPPORTED")
    else if code == CL_BUILD_PROGRAM_FAILURE then Some("CL_BUILD_PROGRAM_FAILURE")
    else if code == CL_MAP_FAILURE then Some("CL_MAP_FAILURE")
    else if code == CL_MISALIGNED_SUB_BUFFER_OFFSET then Some("CL_MISALIGNED_SUB_BUFFER_OFFSET")
    else None
  }

  /** The arms for the core status codes -14 to -19. */
  function CoreArms14(code: ClInt): (name: Option<string>)
    ensures name.Some? <==> -19 <= code <= -14
    ensures name.Some? ==> CodeOfName(name.value) == Some(code)
  {
    if code == CL_EXEC_STATUS_ERROR_FOR_EVENTS_IN_WAIT_LIST then Some("CL_EXEC_STATUS_ERROR_FOR_EVENTS_IN_WAIT_LIST")
    else if code == CL_COMPILE_PROGRAM_FAILURE then Some("CL_COMPILE_PROGRAM_FAILURE")
    else if code == CL_LINKER_NOT_AVAILABLE then Some("CL_LINKER_NOT_AVAILABLE")
    else if code == CL_LINK_PROGRAM_FAILURE then Some("CL_LINK_PROGRAM_FAILURE")
    else if code == CL_DEVICE_PARTITION_FAILED then Some("CL_DEVICE_PARTITION_FAILED")
    else if code == CL_KERNEL_ARG_INFO_NOT_AVAILABLE then Some("CL_KERNEL_ARG_INFO_NOT_AVAILABLE")
    else None
  }

  /** The arms for the invalid-argument codes -30 to -36. */
  function InvalidArms30(code: ClInt): (name: Option<string>)
    ensures name.Some? <==> -36 <= code <= -30
    ensures name.Some? ==> CodeOfName(name.value) == Some(code)
  {
    if code == CL_INVALID_VALUE then Some("CL_INVALID_VALUE")
    else if code == CL_INVALID_DEVICE_TYPE then Some("CL_INVALID_DEVICE_TYPE")
    else if code == CL_INVALID_PLATFORM then Some("CL_INVALID_PLATFORM")
    else if code == CL_INVALID_DEVICE then Some("CL_INVALID_DEVICE")
    else if code == CL_INVALID_CONTEXT then Some("CL_INVALID_CONTEXT")
    else if code == CL_INVALID_QUEUE_PROPERTIES then Some("CL_INVALID_QUEUE_PROPERTIES")
    else if code == CL_INVALID_COMMAND_QUEUE then Some("CL_INVALID_COMMAND_QUEUE")
    else None
  }

  /** The arms for the invalid-argument codes -37 to -42. */
  function InvalidArms37(code: ClInt): (name: Option<string>)
    ensures name.Some? <==> -42 <= code <= -37
    ensures name.Some? ==> CodeOfName(name.value) == Some(code)
  {
    if code == CL_INVALID_HOST_PTR then Some("CL_INVALID_HOST_PTR")
    else if code == CL_INVALID_MEM_OBJECT then Some("CL_INVALID_MEM_OBJECT")
    else if code == CL_INVALID_IMAGE_FORMAT_DESCRIPTOR then Some("CL_INVALID_IMAGE_FORMAT_DESCRIPTOR")
    else if code == CL_INVALID_IMAGE_SIZE then Some("CL_INVALID_IMAGE_SIZE")
    else if code == CL_INVALID_SAMPLER then Some("CL_INVALID_SAMPLER")
    else if code == CL_INVALID_BINARY then Some("CL_INVALID_BINARY")
    else None
  }

  /** The arms for the invalid-argument codes -43 to -48. */
  function InvalidArms43(code: ClInt): (name: Option<string>)
    ensures name.Some? <==> -48 <= code <= -43
    ensures name.Some? ==> CodeOfName(name.value) == Some(code)
  {
    if code == CL_INVALID_BUILD_OPTIONS then Some("CL_INVALID_BUILD_OPTIONS")
    else if code == CL_INVALID_PROGRAM then Some("CL_INVALID_PROGRAM")
    else if code == CL_INVALID_PROGRAM_EXECUTABLE then Some("CL_INVALID_PROGRAM_EXECUTABLE")
    else if code == CL_INVALID_KERNEL_NAME then Some("CL_INVALID_KERNEL_NAME")
    else if code == CL_INVALID_KERNEL_DEFINITION then Some("CL_INVALID_KERNEL_DEFINITION")
    else if code == CL_INVALID_KERNEL then Some("CL_INVALID_KERNEL")
    else None
  }

  /** The arms for the invalid-argument codes -49 to -54. */
  function InvalidArms49(code: ClInt): (name: Option<string>)
    ensures name.Some? <==> -54 <= code <= -49
    ensures name.Some? ==> CodeOfName(name.value) == Some(code)
  {
    if code == CL_INVALID_ARG_INDEX then Some("CL_INVALID_ARG_INDEX")
    else if code == CL_INVALID_ARG_VALUE then Some("CL_INVALID_ARG_VALUE")
    else if code == CL_INVALID_ARG_SIZE then Some("CL_INVALID_ARG_SIZE")
    else if code == CL_INVALID_KERNEL_ARGS then Some("CL_INVALID_KERNEL_ARGS")
    else if code == CL_INVALID_WORK_DIMENSION then Some("CL_INVALID_WORK_DIMENSION")
    else if code == CL_INVALID_WORK_GROUP_SIZE then Some("CL_INVALID_WORK_GROUP_SIZE")
    else None
  }

  /** The arms for the invalid-argument codes -55 to -60. */
  function InvalidArms55(code: ClInt): (name: Option<string>)
    ensures name.Some? <==> -60 <= code <= -55
    ensures name.Some? ==> CodeOfName(name.value) == Some(code)
  {
    if code == CL_INVALID_WORK_ITEM_SIZE then Some("CL_INVALID_WORK_ITEM_SIZE")
    else if code == CL_INVALID_GLOBAL_OFFSET then Some("CL_INVALID_GLOBAL_OFFSET")
    else if code == CL_INVALID_EVENT_WAIT_LIST then Some("CL_INVALID_EVENT_WAIT_LIST")
    else if code == CL_INVALID_EVENT then Some("CL_INVALID_EVENT")
    else if code == CL_INVALID_OPERATION then Some("CL_INVALID_OPERATION")
    else if code == CL_INVALID_GL_OBJECT then Some("CL_INVALID_GL_OBJECT")
    else None
  }

  /** The arms for the invalid-argument codes -61 to -66. */
  function InvalidArms61(code: ClInt): (name: Option<string>)
    ensures name.Some? <==> -66 <= code <= -61
    ensures name.Some? ==> CodeOfName(name.value) == Some(code)
  {
    if code == CL_INVALID_BUFFER_SIZE then Some("CL_INVALID_BUFFER_SIZE")
    else if code == CL_INVALID_MIP_LEVEL then Some("CL_INVALID_MIP_LEVEL")
    else if code == CL_INVALID_GLOBAL_WORK_SIZE then Some("CL_INVALID_GLOBAL_WORK_SIZE")
    else if code == CL_INVALID_PROPERTY then Some("CL_INVALID_PROPERTY")
    else if code == CL_INVALID_IMAGE_DESCRIPTOR then Some("CL_INVALID_IMAGE_DESCRIPTOR")
    else if code == CL_INVALID_COMPILER_OPTIONS then Some("CL_INVALID_COMPILER_OPTIONS")
    else None
  }

  /** The arms for the invalid-argument codes -67 to -72. */
  function InvalidArms67(code: ClInt): (name: Option<string>)
    ensures name.Some? <==> -72 <= code <= -67
    ensures name.Some? ==> CodeOfName(name.value) == Some(code)
  {
    if code == CL_INVALID_LINKER_OPTIONS then Some("CL_INVALID_LINKER_OPTIONS")
    else if code == CL_INVALID_DEVICE_PARTITION_COUNT then Some("CL_INVALID_DEVICE_PARTITION_COUNT")
    else if code == CL_INVALID_PIPE_SIZE then Some("CL_INVALID_PIPE_SIZE")
    else if code == CL_INVALID_DEVICE_QUEUE then Some("CL_INVALID_DEVICE_QUEUE")
    else if code == CL_INVALID_SPEC_ID then Some("CL_INVALID_SPEC_ID")
    else if code == CL_MAX_SIZE_RESTRICTION_EXCEEDED then Some("CL_MAX_SIZE_RESTRICTION_EXCEEDED")
    else None
  }

  /** The arms for the GL sharing, ICD loader and D3D11 sharing codes. */
  function ExtensionArms1000(code: ClInt): (name: Option<string>)
    ensures name.Some? <==>
      || -1009 <= code <= -1006
      || -1001 <= code <= -1000
    ensures name.Some? ==> CodeOfName(name.value) == Some(code)
  {
    if code == CL_INVALID_GL_SHAREGROUP_REFERENCE_KHR then Some("CL_INVALID_GL_SHAREGROUP_REFERENCE_KHR")
    else if code == CL_PLATFORM_NOT_FOUND_KHR then Some("CL_PLATFORM_NOT_FOUND_KHR")
    else if code == CL_INVALID_D3D11_DEVICE_KHR then Some("CL_INVALID_D3D11_DEVICE_KHR")
    else if code == CL_INVALID_D3D11_RESOURCE_KHR then Some("CL_INVALID_D3D11_RESOURCE_KHR")
    else if code == CL_D3D11_RESOURCE_ALREADY_ACQUIRED_KHR then Some("CL_D3D11_RESOURCE_ALREADY_ACQUIRED_KHR")
    else if code == CL_D3D11_RESOURCE_NOT_ACQUIRED_KHR then Some("CL_D3D11_RESOURCE_NOT_ACQUIRED_KHR")
    else None
  }

  /** The arms for the DX9 media sharing codes. */
  function ExtensionArms1010(code: ClInt): (name: Option<string>)
    ensures name.Some? <==> -1013 <= code <= -1010
    ensures name.Some? ==> CodeOfName(name.value) == Some(code)
  {
    if code == CL_INVALID_DX9_MEDIA_ADAPTER_KHR then Some("CL_INVALID_DX9_MEDIA_ADAPTER_KHR")
    else if code == CL_INVALID_DX9_MEDIA_SURFACE_KHR then Some("CL_INVALID_DX9_MEDIA_SURFACE_KHR")
    else if code == CL_DX9_MEDIA_SURFACE_ALREADY_ACQUIRED_KHR then Some("CL_DX9_MEDIA_SURFACE_ALREADY_ACQUIRED_KHR")
    else if code == CL_DX9_MEDIA_SURFACE_NOT_ACQUIRED_KHR then Some("CL_DX9_MEDIA_SURFACE_NOT_ACQUIRED_KHR")
    else None
  }

  /** The arms for the device fission codes. */
  function ExtensionArms1057(code: ClInt): (name: Option<string>)
    ensures name.Some? <==> -1059 <= code <= -1057
    ensures name.Some? ==> CodeOfName(name.value) == Some(code)
  {
    if code == CL_DEVICE_PARTITION_FAILED_EXT then Some("CL_DEVICE_PARTITION_FAILED_EXT")
    else if code == CL_INVALID_PARTITION_COUNT_EXT then Some("CL_INVALID_PARTITION_COUNT_EXT")
    else if code == CL_INVALID_PARTITION_NAME_EXT then Some("CL_INVALID_PARTITION_NAME_EXT")
    else None
  }

  /** The arms for the EGL codes. */
  function ExtensionArms1092(code: ClInt): (name: Option<string>)
    ensures name.Some? <==> -1093 <= code <= -1092
    ensures name.Some? ==> CodeOfName(name.value) == Some(code)
  {
    if code == CL_EGL_RESOURCE_NOT_ACQUIRED_KHR then Some("CL_EGL_RESOURCE_NOT_ACQUIRED_KHR")
    else if code == CL_INVALID_EGL_OBJECT_KHR then Some("CL_INVALID_EGL_OBJECT_KHR")
    else None
  }

  /** The arms for the Intel accelerator and Arm codes. */
  function ExtensionArms1094(code: ClInt): (name: Option<string>)
    ensures name.Some? <==>
      || code == -1108
      || -1097 <= code <= -1094
    ensures name.Some? ==> CodeOfName(name.value) == Some(code)
  {
    if code == CL_INVALID_ACCELERATOR_INTEL then Some("CL_INVALID_ACCELERATOR_INTEL")
    else if code == CL_INVALID_ACCELERATOR_TYPE_INTEL then Some("CL_INVALID_ACCELERATOR_TYPE_INTEL")
    else if code == CL_INVALID_ACCELERATOR_DESCRIPTOR_INTEL then Some("CL_INVALID_ACCELERATOR_DESCRIPTOR_INTEL")
    else if code == CL_ACCELERATOR_TYPE_NOT_SUPPORTED_INTEL then Some("CL_ACCELERATOR_TYPE_NOT_SUPPORTED_INTEL")
    else if code == CL_COMMAND_TERMINATED_ITSELF_WITH_FAILURE_ARM then Some("CL_COMMAND_TERMINATED_ITSELF_WITH_FAILURE_ARM")
    else None
  }

  /** The arms for the context termination, external semaphore and command buffer codes. */
  function ExtensionArms1121(code: ClInt): (name: Option<string>)
    ensures name.Some? <==>
      || code == -1142
      || -1140 <= code <= -1138
      || code == -1121
    ensures name.Some? ==> CodeOfName(name.value) == Some(code)
  {
    if code == CL_CONTEXT_TERMINATED_KHR then Some("CL_CONTEXT_TERMINATED_KHR")
    else if code == CL_INVALID_SEMAPHORE_KHR then Some("CL_INVALID_SEMAPHORE_KHR")
    else if code == CL_INVALID_COMMAND_BUFFER_KHR then Some("CL_INVALID_COMMAND_BUFFER_KHR")
    else if code == CL_INVALID_SYNC_POINT_WAIT_LIST_KHR then Some("CL_INVALID_SYNC_POINT_WAIT_LIST_KHR")
    else if code == CL_INCOMPATIBLE_COMMAND_QUEUE_KHR then Some("CL_INCOMPATIBLE_COMMAND_QUEUE_KHR")
    else None
  }

  /** The first block that names `code`, if any. The blocks cover disjoint
      codes, so this is the one arm of the source's match that `code` selects. */
  function ArmName(code: ClInt): (name: Option<string>)
    ensures name.Some? <==> IsListedCode(code)
    ensures name.Some? ==> CodeOfName(name.value) == Some(code)
  {
    var name0 := CoreArms0(code);
    var name1 := CoreArms7(code);
    var name2 := CoreArms14(code);
    var name3 := InvalidArms30(code);
    var name4 := InvalidArms37(code);
    var name5 := InvalidArms43(code);
    var name6 := InvalidArms49(code);
    var name7 := InvalidArms55(code);
    var name8 := InvalidArms61(code);
    var name9 := InvalidArms67(code);
    var name10 := ExtensionArms1000(code);
    var name11 := ExtensionArms1010(code);
    var name12 := ExtensionArms1057(code);
    var name13 := ExtensionArms1092(code);
    var name14 := ExtensionArms1094(code);
    var name15 := ExtensionArms1121(code);
    if name0.Some? then name0
    else if name1.Some? then name1
    else if name2.Some? then name2
    else if name3.Some? then name3
    else if name4.Some? then name4
    else if name5.Some? then name5
    else if name6.Some? then name6
    else if name7.Some? then name7
    else if name8.Some? then name8
    else if name9.Some? then name9
    else if name10.Some? then name10
    else if name11.Some? then name11
    else if name12.Some? then name12
    else if name13.Some? then name13
    else if name14.Some? then name14
    else if name15.Some? then name15
    else None
  }

  /** The name of an OpenCL error code: the identifier of its constant, or
      `UNKNOWN_ERROR` for a code without an arm. The function is total. A
      listed code is never reported as `UNKNOWN_ERROR`, and its name reads
      back to it, so no two listed codes share a name. */
  function ErrorText(errorCode: ClInt): (text: string)
    ensures text == UNKNOWN_ERROR <==> !IsListedCode(errorCode)
    ensures IsListedCode(errorCode) ==> CodeOfName(text) == Some(errorCode)
  {
    match ArmName(errorCode)
    case Some(name) => name
    case None => UNKNOWN_ERROR
  }

  /** Two listed codes with the same name are the same code. */
  lemma ErrorTextInjective(code1: ClInt, code2: ClInt)
    requires IsListedCode(code1) && IsListedCode(code2)
    requires ErrorText(code1) == ErrorText(code2)
    ensures code1 == code2
  {
    assert Some(code1) == CodeOfName(ErrorText(code1)) == Some(code2);
  }

  /** `ClError`: the newtype around a `cl_int` error number. */
  datatype ClError = ClError(code: ClInt)

  /** `From<cl_int> for ClError`: wraps the number unchanged. */
  function FromCode(error: ClInt): (e: ClError)
    ensures e.code == error
  {
    ClError(error)
  }

  /** `From<ClError> for &str`: the name of the wrapped number. */
  function ToStr(error: ClError): (text: string)
    ensures text == UNKNOWN_ERROR <==> !IsListedCode(error.code)
  {
    ErrorText(error.code)
  }

  /** `From<ClError> for String`: an owned copy of the same name. */
  function ToOwnedString(error: ClError): (text: string)
    ensures text == ToStr(error)
  {
    var borrowed := ErrorText(error.code);
    seq(|borrowed|, i requires 0 <= i < |borrowed| => borrowed[i])
  }

  /** `Display for ClError`: writes the name to the formatter's output, which
      is modelled as the text written so far; what was written before is
      kept and the name follows it. The write never fails. */
  function Display(error: ClError, written: string): (output: string)
    ensures |output| == |written| + |ToStr(error)|
    ensures output[..|written|] == written
    ensures output[|written|..] == ToStr(error)
  {
    written + ErrorText(error.code)
  }

  /** The three ways of turning a `ClError` into text agree, and the
      conversion from a code keeps the code: the text of `FromCode(c)` is
      `ErrorText(c)`. */
  lemma ConversionsAgree(code: ClInt)
    ensures FromCode(code).code == code
    ensures ToStr(FromCode(code)) == ErrorText(code)
    ensures ToOwnedString(FromCode(code)) == ErrorText(code)
    ensures Display(FromCode(code), "") == ErrorText(code)
  {
  }

  /** The codes the unit tests at src/error_codes.rs:171-206 use, among
      them the code just below the last invalid-argument code, which has no
      arm. */
  lemma ErrorTextExamples()
    ensures ErrorText(CL_SUCCESS) == "CL_SUCCESS"
    ensures ErrorText(CL_DEVICE_NOT_FOUND) == "CL_DEVICE_NOT_FOUND"
    ensures ErrorText(CL_INVALID_VALUE) == "CL_INVALID_VALUE"
    ensures ErrorText(CL_MAX_SIZE_RESTRICTION_EXCEEDED) == "CL_MAX_SIZE_RESTRICTION_EXCEEDED"
    ensures ErrorText(CL_PLATFORM_NOT_FOUND_KHR) == "CL_PLATFORM_NOT_FOUND_KHR"
    ensures ErrorText(CL_MAX_SIZE_RESTRICTION_EXCEEDED - 1) == UNKNOWN_ERROR
  {
  }

  /** The D3D10 sharing codes have no arm, so they are reported as
      `UNKNOWN_ERROR`, as is every positive code. */
  lemma UnlistedCodes(code: ClInt)
    requires CL_D3D10_RESOURCE_NOT_ACQUIRED_KHR <= code <= CL_INVALID_D3D10_DEVICE_KHR || code > 0
    ensures ErrorText(code) == UNKNOWN_ERROR
  {
  }
}
