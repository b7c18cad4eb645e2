# cl3 core in Dafny

This project models three pieces of the `cl3` crate, a Rust adapter over the
Khronos OpenCL 3.0 C API. Nothing else of the crate is modelled.

- **`InfoType`** (`src/info_type.rs`). The tagged value that an OpenCL
  `clGet*Info` query returns, with twelve variants from `Int` to
  `VecVecUchar`. The model covers:
  - the twelve checked accessors;
  - `to_str`, which turns a byte answer into a C string. It pops trailing
    NULs in a loop, replaces each interior NUL with a space, then calls
    `CString::new`.
- **Extended versioning** (`src/ffi/cl_ext.rs:252-286`, from the
  `cl_khr_extended_versioning` extension). A 32-bit `cl_version_khr` packs
  three fields: major (10 bits), minor (10 bits) and patch (12 bits). The
  model covers:
  - the bit widths and masks;
  - the three field extractors;
  - `make_version_khr`.
- **Error codes** (`src/error_codes.rs`). `error_text` gives the name of an
  OpenCL error code, with `UNKNOWN_ERROR` for any other code. The model also
  covers the `ClError` newtype and its conversions to `&str`, to `String` and
  to `Display` text.

Modules and files:

| file | module | content |
|---|---|---|
| `cl_types.dfy` | `ClTypes` | the C scalar types as integer newtypes, plus `cl_name_version` and `cl_image_format` |
| `wrappers.dfy` | `Wrappers` | `Option` and `Result` |
| `bits.dfy` | `Bits` | Rust's `u32` operators `>>`, `<<`, `&` and `\|`, defined on naturals, with their arithmetic meaning proved |
| `versioning.dfy` | `Versioning` | the version packing |
| `error_codes.dfy` | `ErrorCodes` | `error_text` and `ClError` |
| `info_type.dfy` | `InfoTypes` | `InfoType`, its accessors, `CString::new` and `to_str` |

Notes on how the code is modelled:

- **Bit operators.** `Bits` defines `>>`, `&` and `|` bit by bit, by
  halving. `<<` is defined as `x·2^k mod 2^32`: the bits shifted past bit
  31 are lost. Lemmas then prove what each of the others means:
  - `x >> k` is `x / 2^k`;
  - `x & (2^k - 1)` is `x % 2^k`;
  - `|` of values with disjoint bits is their sum.

  The versioning functions apply these operators exactly as `cl_ext.rs`
  writes them.
- **`error_text` in blocks.** The source is a single `match` with 88 arms,
  in eleven blank-line groups. The model keeps the arms in the source's
  order and cuts them into sixteen blocks of at most seven consecutive arms:
  - the first group (the core status codes) is cut into three blocks;
  - the second group (the invalid-argument codes) into seven;
  - the nine extension groups become six blocks, each one or two whole
    groups.

  Each block is proved to name exactly its own codes. The blocks cover
  disjoint codes, so `ArmName`, which takes the first block that names a
  code, selects the same arm as the single match. Blocks keep each proof
  small enough for the solver.
- **Names read back to codes.** `CodeOfName` is the inverse of `error_text`
  on the listed codes. Every block, and `ErrorText` itself, is proved to give
  names that `CodeOfName` maps back to the code they came from. So no two
  arms return the same name.
- **`to_str`.** It is a method. Its loop pops trailing NULs from the answer,
  as the source's `while let` does. It is proved against a specification
  function, `Sanitized`.
- **`to_str` and the `Str` variant.** Other modules of the crate build an
  `InfoType::Str` variant (src/device.rs:316, src/platform.rs:125,
  src/program.rs:450, src/kernel.rs:237) and call `.to_str()` on the result
  (src/device.rs:678, src/platform.rs:165). The `src/info_type.rs` modelled
  here defines no `Str` variant; its `to_str` takes the `VecUchar` variant.
  The model follows `src/info_type.rs`.

## Model

| member | source | states |
|---|---|---|
| `InfoTypes.ToInt` | src/info_type.rs:54-59 | defined only on the `Int` variant; returns exactly its payload |
| `InfoTypes.ToUint` | src/info_type.rs:61-66 | defined only on `Uint`; returns its payload |
| `InfoTypes.ToUlong` | src/info_type.rs:68-73 | defined only on `Ulong`; returns its payload |
| `InfoTypes.ToSize` | src/info_type.rs:75-80 | defined only on `Size`; returns its payload |
| `InfoTypes.ToPtr` | src/info_type.rs:82-87 | defined only on `Ptr`; returns its payload |
| `InfoTypes.ToVecUchar` | src/info_type.rs:89-94 | defined only on `VecUchar`; returns its payload |
| `InfoTypes.ToVecUlong` | src/info_type.rs:96-101 | defined only on `VecUlong`; returns its payload |
| `InfoTypes.ToVecSize` | src/info_type.rs:103-108 | defined only on `VecSize`; returns its payload |
| `InfoTypes.ToVecIntPtr` | src/info_type.rs:110-115 | defined only on `VecIntPtr`; returns its payload |
| `InfoTypes.ToVecNameVersion` | src/info_type.rs:117-122 | defined only on `VecNameVersion`; returns its payload |
| `InfoTypes.ToVecImageFormat` | src/info_type.rs:124-129 | defined only on `VecImageFormat`; returns its payload |
| `InfoTypes.ToVecVecUchar` | src/info_type.rs:131-136 | defined only on `VecVecUchar`; returns its payload |
| `InfoTypes.AccessorsRebuild` | src/info_type.rs:22-136 | for each of the 12 variants, its own accessor accepts it, and putting the payload back under the tag rebuilds the value |
| `InfoTypes.NewCString` | src/info_type.rs:51 | `CString::new` succeeds exactly when the bytes contain no NUL, and then keeps them unchanged; otherwise the error reports the first NUL's position and returns the bytes |
| `InfoTypes.TrailingNuls` | src/info_type.rs:42-45 | counts the whole trailing run of NULs: every counted byte is NUL, and the byte before the run is not |
| `InfoTypes.StripTrailingNuls` | src/info_type.rs:42-45 | the result is a prefix of the input, only NULs follow it, and it does not end in NUL |
| `InfoTypes.StripPop` | src/info_type.rs:43-44 | popping one trailing NUL does not change the stripped form, so the loop keeps its invariant |
| `InfoTypes.StripUnique` | src/info_type.rs:42-45 | for any split into a part that does not end in NUL and a run of NULs, the stripped form is that part, so the run removed is maximal |
| `InfoTypes.SpaceForNul` | src/info_type.rs:48-49 | a NUL becomes a space (32), any other byte is kept, so the mapped byte is never NUL |
| `InfoTypes.Sanitized` | src/info_type.rs:39-52 | `to_str`'s text contains no NUL; its length is the input's length minus the trailing NUL run; each other byte is kept in place; an interior NUL becomes a space (32) |
| `InfoTypes.ToStr` | src/info_type.rs:39-52 | requires the `VecUchar` variant; always returns a C string and never a `NulError`; the C string's bytes are `Sanitized` of the payload |
| `InfoTypes.SanitizedEmpty` | src/info_type.rs:39-52 | the text is empty exactly when the answer is all NULs, including the empty answer |
| `InfoTypes.SanitizedNulFree` | src/info_type.rs:39-52 | an answer with no NUL passes through unchanged |
| `InfoTypes.SanitizedIdempotent` | src/info_type.rs:39-52 | sanitising twice gives the same text as sanitising once |
| `InfoTypes.ToStrExample` | src/info_type.rs:39-52 | "OpenCL 3.0" followed by five NULs gives the C string "OpenCL 3.0" |
| `Bits.Shr32` | src/ffi/cl_ext.rs:264 | `u32 >> k` for k < 32 is the quotient by 2^k |
| `Bits.Shl32` | src/ffi/cl_ext.rs:258-260 | `u32 << k` for k < 32 multiplies by 2^k whenever the product fits in 32 bits |
| `Bits.And32` | src/ffi/cl_ext.rs:269 | `u32 &` is at most each operand |
| `Bits.Or32` | src/ffi/cl_ext.rs:283-285 | `u32 \|` is at least each operand and stays within 32 bits |
| `Bits.LowIsMod` | src/ffi/cl_ext.rs:264 | shifting right by k is division by 2^k, and the bits shifted out are the remainder |
| `Bits.AndLowMask` | src/ffi/cl_ext.rs:269 | `&` with a mask of k low ones keeps exactly the low k bits |
| `Bits.OrDisjoint` | src/ffi/cl_ext.rs:283-285 | `\|` of a value shifted left by k with a value below 2^k is their sum |
| `Versioning.MaskOf` | src/ffi/cl_ext.rs:258-260 | `(1 << bits) - 1` is 2^bits - 1 |
| `Versioning.FieldLayout` | src/ffi/cl_ext.rs:254-260 | the widths 10, 10 and 12 fill 32 bits exactly; the masks are 1023, 1023 and 4095 |
| `Versioning.VersionMajor` | src/ffi/cl_ext.rs:262-265 | the major version is the packed value divided by 2^22, and at most 1023 |
| `Versioning.VersionMinor` | src/ffi/cl_ext.rs:267-270 | the minor version is (value / 2^12) mod 2^10, and at most 1023 |
| `Versioning.VersionPatch` | src/ffi/cl_ext.rs:272-275 | the patch is value mod 2^12, and at most 4095 |
| `Versioning.MakeVersion` | src/ffi/cl_ext.rs:277-286 | the packed value is (major mod 2^10)·2^22 + (minor mod 2^10)·2^12 + (patch mod 2^12); the fields neither overflow nor spill into each other |
| `Versioning.MaskIsMod` | src/ffi/cl_ext.rs:269 | `x & mask(bits)` is x mod 2^bits |
| `Versioning.PackDisjoint` | src/ffi/cl_ext.rs:283-285 | the three shifted fields occupy disjoint bits, so their `\|` is their sum |
| `Versioning.UnpackMake` | src/ffi/cl_ext.rs:262-286 | unpacking a packed version gives each component cut to its field's mask |
| `Versioning.MakeUnpack` | src/ffi/cl_ext.rs:262-286 | packing the three fields of any 32-bit value rebuilds that value |
| `Versioning.VersionOrder` | src/ffi/cl_ext.rs:262-275 | two 32-bit values compare exactly as their (major, minor, patch) triples compare lexicographically |
| `Versioning.MakeVersionOrder` | src/ffi/cl_ext.rs:277-286 | for components within their masks, packed versions compare lexicographically, and packing is injective |
| `ErrorCodes.CoreArms0` | src/error_codes.rs:28-34 | these arms name exactly the codes 0 to -6, each with a name that `CodeOfName` reads back to that code |
| `ErrorCodes.CoreArms7` | src/error_codes.rs:35-41 | these arms name exactly the codes -7 to -13, each with a name that `CodeOfName` reads back to that code |
| `ErrorCodes.CoreArms14` | src/error_codes.rs:42-49 | these arms name exactly the codes -14 to -19, each with a name that `CodeOfName` reads back to that code |
| `ErrorCodes.InvalidArms30` | src/error_codes.rs:51-57 | these arms name exactly the codes -30 to -36, each with a name that `CodeOfName` reads back to that code |
| `ErrorCodes.InvalidArms37` | src/error_codes.rs:58-63 | these arms name exactly the codes -37 to -42, each with a name that `CodeOfName` reads back to that code |
| `ErrorCodes.InvalidArms43` | src/error_codes.rs:64-69 | these arms name exactly the codes -43 to -48, each with a name that `CodeOfName` reads back to that code |
| `ErrorCodes.InvalidArms49` | src/error_codes.rs:70-75 | these arms name exactly the codes -49 to -54, each with a name that `CodeOfName` reads back to that code |
| `ErrorCodes.InvalidArms55` | src/error_codes.rs:76-81 | these arms name exactly the codes -55 to -60, each with a name that `CodeOfName` reads back to that code |
| `ErrorCodes.InvalidArms61` | src/error_codes.rs:82-87 | these arms name exactly the codes -61 to -66, each with a name that `CodeOfName` reads back to that code |
| `ErrorCodes.InvalidArms67` | src/error_codes.rs:88-93 | these arms name exactly the codes -67 to -72, each with a name that `CodeOfName` reads back to that code |
| `ErrorCodes.ExtensionArms1000` | src/error_codes.rs:95-101 | these arms name exactly the codes -1000 to -1001 and -1006 to -1009, each with a name that `CodeOfName` reads back to that code |
| `ErrorCodes.ExtensionArms1010` | src/error_codes.rs:103-106 | these arms name exactly the codes -1010 to -1013, each with a name that `CodeOfName` reads back to that code |
| `ErrorCodes.ExtensionArms1057` | src/error_codes.rs:108-110 | these arms name exactly the codes -1057 to -1059, each with a name that `CodeOfName` reads back to that code |
| `ErrorCodes.ExtensionArms1092` | src/error_codes.rs:112-113 | these arms name exactly the codes -1092 to -1093, each with a name that `CodeOfName` reads back to that code |
| `ErrorCodes.ExtensionArms1094` | src/error_codes.rs:115-122 | these arms name exactly the codes -1094 to -1097 and -1108, each with a name that `CodeOfName` reads back to that code |
| `ErrorCodes.ExtensionArms1121` | src/error_codes.rs:124-129 | these arms name exactly the codes -1121, -1142 and -1138 to -1140, each with a name that `CodeOfName` reads back to that code |
| `ErrorCodes.ArmName` | src/error_codes.rs:27-130 | the arm selected for a code exists exactly when the code is listed, and its name reads back to the code |
| `ErrorCodes.ErrorText` | src/error_codes.rs:26-133 | total; returns `UNKNOWN_ERROR` exactly when the code is outside the listed ranges; the name of a listed code reads back to that code |
| `ErrorCodes.ErrorTextInjective` | src/error_codes.rs:28-129 | no two listed codes share a name |
| `ErrorCodes.ErrorTextExamples` | src/error_codes.rs:171-206 | the unit-test cases: `CL_SUCCESS`, `CL_DEVICE_NOT_FOUND`, `CL_INVALID_VALUE`, `CL_MAX_SIZE_RESTRICTION_EXCEEDED` and `CL_PLATFORM_NOT_FOUND_KHR` get their own names, and -73 gets `UNKNOWN_ERROR` |
| `ErrorCodes.UnlistedCodes` | src/error_codes.rs:131 | the D3D10 codes (-1002 to -1005) and every positive code get `UNKNOWN_ERROR` |
| `ErrorCodes.FromCode` | src/error_codes.rs:140-144 | wrapping a code keeps it unchanged |
| `ErrorCodes.ToStr` | src/error_codes.rs:146-151 | the `&str` is `UNKNOWN_ERROR` exactly when the wrapped code is unlisted |
| `ErrorCodes.ToOwnedString` | src/error_codes.rs:153-158 | the owned `String` has the same text as the `&str` conversion |
| `ErrorCodes.Display` | src/error_codes.rs:160-165 | formatting keeps what was already written and appends the `&str` text |
| `ErrorCodes.ConversionsAgree` | src/error_codes.rs:140-165 | `From<cl_int>` keeps the code, and the `&str`, `String` and `Display` conversions all give `error_text` of it |

## Left out

- The FFI declarations, the wrapper modules (platform, device, context,
  queue, memory, program, kernel, event, sampler and the interop modules),
  `macros.rs`, the static and dynamic runtime loading, `build.rs`, the
  examples and the integration tests. They are calls into the native OpenCL
  library, which is not visible here.
- The values of the error codes come from a dependency crate that is not
  part of this model; src/error_codes.rs:18 imports them from the crate's
  `constants` module and its `cl_ext`, `cl_gl`, `cl_d3d11`,
  `cl_dx9_media_sharing` and `cl_egl` submodules. The model uses the values
  the Khronos headers publish:
  - the core codes (0 to -19 and -30 to -72) from `cl.h`;
  - `CL_INVALID_GL_SHAREGROUP_REFERENCE_KHR` from `cl_gl.h`;
  - `CL_PLATFORM_NOT_FOUND_KHR` and the command-buffer codes (-1138 to
    -1140) from `cl_ext.h`.

  The other extension codes are also defined in `src/ffi/cl_ext.rs`,
  `cl_d3d11.rs`, `cl_dx9_media_sharing.rs` and `cl_egl.rs`, with the same
  values.
- InfoTypes.ToInt (and every other accessor, through to
  InfoTypes.ToVecVecUchar): a call on the wrong variant panics in the source,
  with a message. In the model it is excluded by a precondition, and the
  message is not modelled.
- InfoTypes.ToStr: a call on a variant other than `VecUchar` panics in the
  source, through `to_vec_uchar`. In the model it is a precondition.
  Consuming `self` (Rust's move) is not modelled.
- InfoTypes.CString: the terminating NUL that `CString` stores, and its heap
  allocation, are not modelled. `bytes` is the content before the
  terminator.
- ErrorCodes.Display: `fmt::Formatter` is modelled as the text written so
  far. The `fmt::Error` a failing output sink could return is not modelled;
  the write is taken to succeed.
- `Debug`, and the `thiserror`-derived `std::error::Error` implementation on
  `ClError`, are not modelled. They are derived code with nothing to prove.
- `size_t` and `intptr_t` are taken with their 64-bit widths. The payloads
  `cl_name_version` and `cl_image_format` are plain records; nothing in the
  core inspects them.
