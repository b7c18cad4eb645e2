/** The OpenCL host scalar types that the modelled code uses, as integer
    newtypes bounded by their C ranges. `size_t` and `intptr_t` are taken at
    their 64-bit width. */
module ClTypes {
  /** `cl_uchar` */
  newtype ClUchar = x: int | 0 <= x < 0x100
  /** `cl_uint` */
  newtype ClUint = x: int | 0 <= x < 0x1_0000_0000
  /** `cl_ulong` */
  newtype ClUlong = x: int | 0 <= x < 0x1_0000_0000_0000_0000
  /** `size_t` on a 64-bit target */
  newtype SizeT = x: int | 0 <= x < 0x1_0000_0000_0000_0000
  /** `cl_int` */
  newtype ClInt = x: int | -0x8000_0000 <= x < 0x8000_0000
  /** `intptr_t` on a 64-bit target */
  newtype IntPtr = x: int | -0x8000_0000_0000_0000 <= x < 0x8000_0000_0000_0000

  /** `cl_version` / `cl_version_khr`: a `cl_uint` holding a packed major.minor.patch. */
  type ClVersion = ClUint

  /** The fixed size of the `name` array of `cl_name_version`. */
  const NAME_VERSION_MAX_NAME_SIZE: nat := 64

  type NameBytes = s: seq<ClUchar> | |s| == NAME_VERSION_MAX_NAME_SIZE
    witness seq(NAME_VERSION_MAX_NAME_SIZE, _ => 0)

  /** `cl_name_version`: a packed version and a fixed-size, NUL-padded name. */
  datatype NameVersion = NameVersion(version: ClVersion, name: NameBytes)

  /** `cl_image_format`: a channel order and a channel data type, both `cl_uint`. */
  datatype ImageFormat = ImageFormat(channelOrder: ClUint, channelDataType: ClUint)
}
