/** The `cl_khr_extended_versioning` packing of a version number into a
    `cl_version_khr` (a 32-bit `cl_uint`): the major version in the top 10 bits,
    the minor version in the next 10 bits and the patch in the low 12 bits, as
    the Versioning subsection of the OpenCL 3.0 API specification defines. */
module Versioning {
  import opened ClTypes
  import opened Bits

  const VERSION_MAJOR_BITS: ClVersion := 10
  const VERSION_MINOR_BITS: ClVersion := 10
  const VERSION_PATCH_BITS: ClVersion := 12

  const VERSION_MAJOR_MASK: ClVersion := MaskOf(VERSION_MAJOR_BITS)
  const VERSION_MINOR_MASK: ClVersion := MaskOf(VERSION_MINOR_BITS)
  const VERSION_PATCH_MASK: ClVersion := MaskOf(VERSION_PATCH_BITS)

  /** `(1 << bits) - 1`: a mask of `bits` low ones. */
  function MaskOf(bits: ClVersion): (mask: ClVersion)
    requires bits < 32
    ensures mask as nat == Pow2(bits as nat) - 1
  {
    Pow2Below(bits as nat, 32);
    Pow2Values();
    Shl32(1, bits) - 1
  }

  /** The three fields exactly fill the 32 bits, and each mask is all ones
      over its field's width. */
  lemma FieldLayout()
    ensures VERSION_MAJOR_BITS + VERSION_MINOR_BITS + VERSION_PATCH_BITS == 32
    ensures VERSION_MAJOR_MASK == 1023 && VERSION_MINOR_MASK == 1023 && VERSION_PATCH_MASK == 4095
  {
    Pow2Values();
  }

  /** `version_major_khr`: the top 10 bits, i.e. the quotient by 2^22. */
  function VersionMajor(version: ClVersion): (major: ClVersion)
    ensures major as int == version as int / 0x40_0000
    ensures major <= VERSION_MAJOR_MASK
  {
    Pow2Values();
    FieldLayout();
    LowIsMod(version as nat, 22);
    Shr32(version, VERSION_MINOR_BITS + VERSION_PATCH_BITS)
  }

  /** `version_minor_khr`: the middle 10 bits, i.e. the quotient by 2^12
      taken modulo 2^10. */
  function VersionMinor(version: ClVersion): (minor: ClVersion)
    ensures minor as int == (version as int / 0x1000) % 0x400
    ensures minor <= VERSION_MINOR_MASK
  {
    var shifted := Shr32(version, VERSION_PATCH_BITS);
    assert shifted as int == version as int / 0x1000 by {
      Pow2Values();
      LowIsMod(version as nat, 12);
    }
    MaskIsMod(shifted, 10);
    Pow2Values();
    FieldLayout();
    And32(shifted, VERSION_MINOR_MASK)
  }

  /** `version_patch_khr`: the low 12 bits, i.e. the remainder modulo 2^12. */
  function VersionPatch(version: ClVersion): (patch: ClVersion)
    ensures patch as int == version as int % 0x1000
    ensures patch <= VERSION_PATCH_MASK
  {
    MaskIsMod(version, 12);
    Pow2Values();
    FieldLayout();
    And32(version, VERSION_PATCH_MASK)
  }

  /** `make_version_khr`: each component is first cut to its field width, so an
      out-of-range component never reaches a neighbouring field. The result is
      exactly the positional sum of the three cut components: no bit is lost
      to the 32-bit width and no two fields overlap. */
  function MakeVersion(major: ClVersion, minor: ClVersion, patch: ClVersion): (version: ClVersion)
    ensures version as int == (major as int % 1024) * 0x40_0000 + (minor as int % 1024) * 0x1000 + patch as int % 4096
  {
    var a, b, c := And32(major, VERSION_MAJOR_MASK), And32(minor, VERSION_MINOR_MASK), And32(patch, VERSION_PATCH_MASK);
    assert a as int == major as int % 1024 && b as int == minor as int % 1024 && c as int == patch as int % 4096 by {
      FieldLayout();
      MaskIsMod(major, 10);
      MaskIsMod(minor, 10);
      MaskIsMod(patch, 12);
      Pow2Values();
    }
    var high := Shl32(a, VERSION_MINOR_BITS + VERSION_PATCH_BITS);
    var middle := Shl32(b, VERSION_PATCH_BITS);
    assert high as int == a as int * 0x40_0000 && middle as int == b as int * 0x1000 by {
      Pow2Values();
    }
    PackDisjoint(a as nat, b as nat, c as nat);
    Or32(Or32(high, middle), c)
  }

  /** Three fields below their ranges, shifted into place, combine by OR into
      their positional sum. */
  lemma PackDisjoint(a: nat, b: nat, c: nat)
    requires a < 1024 && b < 1024 && c < 4096
    ensures Or(Or(a * 0x40_0000, b * 0x1000), c) == a * 0x40_0000 + b * 0x1000 + c
  {
    Pow2Values();
    OrDisjoint(a, b * 0x1000, 22);
    assert (a * 0x400 + b) * Pow2(12) == a * 0x40_0000 + b * 0x1000;
    OrDisjoint(a * 0x400 + b, c, 12);
  }

  /** Masking with the low-ones mask of a field is the remainder modulo the
      field's range. */
  lemma MaskIsMod(x: ClVersion, bits: ClVersion)
    requires bits < 32
    ensures And32(x, MaskOf(bits)) as int == x as int % Pow2(bits as nat)
  {
    AndLowMask(x as nat, bits as nat);
    LowIsMod(x as nat, bits as nat);
  }

  // Place value of the three fields, stated on plain integers.

  lemma FieldsOfSum(a: int, b: int, c: int)
    requires 0 <= a < 0x400 && 0 <= b < 0x400 && 0 <= c < 0x1000
    ensures (a * 0x40_0000 + b * 0x1000 + c) / 0x40_0000 == a
    ensures ((a * 0x40_0000 + b * 0x1000 + c) / 0x1000) % 0x400 == b
    ensures (a * 0x40_0000 + b * 0x1000 + c) % 0x1000 == c
  {
    var v := a * 0x40_0000 + b * 0x1000 + c;
    DivModUnique(v, 0x40_0000, a, b * 0x1000 + c);
    DivModUnique(v, 0x1000, a * 0x400 + b, c);
    DivModUnique(a * 0x400 + b, 0x400, a, b);
  }

  lemma SumOfFields(v: int)
    requires 0 <= v < 0x1_0000_0000
    ensures v == (v / 0x40_0000) * 0x40_0000 + ((v / 0x1000) % 0x400) * 0x1000 + v % 0x1000
    ensures 0 <= v / 0x40_0000 < 0x400
  {
    var q := v / 0x1000;
    assert v == q * 0x1000 + v % 0x1000;
    assert q == (q / 0x400) * 0x400 + q % 0x400;
    DivModUnique(v, 0x40_0000, q / 0x400, (q % 0x400) * 0x1000 + v % 0x1000);
  }

  lemma SumOfCutFields(v: int)
    requires 0 <= v < 0x1_0000_0000
    ensures v == ((v / 0x40_0000) % 1024) * 0x40_0000 + (((v / 0x1000) % 0x400) % 1024) * 0x1000 + (v % 0x1000) % 4096
  {
    SumOfFields(v);
  }

  lemma SumOrder(a1: int, b1: int, c1: int, a2: int, b2: int, c2: int)
    requires 0 <= a1 < 0x400 && 0 <= b1 < 0x400 && 0 <= c1 < 0x1000
    requires 0 <= a2 < 0x400 && 0 <= b2 < 0x400 && 0 <= c2 < 0x1000
    ensures a1 * 0x40_0000 + b1 * 0x1000 + c1 < a2 * 0x40_0000 + b2 * 0x1000 + c2
        <==> (a1 < a2 || (a1 == a2 && (b1 < b2 || (b1 == b2 && c1 < c2))))
  {
  }

  /** Unpacking a packed version gives back each component cut to its field
      by the field's mask. */
  lemma UnpackMake(major: ClVersion, minor: ClVersion, patch: ClVersion)
    ensures VersionMajor(MakeVersion(major, minor, patch)) == And32(major, VERSION_MAJOR_MASK)
    ensures VersionMinor(MakeVersion(major, minor, patch)) == And32(minor, VERSION_MINOR_MASK)
    ensures VersionPatch(MakeVersion(major, minor, patch)) == And32(patch, VERSION_PATCH_MASK)
  {
    var a, b, c := major as int % 1024, minor as int % 1024, patch as int % 4096;
    var packed := MakeVersion(major, minor, patch);
    assert packed as int == a * 0x40_0000 + b * 0x1000 + c;
    FieldsOfSum(a, b, c);
    assert VersionMajor(packed) as int == a;
    assert VersionMinor(packed) as int == b;
    assert VersionPatch(packed) as int == c;
    FieldLayout();
    Pow2Values();
    MaskIsMod(major, 10);
    MaskIsMod(minor, 10);
    MaskIsMod(patch, 12);
  }

  /** Packing the three unpacked fields of any 32-bit value rebuilds that value. */
  lemma MakeUnpack(version: ClVersion)
    ensures MakeVersion(VersionMajor(version), VersionMinor(version), VersionPatch(version)) == version
  {
    var major, minor, patch := VersionMajor(version), VersionMinor(version), VersionPatch(version);
    SumOfCutFields(version as int);
    assert MakeVersion(major, minor, patch) as int == version as int;
  }

  /** Lexicographic order on (major, minor, patch). */
  predicate LexLess(a1: ClVersion, b1: ClVersion, c1: ClVersion, a2: ClVersion, b2: ClVersion, c2: ClVersion)
  {
    a1 < a2 || (a1 == a2 && (b1 < b2 || (b1 == b2 && c1 < c2)))
  }

  /** Any two 32-bit values compare exactly as the versions they encode:
      first by major, then by minor, then by patch. */
  lemma VersionOrder(v1: ClVersion, v2: ClVersion)
    ensures v1 < v2 <==> LexLess(VersionMajor(v1), VersionMinor(v1), VersionPatch(v1),
                                 VersionMajor(v2), VersionMinor(v2), VersionPatch(v2))
  {
    SumOfFields(v1 as int);
    SumOfFields(v2 as int);
    SumOrder(VersionMajor(v1) as int, VersionMinor(v1) as int, VersionPatch(v1) as int,
             VersionMajor(v2) as int, VersionMinor(v2) as int, VersionPatch(v2) as int);
  }

  /** For in-range components, packed versions compare exactly as their
      (major, minor, patch) triples do, and packing is injective. */
  lemma MakeVersionOrder(a1: ClVersion, b1: ClVersion, c1: ClVersion, a2: ClVersion, b2: ClVersion, c2: ClVersion)
    requires a1 <= VERSION_MAJOR_MASK && b1 <= VERSION_MINOR_MASK && c1 <= VERSION_PATCH_MASK
    requires a2 <= VERSION_MAJOR_MASK && b2 <= VERSION_MINOR_MASK && c2 <= VERSION_PATCH_MASK
    ensures MakeVersion(a1, b1, c1) < MakeVersion(a2, b2, c2) <==> LexLess(a1, b1, c1, a2, b2, c2)
    ensures MakeVersion(a1, b1, c1) == MakeVersion(a2, b2, c2) <==> (a1 == a2 && b1 == b2 && c1 == c2)
  {
    FieldLayout();
    assert a1 as int % 1024 == a1 as int && b1 as int % 1024 == b1 as int && c1 as int % 4096 == c1 as int;
    assert a2 as int % 1024 == a2 as int && b2 as int % 1024 == b2 as int && c2 as int % 4096 == c2 as int;
    var v1, v2 := MakeVersion(a1, b1, c1), MakeVersion(a2, b2, c2);
    assert v1 as int == a1 as int * 0x40_0000 + b1 as int * 0x1000 + c1 as int;
    assert v2 as int == a2 as int * 0x40_0000 + b2 as int * 0x1000 + c2 as int;
    SumOrder(a1 as int, b1 as int, c1 as int, a2 as int, b2 as int, c2 as int);
    SumOrder(a2 as int, b2 as int, c2 as int, a1 as int, b1 as int, c1 as int);
  }
}
