/** Model of src/info_type.rs: the `InfoType` enum that carries the value an
    OpenCL `clGet*Info` query returned, its checked accessors, and `to_str`,
    which turns a byte-array answer into a C string. */
module InfoTypes {
  import opened ClTypes
  import opened Wrappers

  /** The value of an OpenCL info query, tagged with its C type. */
  datatype InfoType =
    | Int(ClInt)
    | Uint(ClUint)
    | Ulong(ClUlong)
    | Size(SizeT)
    | Ptr(IntPtr)
    | VecUchar(seq<ClUchar>)
    | VecUlong(seq<ClUlong>)
    | VecSize(seq<SizeT>)
    | VecIntPtr(seq<IntPtr>)
    | VecNameVersion(seq<NameVersion>)
    | VecImageFormat(seq<ImageFormat>)
    | VecVecUchar(seq<seq<ClUchar>>)

  // The checked accessors. The source panics when the value holds another
  // variant; here that is the accessor's precondition. Each one returns
  // exactly the payload of its own variant.

  function ToInt(info: InfoType): (value: ClInt)
    requires info.Int?
    ensures info == Int(value)
  {
    match info
    case Int(a) => a
  }

  function ToUint(info: InfoType): (value: ClUint)
    requires info.Uint?
    ensures info == Uint(value)
  {
    match info
    case Uint(a) => a
  }

  function ToUlong(info: InfoType): (value: ClUlong)
    requires info.Ulong?
    ensures info == Ulong(value)
  {
    match info
    case Ulong(a) => a
  }

  function ToSize(info: InfoType): (value: SizeT)
    requires info.Size?
    ensures info == Size(value)
  {
    match info
    case Size(a) => a
  }

  function ToPtr(info: InfoType): (value: IntPtr)
    requires info.Ptr?
    ensures info == Ptr(value)
  {
    match info
    case Ptr(a) => a
  }

  function ToVecUchar(info: InfoType): (value: seq<ClUchar>)
    requires info.VecUchar?
    ensures info == VecUchar(value)
  {
    match info
    case VecUchar(a) => a
  }

  function ToVecUlong(info: InfoType): (value: seq<ClUlong>)
    requires info.VecUlong?
    ensures info == VecUlong(value)
  {
    match info
    case VecUlong(a) => a
  }

  function ToVecSize(info: InfoType): (value: seq<SizeT>)
    requires info.VecSize?
    ensures info == VecSize(value)
  {
    match info
    case VecSize(a) => a
  }

  function ToVecIntPtr(info: InfoType): (value: seq<IntPtr>)
    requires info.VecIntPtr?
    ensures info == VecIntPtr(value)
  {
    match info
    case VecIntPtr(a) => a
  }

  function ToVecNameVersion(info: InfoType): (value: seq<NameVersion>)
    requires info.VecNameVersion?
    ensures info == VecNameVersion(value)
  {
    match info
    case VecNameVersion(a) => a
  }

  function ToVecImageFormat(info: InfoType): (value: seq<ImageFormat>)
    requires info.VecImageFormat?
    ensures info == VecImageFormat(value)
  {
    match info
    case VecImageFormat(a) => a
  }

  function ToVecVecUchar(info: InfoType): (value: seq<seq<ClUchar>>)
    requires info.VecVecUchar?
    ensures info == VecVecUchar(value)
  {
    match info
    case VecVecUchar(a) => a
  }

  /** Each variant is accepted by its own accessor, and putting the payload
      that accessor returns back under the variant's tag rebuilds the value. */
  lemma AccessorsRebuild(info: InfoType)
    ensures match info
      case Int(_) => Int(ToInt(info)) == info
      case Uint(_) => Uint(ToUint(info)) == info
      case Ulong(_) => Ulong(ToUlong(info)) == info
      case Size(_) => Size(ToSize(info)) == info
      case Ptr(_) => Ptr(ToPtr(info)) == info
      case VecUchar(_) => VecUchar(ToVecUchar(info)) == info
      case VecUlong(_) => VecUlong(ToVecUlong(info)) == info
      case VecSize(_) => VecSize(ToVecSize(info)) == info
      case VecIntPtr(_) => VecIntPtr(ToVecIntPtr(info)) == info
      case VecNameVersion(_) => VecNameVersion(ToVecNameVersion(info)) == info
      case VecImageFormat(_) => VecImageFormat(ToVecImageFormat(info)) == info
      case VecVecUchar(_) => VecVecUchar(ToVecVecUchar(info)) == info
  {
  }

  // ----- C strings -----

  /** The NUL byte that terminates a C string. */
  const NUL: ClUchar := 0

  /** The byte an interior NUL is replaced with: an ASCII space. */
  const SPACE: ClUchar := 32

  /** No byte of `bytes` is NUL. */
  predicate NoNul(bytes: seq<ClUchar>) {
    forall i :: 0 <= i < |bytes| ==> bytes[i] != NUL
  }

  /** The bytes a C string may hold. */
  type NulFreeBytes = bytes: seq<ClUchar> | NoNul(bytes)

  /** `std::ffi::CString`: the bytes before its terminating NUL. */
  datatype CString = CString(bytes: NulFreeBytes)

  /** `std::ffi::NulError`: where the first NUL is, and the bytes handed back. */
  datatype NulError = NulError(position: nat, bytes: seq<ClUchar>)

  /** The index of the first NUL of `bytes`, if there is one. */
  function FirstNul(bytes: seq<ClUchar>): (position: Option<nat>)
    ensures position.None? <==> NoNul(bytes)
    ensures position.Some? ==>
      position.value < |bytes| && bytes[position.value] == NUL && NoNul(bytes[..position.value])
  {
    if |bytes| == 0 then None
    else if bytes[0] == NUL then Some(0)
    else
      match FirstNul(bytes[1..])
      case None => None
      case Some(p) =>
        assert bytes[..p + 1] == [bytes[0]] + bytes[1..][..p];
        Some(p + 1)
  }

  /** `CString::new`: succeeds exactly when the bytes hold no NUL, keeping
      them unchanged; otherwise reports the first NUL and returns the bytes. */
  function NewCString(bytes: seq<ClUchar>): (r: Result<CString, NulError>)
    ensures r.Ok? <==> NoNul(bytes)
    ensures r.Ok? ==> r.value.bytes == bytes
    ensures r.Err? ==>
      && r.error.bytes == bytes
      && r.error.position < |bytes|
      && bytes[r.error.position] == NUL
      && NoNul(bytes[..r.error.position])
  {
    match FirstNul(bytes)
    case None => Ok(CString(bytes))
    case Some(p) => Err(NulError(p, bytes))
  }

  // ----- to_str -----

  /** The number of NUL bytes that end `bytes`: the whole trailing run. */
  function TrailingNuls(bytes: seq<ClUchar>): (n: nat)
    ensures n <= |bytes|
    ensures forall i :: |bytes| - n <= i < |bytes| ==> bytes[i] == NUL
    ensures n < |bytes| ==> bytes[|bytes| - n - 1] != NUL
  {
    if |bytes| > 0 && bytes[|bytes| - 1] == NUL then
      1 + TrailingNuls(bytes[..|bytes| - 1])
    else
      0
  }

  /** `bytes` with its trailing run of NULs removed. */
  function StripTrailingNuls(bytes: seq<ClUchar>): (stripped: seq<ClUchar>)
    ensures |stripped| <= |bytes| && stripped == bytes[..|stripped|]
    ensures forall i :: |stripped| <= i < |bytes| ==> bytes[i] == NUL
    ensures stripped == [] || stripped[|stripped| - 1] != NUL
  {
    bytes[..|bytes| - TrailingNuls(bytes)]
  }

  /** A byte as `to_str` keeps it: NUL becomes a space, anything else stays. */
  function SpaceForNul(x: ClUchar): (y: ClUchar)
    ensures y != NUL
    ensures x != NUL ==> y == x
    ensures x == NUL ==> y == SPACE
  {
    if x != NUL then x else SPACE
  }

  /** What `to_str` makes of a byte answer: the trailing NULs are dropped and
      every NUL left inside becomes a space. The result holds no NUL, is as
      long as the answer without its trailing run, and keeps every other
      byte in place. */
  function Sanitized(bytes: seq<ClUchar>): (text: seq<ClUchar>)
    ensures NoNul(text)
    ensures |text| == |bytes| - TrailingNuls(bytes)
    ensures forall i :: 0 <= i < |text| && bytes[i] != NUL ==> text[i] == bytes[i]
    ensures forall i :: 0 <= i < |text| && bytes[i] == NUL ==> text[i] == SPACE
  {
    var stripped := StripTrailingNuls(bytes);
    seq(|stripped|, i requires 0 <= i < |stripped| => SpaceForNul(stripped[i]))
  }

  /** Popping one trailing NUL leaves the stripped form unchanged. */
  lemma StripPop(bytes: seq<ClUchar>)
    requires |bytes| > 0 && bytes[|bytes| - 1] == NUL
    ensures StripTrailingNuls(bytes[..|bytes| - 1]) == StripTrailingNuls(bytes)
  {
    var init := bytes[..|bytes| - 1];
    assert TrailingNuls(bytes) == 1 + TrailingNuls(init);
    assert init[..|init| - TrailingNuls(init)] == bytes[..|bytes| - TrailingNuls(bytes)];
  }

  /** `InfoType::to_str`: pops the trailing NULs off the byte answer, turns the
      NULs left inside into spaces and builds a C string from the result. The
      answer must be the `VecUchar` variant (the source panics otherwise).
      The C string is always built: `to_str` never returns a `NulError`. */
  method ToStr(info: InfoType) returns (r: Result<CString, NulError>)
    requires info.VecUchar?
    ensures r.Ok?
    ensures r.value.bytes == Sanitized(ToVecUchar(info))
  {
    var a := ToVecUchar(info);
    ghost var answer := a;
    while |a| > 0 && a[|a| - 1] == NUL
      invariant a == answer[..|a|]
      invariant StripTrailingNuls(a) == StripTrailingNuls(answer)
      decreases |a|
    {
      StripPop(a);
      a := a[..|a| - 1];
    }
    assert StripTrailingNuls(a) == a;
    var b := seq(|a|, i requires 0 <= i < |a| => SpaceForNul(a[i]));
    r := NewCString(b);
  }

  /** The answer is sanitised to nothing exactly when it is all NULs (the
      empty answer included). */
  lemma SanitizedEmpty(bytes: seq<ClUchar>)
    ensures Sanitized(bytes) == [] <==> forall i :: 0 <= i < |bytes| ==> bytes[i] == NUL
  {
    if Sanitized(bytes) != [] {
      assert bytes[|bytes| - TrailingNuls(bytes) - 1] != NUL;
    }
  }

  /** A NUL-free answer passes through unchanged. */
  lemma SanitizedNulFree(bytes: seq<ClUchar>)
    requires NoNul(bytes)
    ensures Sanitized(bytes) == bytes
  {
    if |bytes| > 0 {
      assert bytes[|bytes| - 1] != NUL;
    }
    assert TrailingNuls(bytes) == 0;
  }

  /** Sanitising twice changes nothing more than sanitising once. */
  lemma SanitizedIdempotent(bytes: seq<ClUchar>)
    ensures Sanitized(Sanitized(bytes)) == Sanitized(bytes)
  {
    SanitizedNulFree(Sanitized(bytes));
  }

  /** The trailing run is the longest one: for any split of the answer into
      a part that does not end in NUL and a run of NULs, the stripped form is
      that part. */
  lemma StripUnique(bytes: seq<ClUchar>, text: seq<ClUchar>, k: nat)
    requires bytes == text + seq(k, _ => NUL)
    requires text == [] || text[|text| - 1] != NUL
    ensures StripTrailingNuls(bytes) == text
  {
    var stripped := StripTrailingNuls(bytes);
    if text != [] {
      assert bytes[|text| - 1] == text[|text| - 1];
    }
    if stripped != [] {
      assert bytes[|stripped| - 1] == stripped[|stripped| - 1];
    }
    assert |stripped| == |text|;
    assert bytes[..|text|] == text;
  }

  /** A version string as a device reports it, "OpenCL 3.0" padded with five
      NULs, gives the C string "OpenCL 3.0". */
  method ToStrExample() returns (r: Result<CString, NulError>)
    ensures r == Ok(CString([79, 112, 101, 110, 67, 76, 32, 51, 46, 48]))
  {
    var text: seq<ClUchar> := [79, 112, 101, 110, 67, 76, 32, 51, 46, 48];
    var answer := text + [0, 0, 0, 0, 0];
    StripUnique(answer, text, 5);
    assert Sanitized(answer) == text;
    r := ToStr(VecUchar(answer));
  }
}
