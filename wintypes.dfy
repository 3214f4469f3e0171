/** The Win32 value types the transport works with, and the conversions
    between them that the C code performs: the explicit `(int)` cast of the
    session id, and the implicit conversion of a `DWORD` count to the `int`
    the read and write helpers return. */
module WinTypes {

  /** An optional value. */
  datatype Option<+T> = None | Some(value: T)

  /** A `BYTE`. */
  newtype byte = b: int | 0 <= b < 0x100

  const DwordLimit: int := 0x1_0000_0000
  const MaxInt32: int := 0x7FFF_FFFF
  const MinInt32: int := -0x8000_0000

  /** A `DWORD`: an unsigned 32-bit integer. */
  type Dword = d: int | 0 <= d < DwordLimit

  /** The values of a C `int` (32 bits, two's complement). */
  type Int32 = i: int | MinInt32 <= i <= MaxInt32

  /** The C cast `(int) d` of a `DWORD`: values above `INT_MAX` wrap around
      to negative numbers. */
  function ToInt32(d: Dword): (i: Int32)
    ensures 0 <= d <= MaxInt32 ==> i == d
    ensures d > MaxInt32 ==> i < 0
    ensures i % DwordLimit == d
  {
    if d <= MaxInt32 then d else d - DwordLimit
  }

  /** The reverse cast `(DWORD) i` of an `int`. */
  function ToDword(i: Int32): (d: Dword)
    ensures d % DwordLimit == i % DwordLimit
  {
    if i >= 0 then i else i + DwordLimit
  }

  /** The cast to `int` loses no information on a `DWORD`. */
  lemma ToInt32Inverse(d: Dword)
    ensures ToDword(ToInt32(d)) == d
  {
  }

  /** A C string's characters before its terminating NUL: none of them is
      NUL. */
  predicate NoNul(s: string) {
    forall k :: 0 <= k < |s| ==> s[k] != '\0'
  }

  /** A `const char*` argument, as the characters `%s` prints. */
  type CString = s: string | NoNul(s)

  function Min(a: int, b: int): (m: int)
    ensures m <= a && m <= b && (m == a || m == b)
  {
    if a <= b then a else b
  }
}
