/** The name of the named pipe between a session process and the session
    manager: `\\.\pipe\FreeRDS_<session id>_<endpoint>`, where the session id
    is a `DWORD` cast to `int` and printed with `%d`. */
module PipeName {
  import opened WinTypes

  /** The fixed part of the name, `\\.\pipe\FreeRDS_`. */
  const Prefix: string := "\\\\.\\pipe\\FreeRDS_"

  const Separator: char := '_'

  predicate IsDigit(c: char) {
    '0' <= c <= '9'
  }

  function DigitChar(d: nat): (c: char)
    requires d < 10
    ensures IsDigit(c)
  {
    "0123456789"[d]
  }

  function DigitValue(c: char): (d: nat)
    requires IsDigit(c)
    ensures d < 10 && DigitChar(d) == c
  {
    (c as int - '0' as int) as nat
  }

  /** `n` in decimal, most significant digit first: a numeral without
      leading zeros whose value is `n`. */
  function Decimal(n: nat): (s: string)
    ensures Canonical(s) && DigitsValue(s) == n
    decreases n
  {
    if n < 10 then [DigitChar(n)]
    else
      var high := Decimal(n / 10);
      var s := high + [DigitChar(n % 10)];
      assert s[..|s| - 1] == high;
      s
  }

  /** What `%d` prints for the `int` value `i`: text that reads back as `i`
      and never contains the separator `_`. */
  function FormatInt(i: int): (s: string)
    ensures ParseInt(s) == Some(i)
    ensures forall k :: 0 <= k < |s| ==> s[k] != Separator
  {
    if i < 0 then
      var digits := Decimal(-i);
      var s := "-" + digits;
      assert s[0] == '-' && s[1..] == digits;
      assert forall k :: 1 <= k < |s| ==> s[k] == digits[k - 1];
      s
    else
      var s := Decimal(i);
      assert IsDigit(s[0]);
      s
  }

  /** The size of the buffer `clean` and `connect` print the name into. */
  const BufferSize: nat := 256

  /** A name that fits the buffer with its terminating NUL. */
  predicate FitsBuffer(name: string) {
    |name| < BufferSize
  }

  /** The pipe name both `clean` and `connect` print: it reads back as
      exactly the session id and endpoint it was built from. */
  function Name(sessionId: Dword, endpoint: CString): (name: string)
    ensures Parse(name) == Some((sessionId, endpoint))
  {
    var digits := FormatInt(ToInt32(sessionId));
    var name := Prefix + digits + [Separator] + endpoint;
    var rest := name[|Prefix|..];
    assert rest == digits + [Separator] + endpoint;
    assert rest[..|digits|] == digits;
    assert rest[|digits| + 1..] == endpoint;
    assert rest[|digits|] == Separator;
    assert forall k :: 0 <= k < |digits| ==> rest[k] == digits[k] && rest[k] != Separator;
    assert FirstIndex(rest, Separator) == Some(|digits|);
    ToInt32Inverse(sessionId);
    name
  }

  // ---------------------------------------------------------------------
  // Reading a name back: the partner of Name, used to show that different
  // (session id, endpoint) pairs never share a pipe.
  // ---------------------------------------------------------------------

  predicate AllDigits(s: string) {
    forall k :: 0 <= k < |s| ==> IsDigit(s[k])
  }

  /** A decimal numeral as `%d` prints one: digits only, no leading zero. */
  predicate Canonical(s: string) {
    |s| > 0 && AllDigits(s) && (s[0] == '0' ==> |s| == 1)
  }

  /** The value of a string of digits. */
  function DigitsValue(s: string): (n: nat)
    requires AllDigits(s)
    decreases |s|
  {
    if s == [] then 0 else DigitsValue(s[..|s| - 1]) * 10 + DigitValue(s[|s| - 1])
  }

  /** Reads back a numeral printed by `%d`; anything `%d` cannot print is
      refused. */
  function ParseInt(s: string): (r: Option<int>)
  {
    if |s| > 0 && s[0] == '-' then
      var digits := s[1..];
      var magnitude: int := if AllDigits(digits) then DigitsValue(digits) else 0;
      if Canonical(digits) && digits != "0" then Some(-magnitude) else None
    else if Canonical(s) then Some(DigitsValue(s))
    else None
  }

  /** The position of the first `c` in `s`, if any. */
  function FirstIndex(s: string, c: char): (r: Option<nat>)
    ensures r.Some? ==> r.value < |s| && s[r.value] == c
    ensures r.Some? ==> forall k :: 0 <= k < r.value ==> s[k] != c
    ensures r.None? ==> forall k :: 0 <= k < |s| ==> s[k] != c
    decreases |s|
  {
    if s == [] then None
    else if s[0] == c then Some(0)
    else match FirstIndex(s[1..], c)
      case None => None
      case Some(k) => Some(k + 1)
  }

  /** Splits a pipe name into the session id and the endpoint it was made
      from, or None when it is not a name `Name` can produce. */
  function Parse(name: string): (r: Option<(Dword, string)>)
  {
    if !(Prefix <= name) then None
    else
      var rest := name[|Prefix|..];
      match FirstIndex(rest, Separator)
      case None => None
      case Some(j) =>
        match ParseInt(rest[..j])
        case None => None
        case Some(i) =>
          if MinInt32 <= i <= MaxInt32 then Some((ToDword(i), rest[j + 1..])) else None
  }

  /** Two sessions, or two endpoints of one session, never share a pipe,
      as long as the names fit the 256-byte buffer. */
  lemma NameInjective(id1: Dword, endpoint1: CString, id2: Dword, endpoint2: CString)
    requires FitsBuffer(Name(id1, endpoint1)) && FitsBuffer(Name(id2, endpoint2))
    requires Name(id1, endpoint1) == Name(id2, endpoint2)
    ensures id1 == id2 && endpoint1 == endpoint2
  {
    // Both names parse back to the pairs they came from (Name's contract).
  }

  /** Session 5, endpoint `rdp`. */
  lemma NameExample()
    ensures Name(5, "rdp") == "\\\\.\\pipe\\FreeRDS_5_rdp"
  {
  }

  /** A session id above `INT_MAX` is printed negative, because of the cast
      to `int`. */
  lemma NameOfLargeSessionId()
    ensures Name(0xFFFF_FFFF, "rdp") == "\\\\.\\pipe\\FreeRDS_-1_rdp"
  {
  }
}
