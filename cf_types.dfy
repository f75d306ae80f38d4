/** The CoreFoundation and C values the disk entity stores and compares:
    bytes and C strings, URLs, UUIDs, property-list values, and the
    fixed-width integer conversions CFNumberGetValue performs. */
module CFTypes {
  import opened Wrappers

  type byte = b: int | 0 <= b < 256
  type uint32 = n: int | 0 <= n < 0x1_0000_0000

  /** The bytes of a C string buffer; only the bytes before the first NUL count. */
  type CString = seq<byte>

  /** A 16-byte CFUUID. */
  type Uuid = s: seq<byte> | |s| == 16 witness seq(16, i => 0)

  /** A file URL as CFURL keeps it: a POSIX path and whether it names a directory. */
  datatype Url = Url(path: string, isDirectory: bool)

  /** A property-list value. CFEqual on two values is `==` here; kCFBooleanTrue
      and kCFBooleanFalse are the singletons Bool(true) and Bool(false). */
  datatype Value =
    | Bool(b: bool)
    | Number(n: int)
    | Double(x: real)
    | Str(s: string)
    | Data(bytes: seq<byte>)
    | UrlValue(url: Url)
    | UuidValue(uuid: Uuid)
    | Dict(entries: map<string, Value>)

  type Dictionary = map<string, Value>

  /** CFDictionaryGetValue: the value stored under key, or nothing. */
  function Lookup(d: Dictionary, key: string): (r: Option<Value>)
    ensures r.Some? <==> key in d
    ensures r.Some? ==> r.value == d[key]
  {
    if key in d then Some(d[key]) else None
  }

  /** The C string held in a buffer: every byte before the first NUL (what
      strdup, strcpy and strlen see). */
  function CStr(s: seq<byte>): (r: CString)
    ensures 0 !in r
    ensures |r| <= |s| && r == s[..|r|]
    ensures |r| < |s| ==> s[|r|] == 0
  {
    if s == [] || s[0] == 0 then [] else [s[0]] + CStr(s[1..])
  }

  /** strcmp(a, b) == 0 */
  predicate StrEqual(a: seq<byte>, b: seq<byte>) {
    CStr(a) == CStr(b)
  }

  lemma {:induction false} CStrOfCString(s: seq<byte>)
    requires 0 !in s
    ensures CStr(s) == s
  {
    if s != [] {
      CStrOfCString(s[1..]);
    }
  }

  /** The bytes of an ASCII literal such as "/dev/". */
  function Ascii(s: string): (r: CString)
    requires forall i :: 0 <= i < |s| ==> 0 < s[i] as int < 128
    ensures |r| == |s| && 0 !in r
    ensures forall i :: 0 <= i < |s| ==> r[i] == s[i] as int
  {
    if s == [] then [] else [s[0] as int] + Ascii(s[1..])
  }

  const TWO_16: int := 0x1_0000
  const TWO_32: int := 0x1_0000_0000
  const TWO_64: int := 0x1_0000_0000_0000_0000

  /** Conversion to a 32-bit unsigned integer (uid_t, gid_t, UInt32): wrap-around. */
  function ToUInt32(n: int): (r: uint32)
    ensures (r - n) % TWO_32 == 0
  {
    n % TWO_32
  }

  /** Conversion to SInt32 (kCFNumberSInt32Type, int): two's-complement truncation. */
  function ToSInt32(n: int): (r: int)
    ensures -TWO_32 / 2 <= r < TWO_32 / 2
    ensures (r - n) % TWO_32 == 0
  {
    var u := n % TWO_32;
    if u < TWO_32 / 2 then u else u - TWO_32
  }

  /** Conversion to SInt64 (kCFNumberSInt64Type): two's-complement truncation. */
  function ToSInt64(n: int): (r: int)
    ensures -TWO_64 / 2 <= r < TWO_64 / 2
    ensures (r - n) % TWO_64 == 0
  {
    var u := n % TWO_64;
    if u < TWO_64 / 2 then u else u - TWO_64
  }

  /** Conversion to UInt64. */
  function ToUInt64(n: int): (r: int)
    ensures 0 <= r < TWO_64
    ensures (r - n) % TWO_64 == 0
  {
    n % TWO_64
  }

  /** Conversion to mode_t (16 bits). */
  function ToUInt16(n: int): (r: int)
    ensures 0 <= r < TWO_16
    ensures (r - n) % TWO_16 == 0
  {
    n % TWO_16
  }
}
