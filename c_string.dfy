/** C strings as the gateway reads them: a character array is a string up to its first NUL.
    Also the conversion to `size_t`, which the gateway's comparisons go through. */
module CString {

  const Nul: char := '\0'

  /** `(size_t)x`: `size_t` is 32 bits wide on the MT3620, and the conversion wraps modulo 2^32. */
  function SizeT(x: int): (r: int)
    ensures 0 <= r < 0x1_0000_0000
    ensures (x - r) % 0x1_0000_0000 == 0
    ensures 0 <= x < 0x1_0000_0000 ==> r == x
  {
    x % 0x1_0000_0000
  }

  /** The string `strlen`, `strcmp`, `sscanf` and parson see in a buffer: everything before the first NUL. */
  function CStr(s: seq<char>): (r: seq<char>)
    ensures |r| <= |s| && r == s[..|r|]
    ensures Nul !in r
    ensures |r| < |s| ==> s[|r|] == Nul
  {
    if s == [] then []
    else if s[0] == Nul then []
    else [s[0]] + CStr(s[1..])
  }

  /** A buffer without NUL is read whole. */
  lemma CStrOfNulFree(s: seq<char>)
    requires Nul !in s
    ensures CStr(s) == s
  {
  }

  /** A NUL written right after a NUL-free text ends the string there, whatever follows it. */
  lemma {:induction false} CStrTerminated(s: seq<char>, rest: seq<char>)
    requires Nul !in s
    ensures CStr(s + [Nul] + rest) == s
  {
    if s != [] {
      assert (s + [Nul] + rest)[1..] == s[1..] + [Nul] + rest;
      CStrTerminated(s[1..], rest);
    }
  }
}
