/**
 * NUL-terminated character buffers, as `set_title` uses them: the text a
 * buffer holds, `strcpy` into an existing buffer and `strdup` into a new one.
 */
module CStrings {

  /** The text a buffer holds: everything before its first NUL (the whole
      buffer if it has none). */
  function CString(buf: seq<char>): (r: string)
    ensures '\0' !in r
    ensures |r| <= |buf| && r == buf[..|r|]
    ensures |r| < |buf| ==> buf[|r|] == '\0'
    decreases |buf|
  {
    if buf == [] || buf[0] == '\0' then [] else [buf[0]] + CString(buf[1..])
  }

  /** A buffer that starts with NUL-free text followed by a NUL holds exactly that text. */
  lemma CStringOfTerminated(buf: seq<char>, t: string)
    requires '\0' !in t
    requires |t| < |buf| && buf[..|t|] == t && buf[|t|] == '\0'
    ensures CString(buf) == t
  {
  }

  /** `strcpy`: copies `src` and its terminating NUL to the front of `dst`,
      leaving the rest of `dst` as it was. */
  method StrCpy(dst: array<char>, src: string)
    requires |src| < dst.Length
    modifies dst
    ensures dst[..|src|] == src && dst[|src|] == '\0'
    ensures dst[|src| + 1..] == old(dst[|src| + 1..])
  {
    var i := 0;
    while i < |src|
      invariant 0 <= i <= |src|
      invariant dst[..i] == src[..i]
      invariant dst[i..] == old(dst[i..])
    {
      dst[i] := src[i];
      i := i + 1;
    }
    dst[i] := '\0';
  }

  /** `strdup`: a new buffer holding `src` and its terminating NUL, with no spare room. */
  method StrDup(src: string) returns (p: array<char>)
    ensures fresh(p) && p.Length == |src| + 1
    ensures p[..|src|] == src && p[|src|] == '\0'
  {
    p := new char[|src| + 1](i => if 0 <= i < |src| then src[i] else '\0');
  }
}
