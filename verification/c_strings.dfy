/** Null-terminated character buffers and the three C library routines the
    bridge applies to them (strlen, strncpy, strncat). A buffer is a sequence
    of chars of fixed length; a C string is the content before its first
    terminator. Each `char` of a model string stands for one C `char`, that
    is one byte: every length and buffer size counts bytes, and a character
    that UTF-8 encodes in several bytes is several model chars. */
module CStrings {

  /** The terminator character. */
  const NUL: char := 0 as char

  function Min(a: int, b: int): int {
    if a <= b then a else b
  }

  /** The content of a C string: no character of it is the terminator. */
  predicate IsCString(s: string) {
    forall i | 0 <= i < |s| :: s[i] != NUL
  }

  /** Two C strings joined form a C string. */
  lemma CStringConcat(a: string, b: string)
    requires IsCString(a) && IsCString(b)
    ensures IsCString(a + b)
  {
  }

  /** What a `const char*` carries of a character sequence, as `%s` prints
      it: the characters before its first NUL. */
  function CPrefix(s: string): (p: string)
    ensures IsCString(p) && p <= s
    ensures |p| < |s| ==> s[|p|] == NUL
    decreases |s|
  {
    if s == [] || s[0] == NUL then []
    else [s[0]] + CPrefix(s[1..])
  }

  /** A sequence without NUL passes through `%s` whole. */
  lemma CPrefixOfCString(s: string)
    requires IsCString(s)
    ensures CPrefix(s) == s
  {
  }

  /** A buffer holds a C string when a terminator occurs somewhere in it. */
  predicate Terminated(buf: seq<char>) {
    exists i | 0 <= i < |buf| :: buf[i] == NUL
  }

  /** strlen: the position of the first terminator. */
  function StrLen(buf: seq<char>): (n: nat)
    requires Terminated(buf)
    ensures n < |buf| && buf[n] == NUL
    ensures forall j | 0 <= j < n :: buf[j] != NUL
  {
    if buf[0] == NUL then 0
    else
      assert Terminated(buf[1..]) by {
        var i :| 0 <= i < |buf| && buf[i] == NUL;
        assert buf[1..][i - 1] == NUL;
      }
      var m := StrLen(buf[1..]);
      assert forall j | 1 <= j < m + 1 :: buf[j] == buf[1..][j - 1];
      1 + m
  }

  /** The C string a terminated buffer holds. */
  function CStr(buf: seq<char>): (s: string)
    requires Terminated(buf)
    ensures IsCString(s) && |s| < |buf|
    ensures buf[..|s|] == s && buf[|s|] == NUL
  {
    buf[..StrLen(buf)]
  }

  /** A buffer that starts with the characters of `s` followed by a
      terminator holds exactly `s`, whatever comes after. */
  lemma CStrIs(buf: seq<char>, s: string)
    requires IsCString(s) && |s| < |buf|
    requires buf[..|s|] == s && buf[|s|] == NUL
    ensures Terminated(buf) && CStr(buf) == s
  {
  }

  /** strncpy(dst, src, n): the first `n` positions of `dst` receive the
      characters of `src` and then terminators as padding; positions from `n`
      on keep what `dst` held. */
  function StrNCpy(dst: seq<char>, src: string, n: nat): (r: seq<char>)
    requires IsCString(src) && n <= |dst|
    ensures |r| == |dst|
    ensures r[n..] == dst[n..]
  {
    seq(|dst|, i requires 0 <= i < |dst| =>
      if i >= n then dst[i] else if i < |src| then src[i] else NUL)
  }

  /** A source shorter than the bound is copied with its terminator. */
  lemma StrNCpyShort(dst: seq<char>, src: string, n: nat)
    requires IsCString(src) && n <= |dst| && |src| < n
    ensures Terminated(StrNCpy(dst, src, n))
    ensures CStr(StrNCpy(dst, src, n)) == src
    ensures StrLen(StrNCpy(dst, src, n)) == |src|
    ensures forall i | |src| <= i < n :: StrNCpy(dst, src, n)[i] == NUL
  {
    var r := StrNCpy(dst, src, n);
    assert r[..|src|] == src;
    CStrIs(r, src);
  }

  /** A source of `n` or more characters fills all `n` positions and leaves
      no terminator among them. */
  lemma StrNCpyLong(dst: seq<char>, src: string, n: nat)
    requires IsCString(src) && n <= |dst| && n <= |src|
    ensures StrNCpy(dst, src, n)[..n] == src[..n]
    ensures IsCString(StrNCpy(dst, src, n)[..n])
  {
  }

  /** strncat(dst, src, n): at most `n` characters of `src` are written after
      the string `dst` holds, followed by a terminator. The caller must leave
      room for them. */
  function StrNCat(dst: seq<char>, src: string, n: nat): (r: seq<char>)
    requires Terminated(dst) && IsCString(src)
    requires StrLen(dst) + Min(|src|, n) < |dst|
    ensures |r| == |dst|
    ensures Terminated(r) && CStr(r) == CStr(dst) + src[..Min(|src|, n)]
  {
    var k := StrLen(dst);
    var m := Min(|src|, n);
    var r := dst[..k] + src[..m] + [NUL] + dst[k + m + 1..];
    var s := CStr(dst) + src[..m];
    assert r[..|s|] == s;
    CStrIs(r, s);
    r
  }
}
