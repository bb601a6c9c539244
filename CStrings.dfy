/** The C string operations the report layer performs on its fixed-size
    character buffers (strlen, strncpy, strcat, memset). A buffer is an
    array<char>, and the string it holds runs up to its first NUL. */
module CStrings {

  const NUL: char := '\0'

  function Min(a: int, b: int): int { if a <= b then a else b }

  /** The C string stored in a buffer: everything before the first NUL. */
  function CStr(s: seq<char>): (r: string)
    ensures |r| <= |s| && r == s[..|r|]
    ensures NUL !in r
    ensures |r| < |s| ==> s[|r|] == NUL
  {
    if |s| == 0 || s[0] == NUL then []
    else
      var rest := CStr(s[1..]);
      assert s[1..][..|rest|] == s[1..|rest| + 1];
      [s[0]] + rest
  }

  /** A buffer whose first NUL is at index k holds exactly s[..k]. */
  lemma CStrAt(s: seq<char>, k: nat)
    requires k < |s| && s[k] == NUL && NUL !in s[..k]
    ensures CStr(s) == s[..k]
  {
  }

  /** strlen: the index of the first NUL. */
  method StrLen(buf: array<char>) returns (n: nat)
    requires NUL in buf[..]
    ensures n < buf.Length && buf[n] == NUL
    ensures buf[..n] == CStr(buf[..])
  {
    ghost var j :| 0 <= j < buf.Length && buf[j] == NUL;
    n := 0;
    while buf[n] != NUL
      invariant n <= j
      invariant NUL !in buf[..n]
      decreases j - n
    {
      assert buf[..n + 1] == buf[..n] + [buf[n]];
      n := n + 1;
    }
    CStrAt(buf[..], n);
  }

  /** strncpy(dst, src, n): the first n cells receive src, padded with NULs
      when src is shorter than n; the cells after n are left alone. */
  method StrNCopy(dst: array<char>, src: string, n: nat)
    requires n <= dst.Length
    requires NUL !in src
    modifies dst
    ensures forall i :: 0 <= i < n ==> dst[i] == if i < |src| then src[i] else NUL
    ensures forall i :: n <= i < dst.Length ==> dst[i] == old(dst[i])
  {
    var i := 0;
    while i < n
      invariant i <= n
      invariant forall k :: 0 <= k < i ==> dst[k] == if k < |src| then src[k] else NUL
      invariant forall k :: n <= k < dst.Length ==> dst[k] == old(dst[k])
    {
      dst[i] := if i < |src| then src[i] else NUL;
      i := i + 1;
    }
  }

  /** strcat(dst, src): src is written over the terminating NUL of dst and
      a new NUL follows it. */
  method StrCat(dst: array<char>, src: string)
    requires NUL in dst[..] && NUL !in src
    requires |CStr(dst[..])| + |src| < dst.Length
    modifies dst
    ensures CStr(dst[..]) == old(CStr(dst[..])) + src
    ensures NUL in dst[..]
  {
    var k := StrLen(dst);
    ghost var head := dst[..k];
    var i := 0;
    while i < |src|
      invariant i <= |src|
      invariant dst[..k] == head
      invariant forall m :: 0 <= m < i ==> dst[k + m] == src[m]
    {
      dst[k + i] := src[i];
      i := i + 1;
    }
    dst[k + |src|] := NUL;
    assert dst[..k + |src|] == head + src;
    CStrAt(dst[..], k + |src|);
  }

  /** memset(dst, 0, size). */
  method MemZero(dst: array<char>)
    modifies dst
    ensures forall i :: 0 <= i < dst.Length ==> dst[i] == NUL
  {
    var i := 0;
    while i < dst.Length
      invariant i <= dst.Length
      invariant forall k :: 0 <= k < i ==> dst[k] == NUL
    {
      dst[i] := NUL;
      i := i + 1;
    }
  }
}
