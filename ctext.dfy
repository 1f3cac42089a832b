/** Fixed-size C character buffers as the firmware uses them: the zeroed `char[20]`
    fields of the wireless record, the 16-byte tag blocks, `strncpy` into them and
    reading them back as NUL-terminated text. */
module CText {

  newtype byte = x: int | 0 <= x < 256

  function Min(a: nat, b: nat): nat { if a <= b then a else b }

  /** Index of the first occurrence of `x` in `s`, or `|s|` when there is none. */
  function FirstIndex<T(==)>(s: seq<T>, x: T): (k: nat)
    ensures k <= |s|
    ensures k < |s| ==> s[k] == x
    ensures forall j :: 0 <= j < k ==> s[j] != x
  {
    if s == [] then 0 else if s[0] == x then 0 else 1 + FirstIndex(s[1..], x)
  }

  /** `(char)b`: a byte read as a character. */
  function ByteChar(b: byte): char { (b as int) as char }

  /** `(byte)c`: a character stored into a byte buffer keeps its low eight bits. */
  function CharByte(c: char): byte { ((c as int) % 256) as byte }

  function Chars(b: seq<byte>): (s: string)
    ensures |s| == |b|
  {
    seq(|b|, i requires 0 <= i < |b| => ByteChar(b[i]))
  }

  function Bytes(s: string): (b: seq<byte>)
    ensures |b| == |s|
  {
    seq(|s|, i requires 0 <= i < |s| => CharByte(s[i]))
  }

  function Zeros(n: nat): (z: seq<byte>)
    ensures |z| == n
    ensures forall i :: 0 <= i < n ==> z[i] == 0
  {
    seq(n, _ => 0)
  }

  /** A character that survives a trip through a C `char` buffer: not NUL, eight bits. */
  predicate IsCChar(c: char) { 0 < c as int < 256 }

  predicate IsCText(s: string) { forall i :: 0 <= i < |s| ==> IsCChar(s[i]) }

  /** The text a C string routine sees in a buffer: the bytes before the first NUL. */
  function CString(buf: seq<byte>): (s: string)
    ensures |s| <= |buf|
    ensures forall i :: 0 <= i < |s| ==> s[i] != '\0' && buf[i] != 0 && s[i] == ByteChar(buf[i])
    ensures |s| < |buf| ==> buf[|s|] == 0
  {
    Chars(buf[..FirstIndex(buf, 0)])
  }

  /** `strncpy(dst, src.c_str(), n)`: at most `n` characters of `src`, stopping at its
      first NUL. */
  function StrNCpy(src: string, n: nat): (s: string)
    ensures |s| <= n && s <= src
    ensures '\0' !in s
    ensures |s| == n || |s| == |src| || src[|s|] == '\0'
  {
    src[..Min(n, FirstIndex(src, '\0'))]
  }

  /** A `size`-byte buffer that was zeroed and then received
      `strncpy(buf, src.c_str(), size - 1)`; the last byte stays NUL. */
  function FixedField(src: string, size: nat): (buf: seq<byte>)
    requires size >= 1
    ensures |buf| == size && buf[size - 1] == 0
  {
    var t := StrNCpy(src, size - 1);
    Bytes(t) + Zeros(size - |t|)
  }

  lemma ByteCharRoundTrip(c: char)
    requires IsCChar(c)
    ensures CharByte(c) != 0 && ByteChar(CharByte(c)) == c
  {
  }

  /** Copying C text into a field and reading the field back as a C string gives
      the (possibly truncated) text back. */
  lemma {:induction false} FieldRoundTrip(src: string, size: nat)
    requires size >= 1 && IsCText(src)
    ensures StrNCpy(src, size - 1) == src[..Min(|src|, size - 1)]
    ensures CString(FixedField(src, size)) == StrNCpy(src, size - 1)
  {
    assert FirstIndex(src, '\0') == |src|;
    var t := StrNCpy(src, size - 1);
    var buf := FixedField(src, size);
    assert buf[..|t|] == Bytes(t);
    forall i | 0 <= i < |t|
      ensures buf[i] != 0 && ByteChar(buf[i]) == t[i]
    {
      assert t[i] == src[i];
      ByteCharRoundTrip(t[i]);
    }
    var z := FirstIndex(buf, 0);
    assert buf[|t|] == 0;
    assert z == |t|;
  }

  /** Short C text survives a field unchanged. */
  lemma ShortFieldRoundTrip(src: string, size: nat)
    requires size >= 1 && IsCText(src) && |src| < size
    ensures CString(FixedField(src, size)) == src
  {
    FieldRoundTrip(src, size);
  }

  /** Text read as a C string is free of NUL and of any byte a buffer could not hold. */
  lemma CStringIsCText(buf: seq<byte>)
    ensures IsCText(CString(buf))
  {
  }

  /** A C string that ends inside the first `n` bytes reads the same from the whole
      buffer as from those bytes. */
  lemma CStringPrefix(buf: seq<byte>, n: nat)
    requires n <= |buf| && FirstIndex(buf[..n], 0) < n
    ensures CString(buf) == CString(buf[..n])
  {
    var k := FirstIndex(buf[..n], 0);
    assert FirstIndex(buf, 0) == k;
    assert buf[..k] == buf[..n][..k];
  }
}
