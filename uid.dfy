/** The station's tag identifier text: every UID byte rendered with Arduino's
    `String(b, HEX)` (lower case, no leading zero), a "0" pad prepended below 0x10,
    and the whole string upper-cased; then copied into the 20-byte record field. */
module Uid {
  import opened CText

  /** Size of `uidStr` in the wireless record, terminator included. */
  const UidFieldSize: nat := 20

  /** Digit `d` (0..15) in upper case, as the UID text shows it. */
  function UpperDigit(d: nat): (c: char)
    requires d < 16
  {
    if d < 10 then ('0' as int + d) as char else ('A' as int + d - 10) as char
  }

  /** Digit `d` (0..15) in lower case, as `String(b, HEX)` writes it. */
  function LowerDigit(d: nat): (c: char)
    requires d < 16
  {
    if d < 10 then ('0' as int + d) as char else ('a' as int + d - 10) as char
  }

  /** `String(b, HEX)`: lower-case hex without leading zeros. */
  function ArduinoHex(b: byte): (s: string)
    ensures 1 <= |s| <= 2
  {
    if b < 16 then [LowerDigit(b as nat)]
    else [LowerDigit((b / 16) as nat), LowerDigit((b % 16) as nat)]
  }

  function UpChar(c: char): char
  {
    if 'a' <= c <= 'z' then (c as int - 32) as char else c
  }

  /** `String::toUpperCase`. */
  function ToUpper(s: string): (u: string)
    ensures |u| == |s|
  {
    seq(|s|, i requires 0 <= i < |s| => UpChar(s[i]))
  }

  /** Upper-casing leaves no lower-case letter, moves each lower-case letter to
      the same letter in upper case and keeps every other character. */
  lemma ToUpperMeaning(s: string)
    ensures forall i :: 0 <= i < |s| ==> !('a' <= ToUpper(s)[i] <= 'z')
    ensures forall i :: 0 <= i < |s| && !('a' <= s[i] <= 'z') ==> ToUpper(s)[i] == s[i]
    ensures forall i :: 0 <= i < |s| && 'a' <= s[i] <= 'z' ==>
      'A' <= ToUpper(s)[i] <= 'Z' &&
      ToUpper(s)[i] as int - 'A' as int == s[i] as int - 'a' as int
  {
  }

  /** Upper-casing twice is upper-casing once. */
  lemma ToUpperIdempotent(s: string)
    ensures ToUpper(ToUpper(s)) == ToUpper(s)
  {
    ToUpperMeaning(s);
  }

  predicate IsUpperHexDigit(c: char) { '0' <= c <= '9' || 'A' <= c <= 'F' }

  /** Value of an upper-case hex digit (0 for any other character). */
  function DigitValue(c: char): (v: nat)
    ensures v < 16
  {
    if '0' <= c <= '9' then c as int - '0' as int
    else if 'A' <= c <= 'F' then c as int - 'A' as int + 10
    else 0
  }

  /** The intended UID text: two upper-case hex digits per byte, high nibble first. */
  function UidHex(uid: seq<byte>): (s: string)
    ensures |s| == 2 * |uid|
  {
    if uid == [] then ""
    else
      var b := uid[|uid| - 1];
      UidHex(uid[..|uid| - 1]) + [UpperDigit((b / 16) as nat), UpperDigit((b % 16) as nat)]
  }

  /** Reads UID text back into bytes, two digits per byte. */
  function ParseUid(s: string): (uid: seq<byte>)
    ensures |uid| == |s| / 2
  {
    seq(|s| / 2, i requires 0 <= i < |s| / 2 =>
      (DigitValue(s[2 * i]) * 16 + DigitValue(s[2 * i + 1])) as byte)
  }

  /** The loop at the head of each station's tag handling: builds the text byte by byte. */
  method FormatUid(uid: seq<byte>) returns (s: string)
    ensures s == UidHex(uid)
  {
    var text := "";
    for i := 0 to |uid|
      invariant ToUpper(text) == UidHex(uid[..i])
    {
      var pad := if uid[i] < 0x10 then "0" else "";
      ByteText(uid[i]);
      UpperConcat(text, pad + ArduinoHex(uid[i]));
      text := text + pad + ArduinoHex(uid[i]);
      assert uid[..i + 1][..i] == uid[..i];
    }
    assert uid[..|uid|] == uid;
    s := ToUpper(text);
  }

  lemma UpperConcat(a: string, b: string)
    ensures ToUpper(a + b) == ToUpper(a) + ToUpper(b)
  {
    assert ToUpper(a + b) == ToUpper(a) + ToUpper(b);
  }

  /** One padded, upper-cased `String(b, HEX)` is exactly the byte's two upper-case digits. */
  lemma ByteText(b: byte)
    ensures ToUpper((if b < 0x10 then "0" else "") + ArduinoHex(b))
         == [UpperDigit((b / 16) as nat), UpperDigit((b % 16) as nat)]
  {
  }

  /** Byte `i` of the UID occupies characters `2i` and `2i + 1` of the text. */
  lemma {:induction false} UidHexAt(uid: seq<byte>, i: nat)
    requires i < |uid|
    ensures UidHex(uid)[2 * i] == UpperDigit((uid[i] / 16) as nat)
    ensures UidHex(uid)[2 * i + 1] == UpperDigit((uid[i] % 16) as nat)
  {
    var n := |uid| - 1;
    if i < n {
      UidHexAt(uid[..n], i);
    }
  }

  /** The UID text consists of upper-case hex digits only. */
  lemma UidHexIsHex(uid: seq<byte>)
    ensures forall k :: 0 <= k < |UidHex(uid)| ==> IsUpperHexDigit(UidHex(uid)[k])
    ensures IsCText(UidHex(uid))
  {
    forall k | 0 <= k < |UidHex(uid)|
      ensures IsUpperHexDigit(UidHex(uid)[k])
    {
      UidHexAt(uid, k / 2);
      assert k == 2 * (k / 2) || k == 2 * (k / 2) + 1;
    }
  }

  /** The UID text loses nothing: parsing it gives the UID bytes back. */
  lemma UidRoundTrip(uid: seq<byte>)
    ensures ParseUid(UidHex(uid)) == uid
  {
    var s := UidHex(uid);
    forall i | 0 <= i < |uid|
      ensures ParseUid(s)[i] == uid[i]
    {
      UidHexAt(uid, i);
    }
  }

  /** Different tags get different UID texts. */
  lemma UidHexInjective(u: seq<byte>, v: seq<byte>)
    requires UidHex(u) == UidHex(v)
    ensures u == v
  {
    UidRoundTrip(u);
    UidRoundTrip(v);
  }

  /** What `strncpy(Data.uidStr, uid.c_str(), 19)` leaves in the record. */
  function StoredUid(uid: seq<byte>): string
  {
    StrNCpy(UidHex(uid), UidFieldSize - 1)
  }

  /** UIDs of up to 9 bytes (the 4- and 7-byte MIFARE UIDs among them) are stored
      whole; a 10-byte UID loses its last hex digit. */
  lemma StoredUidLength(uid: seq<byte>)
    ensures |uid| <= 9 ==> StoredUid(uid) == UidHex(uid)
    ensures |uid| >= 10 ==> StoredUid(uid) == UidHex(uid)[..19]
    ensures forall k :: 0 <= k < |StoredUid(uid)| ==> IsUpperHexDigit(StoredUid(uid)[k])
  {
    UidHexIsHex(uid);
    FieldRoundTrip(UidHex(uid), UidFieldSize);
  }

  /** Two 10-byte tags that differ only in the low nibble of their last byte are
      stored under the same identifier. */
  lemma TenByteUidsCollide()
    ensures StoredUid(seq(10, _ => 0)) == StoredUid(seq(9, _ => 0) + [1])
  {
    var u: seq<byte> := seq(10, _ => 0);
    var v: seq<byte> := seq(9, _ => 0) + [1];
    StoredUidLength(u);
    StoredUidLength(v);
    forall k | 0 <= k < 19
      ensures UidHex(u)[k] == UidHex(v)[k]
    {
      UidHexAt(u, k / 2);
      UidHexAt(v, k / 2);
      assert k == 2 * (k / 2) || k == 2 * (k / 2) + 1;
    }
  }
}
