/** The station-to-gateway link: the fixed `struct_message` record sent as raw bytes
    over ESP-NOW, and the station's send loop, which makes up to five attempts and
    stops at the first one the send callback reports as delivered. */
module EspNow {
  import opened CText
  import opened Retry

  /** `char uidStr[20]` and `char canTa/canXe/canTieuly/khoiLuong[20]`. */
  const FieldSize: nat := 20
  /** `sizeof(struct_message)`: two 20-byte arrays and one `uint8_t`, no padding. */
  const RecordSize: nat := 2 * FieldSize + 1
  /** `soLanThuToiDa`. */
  const MaxAttempts: nat := 5

  /** `struct_message` as a station holds it: the text in each character array
      (up to its first NUL) and the `loaiCan` byte. */
  datatype Record = Record(uid: string, value: string, kind: byte)

  /** A record whose texts fit their arrays with a terminator. */
  predicate WellFormed(r: Record)
  {
    |r.uid| < FieldSize && |r.value| < FieldSize && IsCText(r.uid) && IsCText(r.value)
  }

  /** The bytes of the zeroed record after the station's `strncpy` calls: what
      `esp_now_send(.., (uint8_t*)&Data, sizeof(Data))` puts on the air. */
  function Encode(r: Record): (frame: seq<byte>)
    ensures |frame| == RecordSize
    ensures frame[FieldSize - 1] == 0 && frame[2 * FieldSize - 1] == 0
    ensures frame[2 * FieldSize] == r.kind
  {
    FixedField(r.uid, FieldSize) + FixedField(r.value, FieldSize) + [r.kind]
  }

  /** How the gateway reads its copy of the bytes: `String(incoming.uidStr)` and
      `atof(incoming.khoiLuong)` read C strings from offsets 0 and 20, and
      `incoming.loaiCan` is the last byte. */
  function Decode(frame: seq<byte>): (r: Record)
    requires |frame| == RecordSize
    ensures r.kind == frame[2 * FieldSize]
  {
    Record(CString(frame), CString(frame[FieldSize..]), frame[2 * FieldSize])
  }

  /** Both ends agree on the layout: the gateway reads back exactly the record the
      station sent. */
  lemma {:induction false} RecordRoundTrip(r: Record)
    requires WellFormed(r)
    ensures Decode(Encode(r)) == r
  {
    var frame := Encode(r);
    var a := FixedField(r.uid, FieldSize);
    var b := FixedField(r.value, FieldSize);
    ShortFieldRoundTrip(r.uid, FieldSize);
    ShortFieldRoundTrip(r.value, FieldSize);
    assert frame[..FieldSize] == a;
    assert frame[FieldSize..][..FieldSize] == b;
    assert a[FieldSize - 1] == 0;
    assert b[FieldSize - 1] == 0;
    CStringPrefix(frame, FieldSize);
    CStringPrefix(frame[FieldSize..], FieldSize);
  }

  /** The per-tag session outcome a station's `loop` reaches. */
  datatype Session =
    | Idle             // no new card this iteration
    | AwaitingScale    // still blocked in the scale read when the serial input ended
    | Checkpoint       // Scale_2 first scan: weight stored on the tag, nothing sent
    | Transmitted(attempts: nat)
    | TransmitFailed   // every attempt failed: the "ESP_NOW !" error screen is drawn

  /** The session outcome of the send loop, given the callback's verdict per attempt. */
  function SendOutcome(radio: seq<bool>): (s: Session)
    requires |radio| >= MaxAttempts
    ensures s.Transmitted? || s.TransmitFailed?
    ensures s.TransmitFailed? <==> forall j :: 0 <= j < MaxAttempts ==> !radio[j]
    ensures s.Transmitted? ==> 1 <= s.attempts <= MaxAttempts && radio[s.attempts - 1]
    ensures s.Transmitted? ==> forall j :: 0 <= j < s.attempts - 1 ==> !radio[j]
  {
    var k := FirstTrue(radio, MaxAttempts, 0);
    if k < MaxAttempts then Transmitted(k + 1) else TransmitFailed
  }

  /** The send loop shared by the three stations: `radio[k]` is what the `OnSent`
      callback reports for attempt `k`. */
  method SendWithRetry(radio: seq<bool>) returns (calls: nat, delivered: bool)
    requires |radio| >= MaxAttempts
    ensures 1 <= calls <= MaxAttempts
    ensures delivered <==> exists k :: 0 <= k < MaxAttempts && radio[k]
    ensures delivered ==> radio[calls - 1]
    ensures forall j :: 0 <= j < calls - 1 ==> !radio[j]
    ensures !delivered ==> calls == MaxAttempts
    ensures calls == AttemptsMade(radio, MaxAttempts)
    ensures SendOutcome(radio) == if delivered then Transmitted(calls) else TransmitFailed
  {
    delivered := false;
    var soLanThu := 0;
    calls := 0;
    while !delivered && soLanThu < MaxAttempts
      invariant 0 <= soLanThu <= MaxAttempts
      invariant !delivered && calls == soLanThu
      invariant forall j :: 0 <= j < soLanThu ==> !radio[j]
    {
      calls := calls + 1;
      delivered := radio[soLanThu];
      if delivered {
        break;
      }
      soLanThu := soLanThu + 1;
    }
    assert FirstTrue(radio, MaxAttempts, 0) == if delivered then calls - 1 else MaxAttempts;
  }
}
