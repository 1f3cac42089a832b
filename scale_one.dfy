/** Scale_1, the raw-latex station (kind 1): one reading per tag, sent as captured. */
module ScaleOne {
  import opened CText
  import opened Options
  import opened Uid
  import opened TagStore
  import opened ScaleReader
  import opened EspNow

  const Kind: byte := 1

  /** The sketch's globals: `Data`, `tenKH` and `guiThanhCong`. */
  class Station {
    var data: Record
    var name: string
    var delivered: bool

    /** The globals at power-up: all zero. */
    constructor ()
      ensures data == Record("", "", 0) && name == "" && !delivered
    {
      data := Record("", "", 0);
      name := "";
      delivered := false;
    }

    /** One iteration of `loop`. `present` is whether a new card answered; `uid` its
        UID bytes; `nameIo` the outcome of reading the name block; `lines` the serial
        input from the scale; `radio` the send callback's verdict per attempt. */
    method Loop(card: Card, present: bool, uid: seq<byte>, nameIo: Exchange,
                lines: seq<string>, radio: seq<bool>)
      returns (session: Session)
      requires card.Valid() && |radio| >= MaxAttempts
      modifies this
      ensures data.kind == Kind && WellFormed(data)
      ensures !present ==>
        session == Idle && data == Record("", "", Kind) && name == "" && !delivered
      ensures present ==>
        data.uid == StoredUid(uid) && name == BlockText(card.blocks, BlockName, nameIo)
      ensures present && NextReading(lines, DigitOnly, 0).None? ==>
        session == AwaitingScale && data.value == "" && !delivered
      ensures present && NextReading(lines, DigitOnly, 0).Some? ==>
        data.value == StrNCpy(NextReading(lines, DigitOnly, 0).value.run, FieldSize - 1) &&
        session == SendOutcome(radio) && (delivered <==> session.Transmitted?)
    {
      data := Record("", "", Kind);
      name := "";
      delivered := false;
      if !present {
        return Idle;
      }
      var text := FormatUid(uid);
      data := data.(uid := StrNCpy(text, FieldSize - 1));
      UidHexIsHex(uid);
      name := card.ReadBlock(BlockName, nameIo);
      var scan := ReadWeight(lines, DigitOnly, 0);
      if scan.None? {
        return AwaitingScale;
      }
      RunIsCText(lines[scan.value.line], DigitOnly);
      data := data.(value := StrNCpy(scan.value.run, FieldSize - 1));
      var calls;
      calls, delivered := SendWithRetry(radio);
      session := if delivered then Transmitted(calls) else TransmitFailed;
    }
  }

  /** The value Scale_1 sends is the captured digits themselves, cut to 19
      characters; a leading sign is never part of it. */
  lemma SentValueIsUnsigned(lines: seq<string>)
    requires NextReading(lines, DigitOnly, 0).Some?
    ensures var v := StrNCpy(NextReading(lines, DigitOnly, 0).value.run, FieldSize - 1);
      |v| >= 1 && IsDigit(v[0]) && forall j :: 0 <= j < |v| ==> IsRunChar(v[j])
  {
    var scan := NextReading(lines, DigitOnly, 0).value;
    ReadingMeaning(lines[scan.line], DigitOnly);
    RunIsCText(lines[scan.line], DigitOnly);
    FieldRoundTrip(scan.run, FieldSize);
  }
}
