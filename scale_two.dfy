/** Scale_2, the vehicle station (kind 2): gross/tare weighing across two scans of
    the same tag. Whether a scan is the first or the second is decided only by the
    tag's block 4: empty (or "0", "0.00") means first scan, which stores the weight
    on the tag and sends nothing; otherwise the stored weight is read back, the
    block is cleared, a new weight is read and the difference old - new is sent. */
module ScaleTwo {
  import opened CText
  import opened Options
  import opened Numbers
  import opened Uid
  import opened TagStore
  import opened ScaleReader
  import opened EspNow

  const Kind: byte := 2

  /** The sketch's globals: `Data`, `tenKH`, `canLan1`, `canLan2`, `chenhLech`,
      `isFirstScan` (declared, never read) and `guiThanhCong`. */
  class Station {
    var data: Record
    var name: string
    var canLan1: real
    var canLan2: real
    var chenhLech: real
    var isFirstScan: bool
    var delivered: bool

    /** The globals at power-up: `Data` zeroed except its member initialiser
        `loaiCan = 2`, `isFirstScan = true`. */
    constructor ()
      ensures data == Record("", "", Kind) && name == "" && isFirstScan && !delivered
      ensures canLan1 == 0.0 && canLan2 == 0.0 && chenhLech == 0.0
    {
      data := Record("", "", Kind);
      name := "";
      canLan1, canLan2, chenhLech := 0.0, 0.0, 0.0;
      isFirstScan := true;
      delivered := false;
    }

    /** One iteration of `loop`. The four exchanges are, in order: reading the name
        block, the `hasDataInBlock` probe of block 4, then on a first scan the write
        of block 4, on a second scan the read of block 4 followed by its clear. */
    method Loop(card: Card, present: bool, uid: seq<byte>,
                nameIo: Exchange, probeIo: Exchange, weightIo: Exchange, clearIo: Exchange,
                lines: seq<string>, radio: seq<bool>, num: Numerics)
      returns (session: Session)
      requires card.Valid() && |radio| >= MaxAttempts
      modifies this, card
      ensures card.Valid()
      ensures data.kind == Kind && isFirstScan == old(isFirstScan)
      ensures !present ==>
        session == Idle && data == Record("", "", Kind) && name == "" && !delivered &&
        canLan1 == 0.0 && canLan2 == 0.0 && chenhLech == 0.0 && card.blocks == old(card.blocks)
      ensures present ==>
        data.uid == StoredUid(uid) && name == BlockText(old(card.blocks), BlockName, nameIo)
      // First scan: weight stored on the tag, nothing sent.
      ensures present && !HasText(BlockText(old(card.blocks), BlockWeight, probeIo)) ==>
        !delivered && canLan2 == 0.0 && chenhLech == 0.0 &&
        match NextReading(lines, DigitOrMinus, 0)
        case None =>
          session == AwaitingScale && data.value == "" && canLan1 == 0.0 &&
          card.blocks == old(card.blocks)
        case Some(scan) =>
          session == Checkpoint &&
          data.value == StrNCpy(scan.run, FieldSize - 1) &&
          canLan1 == num.atof(data.value) &&
          card.blocks == Written(old(card.blocks), BlockWeight,
                                 FixedField(num.fixed2(Finite(canLan1)), BlockSize), weightIo)
      // Second scan: stored weight read back, block cleared, difference sent.
      ensures present && HasText(BlockText(old(card.blocks), BlockWeight, probeIo)) ==>
        canLan1 == num.atof(BlockText(old(card.blocks), BlockWeight, weightIo)) &&
        card.blocks == Written(old(card.blocks), BlockWeight, Zeros(BlockSize), clearIo) &&
        match NextReading(lines, DigitOrMinus, 0)
        case None =>
          session == AwaitingScale && data.value == "" && !delivered &&
          canLan2 == 0.0 && chenhLech == 0.0
        case Some(scan) =>
          canLan2 == num.atof(StrNCpy(scan.run, FieldSize - 1)) &&
          chenhLech == canLan1 - canLan2 &&
          data.value == StrNCpy(num.fixed2(Finite(chenhLech)), FieldSize - 1) &&
          session == SendOutcome(radio) && (delivered <==> session.Transmitted?)
    {
      data := Record("", "", Kind);
      name := "";
      canLan1, canLan2, chenhLech := 0.0, 0.0, 0.0;
      delivered := false;
      if !present {
        return Idle;
      }
      var text := FormatUid(uid);
      data := data.(uid := StrNCpy(text, FieldSize - 1));
      name := card.ReadBlock(BlockName, nameIo);

      var hasOldWeight := card.HasDataInBlock(BlockWeight, probeIo);
      if !hasOldWeight {
        session := FirstScan(card, weightIo, lines, num);
      } else {
        session := SecondScan(card, weightIo, clearIo, lines, radio, num);
      }
    }

    /** The first-scan branch: read the scale, store the two-decimal weight in block 4. */
    method FirstScan(card: Card, weightIo: Exchange, lines: seq<string>, num: Numerics)
      returns (session: Session)
      requires card.Valid() && data.value == "" && canLan1 == 0.0
      modifies this, card
      ensures card.Valid()
      ensures data.uid == old(data.uid) && data.kind == old(data.kind) && name == old(name)
      ensures canLan2 == old(canLan2) && chenhLech == old(chenhLech)
      ensures delivered == old(delivered) && isFirstScan == old(isFirstScan)
      ensures match NextReading(lines, DigitOrMinus, 0)
        case None =>
          session == AwaitingScale && data.value == "" && canLan1 == 0.0 &&
          card.blocks == old(card.blocks)
        case Some(scan) =>
          session == Checkpoint &&
          data.value == StrNCpy(scan.run, FieldSize - 1) &&
          canLan1 == num.atof(data.value) &&
          card.blocks == Written(old(card.blocks), BlockWeight,
                                 FixedField(num.fixed2(Finite(canLan1)), BlockSize), weightIo)
    {
      var scan := ReadWeight(lines, DigitOrMinus, 0);
      if scan.None? {
        return AwaitingScale;
      }
      data := data.(value := StrNCpy(scan.value.run, FieldSize - 1));
      canLan1 := num.atof(data.value);
      var weightData := FixedField(num.fixed2(Finite(canLan1)), BlockSize);
      card.WriteBlock(BlockWeight, weightData, weightIo);
      session := Checkpoint;
    }

    /** The second-scan branch: read the stored weight back, clear block 4, read the
        scale and send the difference. */
    method SecondScan(card: Card, weightIo: Exchange, clearIo: Exchange,
                      lines: seq<string>, radio: seq<bool>, num: Numerics)
      returns (session: Session)
      requires card.Valid() && |radio| >= MaxAttempts
      requires data.value == "" && !delivered && canLan2 == 0.0 && chenhLech == 0.0
      modifies this, card
      ensures card.Valid()
      ensures data.uid == old(data.uid) && data.kind == old(data.kind) && name == old(name)
      ensures isFirstScan == old(isFirstScan)
      ensures canLan1 == num.atof(BlockText(old(card.blocks), BlockWeight, weightIo))
      ensures card.blocks == Written(old(card.blocks), BlockWeight, Zeros(BlockSize), clearIo)
      ensures match NextReading(lines, DigitOrMinus, 0)
        case None =>
          session == AwaitingScale && data.value == "" && !delivered &&
          canLan2 == 0.0 && chenhLech == 0.0
        case Some(scan) =>
          canLan2 == num.atof(StrNCpy(scan.run, FieldSize - 1)) &&
          chenhLech == canLan1 - canLan2 &&
          data.value == StrNCpy(num.fixed2(Finite(chenhLech)), FieldSize - 1) &&
          session == SendOutcome(radio) && (delivered <==> session.Transmitted?)
    {
      var oldWeightStr := card.ReadBlock(BlockWeight, weightIo);
      canLan1 := num.atof(oldWeightStr);
      card.ClearBlock(BlockWeight, clearIo);
      var scan := ReadWeight(lines, DigitOrMinus, 0);
      if scan.None? {
        return AwaitingScale;
      }
      session := SendDifference(scan.value.run, radio, num);
    }

    /** The end of a second scan: the new reading, the difference from the stored
        weight, and the record carrying that difference sent with retries. */
    method SendDifference(run: string, radio: seq<bool>, num: Numerics)
      returns (session: Session)
      requires |radio| >= MaxAttempts
      modifies this
      ensures data.uid == old(data.uid) && data.kind == old(data.kind) && name == old(name)
      ensures isFirstScan == old(isFirstScan) && canLan1 == old(canLan1)
      ensures canLan2 == num.atof(StrNCpy(run, FieldSize - 1))
      ensures chenhLech == canLan1 - canLan2
      ensures data.value == StrNCpy(num.fixed2(Finite(chenhLech)), FieldSize - 1)
      ensures session == SendOutcome(radio) && (delivered <==> session.Transmitted?)
    {
      data := data.(value := StrNCpy(run, FieldSize - 1));
      canLan2 := num.atof(data.value);
      chenhLech := canLan1 - canLan2;
      data := data.(value := StrNCpy(num.fixed2(Finite(chenhLech)), FieldSize - 1));
      var calls;
      calls, delivered := SendWithRetry(radio);
      session := if delivered then Transmitted(calls) else TransmitFailed;
    }
  }

  /** What a successful first scan leaves in block 4, as the next scan reads it: the
      first 15 characters of the two-decimal weight text. */
  function StoredWeight(num: Numerics, weight: real): string
  {
    var t := num.fixed2(Finite(weight));
    t[..Min(|t|, BlockSize - 1)]
  }

  /** The stored weight is the weight text when it fits in 15 characters, and its
      first 15 characters otherwise. */
  lemma StoredWeightMeaning(num: Numerics, weight: real)
    ensures var t := num.fixed2(Finite(weight));
      |StoredWeight(num, weight)| <= BlockSize - 1 && StoredWeight(num, weight) <= t &&
      (|t| < BlockSize ==> StoredWeight(num, weight) == t)
  {
  }

  /** The two-scan cycle on the tag: after a successful first-scan write the weight
      block reads back as the stored weight text, so the next scan takes the
      second-scan branch exactly when that text is neither empty, "0" nor "0.00";
      after the second scan's successful clear, the block reads as empty again and
      the following scan is a first scan. */
  lemma {:induction false} TwoScanCycle(blocks: map<nat, seq<byte>>, num: Numerics, weight: real)
    requires BlockWeight in blocks && IsCText(num.fixed2(Finite(weight)))
    ensures var stored := Written(blocks, BlockWeight,
                                  FixedField(num.fixed2(Finite(weight)), BlockSize), AllOk);
      BlockText(stored, BlockWeight, AllOk) == StoredWeight(num, weight) &&
      (HasText(BlockText(stored, BlockWeight, AllOk)) <==> HasText(StoredWeight(num, weight))) &&
      !HasText(BlockText(Written(stored, BlockWeight, Zeros(BlockSize), AllOk), BlockWeight, AllOk))
  {
    DataBlocksAreNotTrailers();
    var stored := Written(blocks, BlockWeight, FixedField(num.fixed2(Finite(weight)), BlockSize), AllOk);
    ReadAfterWrite(blocks, BlockWeight, num.fixed2(Finite(weight)));
    ClearedBlockIsEmpty(stored, BlockWeight, AllOk, AllOk);
  }

  /** A first-scan weight that formats as "0.00" is not remembered: the next scan of
      the same tag is again a first scan. */
  lemma ZeroWeightForgotten(blocks: map<nat, seq<byte>>, num: Numerics, weight: real)
    requires BlockWeight in blocks && num.fixed2(Finite(weight)) == "0.00"
    ensures !HasText(BlockText(Written(blocks, BlockWeight,
                                       FixedField(num.fixed2(Finite(weight)), BlockSize), AllOk),
                               BlockWeight, AllOk))
  {
    TwoScanCycle(blocks, num, weight);
    assert StoredWeight(num, weight) == "0.00";
  }

  /** A client of the station: two scans of one tag whose weight block starts empty,
      every tag exchange succeeding. The first scan stores the weight and sends
      nothing; the second sends the stored weight minus the new reading and leaves
      the block empty. */
  method TwoScans(station: Station, card: Card, uid: seq<byte>,
                  first: seq<string>, second: seq<string>, radio: seq<bool>, num: Numerics)
    returns (s1: Session, s2: Session)
    requires card.Valid() && |radio| >= MaxAttempts
    requires BlockWeight in card.blocks && !HasText(BlockText(card.blocks, BlockWeight, AllOk))
    requires NextReading(first, DigitOrMinus, 0).Some? && NextReading(second, DigitOrMinus, 0).Some?
    requires var w1 := num.atof(StrNCpy(NextReading(first, DigitOrMinus, 0).value.run, FieldSize - 1));
      IsCText(num.fixed2(Finite(w1))) && HasText(StoredWeight(num, w1))
    modifies station, card
    ensures s1 == Checkpoint && s2 == SendOutcome(radio)
    ensures var w1 := num.atof(StrNCpy(NextReading(first, DigitOrMinus, 0).value.run, FieldSize - 1));
            var w2 := num.atof(StrNCpy(NextReading(second, DigitOrMinus, 0).value.run, FieldSize - 1));
      station.canLan1 == num.atof(StoredWeight(num, w1)) && station.canLan2 == w2 &&
      station.data.value == StrNCpy(num.fixed2(Finite(station.canLan1 - station.canLan2)), FieldSize - 1)
    ensures !HasText(BlockText(card.blocks, BlockWeight, AllOk))
  {
    var w1 := num.atof(StrNCpy(NextReading(first, DigitOrMinus, 0).value.run, FieldSize - 1));
    s1 := ScanOnce(station, card, uid, first, radio, num);
    s2 := ScanAgain(station, card, uid, second, radio, num);
  }

  /** The first of the two scans: the weight read is stored in block 4. */
  method ScanOnce(station: Station, card: Card, uid: seq<byte>,
                  lines: seq<string>, radio: seq<bool>, num: Numerics)
    returns (session: Session)
    requires card.Valid() && |radio| >= MaxAttempts
    requires BlockWeight in card.blocks && !HasText(BlockText(card.blocks, BlockWeight, AllOk))
    requires NextReading(lines, DigitOrMinus, 0).Some?
    requires var w := num.atof(StrNCpy(NextReading(lines, DigitOrMinus, 0).value.run, FieldSize - 1));
      IsCText(num.fixed2(Finite(w)))
    modifies station, card
    ensures card.Valid() && session == Checkpoint && BlockWeight in card.blocks
    ensures var w := num.atof(StrNCpy(NextReading(lines, DigitOrMinus, 0).value.run, FieldSize - 1));
      BlockText(card.blocks, BlockWeight, AllOk) == StoredWeight(num, w)
  {
    session := station.Loop(card, true, uid, AllOk, AllOk, AllOk, AllOk, lines, radio, num);
    var w := num.atof(StrNCpy(NextReading(lines, DigitOrMinus, 0).value.run, FieldSize - 1));
    TwoScanCycle(old(card.blocks), num, w);
  }

  /** The second of the two scans: the stored weight is read back and cleared, and
      the difference is sent. */
  method ScanAgain(station: Station, card: Card, uid: seq<byte>,
                   lines: seq<string>, radio: seq<bool>, num: Numerics)
    returns (session: Session)
    requires card.Valid() && |radio| >= MaxAttempts
    requires BlockWeight in card.blocks && HasText(BlockText(card.blocks, BlockWeight, AllOk))
    requires NextReading(lines, DigitOrMinus, 0).Some?
    modifies station, card
    ensures session == SendOutcome(radio)
    ensures !HasText(BlockText(card.blocks, BlockWeight, AllOk))
    ensures var w := num.atof(StrNCpy(NextReading(lines, DigitOrMinus, 0).value.run, FieldSize - 1));
      station.canLan1 == num.atof(BlockText(old(card.blocks), BlockWeight, AllOk)) &&
      station.canLan2 == w &&
      station.data.value == StrNCpy(num.fixed2(Finite(station.canLan1 - w)), FieldSize - 1)
    ensures card.blocks == Written(old(card.blocks), BlockWeight, Zeros(BlockSize), AllOk)
  {
    session := station.Loop(card, true, uid, AllOk, AllOk, AllOk, AllOk, lines, radio, num);
    DataBlocksAreNotTrailers();
    ClearedBlockIsEmpty(old(card.blocks), BlockWeight, AllOk, AllOk);
  }
}
