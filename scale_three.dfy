/** Scale_3, the moisture station (kind 3): two readings in one presentation, the
    first (`canLan1`) and then the second (`canLan2`), and the ratio second / first
    sent with two decimals. The first reading is not checked for zero, so a zero
    first reading sends the text of an infinity or NaN. The tag is only read. */
module ScaleThree {
  import opened CText
  import opened Options
  import opened Numbers
  import opened Uid
  import opened TagStore
  import opened ScaleReader
  import opened EspNow

  const Kind: byte := 3

  /** The value `docCan` stores: `String(canLan2 / canLan1, 2)`, cut to 19 characters. */
  function RatioText(num: Numerics, canLan1: real, canLan2: real): (t: string)
    ensures |t| <= FieldSize - 1 && '\0' !in t
    ensures canLan1 != 0.0 ==> t <= num.fixed2(Finite(canLan2 / canLan1))
    ensures canLan1 == 0.0 && canLan2 == 0.0 ==> t <= num.fixed2(NaN)
    ensures canLan1 == 0.0 && canLan2 != 0.0 ==> t <= num.fixed2(Infinite(canLan2 > 0.0))
  {
    StrNCpy(num.fixed2(Divide(canLan2, canLan1)), FieldSize - 1)
  }

  /** The sketch's globals: `Data`, `tenKH`, `canLan1`, `canLan2` and `guiThanhCong`. */
  class Station {
    var data: Record
    var name: string
    var canLan1: real
    var canLan2: real
    var delivered: bool

    /** The globals at power-up: `Data` zeroed except its member initialiser
        `loaiCan = 3`. */
    constructor ()
      ensures data == Record("", "", Kind) && name == "" && !delivered
      ensures canLan1 == 0.0 && canLan2 == 0.0
    {
      data := Record("", "", Kind);
      name := "";
      canLan1, canLan2 := 0.0, 0.0;
      delivered := false;
    }

    /** `docMotLanCan`: one blocking read, parsed with `String::toFloat`. Returns the
        value and the position after the line it used. */
    static method ReadOnce(lines: seq<string>, from: nat, num: Numerics)
      returns (r: Option<(real, nat)>)
      requires from <= |lines|
      ensures NextReading(lines, DigitOrMinus, from).None? <==> r.None?
      ensures r.Some? ==>
        var scan := NextReading(lines, DigitOrMinus, from).value;
        r.value == (num.atof(scan.run), scan.line + 1)
    {
      var scan := ReadWeight(lines, DigitOrMinus, from);
      if scan.None? {
        return None;
      }
      return Some((num.atof(scan.value.run), scan.value.line + 1));
    }

    /** One iteration of `loop`. The card is passed without a write permission:
        this station never changes the tag. */
    method Loop(card: Card, present: bool, uid: seq<byte>, nameIo: Exchange,
                lines: seq<string>, radio: seq<bool>, num: Numerics)
      returns (session: Session)
      requires card.Valid() && |radio| >= MaxAttempts
      modifies this
      ensures data.kind == Kind
      ensures !present ==>
        session == Idle && data == Record("", "", Kind) && name == "" && !delivered &&
        canLan1 == 0.0 && canLan2 == 0.0
      ensures present ==>
        data.uid == StoredUid(uid) && name == BlockText(card.blocks, BlockName, nameIo)
      ensures present ==>
        match NextReading(lines, DigitOrMinus, 0)
        case None =>
          session == AwaitingScale && data.value == "" && !delivered &&
          canLan1 == 0.0 && canLan2 == 0.0
        case Some(first) =>
          canLan1 == num.atof(first.run) &&
          match NextReading(lines, DigitOrMinus, first.line + 1)
          case None =>
            session == AwaitingScale && data.value == "" && !delivered && canLan2 == 0.0
          case Some(second) =>
            canLan2 == num.atof(second.run) &&
            data.value == RatioText(num, canLan1, canLan2) &&
            session == SendOutcome(radio) && (delivered <==> session.Transmitted?)
    {
      data := Record("", "", Kind);
      name := "";
      canLan1, canLan2 := 0.0, 0.0;
      delivered := false;
      if !present {
        return Idle;
      }
      var text := FormatUid(uid);
      data := data.(uid := StrNCpy(text, FieldSize - 1));
      name := card.ReadBlock(BlockName, nameIo);

      var r1 := ReadOnce(lines, 0, num);
      if r1.None? {
        return AwaitingScale;
      }
      canLan1 := r1.value.0;
      var r2 := ReadOnce(lines, r1.value.1, num);
      if r2.None? {
        return AwaitingScale;
      }
      canLan2 := r2.value.0;
      session := SendRatio(radio, num);
    }

    /** The end of a loop with both readings: their ratio as text in the record,
        and the record sent with retries. */
    method SendRatio(radio: seq<bool>, num: Numerics) returns (session: Session)
      requires |radio| >= MaxAttempts
      modifies this
      ensures data.uid == old(data.uid) && data.kind == old(data.kind) && name == old(name)
      ensures canLan1 == old(canLan1) && canLan2 == old(canLan2)
      ensures data.value == RatioText(num, canLan1, canLan2)
      ensures session == SendOutcome(radio) && (delivered <==> session.Transmitted?)
    {
      var hieu := Divide(canLan2, canLan1);
      data := data.(value := StrNCpy(num.fixed2(hieu), FieldSize - 1));
      var calls;
      calls, delivered := SendWithRetry(radio);
      session := if delivered then Transmitted(calls) else TransmitFailed;
    }
  }

  /** The two readings come from two different lines, the second after the first. */
  lemma ReadingsInOrder(lines: seq<string>)
    requires NextReading(lines, DigitOrMinus, 0).Some?
    requires NextReading(lines, DigitOrMinus, NextReading(lines, DigitOrMinus, 0).value.line + 1).Some?
    ensures var first := NextReading(lines, DigitOrMinus, 0).value;
      var second := NextReading(lines, DigitOrMinus, first.line + 1).value;
      first.line < second.line &&
      forall j :: 0 <= j < second.line && j != first.line ==> Reading(lines[j], DigitOrMinus).None?
  {
  }

  /** The ratio is second over first: when it is finite, multiplying it by the first
      reading gives the second; a zero first reading yields no finite ratio at all. */
  lemma RatioMeaning(canLan1: real, canLan2: real)
    ensures canLan1 != 0.0 ==> Divide(canLan2, canLan1).Finite? &&
                               Divide(canLan2, canLan1).v * canLan1 == canLan2
    ensures canLan1 == 0.0 ==> !Divide(canLan2, canLan1).Finite?
  {
  }
}
