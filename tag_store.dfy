/** The MIFARE Classic tag as the stations use it: 16-byte blocks grouped four to a
    sector, the fourth block of each sector (the trailer) holding the keys. Each
    read or write first authenticates the sector with the default key A; the
    outcome of that exchange and of the read/write command that follows are
    supplied by the caller (the MFRC522 reader is not modelled). */
module TagStore {
  import opened CText

  const BlockSize: nat := 16
  /** Block holding the customer name. */
  const BlockName: nat := 2
  /** Block the two-scan station uses as scratch storage for its first weight. */
  const BlockWeight: nat := 4

  /** Outcome of one reader transaction: sector authentication, then the command. */
  datatype Exchange = Exchange(authOk: bool, transferOk: bool)

  const AllOk := Exchange(true, true)

  /** The sector trailer that guards block `b`: `(b / 4) * 4 + 3`. */
  function TrailerBlock(b: nat): (t: nat)
    ensures t % 4 == 3
    ensures b <= t <= b + 3
    ensures t / 4 == b / 4
  {
    (b / 4) * 4 + 3
  }

  /** The firmware's refusal test `(b + 1) % 4 == 0`. */
  function IsTrailer(b: nat): (r: bool)
    ensures r <==> b % 4 == 3
  {
    (b + 1) % 4 == 0
  }

  /** A block is refused exactly when it is its own sector's trailer. */
  lemma TrailerIsOwnTrailer(b: nat)
    ensures IsTrailer(b) <==> TrailerBlock(b) == b
  {
  }

  /** The name block and the weight block are data blocks. */
  lemma DataBlocksAreNotTrailers()
    ensures !IsTrailer(BlockName) && !IsTrailer(BlockWeight)
    ensures TrailerBlock(BlockName) == 3 && TrailerBlock(BlockWeight) == 7
  {
  }

  /** What `readBlock` returns for block `b` of a card holding `blocks`. */
  function BlockText(blocks: map<nat, seq<byte>>, b: nat, io: Exchange): (s: string)
  {
    if !io.authOk || !io.transferOk || b !in blocks then ""
    else CString(blocks[b])
  }

  /** `readBlock` gives "" when authentication or the read fails; otherwise the
      block's bytes before its first zero byte: at most 16 characters, none NUL. */
  lemma BlockTextMeaning(blocks: map<nat, seq<byte>>, b: nat, io: Exchange)
    requires b in blocks ==> |blocks[b]| == BlockSize
    ensures !io.authOk || !io.transferOk ==> BlockText(blocks, b, io) == ""
    ensures |BlockText(blocks, b, io)| <= BlockSize
    ensures '\0' !in BlockText(blocks, b, io)
    ensures io == AllOk && b in blocks ==>
      var s := BlockText(blocks, b, io);
      (forall i :: 0 <= i < |s| ==> blocks[b][i] != 0 && s[i] == ByteChar(blocks[b][i])) &&
      (|s| < BlockSize ==> blocks[b][|s|] == 0)
  {
  }

  /** The test of `hasDataInBlock` on the text read. */
  predicate HasText(s: string) { |s| > 0 && s != "0" && s != "0.00" }

  /** Empty text is no data; any text longer than "0.00", or not starting with '0',
      is data. */
  lemma HasTextMeaning(s: string)
    ensures HasText(s) ==> s != []
    ensures |s| > 4 ==> HasText(s)
    ensures |s| > 0 && s[0] != '0' ==> HasText(s)
  {
  }

  /** The card's blocks after `writeBlock(b, data)`. */
  function Written(blocks: map<nat, seq<byte>>, b: nat, data: seq<byte>, io: Exchange)
    : map<nat, seq<byte>>
  {
    if IsTrailer(b) || !io.authOk || !io.transferOk || b !in blocks then blocks
    else blocks[b := data]
  }

  /** A write touches at most its own block, and never a trailer. */
  lemma WrittenFrame(blocks: map<nat, seq<byte>>, b: nat, data: seq<byte>, io: Exchange)
    ensures Written(blocks, b, data, io).Keys == blocks.Keys
    ensures forall c :: c in blocks && c != b ==> Written(blocks, b, data, io)[c] == blocks[c]
    ensures IsTrailer(b) ==> Written(blocks, b, data, io) == blocks
  {
  }

  /** After a successful clear, the block reads as "" and holds no data. */
  lemma ClearedBlockIsEmpty(blocks: map<nat, seq<byte>>, b: nat, io: Exchange, rd: Exchange)
    requires io == AllOk && b in blocks && !IsTrailer(b)
    ensures BlockText(Written(blocks, b, Zeros(BlockSize), io), b, rd) == ""
    ensures !HasText(BlockText(Written(blocks, b, Zeros(BlockSize), io), b, rd))
  {
    var z := Zeros(BlockSize);
    assert z[0] == 0;
    assert FirstIndex(z, 0) == 0;
  }

  /** Text written with the firmware's 16-byte buffer reads back as its first 15
      characters, when both exchanges succeed. */
  lemma {:induction false} ReadAfterWrite(blocks: map<nat, seq<byte>>, b: nat, text: string)
    requires b in blocks && !IsTrailer(b) && IsCText(text)
    ensures BlockText(Written(blocks, b, FixedField(text, BlockSize), AllOk), b, AllOk)
         == text[..Min(|text|, BlockSize - 1)]
  {
    FieldRoundTrip(text, BlockSize);
  }

  /** The physical tag: its blocks, by number. */
  class Card {
    var blocks: map<nat, seq<byte>>

    ghost predicate Valid()
      reads this
    {
      forall b :: b in blocks ==> |blocks[b]| == BlockSize
    }

    constructor (initial: map<nat, seq<byte>>)
      requires forall b :: b in initial ==> |initial[b]| == BlockSize
      ensures Valid() && blocks == initial
    {
      blocks := initial;
    }

    /** `readBlock`: authenticate the sector, read 16 bytes, keep those before the
        first zero byte. */
    method ReadBlock(b: nat, io: Exchange) returns (result: string)
      requires Valid()
      ensures result == BlockText(blocks, b, io)
      ensures |result| <= BlockSize
    {
      if !io.authOk {
        return "";
      }
      if !io.transferOk || b !in blocks {
        return "";
      }
      var buffer := blocks[b];
      result := "";
      var i := 0;
      while i < BlockSize
        invariant 0 <= i <= BlockSize
        invariant i <= FirstIndex(buffer, 0)
        invariant result == Chars(buffer[..i])
      {
        if buffer[i] == 0 {
          break;
        }
        result := result + [ByteChar(buffer[i])];
        i := i + 1;
      }
      assert i == FirstIndex(buffer, 0);
    }

    /** `writeBlock`: refuses trailer blocks, then authenticates and writes. */
    method WriteBlock(b: nat, data: seq<byte>, io: Exchange)
      requires Valid() && |data| == BlockSize
      modifies this
      ensures Valid()
      ensures blocks == Written(old(blocks), b, data, io)
    {
      if (b + 1) % 4 == 0 {
        return;
      }
      if !io.authOk {
        return;
      }
      if io.transferOk && b in blocks {
        blocks := blocks[b := data];
      }
    }

    /** `clearBlock`: writes sixteen zero bytes. */
    method ClearBlock(b: nat, io: Exchange)
      requires Valid()
      modifies this
      ensures Valid()
      ensures blocks == Written(old(blocks), b, Zeros(BlockSize), io)
    {
      WriteBlock(b, Zeros(BlockSize), io);
    }

    /** `hasDataInBlock`: the block reads as text other than "", "0" and "0.00". */
    method HasDataInBlock(b: nat, io: Exchange) returns (has: bool)
      requires Valid()
      ensures has <==> HasText(BlockText(blocks, b, io))
      ensures has ==> io.authOk && io.transferOk && b in blocks
    {
      var data := ReadBlock(b, io);
      has := |data| > 0 && data != "0" && data != "0.00";
    }
  }
}
