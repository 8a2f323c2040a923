/** The checksum that proves a KV import: the device computes it over its own cache, the host over the payload. */
module ImportChecksum {
  import opened Layout
  import opened Flow
  import opened Adler
  import opened EpochSpec
  import opened EpochRows

  /** What both sides mean: Adler-32 of the selected blocks, keys before values, layer by layer and row by row. */
  function PayloadChecksum(p: seq<Byte>, mask: int): nat
    requires |p| == PAYLOAD_BYTES
  {
    Pack(Sum(SelectedBytes(PayloadBlocks(p), 2 * HALF_BLOCKS, mask), START))
  }

  /** The checksum of the first `n` payload blocks, as a word. */
  ghost function ChecksumOf(p: seq<Byte>, n: nat, mask: int): nat
    requires |p| == PAYLOAD_BYTES && n <= 2 * HALF_BLOCKS
  {
    Pack(BlocksSum(PayloadBlocks(p), n, mask, START))
  }

  lemma ChecksumStep(p: seq<Byte>, n: nat, mask: int)
    requires |p| == PAYLOAD_BYTES && n < 2 * HALF_BLOCKS
    ensures ChecksumOf(p, n + 1, mask) ==
            if Bit(mask, n % BATCH) then Chain(PayloadBlock(p, n), ChecksumOf(p, n, mask)) else ChecksumOf(p, n, mask)
  {
    PackRoundTrip(BlocksSum(PayloadBlocks(p), n, mask, START));
  }

  /** One layer of one half of the host's loop. */
  method ChecksumRows(p: seq<Byte>, mask: int, base: nat, before: nat) returns (checksum: nat)
    requires |p| == PAYLOAD_BYTES && base + BATCH <= 2 * HALF_BLOCKS && base % BATCH == 0
    requires before == ChecksumOf(p, base, mask)
    ensures checksum == ChecksumOf(p, base + BATCH, mask)
  {
    checksum := before;
    for row := 0 to BATCH
      invariant checksum == ChecksumOf(p, base + row, mask)
    {
      ChecksumStep(p, base + row, mask);
      assert (base + row) % BATCH == row;
      if !Bit(mask, row) { continue; }
      checksum := Chain(PayloadBlock(p, base + row), checksum);
    }
  }

  /** `kv_payload_checksum`: chain over the selected blocks of both halves. */
  method KvPayloadChecksum(p: seq<Byte>, mask: int) returns (checksum: nat)
    requires |p| == PAYLOAD_BYTES
    ensures checksum == PayloadChecksum(p, mask) < 0x1_0000_0000
  {
    checksum := 1;
    for half := 0 to 2
      invariant checksum == ChecksumOf(p, half * HALF_BLOCKS, mask)
    {
      for layer := 0 to LAYERS
        invariant checksum == ChecksumOf(p, half * HALF_BLOCKS + layer * BATCH, mask)
      {
        checksum := ChecksumRows(p, mask, half * HALF_BLOCKS + layer * BATCH, checksum);
      }
    }
    BlocksSumIsSum(PayloadBlocks(p), 2 * HALF_BLOCKS, mask, START);
    PackRoundTrip(BlocksSum(PayloadBlocks(p), 2 * HALF_BLOCKS, mask, START));
  }

  /** The first block of an imported row is the payload's. */
  lemma FirstBlockImported(c: Cache, p: seq<Byte>, base: nat, i: nat)
    requires |p| == PAYLOAD_BYTES && base <= HALF_BLOCKS && i < HALF_BLOCKS
    requires RowBlocks(c, i % BATCH) == ImportedRow(p, base, i % BATCH)
    ensures FirstBlocks(c)[i] == PayloadBlocks(p)[base + i]
  {
    var j := i / BATCH * 2;
    assert j / 2 == i / BATCH && j % 2 == 0;
    assert Entry(i % BATCH, j) == i / BATCH * PHYSICAL_BLOCKS + i % BATCH * 2;
    assert RowBlocks(c, i % BATCH)[j] == ImportedRow(p, base, i % BATCH)[j];
  }

  lemma MaskedBlocks(d: Device, e: EpochInput, i: nat)
    requires e.importing && e.Typed() && i < 2 * HALF_BLOCKS && Bit(e.mask, i % BATCH) && RowImported(e, d, i % BATCH)
    ensures (FirstBlocks(d.key) + FirstBlocks(d.value))[i] == PayloadBlocks(e.payload)[i]
  {
    if i < HALF_BLOCKS {
      FirstBlockImported(d.key, e.payload, 0, i);
    } else {
      assert (i - HALF_BLOCKS) % BATCH == i % BATCH;
      FirstBlockImported(d.value, e.payload, HALF_BLOCKS, i - HALF_BLOCKS);
    }
  }

  /** For every payload and mask: after a completed import the device's checksum over its resident cache is the
      host's checksum over the payload; the selected rows hold exactly the payload's blocks followed by zero
      blocks, and nothing of the other rows has changed. */
  lemma ImportChecksumAgrees(d: Device, e: EpochInput)
    requires e.Typed() && e.importing && Import(d, e).1 == OK
    ensures var d1 := Import(d, e).0;
            && DeviceChecksum(d1, e) == PayloadChecksum(e.payload, e.mask)
            && forall r: nat | r < BATCH :: if Bit(e.mask, r) then RowImported(e, d1, r) else RowUntouched(d, d1, r)
  {
    ImportEffect(d, e);
    var d1 := Import(d, e).0;
    assert forall r: nat | r < BATCH :: Imports(e, r) <==> Selected(e, r);
    var blocks := FirstBlocks(d1.key) + FirstBlocks(d1.value);
    forall i: nat | i < 2 * HALF_BLOCKS && Bit(e.mask, i % BATCH)
      ensures blocks[i] == PayloadBlocks(e.payload)[i]
    {
      assert Selected(e, i % BATCH);
      assert RowImported(e, d1, i % BATCH);
      MaskedBlocks(d1, e, i);
    }
    BlocksSumSelected(blocks, PayloadBlocks(e.payload), 2 * HALF_BLOCKS, e.mask, START);
    BlocksSumIsSum(PayloadBlocks(e.payload), 2 * HALF_BLOCKS, e.mask, START);
  }

  /** `word & 0xFFFFFFFF` of a signed 32-bit control word. */
  function ToUint32(word: int): nat { word % 0x1_0000_0000 }

  lemma ChecksumWord(word: nat)
    requires word < 0x1_0000_0000
    ensures -0x8000_0000 <= ToInt32(word) < 0x8000_0000 && ToUint32(ToInt32(word)) == word
  {
    if ToInt32(word) < 0 { assert ToInt32(word) + 0x1_0000_0000 == word; }
  }

  /** The checksum word the control output carries is the host's, whenever the import completed: the call then
      ended with success, with a continuity failure or inside the decode loop. */
  lemma ControlCarriesChecksum(d: Device, e: EpochInput, ctx: Context)
    requires e.Typed() && e.importing && InputStatus(e) == OK && Import(d, e).1 == OK
    ensures var end := Epoch(d, e, ctx).1;
            ToUint32(Control(e, end)[5]) == PayloadChecksum(e.payload, e.mask)
  {
    ImportChecksumAgrees(d, e);
    BlocksSumIsSum(PayloadBlocks(e.payload), 2 * HALF_BLOCKS, e.mask, START);
    PackRoundTrip(BlocksSum(PayloadBlocks(e.payload), 2 * HALF_BLOCKS, e.mask, START));
    ChecksumWord(PayloadChecksum(e.payload, e.mask));
  }
}
