/** The device transfer: metadata built and checked on the host, its wire form, and the bridge that accepts it and
    copies the blocks. */
module DeviceIpc {
  import opened Layout
  import opened Contract
  import opened KvTransfer
  import Wire

  const WIRE_BYTES := 4088 // 504 bytes of header and 56 keys of 64 bytes

  /** `DeviceKVTransfer`; keys are the code points of the exported names. */
  datatype DeviceTransfer = DeviceTransfer(
    id: int, mask: int, generations: seq<int>, blockIds: seq<int>, sourceBytes: int, offsets: seq<int>, keys: seq<seq<int>>)

  predicate RowCovered(t: DeviceTransfer, row: nat)
    requires row < BATCH && |t.generations| == BATCH && |t.blockIds| == BATCH
  {
    if Bit(t.mask, row) then
      && t.generations[row] > 0 && t.blockIds[row] >= 0
      && forall o | o in t.offsets :: 0 <= o && o + (t.blockIds[row] + 1) * BLOCK_BYTES <= t.sourceBytes
    else t.generations[row] == 0 && t.blockIds[row] == 0
  }

  /** The key encodes as ASCII and fits its field. */
  predicate KeyFits(key: seq<int>) { 0 < |key| <= KEY_BYTES && forall c | c in key :: 0 <= c < 128 }

  /** `DeviceKVTransfer.validate` */
  predicate ValidTransfer(t: DeviceTransfer) {
    && t.id > 0 && |t.generations| == BATCH && |t.blockIds| == BATCH && 0 < t.mask < 16 && t.sourceBytes > 0
    && |t.offsets| == SOURCES && |t.keys| == SOURCES
    && (forall row: nat | row < BATCH :: RowCovered(t, row))
    && (forall key | key in t.keys :: KeyFits(key))
  }

  /** The fields also fit the wire's integer types. */
  predicate Packable(t: DeviceTransfer) {
    && t.sourceBytes < 0x1_0000_0000_0000_0000
    && (forall g | g in t.generations :: 0 <= g < 0x8000_0000)
    && (forall b | b in t.blockIds :: 0 <= b < 0x8000_0000)
    && (forall o | o in t.offsets :: 0 <= o < 0x1_0000_0000_0000_0000)
  }

  // ----- the wire

  function PaddedAt(key: seq<int>, i: nat): Byte
    requires KeyFits(key)
  {
    if i < |key| then assert key[i] in key; key[i] else 0
  }

  /** The key, padded with NUL bytes. */
  function Padded(key: seq<int>): (b: seq<Byte>)
    requires KeyFits(key)
    ensures |b| == KEY_BYTES
  {
    seq<Byte>(KEY_BYTES, i requires 0 <= i < KEY_BYTES => PaddedAt(key, i))
  }

  function WordsOf(values: seq<int>, width: nat): (w: seq<Wire.Word>)
    requires forall v | v in values :: v >= 0
    ensures |w| == |values| && forall i :: 0 <= i < |w| ==> w[i].value == values[i] && w[i].width == width
  {
    seq(|values|, i requires 0 <= i < |values| => assert values[i] in values; Wire.Word(values[i], width))
  }

  function PrefixWords(t: DeviceTransfer): (w: seq<Wire.Word>)
    requires ValidTransfer(t) && Packable(t)
  {
    [Wire.Word(MAGIC, 8), Wire.Word(VERSION, 4), Wire.Word(t.mask, 4), Wire.Word(t.sourceBytes, 8)]
  }

  function HeaderWords(t: DeviceTransfer): (w: seq<Wire.Word>)
    requires ValidTransfer(t) && Packable(t)
    ensures |w| == 68
  {
    PrefixWords(t) + WordsOf(t.generations, 4) + WordsOf(t.blockIds, 4) + WordsOf(t.offsets, 8)
  }

  function PaddedKeys(t: DeviceTransfer): (k: seq<seq<Byte>>)
    requires ValidTransfer(t)
    ensures |k| == SOURCES && forall i :: 0 <= i < SOURCES ==> |k[i]| == KEY_BYTES
  {
    seq(SOURCES, i requires 0 <= i < SOURCES => assert t.keys[i] in t.keys; Padded(t.keys[i]))
  }

  /** `wire_bytes` */
  function WireBytes(t: DeviceTransfer): Option<seq<Byte>> {
    if !ValidTransfer(t) || !Packable(t) then None
    else Some(Wire.PackAll(HeaderWords(t)) + Wire.Join(PaddedKeys(t)))
  }

  /** The packed struct the bridge lays over the received bytes. */
  datatype Metadata = Metadata(
    magic: nat, version: nat, mask: nat, sourceBytes: nat, generations: seq<nat>, blockIds: seq<nat>, offsets: seq<nat>,
    keys: seq<seq<Byte>>)

  /** Field widths of the struct. */
  function HeaderLayout(): (w: seq<Wire.Word>)
    ensures |w| == 68
  {
    [Wire.Word(0, 8), Wire.Word(0, 4), Wire.Word(0, 4), Wire.Word(0, 8)] + seq(8, _ => Wire.Word(0, 4)) + seq(56, _ => Wire.Word(0, 8))
  }

  function KeyAt(b: seq<Byte>, i: nat): seq<Byte>
    requires |b| == WIRE_BYTES && i < SOURCES
  {
    b[504 + i * KEY_BYTES..504 + (i + 1) * KEY_BYTES]
  }

  lemma LayoutWidth()
    ensures Wire.TotalWidth(HeaderLayout()) == 504
  {
    var a := [Wire.Word(0, 8), Wire.Word(0, 4), Wire.Word(0, 4), Wire.Word(0, 8)];
    var b := seq(8, _ => Wire.Word(0, 4));
    var c := seq(56, _ => Wire.Word(0, 8));
    Wire.TotalWidthAppend(a + b, c);
    Wire.TotalWidthAppend(a, b);
    Wire.TotalWidthEqual(b, 4);
    Wire.TotalWidthEqual(c, 8);
    assert a == [a[0]] + ([a[1]] + ([a[2]] + [a[3]]));
  }

  function Received(b: seq<Byte>): Metadata
    requires |b| == WIRE_BYTES
  {
    LayoutWidth();
    var v := Wire.UnpackAll(b, HeaderLayout());
    Metadata(v[0], v[1], v[2], v[3], v[4..8], v[8..12], v[12..68],
             seq(SOURCES, i requires 0 <= i < SOURCES => KeyAt(b, i)))
  }

  /** The reader depends on the widths only. */
  lemma {:induction false} SameWidths(b: seq<Byte>, x: seq<Wire.Word>, y: seq<Wire.Word>)
    requires |x| == |y| && forall i :: 0 <= i < |x| ==> x[i].width == y[i].width
    ensures Wire.TotalWidth(x) == Wire.TotalWidth(y)
    ensures |b| >= Wire.TotalWidth(x) ==> Wire.UnpackAll(b, x) == Wire.UnpackAll(b, y)
    decreases |x|
  {
    if x != [] {
      if |b| >= Wire.TotalWidth(x) { SameWidths(b[x[0].width..], x[1..], y[1..]); } else { SameWidths([], x[1..], y[1..]); }
    }
  }

  lemma Spans()
    ensures Wire.Span(4) == 0x1_0000_0000 && Wire.Span(8) == 0x1_0000_0000_0000_0000
  {
    assert Wire.Span(4) == 0x1_0000_0000;
    assert Wire.Span(6) == 256 * (256 * Wire.Span(4));
    assert Wire.Span(8) == 256 * (256 * Wire.Span(6));
  }

  lemma HeaderFits(t: DeviceTransfer)
    requires ValidTransfer(t) && Packable(t)
    ensures Wire.Fits(HeaderWords(t))
    ensures forall i :: 0 <= i < 68 ==> HeaderWords(t)[i].width == HeaderLayout()[i].width
  {
    Spans();
    var w := HeaderWords(t);
    forall i | 0 <= i < 68
      ensures w[i].value < Wire.Span(w[i].width)
    {
      if 4 <= i < 8 { assert t.generations[i - 4] in t.generations; }
      if 8 <= i < 12 { assert t.blockIds[i - 8] in t.blockIds; }
      if 12 <= i { assert t.offsets[i - 12] in t.offsets; }
    }
  }

  lemma HeaderRoundTrip(t: DeviceTransfer, tail: seq<Byte>)
    requires ValidTransfer(t) && Packable(t)
    ensures |Wire.PackAll(HeaderWords(t))| == 504 == Wire.TotalWidth(HeaderLayout())
    ensures var v := Wire.UnpackAll(Wire.PackAll(HeaderWords(t)) + tail, HeaderLayout());
            forall i :: 0 <= i < 68 ==> v[i] == HeaderWords(t)[i].value
  {
    var w := HeaderWords(t);
    HeaderFits(t);
    LayoutWidth();
    SameWidths([], w, HeaderLayout());
    Wire.PackAllRoundTrip(w, tail);
    SameWidths(Wire.PackAll(w) + tail, w, HeaderLayout());
  }

  lemma KeysRoundTrip(header: seq<Byte>, keys: seq<seq<Byte>>, i: nat)
    requires |header| == 504 && |keys| == SOURCES && i < SOURCES && forall k :: 0 <= k < SOURCES ==> |keys[k]| == KEY_BYTES
    ensures |header + Wire.Join(keys)| == WIRE_BYTES && KeyAt(header + Wire.Join(keys), i) == keys[i]
  {
    Wire.JoinAt(keys, KEY_BYTES, i);
    assert (header + Wire.Join(keys))[504..] == Wire.Join(keys);
    assert KeyAt(header + Wire.Join(keys), i) == Wire.Join(keys)[i * KEY_BYTES..(i + 1) * KEY_BYTES];
  }

  lemma HeaderValues(t: DeviceTransfer, v: seq<nat>)
    requires ValidTransfer(t) && Packable(t) && |v| == 68 && forall i :: 0 <= i < 68 ==> v[i] == HeaderWords(t)[i].value
    ensures v[0] == MAGIC && v[1] == VERSION && v[2] == t.mask && v[3] == t.sourceBytes
    ensures v[4..8] == t.generations && v[8..12] == t.blockIds && v[12..68] == t.offsets
  {
  }

  /** What the bridge reads is what was sent. */
  lemma WireRoundTrip(t: DeviceTransfer)
    requires ValidTransfer(t) && Packable(t)
    ensures var b := WireBytes(t).value;
            && |b| == WIRE_BYTES
            && Received(b) == Metadata(MAGIC, VERSION, t.mask, t.sourceBytes, t.generations, t.blockIds, t.offsets, PaddedKeys(t))
  {
    var keys := PaddedKeys(t);
    var header := Wire.PackAll(HeaderWords(t));
    var b := header + Wire.Join(keys);
    HeaderRoundTrip(t, Wire.Join(keys));
    HeaderValues(t, Wire.UnpackAll(b, HeaderLayout()));
    forall i: nat | i < SOURCES
      ensures |b| == WIRE_BYTES && KeyAt(b, i) == keys[i]
    {
      KeysRoundTrip(header, keys, i);
    }
    KeysRoundTrip(header, keys, 0);
    assert Received(b).keys == keys;
  }
}
