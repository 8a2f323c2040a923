/** Little-endian packing of unsigned words, as `struct` writes and a packed C++ struct reads it. */
module Wire {
  import opened Layout

  function Span(width: nat): (n: nat)
    ensures n > 0
  {
    if width == 0 then 1 else 256 * Span(width - 1)
  }

  function Pack(value: nat, width: nat): (b: seq<Byte>)
    ensures |b| == width
  {
    if width == 0 then [] else [value % 256] + Pack(value / 256, width - 1)
  }

  function Unpack(b: seq<Byte>): nat {
    if b == [] then 0 else b[0] + 256 * Unpack(b[1..])
  }

  lemma {:induction false} PackRoundTrip(value: nat, width: nat)
    requires value < Span(width)
    ensures Unpack(Pack(value, width)) == value
  {
    if width > 0 {
      assert value / 256 < Span(width - 1);
      PackRoundTrip(value / 256, width - 1);
      assert Pack(value, width)[1..] == Pack(value / 256, width - 1);
    }
  }

  /** Later bytes weigh more: the first is the lowest. */
  lemma {:induction false} LaterWeighsMore(b: seq<Byte>, last: Byte)
    ensures Unpack(b + [last]) == Unpack(b) + Span(|b|) * last
  {
    if b != [] {
      LaterWeighsMore(b[1..], last);
      assert (b + [last])[1..] == b[1..] + [last];
      assert 256 * (Span(|b| - 1) * last) == Span(|b|) * last;
    }
  }

  datatype Word = Word(value: nat, width: nat)

  function PackAll(words: seq<Word>): seq<Byte> {
    if words == [] then [] else Pack(words[0].value, words[0].width) + PackAll(words[1..])
  }

  function TotalWidth(words: seq<Word>): nat {
    if words == [] then 0 else words[0].width + TotalWidth(words[1..])
  }

  predicate Fits(words: seq<Word>) { forall w | w in words :: w.value < Span(w.width) }

  /** The values a reader with the same field widths finds. */
  function UnpackAll(b: seq<Byte>, layout: seq<Word>): (values: seq<nat>)
    requires |b| >= TotalWidth(layout)
    ensures |values| == |layout|
  {
    if layout == [] then []
    else [Unpack(b[..layout[0].width])] + UnpackAll(b[layout[0].width..], layout[1..])
  }

  /** Reading a list of words is reading the first and then the rest. */
  lemma UnpackFirst(first: Word, others: seq<Word>, rest: seq<Byte>)
    requires |rest| >= TotalWidth(others)
    ensures TotalWidth([first] + others) == first.width + TotalWidth(others)
    ensures var b := Pack(first.value, first.width) + rest;
            UnpackAll(b, [first] + others) == [Unpack(Pack(first.value, first.width))] + UnpackAll(rest, others)
  {
    var b := Pack(first.value, first.width) + rest;
    assert ([first] + others)[1..] == others;
    assert b[..first.width] == Pack(first.value, first.width) && b[first.width..] == rest;
  }

  /** The values of the words, in order. */
  function ValuesOf(words: seq<Word>): (values: seq<nat>)
    ensures |values| == |words| && forall i :: 0 <= i < |words| ==> values[i] == words[i].value
  {
    if words == [] then [] else [words[0].value] + ValuesOf(words[1..])
  }

  lemma PackFirst(words: seq<Word>, tail: seq<Byte>)
    requires words != []
    ensures PackAll(words) + tail == Pack(words[0].value, words[0].width) + (PackAll(words[1..]) + tail)
  {
  }

  lemma {:induction false} UnpackValues(words: seq<Word>, tail: seq<Byte>)
    requires Fits(words)
    ensures |PackAll(words)| == TotalWidth(words)
    ensures UnpackAll(PackAll(words) + tail, words) == ValuesOf(words)
  {
    if words != [] {
      var first, others := words[0], words[1..];
      UnpackValues(others, tail);
      PackFirst(words, tail);
      assert words == [first] + others;
      UnpackFirst(first, others, PackAll(others) + tail);
      PackRoundTrip(first.value, first.width);
    }
  }

  lemma PackAllRoundTrip(words: seq<Word>, tail: seq<Byte>)
    requires Fits(words)
    ensures |PackAll(words)| == TotalWidth(words)
    ensures forall i :: 0 <= i < |words| ==> UnpackAll(PackAll(words) + tail, words)[i] == words[i].value
  {
    UnpackValues(words, tail);
  }

  lemma {:induction false} TotalWidthAppend(a: seq<Word>, b: seq<Word>)
    ensures TotalWidth(a + b) == TotalWidth(a) + TotalWidth(b)
  {
    if a == [] {
      assert a + b == b;
    } else {
      TotalWidthAppend(a[1..], b);
      assert (a + b)[1..] == a[1..] + b;
    }
  }

  /** Every word of the list as wide. */
  lemma {:induction false} TotalWidthEqual(words: seq<Word>, width: nat)
    requires forall w | w in words :: w.width == width
    ensures TotalWidth(words) == |words| * width
  {
    if words != [] {
      TotalWidthEqual(words[1..], width);
      assert |words| * width == width + |words[1..]| * width;
    }
  }

  /** Fixed-size byte strings one after the other. */
  function Join(parts: seq<seq<Byte>>): seq<Byte> {
    if parts == [] then [] else Join(parts[..|parts| - 1]) + parts[|parts| - 1]
  }

  lemma {:induction false} JoinAt(parts: seq<seq<Byte>>, size: nat, i: nat)
    requires i < |parts| && forall k :: 0 <= k < |parts| ==> |parts[k]| == size
    ensures |Join(parts)| == |parts| * size
    ensures 0 <= i * size <= (i + 1) * size <= |parts| * size && Join(parts)[i * size..(i + 1) * size] == parts[i]
  {
    var n := |parts| - 1;
    var before := parts[..n];
    assert (n + 1) * size == n * size + size && (i + 1) * size == i * size + size;
    if n > 0 {
      JoinAt(before, size, if i < n then i else 0);
      if i < n {
        assert (i + 1) * size <= n * size by { assert i + 1 <= n; ProductMonotone(i + 1, n, size); }
        assert Join(parts)[i * size..(i + 1) * size] == Join(before)[i * size..(i + 1) * size];
      }
    }
  }

  lemma ProductMonotone(a: nat, b: nat, c: nat)
    requires a <= b
    ensures a * c <= b * c
  {
  }
}
