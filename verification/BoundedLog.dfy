/** The bounded diagnostic log: the first bytes of a stream, its last bytes, and a marker for what was dropped. */
module BoundedLog {
  import opened Layout

  /** The last `limit` bytes. */
  function Last(data: seq<Byte>, limit: nat): (s: seq<Byte>)
    ensures |s| <= limit && |s| <= |data|
  {
    if |data| <= limit then data else data[|data| - limit..]
  }

  function First(data: seq<Byte>, limit: nat): (s: seq<Byte>)
    ensures |s| <= limit && s <= data
  {
    if |data| <= limit then data else data[..limit]
  }

  /** What comes behind the head. */
  function Rest(data: seq<Byte>, limit: nat): seq<Byte> { if |data| <= limit then [] else data[limit..] }

  /** Only the last bytes of a prefix matter for the last bytes of the whole. */
  lemma LastAppend(a: seq<Byte>, b: seq<Byte>, limit: nat)
    ensures Last(Last(a, limit) + b, limit) == Last(a + b, limit)
  {
  }

  class Tail {
    var bytes: seq<Byte>

    constructor ()
      ensures bytes == []
    {
      bytes := [];
    }

    /** `update_tail`: keep the last `limit` bytes of everything seen. */
    method Update(data: seq<Byte>, limit: nat)
      requires |bytes| <= limit
      modifies this
      ensures bytes == Last(old(bytes) + data, limit)
    {
      if limit == 0 { return; }
      if |data| >= limit {
        bytes := data[|data| - limit..];
        assert bytes == Last(old(bytes) + data, limit);
        return;
      }
      var excess := |bytes| + |data| - limit;
      if excess > 0 { bytes := bytes[excess..]; }
      bytes := bytes + data;
    }
  }

  function Concat(chunks: seq<seq<Byte>>): seq<Byte> {
    if chunks == [] then [] else Concat(chunks[..|chunks| - 1]) + chunks[|chunks| - 1]
  }

  /** The marker line, from the number of bytes dropped and the whole stream's digest. */
  type Marker = (nat, seq<Byte>) -> seq<Byte>

  /** The file for a whole stream. */
  function Retained(stream: seq<Byte>, head: nat, tail: nat, marker: Marker): seq<Byte> {
    if |stream| <= head + tail then stream
    else stream[..head] + marker(|stream| - head - tail, stream) + stream[|stream| - tail..]
  }

  lemma HeadAndTail(stream: seq<Byte>, head: nat, tail: nat)
    ensures |stream| <= head + tail ==> First(stream, head) + Last(Rest(stream, head), tail) == stream
    ensures |stream| > head + tail ==>
              First(stream, head) == stream[..head] && Last(Rest(stream, head), tail) == stream[|stream| - tail..]
    ensures |First(stream, head)| + |Last(Rest(stream, head), tail)| == if |stream| <= head + tail then |stream| else head + tail
  {
  }

  /** Head, marker if something is missing, and tail are the file. */
  lemma FileIsRetained(stream: seq<Byte>, head: nat, tail: nat, marker: Marker)
    ensures var first, last := First(stream, head), Last(Rest(stream, head), tail);
            var omitted := |stream| - |first| - |last|;
            && omitted >= 0 && (omitted > 0 <==> |stream| > head + tail)
            && Retained(stream, head, tail, marker) == first + (if omitted > 0 then marker(omitted, stream) else []) + last
  {
    HeadAndTail(stream, head, tail);
    var first, last := First(stream, head), Last(Rest(stream, head), tail);
    assert first + [] + last == first + last;
  }

  lemma ChunkStep(stream: seq<Byte>, chunk: seq<Byte>, head: nat, tail: nat)
    ensures var room := head - |First(stream, head)|;
            var prefix := First(chunk, room);
            && First(stream + chunk, head) == First(stream, head) + prefix
            && Last(Rest(stream + chunk, head), tail) == Last(Last(Rest(stream, head), tail) + chunk[|prefix|..], tail)
  {
    var prefix := First(chunk, head - |First(stream, head)|);
    assert Rest(stream + chunk, head) == Rest(stream, head) + chunk[|prefix|..];
    LastAppend(Rest(stream, head), chunk[|prefix|..], tail);
  }

  /** One chunk: fill up the head, pass the rest to the tail. */
  method TakeChunk(chunk: seq<Byte>, head: nat, tail: nat, output0: seq<Byte>, buffer: Tail, ghost seen: seq<Byte>)
    returns (output: seq<Byte>)
    requires output0 == First(seen, head) && buffer.bytes == Last(Rest(seen, head), tail)
    modifies buffer
    ensures output == First(seen + chunk, head) && buffer.bytes == Last(Rest(seen + chunk, head), tail)
  {
    ChunkStep(seen, chunk, head, tail);
    output := output0;
    var rest := chunk;
    var headRoom := head - |output|;
    if headRoom > 0 {
      var prefix := if |chunk| <= headRoom then chunk else chunk[..headRoom];
      output := output + prefix;
      rest := chunk[|prefix|..];
    }
    if rest != [] { buffer.Update(rest, tail); }
  }

  /** The streaming loop: head written, tail buffered, and the digest fed with everything. */
  method Consume(chunks: seq<seq<Byte>>, head: nat, tail: nat) returns (output: seq<Byte>, buffer: Tail, hashed: seq<Byte>)
    ensures hashed == Concat(chunks) && output == First(hashed, head) && buffer.bytes == Last(Rest(hashed, head), tail)
  {
    output, hashed := [], [];
    buffer := new Tail();
    assert chunks[..0] == [];
    for n := 0 to |chunks|
      invariant hashed == Concat(chunks[..n]) && fresh(buffer)
      invariant output == First(hashed, head) && buffer.bytes == Last(Rest(hashed, head), tail)
    {
      assert chunks[..n + 1][..n] == chunks[..n];
      output := TakeChunk(chunks[n], head, tail, output, buffer, hashed);
      hashed := hashed + chunks[n];
    }
    assert chunks[..|chunks|] == chunks;
  }

  /** The whole program: however the stream is cut into chunks, the file depends on the stream alone; kept and dropped
      bytes add up to the total, and what is kept never exceeds the limits. */
  method Stream(chunks: seq<seq<Byte>>, head: nat, tail: nat, marker: Marker)
    returns (file: seq<Byte>, total: nat, kept: nat, omitted: nat, truncated: bool)
    ensures file == Retained(Concat(chunks), head, tail, marker)
    ensures total == |Concat(chunks)| == kept + omitted && kept <= head + tail
    ensures truncated <==> total > head + tail
    ensures truncated <==> omitted > 0
  {
    var output, buffer, hashed := Consume(chunks, head, tail);
    FileIsRetained(hashed, head, tail, marker);
    total := |hashed|;
    kept := |output| + |buffer.bytes|;
    truncated := total > kept;
    omitted := total - kept;
    file := output + (if truncated then marker(omitted, hashed) else []);
    file := file + buffer.bytes;
  }
}
