/** The messages a resident epoch call exchanges with its DataFlow context, and the two pure
    computations it makes on them: greedy sampling and slot mapping. */
module Flow {
  import opened Layout

  datatype Logit = NonFinite | Finite(value: real)

  /** A tensor message; `Missing` stands for a null message, a failed return code or another data type. */
  datatype Tensor =
    | Int64(i64: seq<int>)
    | Int32(i32: seq<int>)
    | UInt8(u8: seq<Byte>)
    | BFloat16(blocks: seq<Block>)
    | Float32(f32: seq<Logit>)
    | Missing

  predicate IsInt64(t: Tensor, elements: nat) { t.Int64? && |t.i64| == elements }
  predicate IsInt32(t: Tensor, elements: nat) { t.Int32? && |t.i32| == elements }
  predicate IsUInt8(t: Tensor, elements: nat) { t.UInt8? && |t.u8| == elements }
  predicate IsCache(t: Tensor) { t.BFloat16? && |t.blocks| == CACHE_BLOCKS }
  predicate IsLogits(t: Tensor) { t.Float32? && |t.f32| == BATCH * VOCAB_SIZE }

  type Row4 = s: seq<int> | |s| == BATCH witness [0, 0, 0, 0]

  /** The nine inputs of the invoked decoder graph. */
  datatype ModelInput = ModelInput(
    token: Row4, position: Row4, length: Row4, key: Cache, slot: Row4, active: Row4,
    blockTable: seq<int>, value: Cache, tiling: seq<Byte>)

  datatype ModelReturn = ModelReturn(success: bool, outputs: seq<Tensor>)

  /** What the controller cannot decide itself: the decoder graph and which allocations succeed. */
  datatype Context = Context(
    runFlowModel: ModelInput -> ModelReturn,
    outputsAllocated: bool,
    slotsAllocated: bool,
    cachesAllocated: bool,
    stepAllocated: nat -> bool)

  /** The decoder returned four outputs of the declared types and sizes. */
  predicate GoodOutputs(o: seq<Tensor>) {
    |o| == 4 && IsLogits(o[0]) && IsCache(o[1]) && IsCache(o[2]) && IsInt64(o[3], BATCH)
  }

  function RowLogits(all: seq<Logit>, request: nat): seq<Logit>
    requires |all| == BATCH * VOCAB_SIZE && request < BATCH
  {
    all[request * VOCAB_SIZE..(request + 1) * VOCAB_SIZE]
  }

  /** Index of the first largest logit, or nothing when a logit is not finite. */
  function Greedy(l: seq<Logit>): (t: Option<nat>)
    requires l != []
    ensures t.None? <==> exists i :: 0 <= i < |l| && l[i].NonFinite?
    ensures t.Some? ==> t.value < |l|
    ensures t.Some? ==> forall i :: 0 <= i < |l| ==> l[i].Finite? && l[i].value <= l[t.value].value
    ensures t.Some? ==> forall i :: 0 <= i < t.value ==> l[i].value < l[t.value].value
  {
    var n := |l| - 1;
    if n == 0 then
      if l[0].Finite? then Some(0) else None
    else
      var best := Greedy(l[..n]);
      if best.None? || l[n].NonFinite? then
        assert best.None? ==> exists i :: 0 <= i < |l[..n]| && l[..n][i].NonFinite?;
        assert best.None? ==> exists i :: 0 <= i < |l| && l[i].NonFinite? by {
          if best.None? {
            var i :| 0 <= i < |l[..n]| && l[..n][i].NonFinite?;
            assert l[i].NonFinite?;
          }
        }
        None
      else
        assert forall i :: 0 <= i < n ==> l[i] == l[..n][i];
        if l[n].value > l[best.value].value then Some(n) else best
  }

  /** The sampling of one more logit. */
  lemma GreedyNext(l: seq<Logit>, n: nat)
    requires 1 <= n < |l| && Greedy(l[..n]).Some?
    ensures Greedy(l[..n + 1]) ==
            match l[n]
            case NonFinite => None
            case Finite(value) => if value > l[Greedy(l[..n]).value].value then Some(n) else Greedy(l[..n])
  {
    assert l[..n + 1][..n] == l[..n] && l[..n + 1][n] == l[n];
  }

  /** A logit that is not finite spoils the whole row. */
  lemma GreedySpoiled(l: seq<Logit>, n: nat)
    requires n < |l| && l[n].NonFinite?
    ensures Greedy(l).None?
  {
  }

  method ArgmaxFinite(all: seq<Logit>, request: nat) returns (token: Option<nat>)
    requires |all| == BATCH * VOCAB_SIZE && request < BATCH
    ensures token == Greedy(RowLogits(all, request))
  {
    var logits := all[request * VOCAB_SIZE..(request + 1) * VOCAB_SIZE];
    if !logits[0].Finite? { return None; }
    var best := logits[0].value;
    token := Some(0);
    var index := 1;
    while index < VOCAB_SIZE
      invariant 1 <= index <= VOCAB_SIZE
      invariant token == Greedy(logits[..index]) && token.Some?
      invariant best == logits[token.value].value
    {
      GreedyNext(logits, index);
      match logits[index] {
        case NonFinite =>
          GreedySpoiled(logits, index);
          return None;
        case Finite(value) =>
          if value > best {
            best := value;
            token := Some(index);
          }
      }
      index := index + 1;
    }
    assert logits[..VOCAB_SIZE] == logits;
  }

  /** Cache slot of a request's position, -1 when there is none. */
  function ComputeSlot(blockTable: seq<int>, request: int, position: int): (slot: int)
    requires |blockTable| == BATCH * BLOCKS_PER_REQUEST
    ensures slot == -1 || 0 <= slot < PHYSICAL_BLOCKS * BLOCK_SIZE
  {
    if !(0 <= request < BATCH && 0 <= position < LOGICAL_CAPACITY) then -1
    else if position / BLOCK_SIZE >= BLOCKS_PER_REQUEST then -1
    else
      var physical := blockTable[request * BLOCKS_PER_REQUEST + position / BLOCK_SIZE];
      if !(0 <= physical < PHYSICAL_BLOCKS) then -1
      else physical * BLOCK_SIZE + position % BLOCK_SIZE
  }

  function CountActive(active: seq<int>): (n: nat)
    ensures n <= |active|
    ensures n == 0 <==> forall i :: 0 <= i < |active| ==> active[i] == 0
  {
    if active == [] then 0
    else CountActive(active[..|active| - 1]) + if active[|active| - 1] != 0 then 1 else 0
  }
}
