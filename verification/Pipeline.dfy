/** Event flags between hardware pipes that hand buffers back and forth: one buffer in program order, and a whole program
    whose pipes run on their own. */
module Pipeline {
  // ----- one buffer, in program order

  datatype Stage = Empty | Filling | Full | Reading

  /** A buffer and its two event flags: `free` tells the writer it may refill, `ready` tells the reader it may read.
      A flag is the number of its outstanding sets. */
  datatype Buffer<T(==)> = Buffer(stage: Stage, free: nat, ready: nat, content: T) {
    /** Each flag is set at most once, and exactly in its own stage. */
    predicate Valid() {
      && free == (if stage.Empty? then 1 else 0)
      && ready == (if stage.Full? then 1 else 0)
    }

    /** The writer waits for the free flag. */
    function WaitFree(): (b: Buffer<T>)
      requires Valid() && free == 1
      ensures b.Valid() && b.stage.Filling? && b.content == content
    {
      Buffer(Filling, 0, ready, content)
    }

    /** The writer has filled the buffer and sets the ready flag. */
    function SetReady(c: T): (b: Buffer<T>)
      requires Valid() && stage.Filling? && ready == 0
      ensures b.Valid() && b.stage.Full? && b.content == c
    {
      Buffer(Full, free, 1, c)
    }

    /** The reader waits for the ready flag. */
    function WaitReady(): (b: Buffer<T>)
      requires Valid() && ready == 1
      ensures b.Valid() && b.stage.Reading? && b.content == content
    {
      Buffer(Reading, free, 0, content)
    }

    /** The reader is done and sets the free flag. */
    function SetFree(): (b: Buffer<T>)
      requires Valid() && stage.Reading? && free == 0
      ensures b.Valid() && b.stage.Empty? && b.content == content
    {
      Buffer(Empty, 1, ready, content)
    }

    /** The operation is the next one in program order. */
    predicate Can(op: Operation<T>) {
      match op
      case WaitsFree => stage.Empty?
      case SetsReady(_) => stage.Filling?
      case WaitsReady(found) => stage.Full? && found == content
      case SetsFree => stage.Reading?
    }

    function Do(op: Operation<T>): (b: Buffer<T>)
      requires Valid() && Can(op)
      ensures b.Valid()
    {
      match op
      case WaitsFree => WaitFree()
      case SetsReady(filled) => SetReady(filled)
      case WaitsReady(_) => WaitReady()
      case SetsFree => SetFree()
    }

    /** No set is outstanding. */
    predicate Drained() { free == 0 && ready == 0 }
  }

  /** A buffer before its first flag is set. */
  function Untouched<T>(c: T): (b: Buffer<T>)
    ensures b.Valid() && b.stage.Reading?
  {
    Buffer(Reading, 0, 0, c)
  }

  // ----- programs

  datatype Pipe = MTE2 | MTE1 | M | FIX

  type Half = h: int | 0 <= h < 2 witness 0

  /** The buffers of a core: two sides of each input, two halves of the cube unit's operands, and the accumulator. */
  datatype Slot = Left(side: Half) | Right(side: Half) | Cube(half: Half) | Out

  function Writer(s: Slot): Pipe { if s.Out? then M else if s.Cube? then MTE1 else MTE2 }

  function Reader(s: Slot): Pipe { if s.Out? then FIX else if s.Cube? then M else MTE1 }

  /** What a pipe does with a buffer's flags; `filled` and `found` are what the buffer holds at the time, in program order. */
  datatype Operation<T> = WaitsFree | SetsReady(filled: T) | WaitsReady(found: T) | SetsFree {
    predicate OfWriter() { WaitsFree? || SetsReady? }
  }

  datatype Instruction<T> = Instruction(slot: Slot, op: Operation<T>) {
    /** The source pipe of a flag executes its sets, the destination pipe its waits. */
    function By(): Pipe { if op.OfWriter() then Writer(slot) else Reader(slot) }
  }

  /** The instructions of one pipe, in order. */
  function ByPipe<T>(run: seq<Instruction<T>>, p: Pipe): seq<Instruction<T>> {
    if run == [] then []
    else
      var x := run[|run| - 1];
      if x.By() == p then ByPipe(run[..|run| - 1], p) + [x] else ByPipe(run[..|run| - 1], p)
  }

  /** What the writer (or the reader) of a buffer does with it, in order. */
  function Ops<T>(run: seq<Instruction<T>>, s: Slot, writer: bool): seq<Operation<T>> {
    if run == [] then []
    else
      var x := run[|run| - 1];
      if x.slot == s && x.op.OfWriter() == writer then Ops(run[..|run| - 1], s, writer) + [x.op] else Ops(run[..|run| - 1], s, writer)
  }

  /** How often each flag operation of a buffer has been executed. */
  datatype Counts = Counts(waitedFree: nat, setReady: nat, waitedReady: nat, setFree: nat)

  function Count<T>(c: Counts, op: Operation<T>): Counts {
    match op
    case WaitsFree => c.(waitedFree := c.waitedFree + 1)
    case SetsReady(_) => c.(setReady := c.setReady + 1)
    case WaitsReady(_) => c.(waitedReady := c.waitedReady + 1)
    case SetsFree => c.(setFree := c.setFree + 1)
  }

  function CountsOn<T>(run: seq<Instruction<T>>, s: Slot): Counts {
    if run == [] then Counts(0, 0, 0, 0)
    else
      var x := run[|run| - 1];
      if x.slot == s then Count(CountsOn(run[..|run| - 1], s), x.op) else CountsOn(run[..|run| - 1], s)
  }

  /** A wait passes only on an outstanding set. */
  predicate Passes<T>(c: Counts, op: Operation<T>) {
    && (op.WaitsFree? ==> c.setFree > c.waitedFree)
    && (op.WaitsReady? ==> c.setReady > c.waitedReady)
  }

  ghost predicate AllPass<T>(run: seq<Instruction<T>>) {
    forall n: nat | n < |run| :: Passes(CountsOn(run[..n], run[n].slot), run[n].op)
  }

  /** The pipes run on their own: any interleaving in which every pipe keeps its own order and every wait passes. */
  ghost predicate Execution<T>(program: seq<Instruction<T>>, run: seq<Instruction<T>>) {
    (forall p: Pipe :: ByPipe(run, p) <= ByPipe(program, p)) && AllPass(run)
  }

  /** The two pipes of a buffer take turns: the writer waits and sets, the reader, after a first set, waits and sets;
      and the reader is meant to find what the writer has filled. */
  ghost predicate TakeTurns<T>(w: seq<Operation<T>>, r: seq<Operation<T>>) {
    && (forall i: nat | i < |w| :: if i % 2 == 0 then w[i].WaitsFree? else w[i].SetsReady?)
    && (forall i: nat | i < |r| :: if i % 2 == 0 then r[i].SetsFree? else r[i].WaitsReady? && i < |w| && w[i].SetsReady? && r[i].found == w[i].filled)
  }

  /** A program that works in its own order. */
  ghost predicate Program<T>(program: seq<Instruction<T>>) {
    AllPass(program) && forall s: Slot :: TakeTurns(Ops(program, s, true), Ops(program, s, false))
  }

  // ----- counting

  /** Prefixes of what the two pipes do with a buffer. */
  ghost predicate Turned<T>(w: seq<Operation<T>>, r: seq<Operation<T>>) {
    && (forall i: nat | i < |w| :: if i % 2 == 0 then w[i].WaitsFree? else w[i].SetsReady?)
    && (forall i: nat | i < |r| :: if i % 2 == 0 then r[i].SetsFree? else r[i].WaitsReady?)
  }

  /** Counts after `w` operations of the writer and `r` of the reader. */
  function CountsAfter(w: nat, r: nat): Counts { Counts((w + 1) / 2, w / 2, r / 2, (r + 1) / 2) }

  lemma WriterCounts<T>(w: nat, r: nat, op: Operation<T>)
    requires if w % 2 == 0 then op.WaitsFree? else op.SetsReady?
    ensures Count(CountsAfter(w, r), op) == CountsAfter(w + 1, r)
  {
  }

  lemma ReaderCounts<T>(w: nat, r: nat, op: Operation<T>)
    requires if r % 2 == 0 then op.SetsFree? else op.WaitsReady?
    ensures Count(CountsAfter(w, r), op) == CountsAfter(w, r + 1)
  {
  }

  lemma {:induction false} CountsAre<T>(run: seq<Instruction<T>>, s: Slot)
    requires Turned(Ops(run, s, true), Ops(run, s, false))
    ensures CountsOn(run, s) == CountsAfter(|Ops(run, s, true)|, |Ops(run, s, false)|)
  {
    if run != [] {
      var n := |run| - 1;
      OpsNext(run, n, s);
      assert run[..n + 1] == run;
      CountsAre(run[..n], s);
      var w, r := Ops(run[..n], s, true), Ops(run[..n], s, false);
      if run[n].slot == s {
        if run[n].op.OfWriter() {
          assert Ops(run, s, true)[|w|] == run[n].op;
          WriterCounts(|w|, |r|, run[n].op);
        } else {
          assert Ops(run, s, false)[|r|] == run[n].op;
          ReaderCounts(|w|, |r|, run[n].op);
        }
      }
    }
  }

  /** One more instruction. */
  lemma OpsNext<T>(run: seq<Instruction<T>>, n: nat, s: Slot)
    requires n < |run|
    ensures forall writer: bool ::
              Ops(run[..n + 1], s, writer) ==
              if run[n].slot == s && run[n].op.OfWriter() == writer then Ops(run[..n], s, writer) + [run[n].op] else Ops(run[..n], s, writer)
    ensures forall writer: bool :: Ops(run[..n], s, writer) <= Ops(run[..n + 1], s, writer)
  {
    assert run[..n + 1][..n] == run[..n];
  }

  /** What a pipe does with a buffer is part of what the pipe does. */
  lemma {:induction false} OpsByPipe<T>(run: seq<Instruction<T>>, s: Slot, writer: bool)
    ensures Ops(run, s, writer) == Ops(ByPipe(run, if writer then Writer(s) else Reader(s)), s, writer)
  {
    if run != [] {
      var n, p := |run| - 1, if writer then Writer(s) else Reader(s);
      OpsByPipe(run[..n], s, writer);
      if run[n].By() == p {
        var all := ByPipe(run, p);
        assert all[..|all| - 1] == ByPipe(run[..n], p);
      }
    }
  }

  lemma {:induction false} OpsPrefix<T>(a: seq<Instruction<T>>, b: seq<Instruction<T>>, s: Slot, writer: bool)
    requires a <= b
    ensures Ops(a, s, writer) <= Ops(b, s, writer)
    decreases |b|
  {
    if |a| < |b| {
      OpsPrefix(a, b[..|b| - 1], s, writer);
    } else {
      assert a == b;
    }
  }

  /** In an execution both pipes of a buffer have done a prefix of what they do in the program. */
  lemma OpsOfExecution<T>(program: seq<Instruction<T>>, run: seq<Instruction<T>>, s: Slot, writer: bool)
    requires forall p: Pipe :: ByPipe(run, p) <= ByPipe(program, p)
    ensures Ops(run, s, writer) <= Ops(program, s, writer)
  {
    var p := if writer then Writer(s) else Reader(s);
    OpsByPipe(run, s, writer);
    OpsByPipe(program, s, writer);
    OpsPrefix(ByPipe(run, p), ByPipe(program, p), s, writer);
  }

  lemma {:induction false} ByPipePrefix<T>(a: seq<Instruction<T>>, b: seq<Instruction<T>>, p: Pipe)
    requires a <= b
    ensures ByPipe(a, p) <= ByPipe(b, p)
    decreases |b|
  {
    if |a| < |b| {
      ByPipePrefix(a, b[..|b| - 1], p);
    } else {
      assert a == b;
    }
  }

  lemma EarlierExecution<T>(program: seq<Instruction<T>>, run: seq<Instruction<T>>, n: nat)
    requires Execution(program, run) && n <= |run|
    ensures Execution(program, run[..n])
  {
    forall p: Pipe
      ensures ByPipe(run[..n], p) <= ByPipe(program, p)
    {
      ByPipePrefix(run[..n], run, p);
    }
    forall i: nat | i < n
      ensures Passes(CountsOn(run[..n][..i], run[..n][i].slot), run[..n][i].op)
    {
      assert run[..n][..i] == run[..i];
    }
  }

  // ----- safety

  predicate InWriter(c: Counts) { c.waitedFree == c.setReady + 1 }

  predicate InReader(c: Counts) { c.setFree == c.waitedReady && c.waitedReady > 0 }

  /** How far writer and reader of a buffer can be apart. */
  ghost predicate Ordered(w: nat, r: nat) { w <= r + 1 && r <= w + 1 && (r == w + 1 ==> w % 2 == 0) && (w == r + 1 ==> w % 2 == 0) }

  lemma TurnedPrefix<T>(w: seq<Operation<T>>, r: seq<Operation<T>>, w0: seq<Operation<T>>, r0: seq<Operation<T>>)
    requires TakeTurns(w0, r0) && w <= w0 && r <= r0
    ensures Turned(w, r)
  {
  }

  /** A writer's operation that passes keeps the order, and so does a reader's. */
  lemma WriterStays<T>(w: nat, r: nat, op: Operation<T>)
    requires Ordered(w, r) && Passes(CountsAfter(w, r), op) && (if w % 2 == 0 then op.WaitsFree? else op.SetsReady?)
    ensures Ordered(w + 1, r)
  {
  }

  lemma ReaderStays<T>(w: nat, r: nat, op: Operation<T>)
    requires Ordered(w, r) && Passes(CountsAfter(w, r), op) && (if r % 2 == 0 then op.SetsFree? else op.WaitsReady?)
    ensures Ordered(w, r + 1)
  {
  }

  /** One more instruction of an execution, as the buffer sees it. */
  lemma OrderedNext<T>(run: seq<Instruction<T>>, n: nat, s: Slot)
    requires n < |run| && Turned(Ops(run[..n + 1], s, true), Ops(run[..n + 1], s, false)) && Turned(Ops(run[..n], s, true), Ops(run[..n], s, false))
    requires Ordered(|Ops(run[..n], s, true)|, |Ops(run[..n], s, false)|) && Passes(CountsOn(run[..n], run[n].slot), run[n].op)
    ensures Ordered(|Ops(run[..n + 1], s, true)|, |Ops(run[..n + 1], s, false)|)
  {
    OpsNext(run, n, s);
    CountsAre(run[..n], s);
    var w, r := Ops(run[..n], s, true), Ops(run[..n], s, false);
    if run[n].slot == s {
      if run[n].op.OfWriter() {
        assert Ops(run[..n + 1], s, true)[|w|] == run[n].op;
        WriterStays(|w|, |r|, run[n].op);
      } else {
        assert Ops(run[..n + 1], s, false)[|r|] == run[n].op;
        ReaderStays(|w|, |r|, run[n].op);
      }
    }
  }

  lemma TurnedHere<T>(program: seq<Instruction<T>>, run: seq<Instruction<T>>, s: Slot)
    requires Program(program) && Execution(program, run)
    ensures Turned(Ops(run, s, true), Ops(run, s, false))
  {
    OpsOfExecution(program, run, s, true);
    OpsOfExecution(program, run, s, false);
    TurnedPrefix(Ops(run, s, true), Ops(run, s, false), Ops(program, s, true), Ops(program, s, false));
  }

  lemma {:induction false} StaysOrdered<T>(program: seq<Instruction<T>>, run: seq<Instruction<T>>, s: Slot)
    requires Program(program) && Execution(program, run)
    ensures Turned(Ops(run, s, true), Ops(run, s, false)) && Ordered(|Ops(run, s, true)|, |Ops(run, s, false)|)
    decreases |run|
  {
    TurnedHere(program, run, s);
    if run != [] {
      var n := |run| - 1;
      EarlierExecution(program, run, n);
      StaysOrdered(program, run[..n], s);
      assert run[..n + 1] == run;
      OrderedNext(run, n, s);
    }
  }

  /** What the reader of a buffer sees while it is in it. */
  ghost predicate FindsItsFill<T>(run: seq<Instruction<T>>, s: Slot) {
    var w, r := Ops(run, s, true), Ops(run, s, false);
    |r| > 0 && |w| == |r| && r[|r| - 1].WaitsReady? && w[|w| - 1].SetsReady? && r[|r| - 1].found == w[|w| - 1].filled
  }

  /** A buffer in an execution: no flag has more than one outstanding set, writer and reader are never in the buffer
      together, and a reader in it finds what the program says, which is what was filled last. */
  ghost predicate SafeAt<T>(run: seq<Instruction<T>>, s: Slot) {
    var c := CountsOn(run, s);
    && 0 <= c.setFree - c.waitedFree <= 1 && 0 <= c.setReady - c.waitedReady <= 1
    && !(InWriter(c) && InReader(c))
    && (InReader(c) ==> FindsItsFill(run, s))
  }

  /** However the pipes interleave, every buffer is safe at every time. */
  lemma ExecutionIsSafe<T>(program: seq<Instruction<T>>, run: seq<Instruction<T>>, s: Slot)
    requires Program(program) && Execution(program, run)
    ensures SafeAt(run, s)
  {
    StaysOrdered(program, run, s);
    CountsAre(run, s);
    if InReader(CountsOn(run, s)) {
      OpsOfExecution(program, run, s, true);
      OpsOfExecution(program, run, s, false);
      LastFind(Ops(run, s, true), Ops(run, s, false), Ops(program, s, true), Ops(program, s, false));
    }
  }

  lemma LastFind<T>(w: seq<Operation<T>>, r: seq<Operation<T>>, w0: seq<Operation<T>>, r0: seq<Operation<T>>)
    requires TakeTurns(w0, r0) && w <= w0 && r <= r0 && Ordered(|w|, |r|)
    requires InReader(CountsAfter(|w|, |r|))
    ensures |r| > 0 && |w| == |r| && r[|r| - 1].WaitsReady? && w[|w| - 1].SetsReady? && r[|r| - 1].found == w[|w| - 1].filled
  {
    assert r[|r| - 1] == r0[|r| - 1] && w[|w| - 1] == w0[|w| - 1];
  }

  // ----- progress

  /** Everything before instruction `i` of the program has been executed. */
  ghost predicate DoneBefore<T>(program: seq<Instruction<T>>, run: seq<Instruction<T>>, i: nat)
    requires i <= |program|
  {
    forall p: Pipe :: ByPipe(program[..i], p) <= ByPipe(run, p)
  }

  lemma {:induction false} PipesAddUp<T>(run: seq<Instruction<T>>)
    ensures |run| == |ByPipe(run, MTE2)| + |ByPipe(run, MTE1)| + |ByPipe(run, M)| + |ByPipe(run, FIX)|
  {
    if run != [] { PipesAddUp(run[..|run| - 1]); }
  }

  lemma ByPipeNext<T>(run: seq<Instruction<T>>, n: nat, p: Pipe)
    requires n < |run|
    ensures ByPipe(run[..n + 1], p) == if run[n].By() == p then ByPipe(run[..n], p) + [run[n]] else ByPipe(run[..n], p)
  {
    assert run[..n + 1][..n] == run[..n];
  }

  /** A run that is shorter than the program is behind on some pipe. */
  lemma Behind<T>(program: seq<Instruction<T>>, run: seq<Instruction<T>>) returns (p: Pipe)
    requires |run| < |program|
    ensures |ByPipe(run, p)| < |ByPipe(program, p)|
  {
    PipesAddUp(program);
    PipesAddUp(run);
    p := if |ByPipe(run, MTE2)| < |ByPipe(program, MTE2)| then MTE2
         else if |ByPipe(run, MTE1)| < |ByPipe(program, MTE1)| then MTE1
         else if |ByPipe(run, M)| < |ByPipe(program, M)| then M
         else FIX;
  }

  lemma NotDone<T>(program: seq<Instruction<T>>, run: seq<Instruction<T>>)
    requires |run| < |program|
    ensures !DoneBefore(program, run, |program|)
  {
    var p := Behind(program, run);
    assert program[..|program|] == program;
    assert !(ByPipe(program[..|program|], p) <= ByPipe(run, p));
  }

  /** The earliest instruction, in program order, that has not been executed. */
  lemma {:induction false} Earliest<T>(program: seq<Instruction<T>>, run: seq<Instruction<T>>, i: nat) returns (j: nat)
    requires Execution(program, run) && |run| < |program| && i <= |program| && DoneBefore(program, run, i)
    ensures j < |program| && DoneBefore(program, run, j) && ByPipe(run, program[j].By()) == ByPipe(program[..j], program[j].By())
    decreases |program| - i
  {
    NotDone(program, run);
    var p := program[i].By();
    ByPipePrefix(program[..i], program, p);
    if ByPipe(run, p) == ByPipe(program[..i], p) {
      j := i;
    } else {
      OneMoreDone(program, run, i);
      j := Earliest(program, run, i + 1);
    }
  }

  lemma OneMoreDone<T>(program: seq<Instruction<T>>, run: seq<Instruction<T>>, i: nat)
    requires Execution(program, run) && i < |program| && DoneBefore(program, run, i)
    requires ByPipe(run, program[i].By()) != ByPipe(program[..i], program[i].By())
    ensures DoneBefore(program, run, i + 1)
  {
    forall p: Pipe
      ensures ByPipe(program[..i + 1], p) <= ByPipe(run, p)
    {
      ByPipeNext(program, i, p);
      ByPipePrefix(program[..i + 1], program, p);
      assert ByPipe(program[..i], p) <= ByPipe(run, p) <= ByPipe(program, p);
    }
  }

  /** Nothing blocks for ever: as long as the program is not done, its earliest open instruction can be executed next. */
  lemma NeverBlocks<T>(program: seq<Instruction<T>>, run: seq<Instruction<T>>) returns (x: Instruction<T>)
    requires Program(program) && Execution(program, run) && |run| < |program|
    ensures Execution(program, run + [x])
  {
    assert program[..0] == [];
    var j := Earliest(program, run, 0);
    x := program[j];
    CanPass(program, run, j);
    Extends(program, run, j);
  }

  lemma CanPass<T>(program: seq<Instruction<T>>, run: seq<Instruction<T>>, j: nat)
    requires Program(program) && Execution(program, run) && j < |program| && DoneBefore(program, run, j)
    requires ByPipe(run, program[j].By()) == ByPipe(program[..j], program[j].By())
    ensures Passes(CountsOn(run, program[j].slot), program[j].op)
  {
    var s, op := program[j].slot, program[j].op;
    var before := program[..j];
    forall writer: bool
      ensures Ops(before, s, writer) <= Ops(run, s, writer) && (writer == op.OfWriter() ==> Ops(before, s, writer) == Ops(run, s, writer))
    {
      var p := if writer then Writer(s) else Reader(s);
      OpsByPipe(before, s, writer);
      OpsByPipe(run, s, writer);
      OpsPrefix(ByPipe(before, p), ByPipe(run, p), s, writer);
    }
    TurnedHere(program, run, s);
    TurnedBefore(Ops(before, s, true), Ops(before, s, false), Ops(run, s, true), Ops(run, s, false));
    CountsAre(run, s);
    CountsAre(before, s);
    StillPasses(|Ops(before, s, true)|, |Ops(before, s, false)|, |Ops(run, s, true)|, |Ops(run, s, false)|, op);
  }

  lemma TurnedBefore<T>(w: seq<Operation<T>>, r: seq<Operation<T>>, w1: seq<Operation<T>>, r1: seq<Operation<T>>)
    requires Turned(w1, r1) && w <= w1 && r <= r1
    ensures Turned(w, r)
  {
  }

  /** A wait that passed still passes when the other pipe has gone further. */
  lemma StillPasses<T>(w: nat, r: nat, w1: nat, r1: nat, op: Operation<T>)
    requires Passes(CountsAfter(w, r), op) && w <= w1 && r <= r1 && if op.OfWriter() then w == w1 else r == r1
    ensures Passes(CountsAfter(w1, r1), op)
  {
  }

  lemma Extends<T>(program: seq<Instruction<T>>, run: seq<Instruction<T>>, j: nat)
    requires Execution(program, run) && j < |program| && Passes(CountsOn(run, program[j].slot), program[j].op)
    requires ByPipe(run, program[j].By()) == ByPipe(program[..j], program[j].By())
    ensures Execution(program, run + [program[j]])
  {
    var longer := run + [program[j]];
    assert longer[..|run|] == run;
    forall p: Pipe
      ensures ByPipe(longer, p) <= ByPipe(program, p)
    {
      ByPipeNext(longer, |run|, p);
      assert longer[..|run| + 1] == longer;
      ByPipeNext(program, j, p);
      ByPipePrefix(program[..j + 1], program, p);
    }
    forall n: nat | n < |longer|
      ensures Passes(CountsOn(longer[..n], longer[n].slot), longer[n].op)
    {
      if n < |run| { assert longer[..n] == run[..n]; }
    }
  }

  lemma SameLength<T>(a: seq<T>, b: seq<T>)
    requires a <= b && |b| <= |a|
    ensures a == b
  {
  }

  lemma SamePipe<T>(program: seq<Instruction<T>>, run: seq<Instruction<T>>, p: Pipe)
    requires (forall p: Pipe :: ByPipe(run, p) <= ByPipe(program, p)) && |run| == |program|
    ensures ByPipe(run, p) == ByPipe(program, p)
  {
    PipesAddUp(program);
    PipesAddUp(run);
    assert |ByPipe(run, MTE2)| <= |ByPipe(program, MTE2)| && |ByPipe(run, MTE1)| <= |ByPipe(program, MTE1)|;
    assert |ByPipe(run, M)| <= |ByPipe(program, M)| && |ByPipe(run, FIX)| <= |ByPipe(program, FIX)|;
    SameLength(ByPipe(run, p), ByPipe(program, p));
  }

  /** When the program is done, every flag stands where it stands in program order. */
  lemma DoneIsDone<T>(program: seq<Instruction<T>>, run: seq<Instruction<T>>, s: Slot)
    requires Program(program) && Execution(program, run) && |run| == |program|
    ensures CountsOn(run, s) == CountsOn(program, s)
  {
    forall writer: bool
      ensures Ops(run, s, writer) == Ops(program, s, writer)
    {
      var p := if writer then Writer(s) else Reader(s);
      OpsByPipe(run, s, writer);
      OpsByPipe(program, s, writer);
      SamePipe(program, run, p);
    }
    TurnedHere(program, run, s);
    CountsAre(run, s);
    CountsAre(program, s);
  }

  // ----- all of it together

  /** Every flag the program sets it also waits for. */
  ghost predicate Drains<T>(run: seq<Instruction<T>>) {
    forall s: Slot :: CountsOn(run, s).setFree == CountsOn(run, s).waitedFree && CountsOn(run, s).setReady == CountsOn(run, s).waitedReady
  }

  /** An execution is safe in every buffer, can go on until the program is done, and then has drained every flag. */
  ghost predicate RunsWell<T(!new)>(program: seq<Instruction<T>>, run: seq<Instruction<T>>) {
    && (forall s: Slot :: SafeAt(run, s))
    && |run| <= |program|
    && (|run| < |program| ==> exists x: Instruction<T> :: Execution(program, run + [x]))
    && (|run| == |program| ==> Drains(run))
  }

  lemma NotLonger<T>(program: seq<Instruction<T>>, run: seq<Instruction<T>>)
    requires forall p: Pipe :: ByPipe(run, p) <= ByPipe(program, p)
    ensures |run| <= |program|
  {
    if |run| > |program| {
      var p := Behind(run, program);
    }
  }

  lemma DrainsToo<T>(program: seq<Instruction<T>>, run: seq<Instruction<T>>)
    requires Program(program) && Drains(program) && Execution(program, run) && |run| == |program|
    ensures Drains(run)
  {
    forall s: Slot
      ensures CountsOn(run, s) == CountsOn(program, s)
    {
      DoneIsDone(program, run, s);
    }
  }

  /** Every interleaving of the pipes of such a program runs well. */
  lemma EveryExecutionRunsWell<T(!new)>(program: seq<Instruction<T>>, run: seq<Instruction<T>>)
    requires Program(program) && Drains(program) && Execution(program, run)
    ensures RunsWell(program, run)
  {
    forall s: Slot
      ensures SafeAt(run, s)
    {
      ExecutionIsSafe(program, run, s);
    }
    NotLonger(program, run);
    if |run| < |program| {
      var x := NeverBlocks(program, run);
    } else {
      DrainsToo(program, run);
    }
  }

  // ----- programs written in order

  /** What the two pipes have done with a buffer, in program order, and the state that has brought it to. */
  ghost predicate Reached<T>(w: seq<Operation<T>>, r: seq<Operation<T>>, b: Buffer<T>) {
    && b.Valid() && TakeTurns(w, r)
    && match b.stage
       case Empty => |r| == |w| + 1 && |w| % 2 == 0
       case Filling => |w| == |r| && |w| % 2 == 1
       case Full => |w| == |r| + 1 && |w| % 2 == 0 && w[|w| - 1].SetsReady? && w[|w| - 1].filled == b.content
       case Reading => |w| == |r| && |w| % 2 == 0
  }

  ghost predicate Recorded<T>(log: seq<Instruction<T>>, s: Slot, b: Buffer<T>) { Reached(Ops(log, s, true), Ops(log, s, false), b) }

  lemma WriterReaches<T>(w: seq<Operation<T>>, r: seq<Operation<T>>, b: Buffer<T>, op: Operation<T>)
    requires Reached(w, r, b) && b.Can(op) && op.OfWriter()
    ensures Reached(w + [op], r, b.Do(op)) && Passes(CountsAfter(|w|, |r|), op)
  {
  }

  lemma ReaderReaches<T>(w: seq<Operation<T>>, r: seq<Operation<T>>, b: Buffer<T>, op: Operation<T>)
    requires Reached(w, r, b) && b.Can(op) && !op.OfWriter()
    ensures Reached(w, r + [op], b.Do(op)) && Passes(CountsAfter(|w|, |r|), op)
  {
  }

  lemma RecordedCounts<T>(log: seq<Instruction<T>>, s: Slot, b: Buffer<T>)
    requires Recorded(log, s, b)
    ensures CountsOn(log, s) == CountsAfter(|Ops(log, s, true)|, |Ops(log, s, false)|)
    ensures b.Drained() ==> CountsOn(log, s).setFree == CountsOn(log, s).waitedFree && CountsOn(log, s).setReady == CountsOn(log, s).waitedReady
  {
    CountsAre(log, s);
  }

  lemma AppendOps<T>(log: seq<Instruction<T>>, x: Instruction<T>, s: Slot)
    ensures forall writer: bool ::
              Ops(log + [x], s, writer) == if x.slot == s && x.op.OfWriter() == writer then Ops(log, s, writer) + [x.op] else Ops(log, s, writer)
  {
    assert (log + [x])[..|log|] == log;
  }

  lemma AppendPasses<T>(log: seq<Instruction<T>>, x: Instruction<T>)
    requires AllPass(log) && Passes(CountsOn(log, x.slot), x.op)
    ensures AllPass(log + [x])
  {
    var longer := log + [x];
    forall n: nat | n < |longer|
      ensures Passes(CountsOn(longer[..n], longer[n].slot), longer[n].op)
    {
      if n < |log| { assert longer[..n] == log[..n]; } else { assert longer[..n] == log; }
    }
  }

  /** The next operation of a buffer, in program order, keeps the log a program. */
  lemma Record<T>(log: seq<Instruction<T>>, s: Slot, b: Buffer<T>, op: Operation<T>)
    requires AllPass(log) && Recorded(log, s, b) && b.Can(op)
    ensures AllPass(log + [Instruction(s, op)]) && Recorded(log + [Instruction(s, op)], s, b.Do(op))
  {
    RecordedCounts(log, s, b);
    AppendOps(log, Instruction(s, op), s);
    if op.OfWriter() {
      WriterReaches(Ops(log, s, true), Ops(log, s, false), b, op);
    } else {
      ReaderReaches(Ops(log, s, true), Ops(log, s, false), b, op);
    }
    AppendPasses(log, Instruction(s, op));
  }

  /** It is nothing to the other buffers. */
  lemma RecordElsewhere<T>(log: seq<Instruction<T>>, s: Slot, op: Operation<T>, t: Slot, c: Buffer<T>)
    requires t != s && Recorded(log, t, c)
    ensures Recorded(log + [Instruction(s, op)], t, c)
  {
    AppendOps(log, Instruction(s, op), t);
  }

  /** A log that has brought a buffer to a state takes turns there. */
  lemma RecordedTurns<T>(log: seq<Instruction<T>>, s: Slot, b: Buffer<T>)
    requires Recorded(log, s, b)
    ensures TakeTurns(Ops(log, s, true), Ops(log, s, false))
  {
  }

  lemma NothingRecorded<T>(s: Slot, c: T)
    ensures AllPass<T>([]) && Recorded<T>([], s, Untouched(c))
  {
  }
}
