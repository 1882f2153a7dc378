/**
 * The completion handler ADC12ISR and the four result rings it fills.
 * Each end-of-sequence interrupt copies the results of memory buffers 0..3
 * into A0results..A3results at one shared index, then advances the index,
 * wrapping it to 0 at Num_of_Results.
 */
module Results {
  import Adc12B

  /** Num_of_Results: the depth of every result ring. */
  const Depth: nat := 8

  /** A0results..A3results: one ring per scanned input. */
  const Channels: nat := 4

  /** The ADC12IV value the handler acts on: ADC12IFG3, the end-of-sequence slot. */
  const HandledVector: int := 12

  /** What an ADC12IV value reports, as listed in the handler's switch. */
  datatype Source =
    | NoInterrupt
    | Overflow
    | TimingOverflow
    | MemoryFlag(flag: nat)   // ADC12IFGk
    | Unlisted                // reaches the `default` case

  /** The ADC12IV value of flag ADC12IFGk, for the flags the switch lists (0..14). */
  function VectorOfFlag(k: nat): int
    requires k <= 14
  {
    6 + 2 * k
  }

  /** Decodes an ADC12IV value: 0, 2, 4 are status vectors, 6 + 2k is ADC12IFGk up to 34. */
  function SourceOf(vector: int): (s: Source)
    ensures s.MemoryFlag? ==> s.flag <= 14 && VectorOfFlag(s.flag) == vector
  {
    if vector == 0 then NoInterrupt
    else if vector == 2 then Overflow
    else if vector == 4 then TimingOverflow
    else if 6 <= vector <= 34 && vector % 2 == 0 then MemoryFlag((vector - 6) / 2)
    else Unlisted
  }

  lemma FlagVectorRoundTrip(k: nat)
    requires k <= 14
    ensures SourceOf(VectorOfFlag(k)) == MemoryFlag(k)
  {
  }

  /** The handler acts on exactly the vector of ADC12IFG3. */
  lemma HandledVectorIsFlag3(vector: int)
    ensures SourceOf(vector) == MemoryFlag(3) <==> vector == HandledVector
  {
  }

  /** The results of memory buffers 0..3 at the end of one scan cycle. */
  datatype Conversions = Conversions(mem0: bv16, mem1: bv16, mem2: bv16, mem3: bv16) {
    /** The result destined for ring `c`, that of memory buffer c. */
    function Mem(c: nat): bv16
      requires c < Channels
    {
      match c
      case 0 => mem0
      case 1 => mem1
      case 2 => mem2
      case _ => mem3
    }
  }

  /**
   * The value of the rings and the shared index: `rings[c]` is the contents of
   * A<c>results and `index` the handler's static index.
   */
  datatype History = History(rings: seq<seq<bv16>>, index: nat) {
    predicate Valid() {
      && |rings| == Channels
      && (forall c :: 0 <= c < Channels ==> |rings[c]| == Depth)
      && index < Depth
    }
  }

  /** The state at program start: zero-initialised arrays, index 0. */
  const Zeros: seq<bv16> := [0, 0, 0, 0, 0, 0, 0, 0]
  const Reset := History([Zeros, Zeros, Zeros, Zeros], 0)

  /** `index++`, then back to 0 when it reaches Num_of_Results. */
  function Advance(i: nat): (r: nat)
    requires i < Depth
    ensures r < Depth && r == (i + 1) % Depth
  {
    if i + 1 == Depth then 0 else i + 1
  }

  /** One run of the handler on vector `vector` with converter results `x`. */
  function Step(h: History, vector: int, x: Conversions): (r: History)
    requires h.Valid()
    ensures r.Valid()
  {
    if vector != HandledVector then h
    else
      var i := h.index;
      History([h.rings[0][i := x.mem0], h.rings[1][i := x.mem1],
               h.rings[2][i := x.mem2], h.rings[3][i := x.mem3]],
              Advance(i))
  }

  /**
   * One handler run: on the end-of-sequence vector, position `i` of every ring
   * receives its buffer's result, no other position changes, and the index
   * moves on by one modulo the depth; on every other vector nothing changes.
   */
  lemma StepEffect(h: History, vector: int, x: Conversions)
    requires h.Valid()
    ensures vector != HandledVector ==> Step(h, vector, x) == h
    ensures vector == HandledVector ==>
      && Step(h, vector, x).index == (h.index + 1) % Depth
      && forall c, j :: 0 <= c < Channels && 0 <= j < Depth ==>
           Step(h, vector, x).rings[c][j] == if j == h.index then x.Mem(c) else h.rings[c][j]
  {
  }

  /** The state after the handler has served `cycles` end-of-sequence interrupts, in order. */
  function Run(h: History, cycles: seq<Conversions>): (r: History)
    requires h.Valid()
    ensures r.Valid()
    decreases |cycles|
  {
    if cycles == [] then h
    else Step(Run(h, cycles[..|cycles| - 1]), HandledVector, cycles[|cycles| - 1])
  }

  /** The ring position written by the k-th cycle after a start at index `start`. */
  function PositionOf(start: nat, k: nat): nat {
    (start + k) % Depth
  }

  /**
   * The latest of the first `n` cycles that writes position `j` after a start
   * at index `start`, or -1 when none of them does.
   */
  function Latest(start: nat, n: nat, j: nat): (r: int)
    ensures -1 <= r < n
    ensures r >= 0 ==> PositionOf(start, r) == j
    ensures forall k :: r < k < n ==> PositionOf(start, k) != j
  {
    if n == 0 then -1
    else if PositionOf(start, n - 1) == j then n - 1
    else Latest(start, n - 1, j)
  }

  /** Advancing from the position of cycle n gives the position of cycle n + 1. */
  lemma AdvancePosition(start: nat, n: nat)
    ensures Advance(PositionOf(start, n)) == PositionOf(start, n + 1)
  {
  }

  /** After `cycles`, the index has moved on by their number, modulo the depth. */
  lemma {:induction false} RunIndex(h: History, cycles: seq<Conversions>)
    requires h.Valid()
    ensures Run(h, cycles).index == PositionOf(h.index, |cycles|)
    decreases |cycles|
  {
    if cycles != [] {
      var n := |cycles|;
      RunIndex(h, cycles[..n - 1]);
      AdvancePosition(h.index, n - 1);
    } else {
      assert h.index % Depth == h.index;
    }
  }

  /**
   * After `cycles`, position `j` of ring `c` holds the result of the latest
   * cycle that wrote it, or its old value if no cycle did.
   */
  lemma {:induction false} RunAt(h: History, cycles: seq<Conversions>, c: nat, j: nat)
    requires h.Valid() && c < Channels && j < Depth
    ensures Run(h, cycles).rings[c][j] ==
      var k := Latest(h.index, |cycles|, j);
      if k < 0 then h.rings[c][j] else cycles[k].Mem(c)
    decreases |cycles|
  {
    if cycles != [] {
      var n := |cycles|;
      var prev := cycles[..n - 1];
      var p := Run(h, prev);
      RunAt(h, prev, c, j);
      RunIndex(h, prev);
      StepEffect(p, HandledVector, cycles[n - 1]);
      var k := Latest(h.index, n - 1, j);
      if j != p.index && k >= 0 {
        assert prev[k] == cycles[k];
      }
    }
  }

  /**
   * After `cycles`, the index has moved on by their number modulo the depth,
   * and every position of every ring holds the result of the latest cycle that
   * wrote it, or its old value if no cycle did.
   */
  lemma {:induction false} RunHistory(h: History, cycles: seq<Conversions>)
    requires h.Valid()
    ensures Run(h, cycles).index == PositionOf(h.index, |cycles|)
    ensures forall c, j :: 0 <= c < Channels && 0 <= j < Depth ==>
      Run(h, cycles).rings[c][j] ==
        var k := Latest(h.index, |cycles|, j);
        if k < 0 then h.rings[c][j] else cycles[k].Mem(c)
  {
    RunIndex(h, cycles);
    forall c, j | 0 <= c < Channels && 0 <= j < Depth
      ensures Run(h, cycles).rings[c][j] ==
        var k := Latest(h.index, |cycles|, j);
        if k < 0 then h.rings[c][j] else cycles[k].Mem(c)
    {
      RunAt(h, cycles, c, j);
    }
  }

  /** Two cycles fewer than `Depth` apart write different positions. */
  lemma PositionsDiffer(start: nat, a: nat, b: nat)
    requires a < b < a + Depth
    ensures PositionOf(start, a) != PositionOf(start, b)
  {
  }

  /**
   * The rings hold the last `Depth` cycles: for each of the last (up to)
   * eight cycles k, position PositionOf(start, k) of every ring holds cycle
   * k's result.  Before the rings fill, the first n positions after the start
   * hold the n cycles in order.
   */
  lemma {:induction false} RingsHoldLastCycles(h: History, cycles: seq<Conversions>, k: nat, c: nat)
    requires h.Valid()
    requires |cycles| <= k + Depth && k < |cycles| && c < Channels
    ensures Run(h, cycles).rings[c][PositionOf(h.index, k)] == cycles[k].Mem(c)
  {
    var n := |cycles|;
    var j := PositionOf(h.index, k);
    RunHistory(h, cycles);
    var l := Latest(h.index, n, j);
    if l != k {
      assert k < l;
      PositionsDiffer(h.index, k, l);
      assert false;
    }
  }

  /**
   * Once `Depth` or more cycles have run, every position was last written by
   * one of the last `Depth` cycles.
   */
  lemma {:induction false} LatestIsRecent(start: nat, n: nat, j: nat)
    requires Depth <= n && j < Depth
    ensures n - Depth <= Latest(start, n, j)
  {
    var a := start + n - Depth;
    var q := (j - a) / Depth;
    var d := (j - a) % Depth;
    assert j - a == q * Depth + d;
    var k := n - Depth + d;
    assert start + k == j + (-q) * Depth;
    assert PositionOf(start, k) == j;
  }

  /**
   * The oldest cycles are overwritten: once `Depth` or more cycles have run,
   * position `j` of every ring holds the result of one of the last `Depth`
   * cycles, the latest one that wrote `j`.
   */
  lemma {:induction false} RingsDropOldCycles(h: History, cycles: seq<Conversions>, c: nat, j: nat)
    requires h.Valid() && Depth <= |cycles| && c < Channels && j < Depth
    ensures |cycles| - Depth <= Latest(h.index, |cycles|, j)
    ensures Run(h, cycles).rings[c][j] == cycles[Latest(h.index, |cycles|, j)].Mem(c)
  {
    LatestIsRecent(h.index, |cycles|, j);
    RunAt(h, cycles, c, j);
  }

  /**
   * Cross-channel alignment: at every position, the four rings either all
   * still hold their old values or all hold the results of one and the same
   * cycle.
   */
  lemma {:induction false} RunKeepsChannelsAligned(h: History, cycles: seq<Conversions>, j: nat)
    requires h.Valid() && j < Depth
    ensures
      || (forall c :: 0 <= c < Channels ==> Run(h, cycles).rings[c][j] == h.rings[c][j])
      || (exists k :: 0 <= k < |cycles| &&
            forall c :: 0 <= c < Channels ==> Run(h, cycles).rings[c][j] == cycles[k].Mem(c))
  {
    RunHistory(h, cycles);
    var k := Latest(h.index, |cycles|, j);
    if k >= 0 {
      assert forall c :: 0 <= c < Channels ==> Run(h, cycles).rings[c][j] == cycles[k].Mem(c);
    }
  }

  /**
   * From program start: after n end-of-sequence interrupts the index is
   * n mod 8, and position j of ring c holds the buffer-c result of the latest
   * interrupt k < n with k mod 8 == j, or zero if there is none.
   */
  lemma {:induction false} HistoryFromReset(cycles: seq<Conversions>)
    ensures Run(Reset, cycles).index == |cycles| % Depth
    ensures forall c, j :: 0 <= c < Channels && 0 <= j < Depth ==>
      Run(Reset, cycles).rings[c][j] ==
        var k := Latest(0, |cycles|, j);
        if k < 0 then 0 else cycles[k].Mem(c)
  {
    ResetIsZero();
    RunIndex(Reset, cycles);
    forall c, j | 0 <= c < Channels && 0 <= j < Depth
      ensures Run(Reset, cycles).rings[c][j] ==
        var k := Latest(0, |cycles|, j);
        if k < 0 then 0 else cycles[k].Mem(c)
    {
      RunAt(Reset, cycles, c, j);
    }
  }

  /**
   * Three cycles after program start: positions 0..2 hold them in order, the
   * index is 3, and positions 3..7 still hold zero.
   */
  lemma ThreeCyclesFromReset(x0: Conversions, x1: Conversions, x2: Conversions, c: nat)
    requires c < Channels
    ensures Run(Reset, [x0, x1, x2]).index == 3
    ensures Run(Reset, [x0, x1, x2]).rings[c][..3] == [x0.Mem(c), x1.Mem(c), x2.Mem(c)]
    ensures forall j :: 3 <= j < Depth ==> Run(Reset, [x0, x1, x2]).rings[c][j] == 0
  {
    var cycles := [x0, x1, x2];
    HistoryFromReset(cycles);
    assert Latest(0, 3, 0) == 0 && Latest(0, 3, 1) == 1 && Latest(0, 3, 2) == 2;
    forall j | 3 <= j < Depth ensures Run(Reset, cycles).rings[c][j] == 0 {
      assert PositionOf(0, 0) == 0 && PositionOf(0, 1) == 1 && PositionOf(0, 2) == 2;
      assert Latest(0, |cycles|, j) == -1;
    }
  }

  lemma ResetIsZero()
    ensures Reset.Valid() && Reset.index == 0
    ensures forall c, j :: 0 <= c < Channels && 0 <= j < Depth ==> Reset.rings[c][j] == 0
  {
  }

  /** The results of memory buffers 0..3 as the converter holds them. */
  function Buffers(adc: Adc12B.Converter): (x: Conversions)
    reads adc`mem
    ensures forall c :: 0 <= c < Channels ==> x.Mem(c) == adc.Result(c)
  {
    Conversions(adc.Result(0), adc.Result(1), adc.Result(2), adc.Result(3))
  }

  /**
   * The four result arrays and the handler's static index.  `Served` lists the
   * end-of-sequence cycles handled since reset; the arrays always equal what
   * Run computes from it.
   */
  class ResultStore {
    var a0: array<bv16>
    var a1: array<bv16>
    var a2: array<bv16>
    var a3: array<bv16>
    var index: nat
    ghost var Served: seq<Conversions>

    /** Four distinct arrays of depth 8 and an index within them. */
    ghost predicate Shape()
      reads this
    {
      && a0.Length == Depth && a1.Length == Depth && a2.Length == Depth && a3.Length == Depth
      && a0 != a1 && a0 != a2 && a0 != a3 && a1 != a2 && a1 != a3 && a2 != a3
      && index < Depth
    }

    /** The arrays and the index as a History value. */
    ghost function State(): (h: History)
      requires Shape()
      reads this, a0, a1, a2, a3
      ensures h.Valid()
    {
      History([a0[..], a1[..], a2[..], a3[..]], index)
    }

    ghost predicate Valid()
      reads this, a0, a1, a2, a3
    {
      Shape() && State() == Run(Reset, Served)
    }

    /** The zero-initialised globals and `static uint16_t index = 0`. */
    constructor ()
      ensures Valid() && Served == [] && State() == Reset
      ensures fresh(a0) && fresh(a1) && fresh(a2) && fresh(a3)
    {
      a0 := new bv16[Depth](_ => 0);
      a1 := new bv16[Depth](_ => 0);
      a2 := new bv16[Depth](_ => 0);
      a3 := new bv16[Depth](_ => 0);
      index := 0;
      Served := [];
      new;
      assert a0[..] == Zeros && a1[..] == Zeros && a2[..] == Zeros && a3[..] == Zeros;
    }

    /**
     * ADC12ISR, with ADC12IV given as `vector`.  On the end-of-sequence vector
     * it reads memory buffers 0..3 through `adc`, which clears ADC12IFG0-3,
     * and stores the four results.  Run as one uninterrupted step.
     */
    method Isr(vector: int, adc: Adc12B.Converter)
      requires Valid()
      modifies a0, a1, a2, a3, this`index, this`Served, adc`flags
      ensures Valid()
      ensures State() == Step(old(State()), vector, Buffers(adc))
      ensures Served == if vector == HandledVector then old(Served) + [Buffers(adc)] else old(Served)
      ensures adc.flags == if vector == HandledVector then old(adc.flags) - {0, 1, 2, 3} else old(adc.flags)
    {
      if vector == HandledVector {
        var r0 := adc.GetResults(0);
        var r1 := adc.GetResults(1);
        var r2 := adc.GetResults(2);
        var r3 := adc.GetResults(3);
        Store(r0, r1, r2, r3);
      }
    }

    /**
     * The body of case 12: the four results go to position `index` of their
     * rings, then the index advances and wraps at Num_of_Results.
     */
    method Store(r0: bv16, r1: bv16, r2: bv16, r3: bv16)
      requires Valid()
      modifies a0, a1, a2, a3, this`index, this`Served
      ensures Valid()
      ensures State() == Step(old(State()), HandledVector, Conversions(r0, r1, r2, r3))
      ensures Served == old(Served) + [Conversions(r0, r1, r2, r3)]
    {
      a0[index] := r0;
      a1[index] := r1;
      a2[index] := r2;
      a3[index] := r3;
      index := index + 1;
      if index == 8 {
        index := 0;
      }
      Served := Served + [Conversions(r0, r1, r2, r3)];
      assert Served[..|Served| - 1] == old(Served);
    }
  }
}
