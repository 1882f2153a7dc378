/**
 * The scan-sequence tables as data: a table is the list of slots handed to
 * ADC12_B_configureMemory, in call order.  The hardware converts memory
 * buffers from the start address upwards and ends a cycle at the first slot
 * marked end-of-sequence, raising that slot's interrupt flag.
 */
module Sequence {
  import opened Adc12B

  /**
   * A table the hardware can scan as intended: slot k configures memory
   * buffer k from input Ak, and exactly the last slot ends the sequence.
   */
  predicate WellFormed(t: seq<MemoryParam>) {
    && |t| > 0
    && (forall k :: 0 <= k < |t| ==> t[k].memory == k && t[k].input == k)
    && (forall k :: 0 <= k < |t| ==> t[k].endOfSequence == (k == |t| - 1))
  }

  /** Every slot of `t` uses the reference pair `reference`. */
  predicate UniformReference(t: seq<MemoryParam>, reference: nat) {
    forall k :: 0 <= k < |t| ==> t[k].reference == reference
  }

  /** The positions of the slots marked end-of-sequence. */
  function EndSlots(t: seq<MemoryParam>): set<nat> {
    set k | 0 <= k < |t| && t[k].endOfSequence
  }

  /** The positions whose slot configures memory buffer `m`. */
  function SlotsOf(t: seq<MemoryParam>, m: nat): set<nat> {
    set k | 0 <= k < |t| && t[k].memory == m
  }

  /**
   * The intended table of `n` slots: memory k from input Ak against AVCC/AVSS,
   * the last slot ending the sequence.
   */
  function ScanTable(n: nat): seq<MemoryParam> {
    seq(n, k requires 0 <= k < n => MemoryParam(k, k, AvccVss, k == n - 1))
  }

  /**
   * The slot at which a scan started at position `start` ends its cycle: the
   * first end-of-sequence slot at or after `start`, if there is one.
   */
  function SequenceEnd(t: seq<MemoryParam>, start: nat): (r: Option<nat>)
    decreases |t| - start
    ensures r.Some? ==> start <= r.value < |t| && t[r.value].endOfSequence
    ensures r.Some? ==> forall k :: start <= k < r.value ==> !t[k].endOfSequence
    ensures r.None? ==> forall k :: start <= k < |t| ==> !t[k].endOfSequence
  {
    if start >= |t| then None
    else if t[start].endOfSequence then Some(start)
    else SequenceEnd(t, start + 1)
  }

  /** A well-formed table has exactly one end-of-sequence slot, the last one. */
  lemma WellFormedEndsOnce(t: seq<MemoryParam>)
    requires WellFormed(t)
    ensures EndSlots(t) == {|t| - 1}
  {
  }

  /** A well-formed table configures every memory buffer 0..|t|-1 exactly once. */
  lemma WellFormedConfiguresEachOnce(t: seq<MemoryParam>, m: nat)
    requires WellFormed(t) && m < |t|
    ensures SlotsOf(t, m) == {m}
  {
  }

  /**
   * WellFormed is exactly "contiguous identity mapping, and the end-of-sequence
   * slots are the last slot alone".
   */
  lemma WellFormedIff(t: seq<MemoryParam>)
    ensures WellFormed(t) <==>
      && |t| > 0
      && (forall k :: 0 <= k < |t| ==> t[k].memory == k && t[k].input == k)
      && EndSlots(t) == {|t| - 1}
  {
    if |t| > 0 && EndSlots(t) == {|t| - 1} {
      forall k | 0 <= k < |t|
        ensures t[k].endOfSequence == (k == |t| - 1)
      {
        assert t[k].endOfSequence <==> k in EndSlots(t);
      }
    }
    if WellFormed(t) {
      WellFormedEndsOnce(t);
    }
  }

  /** A scan of a well-formed table started at buffer 0 covers every slot. */
  lemma WellFormedScansAll(t: seq<MemoryParam>)
    requires WellFormed(t)
    ensures SequenceEnd(t, 0) == Some(|t| - 1)
  {
    assert t[|t| - 1].endOfSequence;
  }

  /** The intended table of any positive size is well formed and uses AVCC/AVSS throughout. */
  lemma ScanTableWellFormed(n: nat)
    requires n > 0
    ensures WellFormed(ScanTable(n)) && UniformReference(ScanTable(n), AvccVss)
  {
  }

  /** Conversely, a well-formed AVCC/AVSS table is the intended table of its size. */
  lemma WellFormedIsScanTable(t: seq<MemoryParam>)
    requires WellFormed(t) && UniformReference(t, AvccVss)
    ensures t == ScanTable(|t|)
  {
  }

  /**
   * The sample-and-hold time of memory buffer `m` (0..15) under `timer`:
   * buffers 0-7 take the first setting, buffers 8-15 the second.
   */
  function HoldCycles(timer: SamplingTimer, m: nat): nat
    requires m < 16
  {
    if m < 8 then timer.holdLow else timer.holdHigh
  }

  /**
   * What ties a scan together: the table, the interrupts armed, and where and
   * how conversion starts.
   */
  datatype ScanConfig = ScanConfig(table: seq<MemoryParam>, armed: set<nat>, start: Conversion)

  /**
   * A configuration whose one completion interrupt fires once per full cycle:
   * the table is well formed, conversion starts at buffer 0 in repeated-
   * sequence mode, and the only interrupt armed is the terminal slot's.
   */
  predicate Coherent(c: ScanConfig) {
    && WellFormed(c.table)
    && c.start == Conversion(0, RepeatedSequenceOfChannels)
    && c.armed == {|c.table| - 1}
  }

  /**
   * In a coherent configuration the one armed interrupt is the flag of the
   * slot where each cycle ends.
   */
  lemma CoherentArmsCycleEnd(c: ScanConfig)
    requires Coherent(c)
    ensures SequenceEnd(c.table, c.start.startAt).Some?
    ensures c.armed == {SequenceEnd(c.table, c.start.startAt).value}
  {
    WellFormedScansAll(c.table);
  }
}
