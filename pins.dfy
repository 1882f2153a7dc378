/**
 * Which port pin carries which analog input on the MSP430FR6989, and which
 * pins the 16-slot setup routes to the converter on each board variant.
 */
module Pins {
  import opened Adc12B
  import Sequence

  /** Analog inputs A0..A15. */
  const InputCount: nat := 16

  /** The pin of analog input Ak: P1.0-P1.3 for A0-A3, P8.7-P8.4 for A4-A7, P9.0-P9.7 for A8-A15. */
  function PinOfChannel(k: nat): (p: Pin)
    requires k < InputCount
    ensures ChannelOfPin(p) == Some(k)
  {
    if k < 4 then Pin(1, k)
    else if k < 8 then Pin(8, 11 - k)
    else Pin(9, k - 8)
  }

  /** The analog input a pin carries, if any. */
  function ChannelOfPin(p: Pin): Option<nat> {
    if p.port == 1 && p.pin < 4 then Some(p.pin)
    else if p.port == 8 && 4 <= p.pin < 8 then Some(11 - p.pin)
    else if p.port == 9 && p.pin < 8 then Some(p.pin + 8)
    else None
  }

  lemma PinChannelRoundTrip(p: Pin)
    requires ChannelOfPin(p).Some?
    ensures ChannelOfPin(p).value < InputCount && PinOfChannel(ChannelOfPin(p).value) == p
  {
  }

  /**
   * The inputs whose pins the setup routes for board selector `conf`: on the
   * LaunchPad variant (`conf == 1`) P1.0-P1.2 and P9.7 are not usable, so A0-A2
   * and A15 are dropped.
   */
  predicate Routed(conf: bv8, k: nat) {
    k < InputCount && (conf != 1 || 3 <= k < 15)
  }

  /** The pins routed to the converter for board selector `conf`. */
  function RoutedPins(conf: bv8): set<Pin> {
    set k | 0 <= k < InputCount && Routed(conf, k) :: PinOfChannel(k)
  }

  /** A pin is routed exactly when it carries an input the board variant uses. */
  lemma {:induction false} RoutedPinMembership(conf: bv8, p: Pin)
    ensures p in RoutedPins(conf) <==> ChannelOfPin(p).Some? && Routed(conf, ChannelOfPin(p).value)
  {
  }

  /**
   * The routed pins port by port: P1.3 and P9.0-P9.6 on the LaunchPad variant,
   * P1.0-P1.3 and P9.0-P9.7 otherwise, and P8.4-P8.7 on both.
   */
  lemma {:induction false} RoutedPinsByPort(conf: bv8)
    ensures RoutedPins(conf) ==
      (if conf == 1 then PortPins(1, {3}) + PortPins(9, {0, 1, 2, 3, 4, 5, 6})
       else PortPins(1, {0, 1, 2, 3}) + PortPins(9, {0, 1, 2, 3, 4, 5, 6, 7}))
      + PortPins(8, {7, 6, 5, 4})
  {
    if conf == 1 {
      LaunchPadByPort();
    } else {
      CustomBoardByPort(conf);
    }
  }

  /** The LaunchPad variant, port by port: P1.3, P9.0-P9.6 and P8.4-P8.7. */
  lemma {:induction false} LaunchPadByPort()
    ensures RoutedPins(1) ==
      PortPins(1, {3}) + PortPins(9, {0, 1, 2, 3, 4, 5, 6}) + PortPins(8, {7, 6, 5, 4})
  {
    var byPort := PortPins(1, {3}) + PortPins(9, {0, 1, 2, 3, 4, 5, 6}) + PortPins(8, {7, 6, 5, 4});
    forall p ensures p in RoutedPins(1) <==> p in byPort {
      RoutedPinMembership(1, p);
    }
  }

  /** The custom-board variant, port by port: P1.0-P1.3, P9.0-P9.7 and P8.4-P8.7. */
  lemma {:induction false} CustomBoardByPort(conf: bv8)
    requires conf != 1
    ensures RoutedPins(conf) ==
      PortPins(1, {0, 1, 2, 3}) + PortPins(9, {0, 1, 2, 3, 4, 5, 6, 7}) + PortPins(8, {7, 6, 5, 4})
  {
    var byPort := PortPins(1, {0, 1, 2, 3}) + PortPins(9, {0, 1, 2, 3, 4, 5, 6, 7}) + PortPins(8, {7, 6, 5, 4});
    forall p ensures p in RoutedPins(conf) <==> p in byPort {
      RoutedPinMembership(conf, p);
    }
  }

  /** The twelve pins of the LaunchPad variant. */
  lemma LaunchPadPins()
    ensures RoutedPins(1) ==
      {Pin(1, 3), Pin(8, 7), Pin(8, 6), Pin(8, 5), Pin(8, 4),
       Pin(9, 0), Pin(9, 1), Pin(9, 2), Pin(9, 3), Pin(9, 4), Pin(9, 5), Pin(9, 6)}
  {
    var lit := {Pin(1, 3), Pin(8, 7), Pin(8, 6), Pin(8, 5), Pin(8, 4),
                Pin(9, 0), Pin(9, 1), Pin(9, 2), Pin(9, 3), Pin(9, 4), Pin(9, 5), Pin(9, 6)};
    forall p | p in lit ensures p in RoutedPins(1) {
      PinChannelRoundTrip(p);
    }
  }

  /** The sixteen pins of the custom-board variant. */
  lemma CustomBoardPins(conf: bv8)
    requires conf != 1
    ensures RoutedPins(conf) ==
      {Pin(1, 0), Pin(1, 1), Pin(1, 2), Pin(1, 3), Pin(8, 7), Pin(8, 6), Pin(8, 5), Pin(8, 4),
       Pin(9, 0), Pin(9, 1), Pin(9, 2), Pin(9, 3), Pin(9, 4), Pin(9, 5), Pin(9, 6), Pin(9, 7)}
  {
    var lit := {Pin(1, 0), Pin(1, 1), Pin(1, 2), Pin(1, 3), Pin(8, 7), Pin(8, 6), Pin(8, 5), Pin(8, 4),
                Pin(9, 0), Pin(9, 1), Pin(9, 2), Pin(9, 3), Pin(9, 4), Pin(9, 5), Pin(9, 6), Pin(9, 7)};
    forall p | p in lit ensures p in RoutedPins(conf) {
      PinChannelRoundTrip(p);
    }
  }

  /** The pins listed in `ps`. */
  function PinsOf(ps: seq<Pin>): (r: set<Pin>)
    ensures forall p :: p in r <==> p in ps
  {
    if ps == [] then {} else {ps[0]} + PinsOf(ps[1..])
  }

  /** A list without repetitions names as many pins as it is long. */
  lemma {:induction false} DistinctPinsCount(ps: seq<Pin>)
    requires forall i, j :: 0 <= i < j < |ps| ==> ps[i] != ps[j]
    ensures |PinsOf(ps)| == |ps|
  {
    if ps != [] {
      DistinctPinsCount(ps[1..]);
      assert ps[0] !in ps[1..];
    }
  }

  /**
   * The pins of inputs A(lo) .. A(lo+n-1), in input order: the i-th carries
   * input A(lo+i), so no pin appears twice.
   */
  function ChannelPins(lo: nat, n: nat): (ps: seq<Pin>)
    requires lo + n <= InputCount
    ensures forall i :: 0 <= i < |ps| ==> ChannelOfPin(ps[i]) == Some(lo + i)
    ensures forall i, j :: 0 <= i < j < |ps| ==> ps[i] != ps[j]
  {
    var ps := seq(n, i requires 0 <= i < n => PinOfChannel(lo + i));
    assert forall i :: 0 <= i < n ==> ps[i] == PinOfChannel(lo + i);
    ps
  }

  /** The pins routed for `conf` are those of a run of consecutive inputs, one pin each. */
  lemma {:induction false} RoutedPinsAreChannelRun(conf: bv8, lo: nat, n: nat)
    requires lo + n <= InputCount
    requires forall k: nat :: Routed(conf, k) <==> lo <= k < lo + n
    ensures RoutedPins(conf) == PinsOf(ChannelPins(lo, n))
    ensures |RoutedPins(conf)| == n
  {
    var ps := ChannelPins(lo, n);
    assert |ps| == n;
    forall p | p in PinsOf(ps) ensures p in RoutedPins(conf) {
      var i :| 0 <= i < n && ps[i] == p;
      assert Routed(conf, lo + i) && p == PinOfChannel(lo + i);
    }
    forall p | p in RoutedPins(conf) ensures p in PinsOf(ps) {
      var k :| 0 <= k < InputCount && Routed(conf, k) && p == PinOfChannel(k);
      assert ps[k - lo] == p;
    }
    DistinctPinsCount(ps);
  }

  lemma LaunchPadPinCount()
    ensures |RoutedPins(1)| == 12
  {
    RoutedPinsAreChannelRun(1, 3, 12);
  }

  lemma CustomBoardPinCount(conf: bv8)
    requires conf != 1
    ensures |RoutedPins(conf)| == 16
  {
    RoutedPinsAreChannelRun(conf, 0, 16);
  }

  /** Twelve pins when `conf == 1`, sixteen otherwise. */
  lemma RoutedPinCount(conf: bv8)
    ensures |RoutedPins(conf)| == if conf == 1 then 12 else 16
  {
    if conf == 1 {
      LaunchPadPinCount();
    } else {
      CustomBoardPinCount(conf);
    }
  }

  /** The LaunchPad pin set is a strict subset of the custom-board pin set. */
  lemma LaunchPadPinsWithinCustom(conf: bv8)
    requires conf != 1
    ensures RoutedPins(1) < RoutedPins(conf)
  {
    LaunchPadPins();
    CustomBoardPins(conf);
  }

  /** P8.4-P8.7 (A7-A4) are routed on both variants. */
  lemma Port8AlwaysRouted(conf: bv8, n: nat)
    requires 4 <= n < 8
    ensures Pin(8, n) in RoutedPins(conf)
  {
    assert PinOfChannel(11 - n) == Pin(8, n);
  }

  /** The inputs named by the slots of table `t` whose pins are not in `pins`. */
  function UnroutedInputs(t: seq<MemoryParam>, pins: set<Pin>): set<nat> {
    set k | 0 <= k < |t| && t[k].input < InputCount && PinOfChannel(t[k].input) !in pins :: t[k].input
  }

  /**
   * The 16-slot table does not depend on the board: on the LaunchPad variant it
   * still scans A0-A2 and A15, whose pins are not routed; on the custom board
   * every scanned input is routed.
   */
  lemma SixteenSlotRouting(conf: bv8)
    ensures UnroutedInputs(Sequence.ScanTable(16), RoutedPins(conf)) ==
      if conf == 1 then {0, 1, 2, 15} else {}
  {
    var t := Sequence.ScanTable(16);
    if conf == 1 {
      LaunchPadPins();
      forall k | k in {0, 1, 2, 15} ensures k in UnroutedInputs(t, RoutedPins(conf)) {
        assert t[k].input == k;
      }
    }
  }
}
