/**
 * The setup in main(): route P1.0-P1.3, initialise the converter, program a
 * 4-slot scan of A0..A3 ending at buffer 3, arm only buffer 3's interrupt and
 * start repeated-sequence conversion at buffer 0.
 */
module ScanSetup {
  import opened Adc12B
  import Sequence
  import Pins
  import Results

  /**
   * main() from pin routing to the start of conversion.  The parameter records
   * are built field by field as in the C code, including the three writes to
   * param0's reference field that belong to param1, param2 and param3.
   */
  method ConfigureScan(adc: Converter, ports: Ports)
    modifies adc`initialized, adc`enabled, adc`timer, adc`memory, adc`flags, adc`armed, adc`conversion
    modifies ports`selected
    ensures ports.selected == old(ports.selected) + PortPins(1, {0, 1, 2, 3})
    ensures adc.initialized && adc.enabled
    ensures adc.timer == Some(HoldSplitTiming)
    ensures adc.memory == old(adc.memory) + FourSlotTable
    ensures adc.flags == old(adc.flags) - {3}
    ensures adc.armed == old(adc.armed) + {3}
    ensures adc.conversion == Some(Conversion(0, RepeatedSequenceOfChannels))
  {
    ports.SetAsPeripheralInput(1, {0, 1, 2, 3});

    adc.Init();
    adc.Enable();
    adc.SetupSamplingTimer(Hold16Cycles, Hold4Cycles, true);

    var param0 := ZeroParam;
    param0 := param0.(memory := 0);
    param0 := param0.(input := 0);
    param0 := param0.(reference := AvccVss);
    param0 := param0.(endOfSequence := false);
    adc.ConfigureMemory(param0);

    var param1 := ZeroParam;
    param1 := param1.(memory := 1);
    param1 := param1.(input := 1);
    param0 := param0.(reference := AvccVss);   // written to param0, not param1
    param1 := param1.(endOfSequence := false);
    adc.ConfigureMemory(param1);

    var param2 := ZeroParam;
    param2 := param2.(memory := 2);
    param2 := param2.(input := 2);
    param0 := param0.(reference := AvccVss);   // written to param0, not param2
    param2 := param2.(endOfSequence := false);
    adc.ConfigureMemory(param2);

    var param3 := ZeroParam;
    param3 := param3.(memory := 3);
    param3 := param3.(input := 3);
    param0 := param0.(reference := AvccVss);   // written to param0, not param3
    param3 := param3.(endOfSequence := true);
    adc.ConfigureMemory(param3);

    adc.ClearInterrupt(0, {3});
    adc.EnableInterrupt({3}, {});
    adc.StartConversion(0, RepeatedSequenceOfChannels);

    assert adc.memory[|old(adc.memory)|..] == FourSlotTable;
  }

  /** The slot records main() hands to ADC12_B_configureMemory, as they are built. */
  const FourSlotTable := [
    ZeroParam.(memory := 0, input := 0, reference := AvccVss, endOfSequence := false),
    ZeroParam.(memory := 1, input := 1, endOfSequence := false),
    ZeroParam.(memory := 2, input := 2, endOfSequence := false),
    ZeroParam.(memory := 3, input := 3, endOfSequence := true)]

  /**
   * Slots 1-3 keep the reference field of the `= {0}` initialiser, because
   * their own field is never assigned; since the zero selector is AVCC/AVSS,
   * the table main() builds is still the intended 4-slot table.
   */
  lemma FourSlotTableIsIntended()
    ensures forall k :: 1 <= k < 4 ==> FourSlotTable[k].reference == ZeroParam.reference
    ensures FourSlotTable == Sequence.ScanTable(4)
  {
  }

  /** The scan main() leaves configured, starting from a converter at reset (see ScanFromReset). */
  const MainScan := Sequence.ScanConfig(FourSlotTable, {3}, Conversion(0, RepeatedSequenceOfChannels))

  /**
   * main()'s setup run on a converter and ports fresh from reset: the scan it
   * leaves configured is MainScan, which is coherent, and the pins it routes
   * are those of the inputs its table scans.
   */
  method ScanFromReset() returns (scan: Sequence.ScanConfig, pins: set<Pin>)
    ensures scan == MainScan && Sequence.Coherent(scan)
    ensures pins == Pins.PinsOf(Pins.ChannelPins(0, |scan.table|))
  {
    var adc := new Converter();
    var ports := new Ports();
    ConfigureScan(adc, ports);
    scan := Sequence.ScanConfig(adc.memory, adc.armed, adc.conversion.value);
    pins := ports.selected;
    assert scan == MainScan;
    MainScanAgrees();
    MainPinsMatchTable();
  }

  /**
   * The pieces of main()'s setup agree: slots 0..3 read A0..A3, buffer 3 alone
   * ends the sequence, the cycle started at buffer 0 ends there, the only armed
   * interrupt is ADC12IE3, and ADC12IFG3 is the vector the handler serves.
   */
  lemma MainScanAgrees()
    ensures Sequence.Coherent(MainScan)
    ensures Sequence.SequenceEnd(MainScan.table, MainScan.start.startAt) == Some(3)
    ensures Results.SourceOf(Results.HandledVector) == Results.MemoryFlag(3)
    ensures |MainScan.table| == Results.Channels
    ensures forall k :: 0 <= k < 4 ==> MainScan.table[k].input == k
  {
    FourSlotTableIsIntended();
    Sequence.ScanTableWellFormed(4);
    Sequence.CoherentArmsCycleEnd(MainScan);
  }

  /** The pins main() routes are exactly those of the four inputs its table scans. */
  lemma MainPinsMatchTable()
    ensures Pins.PinsOf(Pins.ChannelPins(0, 4)) == PortPins(1, {0, 1, 2, 3})
    ensures forall k :: 0 <= k < 4 ==> Pins.PinOfChannel(FourSlotTable[k].input) in PortPins(1, {0, 1, 2, 3})
  {
    var ps := Pins.ChannelPins(0, 4);
    assert Pins.PinsOf(ps) == {ps[0], ps[1], ps[2], ps[3]};
  }
}
