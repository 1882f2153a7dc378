/**
 * The 16-input setup of adc.c: pin routing by board variant, converter
 * initialisation with the sample-and-hold split, and the 16-slot scan table.
 * main.c does not call these; they are the alternative full-scan setup.
 */
module Adc {
  import opened Adc12B
  import Sequence
  import Pins

  /**
   * Init_GPIO_For_ADC12_B_All_AI: routes the analog-input pins of the board
   * chosen by `conf` (the externally defined board selector).
   */
  method InitGpioForAllInputs(ports: Ports, conf: bv8)
    modifies ports
    ensures ports.selected == old(ports.selected) + Pins.RoutedPins(conf)
  {
    if conf == 1 {
      ports.SetAsPeripheralInput(1, {3});
      ports.SetAsPeripheralInput(9, {0, 1, 2, 3, 4, 5, 6});
    } else {
      ports.SetAsPeripheralInput(1, {0, 1, 2, 3});
      ports.SetAsPeripheralInput(9, {0, 1, 2, 3, 4, 5, 6, 7});
    }
    ports.SetAsPeripheralInput(8, {7, 6, 5, 4});
    Pins.RoutedPinsByPort(conf);
  }

  /**
   * Init_Enable_ADC12_B: initialises and enables the converter, holds
   * buffers 0-7 for 16 cycles and buffers 8-15 for 4, and turns on
   * multiple-sample mode.
   */
  method InitEnable(adc: Converter)
    modifies adc`initialized, adc`enabled, adc`timer
    ensures adc.initialized && adc.enabled
    ensures adc.timer == Some(HoldSplitTiming)
  {
    adc.Init();
    adc.Enable();
    adc.SetupSamplingTimer(Hold16Cycles, Hold4Cycles, true);
  }

  /** Buffers 0-7 hold for 16 cycles, buffers 8-15 for 4, and the sequence repeats. */
  lemma SixteenSlotHoldSplit(m: nat)
    requires m < 16
    ensures Sequence.HoldCycles(HoldSplitTiming, m) == if m < 8 then 16 else 4
    ensures HoldSplitTiming.multipleSamples
  {
  }

  /**
   * Config_Mem_Buffers: memory buffer k reads input Ak against AVCC/AVSS for
   * k = 0..15, and only buffer 15 ends the sequence.  The board selector is
   * not consulted.
   */
  method ConfigMemBuffers(adc: Converter)
    modifies adc`memory
    ensures adc.memory == old(adc.memory) + Sequence.ScanTable(16)
  {
    adc.ConfigureMemory(MemoryParam(0, 0, AvccVss, false));
    adc.ConfigureMemory(MemoryParam(1, 1, AvccVss, false));
    adc.ConfigureMemory(MemoryParam(2, 2, AvccVss, false));
    adc.ConfigureMemory(MemoryParam(3, 3, AvccVss, false));
    adc.ConfigureMemory(MemoryParam(4, 4, AvccVss, false));
    adc.ConfigureMemory(MemoryParam(5, 5, AvccVss, false));
    adc.ConfigureMemory(MemoryParam(6, 6, AvccVss, false));
    adc.ConfigureMemory(MemoryParam(7, 7, AvccVss, false));
    adc.ConfigureMemory(MemoryParam(8, 8, AvccVss, false));
    adc.ConfigureMemory(MemoryParam(9, 9, AvccVss, false));
    adc.ConfigureMemory(MemoryParam(10, 10, AvccVss, false));
    adc.ConfigureMemory(MemoryParam(11, 11, AvccVss, false));
    adc.ConfigureMemory(MemoryParam(12, 12, AvccVss, false));
    adc.ConfigureMemory(MemoryParam(13, 13, AvccVss, false));
    adc.ConfigureMemory(MemoryParam(14, 14, AvccVss, false));
    adc.ConfigureMemory(MemoryParam(15, 15, AvccVss, true));
    assert adc.memory[|old(adc.memory)|..] == Sequence.ScanTable(16);
  }

  /**
   * The 16-slot table configures buffers 0..15 once each, maps buffer k to
   * input Ak, uses AVCC/AVSS throughout, and ends its sequence at buffer 15
   * alone, so a scan from buffer 0 covers all sixteen.
   */
  lemma SixteenSlotTableWellFormed()
    ensures Sequence.WellFormed(Sequence.ScanTable(16))
    ensures Sequence.UniformReference(Sequence.ScanTable(16), AvccVss)
    ensures Sequence.EndSlots(Sequence.ScanTable(16)) == {15}
    ensures forall m :: 0 <= m < 16 ==> Sequence.SlotsOf(Sequence.ScanTable(16), m) == {m}
    ensures Sequence.SequenceEnd(Sequence.ScanTable(16), 0) == Some(15)
  {
  }
}
