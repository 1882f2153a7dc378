/**
 * The parts of the MSP430 driver library (ADC12_B and GPIO) that the scanner
 * calls, modelled as abstract writes to converter and port state.  The driver
 * library's register encoding is not part of this model: each call records
 * what it was asked to do, and nothing more.
 */
module Adc12B {

  datatype Option<T> = None | Some(value: T)

  /**
   * ADC12_B_configureMemoryParam: one slot of the scan sequence.  `memory` is
   * memoryBufferControlIndex (ADC12_B_MEMORY_k is k), `input` is
   * inputSourceSelect (ADC12_B_INPUT_Ak is k), `reference` is the selector
   * code of refVoltageSourceSelect, and `endOfSequence` is true for
   * ADC12_B_ENDOFSEQUENCE and false for ADC12_B_NOTENDOFSEQUENCE.
   */
  datatype MemoryParam = MemoryParam(memory: nat, input: nat, reference: nat, endOfSequence: bool)

  /** A parameter record declared with the `= {0}` initialiser: every field zero. */
  const ZeroParam := MemoryParam(0, 0, 0, false)

  /**
   * ADC12_B_VREFPOS_AVCC_VREFNEG_VSS, the AVCC/AVSS reference pair.  The driver
   * library defines it as the zero selector code (ADC12VRSEL_0).
   */
  const AvccVss: nat := 0

  /** ADC12_B_CYCLEHOLD_16_CYCLES and ADC12_B_CYCLEHOLD_4_CYCLES, as cycle counts. */
  const Hold16Cycles: nat := 16
  const Hold4Cycles: nat := 4

  /**
   * The sampling timer both setups program: buffers 0-7 hold for 16 cycles,
   * buffers 8-15 for 4, multiple-sample mode on.
   */
  const HoldSplitTiming := SamplingTimer(Hold16Cycles, Hold4Cycles, true)

  /**
   * ADC12_B_setupSamplingTimer: the sample-and-hold time of memory buffers
   * 0-7 (`holdLow`) and 8-15 (`holdHigh`), and whether multiple-sample mode
   * (ADC12_B_MULTIPLESAMPLESENABLE) is on.
   */
  datatype SamplingTimer = SamplingTimer(holdLow: nat, holdHigh: nat, multipleSamples: bool)

  /** The conversionSequenceModeSelect of ADC12_B_startConversion. */
  datatype ConversionMode =
    | SingleChannel
    | SequenceOfChannels
    | RepeatedSingleChannel
    | RepeatedSequenceOfChannels

  /** ADC12_B_startConversion's arguments: the first memory buffer and the mode. */
  datatype Conversion = Conversion(startAt: nat, mode: ConversionMode)

  /** One port pin: GPIO_PORT_Pp, GPIO_PINn. */
  datatype Pin = Pin(port: nat, pin: nat)

  /** The pins of one port named by a GPIO_PIN mask, given as the set of pin numbers. */
  function PortPins(port: nat, pins: set<nat>): (r: set<Pin>)
    ensures forall p :: p in r <==> p.port == port && p.pin in pins
  {
    set n | n in pins :: Pin(port, n)
  }

  /**
   * The converter as the driver library leaves it.  `memory` lists the
   * configureMemory calls in the order they were made (the scan table);
   * `flags` holds the raised interrupt flags ADC12IFGk and `armed` the enabled
   * interrupts ADC12IEk, both by memory-buffer number k; `mem` holds the
   * conversion results ADC12MEMk the hardware has latched.
   */
  class Converter {
    var initialized: bool
    var enabled: bool
    var timer: Option<SamplingTimer>
    var memory: seq<MemoryParam>
    var flags: set<nat>
    var armed: set<nat>
    var conversion: Option<Conversion>
    var mem: map<nat, bv16>

    /** The converter after reset: nothing configured, no flag raised or armed, idle. */
    constructor ()
      ensures !initialized && !enabled && timer == None && memory == []
      ensures flags == {} && armed == {} && conversion == None && mem == map[]
    {
      initialized, enabled, timer, memory := false, false, None, [];
      flags, armed, conversion, mem := {}, {}, None, map[];
    }

    /** The content of ADC12MEMm; a buffer never latched reads as 0. */
    function Result(m: nat): bv16
      reads this`mem
    {
      if m in mem then mem[m] else 0
    }

    /** ADC12_B_init.  Clock source, dividers and sample-and-hold source are not modelled. */
    method Init()
      modifies this`initialized
      ensures initialized
    {
      initialized := true;
    }

    /** ADC12_B_enable. */
    method Enable()
      modifies this`enabled
      ensures enabled
    {
      enabled := true;
    }

    /** ADC12_B_setupSamplingTimer. */
    method SetupSamplingTimer(holdLow: nat, holdHigh: nat, multipleSamples: bool)
      modifies this`timer
      ensures timer == Some(SamplingTimer(holdLow, holdHigh, multipleSamples))
    {
      timer := Some(SamplingTimer(holdLow, holdHigh, multipleSamples));
    }

    /** ADC12_B_configureMemory: appends one slot to the scan table. */
    method ConfigureMemory(p: MemoryParam)
      modifies this`memory
      ensures memory == old(memory) + [p]
    {
      memory := memory + [p];
    }

    /**
     * ADC12_B_clearInterrupt: register 0 holds flags 0-15 and register 1
     * flags 16-31; `mask` names flags within the chosen register.
     */
    method ClearInterrupt(register: nat, mask: set<nat>)
      modifies this`flags
      ensures flags == old(flags) - set k | k in mask :: 16 * register + k
    {
      flags := flags - set k | k in mask :: 16 * register + k;
    }

    /**
     * ADC12_B_enableInterrupt with the masks for IE0-IE15 (`mask0`) and
     * IE16-IE31 (`mask1`).  The third mask (overflow and window-comparator
     * interrupts) is zero at every call site and is not modelled.
     */
    method EnableInterrupt(mask0: set<nat>, mask1: set<nat>)
      modifies this`armed
      ensures armed == old(armed) + mask0 + set k | k in mask1 :: 16 + k
    {
      armed := armed + mask0 + set k | k in mask1 :: 16 + k;
    }

    /**
     * ADC12_B_getResults: returns the content of memory buffer `m`; reading
     * the buffer clears its interrupt flag ADC12IFGm.
     */
    method GetResults(m: nat) returns (r: bv16)
      modifies this`flags
      ensures r == Result(m)
      ensures flags == old(flags) - {m}
    {
      r := Result(m);
      flags := flags - {m};
    }

    /** ADC12_B_startConversion. */
    method StartConversion(startAt: nat, mode: ConversionMode)
      modifies this`conversion
      ensures conversion == Some(Conversion(startAt, mode))
    {
      conversion := Some(Conversion(startAt, mode));
    }
  }

  /** The port pins routed to a peripheral module function. */
  class Ports {
    var selected: set<Pin>

    constructor ()
      ensures selected == {}
    {
      selected := {};
    }

    /**
     * GPIO_setAsPeripheralModuleFunctionInputPin.  Every call site selects
     * GPIO_TERNARY_MODULE_FUNCTION (the analog input), so the function is not
     * recorded.
     */
    method SetAsPeripheralInput(port: nat, pins: set<nat>)
      modifies this`selected
      ensures selected == old(selected) + PortPins(port, pins)
    {
      selected := selected + PortPins(port, pins);
    }
  }
}
