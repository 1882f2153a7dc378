# Analog input scanner on the MSP430FR6989: verified model

This project models the acquisition core of a small analog input scanner for
the MSP430FR6989. The core has two parts.

- **The completion handler and its result rings** (main.c). There are four
  16-bit result arrays, `A0results`..`A3results`, each `Num_of_Results` = 8
  deep, and one static `index` that they share. `ADC12ISR` acts on interrupt
  vector 12, which the handler's own comments name ADC12IFG3, the
  end-of-sequence slot. On that vector it does three things in order. It reads
  memory buffers 0..3 into the four arrays at position `index`; each read
  clears that buffer's interrupt flag. It increments `index`. It wraps `index`
  to 0 when it reaches 8. Every other vector does nothing.
- **The scan-sequence configuration.**
  - `main()` programs a 4-slot sequence: A0..A3 into memory buffers 0..3, with
    buffer 3 ending the sequence. It arms only ADC12IE3 and starts
    repeated-sequence conversion at buffer 0.
  - adc.c holds a 16-slot alternative that `main()` never calls.
    `Config_Mem_Buffers` maps buffer k to input Ak and ends the sequence at 15.
    `Init_Enable_ADC12_B` sets the sample-and-hold split: 16 cycles for
    buffers 0-7 and 4 for buffers 8-15. `Init_GPIO_For_ADC12_B_All_AI` routes
    12 or 16 pins, depending on the board selector `conf`.

The model has six modules, one file each:

- `Adc12B` (adc12b.dfy). This module stands in for the driver library. The
  `Converter` and `Ports` classes record what each driver call was asked to do:
  the list of `configureMemory` slots, the raised and armed interrupt flags,
  the sampling timer, the start of conversion, and the routed pins.
- `Sequence` (sequence.dfy). This module treats scan tables as data. It defines
  the well-formedness predicate, the slot at which a scan cycle ends, and the
  predicate that says the armed interrupt is the terminal slot's.
- `Pins` (pins.dfy). This module maps pins to input channels and defines the
  pin set for each board variant.
- `Adc` (adc.dfy). This module holds the three adc.c setup functions, as
  methods on the converter and port state.
- `Results` (results.dfy). This module holds the handler. `ResultStore` is a
  class with the four `array<bv16>` rings and the index, and `Isr` is one
  atomic method on it. The method is proved against the pure `Step` function.
  `Run` folds `Step` over a list of cycles, and the lemmas give the whole
  history after n cycles.
- `ScanSetup` (scan_setup.dfy). This module models `main()`'s setup,
  statement by statement.

Lines 115, 130 and 145 of main.c assign `param0.refVoltageSourceSelect`
where `param1`, `param2` and `param3` were meant. The model keeps these
writes exactly as written. Slots 1-3 are therefore handed the reference field
from their `= {0}` initialiser. The driver library encodes
ADC12_B_VREFPOS_AVCC_VREFNEG_VSS as the zero selector, so the table `main()`
applies is still the intended one (`ScanSetup.FourSlotTableIsIntended`). The
model takes that zero encoding as a constant (`Adc12B.AvccVss`), because the
driver-library header is not part of this model.

In three places the code does less than a general design of such a scanner
would. The model follows the code each time:

- The 16-slot table never reads `conf`. On the 12-pin board it still scans
  A0-A2 and A15, whose pins are not routed (`Pins.SixteenSlotRouting`).
- There is no configure-time validation that could fail.
- The handler copies a fixed set of four buffers. It does not loop over the
  table.

## Model

| member | source | states |
|---|---|---|
| `Results.ResultStore.constructor` | main.c:31-36 | The four rings start as eight zeros each, and the index starts at 0. This is the program-start state `Reset`. |
| `Results.ResultStore.Isr` | main.c:183-230 | The handler is one atomic step. Its new state is `Step(old state, vector, results of buffers 0..3)`. It keeps the invariant that the arrays equal `Run(Reset, Served)`, where `Served` grows by one only on vector 12. On vector 12 the reads clear ADC12IFG0-3 and no other flag; other vectors leave the flags alone. |
| `Results.ResultStore.Store` | main.c:196-216 | The body of case 12: the four results go to position `index`, the index advances with wrap-around, and the new state is `Step` on vector 12 with those results. The invariant is kept. |
| `Results.ResultStore.State` | main.c:33-36 | The four arrays and the index, read as a `History` value. The rings are 4 × 8 deep and the index is below 8. |
| `Results.Step` | main.c:194-216 | A handler step keeps the shape invariant: four rings of depth 8 and an index below 8. |
| `Results.StepEffect` | main.c:187-228 | Vectors other than 12 change nothing, including the fall-through into case 14's `break`. On vector 12, position `index` of ring c receives buffer c's result, no other position changes, and the index becomes `(index + 1) mod 8`. |
| `Results.Advance` | main.c:212-216 | `index++` followed by the reset to 0 at 8 keeps the index below 8 and equals `(index + 1) mod 8`. |
| `Results.Run` | main.c:194-216 | Any number of handled cycles keeps the shape invariant. |
| `Results.Latest` | main.c:196-216 | Gives the latest cycle k < n that writes position j (k satisfies `(start + k) mod 8 == j`, and no later cycle below n does), or -1 if no cycle writes j. |
| `Results.RunIndex` | main.c:185 | After n cycles the index equals `(start + n) mod 8`. |
| `Results.RunAt` | main.c:196-216 | After n cycles, position j of ring c holds buffer c's result from the latest cycle that wrote j, or its old value if no cycle did. |
| `Results.RunHistory` | main.c:185-216 | Gives the index and every position of every ring after n cycles, from any valid state. |
| `Results.HistoryFromReset` | main.c:185-216 | From program start, after n cycles, the index equals n mod 8. Position j holds the samples of the latest cycle k < n with k mod 8 = j, or 0 if there is no such cycle. |
| `Results.ResetIsZero` | main.c:33-36 | The program-start state is valid, has index 0, and every cell is 0. |
| `Results.RingsHoldLastCycles` | main.c:196-216 | Each of the last (up to) 8 cycles is still in every ring, at its own position. |
| `Results.LatestIsRecent` | main.c:211-216 | Once 8 or more cycles have run, the latest cycle that wrote any position is one of the last 8. |
| `Results.RingsDropOldCycles` | main.c:196-216 | Once 8 or more cycles have run, every position of every ring holds the result of one of the last 8 cycles, so every older cycle has been overwritten. |
| `Results.RunKeepsChannelsAligned` | main.c:196-216 | At each position, all four rings hold either their old values or the results of one and the same cycle. |
| `Results.ThreeCyclesFromReset` | main.c:185-216 | Three cycles after start, positions 0..2 hold those cycles in order, the index is 3, and positions 3..7 are still 0. |
| `Results.SourceOf` | main.c:187-228 | When the vector decodes to ADC12IFGk, then k ≤ 14 and the vector is 6 + 2k. |
| `Results.FlagVectorRoundTrip` | main.c:191-227 | Vector 6 + 2k decodes to ADC12IFGk for k = 0..14. |
| `Results.HandledVectorIsFlag3` | main.c:194 | A vector decodes to ADC12IFG3 exactly when it is 12, the vector the handler acts on. |
| `ScanSetup.ConfigureScan` | main.c:44-169 | After `main()`'s setup: pins P1.0-P1.3 are routed, and the converter is initialised and enabled. The timer holds for 16/4 cycles with multiple samples on. The four slots are appended as built, IFG3 is cleared, only IE3 is added, and conversion starts at buffer 0 in repeated-sequence mode. |
| `ScanSetup.FourSlotTableIsIntended` | main.c:112-147 | Slots 1-3 carry the zero-initialised reference field, because the reference was written into `param0`. Even so, the applied table equals the intended table `ScanTable(4)`. |
| `ScanSetup.MainScanAgrees` | main.c:97-169 | The 4-slot setup is coherent. Its table is well formed and maps slot k to input Ak. A cycle started at buffer 0 ends at buffer 3. The only armed interrupt is ADC12IE3. The vector the handler serves (12) is ADC12IFG3. |
| `ScanSetup.MainPinsMatchTable` | main.c:44-48 | The pins `main()` routes (P1.0-P1.3) are the pins of the four inputs its table scans. |
| `ScanSetup.ScanFromReset` | main.c:38-169 | Running `main()`'s setup on a converter and ports at reset leaves exactly the scan `MainScan` configured. That scan is coherent, and the routed pins are those of the inputs its table scans. |
| `Sequence.SequenceEnd` | main.c:146 | Gives the first end-of-sequence slot at or after the start, with none before it, or `None` if there is no such slot. This is where a scan cycle ends. |
| `Sequence.WellFormedEndsOnce` | adc.c:127-352 | A well-formed table has exactly one end-of-sequence slot, the last one. |
| `Sequence.WellFormedConfiguresEachOnce` | adc.c:123-353 | A well-formed table configures each memory buffer exactly once. |
| `Sequence.WellFormedIff` | adc.c:123-353 | Well-formed means all three of: contiguous, the identity mapping, and the end-of-sequence set is exactly {last slot}. This holds in both directions. |
| `Sequence.WellFormedScansAll` | main.c:167-169 | A scan of a well-formed table started at buffer 0 runs through the last slot. |
| `Sequence.ScanTableWellFormed` | adc.c:123-353 | The intended table of any positive size is well formed and uses AVCC/AVSS throughout. |
| `Sequence.WellFormedIsScanTable` | adc.c:123-353 | Any well-formed AVCC/AVSS table is the intended table of its size, which makes the intended table unique. |
| `Sequence.CoherentArmsCycleEnd` | main.c:149-169 | In a coherent configuration, the one armed interrupt is the flag of the slot where each cycle ends. |
| `Adc.ConfigMemBuffers` | adc.c:111-354 | Appends exactly `ScanTable(16)`: buffer k reads Ak against AVCC/AVSS for k = 0..15, and only buffer 15 ends the sequence. It takes no `conf`. |
| `Adc.SixteenSlotTableWellFormed` | adc.c:123-353 | The 16-slot table is well formed and uses AVCC/AVSS throughout. Its end-of-sequence set is {15}, each buffer is configured once, and a scan from buffer 0 ends at 15. |
| `Adc.InitEnable` | adc.c:78-109 | The converter is initialised and enabled, and the timer is 16 cycles for buffers 0-7, 4 cycles for buffers 8-15, with multiple samples on. |
| `Adc.SixteenSlotHoldSplit` | adc.c:99-108 | Buffers 0-7 hold for 16 cycles and buffers 8-15 for 4, and multiple-sample mode is on. |
| `Adc.InitGpioForAllInputs` | adc.c:18-76 | The routed pins grow by exactly `RoutedPins(conf)`, the pins of the inputs that board variant uses. |
| `Pins.RoutedPinsByPort` | adc.c:27-75 | `RoutedPins(conf)` is P1.3 and P9.0-6 when `conf == 1`, P1.0-3 and P9.0-7 otherwise, plus P8.4-7 in both cases. |
| `Pins.LaunchPadByPort` | adc.c:27-75 | When `conf == 1`, the routed pins are P1.3, P9.0-P9.6 and P8.4-P8.7. |
| `Pins.CustomBoardByPort` | adc.c:27-75 | For any other `conf`, the routed pins are P1.0-P1.3, P9.0-P9.7 and P8.4-P8.7. |
| `Pins.RoutedPinMembership` | adc.c:20-26 | A pin is routed exactly when it carries an input that the board variant uses. |
| `Pins.LaunchPadPins` | adc.c:27-45 | Lists the twelve routed pins of the `conf == 1` variant. |
| `Pins.CustomBoardPins` | adc.c:46-66 | Lists the sixteen routed pins of the other variant. |
| `Pins.RoutedPinsAreChannelRun` | adc.c:27-75 | A variant that uses a run of n consecutive inputs routes exactly their n distinct pins. |
| `Pins.LaunchPadPinCount` | adc.c:27-45 | Twelve pins are routed when `conf == 1`. |
| `Pins.CustomBoardPinCount` | adc.c:46-66 | Sixteen pins are routed otherwise. |
| `Pins.RoutedPinCount` | adc.c:27-75 | The routed pin count is 12 if `conf == 1`, and 16 otherwise. |
| `Pins.LaunchPadPinsWithinCustom` | adc.c:27-66 | The `conf == 1` pin set is a strict subset of the other variant's pin set. |
| `Pins.Port8AlwaysRouted` | adc.c:68-75 | P8.4-P8.7 are routed whatever `conf` is. |
| `Pins.SixteenSlotRouting` | adc.c:111-354 | The 16-slot table does not depend on `conf`. On the 12-pin board its unrouted inputs are exactly A0, A1, A2 and A15; on the 16-pin board there are none. |
| `Pins.PinOfChannel` | doc_bkp.c:53-103 | Input Ak's pin maps back to Ak. |
| `Pins.PinChannelRoundTrip` | doc_bkp.c:53-103 | Every analog-input pin is the pin of its own input. |
| `Adc12B.Converter.constructor` | main.c:57-71 | The converter before `ADC12_B_init`: not initialised or enabled, no timer, no slot configured, no flag raised or armed, no conversion started. |
| `Adc12B.Converter.Init` | main.c:65-71 | `ADC12_B_init` leaves the converter initialised and changes nothing else. |
| `Adc12B.Converter.Enable` | main.c:73-74 | `ADC12_B_enable` leaves the converter enabled and changes nothing else. |
| `Adc12B.Converter.GetResults` | main.c:195-210 | `ADC12_B_getResults` returns the content of the named memory buffer and clears that buffer's flag, and no other. |
| `Adc12B.Ports.constructor` | main.c:50-54 | Before any routing call, no pin is given to a peripheral function. |
| `Adc12B.Converter.ConfigureMemory` | adc.c:128 | A `configureMemory` call appends its slot to the table, and nothing else changes. |
| `Adc12B.Converter.ClearInterrupt` | main.c:150-153 | Clears exactly the named flags of the chosen register. |
| `Adc12B.Converter.EnableInterrupt` | main.c:156-159 | Arms exactly the named interrupts, in addition to those already armed. |
| `Adc12B.Converter.StartConversion` | main.c:167-169 | Records the start buffer and the conversion mode. |
| `Adc12B.Converter.SetupSamplingTimer` | adc.c:105-108 | Records the two hold times and the multiple-sample flag. |
| `Adc12B.Ports.SetAsPeripheralInput` | adc.c:71-75 | Adds exactly the named pins of the named port to the routed set. |

## Left out

- `main()` is modelled only from pin routing to the start of conversion. The
  watchdog hold (main.c:41), `PMM_unlockLPM5` (main.c:54), the LPM0/GIE entry
  (main.c:172) and the LCD header are left out, because they are plain
  hardware side effects with no state this core uses.
- Converter hardware behaviour is left out: autonomous scanning and its
  timing, the clock source, the dividers, the sample-and-hold signal source
  and reference settling. `ADC12_B_init` is recorded only as "initialised".
- The driver library's register encoding is left out. Only the zero selector
  for AVCC/AVSS and the meaning of each call are modelled. The converter's
  results are parameters of `Isr`.
- `Results.ResultStore.Isr` reads the four memory buffers first and then
  stores them (`Store`). The code alternates each read with its store. The
  reads change only the converter's flags and the stores only the rings, so
  the outcome is the same.
- The converter latching conversion results into ADC12MEMk is left out.
  `Adc12B.Converter.mem` holds whatever the hardware left, and a buffer never
  latched reads as 0.
- The numbering of ADC12IV follows the handler's comments (vector 6 + 2k is
  ADC12IFGk). The code's header says it was adapted from an ADC12_A example.
  The ADC12_B user's guide lists vectors 6, 8 and 10 as the window-comparator
  flags and starts ADC12IFG0 at vector 12. If that is the right numbering,
  the one armed interrupt (ADC12IE3) raises vector 18, which the handler
  ignores. The device header that settles this is not part of this model.
- `Adc12B.Converter.memory` is the list of `configureMemory` calls in call
  order, not a register table indexed by buffer number. A second call for the
  same buffer would add an entry rather than overwrite one, and
  `Sequence.SequenceEnd` walks list positions, which equal buffer numbers
  only for a well-formed table. No setup configures a buffer twice, so this
  changes no result here.
- `__even_in_range` is left out. The handler takes any integer vector, and
  every value it does not list behaves like `default`.
- Preemption between the handler and the background context is left out.
  `Isr` is one atomic step. The code has no reader, no interrupt masking and
  no torn-read handling.
- `latest`, `window`, a `filled` flag, `stop()` and a configuration check that
  can fail are left out, because the code has none of them.
  `Sequence.WellFormed` and `Sequence.Coherent` state, as predicates, what
  such a check would test.
- The third mask of `ADC12_B_enableInterrupt` is left out. It covers the
  overflow and window-comparator interrupts and is zero at the only call.
- The GPIO module-function argument is left out. It is always the ternary
  analog function.
- The sample-and-hold split is modelled for buffers 0-15 only. These are the
  buffers the code configures.
- `index` is a `uint16_t` in the code. It is modelled as an unbounded natural
  because it never exceeds 8, so it cannot wrap around.
- Sample values are raw 16-bit cells. There is no scaling, filtering or
  floating point.
- doc_bkp.c is unused backup code. It is used only for the naming of pins and
  channels.
- adc.h holds only declarations. The board selector `conf`, which it declares
  `extern`, is a parameter of `Adc.InitGpioForAllInputs`.
