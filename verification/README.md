# LED panel gateware: a Dafny model

This project models the pixel path of an LED-panel controller, from the UDP
payload to the driver chips, and proves what the path is for. Each hardware
module is a clocked state machine. It appears twice: as a class whose `Clock`
method is one rising edge, written in the source's order of assignments (a later
assignment to a register in the same cycle wins), and as functions `Next` and
the outputs on register values. The `ensures` of `Clock` ties the two together,
and the lemmas speak about runs of `Next` under every environment.

| part | files |
|---|---|
| Streamed pixel DMA, swap register and double buffer | `Dma`, `Frames`, `WholeFrames`, `Display`, `FirstFrame`, `EngineLimits`, `Watchdog`, `Settings` |
| Senders of test patterns and of the player, and the round trips | `Sender`, `CardStream` |
| Scan-out fetch path: arbiter, block source, three-slot line buffer | `Arbiter`, `Routing`, `Fairness`, `PixelSource`, `LineBuffer`, `FetchUnit`, `FetchInv`, `FetchStep`, `FetchPath`, `ThreeSlots`, `Deadline`, `FillOrder`, `ThirdSlot`, `FillTime`, `FillBound` |
| S-PWM output stage, chip chain and row order | `Spwm`, `Waveform`, `FrameTime`, `FrameStart`, `ShiftChain`, `ChainRun`, `FetchOrder`, `FrameReads`, `Drivers`, `Registers`, `TakenWords` |
| From memory to glass, and from packets to glass | `Pacing`, `ScanOut`, `Freshness`, `TickRun`, `Glass`, `EndToEnd`, `FlipCut`, `FlipFrame` |
| Ethernet stream stages and the pixel unpacker | `Splitter`, `Narrowing`, `WireBytes`, `PixelFilter`, `WireHeaders`, `LongFrames`, `Unpacker` |
| The panel compiler's row hoisting | `PanelCompiler`, `PanelMeaning` |

The chain of results ends in `EndToEnd.FrameReachesTheGlass`: whatever is lost,
repeated, reordered or delayed, the frame the engine flipped to is, pixel by pixel,
what the driver chips hold; and `FlipFrame.FlipSplitsThePicture` says which of two
frames each position holds when the engine flips in the middle of a frame of the panel.

## Assumptions

- SDRAM is a map. A write takes effect when the writer accepts it; a read takes
  the word the memory holds in the cycle its command is accepted; the display base in
  its address is that of the cycle in which the source's address register took it.
  Words return in order, only for accepted commands, after any delay. In
  `FetchPath` contents and base may change in every cycle.
- CSR settings are constants of a run, except the DMA's throttle, which is free
  every cycle, and in `EngineLimits`, `Watchdog` and `Settings`, where every input is.
- `Display`, `FirstFrame`, `Sender`, `CardStream` and `EndToEnd` fix auto_swap and
  swap_whole_only on, with no CPU write of the display base. Packets have two bytes
  or more. A sender delivers whole chunks with an index below the total (1 to 512),
  and packets of one run of equal frame ids belong to one frame. Packets of other
  kinds, and packets cut off inside the header, may come at any time.
- The gamma conversion, the wiring of a word's parts to the three data lines of a
  group, the glyph and icon rasterisers and `lambda` code are uninterpreted functions.
- One tick of `Spwm` is one panel clock; its start level and pixel inputs are free in
  every tick. `c.image` is only what `ChainRun` and `Drivers` compare with; from
  `TakenWords` on the drivers are compared with the words the stage was given.
- A lambda widget's `row:` code is spliced into the prologue that all widgets share and
  may rebind anything in scope. `HoistingPreservesMeaning` asks that it leaves alone what
  the compiler has bound; `RowCodeCanHide` shows that it must.
- The only timing premise from `ScanOut` on is `FastEnough`: no fill takes longer than
  the part of a row before the next row is first read, less two cycles. `ThirdSlot` and
  `ScanOut.NoReadIsLate` ask for less: single fills may take almost two rows, so long as
  the fills from one rest of the buffer to the next keep up together. `FillBound` computes
  a fill's longest time from the memory alone: how many cycles it lets a command wait, and
  how long its answer takes.

## Results that go against expectation

- A first frame with id 0 is lost. After reset the published frame id is 0, so its
  packets start no new run: no total or format is committed, the next frame change
  publishes total 0 for a run that landed chunks, and no flip shows it
  (`ZeroFrameIsLost`, from reset to that frame change). The snapshot is right if and
  only if some pixel packet before had another id (`PublishedExactly`).
- The DMA compares a write address with the upper end of the half only, and the
  address has 24 bits. A wide header can name a chunk whose address wraps round into
  the displayed half (`LargeIndexReachesTheDisplay`, fifteen bytes after reset).
  `SeparationInRuns` gives the exact condition; every index the 512-bit bitmap can
  hold meets it.
- `write_base_next` is not the next write base when the CPU writes the display base
  in the same cycle to the other half; `PredictionIsExact` gives the condition.
- The classifier's beat counter has eight bits. A frame of more than 267 beats can
  draw a verdict from its payload: for frames of up to 523 beats a verdict falls if
  and only if it is a pixel packet, or beat 266 is not 'BP' and the port headers are
  right at the front or 256 beats later (`VerdictExactly`). So a palette packet of 269
  beats or more is cut unless beat 266 reads 'BP' again (`LongPaletteIsCut`),
  and so is a frame that is not even IPv4 (`LookalikeIsCut`).
- A pixel packet of exactly twelve beats leaves whole if its last beat is taken in the
  cycle after its eleventh, and is cut if it is not (`EndAtOnce`, `EndLater`).
- CLK_PAD holds within a frame. Between frames the next VSYNC comes 4 + d low clocks
  after the last data latch when the start is withheld for d clocks, so the spacing
  is kept if and only if d is four or more, or data latches are off
  (`SpacingBetweenFrames`).
- Without run keeping the arbiter can starve a source for as long as one likes: the grant
  moves with every command, and if the memory is never ready in the one cycle after it
  stands at a source, that source is passed by (`SourceStarves`, `ServedNext`). Ready in
  those cycles, it waits for n commands at most (`NoMoreThanNCommands`).
- Condition keys that differ only in punctuation become one Rust local, and the later
  one is then compared for both (`KeysCanClash`, `HoistingExactly`).

## Model

| member | source | states |
|---|---|---|
| Dma.PredictionIsExact | firmware/gateware/dma_writer.py:435-457 | the predicted write base equals the one the swap register produces a cycle later, if and only if no CPU write moves the register to the other half |
| Dma.SwapRegister.Clock | firmware/gateware/hub75.py:118-130 | the display base after an edge: a CPU write wins, else an enabled request flips it |
| Dma.Engine.ClockHeader | firmware/gateware/dma_writer.py:527-638 | one header byte, in all three formats, including the frame change and a packet that ends inside the header |
| Dma.Engine.ClockPixels | firmware/gateware/dma_writer.py:670-711 | one payload cycle: gathering a triple, the write handshake, the watchdog, the arrival bit |
| Dma.Engine.Clock | firmware/gateware/dma_writer.py:343-715 | the registers after any cycle and the ready, write, swap request and landing of that cycle |
| WholeFrames.HeaderEndIsChunk | firmware/gateware/dma_writer.py:353-389 | the registers at the end of a header name the packet's frame, index and total, whatever the format |
| WholeFrames.PixelIsFrames | firmware/gateware/dma_writer.py:459-487 | an emitted word is the frame's own pixel at its own place |
| WholeFrames.WriteIsInBackHalf | firmware/gateware/dma_writer.py:343-351 | an accepted write lies within [write base, write base + limit), outside the displayed half |
| WholeFrames.CountIsEvidence | firmware/gateware/dma_writer.py:405-421 | received equal to the total forces the arrival set to be all indices, and the write half to hold the whole frame |
| WholeFrames.StepInv | firmware/gateware/dma_writer.py:489-715 | every cycle keeps: header bytes in registers, the arrived chunks exact in the write half, the shown frame exact in the displayed half |
| Display.FlipMovesBase | firmware/gateware/hub75.py:120-130 | the displayed base moves exactly when the engine asks |
| Display.FlipShowsCurrent | firmware/gateware/dma_writer.py:573-620 | a flip shows the frame whose chunks were arriving, with as many distinct chunks as it promised |
| Display.WholeFramesOnly | firmware/gateware/dma_writer.py:582-636 | under any loss, duplication, interleaving and abort, from a flip to the next one the displayed half is one complete frame on [0, limit) |
| Display.OnlyTheFirstFlipPromisesNothing | firmware/gateware/dma_writer.py:413-421 | the exempt flip, with both counters zero, can only be the first frame change after reset |
| Display.WritesAvoidTheDisplay | firmware/gateware/dma_writer.py:343-351 | no cycle of any run changes a word of the half displayed in that cycle |
| Display.RunArrival | firmware/gateware/dma_writer.py:489-505 | the bitmap is the set of chunks landed since the run of the current frame id began |
| Display.CompletionEvidence | firmware/gateware/dma_writer.py:582-628 | received is the cardinality of that set; a snapshot changes only as a whole, its bitmap that of the run just finished, and so its id, total and format once a total was committed |
| Display.FlipsExactlyWhenWhole | firmware/gateware/dma_writer.py:582-620 | with a total committed, a frame change flips if and only if every chunk of the run it ends has landed |
| FirstFrame.PublishedExactly | firmware/gateware/dma_writer.py:573-628 | the published id, total and format are the finished run's if and only if some pixel packet so far had a frame id other than 0 |
| FirstFrame.FirstZeroRunIsLost | firmware/gateware/dma_writer.py:573-620 | a first run with id 0 that landed chunks is published as nothing and never flipped to |
| FirstFrame.ZeroFrameIsLost | firmware/gateware/dma_writer.py:573-628 | a run from reset in which this happens to a whole frame, with nothing lost or delayed |
| Display.LandedOrDropped | firmware/gateware/dma_writer.py:670-715 | a finished pixel packet landed or was abandoned, never both: an abandoned one sets no arrival bit |
| Watchdog.AbandonedExactly | firmware/gateware/dma_writer.py:639-675 | a payload is given up in a cycle if and only if the 8192 cycles before were all in the payload without a byte taken, and this one does not take the last |
| Watchdog.KeptUpPayloadLands | firmware/gateware/dma_writer.py:639-711 | a payload without a gap of 8192 cycles lands, however slowly it comes |
| Watchdog.LandedIsDone | firmware/gateware/dma_writer.py:705-711 | a payload is landed exactly in the cycle that leaves it for the next packet, and its chunk is then in the bitmap |
| Watchdog.DroppedExactly | firmware/gateware/dma_writer.py:639-715 | in the closed system, a packet is abandoned exactly when its payload was starved for 8192 cycles |
| Settings.DisabledRests | firmware/gateware/dma_writer.py:514-526 | disabled between packets, the engine drains its input, writes nothing and never flips |
| Settings.ThrottleSpaces | firmware/gateware/dma_writer.py:687-700 | after a pixel under throttle k none is taken for k cycles, and then one is as soon as it is offered and the writer is ready |
| Settings.FlipsBySettings | firmware/gateware/dma_writer.py:602-620 | for any setting of the switches: the display flips exactly at a frame change with auto_swap on and either all promised chunks counted or swap_whole_only off |
| Settings.NeverFlips | firmware/gateware/dma_writer.py:448-457 | with auto_swap off the display stays |
| EngineLimits.WriteGoesWhereTheHeaderSays | firmware/gateware/dma_writer.py:423-428 | for arbitrary bytes every write is the next pixel of the named chunk, below the limit |
| EngineLimits.PixelIsWritten | firmware/gateware/dma_writer.py:459-487 | with a ready writer, pixel k of a payload is written at base + offset + k modulo 2^24 if that is below the limit, and not otherwise |
| EngineLimits.SeparationInRuns | firmware/gateware/dma_writer.py:423-428 | over runs: such a payload of n pixels writes outside the write half if and only if its last address wraps 24 bits |
| EngineLimits.BitmapIndicesAreSafe | firmware/gateware/dma_writer.py:402-408 | every index below 512 meets that condition in every format |
| EngineLimits.LargeIndexReachesTheDisplay | firmware/gateware/dma_writer.py:378-389 | a run from reset: fifteen bytes of a wide packet with index 33847, whose write is accepted inside the displayed half |
| EngineLimits.BlockingIsBounded | firmware/gateware/dma_writer.py:639-647 | for any memory and sender, the input is not-ready for at most stall_limit + 1 cycles in a row |
| Sender.SendRgbData | firmware/tools/send_test_pattern.py:90-125 | the packets in order, one per chunk; nothing when the header cannot be packed |
| Sender.PacketIsChunk | firmware/tools/send_test_pattern.py:9-13 | a sent packet is the parser's chunk, with no gap or overlap at boundaries or the short tail |
| Sender.ShuffledFrameIsWritten | firmware/gateware/dma_writer.py:670-711 | packets in any order and number, none abandoned: the write half holds the frame |
| Sender.RoundTrip | firmware/tools/send_test_pattern.py:102-116 | pixel k of the image is at write base + k as R, G << 8, B << 16 |
| CardStream.Stream.SendChunked | server/packages/marquee_core/marquee_core/stream.py:328-387 | one frame of the player: the frame id, the format chosen by the number of chunks, the refusals, every copy of every packet in order |
| CardStream.Stream.SendFrame | server/packages/marquee_core/marquee_core/stream.py:283-288 | an RGB body of the wrong length is refused and takes no id |
| CardStream.Stream.SendFrameIndexed | server/packages/marquee_core/marquee_core/stream.py:290-303 | likewise an indexed body |
| CardStream.FormatByLength | server/packages/marquee_core/marquee_core/stream.py:79-85 | narrow up to 372555 bytes, wide up to 95550030, an indexed frame refused beyond the former; as many chunks as the body needs |
| CardStream.DatagramsFit | server/packages/marquee_core/marquee_core/stream.py:70-92 | every datagram fits the link in every format, and in the two RGB formats a pixel more would not |
| CardStream.PacketIsNth | server/packages/marquee_core/marquee_core/stream.py:328-387 | a packet sent is the parser's chunk, at 487, 486 or 1461 pixels a chunk, and names the image's size |
| CardStream.CopiesAreTheFrame | server/packages/marquee_core/marquee_core/stream.py:376-385 | the frame's packets go out first and in order, and what follows are the same packets again |
| CardStream.StreamRoundTrip | server/packages/marquee_core/marquee_core/stream.py:328-387 | narrow, wide and indexed: packets in any order, none abandoned: pixel k of the body is at write base + k |
| Arbiter.PipelinedArbiter.PickChain | firmware/gateware/icn1065.py:2356-2369 | the muxes pick the first eligible source in rotation, else the last |
| Arbiter.PipelinedArbiter.Clock | firmware/gateware/icn1065.py:2335-2452 | all registers after a cycle with any mix of issue and return, and the outputs |
| Routing.OfStep | firmware/gateware/icn1065.py:2412-2417 | a source's own reads in flight lose their oldest with its acknowledgement and gain one with its acceptance, nothing else |
| Routing.StepInv | firmware/gateware/icn1065.py:2419-2452 | every cycle keeps the ring, the counters and the histories in agreement |
| Routing.WordsReachTheirSource | firmware/gateware/icn1065.py:2412-2452 | the j-th word acknowledged to a source answers its j-th accepted address, for any depth, latency and stalls |
| Routing.CountersAccountForTheRing | firmware/gateware/icn1065.py:2340-2354 | each counter is the number of that source's tags in the ring; they add up to its fill |
| Routing.FullGuardNeverBlocks | firmware/gateware/icn1065.py:2335-2339 | with the default depth an eligible source never finds the ring full |
| Routing.ChainFindsEligible | firmware/gateware/icn1065.py:2356-2369 | if any source from some point of the rotation is eligible, the choice is eligible |
| Fairness.ChoiceIsFirst | firmware/gateware/icn1065.py:2356-2385 | the registered choice is the first source from the grant on that asks and has room |
| Fairness.NoMoreThanARound | firmware/gateware/icn1065.py:2419-2452 | with run keeping, while a source that could be served waits, at most n runs of the others end, whatever memory and requests do |
| Fairness.ServedNext | firmware/gateware/icn1065.py:2356-2401 | without run keeping, a source at which the grant stands is served in the next cycle if and only if ring and memory have room then |
| Fairness.NoMoreThanNCommands | firmware/gateware/icn1065.py:2419-2452 | with room in those cycles it waits for n commands at most |
| Fairness.SourceStarves | firmware/gateware/icn1065.py:2432-2441 | without, runs from reset of any length in which a source that could always be served never is, the memory taking two commands in three cycles |
| Fairness.SomethingIssues | firmware/gateware/icn1065.py:2387-2410 | with room and a ready memory the arbiter issues within two cycles, the idle cycle after a run excepted |
| PixelSource.PairingIsComplete | firmware/gateware/icn1065_soc.py:61-72 | pairing is a permutation of the groups, pairs equal rows whenever that is possible, and else takes neighbours |
| PixelSource.BlockSource.Clock | firmware/gateware/icn1065.py:1433-1581 | issue and receive registers after a cycle |
| LineBuffer.Buffer.Clock | firmware/gateware/icn1065.py:2074-2162 | slot registers and memory after a cycle, the request and `primed` |
| FetchInv.StepAddress | firmware/gateware/icn1065.py:1483-1493 | the stepped address register is the plain address of the next group or column |
| FetchInv.SenderIssues | firmware/gateware/icn1065.py:1518-1534 | an accepted command leaves the register on the next plain address, across the change of phase |
| FetchInv.RunIsOnePair | firmware/gateware/icn1065.py:1518-1534 | the run-end mark is on a command exactly when the next of its block is not of the same pair of groups |
| FetchInv.ReceiverTakes | firmware/gateware/icn1065.py:1556-1580 | staging and publishing: a published column holds, for all four groups, the words returned for that column |
| FetchStep.RequestWalk | firmware/gateware/icn1065.py:2133-2139 | the request pointer walks whole blocks and stops at the last column |
| FetchStep.LastColumnIsLast | firmware/gateware/icn1065.py:2140-2152 | when the last column is stored no read is in flight or still to be sent |
| FetchStep.UnitStep | firmware/gateware/icn1065.py:2112-2153 | a cycle of buffer and source keeps: finished slots exact, the fill on its row, reads in flight answering the expected entries |
| FetchPath.PathStep | firmware/gateware/icn1065.py:2454-2464 | a cycle of all outputs behind the arbiter is always possible and keeps every unit's invariant |
| FetchPath.FinishedRowsAreFetched | firmware/gateware/icn1065.py:1433-1581 | whatever is written and flipped, a finished slot holds per column and group the converted word the memory held when it took that entry's own read, at base + row*width + column + offset[group] |
| FetchPath.FinishedRowsAreExact | firmware/gateware/icn1065.py:1433-1581 | so conv(mem[base + row*width + column + offset[group]]) for a fill during which base and words of the row stay |
| FetchPath.PrimedReadsAreFetched | firmware/gateware/icn1065.py:2155-2162 | data registered while primed is what the slot's fill fetched for the row and column read |
| ThreeSlots.PrimedSlotIsNotWritten | firmware/gateware/icn1065.py:2115-2129 | primed: the slot read holds the requested row and the cycle's store leaves it alone |
| ThreeSlots.HeldRowsStay | firmware/gateware/icn1065.py:2075-2107 | a row at most two ahead stays in its slot until the serialiser has left it, across frame wraps |
| ThreeSlots.PrimedStays | firmware/gateware/icn1065.py:2155-2162 | primed once for a row is primed at every later read of that row |
| Pacing.StageFollows | firmware/gateware/icn1065.py:866-884 | in every run of the stage behind any divider the row counter stays or goes to the next row, and the row read is it or the next |
| Pacing.StageIsPaced | firmware/gateware/icn1065_soc.py:523-536 | a row lasts at least 16 * columns * divider cycles, and the next row is read only in its last sweep_adv sixteenths |
| Deadline.NoReadIsEarly | firmware/gateware/icn1065.py:2074-2162 | for any serialiser so paced: if a fill's longest time and two cycles fit before the next row is read, every read after the first row is primed |
| FillOrder.InOrderRun | firmware/gateware/icn1065.py:2112-2129 | rows are fetched in order: no row is in its slot before the row in front of it, in any run so paced |
| ThirdSlot.RestsWithTwoRows | firmware/gateware/icn1065.py:2093-2107 | two cycles without a fill: both of the next two rows are in the two slots after the serialiser's |
| ThirdSlot.NoReadIsLate | firmware/gateware/icn1065.py:2074-2131 | fills that may each take longer than a row, so long as those from rest to rest keep up together, leave every later read primed |
| ScanOut.NoReadIsEarly | firmware/gateware/icn1065.py:866-884 | the same for every output read by its own stage, with fast fills the only premise |
| ScanOut.NoReadIsLate | firmware/gateware/icn1065.py:2074-2131 | the same deadline with the stage itself as serialiser |
| FillTime.FillsAreFast | firmware/gateware/icn1065.py:1433-1581 | if no command of an output waits w cycles and every word is back within l, n blocks are fetched in n * (3 + 4 * block * w) + w + l + 1 cycles |
| FillBound.NoOutputIsStarved | firmware/gateware/icn1065.py:2356-2452 | with run keeping, as block fetch is built: if the memory lets no command wait r cycles and answers within l, the wait of any output's command is bounded, however the outputs compete |
| FillBound.EveryFillEnds | firmware/gateware/icn1065.py:2112-2153 | so every fill ends within a time that depends on the memory alone |
| FillBound.MemoryIsFastEnough | firmware/gateware/icn1065.py:2074-2162 | and if that time fits, every read after the first row is primed |
| ScanOut.EveryPixelOnTime | firmware/gateware/icn1065_soc.py:750-771 | then every read after the first row registers the word fetched for the stage's own row and column, from memory to serialiser |
| Freshness.RecentlyFilled | firmware/gateware/icn1065.py:2075-2107 | what is read was filled no earlier than three rows back, for every even row count |
| Freshness.StillPictureIsRead | firmware/gateware/icn1065_soc.py:750-771 | a picture and base at rest for three rows are read as they are, at every row, column and group |
| Spwm.OutputStage.ClockCommand | firmware/gateware/icn1065.py:135-167 | one tick of the burst emitter, a zero pad included |
| Waveform.BurstExactly | firmware/gateware/icn1065.py:135-167 | a burst is high for its length and low for its pad, none if that is zero, whatever the inputs do meanwhile; then the emitter is free |
| Spwm.OutputStage.ClockBlock | firmware/gateware/icn1065.py:212-237 | one tick of a register block, reloading per chip |
| Spwm.OutputStage.ClockPrefix | firmware/gateware/icn1065.py:343-389 | one tick of the prefix with its two submodules |
| Spwm.OutputStage.ClockSerialiser | firmware/gateware/icn1065.py:579-604 | one tick of the pixel serialiser, reloading without a gap |
| Spwm.OutputStage.ClockControl | firmware/gateware/icn1065.py:946-1140 | one tick of the frame control |
| Spwm.OutputStage.Clock | firmware/gateware/icn1065.py:925-1140 | all registers after a tick, LAT, frame_done and pix_req |
| Waveform.FrameStep | firmware/gateware/icn1065.py:946-1140 | a tick keeps the frame's place and what a receiver has read from LAT in step |
| Waveform.FramesDecode | firmware/gateware/icn1065.py:888-927 | a done frame reads as VSYNC, optional middle burst, PRE_ACT, one 5 per slot (16 for a count of 0), then latch_phase + 16*rows single clocks, each pulse at least CLK_PAD low clocks after the one before |
| Waveform.SpacingBetweenFrames | firmware/gateware/icn1065.py:1115-1140 | with the start withheld d clocks the next VSYNC comes 4 + d low clocks after the last data latch; CLK_PAD is kept if and only if d is at least 4 or data latches are off |
| FrameTime.FrameTakesExactly | firmware/gateware/icn1065.py:946-1140 | a frame begun is done exactly FrameTicks clocks later and not before |
| FrameStart.StartIsAnswered | firmware/gateware/icn1065.py:946-1140 | the first start after reset or a frame's end has its frame done exactly FrameTicks + 1 clocks later, and none is done before |
| FrameStart.RequestsAreOneAhead | firmware/gateware/icn1065.py:958-1041 | a frame asks for one pixel at the start of its prefix, and then for one with each pixel taken; between frames for none |
| FrameTime.FrameTicksIs | firmware/gateware/icn1065.py:1143-1178 | how many clocks that is for any grammar |
| FrameTime.PredictorIsExact | firmware/gateware/icn1065.py:1143-1178 | frame_clocks is exact for the middle burst, five slots and no phase latches |
| ShiftChain.PartwayShifts | firmware/gateware/icn1065.py:587-604 | a shift moves the next bit from the register to the chain and loses none |
| ShiftChain.BitsNextSweep | firmware/gateware/icn1065.py:1100-1113 | at the end of a sweep the chain holds exactly the sweep's words when LAT rises, and the next sweep follows without a gap |
| ShiftChain.BlockBitsStep | firmware/gateware/icn1065.py:221-237 | a register block fills the chain with one word per chip |
| ChainRun.RegsStep | firmware/gateware/icn1065.py:240-389 | a tick keeps the register blocks a chip has taken in step with the prefix, whatever the pixels |
| ChainRun.WordsStep | firmware/gateware/icn1065.py:925-1140 | a tick keeps the chain's bits and its data commits in step with the frame |
| Drivers.BitsAreTheWord | firmware/gateware/icn1065.py:562-575 | sixteen bits, most significant first, spell the word |
| Drivers.PaddedWithZeros | firmware/gateware/icn1065.py:562-565 | a value of g bits goes out with 16 - g leading zeros |
| Drivers.EveryChipIsConfigured | firmware/gateware/icn1065.py:240-389 | every chip gets each slot's table word of its colour lane, and the rotation moves on by one |
| Registers.SlotsCarry | firmware/gateware/icn1065.py:331-340 | in a done frame the rotating slot carries the table row of the frame's register index, and the w-th other slot table row 64 + w, on every chip |
| Registers.FixedInOrder | firmware/gateware/icn1065.py:331-340 | the other slots are numbered in order, none skipped or repeated |
| Registers.NextFrameTurns | firmware/gateware/icn1065.py:343-389 | the next frame carries the next register row, and the first after the last |
| Registers.EveryRegisterIsSent | firmware/gateware/icn1065.py:343-389 | of as many consecutive frames as there are register rows, exactly one carries each |
| Drivers.EveryChipGetsItsWord | firmware/gateware/icn1065.py:1036-1125 | 16 latches per row, the last in DRAIN, each committing to every chip its own word for that row and channel |
| Drivers.CommitsLand | firmware/gateware/spwm_chips.py:544-559 | a frame's latches fill every position once, the last one position 0, and bring the pointer back |
| Drivers.GlassShowsTheImage | firmware/gateware/spwm_chips.py:521-559 | with sweep_adv 1 and a straight channel order every driver position holds its own pixel |
| TakenWords.GlassHoldsWhatIsTaken | firmware/gateware/icn1065.py:1036-1140 | in any run, with no image given: each driver position holds the word its line was given in the one tick of the frame that took its row and column |
| TickRun.TicksAreARun | firmware/gateware/icn1065_soc.py:523-536 | the ticks of any run of system cycles are a run of the stage |
| Glass.GlassHoldsWhatIsRead | firmware/gateware/icn1065_soc.py:815-845 | and so the data the line buffer registered in a cycle of the frame in which the stage stood at that row and column |
| Glass.RowsSettle | firmware/gateware/icn1065.py:866-884 | reads three rows past a cycle stay so: a whole frame's reads are settled if its first is |
| Glass.GlassShowsMemory | firmware/gateware/icn1065_soc.py:815-845 | when a frame is done that began three rows after picture and base came to rest, every driver position holds the converted word from memory of its own row, column and group |
| EndToEnd.FrameIsStill | firmware/gateware/icn1065_soc.py:699-712 | while a flipped-to frame is on show, the scan-out's window reads that frame's pixels in every cycle, though the engine writes the next |
| EndToEnd.FrameReachesTheGlass | firmware/gateware/icn1065_soc.py:699-771 | engine, fetch path, stage and drivers together: the frame whose chunks had all arrived at the flip is what the drivers hold, for any loss, order, stalls and latency with fast fills |
| FlipCut.AboveIsBefore | firmware/gateware/icn1065.py:2112-2153 | a row that was there at some cycle and is read later is read from the fill it had then, done before that cycle |
| FlipCut.BelowIsAfter | firmware/gateware/icn1065.py:2112-2153 | a row not begun at that cycle is read from a fill begun afterwards |
| FlipFrame.FlipSplitsThePicture | firmware/gateware/icn1065_soc.py:699-771 | a frame of the panel during which the engine flips: every position above the cut holds the old frame's converted pixel, every position below it the new one's |
| FlipFrame.CutFollowsTheStage | firmware/gateware/icn1065_soc.py:699-771 | up to the row the stage is in at the flip a position is above the cut, and from four rows on below it |
| FlipFrame.OneRowIsMixed | firmware/gateware/icn1065.py:2112-2129 | positions neither above nor below are of one row, the one being fetched at the flip |
| FetchOrder.EveryPixelIsRead | firmware/gateware/icn1065.py:866-884 | for every chan_rev, chan_xor and sweep_adv, the sweep and section at which a row and column is presented |
| FetchOrder.NoPixelIsReadTwice | firmware/gateware/icn1065.py:866-884 | and that no other sweep and section presents it |
| FrameReads.FrameTakesEachPixelOnce | firmware/gateware/icn1065.py:1036-1113 | over runs: the load ticks of one frame present every row and column of the panel exactly once, and nothing else |
| FetchOrder.SettingsExactly | firmware/gateware/spwm_chips.py:521-559 | every position gets its own pixel if and only if sweep_adv is 1 and the reversal and XOR cancel |
| Splitter.StreamSplitter.Clock | firmware/gateware/smoleth.py:166-203 | the flags after a cycle, both valids and the sink's ready |
| Splitter.EveryBeatOnceInOrder | firmware/gateware/smoleth.py:166-203 | each consumer has received exactly the beats taken, in order, plus at most the one on offer |
| Splitter.LeavesExactly | firmware/gateware/smoleth.py:166-203 | a beat on offer leaves the sink in exactly the cycle by which each consumer has been ready once since it came |
| Narrowing.Branch.Clock | firmware/gateware/smoleth.py:797-836 | reject flags and byte serialiser after a cycle, and the outputs |
| Narrowing.BytesOfTheRest | firmware/gateware/smoleth.py:925-975 | the bytes sent are those of the packets not group-addressed, under any readiness |
| Narrowing.LastOnFinalByte | firmware/gateware/smoleth.py:915-923 | `last` is on a packet's final real byte and no other, and every byte is the wire's |
| WireBytes.OnlyOurBytesLeave | firmware/gateware/smoleth.py:797-836 | on the wire's bytes: a packet's bytes leave if and only if its first byte is even or its first four are 255 |
| WireBytes.UnicastLeaves | firmware/gateware/smoleth.py:797-836 | a unicast packet leaves whole |
| WireBytes.BroadcastLeaves | firmware/gateware/smoleth.py:797-836 | so does a broadcast |
| WireBytes.MulticastDoesNot | firmware/gateware/smoleth.py:797-836 | of a multicast packet no byte leaves |
| WireBytes.RejectedCounts | firmware/gateware/smoleth.py:821-829 | the counter is the number of multicast packets begun, on 32 bits |
| WireBytes.WordsGoOut | firmware/gateware/smoleth.py:925-975 | a word is out after as many ready cycles as it has bytes, and then the next is taken at once |
| PixelFilter.Filter.Clock | firmware/gateware/smoleth.py:645-767 | classifier and invalidator after a cycle, the beat sent and the sink's ready |
| PixelFilter.StepInv | firmware/gateware/smoleth.py:720-767 | a cycle keeps every finished frame passed or rightly cut, with no verdict left over |
| PixelFilter.VerdictIsHeaders | firmware/gateware/smoleth.py:662-712 | up to 267 beats the verdict is exactly: IPv4 without options, UDP, the port, not 'BP' |
| WireHeaders.HeadersOnWire | firmware/gateware/smoleth.py:645-712 | the header test is on bytes 12 to 14, 23, 36, 37, 42 and 43 of the frame |
| PixelFilter.PixelFramesAreCut | firmware/gateware/smoleth.py:720-767 | a pixel packet of 13 beats or more leaves as its first 11 or 12 and an error-marked end |
| PixelFilter.OtherFramesPass | firmware/gateware/smoleth.py:720-767 | other frames up to 267 beats, and all of at most 11, leave verbatim whatever came before |
| PixelFilter.HeldForTheEnd | firmware/gateware/smoleth.py:720-767 | a beat refused though the consumer is ready is the last of a frame being cut; the error-marked end leaves then, and the next cycle takes the beat |
| PixelFilter.RestIsTaken | firmware/gateware/smoleth.py:745-767 | the rest of a frame being cut is taken without asking the consumer |
| WireHeaders.FilteredByWire | firmware/gateware/smoleth.py:645-767 | by those bytes alone, a frame of 13 to 267 beats leaves cut or whole |
| WireHeaders.TcpPasses | firmware/gateware/smoleth.py:645-767 | a TCP frame leaves whole on any port |
| WireHeaders.PalettePasses | firmware/gateware/smoleth.py:645-767 | so does a palette packet |
| LongFrames.VerdictExactly | firmware/gateware/smoleth.py:649-712 | up to 523 beats a verdict falls if and only if the frame is a pixel packet, or its payload or a palette packet's front looks like one 256 beats on |
| LongFrames.FramesUpTo523 | firmware/gateware/smoleth.py:720-767 | so what leaves: cut at beat 11 or 12, cut at beat 267 or 268, or whole |
| LongFrames.LongPaletteIsCut | firmware/gateware/smoleth.py:649-712 | a palette packet of 269 beats or more is cut unless beat 266 is 'BP' again |
| LongFrames.LongFramesCanBeMisjudged | firmware/gateware/smoleth.py:649-675 | for every such frame there is a run in which it leaves cut |
| LongFrames.LookalikeIsCut | firmware/gateware/smoleth.py:649-675 | on every port, one such frame and its run: 269 beats, not IPv4, cut |
| LongFrames.EndAtOnce | firmware/gateware/smoleth.py:720-767 | a pixel packet of twelve beats whose last beat is taken in the cycle after its eleventh leaves whole |
| LongFrames.EndLater | firmware/gateware/smoleth.py:720-767 | not taken in that cycle, the frame can no longer leave whole |
| LongFrames.DoomedIsCut | firmware/gateware/smoleth.py:720-767 | and is finished cut |
| Unpacker.WordsToPixels.Clock | firmware/gateware/words_to_pixels.py:116-156 | residue registers after a cycle and the pixels offered |
| Unpacker.WordStep | firmware/gateware/words_to_pixels.py:124-156 | a word's pixels are the triples of residue and word, and the residue what is left |
| Unpacker.PixelsAreTriples | firmware/gateware/words_to_pixels.py:94-156 | for any preload, words and backpressure, a payload's pixels are the triples of its bytes; nothing crosses `last` |
| Unpacker.TripleAt | firmware/gateware/words_to_pixels.py:94-115 | what the triples are: pixel k is bytes 3k to 3k + 2, one for each whole triple |
| PanelCompiler.EmitProgram | firmware/tools/panelc.py:223-338 | the loop's three lists, lambda row code included, and keys are the compiled code, or the first error |
| PanelCompiler.IdentIsIdentifier | firmware/tools/panelc.py:146-165 | the identifier of any name is one |
| PanelMeaning.IdentSays | firmware/tools/panelc.py:145-162 | letters and digits stay, all else becomes an underscore, and a prefix comes exactly where the name is empty or begins with a digit |
| PanelMeaning.HoistingExactly | firmware/tools/panelc.py:122-143 | per-row locals hold their keys' values, for all values, if and only if no two keys share an identifier |
| PanelMeaning.KeysCanClash | firmware/tools/panelc.py:146-165 | two different keys can share one |
| PanelMeaning.LocalsLand | firmware/tools/panelc.py:249-340 | after the prologue every text and icon finds its own locals, row code between them included, if that rebinds nothing |
| PanelMeaning.RowCodeCanHide | firmware/tools/panelc.py:309-333 | a program whose lambda's row code hides the icon before it |
| PanelMeaning.PositionsMean | firmware/tools/panelc.py:171-220 | every position on either axis is where the documentation puts it: right, bottom, end and center with any shift, the fallback of 2 for a run too wide, and the clamp at 0 |
| PanelMeaning.RefusedExactly | firmware/tools/panelc.py:191-215 | and exactly these tokens are refused: left or top with a minus sign, right, bottom or end shifted outward, end on the y axis or without a run |
| PanelMeaning.CentredEvenly | firmware/tools/panelc.py:216-220 | a centred run that fits has margins that differ by one at most |
| PanelMeaning.SkippedRowIsEmpty | firmware/tools/panelc.py:365-374 | a row skipped because no gate is open has nothing but background |
| PanelMeaning.GatesAreBands | firmware/tools/panelc.py:264-307 | a widget's gate is open exactly in the rows of its line, while its condition holds, and its local start is where the documentation puts it |
| PanelMeaning.HoistingPreservesMeaning | firmware/tools/panelc.py:249-385 | the generated row function gives every pixel the first covering widget's index, on every canvas and stretch of row |
| PanelMeaning.BorderGoesRound | firmware/tools/panelc.py:250-253 | a border in front: a pixel of the canvas has its colour if one of its four neighbours is off the canvas, else what the other widgets give |
| PanelMeaning.BorderAlone | firmware/tools/panelc.py:250-253 | alone: if and only if |
| PanelMeaning.IconAlone | firmware/tools/panelc.py:285-307 | an icon under a condition is drawn where its ink is, exactly while the value is, or is not, the literal |
| PanelMeaning.TextAlone | firmware/tools/panelc.py:254-284 | a text around a value reads prefix, value, suffix |

## Left out

- Dma.Engine.Clock: the counters and status windows (bad_magic, stalls, pixels, chunks, frames_held, peak and cycle counts) are not modelled; nothing in the engine reads them.
- A packet of the single byte 'B': the engine would take the next packet's first byte as its second header byte, so `Frames.Sound` asks for two bytes or more.
- Switching `enable` off and on inside a packet.
- Palette banks and their flip with the framebuffer: the conversion of a word is one function for the whole run.
- Within the one row that is being fetched when the engine flips, which words are of which frame: each is some fetched word (`ScanOut.EveryPixelOnTime`).
- Fetch modes other than block fetch (one pixel at a time, and the legacy source), 16-bit pixels, the two-slot buffer, and the blocking arbiter: easier members of the same kind.
- Slots of a power-of-two column count: the source then concatenates slot and column, which is the same number as slot * columns + column.
- Runs of reads in one DRAM row: performance only.
- ScanOut.NoReadIsEarly: the time a fill takes is a premise. `FillBound.MemoryIsFastEnough` replaces it by premises on the memory, with a bound that lets every command wait for a whole round of the other outputs' runs and so is far from tight.
- The row scanner, OE pulses, row address pins and serial row chain: they share no state with the data path.
- SpwmCommand's payload: the prefix leaves it at zero, so its bit is a constant here.
- CPU writes of the chip table while a frame is in its prefix.
- AlwaysReady and the FIFOs, depacketizers and address filters between the stages: library code, or a stage documented as an open edge.
- PixelFilter.Filter.Clock: the killed counter is not modelled.
- LongFrames.FramesUpTo523: of a misjudged frame of exactly 268 beats only `VerdictExactly` speaks: like a pixel packet of twelve it leaves whole or cut. Frames beyond 523 beats, longer than any Ethernet frame, are not classified.
- Splitting a `when:` string at its operator, and the text of the generated Rust: conditions arrive parsed, and the generated code is a syntax tree with an evaluator.
- PanelCompiler.EmitProgram: asset emission, scroll bands, dynamic rows and the palette function are not modelled; positions are natural numbers.
- The HUB75 bit-plane controller: a separate, simpler output stage. Only its swap register is modelled.
- Pacing, sockets and image files of the senders, and the player's palette packets.
