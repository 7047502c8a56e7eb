# Bonfire RISC-V: proofs about its clocked blocks

The project models the clocked blocks of the Bonfire RISC-V core and its system-on-chip parts, and
proves for each one that it agrees with a simple thing it is meant to be.

A block is modelled three times, with proofs in between:

1. a record of registers and a function `Step` that says what one rising edge does to it, taken from
   the register and combinational processes of the source, branch by branch;
2. a class (or several, one for each sub-block) whose fields are these registers and arrays and
   whose `Clock` method updates them in place, with the source's loops; its postcondition is the new
   state as `Step` of the old one;
3. an independent reference (flat memory, in-order execution, the division of the RISC-V manual, a
   sequence of 8N1 frames, a list of requests), and theorems over every input or every run that
   connect `Step` with it.

| block | source | agrees with |
|---|---|---|
| write-back cache | `rtl/cache/` | one flat array of words, for any requests and wait states |
| fetch unit | `rtl/fetch.py` | the words stored at consecutive addresses, each once, in order |
| four-stage pipeline | `rtl/pipelined_backend.py`, `rtl/execute.py`, `rtl/decode.py`, `rtl/loadstore.py`, `rtl/regfile.py` | in-order execution, with forwarding and with interlock |
| divider | `rtl/divider.py` | section 7.2 of the RISC-V Unprivileged ISA 20191213, in 34 or 35 edges |
| serial port | `rtl/uncore/uart/uart.py` | a stream of 8N1 frames, received unchanged if and only if the divisor is at least 3 |
| DMI bridge | `rtl/debug/dtm_transport.py` | each request once with its own answer, under every interleaving of two clocks |
| debug module | `rtl/debug/dmi.py` | a register map by addresses and bits, and the busy and error rules of section 3.14.6 of the RISC-V Debug Specification 1.0 |
| data bus interconnect | `rtl/uncore/dbus_interconnect.py` | every request reaches its one slave; every answer comes back if and only if slaves acknowledge only in cycles that select them, which a master ensures by addressing a slave that still owes |
| core with cache | `rtl/bonfire_core_top.py`, `rtl/cache/` | in-order execution over flat memory, with a bound on the cycles |
| barrel shifter | `rtl/barrel_shifter.py` | multiplication and division by a power of two |

`Arithmetic.dfy` and `Sequences.dfy` hold the shared mathematics. `dafny verify dfyconfig.toml` checks
everything.

## What came out differently from the documentation

- Serial port: the comments in `rtl/uncore/uart/uart.py:177-182` describe the sampling points as about 13/16
  and 11/16 of a bit and name no least divisor. Back-to-back reception is exact for exactly the divisors from
  3 up (`UartLoopback.BackToBackIff`). With divisor 0 the start bit is over before it is qualified, with
  divisor 1 the wait for the next bit underflows to 65535, with divisor 2 the last sample of the
  stop bit hides the next start edge; two bytes of 0xFF show each loss.
- Debug module: a refused access must be reported as cmderr 1. Two things lose the report: the command fails at
  the very edge of the refusal, so that its own error 3 is shown, or another access decides cmderr at the edge
  at which the busy error would be reported, and a command can even be launched at that edge.
  `DebugBusyReport.RefusalReportedIff` gives the exact condition over runs, `DebugBusyReport.LostAtFailure` and
  `DebugBusyReport.LostAtIdleEdge` the inputs, as the sequencer of abstract commands
  (`rtl/debug/abstract_command.py:81-128`) lets them happen.
- Debug module: up to 16 data registers are allowed (`rtl/debug/dm_registers.py:78`), but from the thirteenth on their
  addresses are those of dmcontrol, dmstatus, hartinfo and 0x13. The thirteenth can be neither written nor read, the next
  two can be written and not read (`DebugRegisters.ReadBackIff`, `DebugRegisters.StoredWords`).
- Interconnect: it waits for one acknowledge, so a slave that takes a request while it still owes an answer owes one
  more than is waited for, and the master misses that acknowledge if the slave is not selected when it comes
  (`InterconnectAnswers.EarlyRequestLosesAnswer`). The comment at `rtl/uncore/dbus_interconnect.py:149-151` speaks
  of overlapping requests to changing slaves only. The overlap alone loses nothing
  (`InterconnectAnswers.OverlapWithoutLoss`). The exact condition, for any master and any slaves, is that every slave that
  acknowledges is selected: remembered while busy, else addressed (`InterconnectAnswers.SeenIffHeard`). The rule for
  the master is to address a slave that owes while nobody is waited for, which is enough and necessary
  (`InterconnectAnswers.AttendsIffSafe`, `InterconnectAnswers.EachRequestAnswered`); a registered slot never needs it
  (`InterconnectSlots.MixedAnswered`).
- Interconnect: only an acknowledge ends the wait for a slave (`rtl/uncore/dbus_interconnect.py:158-160`).
  A slave that answers with an error alone keeps the interconnect to itself
  (`Interconnect.WaitsIff`, `Interconnect.ErrorKeepsOthersOut`).
- Cache: while a line is refilled in place of a valid clean one, the tag memory still announces the old
  line over words that are already the new one's (`CacheMemory.StaleTagDuringRefill`). It stays
  unobservable because the waiting request misses; the memory view of the proofs excludes
  the index being refilled.
- Execute: the target of JALR is the ALU's sum as it is (`rtl/execute.py:375-378`); the ISA clears its
  lowest bit. An offset of 1 at address 0 is enough to depart from the ISA (`Isa.OddOffsetDeparts`). The code follows the
  ISA exactly as long as no JALR has an odd sum: `Isa.RetireIffEven` for one instruction, `Isa.AgreesIffEven` and
  `Isa.LogsAgreeIffEven` for runs of the in-order machine, `CoreRefinement.PipelineFollowsIsa` and
  `CoreRefinement.FollowsIsaIff` for the pipeline.
- DMI bridge: a second request issued before the first is answered toggles the request line back
  (`rtl/debug/jtag_dtm.py:153-156`), and the pending signal falls at once. What becomes of the two depends on how far
  the first has come: before it reaches the first synchroniser flip-flop neither is ever served, before the core
  detects it the first is lost and the second served twice, later each is served once
  (`DmiOverrun.IssueWhilePending`, `DmiOverrun.ServedOnceIff`). The response shown when the pending signal falls is not
  the second one's own (`DmiOverrun.ResponseAtFall`); in the end it is, unless neither was served
  (`DmiOverrun.ResponseInTheEnd`).

## Model

| member | source | states |
|---|---|---|
| CacheRefinement.CacheIsFlatMemory | rtl/cache/cache.py:145-239 | from power-up, for every request stream and every wait-state pattern, the acknowledged words are, one for one and in order, those of a flat memory that starts with the backing store's contents and gets the accepted requests; byte for byte each answer holds what the last earlier request that enabled this byte at this address wrote, else the byte at power-up; at most one answer is still due, and the memory the CPU sees is the flat memory |
| CacheRefinement.AcceptedIffAnswered | rtl/cache/cache_businterface.py:36-76 | a request is accepted in the cycle that offers it if and only if all earlier ones have been acknowledged by then, and the stall line tells the CPU when it is not |
| CacheRefinement.StoreWordsAt | rtl/cache/cache.py:199-239 | the flat memory's word at an address is the lane of the backing word with the address's tag, index and word |
| FlatMemory.AnswersBytes | rtl/cache/cache_ram.py:52-61 | the reference itself: every byte of every answer is the one the last earlier request that enabled it at this address wrote, or the initial one |
| CacheRefinement.RunsExist | rtl/cache/cache.py:199-239 | for every geometry, memory contents and CPU behaviour there is such a run |
| CacheRefinement.BeatsAreCosts | rtl/cache/cache.py:199-239 | over any run the acknowledged memory beats are exactly what the accepted requests cost: none for a hit, one line for a clean miss, two lines for a dirty miss |
| CacheRefinement.WaitIsBounded | rtl/cache/cache.py:199-239 | besides wait states a request waits fewer than two lines plus five cycles, with an exact count, so the engine never gets stuck |
| CacheRefinement.HitReads | rtl/cache/cache.py:115-143 | a hit puts the word the CPU must see on the read data lines, through the registered lane select |
| CacheRefinement.DueStep | rtl/cache/cache_businterface.py:57-76 | a request gets exactly one acknowledge: what is due plus the answer of a newly accepted request is what is acknowledged now plus what is due afterwards |
| CacheRefinement.FlatStep | rtl/cache/cache.py:145-179 | a cycle changes the memory the CPU sees only by the write of a request accepted in it, once |
| CacheMemory.StepInv | rtl/cache/cache_way.py:137-159 | in every reachable state the tag buffer is the tag memory at the buffered index, dirty implies valid, and the engine's counters fit the miss it serves |
| CacheMemory.VisibleAfter | rtl/cache/cache.py:199-239 | no step of a write-back or refill changes what the CPU sees at any location, except the write of a hit: no dirty word is dropped on eviction |
| CacheMemory.StaleTagDuringRefill | rtl/cache/cache.py:171-177 | the situation in which the tag memory alone would show a word that is not the line's |
| CacheGeometry.ConcatSplit | rtl/cache/cache_way.py:96-100 | an address is determined by its tag, index, word and lane |
| CacheGeometry.SplitConcat | rtl/cache/cache_way.py:96-100 | every combination of tag, index, word and lane in range is the split of the address composed from it |
| CacheStep.WriteLanesIsMasked | rtl/cache/cache.py:130-140 | replicating the CPU word over all lanes and enabling one lane's bytes puts byte k of the word into byte k of this lane if it is enabled, and leaves every other byte of the memory word |
| Cache.TagRam.Clock | rtl/cache/tag_ram.py:35-44 | write-first tag memory: the output register shows the entry after the write |
| Cache.DataRam.WriteBytes | rtl/cache/cache_ram.py:52-61 | the byte loop of the CPU port puts byte k of each lane into byte k of the addressed word if it is enabled, and changes no other byte or word |
| Cache.DataRam.Clock | rtl/cache/cache_ram.py:52-72 | both ports of the data memory, reading the words before the edge |
| Cache.CacheWay.Clock | rtl/cache/cache_way.py:157-159 | tag memory and buffered index after an edge |
| Cache.DbSlave.Clock | rtl/cache/cache_businterface.py:57-76 | request register and acknowledge after an edge |
| Cache.BurstMaster.Clock | rtl/cache/cache.py:200-239 | the refill and write-back engine after an edge |
| Cache.CacheInstance.Clock | rtl/cache/cache.py:145-239 | the whole cache after an edge, all parts clocked on the signals before it, ready for the next edge |
| Cache.CacheInstance.constructor | rtl/cache/cache.py:49-54 | the registers at power-up, from which every run starts |
| CacheSystem.CachedMemory.Clock | rtl/cache/cache.py:145-239 | the clocked cache and the memory behind it make one step of the system |
| CacheSystem.CachedMemory.Serve | rtl/cache/cache.py:145-239 | clocking the cache from power-up through any run, the words it acknowledges and one that may be due are the flat memory's answers to the accepted requests |
| Fetch.DeliversInOrder | rtl/fetch.py:79-127 | one cycle with any stall and jump inputs: what is delivered is the next address with its stored word, and then the address four bytes further, modulo 2^32, is next; an accepted redirect makes its destination the next address, nothing else does |
| Fetch.DeliversStored | rtl/fetch.py:79-127 | over any run without redirect, under any stall pattern, the k-th delivery is the word stored at (from + 4 k) modulo 2^32, each once |
| Fetch.RedirectDelivers | rtl/fetch.py:93-101 | after any run from reset, an accepted redirect is followed by the words from its destination on until another one is accepted |
| Fetch.LatencyFalls | rtl/fetch.py:103-127 | without stall and redirect each cycle brings the next delivery closer; it comes in the fourth cycle at the latest |
| Fetch.FetchUnit.Clock | rtl/fetch.py:79-127 | the fetch registers after an edge |
| CoreRefinement.PipelineIsInOrder | rtl/pipelined_backend.py:86-145 | for any program, both configurations, and any stalls and latency of the data bus: the instructions taken, their operands, their data accesses and the committed register writes are those of in-order execution, except for at most one write in flight |
| CoreRefinement.PipelineFollowsIsa | rtl/execute.py:375-378 | as long as no JALR taken has an odd sum, instructions, operands, register writes, registers and accesses of the pipeline are those of the ISA, which clears the lowest bit of the target |
| CoreRefinement.FollowsIsaIff | rtl/execute.py:375-378 | the instructions a run takes are the ISA's if and only if no JALR before the last one has an odd sum |
| Isa.RetireAccesses | rtl/execute.py:242 | of the in-order step, for each class of instructions: a store appends its access with base and stored operand, a load with base alone, every other instruction nothing |
| Isa.RetireTargets | rtl/execute.py:366-378 | JAL goes to its destination, JALR to the ALU's sum, a branch to its destination exactly if its condition holds of its two registers, everything else four bytes further |
| Isa.RetireWrites | rtl/pipelined_backend.py:86-99 | results, loaded words and the link pc + 4 go to the destination register unless that is register 0; stores, branches and fences write nothing |
| Isa.RetireIsIsa | rtl/execute.py:375-378 | the in-order step is that of the ISA, written out independently for each class of instructions, in operands, accesses, register writes and next address, except that the target of JALR keeps its lowest bit |
| Isa.RetireIffEven | rtl/execute.py:375-378 | one instruction has the ISA's effect if and only if it is not a JALR with an odd sum; otherwise it goes on elsewhere |
| Isa.AgreesIffEven | rtl/execute.py:375-378 | the first n steps agree with the ISA's if and only if no JALR among these instructions has an odd sum |
| Isa.LogsAgreeIffEven | rtl/execute.py:375-378 | the same for the sequences of instructions executed |
| Isa.OddOffsetDeparts | rtl/execute.py:375-378 | a JALR at address 0 with offset 1 goes to 1 and not to 0 |
| CachedCore.CachedCoreFollowsIsa | rtl/bonfire_core_top.py:58-81 | the core with the cache on its data bus: for every program, all configurations and cache geometries, and any wait states of the memory, instructions, operands, register writes and accesses are those of the ISA with loads from a flat memory, as long as no JALR taken has an odd sum |
| CachedCore.AnswerBytes | rtl/cache/cache_ram.py:52-61 | byte for byte the word a load gets is what the last earlier store that enabled the byte wrote there, or the memory's contents at power-up |
| CachedCore.CachedMemoryIsFlat | rtl/cache/cache.py:145-239 | what cache and memory stand for is the flat memory after the accesses accepted from the core |
| CachedCore.CachedCoreNeverHangs | rtl/cache/cache.py:199-239 | each instruction accounts for at most two cache lines and 13 cycles, apart from the memory's wait states |
| CachedCore.CacheObeys | rtl/cache/cache_businterface.py:36-76 | the cache keeps to the core's bus protocol and answers its loads from flat memory |
| CachedCore.CachedRunExists | rtl/cache/cache.py:199-239 | every program, configuration, geometry and memory contents has such runs |
| CachedCore.FlatMemoryExists | rtl/cache/cache.py:145-179 | every program can be given flat memory as its data memory |
| CoreRefinement.TakesInOrder | rtl/execute.py:184-199 | the operands used by execute are the in-order register values, for every instruction of every run |
| CoreRefinement.CommitsInOrder | rtl/pipelined_backend.py:87-107 | the write port commits the in-order writes, each once and in order |
| CoreRefinement.ConfigurationsAgree | rtl/pipelined_backend.py:114-131 | of two runs of a program, with forwarding or interlock and whatever memory timing, one has committed a prefix of the other's writes |
| CoreRefinement.HazardLastsOneCycle | rtl/pipelined_backend.py:121-131 | a hazard stops an instruction for one cycle: in the next one there is no hazard and this instruction is taken |
| CoreRefinement.NeverHangs | rtl/execute.py:223-228 | each instruction accounts for at most seven cycles besides those in which the data bus keeps it waiting |
| CoreRefinement.RunExists | rtl/bonfire_core_top.py:58-81 | every program has such runs, on every bus that keeps to its protocol |
| Core.CycleRefines | rtl/pipelined_backend.py:86-145 | each cycle takes nothing or exactly the next instruction, and keeps the invariant between pipeline and in-order state |
| Core.DecodeStep | rtl/decode.py:205-270 | the decode register, with both register file ports, always holds the next instruction and its registers as they are in the file, across stalls and taken jumps |
| Core.RedirectsAreJumps | rtl/execute.py:292-308 | the fetch unit accepts a redirect exactly when a jump is taken, although the jump signal stays registered afterwards |
| Core.InFlightStep | rtl/pipelined_backend.py:87-103 | a started shift or load keeps its destination and value until writeback, and a taken instruction puts its own write in flight |
| Core.FileReads | rtl/regfile.py:87-140 | thanks to the collision registers both ports show the register file after the edge, with register 0 zero |
| Core.BonfireCore.Clock | rtl/bonfire_core_top.py:58-81 | fetch unit and back end clocked together on each other's signals before the edge |
| Backend.PipelinedBackend.Clock | rtl/pipelined_backend.py:86-145 | all registers of the back end after an edge |
| Backend.RegisterFile.Clock | rtl/regfile.py:87-127 | synchronous read of the old contents, guarded write, collision registers |
| Backend.DecodeStage.Clock | rtl/decode.py:205-278 | kill, hold while downstream is busy, or decode |
| Backend.ExecuteStage.Clock | rtl/execute.py:156-168 | destination and jump registers of a taken instruction |
| Backend.ShiftUnit.Clock | rtl/alu.py:148-151 | the two-cycle shifter's busy, ready and result |
| Backend.LoadStoreUnit.Clock | rtl/loadstore.py:130-356 | one outstanding access, request registers held while the bus stalls, registered result |
| Backend.WritebackStage.Clock | rtl/pipelined_backend.py:86-99 | writeback registers with their one-hot source |
| DividerProof.DividerCorrect | rtl/divider.py:145-247 | from any state with the counter at zero and for all operands, ce_o rises exactly 34 or 35 edges after the sampling edge, not earlier, and the result is then the architectural DIV, DIVU, REM or REMU, including zero divisor and overflow |
| DividerProof.DividesSigned | rtl/divider.py:128-247 | for all a, b in [-2^31, 2^31) with b not 0 and all q, m with a = b q + m, m smaller than b and zero or signed like a: the circuit's results for a and b, both modulo 2^32, are q and m modulo 2^32, after 35 and 36 edges |
| DividerProof.DividesUnsigned | rtl/divider.py:128-247 | the same for unsigned operands |
| DividerProof.Running | rtl/divider.py:176-216 | after k iterations the registers hold the k-th partial sum, the rest of the dividend and k quotient bits, in 33 wrapping bits |
| DividerProof.SumIs | rtl/divider.py:160-174 | wrap-around loses nothing: the 33-bit sum is the exact signed partial sum and its top bit the sign |
| DividerProof.ComplementorNegates | rtl/divider.py:60-82 | the complementor with its carry between two halves negates modulo 2^32 |
| DividerProof.CorrectRemainder | rtl/divider.py:218-231 | one correction turns the last sum into the remainder |
| Division.SumLaw | rtl/divider.py:176-216 | after each iteration the sum lies in [-d, d) and is congruent to the dividend prefix, and the bits so far are its floor quotient |
| Division.ZeroLaw | rtl/divider.py:176-216 | dividing by zero leaves the dividend and all ones |
| Division.TruncatingDivision | rtl/divider.py:140-158 | the reference's quotient and remainder satisfy the defining equation, with the remainder smaller than the divisor and carrying the dividend's sign |
| Division.TruncatingUnique | rtl/divider.py:140-158 | and nothing else satisfies it |
| Division.SignedResults | rtl/divider.py:140-158 | the architectural result is determined by the defining equation between registers read as signed numbers, for every divisor but zero, the overflow included |
| Division.UnsignedResults | rtl/divider.py:140-158 | the same for unsigned numbers |
| Division.ZeroResults | rtl/divider.py:150-158 | dividing by zero gives all ones and the dividend |
| Division.TopIsSign | rtl/divider.py:134-158 | the circuit's sign test is bit 31 and holds exactly for the negative ones of the signed values, which lie in [-2^31, 2^31) and are the register modulo 2^32 (`Division.SignedLaw`) |
| Division.SignedLaw | rtl/divider.py:134-158 | the signed value is in range, congruent to the register modulo 2^32, and the only such number |
| Divider.DividerUnit.InvertBits | rtl/divider.py:60-66 | the bit loops invert every bit or none |
| Divider.DividerUnit.Clock | rtl/divider.py:145-231 | all divider registers after an edge |
| UartFrames.TransmitsAccepted | rtl/uncore/uart/uart.py:322-359 | for any timing of writes the line is a sequence of rest cycles and 8N1 frames with every bit divisor + 1 cycles long, carrying exactly the accepted bytes in order, with at most one in the buffer |
| UartTransmit.FrameAt | rtl/uncore/uart/uart.py:322-359 | a frame is ten bits of divisor + 1 cycles: low, the data bits from bit 0 on, high |
| UartTransmit.SentSnoc | rtl/uncore/uart/uart.py:138-142 | after every run: a write extends the bytes of the frames begun and the buffered one by its byte if the buffer is free, whatever the transmitter is doing, and changes nothing if it is full; no other cycle adds or removes a byte |
| UartTransmit.TakenIffBegun | rtl/uncore/uart/uart.py:138-142 | seen from outside: a write is taken if and only if the frame of every byte taken before it has begun |
| UartTransmit.TwoWritesSent | rtl/uncore/uart/uart.py:351-353 | two bytes written after power-up at any distance are both taken, in order |
| UartTransmit.BusyIffLeft | rtl/uncore/uart/uart.py:322-359 | without further writes the transmitter is busy for exactly the cycles of the rest of its frame and of the buffered byte's frame |
| UartTransmit.AllSent | rtl/uncore/uart/uart.py:322-359 | after any run and twenty bits without a write the transmitter rests and the line has been exactly the frames of all bytes taken, in order, with rest cycles between them |
| UartReceive.WaveReceived | rtl/uncore/uart/uart.py:230-296 | for every divisor of at least 3 any sequence of frames and rest cycles is received byte for byte without framing error and without drift |
| UartReceive.SamplesInsideIff | rtl/uncore/uart/uart.py:183-192 | start qualification and all three samples lie inside their bit exactly for divisors of at least 3 |
| UartReceive.TimingApproximates | rtl/uncore/uart/uart.py:177-192 | the stored times fall short of 13/16 and 11/16 of the divisor by exactly what the shifts cut off, at most 35/16 and 37/16 of a tick |
| UartReceive.PulseStartsIff | rtl/uncore/uart/uart.py:240-258 | a low pulse starts a reception if and only if it is at least two cycles longer than the qualification time; a shorter one leaves no trace |
| UartReceive.Voted | rtl/uncore/uart/uart.py:260-293 | of three samples of any levels, a data bit becomes the majority and no other bit changes; at the stop bit the byte is handed over once, with a framing error if and only if fewer than two are high |
| UartReceive.StartBit | rtl/uncore/uart/uart.py:240-258 | a start bit leaves the receiver waiting the right time for the first data bit |
| UartReceive.DataBit | rtl/uncore/uart/uart.py:260-293 | a data bit of any level is voted and stored at its place |
| UartLoopback.LoopbackPrefix | rtl/uncore/uart/uart.py:230-359 | with transmitter and receiver connected, for every divisor of at least 3 and any timing of writes and reads, what was received is at any time an unchanged prefix of what was accepted |
| UartLoopback.LoopbackComplete | rtl/uncore/uart/uart.py:230-359 | two cycles after the transmitter has come to rest, everything accepted has been received |
| UartLoopback.LoopbackDrains | rtl/uncore/uart/uart.py:230-359 | after any run, twenty bits and two cycles without a write suffice for everything taken to have been received |
| UartLoopback.TwoWritesReceived | rtl/uncore/uart/uart.py:230-359 | two bytes written at any distance arrive, in order and without framing error, for every divisor of at least 3 |
| UartLoopback.BackToBackIff | rtl/uncore/uart/uart.py:183-192 | back-to-back reception of all byte sequences is exact if and only if the divisor is at least 3 |
| UartLoopback.HeldUnread | rtl/uncore/uart/uart.py:236-273 | after any run without a read the receive register is the last byte handed over, ready and with its own framing error, or unchanged |
| UartLoopback.HeldSinceRead | rtl/uncore/uart/uart.py:236-273 | after any run: the register is ready if and only if a byte has been handed over in the cycle of the last read or later, with a framing error if and only if the last of these has one, and a read loses none |
| UartLoopback.LastByteHeld | rtl/uncore/uart/uart.py:236-273 | the byte in the receive register is the last one handed over, whatever has been read |
| UartLoopback.SynchroniserDelays | rtl/uncore/uart/uart.py:231-234 | the two synchroniser flip-flops are a delay of two cycles |
| Uart.BonfireUart.WriteControl | rtl/uncore/uart/uart.py:172-195 | the timing registers after a write of the divisor |
| Uart.BonfireUart.ClockTx | rtl/uncore/uart/uart.py:322-359 | the transmitter's registers after an edge |
| Uart.BonfireUart.ClockRx | rtl/uncore/uart/uart.py:230-296 | the receiver's registers after an edge |
| DmiTransport.EachRequestOnce | rtl/debug/dtm_transport.py:64-140 | under every interleaving of core and scan edges without hard reset: whenever nothing is pending, every read and write issued has had exactly one enable pulse with its address and data, in order, and the response is the last request's own answer |
| DmiTransport.OwnAnswerOrNone | rtl/debug/dtm_transport.py:89-100 | with hard resets the response is the last request's own answer, or all zero after a flush |
| DmiTransport.RunInv | rtl/debug/dtm_transport.py:55-140 | in every run the chain of toggles has at most one boundary, and every pulse belongs to a request of its own: a flushed request is never replayed |
| DmiTransport.Drains | rtl/debug/dtm_transport.py:51-140 | any pending request drains after five core edges and then two scan edges, with hard resets anywhere |
| DmiTransport.HostMustWait | rtl/debug/jtag_dtm.py:153-156 | two requests with no clock edge between them cancel each other and neither is ever served |
| DmiOverrun.IssueWhilePending | rtl/debug/dtm_transport.py:51-140 | a request issued at any stage of a pending one: exactly which accesses are still pulsed, for every later interleaving of edges that is long enough |
| DmiOverrun.ServedOnceIff | rtl/debug/jtag_dtm.py:153-156 | both are served once if and only if the core has detected the first (or both ask for the same access and the first synchroniser flip-flop has seen it) |
| DmiOverrun.ResponseAtFall | rtl/debug/dtm_transport.py:51-140 | what the host reads when pending falls with the early request: the response before the first one, the first one without its data, or the first one's own |
| DmiOverrun.ResponseInTheEnd | rtl/debug/dtm_transport.py:51-140 | and after the edges that follow: unchanged if neither was served, else the second one's own answer |
| DmiOverrun.EarlyRequest | rtl/debug/dtm_transport.py:51-140 | every pending state that a legal run reaches, with no hard reset on its way, is at one of these stages, so pulses and response after any early request are known |
| DmiBridge.DmiCdcBridge.ScanEdge | rtl/debug/dtm_transport.py:55-60 | the response synchroniser after a scan edge |
| DmiBridge.DmiCdcBridge.Edges | rtl/debug/dtm_transport.py:55-140 | any simultaneous edges of both clocks, each on the values before them |
| DebugRegisters.StoredWords | rtl/debug/dmi.py:219-299 | for every access and state: a write of address 4 + k while active and not busy makes data register k the word, writes of 0x20 and 0x21 (the latter with two entries) do so for the program buffer, and nothing else changes any of them but a command's result in data0; address 0x10 belongs to dmcontrol |
| DebugRegisters.StoredFlags | rtl/debug/dmi.py:240-247 | an idle write of abstractauto sets the autoexec flag of data register k to bit k and of program buffer entry k to bit 16 + k; nothing else changes them |
| DebugRegisters.StoredCommand | rtl/debug/dmi.py:248-273 | the fields of the command registers are bits 22-20, 19, 18, 17, 16 and 4-0 of a word below 2^24 written to 0x17 while idle, halted and without error, and unchanged otherwise |
| DebugRegisters.ControlBits | rtl/debug/dmi.py:99-218 | requests and acknowledges after any edge: bit 31 is the halt request, bit 30 without it resumes a halted hart, bit 28 acknowledges a reset, all three only while idle, bit 1 resets the rest of the system, bit 0 cleared turns the module off; a resume request ends with its acknowledge |
| DebugRegisters.LaunchFlag | rtl/debug/dmi.py:157-273 | the launch flag after any edge, with the commands carried out given by their bits (registers 0x1000 to 0x101F, 32 bits wide) and the repeating accesses by their addresses |
| DebugRegisters.ErrorRegister | rtl/debug/dmi.py:110-273 | the error after any edge, but for writes of abstractcs: 1, 2, 3, 4 or unchanged, by access and state |
| DebugRegisters.ErrorCleared | rtl/debug/dmi.py:233-238 | an idle write of abstractcs clears the bits of the error that are ones in bits 10-8, and no others |
| DebugRegisters.RefusalMark | rtl/debug/dmi.py:110-247 | the mark of a refused access after any edge |
| DebugRegisters.WhileInactive | rtl/debug/dmi.py:67-95 | an inactive module keeps data and program buffer, resets everything else and hears only bit 0 of dmcontrol |
| DebugRegisters.ReadBack | rtl/debug/dmi.py:157-299 | a word written to data or program buffer while idle is returned by a read after any run in which nobody writes that register, whatever commands, errors and deactivations happen in between |
| DebugRegisters.ReadBackIff | rtl/debug/dmi.py:127-195 | words written to data register k can always be read back if and only if k < 12 or k = 15 |
| DebugRegisters.StatusRead | rtl/debug/dmi.py:133-148 | every bit of dmstatus, and the word of dmcontrol |
| DebugRegisters.AbstractStatusRead | rtl/debug/dmi.py:197-201 | the word of abstractcs, for fewer than 16 data registers |
| DebugRegisters.AutoRead | rtl/debug/dmi.py:152-154 | abstractauto is read where it is written, bit by bit |
| DebugModuleRules.BusyFreezes | rtl/debug/dmi.py:126-299 | over all runs with dmactive set, while a command is busy no access changes data, program buffer, abstractauto or command; only the command's own result reaches data0 |
| DebugModuleRules.ErrorIsSticky | rtl/debug/dmi.py:233-273 | an error stays until an idle write of ones to abstractcs clears it, and until then no command is launched and the command registers stay |
| DebugModuleRules.ErrorKept | rtl/debug/dmi.py:233-238 | what a nonzero error becomes in one cycle, for every access and hart state |
| DebugModuleRules.LaunchedIff | rtl/debug/dmi.py:157-273 | a command is launched if and only if an access asks for one (a supported command written, or a register with its autoexec flag) while idle, without error and with the hart halted; it is the command written, else the last one |
| DebugModuleRules.BusyErrorReported | rtl/debug/dmi.py:121-124 | a marked refusal is reported at the first idle edge if and only if no access at that edge decides cmderr itself |
| DebugModuleRules.LaunchedWithBusyError | rtl/debug/dmi.py:121-124 | at that edge a command can be launched although the busy error is being reported |
| DebugBusyReport.RefusalReportedIff | rtl/debug/dmi.py:110-124 | from an access refused without error over any number of busy cycles to the first idle edge: the busy error is reported if and only if the command does not fail at the edge of the refusal, and fails later or no access at the idle edge decides cmderr |
| DebugBusyReport.LostAtIdleEdge | rtl/debug/dmi.py:121-124 | an input from any idle active state, with the sequencer following: a read while a command without effect is busy, and a write of abstractcs at the first idle edge; no error is left |
| DebugBusyReport.LostAtFailure | rtl/debug/dmi.py:114-120 | an input, with the sequencer following: the program buffer is run, an instruction fails, and data0 is read at the edge at which the command fails; the error is 3 and stays 3 |
| DebugBusyReport.CommandsExist | rtl/debug/dmi.py:248-273 | the commands of these inputs exist: 0, and postexec alone |
| DebugBusyReport.BusyCycle | rtl/debug/dmi.py:110-299 | what a busy cycle does to the error and to the mark of a refusal, for exactly the accesses that are refused |
| DebugModule.DebugModuleInterface.Clock | rtl/debug/dmi.py:63-299 | all debug module registers and the read data register after an edge, for any access |
| AddressDecode.OverlapIff | rtl/uncore/dbus_interconnect.py:51-60 | the overlap check is true exactly when some address decodes to both masks |
| AddressDecode.DecodedInRange | rtl/uncore/dbus_interconnect.py:31-35 | every address a mask decodes lies in the range reported for it |
| AddressDecode.Validate | rtl/uncore/dbus_interconnect.py:63-109 | the pairwise loop accepts exactly the mappings without overlap |
| AddressDecode.ValidatedIff | rtl/uncore/dbus_interconnect.py:103-109 | a mapping is accepted if and only if every address selects at most one slave |
| Interconnect.Routed | rtl/uncore/dbus_interconnect.py:169-206 | in any cycle the master sees the one selected slave's answer or an error for an unmapped address, and no slave but the awaited one is enabled |
| Interconnect.DecodedOnce | rtl/uncore/dbus_interconnect.py:181-196 | after validation the address decoder is one-hot or empty |
| Interconnect.EnabledIff | rtl/uncore/dbus_interconnect.py:175-206 | a slave is asked if and only if it decodes the address of an enabled cycle and nobody else is waited for; a master that addresses another one is stalled |
| Interconnect.WaitsIff | rtl/uncore/dbus_interconnect.py:156-167 | the wait for a slave lasts exactly as long as that slave does not acknowledge |
| Interconnect.ErrorKeepsOthersOut | rtl/uncore/dbus_interconnect.py:158-160 | after an error without acknowledge every request to another slave is stalled and reaches nobody |
| InterconnectAnswers.EachRequestAnswered | rtl/uncore/dbus_interconnect.py:156-206 | over whole runs, for any delays, stalls and overlaps, with a master that holds stalled requests and addresses a slave that owes while nobody is waited for: every request started is taken by the one slave that decodes it or answered with an error, in order, but for one still held; every slave acknowledges what it took, in order, but for what it owes; and the master sees exactly these acknowledges with their data |
| InterconnectAnswers.SeenIffHeard | rtl/uncore/dbus_interconnect.py:156-206 | for any master and any slaves: the master sees all acknowledges if and only if every slave acknowledges only in cycles that select it |
| InterconnectAnswers.AttendsIffSafe | rtl/uncore/dbus_interconnect.py:156-167 | in a state in which whoever owes is waited for or nobody is: the master sees whatever protocol-keeping slaves answer if and only if it addresses those that owe |
| InterconnectAnswers.AloneAnswered | rtl/uncore/dbus_interconnect.py:156-206 | without overlap no attention is needed, and at most one answer is owed |
| InterconnectAnswers.PatientAnswered | rtl/uncore/dbus_interconnect.py:156-206 | a master that starts nothing while an answer is owed gets all its answers, from any slaves |
| InterconnectSlots.MixedAnswered | rtl/uncore/dbus_interconnect.py:225-321 | with any mixture of registered and direct slots, for any delays on both sides: a master that holds stalled requests and attends to the direct slaves gets all answers, and behind each registered slot the slave takes exactly the requests handed to it, unchanged and in order, and its answers are the acknowledges of the slot, but for one inside (the slaves behind acknowledge their errors) |
| InterconnectSlots.RegisteredAnswered | rtl/uncore/dbus_interconnect.py:225-321 | with registered slots alone every master that holds stalled requests gets all its answers |
| InterconnectAnswers.SilenceIff | rtl/uncore/dbus_interconnect.py:156-167 | after any such run, with a silent master until nothing is owed: all acknowledges are seen if and only if no answer was owed besides the one waited for |
| InterconnectAnswers.AnsweredIffNoOverlap | rtl/uncore/dbus_interconnect.py:156-167 | after a run without overlap and one more cycle, with a silent master from then on: all acknowledges are seen if and only if no slave took a request in that cycle while it owed an answer |
| InterconnectAnswers.EarlyRequestLosesAnswer | rtl/uncore/dbus_interconnect.py:156-167 | the shortest loss: a request taken in the cycle of the acknowledge before it; its own acknowledge is not shown |
| InterconnectAnswers.OverlapWithoutLoss | rtl/uncore/dbus_interconnect.py:156-167 | an overlap after which the slave stays addressed: all three acknowledges are seen |
| InterconnectAnswers.WaitsForOne | rtl/uncore/dbus_interconnect.py:156-167 | in every state of every run, whatever master and slaves do, the interconnect waits for at most one slave |
| InterconnectRuns.CycleBalances | rtl/uncore/dbus_interconnect.py:156-206 | in each cycle of an attending master requests and answers balance: what was held and started is resolved or held, what was owed and taken is acknowledged or owed, and acknowledges are seen |
| InterconnectRuns.StallTells | rtl/uncore/dbus_interconnect.py:297-321 | the master can tell from its own lines whether its request is through: it is not if and only if it is stalled, except for an acknowledge at once when nothing was owed |
| Interconnect.MasterNSlaves.MasterInputs | rtl/uncore/dbus_interconnect.py:297-321 | the loop over the slaves gathers the selected one's answer |
| Interconnect.MasterNSlaves.Clock | rtl/uncore/dbus_interconnect.py:156-167 | busy flag and remembered selection after an edge |
| RegisteredSlot.SlotIsTransparent | rtl/uncore/dbus_interconnect.py:225-281 | for any stall and delay pattern a registered slot hands each captured request to the slave once, unchanged and in order, and each answer to the master in one cycle, with at most one request inside |
| RegisteredSlot.TakenOnce | rtl/uncore/dbus_interconnect.py:243-260 | the slave takes exactly the captured payloads |
| RegisteredSlot.SeenOnce | rtl/uncore/dbus_interconnect.py:261-279 | the master sees exactly the slave's answers |
| RegisteredSlot.Frozen | rtl/uncore/dbus_interconnect.py:243-268 | from capture until the slot is idle the payload stays, and the answer register keeps the slave's one answer |
| RegisteredSlot.Slot.Clock | rtl/uncore/dbus_interconnect.py:243-268 | the slot's registers after an edge |
| BarrelShifter.PipelinedShift | rtl/barrel_shifter.py:99-122 | for every word, amount, fill bit and split the two-stage shifter's result one cycle later is the full shift |
| BarrelShifter.SplitIrrelevant | rtl/barrel_shifter.py:63-133 | the position of the pipeline register, including none, does not change the result |
| BarrelShifter.LeftShiftValue | rtl/barrel_shifter.py:41-60 | a left shift is multiplication by 2^s modulo 2^32 plus the fill bits |
| BarrelShifter.RightShiftValue | rtl/barrel_shifter.py:166-192 | reversing, shifting left and reversing is division by 2^s plus the fill bits on top |
| BarrelShifter.ArithmeticShift | rtl/barrel_shifter.py:166-192 | with the sign as fill bit it is floor division of the signed value |
| BarrelShifter.LeftShiftComb | rtl/barrel_shifter.py:41-60 | the loop over the amount bits computes the shift by the selected ones |
| BarrelShifter.ReverseBits | rtl/barrel_shifter.py:166-170 | the loop reverses a word |
| BarrelShifter.PipelinedShifter.Clock | rtl/barrel_shifter.py:116-122 | the stage registers after an edge |

## Left out

- MyHDL's delta cycles and the conversion to VHDL: an edge is one atomic step on the values before it, and combinational processes are functions.
- Metastability: the synchronisers are plain registers under arbitrary interleaving of edges.
- Resets after power-up: runs start in the reset state; the debug module's dmactive and the bridge's hard reset are modelled.
- Cache: more than one way and a cache reset, which the source does not implement, and bit widths: addresses are split by division, for any number of lines, words and lanes with at least two words a line.
- Pipeline: CSR and system instructions, traps, illegal instructions and misaligned accesses. Programs consist of the other instruction classes.
- Pipeline: decoding, the ALU's arithmetic, branch conditions, and byte selection in the load/store unit are parameters of the program; the divider and the barrel shifter are proved separately.
- Pipeline: the data memory answers a load from all accesses accepted up to it and makes no errors; its stalls and latency are arbitrary. With the cache it is flat memory; the request lines of an access and the value taken from a word are parameters. The instruction bus acknowledges one cycle after enable (`rtl/uncore/ram_dp.py:129-131`).
- Pipeline: the three-stage back end, more than one outstanding access, early termination of stores, and `jump_bypass` switched off.
- Pipeline: debug register transfers, the program buffer and single step inside the pipeline.
- Serial port: the interrupt and status registers and the reserved FIFO fields; the divisor is fixed during a run.
- Debug module: the sequencer of abstract commands is an input, and a relation on its states for the inputs above. With 16 data registers the number does not fit its four-bit fields in hartinfo and abstractcs (`rtl/debug/dmi.py:151`, `rtl/debug/dmi.py:201`), which MyHDL refuses; the model takes it modulo 16 there.
- JTAG state machine and shift registers: the host's actions on the bridge are events.
- `gdbserver`, the bit-bang adapters, generators, the system-on-chip top level, test benches and C programs.
- CoreRefinement.PipelineIsInOrder: its programs have no CSR, system or illegal instructions, and its reference takes the target of JALR from the code; `CoreRefinement.PipelineFollowsIsa` states it against the ISA.
- Backend.PipelinedBackend.Clock: without the CSR unit's result and the debug adapter.
- Backend.WritebackStage.Clock: without the CSR selector and data register.
- Backend.DecodeStage.Clock: the decoded fields of a word come from the program, which has no invalid, CSR or system words.
- Backend.ShiftUnit.Clock: the result stored is the program's ALU function of the operands; the stage registers that compute it are those of `BarrelShifter.PipelinedShifter`.
- Backend.LoadStoreUnit.Clock: without byte lanes, misaligned accesses and bus errors.
- Uart.BonfireUart.WriteControl: the divisor only; the enable, extended mode and FIFO fields of the same register are left out.
- DebugModule.DebugModuleInterface.Clock: without the output register for the reset of the rest of the system (dtm.ndmreset).
- DebugRegisters.AbstractStatusRead: fewer than 16 data registers, as above.
- CoreRefinement.PipelineFollowsIsa: its programs have no CSR, system or illegal instructions.
- CachedCore.CachedCoreFollowsIsa: the same programs, and all their accesses are cacheable.
- DmiOverrun.IssueWhilePending: without host actions after the early request, and without a hard reset on its way when it is issued.
- DmiOverrun.EarlyRequest: hard resets before the early request have arrived when it is issued.
