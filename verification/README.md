# Verification of the FPGA packet filter

The hardware is a packet filter that executes classic BPF as its native
instruction set. A snooper copies packets off a stream into one of many virtual
machines; each machine owns three buffers ("ping", "pang" and "pung") that pass
between snooper, CPU and forwarder; the CPU runs the filter program on each
packet; a forwarder streams the accepted packets out. A host loads the program
as hex text through a register interface.

The clocked modules are modelled twice: as a step function on a record of their
registers (one call is one clock edge), and as a class whose `Clock` method
updates the registers in place and is proved equal to that function. Theorems are
about the step functions and their compositions; the outermost compositions, one
machine and the whole filter, are step functions only.

| file | what it holds |
|---|---|
| `Isa.dfy`, `RegisterMuxes.dfy` | the instruction set as the hardware decodes it, and a sequential interpreter |
| `Words.dfy`, `Meanings.dfy`, `WireMeanings.dfy` | what the shared operations, each instruction and the CPUs' wires mean, in terms of bits, bytes and plain arithmetic |
| `PipelineStages.dfy`, `PipelineDatapath.dfy`, `PipelinedCpu.dfy` | the pipelined CPU |
| `PipelineProof.dfy`, `PipelineTheorems.dfy` | pipeline against interpreter, edge by edge and for whole runs |
| `ForwardPrograms.dfy` | forward programs: deadlock, bounds, static certificates, examples |
| `OldCpu.dfy`, `OldCpuProof.dfy`, `CpuEquivalence.dfy` | the multi-cycle CPU in both timing variants, and the two CPUs against each other |
| `PacketRam.dfy` | packet RAM, length register and read adapter against a byte array |
| `JobQueues.dfy`, `P3Control.dfy`, `BufferMuxes.dfy`, `PacketMem.dfy` | the three-buffer protocol |
| `Snooper.dfy`, `Forwarder.dfy` | the stream endpoints |
| `VirtualMachine.dfy`, `EndToEnd.dfy` | bus to output of one machine, the CPU abstracted to its requests |
| `CpuProgress.dfy`, `FilterCore.dfy` | one machine with the real CPU |
| `Liveness.dfy` | one machine: every packet is judged, every accepted packet leaves |
| `Dispatch.dfy` | arbiters, sticky selection, one-hot merge, for any number of machines |
| `ParallelFilters.dfy`, `ParallelProof.dfy`, `FilterLiveness.dfy` | the whole filter with N machines |
| `HostText.dfy`, `ProgramLoad.dfy` | program loading, from host text to code memory |
| `StartUp.dfy`, `Boot.dfy` | from the loaded program to a CPU, and a filter, that is ready to run it |
| `BrokenRuns.dfy` | runs from reset in which a token is copied |

The main results, from the inside out:

* `PipelineTheorems.PipelineFollows`: for every program, packet and start the pipeline
  follows a total cycle-counting semantics, edge for edge. `TimedIsInterpIff` says
  exactly when that semantics is the interpreter; `PipelineProof.StaleAluIff` and
  `StaleJumpIff` are the two instructions where it may not be.
* `ForwardPrograms.PipelineDecides`, `AnswersIffNoDeadlock` and `FragmentAlwaysAnswers`:
  a forward program is answered iff no instruction waits for its own destination
  register, and a finite table closed under the program's flow certifies, statically,
  that it always is, and that the answer is the interpreter's.
* `Meanings.PacketLoadMeaning`, `AluMeaning`, `JumpMeaning`, `ReturnMeaning` and
  `WireMeanings.VerdictWires`: the interpreter and both CPUs share their operations;
  these hold them against opcode bits, the packet's bytes and laws that leave no
  choice (`AluResultIsUnique`).
* `OldCpuProof.OldCpuFollows`, `VariantsAgree`, `OneEndPerPacket` and
  `CpuEquivalence.RedesignKeepsVerdict`: the old CPU, its two variants, and old
  against new.
* `EndToEnd.OutputIsAcceptedPackets`: one machine loses, repeats and alters
  nothing, under E1-E3 for the CPU.
* `FilterCore.FilterIsCorrect`: the real CPU meets E1-E3, and every verdict is the one
  that the program leads to from the CPU's own registers, scratch memory, buffer and
  writes in flight in the cycle in which it took the packet up, which a log records.
* `Liveness.HeadIsJudged`, `EveryPacketIsJudged`, `EverythingGetsOut` and `MachineDrains`:
  for programs with such a table, from any cycle, every captured packet is judged and
  every accepted one leaves within explicit bounds, and a quiet bus empties the
  machine.
* `ParallelProof.WholeFilterIsCorrect`, `FilterLiveness.FilterJudges` and `FilterDrains`: the
  same for the whole filter, any number of machines sharing one snooper and one
  forwarder.
* `ProgramLoad.ProgramRoundTrip` and `LoadsAtZeroIff`: what the host prints is what
  the CPU decodes, and exactly when.
* `Boot.LoadedFilterStarts`: after loading, the filter is in a start state of these runs
  iff the program's first instruction does not depend on itself.

E1-E3 are the protocol's environment discipline: (E1) an agent pulses done only
when its token is in slot `first`, (E2) not in two consecutive cycles, (E3) accept
and reject exclude each other. They are assumptions in `P3Control`, and proved for
all three agents in `EndToEnd` and `FilterCore`.

Widths are parameters: a port word has `W >= 4` bytes (the hardware's 2^(N-1) with
N >= 3), a buffer `2*cap` words, code memory any number of words. 32-bit words are
numbers below 2^32 with wrap-around written out; addresses are cut to a memory's
size by `Wrap`.

## Findings

Places where the code does something other than its comments or the obvious
reading suggest. The model follows the code.

* An instruction that reads and writes the same register (any ALU instruction,
  LDX in indexed mode) waits for itself when an older write to that register is in
  flight, because the stage 2 enables are not gated with `valid`: the pipeline then
  never answers (`LoadThenAluHangs`; exactly when: `AnswersIffNoDeadlock`). An
  instruction in between that waits for the register first breaks the wait
  (`StoreBreaksTheWait`).
* For the same reason a program of two or more instructions that begins with an ALU
  instruction or an indexed LDX is never started after loading: that instruction is
  on the code memory's output during reset and stalls stage 1 without being valid
  (`ResetMakesReady`, `StartUp.StartsIff`).
* An X operand of an ALU or JMP instruction is not waited for, so it can be the old X
  (`StaleCompare`). Such an instruction issues as the interpreter's iff the X that the
  register holds gives the same result, or leads to the same target, as the
  sequential X (`StaleAluIff`, `StaleJumpIff`); a whole run is the interpreter's iff
  every instruction of it is (`TimedIsInterpIff`).
* RET A and RET X give no verdict in the pipeline; it runs on into the next
  instruction (`RegisterReturnFallsThrough`). The old CPU implements them.
* TLAST clears the snooper's skip flag whether or not a beat moves. A master that
  holds TVALID and TLAST until TREADY, as section 2.2.1 of ARM IHI 0051A asks of it,
  thereby makes the snooper forget that it skips the packet; if a buffer comes free
  before the beat moves, the last beat is captured as a packet of its own
  (`HeldLastCapturesTheTail`). `FlagKeptIff` says exactly when the flag is lost and
  `SnooperWholeIff` exactly when a cycle breaks the all-or-nothing rule.
* The scratch memory is cleared by cycles without a packet, not by a verdict: a packet
  that is already waiting finds the words the previous one left
  (`WaitingClearsScratch`, `VerdictKeepsScratch`). A and X are never cleared.
* The truth table in `fetch_stage0.v` calls "not good to go, not stalled, not valid"
  impossible; it is the state of every jump's second cycle. The equation is right.
* A token alone in `second` or `third` is copied by a dequeue, and a double arrival
  can overwrite `third`; `ConservedIff` and `SnQueueIsFifoIff` say exactly when.
* A program that starts with a return decides a packet before the CPU's token is in
  `first`, and a packet of two beats can end before the snooper's is; both leave a
  buffer in two queues (`ReturnFirstCopiesTheToken`, `TwoBeatsCopyTheToken`; both
  happen a few cycles after reset: `ReturnFirstFromReset`, `TwoBeatsFromReset`). The
  comments ask only for a one-cycle pulse.
* A load that is broken off before the restart leaves the code address behind, so
  the next program lands too high (`BrokenLoadShiftsTheNext`).
* The two control strings are sent with their terminating NUL, which the parser
  ignores.

## Model

| member | source | states |
|---|---|---|
| `PacketRam.QuotWrapAreDivMod` | Sources/BPFVM/packetmem/read_size_adapter.v:84-88 | the high and low address fields are quotient and remainder by the word width |
| `PacketRam.PacketRamModule.Clock` | Sources/BPFVM/packetmem/packetram.v:45-107 | the RAM written in place equals the step function: read-first ports, second port one word on, length kept as a maximum |
| `PacketRam.ReadSizeAdapter.Clock` | Sources/BPFVM/packetmem/read_size_adapter.v:92-97 | size and offset are latched together with the RAM's address |
| `PacketRam.BigWordIsMemory` | Sources/BPFVM/packetmem/read_size_adapter.v:99-104 | each byte of the latched two-word window is the flat memory byte at that distance, across the word boundary and the end of the memory |
| `PacketRam.AdapterReadsBytes` | Sources/BPFVM/packetmem/read_size_adapter.v:84-113 | selecting lanes of the window equals a big-endian read of 4, 2 or 1 bytes of the flat byte array, at every byte address |
| `PacketRam.WriteExtends` | Sources/BPFVM/packetmem/packetram.v:84-90 | after n beats the buffer holds exactly them and the length register is 2(n-1) |
| `PacketRam.LengthIsLargest` | Sources/BPFVM/packetmem/packetram.v:84-90 | the length register is the largest address written, in whatever order |
| `PacketRam.PacketBytes` | Sources/BPFVM/packetmem/packetram.v:45-63 | byte p of a buffer that stores a packet is byte p of the concatenated beats |
| `PacketRam.StoredPacketReads` | Sources/BPFVM/packetmem/read_size_adapter.v:84-113 | a CPU read of any size at any address inside a stored packet returns the packet's own bytes |
| `Isa.InterpSplit` | Sources/bpf_defs.vh:6-87 | running m+n instructions is running m and then n; verdicts and faults stop the run |
| `Words.BitwiseLaws` | Sources/BPFVM/CPU/datapath/pipelined_alu.v:73-89 | each of the 32 bits of and, or, exclusive or and complement is that operation on the operands' bits |
| `Words.SharedBit` | Sources/BPFVM/CPU/datapath/pipelined_alu.v:138 | the and of two words is not zero iff they have a bit in common |
| `Words.ShiftLaws` | Sources/BPFVM/CPU/datapath/pipelined_alu.v:79-83 | the shifts are multiplication and division by a power of two in 32 bits, and 0 for distances of 32 or more |
| `Words.SumLaws` | Sources/BPFVM/CPU/datapath/pipelined_alu.v:67-71 | addition and subtraction modulo 2^32, each undoing the other |
| `Words.ParityLaws` | Sources/BPFVM/CPU/Pipelined_Controller/decode_compute1_stage1.v:126-127 | the test of RET #k is bit 0: the odd numbers and no others |
| `Meanings.OpcodeFields` | Sources/BPFVM/CPU/Pipelined_Controller/decode_compute1_stage1.v:85-93 | the fields the hardware cuts out of the opcode, and which opcodes are TAX and TXA |
| `Meanings.LoadMeaning` | IPs/parameterized_axistream_packetfilt/src/pipelined_datapath.v:262-268 | LD and LDX, absolute, indexed and header length, at every address and width: the bytes from there, big-endian, around the end of the memory |
| `Meanings.PacketLoadMeaning` | IPs/parameterized_axistream_packetfilt/src/pipelined_datapath.v:262-268 | on a stored packet a load of bytes k, k+1, ... delivers exactly these, big-endian, to A or X; the header length is four times the last one's low nibble |
| `Meanings.MoveMeaning` | Sources/bpf_defs.vh:6-87 | immediates, scratch words, length, stores, TAX and TXA, and which loads are undefined |
| `Meanings.AluMeaning` | Sources/BPFVM/CPU/datapath/pipelined_alu.v:67-130 | an ALU instruction replaces A, and nothing else, by what opcode[7:4] asks for, stated by bits and arithmetic |
| `Meanings.AluResultIsUnique` | Sources/BPFVM/CPU/datapath/pipelined_alu.v:67-130 | these statements leave one result |
| `Meanings.JumpMeaning` | Sources/BPFVM/CPU/datapath/pipelined_alu.v:135-138 | JEQ, JGT, JGE and JSET go to jt exactly when A equals, exceeds, is not below, or shares a bit with the operand, and to jf otherwise |
| `Meanings.ReturnMeaning` | Old_Sources/bpfvm_ctrl.v:199-291 | RET #k accepts the odd k, RET X and RET A what is not 0 |
| `WireMeanings.VerdictWires` | Sources/BPFVM/CPU/Pipelined_Controller/decode_compute1_stage1.v:126-127 | the pipeline accepts on a valid RET #k with odd k, rejects on one with even k, and gives no other verdict |
| `WireMeanings.OldVerdictWires` | Old_Sources/bpfvm_ctrl.v:199-291 | the old CPU's verdicts, for all three kinds of return |
| `WireMeanings.StageOneWires` | Sources/BPFVM/CPU/Pipelined_Controller/decode_compute1_stage1.v:112-117 | which opcodes wait for A, which for X, and which read the packet |
| `WireMeanings.JumpTargetMeaning` | Sources/BPFVM/CPU/datapath/pipelined_alu.v:135-138 | the pipeline's jumps lead where the opcode says, for the operand they find |
| `WireMeanings.WaitingClearsScratch` | IPs/parameterized_axistream_packetfilt/src/regfile.v:33-55 | a cycle without a packet clears all sixteen scratch words and keeps A and X |
| `WireMeanings.FreshScratch` | Sources/BPFVM/bpfvm.v:58-119 | a packet taken up after such a cycle finds the scratch memory empty |
| `WireMeanings.VerdictKeepsScratch` | IPs/parameterized_axistream_packetfilt/src/regfile.v:33-55 | one taken up in the cycle after a verdict finds the words of the packet before |
| `PipelineStages.FetchStage.Clock` | Sources/BPFVM/CPU/Pipelined_Controller/fetch_stage0.v:48-89 | the valid bit after an edge, for every combination of stalls |
| `PipelineStages.Compute2Stage.Clock` | Sources/BPFVM/CPU/Pipelined_Controller/compute2_stage2.v:79-120 | stage 2's registers; PC, memory and scratch enables gated, A and X enables not |
| `PipelineStages.WritebackStage.Clock` | Sources/BPFVM/CPU/Pipelined_Controller/writeback_stage3.v:42-47 | stage 3's gated write enables |
| `PipelineDatapath.TwoPhaseAlu` | Sources/BPFVM/CPU/datapath/pipelined_alu.v:67-130 | computing all results and selecting one edge later is the ALU of the instruction set, including the constants for MUL, DIV and MOD |
| `PipelineDatapath.PipelinedAlu.Clock` | Sources/BPFVM/CPU/datapath/pipelined_alu.v:67-150 | results, selection and flags are registered; the selection is of the previous operands |
| `PipelineDatapath.RegFile.Clock` | IPs/parameterized_axistream_packetfilt/src/regfile.v:27-55 | the scratch array is cleared or written in place |
| `PipelineDatapath.DatapathModule.Clock` | IPs/parameterized_axistream_packetfilt/src/pipelined_datapath.v:152-314 | A, X, PC, delayed immediates, packet address and scratch output after an edge |
| `PipelinedCpu.PipelinedController.Clock` | Sources/BPFVM/CPU/Pipelined_Controller/pipelined_bpfvm_ctrl.v:83-183 | the stages advance together, each on the others' values from before the edge |
| `PipelinedCpu.PipelinedBpfCpu.Clock` | Sources/BPFVM/CPU/pipelined_bpfcpu.v:58-121 | controller, datapath, adapter and instruction register as one machine, with the reset on a verdict |
| `PipelineProof.LatchedRead` | Sources/BPFVM/packetmem/read_size_adapter.v:90-104 | a packet read issued in stage 2 delivers the right bytes to stage 3 |
| `PipelineProof.Drain` | IPs/parameterized_axistream_packetfilt/src/pipelined_datapath.v:152-314 | an edge completes stage 3 and moves stage 2's pending write into stage 3 unchanged in value |
| `PipelineProof.StallIsWait` | Sources/BPFVM/CPU/Pipelined_Controller/decode_compute1_stage1.v:112-120 | stage 1 stalls exactly while a write to a register it reads is in flight, at most two edges |
| `PipelineProof.StallEdge` | Sources/BPFVM/CPU/Pipelined_Controller/fetch_stage0.v:48-89 | a stalled edge changes nothing architectural and issues nothing twice |
| `PipelineProof.OperandsAreSequential` | Sources/BPFVM/CPU/Pipelined_Controller/pipelined_bpfvm_ctrl.v:259-260 | hazard freedom: when an instruction issues, each register it waits for has its sequential value in every stage that uses it, and an X operand has when no write to X is in flight |
| `PipelineProof.IssueEdge` | Sources/BPFVM/CPU/Pipelined_Controller/pipelined_bpfvm_ctrl.v:242-267 | one issue is exactly one step: the interpreter's, with X read now where it is an unwaited operand, and running on after RET A and RET X |
| `PipelineProof.JumpEdge` | Sources/BPFVM/CPU/Pipelined_Controller/decode_compute1_stage1.v:151-152 | an issued jump blocks fetching and carries its target to stage 2 |
| `PipelineProof.ResolveEdge` | Sources/BPFVM/CPU/Pipelined_Controller/compute2_stage2.v:89-111 | stage 2 loads the program counter with the interpreter's target although the jump type comes from stage 1's register |
| `PipelineProof.JumpRuns` | Sources/BPFVM/CPU/Pipelined_Controller/compute2_stage2.v:80-119 | a jump costs three edges, gives no verdict, and ends at its target |
| `PipelineProof.InstructionRuns` | Sources/BPFVM/CPU/Pipelined_Controller/fetch_stage0.v:48-89 | each instruction that does not wait for itself costs an exact number of edges, at most five, without a verdict in between |
| `PipelineProof.SameStepIff` | Sources/BPFVM/CPU/Pipelined_Controller/decode_compute1_stage1.v:112-127 | a step of the pipeline is the interpreter's iff the operand gives the same result or target, returns are immediate and load modes defined |
| `PipelineProof.StaleAluIff` | Sources/BPFVM/CPU/Pipelined_Controller/decode_compute1_stage1.v:112-124 | an ALU instruction with an X operand issues as the interpreter's iff the X in the register gives the same result as the sequential X, which it is when no write to X is in flight |
| `PipelineProof.StaleJumpIff` | Sources/BPFVM/CPU/Pipelined_Controller/decode_compute1_stage1.v:112-124 | a jump comparing with X arrives where the interpreter's does iff the X in the register leads to the same target |
| `PipelineTheorems.TimedIsInterpIff` | Sources/BPFVM/CPU/Pipelined_Controller/pipelined_bpfvm_ctrl.v:242-267 | up to n instructions the cycle-counting semantics is in the interpreter's state after each, or has given its verdict, iff every instruction on the way issues with the interpreter's effect |
| `PipelineTheorems.StuckForever` | Sources/BPFVM/CPU/Pipelined_Controller/compute2_stage2.v:114-119 | an instruction stalled by its own ungated enable never issues, so no verdict ever comes |
| `PipelineTheorems.PipelineFollows` | Sources/BPFVM/CPU/Pipelined_Controller/pipelined_bpfvm_ctrl.v:242-267 | for every program, packet and start state, stale operands included, the pipeline is at the state of its semantics, or gives its verdict, at exactly the counted edge and not before, or never gives one |
| `PipelineTheorems.VerdictIsInterpreted` | Sources/BPFVM/CPU/Pipelined_Controller/decode_compute1_stage1.v:126-127 | RET with an immediate accepts iff the immediate is odd, as the interpreter does |
| `PipelineTheorems.VerdictMakesReady` | Sources/BPFVM/CPU/pipelined_bpfcpu.v:58-104 | the edge after a verdict leaves the CPU ready for the next packet even with older writes in flight |
| `PipelineTheorems.HoldKeepsReady` | Sources/BPFVM/CPU/pipelined_bpfcpu.v:61-94 | waiting for a packet keeps the CPU ready and gives no verdict |
| `PipelineTheorems.ResetMakesReady` | Sources/BPFVM/CPU/Pipelined_Controller/fetch_stage0.v:83-89 | three edges of reset make the CPU ready, from any register contents, iff the word on the code memory's output does not depend on itself |
| `ForwardPrograms.ForwardReturns` | Sources/bpf_defs.vh:6-87 | the interpreter ends every program with forward jumps within its length, with a verdict unless it meets an undefined load |
| `ForwardPrograms.PipelineDecides` | Sources/BPFVM/CPU/Pipelined_Controller/pipelined_bpfvm_ctrl.v:242-267 | a forward program of length L that ends in RET #k is decided at an exact edge within 5(L-1)+1, or deadlocks; the verdict is the interpreter's when every instruction issues with its effect |
| `ForwardPrograms.AnswersIffNoDeadlock` | Sources/BPFVM/CPU/Pipelined_Controller/compute2_stage2.v:114-119 | the pipeline answers a forward program iff the run meets no instruction that waits for its own destination |
| `ForwardPrograms.TableDecides` | Sources/BPFVM/CPU/Pipelined_Controller/compute2_stage2.v:114-119 | a table of write ages closed under the program's flow: no entry that waits for itself rules out deadlock, no entry with a stale operand makes the run the interpreter's |
| `ForwardPrograms.FragmentAlwaysAnswers` | Sources/BPFVM/CPU/Pipelined_Controller/decode_compute1_stage1.v:112-127 | a program so certified answers every packet, within 5(L-1)+1 edges, and rightly |
| `ForwardPrograms.AnyLagIsClosed` | Sources/BPFVM/CPU/Pipelined_Controller/decode_compute1_stage1.v:112-120 | programs without ALU instructions and indexed LDX are certified |
| `ForwardPrograms.LoadThenAluHangs` | Sources/BPFVM/CPU/Pipelined_Controller/compute2_stage2.v:114-119 | a load directly followed by an ALU instruction never gets a verdict, where the interpreter goes on |
| `ForwardPrograms.StoreBreaksTheWait` | Sources/BPFVM/CPU/Pipelined_Controller/decode_compute1_stage1.v:112-120 | with a store in between it does, and the interpreter's |
| `ForwardPrograms.StaleCompare` | Sources/BPFVM/CPU/Pipelined_Controller/decode_compute1_stage1.v:114-117 | a jump comparing with a freshly loaded X compares with the old X; the verdict is wrong exactly when the two differ in being equal to A |
| `ForwardPrograms.RegisterReturnFallsThrough` | Sources/BPFVM/CPU/Pipelined_Controller/decode_compute1_stage1.v:126-127 | RET A and RET X give no verdict and run on |
| `OldCpu.OldBpfCpu.UpdateArchitecture` | Old_Sources/bpfvm_datapath.v:87-163 | A, X, PC and the scratch memory after an edge |
| `OldCpu.OldBpfCpu.Clock` | Old_Sources/bpfvm_ctrl.v:93-561 | controller and datapath as one machine, in both timing variants |
| `OldCpuProof.OldEdge` | Old_Sources/bpfvm_ctrl.v:409-561 | every edge finishes an instruction with the interpreter's effect, or gives its verdict, or comes one edge closer; both variants |
| `OldCpuProof.OldCpuFollows` | Old_Sources/bpfvm_ctrl.v:199-561 | after exactly the counted edges: the interpreter's state, verdict, or fault, with final A, X and scratch memory |
| `OldCpuProof.EveryCycleIsInterpreted` | Old_Sources/bpfvm_datapath.v:88-209 | in every cycle the registers are the interpreter's after the instructions finished so far |
| `OldCpuProof.ResetStarts` | Old_Sources/bpfvm_ctrl.v:295-302 | leaving reset starts at instruction 0 |
| `OldCpuProof.OldWaits` | Old_Sources/bpfvm_ctrl.v:415-416 | without a packet, or under reset, both variants stay in reset for ever: no verdict, no packet read, A and X unchanged |
| `OldCpuProof.RstResets` | IPs/parameterized_axistream_packetfilt/src/regfile.v:33-55 | reset leads to the reset state from every state and clears the scratch memory |
| `OldCpuProof.OneEndPerPacket` | Old_Sources/bpfvm_ctrl.v:409-561 | each packet started on ends once, with a verdict or an undefined load, and nothing else ends |
| `OldCpuProof.VariantsAgree` | Old_Sources/bpfvm_ctrl.v:199-291 | the optimistic and the pessimistic variant visit the same states at each fetch and give the same verdict, the latter at most one edge per instruction later |
| `CpuEquivalence.RedesignKeepsVerdict` | Sources/BPFVM/CPU/pipelined_bpfcpu.v:58-121 | on forward programs the pipeline deadlocks or gives a verdict, which is that of the machine it replaced iff it is the interpreter's |
| `JobQueues.HeadIsOldest` | Sources/BPFVM/packetmem/p3ctrl/cpuqueue.v:51 | the selected buffer is the oldest token in the queue |
| `JobQueues.QueueIsFifoIff` | Sources/BPFVM/packetmem/p3ctrl/cpuqueue.v:27-51 | a step is "remove the head, append the arrival" on the token sequence iff the head has reached `first` and nothing arrives at a full queue |
| `JobQueues.SnQueueIsFifoIff` | IPs/parameterized_axistream_packetfilt/src/snqueue.v:29-56 | the same for the queue with two producers, including when a double arrival is lossless |
| `JobQueues.HeadReachesFirst` | IPs/parameterized_axistream_packetfilt/src/fwdqueue.v:36-51 | a head token reaches `first` within two steps and stays the head meanwhile |
| `JobQueues.SnHeadReachesFirst` | IPs/parameterized_axistream_packetfilt/src/snqueue.v:36-56 | the same for the snooper's queue, whatever arrives without overwriting a token |
| `JobQueues.Queue.ClockSingle` | IPs/parameterized_axistream_packetfilt/src/fwdqueue.v:24-51 | the queue updated in place, and the FIFO law under its condition |
| `JobQueues.Queue.ClockDouble` | IPs/parameterized_axistream_packetfilt/src/snqueue.v:26-53 | the snooper's queue updated in place; reset puts in all three tokens |
| `P3Control.TokensMove` | IPs/parameterized_axistream_packetfilt/src/p3ctrl.v:51-78 | a disciplined step moves tokens first-in, first-out between the three queues and keeps all three |
| `P3Control.ConservedIff` | IPs/parameterized_axistream_packetfilt/src/p3ctrl.v:51-78 | exactly when one step keeps every token in exactly one of nine slots |
| `P3Control.ThirdIsRecent` | IPs/parameterized_axistream_packetfilt/src/snqueue.v:33-51 | a token alone in `third` arrived in the last cycle |
| `P3Control.NoRepeatMeansDisciplined` | IPs/parameterized_axistream_packetfilt/src/snqueue.v:33-34 | E2 rules out the double arrival that overwrites a token |
| `P3Control.TokensConserved` | IPs/parameterized_axistream_packetfilt/src/p3ctrl.v:51-78 | in every state reachable from reset under E1-E3 the nine slots hold each token exactly once |
| `P3Control.HeadPersists` | IPs/parameterized_axistream_packetfilt/src/p3ctrl.v:51-78 | an agent keeps its buffer until it releases it |
| `P3Control.P3ControlModule.Clock` | IPs/parameterized_axistream_packetfilt/src/p3ctrl.v:51-78 | three queues clocked together on each other's heads from before the edge |
| `BufferMuxes.InversionIff` | IPs/parameterized_axistream_packetfilt/src/muxselinvert.v:30-49 | each buffer selects an agent iff that agent selects the buffer, on all selections without sharing and on no others |
| `PacketMem.BufferStep` | Sources/BPFVM/packetmem/packetmem.v:131-205 | exclusivity and non-interference: a buffer obeys only the agent whose head it is, and otherwise keeps contents, output and length |
| `PacketMem.PacketMemModule.Clock` | Sources/BPFVM/packetmem/packetmem.v:93-205 | controller, muxes and three RAMs in place as one step |
| `Snooper.SnooperModule.Clock` | Sources/Snoopers/axistream_snooper.v:58-79 | write strobe, done pulse, address and skip flag |
| `Snooper.SnooperWholeIff` | Sources/Snoopers/axistream_snooper.v:58-77 | what is written is all beats of one bus packet at addresses 0, 1, ..., or nothing, and a packet is taken iff the memory was ready at its first beat; a cycle keeps this iff it does not write the tail of a skipped packet |
| `Snooper.FlagKeptIff` | Sources/Snoopers/axistream_snooper.v:60-63 | while the skip flag is kept no tail is written, and it is lost exactly when TLAST waits for TREADY at the end of a skipped packet |
| `Snooper.HeldLastCapturesTheTail` | Sources/Snoopers/axistream_snooper.v:60-71 | three beats, two without a buffer and the last held for one cycle: the last is captured as a packet |
| `Forwarder.ForwarderModule.Clock` | Sources/Forwarders/axistream_forwarder.v:40-139 | address, TVALID, TLAST and the held copies after an edge |
| `Forwarder.ForwarderEdge` | Sources/Forwarders/axistream_forwarder.v:79-139 | the beat offered is the packet's next, TLAST marks the last one only, an offer is held unchanged until accepted, and done comes exactly with the last acceptance |
| `Forwarder.EmitsExactly` | Sources/Forwarders/axistream_forwarder.v:79-139 | for every TREADY schedule exactly as many beats go out as it has room for, in order, and the done pulse comes with the last, iff there is room for all |
| `EndToEnd.BufferFrame` | Sources/BPFVM/packetmem/packetmem.v:165-205 | a buffer's contents and length change only by its owner's writes and by its release |
| `EndToEnd.SnooperCycle` | Sources/Snoopers/axistream_snooper.v:58-77 | packets of three beats discharge E1 for the snooper, and readiness cannot drop inside a packet |
| `EndToEnd.CycleIsDisciplined` | IPs/parameterized_axistream_packetfilt/src/snqueue.v:33-51 | E1-E3 hold in every cycle once the CPU meets them |
| `EndToEnd.ReleasedAreBlank` | Sources/BPFVM/packetmem/packetmem.v:175-203 | a buffer is handed back to the snooper with length 0 |
| `EndToEnd.BusyEdge` | Sources/Forwarders/axistream_forwarder.v:79-139 | the forwarder on its buffer inside the packet memory sends the stored packet and cannot send its last beat at once |
| `EndToEnd.InvStep` | Sources/BPFVM/packetmem/packetmem.v:93-205 | every cycle keeps the accounting of all packets between bus and output |
| `EndToEnd.ReadyLines` | Sources/BPFVM/packetmem/packetmem.v:105-108 | the ready lines: fewer than three packets in the machine, one to judge, one to send |
| `EndToEnd.TakenIffRoom` | Sources/Snoopers/axistream_snooper.v:58-66 | a packet is captured iff there is room at its first beat |
| `EndToEnd.TailWriteBreaksInv` | Sources/Snoopers/axistream_snooper.v:58-77 | writing the tail of a skipped packet breaks it |
| `EndToEnd.OutputIsAcceptedPackets` | Sources/BPFVM/packetmem/packetmem.v:93-205 | from reset, in every cycle: captured packets are whole and in order, waiting ones are intact, and the output is a prefix of the accepted packets in arrival order |
| `EndToEnd.NothingIsLost` | Sources/BPFVM/packetmem/packetmem.v:93-205 | with empty queues the output is exactly the accepted packets |
| `EndToEnd.TwoBeatsCopyTheToken` | IPs/parameterized_axistream_packetfilt/src/snqueue.v:43-51 | a two-beat packet that starts when the snooper's only token has just arrived puts that token into two queues |
| `FilterCore.ClosedEdge` | Sources/BPFVM/bpfvm.v:58-119 | while the CPU keeps its buffer, CPU and buffer inside the machine are the closed system of the pipeline proof |
| `CpuProgress.ProgressEdge` | Sources/BPFVM/CPU/Pipelined_Controller/pipelined_bpfvm_ctrl.v:242-267 | every edge without a verdict keeps the CPU on the path of its program from where it took the packet up, or stuck |
| `CpuProgress.VerdictEdge` | Sources/BPFVM/CPU/pipelined_bpfcpu.v:58-104 | a verdict is the one the run from that origin ends in, and leaves the CPU ready |
| `CpuProgress.JudgesOnce` | Sources/BPFVM/CPU/pipelined_bpfcpu.v:58-104 | an origin leads to at most one verdict |
| `CpuProgress.CertifiedIsSequential` | Sources/BPFVM/CPU/Pipelined_Controller/decode_compute1_stage1.v:112-127 | a table without stale entries makes the pipeline the interpreter on every packet |
| `CpuProgress.PlainIsSequential` | Sources/BPFVM/CPU/Pipelined_Controller/decode_compute1_stage1.v:112-127 | so does having no X operand, no RET A or RET X and no undefined load |
| `FilterCore.CpuStepOf` | Sources/BPFVM/bpfvm.v:58-119 | the real CPU meets E1 and E2: no verdict before its token is in `first`, none in the cycle after a verdict |
| `FilterCore.CoreStep` | Sources/BPFVM/bpfvm.v:58-125 | every cycle of the machine keeps the invariant that ties packets, buffers, program progress and verdicts together |
| `FilterCore.FilterIsCorrect` | Sources/BPFVM/bpfvm.v:58-125 | for every run: the path from bus to output is faithful, and every verdict is the one the program leads to from the machine's own logged state on that packet; the interpreter's, for programs that run sequentially |
| `BrokenRuns.ReturnFirstCopiesTheToken` | Sources/BPFVM/packetmem/p3ctrl/cpuqueue.v:38-51 | a program that starts with a return breaks E1 on a packet that arrives alone, and copies its token |
| `BrokenRuns.ReturnFirstFromReset` | Sources/BPFVM/packetmem/p3ctrl/cpuqueue.v:38-51 | the first packet after reset already does |
| `BrokenRuns.TwoBeatsFromReset` | IPs/parameterized_axistream_packetfilt/src/snqueue.v:43-51 | three captured packets, one rejected, and then a packet of two beats, from reset: its token is in two queues |
| `Liveness.RunIsTrace` | Sources/BPFVM/bpfvm.v:58-125 | every run of the machine is one of the traces the next results speak about |
| `Liveness.NoSelfReaderAnswers` | Sources/BPFVM/CPU/Pipelined_Controller/decode_compute1_stage1.v:112-120 | they apply to every forward program without ALU instructions and indexed LDX |
| `Liveness.HeadIsJudged` | Sources/BPFVM/CPU/Pipelined_Controller/fetch_stage0.v:48-89 | from any cycle in which the CPU has a packet, a certified program gives its verdict within 5(L-1)+1 cycles |
| `Liveness.EveryPacketIsJudged` | Sources/BPFVM/bpfvm.v:58-125 | all packets captured by some cycle are judged three such spans later, whatever happens on the streams |
| `Liveness.AcceptedLeave` | Sources/Forwarders/axistream_forwarder.v:79-139 | with a TREADY cycle for each beat and each packet still to be sent, the accepted packets have left |
| `Liveness.EverythingGetsOut` | Sources/BPFVM/bpfvm.v:58-125 | every captured packet is judged and, after at most 3(cap+1) more TREADY cycles, every accepted one is in the output, in order and whole |
| `Liveness.MachineDrains` | Sources/BPFVM/bpfvm.v:58-125 | when the bus goes quiet the queues empty and the output is exactly the accepted packets |
| `Dispatch.ArbiterPicksLowest` | Sources/packetfilt/parallel_packetfilts.v:161-201 | for any N the chained arbiters enable exactly the lowest-numbered ready machine, the carry out says whether there is one, and padding is never enabled |
| `Dispatch.OneEnabled` | Sources/packetfilt/parallel_packetfilts.v:93-116 | in every cycle with a ready machine exactly one machine is enabled and it is ready; otherwise none |
| `Dispatch.SelectionSticks` | Sources/packetfilt/parallel_packetfilts.v:93-116 | the selection changes only after done or while nobody is ready |
| `Dispatch.StickySelector.Clock` | Sources/packetfilt/parallel_packetfilts.v:77-116 | the saved enables and the select flag updated in place |
| `Dispatch.DispatchStep` | Sources/packetfilt/parallel_packetfilts.v:93-148 | whole-packet dispatch: a written beat reaches exactly one machine, and every machine gets exactly its packets, whole and in order |
| `Dispatch.MergeSelects` | Sources/packetfilt/parallel_packetfilts.v:207-253 | one-hot muxes and OR reduction return exactly the enabled machine's word, or zero |
| `Dispatch.MuxTreeIsAny` | Sources/Forwarders/one_hot_mux_3.v:30-33 | a row of one-hot muxes OR-ed together is up iff an enabled bit is up |
| `Dispatch.ChainGrants` | Sources/packetfilt/arbiter_4.v:32-36 | each arbiter of the chain grants the lowest ready line unless an earlier one did |
| `Dispatch.MergedIsOwners` | Sources/packetfilt/parallel_packetfilts.v:207-253 | data and length reach the forwarder bit for bit through the merge |
| `ParallelProof.ViewEdge` | Sources/packetfilt/parallel_packetfilts.v:118-148 | with strobes gated by its enables, machine j in the filter does what a machine with its own snooper and forwarder does |
| `ParallelProof.ReadinessPersists` | Sources/packetfilt/parallel_packetfilts.v:119-148 | a ready machine stays ready until it is given done, which is what the sticky selection relies on |
| `ParallelProof.MachineCycle` | Sources/packetfilt/parallel_packetfilts.v:118-148 | every cycle of the filter keeps each machine's own invariant |
| `ParallelProof.FilterStep` | Sources/axistream_packetfilt.v:222-361 | every cycle keeps the invariant of the whole filter |
| `ParallelProof.WholeFilterIsCorrect` | Sources/axistream_packetfilt.v:222-361 | for any number of machines and every run: each captured packet is with exactly one machine, each machine judges its packets as its program does from the state it took them up in, and the output is exactly the accepted packets, whole and once each |
| `FilterLiveness.FilterJudges` | Sources/packetfilt/parallel_packetfilts.v:118-148 | every machine of the filter judges what it captured within the same bound |
| `FilterLiveness.SharedReadyLines` | Sources/packetfilt/parallel_packetfilts.v:161-201 | the shared snooper and forwarder are served iff some machine has room, or something to send |
| `FilterLiveness.FilterDrains` | Sources/axistream_packetfilt.v:222-361 | when the bus goes quiet the whole filter empties: every machine has judged and sent everything, and the output is whole packets, for each machine exactly its accepted ones |
| `ParallelProof.PowerUp` | Sources/packetfilt/parallel_packetfilts.v:80-94 | the power-up state is a start state of such runs |
| `HostText.SendProgram` | BPF_Tools/sendfilt.cpp:67-91 | the sending loop produces the program's text |
| `HostText.LineFormat` | BPF_Tools/sendfilt.cpp:75-81 | the text of an instruction, character by character, with digits of fixed width |
| `HostText.DigitFormat` | BPF_Tools/sendfilt.cpp:75-81 | digits are the sixteen characters of lower-case hexadecimal |
| `HostText.ControlFormat` | BPF_Tools/sendfilt.cpp:67-91 | the two control strings, with their terminating NUL |
| `HostText.DigitMeaning` | BPF_Tools/SDK_Sources/echo.c:97-116 | a digit of either case is appended, in 32 bits |
| `HostText.NoDigitMeaning` | BPF_Tools/SDK_Sources/echo.c:97-116 | every other byte is ignored |
| `HostText.Receiver.EatByte` | BPF_Tools/SDK_Sources/echo.c:80-117 | one byte: new parser state, register write, and the byte left in the buffer |
| `HostText.Receiver.RecvCallback` | BPF_Tools/SDK_Sources/echo.c:75-118 | the loop over a buffer, which it changes in place, equals the byte-wise parser |
| `HostText.SplitsDoNotMatter` | BPF_Tools/SDK_Sources/echo.c:75-79 | the parser is resumable: any cut of the byte stream into buffers gives the same writes |
| `HostText.HexIsRead` | BPF_Tools/SDK_Sources/echo.c:106-116 | zero-padded hex digits are read back as the number printed |
| `HostText.LineIsRead` | BPF_Tools/sendfilt.cpp:75-81 | one printed instruction is two register writes, high word first |
| `HostText.ProgramTextIsRead` | BPF_Tools/sendfilt.cpp:70-91 | print then parse: the text of any program becomes exactly the writes that load it |
| `ProgramLoad.StrobeToMem.Clock` | Sources/packetfilt/regstrb2mem.v:64-94 | strobes become code memory writes, in place |
| `ProgramLoad.OnlyWritesMatter` | Sources/packetfilt/regstrb2mem.v:83-94 | quiet cycles between register writes change nothing |
| `ProgramLoad.ControlStarts` | Sources/packetfilt/regstrb2mem.v:64-94 | bit 0 of a control write starts or stops the filter, and no other write does |
| `ProgramLoad.RunningIsProtected` | Sources/packetfilt/regstrb2mem.v:64-94 | while the filter runs no write changes its code and the address is held at 0 |
| `ProgramLoad.PairIsOneWord` | Sources/packetfilt/regstrb2mem.v:66-71 | a high and a low write together are one code word |
| `ProgramLoad.LoadsInSequence` | Sources/packetfilt/regstrb2mem.v:64-94 | a program fills consecutive addresses from where loading begins, around the end of the memory |
| `ProgramLoad.LoadsAtZeroIff` | Sources/packetfilt/regstrb2mem.v:85-93 | every program that fits lands at address 0 iff loading begins at address 0 with no low word pending |
| `ProgramLoad.BrokenLoadShiftsTheNext` | Sources/packetfilt/regstrb2mem.v:85-93 | a load without restart shifts the next program by its length |
| `ProgramLoad.DecodeEncode` | IPs/parameterized_axistream_packetfilt/src/pipelined_datapath.v:140-143 | the fields the CPU cuts out of a code word are the host's instruction fields |
| `ProgramLoad.ProgramRoundTrip` | BPF_Tools/sendfilt.cpp:70-91 | print, split, parse, write with any quiet cycles: the CPU decodes instruction i at code address i, nothing else changes, and the loader is ready again |
| `StartUp.OutputAfterLoading` | Sources/BPFVM/codemem/coderam.v:59-66 | when a program of two or more instructions has been loaded, the code memory shows its first one |
| `StartUp.StartsIff` | Sources/BPFVM/CPU/Pipelined_Controller/fetch_stage0.v:48-89 | with instruction 0 on that output the CPU gets ready iff instruction 0 does not read a register it writes; otherwise no verdict ever comes |
| `StartUp.LoadedProgramStarts` | BPF_Tools/sendfilt.cpp:70-91 | from host text to a CPU that has that program and is ready to run it, exactly when its first instruction does not depend on itself |
| `Boot.LoadedFilterStarts` | Sources/packetfilt/parallel_packetfilts.v:80-94 | from host text to a start state of the whole filter, exactly when the first instruction does not depend on itself |

## Left out

* The pessimistic build of the pipeline, read adapter, snooper and forwarder. Its
  idle stage does not delay the immediate, the scratch output and the ALU output,
  so it does not meet the sequential specification. `Sources/axistream_packetfilt.v`
  builds the pessimistic variant unless its parameter says otherwise; every module
  below it defaults to the optimistic one, which is the one modelled. The old CPU is
  modelled in both.
- FilterCore.FilterIsCorrect: not for programs that begin with RET #k, because that
  breaks E1 (`ReturnFirstCopiesTheToken`).
- Liveness.HeadIsJudged: only for programs with a certificate; others can hang, and for
  a single packet `AnswersIffNoDeadlock` says when.
- ParallelProof.WholeFilterIsCorrect: nothing about the order of packets handled by
  different machines, which the design does not guarantee.
- FilterLiveness.FilterDrains: no bound for one machine's packets while others keep
  accepting, because the arbiters always serve the lowest-numbered ready machine.
- EndToEnd.OutputIsAcceptedPackets: bus packets have at least three beats and fit a
  buffer; shorter ones can break E1 (`TwoBeatsCopyTheToken`) and longer ones
  overwrite their own start. No cycle writes the tail of a skipped packet, which
  the code does when TLAST has waited for TREADY (`HeldLastCapturesTheTail`); by
  `TailWriteBreaksInv` nothing weaker would do.
* `bpfvm.v`, `parallel_packetfilts.v` and `axistream_packetfilt.v` are compositions of
  step functions on values, so update in place and aliasing between the instances
  they wire together are not captured there.
* Reset in the middle of a run: the token queues reset but the length registers do
  not. Runs start after reset and do not reset again.
* The AXI4-Lite register file: a register write is one step that shows value and
  strobe together. Reads, the status register and decode errors are not modelled.
* Code memory is not written while a program runs.
- StartUp.LoadedProgramStarts: a program of a single instruction leaves the previous
  word on the code memory's output, so nothing is said about its start.
* The old CPU's packet memory answers in one cycle, and its splitter and combiner
  trees are not modelled.
* Undefined load modes and the error path of the old controller are modelled as
  faults; in the pipeline such a load is one of its immediate.
* lwIP: a receive callback sees one buffer; chained buffers, echoing and connection
  handling are not modelled. On the host, compiling the filter and the sockets.
* Clock timing, synthesis, and simulator races of blocking assignments in the
  sources: every register updates synchronously.
