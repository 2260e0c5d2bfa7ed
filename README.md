# Synthetic HLS kernels and their cocotb testbenches, in Dafny

This project models three parts of the repository's synthetic HLS examples and proves properties of them.

1. **The floating-point adder stand-in** (`fadd` in `floating_point_adder.py`).
   - It is a Python object that replaces the Xilinx `fadd` IP core in the vector-add RTL simulation.
   - It keeps a delay line of `delay - 1` (valid, data) entries, prefilled with (0, 32 x `z`).
   - On every enabled rising edge it drives the oldest entry onto its outputs and queues the sum of the inputs sampled at that edge. On a stalled edge it does nothing.
   - Signals are four-valued (`0`, `1`, `x`, `z`). Data with an `x` or `z` bit produces an all-`z` result.
   - `bytes_to_float` / `float_to_bytes` are modelled with an abstract single-precision unit (`FloatConv.FloatUnit`). Its `unpack`, `pack`, `add` and `fromInt` stand for `struct.unpack`, `struct.pack`, float addition and `float(i)`.
2. **The testbench control protocol.** This covers the vector-add `VecaddTest` (`reset`, `check_result`, `run`, `test`) and the slow-downstream `test` coroutine.
   - Initialise the AXI RAMs.
   - Hold `ap_rst_n` low for 10 edges, then raise it and wait one more edge.
   - Write the control-register table, one write per edge.
   - Write the start bit.
   - Poll `ap_ctrl` for the done bit (bit 1) with a retry counter that raises `TimeoutError` on the read that brings it to 0.
   - Finally check the output memory.
   - What a testbench does to the simulator is recorded as a trace of `ControlProtocol.Event`s. The bytes successive control reads return are an input sequence.
3. **Five HLS C++ dataflow kernels, under sequential C-simulation semantics.** These are `vecadd_floating_point`, `read_and_write_loop_inside_module`, `read_and_write_in_loop`, `read_and_writew_with_scalar_args` and `read_and_write_axi_stream`.
   - Each kernel is modelled imperatively.
   - `hls::stream` is the class `HlsStream.Stream`, an unbounded FIFO updated in place.
   - C arrays are Dafny `array`s.
   - Every `load`/`compute`/`store`/`top` is a method whose postcondition states what the FIFOs and memories hold afterwards.
   - Each host `main` is a method that proves its assertions hold.

Modules and files:
- `wrappers.dfy`: `Option`/`Result`, and the Python exceptions that can end a run.
- `logic.dfy`: four-valued bits, cocotb's resolve-to-integer comparison, and bytes to and from bit strings.
- `byte_codec.dfy`: little- and big-endian integers, and `int.to_bytes`.
- `float_conv.dfy`: `bytes_to_float` / `float_to_bytes`.
- `fadd.dfy`: the adder as a per-edge transition `Next`, its fold `Run`, and the class `Fadd`.
- `control_protocol.dfy`: reset, register writes, polling, and the test verdict.
- `axi_ram.dfy`: the byte memory behind `AxiRam.write` / `read_word`.
- `vecadd_test.dfy`: the class `VecaddTest` and the `test` coroutine of the vector-add testbench.
- `slow_downstream_test.dfy`: the slow-downstream `test` coroutine.
- `hls_stream.dfy`: `hls::stream`.
- `vecadd_kernel.dfy`, `loop_inside_module_kernel.dfy`, `in_loop_kernel.dfy`, `scalar_args_kernel.dfy`, `axi_stream_kernel.dfy`: the five kernels and their hosts.

Behaviour worth knowing before reading the contracts:
- **Indeterminate values in the adder.** Comparing a signal with an integer (`self.a_valid.value == 1`, `self.aclk_en == 0`) resolves it first, and cocotb raises `ValueError` when the signal holds an `x` or `z`.
  - So an `x`/`z` in `a_valid`, or in `b_valid` when `a_valid` is 1, or a `z` (without `x`) in `aclk_en`, ends `run` with `ValueError`.
  - Only the data inputs propagate, as an all-`z` result.
  - `struct.pack` also raises `OverflowError` for a finite sum beyond single precision.
- **No explicit control state machine.** The testbenches drive the device through a fixed sequence of actions, and the model records that sequence as a trace.
- **Reset length.** The code holds reset for 10 edges, not the 5 its comment says.

## Model

One row per member whose contract states something about the source. Plain definitions have no row of their own. They are characterised by the lemmas and methods listed here:
- `ControlProtocol`: `ResetPulse` (by `ResetPulseShape`), `DoneFlag` (by `DoneFlagIsBit1`), `PollFrom` and `Poll` (by `PollDone`, `PollFromCases`, `PollDoneIff`, `PollTimeoutIff`), and `Session` and `Verdict` (by `SessionOrder` and `PassIff`).
- `ByteCodec`: `FromLittle`, `ToLittle` and `ToBig` (by `LittleRoundTrip`, `LittleBytesRoundTrip`, `FromLittleBound` and `LittleReadBigWrite`).
- `AxiRamModel`: `Write`, `ReadWord` and `WordAt` (by `WriteEffect`, `WriteWordEffect`, `ReadWordAt` and `ZeroWordIff`).
- `FloatConv`: `BytesToFloat` (by `FloatRoundTrip`, `BytesRoundTrip` and `LittleIsReversedBig`).
- `FloatingPointAdder`: `Full`, `Enabled`, `WordToFloat` and `Driven` (by `EnabledIff`, `CalcOutputSum`, `EnabledEdgeShiftsLine`, `DelayLine` and `FifoLatency`).
- `VecaddTestbench`: `Expected`, `OutputAt` and `OutputsClose` (by `VecaddTest.CheckResult`, `OutputIsLittleEndian` and `CorrectDevicePasses`).
- `SlowDownstreamTestbench`: `CopiedBack` (by `CopiedBackIff` and `CheckCopied`).
- `VecaddKernel`: the host checks `HostCheckAsWritten`, `AbsOfComparison` and `HostCheck` (by `AsWrittenAcceptsWrongSum` and `HostCheckIff`).
- `HlsStream`: `Stream.Empty` (by the guarded reads of `VecaddKernel.Compute` and `InLoopKernel.Compute`).
- `ScalarArgsKernel`: `Trips` (by the `Load`, `Compute` and `Store` loop contracts).

| member | source | states |
|---|---|---|
| Logic.Repeat | hls/synthetic/vecadd_floating_point/test/floating_point_adder.py:12 | `n` copies of one bit (the all-`z` word `HIGHIMP32`) |
| Logic.ResolvedIff | hls/synthetic/vecadd_floating_point/test/floating_point_adder.py:75 | a word is resolved exactly when it has no `x` and no `z` bit |
| Logic.ToInt | hls/synthetic/vecadd_floating_point/test/floating_point_adder.py:69 | resolving a signal to an int succeeds iff every bit is 0/1, otherwise raises ValueError |
| Logic.EqualsInt | hls/synthetic/vecadd_floating_point/test/floating_point_adder.py:92 | comparing a signal with an int succeeds iff the signal is resolved |
| Logic.ZeroIffAllZero | hls/synthetic/vecadd_floating_point/test/floating_point_adder.py:92 | a resolved signal equals 0 iff every bit is 0 |
| Logic.OneBitEqualsOne | hls/synthetic/vecadd_floating_point/test/floating_point_adder.py:69 | a one-bit valid signal equals 1 iff it is `1`; the comparison raises iff the bit is `x`/`z` |
| Logic.BitsOf | hls/synthetic/vecadd_floating_point/test/floating_point_adder.py:83 | the binary digits of `n`, most significant first, in exactly `width` resolved bits |
| Logic.ToIntBitsOf | hls/synthetic/vecadd_floating_point/test/floating_point_adder.py:81-83 | a number below 2^width written in `width` bits resolves back to that number |
| Logic.ToIntBound | hls/synthetic/vecadd_floating_point/test/floating_point_adder.py:69 | a resolved word of `w` bits resolves to an integer below 2^w |
| Logic.BitsOfToInt | hls/synthetic/vecadd_floating_point/test/floating_point_adder.py:81-83 | a resolved word is the binary expansion, at its own width, of the integer it resolves to |
| Logic.ByteRoundTrip | hls/synthetic/vecadd_floating_point/test/floating_point_adder.py:81-83 | a byte turned into 8 bits and back is the same byte |
| Logic.BitsRoundTrip | hls/synthetic/vecadd_floating_point/test/floating_point_adder.py:81-83 | 8 resolved bits turned into a byte and back are the same bits |
| Logic.BitsOfBytes | hls/synthetic/vecadd_floating_point/test/floating_point_adder.py:83 | `BinaryValue(bytes)`: 8 resolved bits per byte |
| Logic.BytesOfBits | hls/synthetic/vecadd_floating_point/test/floating_point_adder.py:81-82 | `.buff` of a resolved word: one byte per 8 bits |
| Logic.BytesOfBitsOfBytes | hls/synthetic/vecadd_floating_point/test/floating_point_adder.py:81-83 | bytes to a `BinaryValue` and back (`.buff`) are the same bytes |
| Logic.BitsOfBytesOfBits | hls/synthetic/vecadd_floating_point/test/floating_point_adder.py:81-83 | a resolved word to bytes and back is the same word |
| ByteCodec.Reverse | hls/synthetic/vecadd_floating_point/test/test.py:125 | element `i` of the reversal is element `n-1-i` of the input |
| ByteCodec.ReverseReverse | hls/synthetic/vecadd_floating_point/test/test.py:125 | reversing twice is the identity |
| ByteCodec.FromLittleBound | hls/synthetic/read_and_write_slow_downstream/test/test.py:89 | a little-endian read of `n` bytes is below 256^n |
| ByteCodec.LittleRoundTrip | hls/synthetic/read_and_write_slow_downstream/test/test.py:51 | `i.to_bytes(n, 'little')` read back little-endian gives `i` |
| ByteCodec.LittleBytesRoundTrip | hls/synthetic/read_and_write_slow_downstream/test/test.py:88-90 | bytes read as a little-endian word and re-encoded are the same bytes |
| ByteCodec.LittleReadBigWrite | hls/synthetic/vecadd_floating_point/test/test.py:125 | `read_word(...).to_bytes(4, "big")` is the stored bytes reversed |
| FloatConv.FloatToBytes | hls/synthetic/vecadd_floating_point/test/floating_point_adder.py:23-27 | AssertionError for a bad byte order; OverflowError iff the value has no single-precision pattern; else 4 bytes |
| FloatConv.LittleIsReversedBig | hls/synthetic/vecadd_floating_point/test/floating_point_adder.py:18-20 | decoding little-endian is decoding the reversed bytes big-endian |
| FloatConv.FloatRoundTrip | hls/synthetic/vecadd_floating_point/test/floating_point_adder.py:16-27 | `bytes_to_float(float_to_bytes(x, o), o) == x` for every representable `x` and both orders |
| FloatConv.BytesRoundTrip | hls/synthetic/vecadd_floating_point/test/floating_point_adder.py:16-27 | `float_to_bytes(bytes_to_float(b, o), o) == b` for 4 bytes whose pattern packs back to itself |
| FloatingPointAdder.Stalled | hls/synthetic/vecadd_floating_point/test/floating_point_adder.py:92 | an `x` in clock enable stalls; otherwise the `== 0` comparison raises ValueError iff there is a `z` |
| FloatingPointAdder.EnabledIff | hls/synthetic/vecadd_floating_point/test/floating_point_adder.py:92-94 | an edge advances the pipeline iff clock enable is resolved and has a 1 bit |
| FloatingPointAdder.CalcOutput | hls/synthetic/vecadd_floating_point/test/floating_point_adder.py:65-85 | the valid bit is 1 iff both valids equal 1; `x`/`z` anywhere in the data gives all-`z` data |
| FloatingPointAdder.CalcOutputRaises | hls/synthetic/vecadd_floating_point/test/floating_point_adder.py:67-83 | `_calc_output` raises exactly when `a_valid` is unresolved, or `a_valid` is 1 and `b_valid` unresolved, or the resolved sum does not pack; only ValueError or OverflowError |
| FloatingPointAdder.CalcOutputSum | hls/synthetic/vecadd_floating_point/test/floating_point_adder.py:74-83 | with resolved data, the queued data is the single-precision pattern of the sum of the two big-endian floats |
| FloatingPointAdder.InitialState | hls/synthetic/vecadd_floating_point/test/floating_point_adder.py:54-63 | after `__init__` the delay line holds `delay - 1` fillers (0, 32 x `z`) |
| FloatingPointAdder.Next | hls/synthetic/vecadd_floating_point/test/floating_point_adder.py:90-107 | one edge never overfills the line, keeps it full while nothing is raised, and changes nothing once `run` has raised |
| FloatingPointAdder.StallChangesNothing | hls/synthetic/vecadd_floating_point/test/floating_point_adder.py:92-94 | a stalled edge changes neither the queue nor the outputs |
| FloatingPointAdder.EnabledEdgeShiftsLine | hls/synthetic/vecadd_floating_point/test/floating_point_adder.py:96-105 | an enabled edge drives the oldest entry, appends the new result, and the line stays full |
| FloatingPointAdder.Run | hls/synthetic/vecadd_floating_point/test/floating_point_adder.py:88-107 | a run of edges never overfills the delay line |
| FloatingPointAdder.Accepted | hls/synthetic/vecadd_floating_point/test/floating_point_adder.py:104-105 | one computed result per enabled edge |
| FloatingPointAdder.DelayLine | hls/synthetic/vecadd_floating_point/test/floating_point_adder.py:96-105 | after any edges, the queue is the last `delay - 1` of (initial line ++ accepted results) and the driven entries are the rest, in FIFO order |
| FloatingPointAdder.DrivenAt | hls/synthetic/vecadd_floating_point/test/floating_point_adder.py:96-105 | from a full line, the `k`-th driven entry is line entry `k` while the line lasts, then the accepted result `k - (delay - 1)` |
| FloatingPointAdder.FifoLatency | hls/synthetic/vecadd_floating_point/test/floating_point_adder.py:55-105 | the k-th enabled edge drives the filler for `k < delay - 1`, else the result accepted on enabled edge `k - (delay - 1)` |
| FloatingPointAdder.RunAppend | hls/synthetic/vecadd_floating_point/test/floating_point_adder.py:90-107 | running `a + b` is running `a` then `b`, and the driven entries concatenate |
| FloatingPointAdder.StallsChangeNothing | hls/synthetic/vecadd_floating_point/test/floating_point_adder.py:92-94 | any number of stalled edges leave the state as it was and drive nothing |
| FloatingPointAdder.StallTransparency | hls/synthetic/vecadd_floating_point/test/floating_point_adder.py:90-107 | inserting stalled edges changes neither the final state nor the driven entries |
| FloatingPointAdder.Fadd.Init | hls/synthetic/vecadd_floating_point/test/floating_point_adder.py:46-55 | the object holds the given queue, with `out_valid` driven 0 |
| FloatingPointAdder.Fadd.New | hls/synthetic/vecadd_floating_point/test/floating_point_adder.py:33-63 | `__init__` raises AssertionError iff `delay < 2`, else a fresh adder in the initial state |
| FloatingPointAdder.Fadd.Step | hls/synthetic/vecadd_floating_point/test/floating_point_adder.py:90-107 | one loop iteration of `run` updates the object as `Next` says |
| FloatingPointAdder.Fadd.RunEdges | hls/synthetic/vecadd_floating_point/test/floating_point_adder.py:88-107 | `run` over a sequence of edges updates the object as `Run` says |
| ControlProtocol.Edges | hls/synthetic/vecadd_floating_point/test/test.py:100-101 | `n` rising edges |
| ControlProtocol.ResetPulseShape | hls/synthetic/vecadd_floating_point/test/test.py:98-103 | reset low, exactly 10 edges, reset high, one edge: 13 events |
| ControlProtocol.WriteEach | hls/synthetic/vecadd_floating_point/test/test.py:108-118 | two events per register written |
| ControlProtocol.WriteEachAt | hls/synthetic/vecadd_floating_point/test/test.py:108-118 | register `k` of the table is written at position `2k` and followed by an edge |
| ControlProtocol.WriteEachAppend | hls/synthetic/vecadd_floating_point/test/test.py:108-118 | writing two tables in turn is writing their concatenation |
| ControlProtocol.SettledAppend | hls/synthetic/vecadd_floating_point/test/test.py:117-118 | traces where every write is followed by an edge concatenate into such a trace |
| ControlProtocol.WriteEachSettled | hls/synthetic/vecadd_floating_point/test/test.py:117-118 | every register write is immediately followed by an edge |
| ControlProtocol.CtrlReads | hls/synthetic/vecadd_floating_point/test/test.py:143 | `n` reads of `ap_ctrl` |
| ControlProtocol.DoneFlagIsBit1 | hls/synthetic/vecadd_floating_point/test/test.py:143-144 | `byte // 2 % 2` is 0 or 1, and 1 iff bit 1 is set (index 6 of the byte's bits, most significant first) |
| ControlProtocol.PollDone | hls/synthetic/vecadd_floating_point/test/test.py:141-147 | the polling loop (one read recorded on the trace, one decrement per iteration) ends as `Poll` says, after exactly the reads it made |
| ControlProtocol.PollFromCases | hls/synthetic/vecadd_floating_point/test/test.py:141-147 | the poll from read `i` ends Done, Timeout or without an answer, each characterised |
| ControlProtocol.PollDoneIff | hls/synthetic/vecadd_floating_point/test/test.py:141-147 | polling ends Done after `k` reads iff read `k` is the first to see done and the counter has not reached 0 by then |
| ControlProtocol.PollTimeoutIff | hls/synthetic/vecadd_floating_point/test/test.py:145-147 | TimeoutError after `k` reads iff `k` equals the initial counter (at least 1) and none of the first `k - 1` reads saw done |
| ControlProtocol.TimeoutDespiteDone | hls/synthetic/vecadd_floating_point/test/test.py:144-147 | the read that brings the counter to 0 raises TimeoutError even when it saw done |
| ControlProtocol.PollReadBound | hls/synthetic/vecadd_floating_point/test/test.py:142-147 | with an initial counter of at least 1, at most that many reads are made |
| ControlProtocol.NoTimeoutWithoutBudget | hls/synthetic/vecadd_floating_point/test/test.py:142-147 | with an initial counter of 0 or less, TimeoutError is never raised |
| ControlProtocol.WriteEachEvent | hls/synthetic/vecadd_floating_point/test/test.py:108-118 | every event of the register writes is an edge or the write of one table entry |
| ControlProtocol.SetupOrder | hls/synthetic/vecadd_floating_point/test/test.py:98-118 | reset pulse and register writes: every write followed by an edge, no poll, and no start bit unless the table holds one |
| ControlProtocol.SessionOrder | hls/synthetic/vecadd_floating_point/test/test.py:98-147 | reset, then the table, then the start bit, then the polls; every write followed by an edge; no poll before the start bit |
| ControlProtocol.PassIff | hls/synthetic/vecadd_floating_point/test/test.py:141-151 | a run passes iff done is first seen before the counter runs out and the final check holds |
| ControlProtocol.PulseReset | hls/synthetic/vecadd_floating_point/test/test.py:98-103 | the reset loop appends exactly the reset pulse |
| ControlProtocol.WriteTable | hls/synthetic/vecadd_floating_point/test/test.py:108-118 | the register loop appends each write followed by one edge, in table order |
| ControlProtocol.StartAndPoll | hls/synthetic/vecadd_floating_point/test/test.py:137-147 | writes the start bit, then polls: one `ap_ctrl` read per iteration, ending as `Poll` says |
| AxiRamModel.Zeros | hls/synthetic/vecadd_floating_point/test/test.py:90-91 | `n` zero bytes |
| AxiRamModel.WriteEffect | hls/synthetic/vecadd_floating_point/test/test.py:88-91 | `write(addr, data)` replaces exactly the bytes `addr .. addr+len` |
| AxiRamModel.WriteWordEffect | hls/synthetic/vecadd_floating_point/test/test.py:86-91 | writing word `i` replaces word `i` and leaves every other word |
| AxiRamModel.ReadWordAt | hls/synthetic/vecadd_floating_point/test/test.py:94 | `read_word(4i, ws=4)` is the little-endian value of word `i`, below 2^32 |
| AxiRamModel.ZeroWordIff | hls/synthetic/vecadd_floating_point/test/test.py:93-95 | a word reads 0 iff its four bytes are zero |
| VecaddTestbench.InputBytes | hls/synthetic/vecadd_floating_point/test/test.py:87 | `float_to_bytes(float(i), "little")` gives 4 bytes |
| VecaddTestbench.InputsDecode | hls/synthetic/vecadd_floating_point/test/test.py:86-89 | the input word `i` decodes little-endian to `float(i)` |
| VecaddTestbench.OutputIsLittleEndian | hls/synthetic/vecadd_floating_point/test/test.py:125-126 | the big-endian decode of `read_word(...).to_bytes(4, "big")` is the little-endian decode of the stored word |
| VecaddTestbench.CorrectDevicePasses | hls/synthetic/vecadd_floating_point/test/test.py:120-127 | an output memory holding `float(i)*2` little-endian at every word passes `check_result` |
| VecaddTestbench.VecaddTest.constructor | hls/synthetic/vecadd_floating_point/test/test.py:27-76 | a fresh adder of delay 5 in its initial state, zeroed RAMs, adder not started, nothing done yet |
| VecaddTestbench.VecaddTest.InitMemory | hls/synthetic/vecadd_floating_point/test/test.py:84-95 | gmem_A/gmem_B word `i` is `float(i)` little-endian, gmem_C words zero; the zero check always passes |
| VecaddTestbench.VecaddTest.Reset | hls/synthetic/vecadd_floating_point/test/test.py:78-118 | memories initialised, then the reset pulse and the seven-register table appended to the trace |
| VecaddTestbench.VecaddTest.CheckResult | hls/synthetic/vecadd_floating_point/test/test.py:120-127 | succeeds iff every output word is close to `float(i)*2`, else AssertionError |
| VecaddTestbench.VecaddTest.Run | hls/synthetic/vecadd_floating_point/test/test.py:129-151 | the outcome is the verdict of polling and the check; adder started before reset, killed only on a pass; the full trace of actions |
| VecaddTestbench.VecaddTest.Start | hls/synthetic/vecadd_floating_point/test/test.py:129-147 | adder started, reset done, start bit written, polling ended as `Poll` says; inputs loaded |
| VecaddTestbench.VecaddTest.Finish | hls/synthetic/vecadd_floating_point/test/test.py:148-151 | the verdict of polling and the output check; the adder is killed only on a pass; memories A and B untouched |
| VecaddTestbench.Test | hls/synthetic/vecadd_floating_point/test/test.py:154-162 | the test ends as the verdict of polling with a counter of 100 and the output check |
| SlowDownstreamTestbench.InputWord | hls/synthetic/read_and_write_slow_downstream/test/test.py:51 | `i.to_bytes(4, 'little')` is 4 bytes |
| SlowDownstreamTestbench.CopiedBackIff | hls/synthetic/read_and_write_slow_downstream/test/test.py:88-90 | the final check holds iff every gmem_B word equals the gmem_A input word |
| SlowDownstreamTestbench.InitMemory | hls/synthetic/read_and_write_slow_downstream/test/test.py:49-57 | gmem_A word `i` is `i` little-endian, gmem_B all zero |
| SlowDownstreamTestbench.WriteRegisters | hls/synthetic/read_and_write_slow_downstream/test/test.py:67-72 | the three address registers written in turn, each followed by an edge |
| SlowDownstreamTestbench.CheckCopied | hls/synthetic/read_and_write_slow_downstream/test/test.py:88-90 | the final loop passes iff every gmem_B word equals the gmem_A input word |
| SlowDownstreamTestbench.Test | hls/synthetic/read_and_write_slow_downstream/test/test.py:20-90 | outcome is the verdict of polling (counter 200) and the copy check; trace is reset, three registers, start, polls; memories as initialised |
| SlowDownstreamTestbench.CopyingKernelPasses | hls/synthetic/read_and_write_slow_downstream/test/test.py:79-90 | a device that copies gmem_A into gmem_B and signals done in time passes |
| HlsStream.Stream.constructor | hls/synthetic/vecadd_floating_point/read_and_write.cpp:42-44 | a declared stream is empty |
| HlsStream.Stream.Write | hls/synthetic/vecadd_floating_point/read_and_write.cpp:6 | `write` appends at the back |
| HlsStream.Stream.Read | hls/synthetic/vecadd_floating_point/read_and_write.cpp:26 | `read` pops the front |
| HlsStream.Stream.ReadNb | hls/synthetic/vecadd_floating_point/read_and_write.cpp:15-16 | `read_nb` pops the front iff there is one and reports whether it did |
| VecaddKernel.Sums | hls/synthetic/vecadd_floating_point/read_and_write.cpp:18 | element `i` of the sums is `add(a[i], b[i])` |
| VecaddKernel.Load | hls/synthetic/vecadd_floating_point/read_and_write.cpp:3-8 | appends `mem[0..DATA_LEN)` to the FIFO in order |
| VecaddKernel.Compute | hls/synthetic/vecadd_floating_point/read_and_write.cpp:10-21 | sums exactly `min(DATA_LEN, |fifo_0|, |fifo_1|)` pairs in order, never reading an empty FIFO |
| VecaddKernel.Store | hls/synthetic/vecadd_floating_point/read_and_write.cpp:23-28 | pops DATA_LEN elements into `mem` in order |
| VecaddKernel.Top | hls/synthetic/vecadd_floating_point/read_and_write.cpp:30-54 | `mem_2[i] = mem_0[i] + mem_1[i]` for all 32 `i`, inputs unchanged, FIFOs empty |
| VecaddKernel.AsWrittenAcceptsWrongSum | hls/synthetic/vecadd_floating_point/read_and_write_host.cpp:18 | the host's check as written accepts 0.0 where 2.0 is expected |
| VecaddKernel.HostCheckIff | hls/synthetic/vecadd_floating_point/read_and_write_host.cpp:18 | the intended check bounds the output on both sides, and implies the written one |
| VecaddKernel.HostMain | hls/synthetic/vecadd_floating_point/read_and_write_host.cpp:6-23 | with inputs `i`, every output passes the intended check |
| LoopInsideModuleKernel.Load | hls/synthetic/read_and_write_loop_inside_module/read_and_write.cpp:3-9 | appends `mem[0..DATA_LEN)` to `fifo_1` in order |
| LoopInsideModuleKernel.Compute | hls/synthetic/read_and_write_loop_inside_module/read_and_write.cpp:11-18 | moves exactly `DATA_LEN/2` elements in order |
| LoopInsideModuleKernel.Store | hls/synthetic/read_and_write_loop_inside_module/read_and_write.cpp:20-26 | pops DATA_LEN elements into `mem` in order |
| LoopInsideModuleKernel.Wrapper | hls/synthetic/read_and_write_loop_inside_module/read_and_write.cpp:28-39 | moves `2*(DATA_LEN/2)` elements from `fifo_1` to `fifo_2` in order; `fifo_3` ends empty |
| LoopInsideModuleKernel.Top | hls/synthetic/read_and_write_loop_inside_module/read_and_write.cpp:41-60 | with DATA_LEN even, `mem_1` becomes a copy of `mem_0`, `mem_0` unchanged, FIFOs empty |
| InLoopKernel.Load | hls/synthetic/read_and_write_in_loop/read_and_write.cpp:3-8 | appends `mem[offset..offset+DATA_LEN)` in order |
| InLoopKernel.Compute | hls/synthetic/read_and_write_in_loop/read_and_write.cpp:10-19 | moves `min(DATA_LEN, |fifo_1|)` elements in order, never reading an empty FIFO |
| InLoopKernel.Store | hls/synthetic/read_and_write_in_loop/read_and_write.cpp:21-26 | writes `mem[offset..offset+DATA_LEN)` in order and no other index |
| InLoopKernel.Blocks | hls/synthetic/read_and_write_in_loop/read_and_write.cpp:42-47 | the blocks at offsets `i*DATA_LEN` are consecutive, in bounds and pairwise disjoint |
| InLoopKernel.CopyBlock | hls/synthetic/read_and_write_in_loop/read_and_write.cpp:44-46 | one iteration copies one block and leaves both FIFOs empty |
| InLoopKernel.Top | hls/synthetic/read_and_write_in_loop/read_and_write.cpp:28-49 | `mem_1` becomes a copy of `mem_0`, `mem_0` unchanged, FIFOs empty |
| InLoopKernel.HostMain | hls/synthetic/read_and_write_in_loop/read_and_write_host.cpp:6-21 | every `mem_1[i] == i` assertion holds |
| ScalarArgsKernel.Load | hls/synthetic/read_and_writew_with_scalar_args/read_and_write.cpp:3-8 | appends `mem[0..data_len)` in order |
| ScalarArgsKernel.Compute | hls/synthetic/read_and_writew_with_scalar_args/read_and_write.cpp:10-16 | moves exactly `data_len` elements in order |
| ScalarArgsKernel.Store | hls/synthetic/read_and_writew_with_scalar_args/read_and_write.cpp:18-23 | writes `mem[0..data_len)` in order and leaves the rest unchanged |
| ScalarArgsKernel.Top | hls/synthetic/read_and_writew_with_scalar_args/read_and_write.cpp:25-50 | copies the first `data_len2` elements; the `data_len1 - data_len2` surplus stays in `fifo_2` |
| ScalarArgsKernel.HostMain | hls/synthetic/read_and_writew_with_scalar_args/read_and_write_host.cpp:6-21 | every `mem_1[i] == i` assertion holds |
| AxiStreamKernel.Transfer | hls/synthetic/read_and_write_axi_stream/read_and_write.cpp:4-7 | the shared loop of `load`, `compute` and `store`: exactly `DATA_LEN` elements leave the front of one stream and join the back of the other, in order |
| AxiStreamKernel.Load | hls/synthetic/read_and_write_axi_stream/read_and_write.cpp:3-8 | pops exactly DATA_LEN elements from the input stream into `fifo_1` in order |
| AxiStreamKernel.Compute | hls/synthetic/read_and_write_axi_stream/read_and_write.cpp:10-16 | moves exactly DATA_LEN elements in order |
| AxiStreamKernel.Store | hls/synthetic/read_and_write_axi_stream/read_and_write.cpp:18-23 | appends exactly DATA_LEN elements to the output stream |
| AxiStreamKernel.Top | hls/synthetic/read_and_write_axi_stream/read_and_write.cpp:25-40 | the output gains the first DATA_LEN inputs in order, the input loses them, FIFOs empty |
| AxiStreamKernel.HostMain | hls/synthetic/read_and_write_axi_stream/read_and_write_host.cpp:6-22 | every `mem_1.read() == i` assertion holds |

## Left out

- cocotb's `Clock`, `RisingEdge` and scheduler: each awaited edge is one event or one `Next` step. The adder coroutine and the DUT run concurrently in the simulator; here the adder is modelled on its own, over a given sequence of edge inputs.
- The cocotbext.axi bus models (`AxiLiteMaster`, `AxiRam`, `AxiBus`): bus timing is not modelled. The bytes control reads return are an input sequence, and the output memory the device leaves is an input (`deviceC`, `deviceB`).
- IEEE-754 arithmetic and `struct` in the testbench and the adder stand-in: abstracted by `FloatConv.FloatUnit`. `float(i)*2` is taken as `float(i) + float(i)`, which holds exactly in single precision for these small integers.
- VecaddKernel.HostMain: the host's `float` `data_t` is taken as `real`, with exact `+` and a `real` `EPSILON`. The inputs 0..31 and their sums are exact in single precision, so for this host the two agree.
- `math.isclose(..., rel_tol=1e-5)` in `check_result`: a parameter `isClose`, because it is float numerics.
- VecaddTestbench.VecaddTest.Run: the adder is started and killed in the trace, but it is not stepped alongside polling. Its per-edge behaviour is proved in `FloatingPointAdder` separately.
- VecaddTestbench.VecaddTest.Reset: requires `ops.ExactBelow(32)`, meaning `float(i)` round-trips through `struct` for `i < 32`. This is a fact about single precision that the abstract unit cannot know.
- ControlProtocol.PollDone: a poll that runs past the observed bus answers ends `Unfinished` (outcome `Pending`), because the model sees only finitely many answers. With `deley_count <= 0` the source may poll forever.
- `main()` of both test files: it runs `vitis_hls` and `cocotb_test` through subprocesses, which is toolchain I/O.
- `#pragma HLS DATAFLOW`, `pipeline II=1` and `STREAM depth=2`: concurrent processes and bounded back-pressure. Only the sequential C-simulation order is modelled, with unbounded FIFOs.
- HlsStream.Stream.Read: requires a queued element. A blocking read of an empty stream hangs or fails in C simulation, and that is not modelled.
- LoopInsideModuleKernel.Top: requires an even DATA_LEN. With an odd one, `store` reads one element more than `wrapper` moved, which is the blocking read above.
- ScalarArgsKernel.Top: requires `data_len2 <= data_len1` and both within the arrays, for the same reason and because C arrays are not bounds-checked.
- AxiStreamKernel.Top: requires distinct input and output streams. Passing the same stream twice is not modelled.
- The header files of the five kernels are not part of this model. The vecadd kernel's `DATA_LEN` is the constant 32; its kernel is generic in the element type and its `+`, and its host takes `data_t` as `real` (see VecaddKernel.HostMain above). For the four copy kernels, `DATA_LEN` and `LOOP_ITER` are parameters and `data_t` is a type parameter (`int` in the hosts).
- C `int` is 32-bit; indices, lengths and counters are unbounded integers here, so overflow of `i*DATA_LEN` or `DATA_LEN*LOOP_ITER` is not modelled.
- hls/synthetic/read_and_write_same_ram/read_and_write_host.cpp: its kernel is not part of this model, so there is nothing to state beyond its assertion.
- Logging (`_logger`) and the `HierarchyObject` handles of the DUT.

## Findings

| source | as written | input that shows it | evidently intended | confidence | as-written member | corrected member |
|---|---|---|---|---|---|---|
| hls/synthetic/vecadd_floating_point/read_and_write_host.cpp:18 | `assert (abs(mem_2[i] - 2 * data_t(i) < EPSILON))`: `abs` is applied to the comparison, so only `mem_2[i] - 2i < EPSILON` is checked | `mem_2[1] = 0.0`: the assertion passes although 2.0 is expected | `abs(mem_2[i] - 2 * data_t(i)) < EPSILON`, a two-sided bound | not executed | VecaddKernel.AsWrittenAcceptsWrongSum | VecaddKernel.HostCheckIff |
