/**
 * The vector-add cocotb testbench: three 128-byte AXI memories, the
 * floating-point adder stand-in (delay 5) attached to the kernel's adder
 * IP, memory initialisation, reset, the control-register table, the
 * start bit, bounded done-polling and the result check.
 */
module VecaddTestbench {
  import opened Wrappers
  import opened PyExceptions
  import opened Logic
  import opened ByteCodec
  import opened FloatConv
  import opened FloatingPointAdder
  import opened AxiRamModel
  import opened ControlProtocol

  /** `DATA_LEN`: input and output array length. */
  const DataLen: nat := 32
  /** `size=4*32`: each memory holds `DataLen` 4-byte words. */
  const MemSize: nat := 4 * 32
  /** The adder stand-in's latency in enabled edges. */
  const AdderDelay: int := 5

  /** The control registers cleared after reset: `ap_ctrl`, then both halves of the three pointer registers. */
  const VecaddRegisters: seq<(nat, seq<byte>)> := [
    (0x00, [0]),
    (0x10, [0, 0, 0, 0]), (0x14, [0, 0, 0, 0]),
    (0x1c, [0, 0, 0, 0]), (0x20, [0, 0, 0, 0]),
    (0x28, [0, 0, 0, 0]), (0x2c, [0, 0, 0, 0])
  ]

  /** The adder coroutine's life cycle. */
  datatype TaskState = NotStarted | Running | Killed

  /** `float_to_bytes(float(i), "little")`, which succeeds for every index the test uses. */
  function InputBytes<F>(ops: FloatUnit<F>, i: nat): (bs: seq<byte>)
    requires ops.ExactBelow(DataLen) && i < DataLen
    ensures |bs| == 4
  {
    assert ops.pack(ops.fromInt(i)).Some?;
    FloatToBytes(ops, ops.fromInt(i), "little").value
  }

  /** Word `i` of `mem` holds `float(i)` little-endian, for every `i < DATA_LEN`. */
  predicate InputsLoaded<F>(ops: FloatUnit<F>, mem: seq<byte>)
    requires ops.ExactBelow(DataLen)
  {
    |mem| == MemSize && forall i :: 0 <= i < DataLen ==> WordAt(mem, i) == InputBytes(ops, i)
  }

  /** The input words decode back to `float(i)`. */
  lemma InputsDecode<F>(ops: FloatUnit<F>, i: nat)
    requires ops.ExactBelow(DataLen) && i < DataLen
    ensures BytesToFloat(ops, InputBytes(ops, i), "little") == Success(ops.fromInt(i))
  {
    assert ops.pack(ops.fromInt(i)).Some?;
    FloatRoundTrip(ops, ops.fromInt(i), "little");
  }

  /** `float(i) * 2`; doubling is exact in IEEE arithmetic, so this is `float(i) + float(i)`. */
  function Expected<F>(ops: FloatUnit<F>, i: nat): F {
    ops.add(ops.fromInt(i), ops.fromInt(i))
  }

  /** `bytes_to_float(gmem_C.read_word(i*4, ws=4).to_bytes(4, "big"))`. */
  function OutputAt<F>(ops: FloatUnit<F>, mem: seq<byte>, i: nat): F
    requires |mem| == MemSize && i < DataLen
  {
    ReadWordAt(mem, i);
    BytesToFloat(ops, ToBig(ReadWord(mem, 4 * i), 4)).value
  }

  /**
   * The result check reads each output as a little-endian float: reading
   * the word little-endian and re-encoding it big-endian reverses its
   * bytes, and unpacking reversed bytes big-endian is unpacking them
   * little-endian.
   */
  lemma OutputIsLittleEndian<F>(ops: FloatUnit<F>, mem: seq<byte>, i: nat)
    requires |mem| == MemSize && i < DataLen
    ensures BytesToFloat(ops, WordAt(mem, i), "little") == Success(OutputAt(ops, mem, i))
  {
    LittleReadBigWrite(WordAt(mem, i));
    LittleIsReversedBig(ops, WordAt(mem, i));
  }

  /** What `check_result` asserts, at every index: `isclose(float(i)*2, out_float, rel_tol=1e-5)`. */
  predicate OutputsClose<F>(ops: FloatUnit<F>, isClose: (F, F) -> bool, mem: seq<byte>)
    requires |mem| == MemSize
  {
    forall i :: 0 <= i < DataLen ==> isClose(Expected(ops, i), OutputAt(ops, mem, i))
  }

  /**
   * A device that stores each sum `A[i] + B[i]` little-endian, where the
   * sum survives single precision, passes the check for any closeness
   * test that accepts equal values.
   */
  lemma CorrectDevicePasses<F>(ops: FloatUnit<F>, isClose: (F, F) -> bool, mem: seq<byte>)
    requires |mem| == MemSize
    requires forall i :: 0 <= i < DataLen ==>
      ops.pack(Expected(ops, i)).Some? && ops.unpack(ops.pack(Expected(ops, i)).value) == Expected(ops, i)
    requires forall i :: 0 <= i < DataLen ==>
      WordAt(mem, i) == FloatToBytes(ops, Expected(ops, i), "little").value
    requires forall i :: 0 <= i < DataLen ==> isClose(Expected(ops, i), Expected(ops, i))
    ensures OutputsClose(ops, isClose, mem)
  {
    forall i | 0 <= i < DataLen
      ensures isClose(Expected(ops, i), OutputAt(ops, mem, i))
    {
      FloatRoundTrip(ops, Expected(ops, i), "little");
      OutputIsLittleEndian(ops, mem, i);
    }
  }

  /** The testbench object (`VecaddTest`): its memories, the adder and what it has done on the bus. */
  class VecaddTest<F> {
    const ops: FloatUnit<F>
    const adder: Fadd<F>
    var adderTask: TaskState
    var gmemA: seq<byte>
    var gmemB: seq<byte>
    var gmemC: seq<byte>
    var trace: seq<Event>

    ghost predicate Valid()
      reads this, adder
    {
      |gmemA| == MemSize && |gmemB| == MemSize && |gmemC| == MemSize && adder.Valid()
    }

    /**
     * `__init__`: three zeroed 128-byte memories and the adder stand-in
     * with delay 5 on the adder IP's ports (`wire` is what its result
     * data port showed before).
     */
    constructor (ops: FloatUnit<F>, wire: Word)
      ensures Valid()
      ensures this.ops == ops && fresh(adder)
      ensures adder.ops == ops && adder.State() == InitialState(AdderDelay, wire)
      ensures gmemA == Zeros(MemSize) && gmemB == Zeros(MemSize) && gmemC == Zeros(MemSize)
      ensures adderTask == NotStarted && trace == []
    {
      this.ops := ops;
      var r := Fadd.New(ops, AdderDelay, wire);
      adder := r.value;
      adderTask := NotStarted;
      gmemA := Zeros(MemSize);
      gmemB := Zeros(MemSize);
      gmemC := Zeros(MemSize);
      trace := [];
    }

    /**
     * `reset`: `float(i)` little-endian into word `i` of A and B, zeros
     * into C (checked by reading back), the reset pulse, then the
     * register table, one write per edge.
     */
    method Reset()
      requires Valid() && ops.ExactBelow(DataLen)
      modifies this
      ensures Valid()
      ensures InputsLoaded(ops, gmemA) && InputsLoaded(ops, gmemB)
      ensures forall i :: 0 <= i < DataLen ==> WordAt(gmemC, i) == [0, 0, 0, 0]
      ensures trace == old(trace) + ResetPulse() + WriteEach(VecaddRegisters)
      ensures adderTask == old(adderTask)
    {
      InitMemory();
      trace := PulseReset(trace);
      trace := WriteTable(trace, VecaddRegisters);
    }

    /** The memory part of `reset`. */
    method InitMemory()
      requires Valid() && ops.ExactBelow(DataLen)
      modifies this
      ensures Valid()
      ensures InputsLoaded(ops, gmemA) && InputsLoaded(ops, gmemB)
      ensures forall i :: 0 <= i < DataLen ==> WordAt(gmemC, i) == [0, 0, 0, 0]
      ensures trace == old(trace) && adderTask == old(adderTask)
    {
      var a, b, c := gmemA, gmemB, gmemC;
      var i := 0;
      while i < DataLen
        invariant 0 <= i <= DataLen
        invariant unchanged(this)
        invariant |a| == MemSize && |b| == MemSize
        invariant forall j :: 0 <= j < i ==> WordAt(a, j) == InputBytes(ops, j) && WordAt(b, j) == InputBytes(ops, j)
      {
        assert ops.pack(ops.fromInt(i)).Some?;
        var bytesI := FloatToBytes(ops, ops.fromInt(i), "little").value;
        WriteWordEffect(a, i, bytesI);
        WriteWordEffect(b, i, bytesI);
        a := Write(a, 4 * i, bytesI);
        b := Write(b, 4 * i, bytesI);
        i := i + 1;
      }
      i := 0;
      while i < DataLen
        invariant 0 <= i <= DataLen
        invariant unchanged(this)
        invariant |c| == MemSize
        invariant forall j :: 0 <= j < i ==> WordAt(c, j) == [0, 0, 0, 0]
      {
        WriteWordEffect(c, i, [0, 0, 0, 0]);
        c := Write(c, 4 * i, [0, 0, 0, 0]);
        i := i + 1;
      }
      i := 0;
      while i < DataLen
        invariant 0 <= i <= DataLen
        invariant unchanged(this)
      {
        var readValue := ReadWord(c, 4 * i);
        ReadWordAt(c, i);
        ZeroWordIff(WordAt(c, i));
        assert readValue == 0;
        i := i + 1;
      }
      gmemA, gmemB, gmemC := a, b, c;
    }

    /**
     * `check_result`: each output read as in `OutputAt` must be close to
     * `float(i) * 2`; the first that is not raises AssertionError.
     */
    method CheckResult(isClose: (F, F) -> bool) returns (r: Result<(), Exception>)
      requires |gmemC| == MemSize
      ensures r.Success? <==> OutputsClose(ops, isClose, gmemC)
      ensures r.Failure? ==> r.error == AssertionError
    {
      var i := 0;
      while i < DataLen
        invariant 0 <= i <= DataLen
        invariant forall j :: 0 <= j < i ==> isClose(Expected(ops, j), OutputAt(ops, gmemC, j))
      {
        ReadWordAt(gmemC, i);
        var outBytes := ToBig(ReadWord(gmemC, 4 * i), 4);
        var outFloat := BytesToFloat(ops, outBytes).value;
        if !isClose(ops.add(ops.fromInt(i), ops.fromInt(i)), outFloat) {
          assert !isClose(Expected(ops, i), OutputAt(ops, gmemC, i));
          return Failure(AssertionError);
        }
        i := i + 1;
      }
      return Success(());
    }

    /**
     * `run`: start the adder, reset, set `ap_start`, poll for `ap_done`
     * against the answers `bus` gives, then check the outputs and kill
     * the adder. `deviceC` is what the kernel has left in memory C when
     * `ap_done` is seen.
     */
    method Run(isClose: (F, F) -> bool, bus: seq<byte>, deviceC: seq<byte>, deleyCount: int := 100) returns (outcome: Outcome)
      requires Valid() && ops.ExactBelow(DataLen) && |deviceC| == MemSize
      modifies this
      ensures Valid()
      ensures outcome == Verdict(Poll(bus, deleyCount), OutputsClose(ops, isClose, deviceC))
      ensures adderTask == (if outcome == Passed then Killed else Running)
      ensures trace == old(trace) + [StartAdder] + Session(VecaddRegisters, ReadsMade(Poll(bus, deleyCount), bus))
                       + (if outcome == Passed then [KillAdder] else [])
      ensures InputsLoaded(ops, gmemA) && InputsLoaded(ops, gmemB)
      ensures Poll(bus, deleyCount).Done? ==> gmemC == deviceC
    {
      var poll := Start(bus, deleyCount);
      outcome := Finish(isClose, poll, deviceC);
    }

    /** The first part of `run`: start the adder, reset, set `ap_start` and poll. */
    method Start(bus: seq<byte>, deleyCount: int) returns (poll: PollResult)
      requires Valid() && ops.ExactBelow(DataLen)
      modifies this
      ensures Valid()
      ensures poll == Poll(bus, deleyCount) && adderTask == Running
      ensures trace == old(trace) + [StartAdder] + Session(VecaddRegisters, ReadsMade(poll, bus))
      ensures InputsLoaded(ops, gmemA) && InputsLoaded(ops, gmemB)
    {
      adderTask := Running;
      trace := trace + [StartAdder];
      ghost var started := trace;
      Reset();
      trace, poll := StartAndPoll(trace, bus, deleyCount);
      SessionFrom(started, VecaddRegisters, ReadsMade(poll, bus));
    }

    /** The rest of `run`: once `ap_done` is seen, check memory C and kill the adder when it passes. */
    method Finish(isClose: (F, F) -> bool, poll: PollResult, deviceC: seq<byte>) returns (outcome: Outcome)
      requires Valid() && |deviceC| == MemSize
      modifies this
      ensures Valid()
      ensures outcome == Verdict(poll, OutputsClose(ops, isClose, deviceC))
      ensures adderTask == (if outcome == Passed then Killed else old(adderTask))
      ensures trace == old(trace) + (if outcome == Passed then [KillAdder] else [])
      ensures gmemA == old(gmemA) && gmemB == old(gmemB)
      ensures poll.Done? ==> gmemC == deviceC
    {
      if poll.Done? {
        gmemC := deviceC;
        var checked := CheckResult(isClose);
        if checked.Success? {
          adderTask := Killed;
          trace := trace + [KillAdder];
          outcome := Passed;
        } else {
          outcome := Raised(checked.error);
        }
      } else {
        outcome := if poll.Timeout? then Raised(TimeoutError) else Pending;
      }
    }
  }

  /** The cocotb test: build the testbench and run it with `deley_count=100`. */
  method Test<F>(ops: FloatUnit<F>, wire: Word, isClose: (F, F) -> bool, bus: seq<byte>, deviceC: seq<byte>)
    returns (outcome: Outcome)
    requires ops.ExactBelow(DataLen) && |deviceC| == MemSize
    ensures outcome == Verdict(Poll(bus, 100), OutputsClose(ops, isClose, deviceC))
  {
    var vaddTest := new VecaddTest(ops, wire);
    outcome := vaddTest.Run(isClose, bus, deviceC, deleyCount := 100);
  }
}
