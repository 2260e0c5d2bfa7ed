/**
 * The read-and-write (slow downstream) cocotb test: word `i` of memory A
 * holds the integer `i` little-endian, memory B starts zeroed, the kernel
 * is reset, configured and started, `ap_done` is polled with a bounded
 * counter, and memory B must then hold `i` in word `i`.
 */
module SlowDownstreamTestbench {
  import opened PyExceptions
  import opened ByteCodec
  import opened AxiRamModel
  import opened ControlProtocol

  /** `DATA_LEN`: input and output array length. */
  const DataLen: nat := 32
  /** `size=4*32`: each memory holds `DataLen` 4-byte words. */
  const MemSize: nat := 4 * 32

  /** The control registers cleared after reset, each with a single zero byte. */
  const SlowRegisters: seq<(nat, seq<byte>)> := [(0x00, [0]), (0x10, [0]), (0x18, [0])]

  /** `i.to_bytes(4, 'little')`. */
  function InputWord(i: nat): (bs: seq<byte>)
    requires i < DataLen
    ensures |bs| == 4
  {
    assert Pow256(4) == 0x1_0000_0000;
    ToLittle(i, 4)
  }

  /** The final check: `read_word(i*4, ws=4) == i` for every index. */
  predicate CopiedBack(mem: seq<byte>)
    requires |mem| == MemSize
  {
    forall i :: 0 <= i < DataLen ==> ReadWord(mem, 4 * i) == i
  }

  /** The final check holds exactly when memory B is word for word what memory A was initialised to. */
  lemma {:induction false} CopiedBackIff(mem: seq<byte>)
    requires |mem| == MemSize
    ensures CopiedBack(mem) <==> forall i :: 0 <= i < DataLen ==> WordAt(mem, i) == InputWord(i)
  {
    assert Pow256(4) == 0x1_0000_0000;
    forall i | 0 <= i < DataLen
      ensures ReadWord(mem, 4 * i) == i <==> WordAt(mem, i) == InputWord(i)
    {
      ReadWordAt(mem, i);
      LittleRoundTrip(i, 4);
      LittleBytesRoundTrip(WordAt(mem, i));
    }
  }

  /**
   * The memory part of the test: word `i` of A holds `i` little-endian,
   * the words of B are zeroed and read back as 0.
   */
  method InitMemory() returns (gmemA: seq<byte>, gmemB: seq<byte>)
    ensures |gmemA| == MemSize && forall i :: 0 <= i < DataLen ==> WordAt(gmemA, i) == InputWord(i)
    ensures |gmemB| == MemSize && forall i :: 0 <= i < DataLen ==> WordAt(gmemB, i) == [0, 0, 0, 0]
  {
    gmemA := Zeros(MemSize);
    gmemB := Zeros(MemSize);
    var i := 0;
    while i < DataLen
      invariant 0 <= i <= DataLen
      invariant |gmemA| == MemSize
      invariant forall j :: 0 <= j < i ==> WordAt(gmemA, j) == InputWord(j)
    {
      WriteWordEffect(gmemA, i, InputWord(i));
      gmemA := Write(gmemA, 4 * i, InputWord(i));
      i := i + 1;
    }
    i := 0;
    while i < DataLen
      invariant 0 <= i <= DataLen
      invariant |gmemB| == MemSize
      invariant forall j :: 0 <= j < i ==> WordAt(gmemB, j) == [0, 0, 0, 0]
    {
      WriteWordEffect(gmemB, i, [0, 0, 0, 0]);
      gmemB := Write(gmemB, 4 * i, [0, 0, 0, 0]);
      i := i + 1;
    }
    i := 0;
    while i < DataLen
      invariant 0 <= i <= DataLen
    {
      var readValue := ReadWord(gmemB, 4 * i);
      ReadWordAt(gmemB, i);
      ZeroWordIff(WordAt(gmemB, i));
      assert readValue == 0;
      i := i + 1;
    }
  }

  /** The three register writes, each followed by one edge. */
  method WriteRegisters(before: seq<Event>) returns (trace: seq<Event>)
    ensures trace == before + WriteEach(SlowRegisters)
  {
    trace := before + [CtrlWrite(0x00, [0]), Edge];
    trace := trace + [CtrlWrite(0x10, [0]), Edge];
    trace := trace + [CtrlWrite(0x18, [0]), Edge];
    assert WriteEach(SlowRegisters) == [CtrlWrite(0x00, [0]), Edge, CtrlWrite(0x10, [0]), Edge, CtrlWrite(0x18, [0]), Edge];
  }

  /** The final check: word `i` of B must read back as `i`; the first that does not raises AssertionError. */
  method CheckCopied(gmemB: seq<byte>) returns (ok: bool)
    requires |gmemB| == MemSize
    ensures ok <==> CopiedBack(gmemB)
  {
    var i := 0;
    while i < DataLen
      invariant 0 <= i <= DataLen
      invariant forall j :: 0 <= j < i ==> ReadWord(gmemB, 4 * j) == j
    {
      var readValue := ReadWord(gmemB, 4 * i);
      if i != readValue {
        return false;
      }
      i := i + 1;
    }
    return true;
  }

  /**
   * The test coroutine, with the default `deley_count=200`. `bus` is what
   * successive reads of `ap_ctrl` return; `deviceB` is what the kernel
   * has left in memory B when `ap_done` is seen.
   */
  method Test(bus: seq<byte>, deviceB: seq<byte>, deleyCount: int := 200)
    returns (outcome: Outcome, trace: seq<Event>, gmemA: seq<byte>, gmemB: seq<byte>)
    requires |deviceB| == MemSize
    ensures outcome == Verdict(Poll(bus, deleyCount), CopiedBack(deviceB))
    ensures trace == Session(SlowRegisters, ReadsMade(Poll(bus, deleyCount), bus))
    ensures |gmemA| == MemSize && forall i :: 0 <= i < DataLen ==> WordAt(gmemA, i) == InputWord(i)
    ensures |gmemB| == MemSize
    ensures Poll(bus, deleyCount).Done? ==> gmemB == deviceB
    ensures !Poll(bus, deleyCount).Done? ==> forall i :: 0 <= i < DataLen ==> WordAt(gmemB, i) == [0, 0, 0, 0]
  {
    gmemA, gmemB := InitMemory();
    trace := PulseReset([]);
    trace := WriteRegisters(trace);
    var poll;
    trace, poll := StartAndPoll(trace, bus, deleyCount);
    SessionFrom([], SlowRegisters, ReadsMade(poll, bus));
    assert [] + Session(SlowRegisters, ReadsMade(poll, bus)) == Session(SlowRegisters, ReadsMade(poll, bus));

    match poll
    case Timeout(_) =>
      outcome := Raised(TimeoutError);
    case Unfinished =>
      outcome := Pending;
    case Done(_) =>
      gmemB := deviceB;
      var ok := CheckCopied(gmemB);
      outcome := if ok then Passed else Raised(AssertionError);
  }

  /**
   * End to end: a kernel that copies memory A into memory B and raises
   * `ap_done` in time passes the test.
   */
  lemma CopyingKernelPasses(bus: seq<byte>, deleyCount: int, gmemA: seq<byte>, deviceB: seq<byte>)
    requires |gmemA| == MemSize && forall i :: 0 <= i < DataLen ==> WordAt(gmemA, i) == InputWord(i)
    requires deviceB == gmemA
    requires exists k :: DoneFirstAt(bus, deleyCount, k)
    ensures Verdict(Poll(bus, deleyCount), CopiedBack(deviceB)) == Passed
  {
    CopiedBackIff(deviceB);
    PassIff(bus, deleyCount, CopiedBack(deviceB));
  }
}
