/**
 * The control-plane protocol both cocotb testbenches follow: reset pulse,
 * one register write per clock edge, the start bit, and polling `ap_ctrl`
 * for the done bit with a bounded retry counter. The testbench's actions
 * on the simulator are recorded as a trace of events.
 */
module ControlProtocol {
  import opened PyExceptions
  import opened ByteCodec
  import opened Logic

  /** How a cocotb test ends. */
  datatype Outcome =
    | Passed
    | Raised(error: Exception)
    | Pending  // still polling when the observed bus answers run out

  /** What a testbench does on the simulator, in the order it does it. */
  datatype Event =
    | StartAdder                            // cocotb.start(adder.run())
    | SetReset(level: nat)                  // dut.ap_rst_n.value = level
    | Edge                                  // await RisingEdge(dut.ap_clk)
    | CtrlWrite(addr: nat, data: seq<byte>)  // await ctrl.write(addr, data)
    | CtrlRead(addr: nat)                   // await ctrl.read_byte(addr)
    | KillAdder                             // adder_run.kill()

  /** Offset of the `ap_ctrl` register: bit 0 start, bit 1 done. */
  const ApCtrl: nat := 0x00

  function Edges(n: nat): (r: seq<Event>)
    ensures |r| == n
    ensures forall i :: 0 <= i < n ==> r[i] == Edge
  {
    if n == 0 then [] else Edges(n - 1) + [Edge]
  }

  /** `ap_rst_n` driven low for 10 rising edges, then high, then one more edge. */
  function ResetPulse(): seq<Event> {
    [SetReset(0)] + Edges(10) + [SetReset(1), Edge]
  }

  lemma ResetPulseShape()
    ensures |ResetPulse()| == 13
    ensures ResetPulse()[0] == SetReset(0) && ResetPulse()[11] == SetReset(1) && ResetPulse()[12] == Edge
    ensures forall i :: 1 <= i <= 10 ==> ResetPulse()[i] == Edge
  {}

  /** Each register of the table written in turn, each write followed by one edge. */
  function WriteEach(table: seq<(nat, seq<byte>)>): (r: seq<Event>)
    ensures |r| == 2 * |table|
  {
    if table == [] then [] else [CtrlWrite(table[0].0, table[0].1), Edge] + WriteEach(table[1..])
  }

  /** Register `k` of the table is written at position `2 * k`, and the edge follows it. */
  lemma {:induction false} WriteEachAt(table: seq<(nat, seq<byte>)>, k: nat)
    requires k < |table|
    ensures WriteEach(table)[2 * k] == CtrlWrite(table[k].0, table[k].1)
    ensures WriteEach(table)[2 * k + 1] == Edge
  {
    if k > 0 {
      WriteEachAt(table[1..], k - 1);
      assert table[k] == table[1..][k - 1];
    }
  }

  /** Every event of `WriteEach(table)` is a clock edge or the write of one entry of the table. */
  lemma WriteEachEvent(table: seq<(nat, seq<byte>)>, i: nat)
    requires i < |WriteEach(table)|
    ensures WriteEach(table)[i] == Edge || WriteEach(table)[i] == CtrlWrite(table[i / 2].0, table[i / 2].1)
  {
    WriteEachAt(table, i / 2);
    assert i == 2 * (i / 2) || i == 2 * (i / 2) + 1;
  }

  lemma {:induction false} WriteEachAppend(a: seq<(nat, seq<byte>)>, b: seq<(nat, seq<byte>)>)
    ensures WriteEach(a + b) == WriteEach(a) + WriteEach(b)
  {
    if a != [] {
      WriteEachAppend(a[1..], b);
      assert (a + b)[0] == a[0];
      assert (a + b)[1..] == a[1..] + b;
      calc {
        WriteEach(a + b);
        [CtrlWrite(a[0].0, a[0].1), Edge] + WriteEach(a[1..] + b);
        [CtrlWrite(a[0].0, a[0].1), Edge] + WriteEach(a[1..]) + WriteEach(b);
      }
    } else {
      assert a + b == b;
    }
  }

  /** `n` reads of `ap_ctrl`. */
  function CtrlReads(n: nat): (r: seq<Event>)
    ensures |r| == n
    ensures forall i :: 0 <= i < n ==> r[i] == CtrlRead(ApCtrl)
  {
    if n == 0 then [] else CtrlReads(n - 1) + [CtrlRead(ApCtrl)]
  }

  /** Every register write in `tr` is followed at once by a clock edge. */
  predicate Settled(tr: seq<Event>) {
    forall k :: 0 <= k < |tr| && tr[k].CtrlWrite? ==> k + 1 < |tr| && tr[k + 1] == Edge
  }

  lemma {:induction false} SettledAppend(a: seq<Event>, b: seq<Event>)
    requires Settled(a) && Settled(b)
    ensures Settled(a + b)
  {
    var ab := a + b;
    forall k | 0 <= k < |ab| && ab[k].CtrlWrite?
      ensures k + 1 < |ab| && ab[k + 1] == Edge
    {
      if k < |a| {
        assert a[k] == ab[k];
        assert ab[k + 1] == a[k + 1];
      } else {
        assert b[k - |a|] == ab[k];
        assert ab[k + 1] == b[k - |a| + 1];
      }
    }
  }

  lemma {:induction false} WriteEachSettled(table: seq<(nat, seq<byte>)>)
    ensures Settled(WriteEach(table))
  {
    if table != [] {
      var head := [CtrlWrite(table[0].0, table[0].1), Edge];
      WriteEachSettled(table[1..]);
      SettledAppend(head, WriteEach(table[1..]));
      assert WriteEach(table) == head + WriteEach(table[1..]);
    }
  }

  /** The done flag as the testbench computes it, `byte // 2 % 2`. */
  function DoneFlag(b: byte): int {
    (b as int) / 2 % 2
  }

  /** The done flag is bit 1 of the byte read from `ap_ctrl` (index 6 of its bits, most significant first). */
  lemma DoneFlagIsBit1(b: byte)
    ensures DoneFlag(b) == 0 || DoneFlag(b) == 1
    ensures DoneFlag(b) == 1 <==> BitsOfByte(b)[6] == One
  {
    var n := b as nat;
    assert BitsOf(n, 8) == BitsOf(n / 2, 7) + [if n % 2 == 1 then One else Zero];
    assert BitsOf(n / 2, 7) == BitsOf(n / 2 / 2, 6) + [if n / 2 % 2 == 1 then One else Zero];
    assert BitsOfByte(b)[6] == BitsOf(n / 2, 7)[6];
  }

  /** How done-polling ends, with the number of `ap_ctrl` reads it made. */
  datatype PollResult =
    | Done(made: nat)      // the done bit was seen
    | Timeout(made: nat)   // TimeoutError
    | Unfinished           // `bus` holds no further answer: beyond what the model observes

  function ReadsMade(r: PollResult, bus: seq<byte>): nat {
    match r
    case Done(k) => k
    case Timeout(k) => k
    case Unfinished => |bus|
  }

  /**
   * The polling loop from its `i`-th read on: the counter after read `i + 1`
   * is `count - (i + 1)`; reaching 0 raises TimeoutError whatever that read
   * saw; otherwise a set done bit ends the loop.
   */
  function PollFrom(bus: seq<byte>, count: int, i: nat): PollResult
    requires i <= |bus|
    decreases |bus| - i
  {
    if i == |bus| then Unfinished
    else if count - (i + 1) == 0 then Timeout(i + 1)
    else if DoneFlag(bus[i]) == 1 then Done(i + 1)
    else PollFrom(bus, count, i + 1)
  }

  /** Polling `ap_ctrl` with the counter starting at `count`, against the bytes `bus` returns in turn. */
  function Poll(bus: seq<byte>, count: int): PollResult {
    PollFrom(bus, count, 0)
  }

  /**
   * The polling loop: one `ap_ctrl` read (recorded on the trace) and one
   * decrement per iteration, and TimeoutError on the read that brings
   * the counter to 0.
   */
  method PollDone(before: seq<Event>, bus: seq<byte>, deleyCount: int) returns (trace: seq<Event>, r: PollResult)
    ensures r == Poll(bus, deleyCount)
    ensures trace == before + CtrlReads(ReadsMade(r, bus))
  {
    trace := before;
    var apDone := 0;
    var count := deleyCount;
    var i := 0;
    while apDone == 0
      invariant 0 <= i <= |bus|
      invariant count == deleyCount - i
      invariant trace == before + CtrlReads(i)
      invariant apDone == 0 ==> Poll(bus, deleyCount) == PollFrom(bus, deleyCount, i)
      invariant apDone != 0 ==> 0 < i && Poll(bus, deleyCount) == Done(i)
      decreases |bus| - i, if apDone == 0 then 1 else 0
    {
      if i == |bus| {
        r := Unfinished;
        return;
      }
      var b := bus[i];
      trace := trace + [CtrlRead(ApCtrl)];
      i := i + 1;
      apDone := DoneFlag(b);
      count := count - 1;
      if count == 0 {
        r := Timeout(i);
        return;
      }
    }
    r := Done(i);
  }

  /** No done bit among `bus[lo..hi]`. */
  predicate NoneDone(bus: seq<byte>, lo: nat, hi: nat)
    requires lo <= hi <= |bus|
  {
    forall j :: lo <= j < hi ==> DoneFlag(bus[j]) == 0
  }

  /** How `PollFrom` ends, by cases. */
  lemma {:induction false} PollFromCases(bus: seq<byte>, count: int, i: nat)
    requires i <= |bus|
    ensures forall k: nat :: PollFrom(bus, count, i) == Done(k) <==>
      i < k <= |bus| && !(i < count <= k) && DoneFlag(bus[k - 1]) == 1 && NoneDone(bus, i, k - 1)
    ensures forall k: nat :: PollFrom(bus, count, i) == Timeout(k) <==>
      i < count <= |bus| && k == count && NoneDone(bus, i, count - 1)
    ensures PollFrom(bus, count, i) == Unfinished <==>
      !(i < count <= |bus|) && NoneDone(bus, i, |bus|)
    decreases |bus| - i
  {
    if i < |bus| {
      PollFromCases(bus, count, i + 1);
    }
  }

  /** Read `k` is the first to see done, and the counter (starting at `count`) has not reached 0 by then. */
  predicate DoneFirstAt(bus: seq<byte>, count: int, k: int) {
    1 <= k <= |bus| && (count <= 0 || k < count) && DoneFlag(bus[k - 1]) == 1 && NoneDone(bus, 0, k - 1)
  }

  /**
   * Polling succeeds after `k` reads exactly when read `k` is the first to
   * see done and the counter has not reached 0 by then: with a counter
   * starting at `count >= 1`, done must show within the first `count - 1`
   * reads.
   */
  lemma PollDoneIff(bus: seq<byte>, count: int, k: nat)
    ensures Poll(bus, count) == Done(k) <==> DoneFirstAt(bus, count, k)
  {
    PollFromCases(bus, count, 0);
  }

  /**
   * Polling times out exactly on read `count` when none of the reads
   * before it saw done; what read `count` itself returns does not matter.
   */
  lemma PollTimeoutIff(bus: seq<byte>, count: int, k: nat)
    ensures Poll(bus, count) == Timeout(k) <==>
      1 <= count <= |bus| && k == count && NoneDone(bus, 0, count - 1)
  {
    PollFromCases(bus, count, 0);
  }

  /** The edge case: done seen on the read that brings the counter to 0 still times out. */
  lemma TimeoutDespiteDone(bus: seq<byte>, count: int)
    requires 1 <= count <= |bus| && NoneDone(bus, 0, count - 1) && DoneFlag(bus[count - 1]) == 1
    ensures Poll(bus, count) == Timeout(count)
  {
    PollTimeoutIff(bus, count, count);
  }

  /** With a counter starting at 1 or more, polling never reads `ap_ctrl` more than `count` times. */
  lemma PollReadBound(bus: seq<byte>, count: int)
    requires count >= 1
    ensures ReadsMade(Poll(bus, count), bus) <= count
  {
    PollFromCases(bus, count, 0);
  }

  /** With a counter starting at 0 or below the counter never reaches 0: no timeout, no bound. */
  lemma NoTimeoutWithoutBudget(bus: seq<byte>, count: int)
    requires count <= 0
    ensures !Poll(bus, count).Timeout?
    ensures Poll(bus, count) == Unfinished <==> NoneDone(bus, 0, |bus|)
  {
    PollFromCases(bus, count, 0);
  }

  /**
   * Everything a testbench does on the control bus from the reset on:
   * the reset pulse, the register table, the start bit, and `polls`
   * reads of `ap_ctrl`.
   */
  function Session(table: seq<(nat, seq<byte>)>, polls: nat): seq<Event> {
    ResetPulse() + WriteEach(table) + WriteEach([(ApCtrl, [1])]) + CtrlReads(polls)
  }

  lemma {:induction false} CtrlReadsSettled(n: nat)
    ensures Settled(CtrlReads(n))
  {}

  /** The reset pulse and the table's writes: settled, no poll among them, and the start bit only if the table holds it. */
  lemma {:induction false} SetupOrder(table: seq<(nat, seq<byte>)>)
    ensures var p := ResetPulse() + WriteEach(table);
      Settled(p) && |p| == 13 + 2 * |table|
      && (forall k :: 0 <= k < |p| ==> !p[k].CtrlRead?)
      && ((forall j :: 0 <= j < |table| ==> table[j] != (ApCtrl, [1])) ==>
            forall k :: 0 <= k < |p| ==> p[k] != CtrlWrite(ApCtrl, [1]))
  {
    var rp, we := ResetPulse(), WriteEach(table);
    var p := rp + we;
    assert Settled(rp);
    WriteEachSettled(table);
    SettledAppend(rp, we);
    forall k | 13 <= k < |p|
      ensures p[k] == Edge || p[k] == CtrlWrite(table[(k - 13) / 2].0, table[(k - 13) / 2].1)
    {
      assert p[k] == we[k - 13];
      WriteEachEvent(table, k - 13);
    }
  }

  /**
   * In a session every register write is followed by a clock edge, the
   * start bit is written after the reset pulse and the whole table (and
   * not before, unless the table itself holds it),
   * and every poll comes after the start bit.
   */
  lemma {:induction false} SessionOrder(table: seq<(nat, seq<byte>)>, polls: nat)
    ensures Settled(Session(table, polls))
    ensures Session(table, polls)[13 + 2 * |table|] == CtrlWrite(ApCtrl, [1])
    ensures forall k :: 0 <= k < |Session(table, polls)| && Session(table, polls)[k].CtrlRead? ==>
      k > 13 + 2 * |table|
    ensures (forall j :: 0 <= j < |table| ==> table[j] != (ApCtrl, [1])) ==>
      forall k :: 0 <= k < 13 + 2 * |table| ==> Session(table, polls)[k] != CtrlWrite(ApCtrl, [1])
  {
    var p, st, rd := ResetPulse() + WriteEach(table), WriteEach([(ApCtrl, [1])]), CtrlReads(polls);
    var s := Session(table, polls);
    assert s == p + st + rd;
    SetupOrder(table);
    WriteEachSettled([(ApCtrl, [1])]);
    CtrlReadsSettled(polls);
    SettledAppend(p, st);
    SettledAppend(p + st, rd);
    WriteEachAt([(ApCtrl, [1])], 0);
    assert s[|p|] == st[0];
    assert forall k :: 0 <= k < |p| ==> s[k] == p[k];
  }

  /** How `run` (or the test coroutine) ends, given how polling ends and whether the final check holds. */
  function Verdict(poll: PollResult, checkHolds: bool): Outcome {
    match poll
    case Timeout(_) => Raised(TimeoutError)
    case Unfinished => Pending
    case Done(_) => if checkHolds then Passed else Raised(AssertionError)
  }

  /**
   * The test passes exactly when `ap_done` is first seen on a read before
   * the one that exhausts the counter and the final check holds.
   */
  lemma {:induction false} PassIff(bus: seq<byte>, deleyCount: int, checkHolds: bool)
    ensures Verdict(Poll(bus, deleyCount), checkHolds) == Passed <==>
      checkHolds && exists k :: DoneFirstAt(bus, deleyCount, k)
  {
    if Poll(bus, deleyCount).Done? {
      PollDoneIff(bus, deleyCount, Poll(bus, deleyCount).made);
    } else {
      forall k | DoneFirstAt(bus, deleyCount, k) ensures false {
        PollDoneIff(bus, deleyCount, k);
      }
    }
  }

  /** Drive `ap_rst_n` low, wait 10 edges, drive it high, wait one more edge. */
  method PulseReset(before: seq<Event>) returns (trace: seq<Event>)
    ensures trace == before + ResetPulse()
  {
    trace := before + [SetReset(0)];
    var edges := 0;
    while edges < 10
      invariant 0 <= edges <= 10
      invariant trace == before + [SetReset(0)] + Edges(edges)
    {
      trace := trace + [Edge];
      edges := edges + 1;
    }
    trace := trace + [SetReset(1), Edge];
  }

  /** Write each register of the table in turn, waiting one edge after each write. */
  method WriteTable(before: seq<Event>, table: seq<(nat, seq<byte>)>) returns (trace: seq<Event>)
    ensures trace == before + WriteEach(table)
  {
    trace := before;
    var t := 0;
    while t < |table|
      invariant 0 <= t <= |table|
      invariant trace == before + WriteEach(table[..t])
    {
      var (addr, data) := table[t];
      WriteEachAppend(table[..t], [(addr, data)]);
      assert table[..t + 1] == table[..t] + [(addr, data)];
      trace := trace + [CtrlWrite(addr, data), Edge];
      t := t + 1;
    }
    assert table[..t] == table;
  }

  /** Set `ap_start` (one write, one edge), then poll `ap_ctrl` until done or timeout. */
  method StartAndPoll(before: seq<Event>, bus: seq<byte>, deleyCount: int) returns (trace: seq<Event>, poll: PollResult)
    ensures poll == Poll(bus, deleyCount)
    ensures trace == before + WriteEach([(ApCtrl, [1])]) + CtrlReads(ReadsMade(poll, bus))
  {
    trace := WriteTable(before, [(ApCtrl, [1])]);
    trace, poll := PollDone(trace, bus, deleyCount);
  }

  /** The steps of a session, appended one after the other, make up the session. */
  lemma SessionFrom(before: seq<Event>, table: seq<(nat, seq<byte>)>, polls: nat)
    ensures before + ResetPulse() + WriteEach(table) + WriteEach([(ApCtrl, [1])]) + CtrlReads(polls)
            == before + Session(table, polls)
  {}
}
