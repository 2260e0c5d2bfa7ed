/**
 * The fixed-latency floating-point adder stand-in (class `fadd`): a delay
 * line of `delay - 1` (valid, data) entries. On every enabled rising edge
 * it drives the oldest entry onto its outputs and queues the result
 * computed from the inputs sampled at that edge; on a stalled edge it does
 * nothing.
 *
 * `Next` is the per-edge transition as a function, `Run` and `Driven` fold
 * it over a sequence of edges, and the class `Fadd` is the object that
 * carries the state from edge to edge.
 */
module FloatingPointAdder {
  import opened Wrappers
  import opened PyExceptions
  import opened Logic
  import opened ByteCodec
  import opened FloatConv

  /** One pending result: the valid bit and the 32-bit data word. */
  datatype Entry = Entry(valid: Bit, data: Word)

  /** What `__init__` prefills the delay line with: (BinaryValue("0"), 32 x 'z'). */
  const Filler: Entry := Entry(Zero, HighImp32)

  /** The signal values the adder samples at one rising edge of `aclk`. */
  datatype EdgeInputs = EdgeInputs(aclkEn: Word, aValid: Word, aData: Word, bValid: Word, bData: Word)

  /** The data inputs are the IP's 32-bit tdata ports. */
  predicate Wired(e: EdgeInputs) {
    |e.aData| == 32 && |e.bData| == 32
  }

  /** `queue.Queue.full()`: a `maxsize` of 0 or less makes the queue unbounded, never full. */
  predicate Full(maxsize: int, qsize: nat) {
    0 < maxsize <= qsize
  }

  /**
   * The stall test of `run`: an 'x' in clock enable stalls; otherwise the
   * comparison with 0 resolves the signal, which raises ValueError on a 'z'.
   */
  function Stalled(aclkEn: Word): (r: Result<bool, Exception>)
    ensures X in aclkEn ==> r == Success(true)
    ensures r.Failure? <==> X !in aclkEn && Z in aclkEn
    ensures r.Failure? ==> r.error == ValueError
  {
    ResolvedIff(aclkEn);
    if X in aclkEn then Success(true) else EqualsInt(aclkEn, 0)
  }

  /** The edge advances the pipeline: clock enable is resolved and not 0. */
  predicate Enabled(e: EdgeInputs) {
    Stalled(e.aclkEn) == Success(false)
  }

  /** An edge advances the pipeline exactly when clock enable is resolved and has a 1 bit. */
  lemma EnabledIff(e: EdgeInputs)
    ensures Enabled(e) <==> IsResolved(e.aclkEn) && exists i :: 0 <= i < |e.aclkEn| && e.aclkEn[i] == One
  {
    ResolvedIff(e.aclkEn);
    if IsResolved(e.aclkEn) {
      ZeroIffAllZero(e.aclkEn);
      if forall i :: 0 <= i < |e.aclkEn| ==> e.aclkEn[i] == Zero {
      } else {
        var i :| 0 <= i < |e.aclkEn| && e.aclkEn[i] != Zero;
        assert Resolved(e.aclkEn[i]);
      }
    }
  }

  /** The float a resolved 32-bit data word carries (`bytes_to_float(sig.value.buff)`). */
  function WordToFloat<F>(ops: FloatUnit<F>, w: Word): F
    requires |w| == 32 && IsResolved(w)
  {
    ops.unpack(BytesOfBits(w))
  }

  /**
   * `_calc_output`: the new (valid, data) pair from the inputs sampled at
   * this edge. `a_valid == 1` is evaluated first and `b_valid == 1` only if
   * it holds; either comparison raises ValueError on an x or z bit.
   */
  function CalcOutput<F>(ops: FloatUnit<F>, e: EdgeInputs): (r: Result<Entry, Exception>)
    requires Wired(e)
    ensures r.Success? ==>
      (r.value.valid == One <==> EqualsInt(e.aValid, 1) == Success(true) && EqualsInt(e.bValid, 1) == Success(true))
    ensures r.Success? ==> Resolved(r.value.valid)
    ensures r.Success? && !IsResolved(e.aData + e.bData) ==> r.value.data == HighImp32
  {
    var aOne := EqualsInt(e.aValid, 1);
    if aOne.Failure? then Failure(ValueError)
    else
      var bOne := if aOne.value then EqualsInt(e.bValid, 1) else Success(false);
      if bOne.Failure? then Failure(ValueError)
      else
        var valid := if bOne.value then One else Zero;
        var ab := e.aData + e.bData;
        if Z in ab || X in ab then Success(Entry(valid, HighImp32))
        else
          ResolvedIff(ab);
          ResolvedHalves(e.aData, e.bData);
          var a := BytesToFloat(ops, BytesOfBits(e.aData));
          var b := BytesToFloat(ops, BytesOfBits(e.bData));
          var sum := FloatToBytes(ops, ops.add(a.value, b.value));
          if sum.Failure? then Failure(sum.error)
          else Success(Entry(valid, BitsOfBytes(sum.value)))
  }

  lemma ResolvedHalves(a: Word, b: Word)
    requires IsResolved(a + b)
    ensures IsResolved(a) && IsResolved(b)
  {
    assert forall i :: 0 <= i < |a| ==> (a + b)[i] == a[i];
    assert forall i :: 0 <= i < |b| ==> (a + b)[i + |a|] == b[i];
  }

  /**
   * `_calc_output` raises exactly when a valid flag it compares holds an x
   * or z bit, or when the single-precision sum overflows `struct.pack`.
   */
  lemma CalcOutputRaises<F>(ops: FloatUnit<F>, e: EdgeInputs)
    requires Wired(e)
    ensures CalcOutput(ops, e).Failure? <==>
      !IsResolved(e.aValid)
      || (EqualsInt(e.aValid, 1) == Success(true) && !IsResolved(e.bValid))
      || (IsResolved(e.aData + e.bData)
          && (ResolvedHalves(e.aData, e.bData);
              ops.pack(ops.add(WordToFloat(ops, e.aData), WordToFloat(ops, e.bData))).None?))
    ensures CalcOutput(ops, e).Failure? ==> CalcOutput(ops, e).error in {ValueError, OverflowError}
  {
    ResolvedIff(e.aData + e.bData);
  }

  /**
   * When both data inputs are resolved, the data queued is the
   * single-precision bit pattern of the sum of the two floats they carry,
   * as a resolved 32-bit word.
   */
  lemma CalcOutputSum<F>(ops: FloatUnit<F>, e: EdgeInputs)
    requires Wired(e) && IsResolved(e.aData + e.bData)
    requires CalcOutput(ops, e).Success?
    ensures var d := CalcOutput(ops, e).value.data;
      |d| == 32 && IsResolved(d)
      && (ResolvedHalves(e.aData, e.bData);
          ops.pack(ops.add(WordToFloat(ops, e.aData), WordToFloat(ops, e.bData))) == Some(BytesOfBits(d)))
  {
    ResolvedIff(e.aData + e.bData);
    ResolvedHalves(e.aData, e.bData);
    var sum := FloatToBytes(ops, ops.add(WordToFloat(ops, e.aData), WordToFloat(ops, e.bData)));
    BytesOfBitsOfBytes(sum.value);
  }

  /** What the adder holds and drives between edges; `raised` is the exception that ended `run`, if any. */
  datatype AdderState = AdderState(queue: seq<Entry>, outValid: Bit, outData: Word, raised: Option<Exception>)

  /** The state `__init__` leaves: a full delay line of fillers, `out_valid` driven 0, `out_data` untouched. */
  function InitialState(delay: int, wire: Word): (s: AdderState)
    requires delay >= 2
    ensures |s.queue| == delay - 1
    ensures forall i :: 0 <= i < |s.queue| ==> s.queue[i] == Filler
  {
    AdderState(seq(delay - 1, _ => Filler), Zero, wire, None)
  }

  /** One iteration of the `while True` loop of `run`, i.e. one rising edge. */
  function Next<F>(ops: FloatUnit<F>, maxsize: int, s: AdderState, e: EdgeInputs): (t: AdderState)
    requires Wired(e) && 1 <= maxsize && |s.queue| <= maxsize
    ensures |t.queue| <= maxsize
    ensures s.raised.Some? ==> t == s
    ensures s.raised.None? && |s.queue| == maxsize ==> (t.raised.None? ==> |t.queue| == maxsize)
  {
    if s.raised.Some? then s
    else
      var stall := Stalled(e.aclkEn);
      if stall.Failure? then s.(raised := Some(stall.error))
      else if stall.value then s
      else if !Full(maxsize, |s.queue|) then s.(raised := Some(AssertionError))
      else
        var head := s.queue[0];
        var popped := AdderState(s.queue[1..], head.valid, head.data, None);
        var result := CalcOutput(ops, e);
        if result.Failure? then popped.(raised := Some(result.error))
        else popped.(queue := popped.queue + [result.value])
  }

  /** A stalled edge changes nothing: not the delay line, not the outputs. */
  lemma StallChangesNothing<F>(ops: FloatUnit<F>, maxsize: int, s: AdderState, e: EdgeInputs)
    requires Wired(e) && 1 <= maxsize && |s.queue| <= maxsize
    requires Stalled(e.aclkEn) == Success(true)
    ensures Next(ops, maxsize, s, e) == s
  {}

  /**
   * On an enabled edge of a running adder the delay line is full before the
   * pop, and one pop plus one push leaves it full: the oldest entry is
   * driven and the new result goes to the back.
   */
  lemma EnabledEdgeShiftsLine<F>(ops: FloatUnit<F>, maxsize: int, s: AdderState, e: EdgeInputs)
    requires Wired(e) && 1 <= maxsize && |s.queue| == maxsize && s.raised.None?
    requires Enabled(e) && CalcOutput(ops, e).Success?
    ensures var t := Next(ops, maxsize, s, e);
      t.raised.None? && |t.queue| == maxsize
      && t.queue == s.queue[1..] + [CalcOutput(ops, e).value]
      && t.outValid == s.queue[0].valid && t.outData == s.queue[0].data
  {}

  /** All edges of `edges` in turn. */
  function Run<F>(ops: FloatUnit<F>, maxsize: int, s: AdderState, edges: seq<EdgeInputs>): (t: AdderState)
    requires 1 <= maxsize && |s.queue| <= maxsize
    requires AllWired(edges)
    ensures |t.queue| <= maxsize
    decreases |edges|
  {
    if edges == [] then s
    else Run(ops, maxsize, Next(ops, maxsize, s, edges[0]), edges[1..])
  }

  /** The entries driven onto (out_valid, out_data) during `edges`, in order. */
  function Driven<F>(ops: FloatUnit<F>, maxsize: int, s: AdderState, edges: seq<EdgeInputs>): seq<Entry>
    requires 1 <= maxsize && |s.queue| <= maxsize
    requires AllWired(edges)
    decreases |edges|
  {
    if edges == [] then []
    else
      var pops := s.raised.None? && Enabled(edges[0]) && Full(maxsize, |s.queue|);
      (if pops then [s.queue[0]] else []) + Driven(ops, maxsize, Next(ops, maxsize, s, edges[0]), edges[1..])
  }

  predicate AllWired(edges: seq<EdgeInputs>) {
    forall i :: 0 <= i < |edges| ==> Wired(edges[i])
  }

  /** The adder can take this edge without raising. */
  predicate Clean<F>(ops: FloatUnit<F>, e: EdgeInputs) {
    Wired(e) && Stalled(e.aclkEn).Success? && (Enabled(e) ==> CalcOutput(ops, e).Success?)
  }

  predicate AllClean<F>(ops: FloatUnit<F>, edges: seq<EdgeInputs>) {
    AllWired(edges) && forall i {:trigger Clean(ops, edges[i])} :: 0 <= i < |edges| ==> Clean(ops, edges[i])
  }

  /** The number of enabled edges. */
  function EnabledCount(edges: seq<EdgeInputs>): nat {
    if edges == [] then 0 else (if Enabled(edges[0]) then 1 else 0) + EnabledCount(edges[1..])
  }

  /** The results computed at the enabled edges, in order. */
  function Accepted<F>(ops: FloatUnit<F>, edges: seq<EdgeInputs>): (r: seq<Entry>)
    requires AllClean(ops, edges)
    ensures |r| == EnabledCount(edges)
  {
    if edges == [] then []
    else
      CleanTail(ops, edges);
      (if Enabled(edges[0]) then [CalcOutput(ops, edges[0]).value] else []) + Accepted(ops, edges[1..])
  }

  /** The first edge of a clean stimulus is clean, and so is the rest. */
  lemma CleanTail<F>(ops: FloatUnit<F>, edges: seq<EdgeInputs>)
    requires AllClean(ops, edges) && edges != []
    ensures Clean(ops, edges[0]) && AllClean(ops, edges[1..])
  {
    assert Clean(ops, edges[0]);
    assert forall i :: 0 <= i < |edges| - 1 ==> edges[1..][i] == edges[i + 1];
  }

  /** The delay-line claim of `DelayLine` for a state `s` and edges `edges`. */
  ghost predicate LineClaim<F>(ops: FloatUnit<F>, maxsize: int, s: AdderState, edges: seq<EdgeInputs>)
    requires 1 <= maxsize && |s.queue| == maxsize
    requires AllClean(ops, edges)
  {
    var all := s.queue + Accepted(ops, edges);
    var n := EnabledCount(edges);
    var t := Run(ops, maxsize, s, edges);
    t.raised.None? && t.queue == all[n..] && Driven(ops, maxsize, s, edges) == all[..n]
    && (n > 0 ==> t.outValid == all[n - 1].valid && t.outData == all[n - 1].data)
    && (n == 0 ==> t.outValid == s.outValid && t.outData == s.outData)
  }

  /** The first edge of a nonempty stimulus, unfolded. */
  lemma Unfold<F>(ops: FloatUnit<F>, maxsize: int, s: AdderState, edges: seq<EdgeInputs>)
    requires 1 <= maxsize && |s.queue| == maxsize && s.raised.None?
    requires AllClean(ops, edges) && edges != []
    ensures Clean(ops, edges[0]) && AllClean(ops, edges[1..])
    ensures var s1 := Next(ops, maxsize, s, edges[0]);
      Run(ops, maxsize, s, edges) == Run(ops, maxsize, s1, edges[1..])
      && Driven(ops, maxsize, s, edges)
         == (if Enabled(edges[0]) then [s.queue[0]] else []) + Driven(ops, maxsize, s1, edges[1..])
      && EnabledCount(edges) == (if Enabled(edges[0]) then 1 else 0) + EnabledCount(edges[1..])
      && Accepted(ops, edges)
         == (if Enabled(edges[0]) then [CalcOutput(ops, edges[0]).value] else []) + Accepted(ops, edges[1..])
  {
    CleanTail(ops, edges);
  }

  /** Sequence algebra for one shift of the line: drop the head, append `c`, then `acc`. */
  lemma ShiftAlgebra<T>(q: seq<T>, c: T, acc: seq<T>)
    requires q != []
    ensures var all := q + ([c] + acc);
      var all1 := q[1..] + [c] + acc;
      var m := |acc|;
      all1 == all[1..] && all[m + 1..] == all1[m..] && all[..m + 1] == [q[0]] + all1[..m]
      && all[m] == (if m == 0 then q[0] else all1[m - 1])
  {
    var all := q + ([c] + acc);
    assert all[1..] == q[1..] + [c] + acc;
  }

  /** The induction step of `DelayLine` for an enabled first edge. */
  lemma LineStepEnabled<F>(ops: FloatUnit<F>, maxsize: int, s: AdderState, edges: seq<EdgeInputs>)
    requires 1 <= maxsize && |s.queue| == maxsize && s.raised.None?
    requires AllClean(ops, edges) && edges != [] && Enabled(edges[0])
    requires Clean(ops, edges[0]) && AllClean(ops, edges[1..])
    requires LineClaim(ops, maxsize, Next(ops, maxsize, s, edges[0]), edges[1..])
    ensures LineClaim(ops, maxsize, s, edges)
  {
    var e, rest := edges[0], edges[1..];
    Unfold(ops, maxsize, s, edges);
    EnabledEdgeShiftsLine(ops, maxsize, s, e);
    var s1 := Next(ops, maxsize, s, e);
    var c := CalcOutput(ops, e).value;
    var acc := Accepted(ops, rest);
    var m := EnabledCount(rest);
    ShiftAlgebra(s.queue, c, acc);
    var t := Run(ops, maxsize, s1, rest);
    var all1 := s1.queue + acc;
    var all := s.queue + ([c] + acc);
    assert t.raised.None? && t.queue == all1[m..] && Driven(ops, maxsize, s1, rest) == all1[..m];
    assert Run(ops, maxsize, s, edges) == t;
    assert Driven(ops, maxsize, s, edges) == [s.queue[0]] + all1[..m];
    assert EnabledCount(edges) == m + 1;
    assert Accepted(ops, edges) == [c] + acc;
    assert t.outValid == all[m].valid && t.outData == all[m].data;
  }

  /** The induction step of `DelayLine` for a stalled first edge. */
  lemma LineStepStalled<F>(ops: FloatUnit<F>, maxsize: int, s: AdderState, edges: seq<EdgeInputs>)
    requires 1 <= maxsize && |s.queue| == maxsize && s.raised.None?
    requires AllClean(ops, edges) && edges != [] && !Enabled(edges[0])
    requires Clean(ops, edges[0]) && AllClean(ops, edges[1..])
    requires LineClaim(ops, maxsize, Next(ops, maxsize, s, edges[0]), edges[1..])
    ensures LineClaim(ops, maxsize, s, edges)
  {
    Unfold(ops, maxsize, s, edges);
    assert Stalled(edges[0].aclkEn) == Success(true);
    StallChangesNothing(ops, maxsize, s, edges[0]);
    var rest := edges[1..];
    assert Run(ops, maxsize, s, edges) == Run(ops, maxsize, s, rest);
    assert Driven(ops, maxsize, s, edges) == Driven(ops, maxsize, s, rest);
    assert EnabledCount(edges) == EnabledCount(rest);
    assert Accepted(ops, edges) == Accepted(ops, rest);
  }

  /** `LineClaim` for every state with a full line, by induction on the edges. */
  lemma {:induction false} LineInduction<F>(ops: FloatUnit<F>, maxsize: int, s: AdderState, edges: seq<EdgeInputs>)
    requires 1 <= maxsize && |s.queue| == maxsize && s.raised.None?
    requires AllClean(ops, edges)
    ensures LineClaim(ops, maxsize, s, edges)
    decreases |edges|
  {
    if edges != [] {
      Unfold(ops, maxsize, s, edges);
      var s1 := Next(ops, maxsize, s, edges[0]);
      if Enabled(edges[0]) {
        EnabledEdgeShiftsLine(ops, maxsize, s, edges[0]);
        LineInduction(ops, maxsize, s1, edges[1..]);
        LineStepEnabled(ops, maxsize, s, edges);
      } else {
        assert Stalled(edges[0].aclkEn) == Success(true);
        StallChangesNothing(ops, maxsize, s, edges[0]);
        LineInduction(ops, maxsize, s1, edges[1..]);
        LineStepStalled(ops, maxsize, s, edges);
      }
    }
  }

  /**
   * The delay line is a FIFO: over `n` enabled edges the adder drives the
   * first `n` entries of (its line followed by everything it accepts) and
   * keeps the rest; its outputs show the last entry it drove, or what they
   * showed before when no edge was enabled.
   */
  lemma DelayLine<F>(ops: FloatUnit<F>, maxsize: int, s: AdderState, edges: seq<EdgeInputs>)
    requires 1 <= maxsize && |s.queue| == maxsize && s.raised.None?
    requires AllClean(ops, edges)
    ensures var all := s.queue + Accepted(ops, edges);
      var n := EnabledCount(edges);
      var t := Run(ops, maxsize, s, edges);
      t.raised.None? && t.queue == all[n..] && Driven(ops, maxsize, s, edges) == all[..n]
      && (n > 0 ==> t.outValid == all[n - 1].valid && t.outData == all[n - 1].data)
      && (n == 0 ==> t.outValid == s.outValid && t.outData == s.outData)
  {
    LineInduction(ops, maxsize, s, edges);
  }

  /** The `k`-th entry driven: from the line while it lasts, then the accepted results in order. */
  lemma DrivenAt<F>(ops: FloatUnit<F>, maxsize: int, s: AdderState, edges: seq<EdgeInputs>, k: nat)
    requires 1 <= maxsize && |s.queue| == maxsize && s.raised.None?
    requires AllClean(ops, edges)
    requires k < EnabledCount(edges)
    ensures var driven := Driven(ops, maxsize, s, edges);
      |driven| == EnabledCount(edges)
      && driven[k] == (if k < maxsize then s.queue[k] else Accepted(ops, edges)[k - maxsize])
  {
    DelayLine(ops, maxsize, s, edges);
    PrefixAt(s.queue, Accepted(ops, edges), EnabledCount(edges), k);
  }

  /** Entry `k` of a prefix of `q + acc`. */
  lemma PrefixAt<T>(q: seq<T>, acc: seq<T>, n: nat, k: nat)
    requires k < n <= |q + acc|
    ensures (q + acc)[..n][k] == if k < |q| then q[k] else acc[k - |q|]
  {}

  /** `run` from construction: no edge has been seen and nothing has been raised. */
  lemma FifoLatency<F>(ops: FloatUnit<F>, delay: int, wire: Word, edges: seq<EdgeInputs>, k: nat)
    requires delay >= 2
    requires AllClean(ops, edges)
    requires k < EnabledCount(edges)
    ensures var driven := Driven(ops, delay - 1, InitialState(delay, wire), edges);
      |driven| == EnabledCount(edges)
      && (k < delay - 1 ==> driven[k] == Filler)
      && (k >= delay - 1 ==> driven[k] == Accepted(ops, edges)[k - (delay - 1)])
  {
    var s := InitialState(delay, wire);
    DrivenAt(ops, delay - 1, s, edges, k);
    assert k < delay - 1 ==> s.queue[k] == Filler;
  }

  /** Running `a` then `b` is running `a + b`; the driven entries concatenate. */
  lemma {:induction false} RunAppend<F>(ops: FloatUnit<F>, maxsize: int, s: AdderState, a: seq<EdgeInputs>, b: seq<EdgeInputs>)
    requires 1 <= maxsize && |s.queue| <= maxsize
    requires AllWired(a)
    requires AllWired(b)
    ensures Run(ops, maxsize, s, a + b) == Run(ops, maxsize, Run(ops, maxsize, s, a), b)
    ensures Driven(ops, maxsize, s, a + b) == Driven(ops, maxsize, s, a) + Driven(ops, maxsize, Run(ops, maxsize, s, a), b)
    decreases |a|
  {
    if a == [] {
      assert a + b == b;
    } else {
      assert (a + b)[0] == a[0];
      assert (a + b)[1..] == a[1..] + b;
      RunAppend(ops, maxsize, Next(ops, maxsize, s, a[0]), a[1..], b);
    }
  }

  /** A run of stalled edges leaves the state as it was and drives nothing. */
  lemma {:induction false} StallsChangeNothing<F>(ops: FloatUnit<F>, maxsize: int, s: AdderState, stalls: seq<EdgeInputs>)
    requires 1 <= maxsize && |s.queue| <= maxsize
    requires AllWired(stalls) && forall i :: 0 <= i < |stalls| ==> Stalled(stalls[i].aclkEn) == Success(true)
    ensures Run(ops, maxsize, s, stalls) == s
    ensures Driven(ops, maxsize, s, stalls) == []
    decreases |stalls|
  {
    if stalls != [] {
      StallChangesNothing(ops, maxsize, s, stalls[0]);
      StallsChangeNothing(ops, maxsize, s, stalls[1..]);
    }
  }

  /**
   * Stalled edges anywhere in the stimulus delay the adder without changing
   * what it does: the final state and the driven entries are those of the
   * stimulus without them.
   */
  lemma StallTransparency<F>(ops: FloatUnit<F>, maxsize: int, s: AdderState,
                             pre: seq<EdgeInputs>, stalls: seq<EdgeInputs>, post: seq<EdgeInputs>)
    requires 1 <= maxsize && |s.queue| <= maxsize
    requires AllWired(pre)
    requires AllWired(post)
    requires AllWired(stalls) && forall i :: 0 <= i < |stalls| ==> Stalled(stalls[i].aclkEn) == Success(true)
    ensures Run(ops, maxsize, s, pre + stalls + post) == Run(ops, maxsize, s, pre + post)
    ensures Driven(ops, maxsize, s, pre + stalls + post) == Driven(ops, maxsize, s, pre + post)
  {
    var mid := Run(ops, maxsize, s, pre);
    assert pre + stalls + post == pre + (stalls + post);
    RunAppend(ops, maxsize, s, pre, stalls + post);
    RunAppend(ops, maxsize, mid, stalls, post);
    StallsChangeNothing(ops, maxsize, mid, stalls);
    RunAppend(ops, maxsize, s, pre, post);
  }

  /** The adder object: `delay_queue` and the two driven output signals. */
  class Fadd<F> {
    const ops: FloatUnit<F>
    /** `Queue(delay - 1)`'s capacity */
    const maxsize: int
    var queue: seq<Entry>
    var outValid: Bit
    var outData: Word
    var raised: Option<Exception>

    function State(): AdderState
      reads this
    {
      AdderState(queue, outValid, outData, raised)
    }

    /** The delay line never overflows, and is full while `run` is alive. */
    ghost predicate Valid()
      reads this
    {
      1 <= maxsize && |queue| <= maxsize && (raised.None? ==> |queue| == maxsize)
    }

    constructor Init(ops: FloatUnit<F>, maxsize: int, queue: seq<Entry>, wire: Word)
      ensures this.ops == ops && this.maxsize == maxsize
      ensures State() == AdderState(queue, Zero, wire, None)
    {
      this.ops := ops;
      this.maxsize := maxsize;
      this.queue := queue;
      this.outValid := Zero;
      this.outData := wire;
      this.raised := None;
    }

    /**
     * `fadd(..., delay)`: prefill `Queue(delay - 1)` with `delay - 1`
     * fillers and assert it is full, which fails (AssertionError) unless
     * `delay >= 2`. `wire` is what `out_data` showed before; `out_valid` is
     * driven 0.
     */
    static method New(ops: FloatUnit<F>, delay: int, wire: Word) returns (r: Result<Fadd<F>, Exception>)
      ensures r.Failure? <==> delay < 2
      ensures r.Failure? ==> r.error == AssertionError
      ensures r.Success? ==>
                fresh(r.value) && r.value.Valid()
                && r.value.ops == ops && r.value.maxsize == delay - 1
                && r.value.State() == InitialState(delay, wire)
    {
      var q: seq<Entry> := [];
      var i := 0;
      while i < delay - 1
        invariant 0 <= i && (delay >= 1 ==> i <= delay - 1)
        invariant |q| == i && forall j :: 0 <= j < i ==> q[j] == Filler
      {
        q := q + [Filler];
        i := i + 1;
      }
      if !Full(delay - 1, |q|) {
        return Failure(AssertionError);
      }
      var adder := new Fadd.Init(ops, delay - 1, q, wire);
      assert q == InitialState(delay, wire).queue;
      return Success(adder);
    }

    /** One iteration of `run`'s loop: the adder's reaction to one rising edge. */
    method Step(e: EdgeInputs)
      requires Valid() && Wired(e)
      modifies this
      ensures Valid()
      ensures State() == Next(ops, maxsize, old(State()), e)
    {
      if raised.Some? {
        return;
      }
      var stall := Stalled(e.aclkEn);
      if stall.Failure? {
        raised := Some(stall.error);
        return;
      }
      if stall.value {
        return;
      }
      assert Full(maxsize, |queue|);
      var head := queue[0];
      queue := queue[1..];
      outValid, outData := head.valid, head.data;
      var result := CalcOutput(ops, e);
      if result.Failure? {
        raised := Some(result.error);
        return;
      }
      queue := queue + [result.value];
    }

    /** `run` over the given rising edges. */
    method RunEdges(edges: seq<EdgeInputs>)
      requires Valid() && AllWired(edges)
      modifies this
      ensures Valid()
      ensures State() == Run(ops, maxsize, old(State()), edges)
    {
      var i := 0;
      while i < |edges|
        invariant 0 <= i <= |edges| && Valid()
        invariant Run(ops, maxsize, old(State()), edges) == Run(ops, maxsize, State(), edges[i..])
      {
        assert edges[i..][1..] == edges[i + 1..];
        Step(edges[i]);
        i := i + 1;
      }
    }
  }
}
