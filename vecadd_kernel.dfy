/**
 * The vector-add HLS kernel under sequential C simulation: two loads fill
 * a FIFO each from memory, `compute` adds the pairs it finds, `store`
 * drains the sums into the output memory. `data_t` is `float`; its
 * addition is the parameter `add`.
 */
module VecaddKernel {
  import opened Wrappers
  import opened HlsStream

  /** `DATA_LEN` from the kernel header. */
  const DataLen: nat := 32
  /** `EPSILON` from the kernel header. */
  const Epsilon: real := 0.00001

  /** Element-wise sums of two sequences of equal length. */
  function Sums<T>(add: (T, T) -> T, a: seq<T>, b: seq<T>): (r: seq<T>)
    requires |a| == |b|
    ensures |r| == |a|
    ensures forall i :: 0 <= i < |a| ==> r[i] == add(a[i], b[i])
  {
    if a == [] then [] else [add(a[0], b[0])] + Sums(add, a[1..], b[1..])
  }

  /** Summing one more pair extends the sums by that pair's sum. */
  lemma SumsSnoc<T>(add: (T, T) -> T, a: seq<T>, b: seq<T>, x: T, y: T)
    requires |a| == |b|
    ensures Sums(add, a + [x], b + [y]) == Sums(add, a, b) + [add(x, y)]
  {
    assert |Sums(add, a + [x], b + [y])| == |Sums(add, a, b) + [add(x, y)]|;
  }

  /** One more pair of a prefix summed. */
  lemma SumsPrefixStep<T>(add: (T, T) -> T, a: seq<T>, b: seq<T>, k: nat)
    requires k < |a| && k < |b|
    ensures Sums(add, a[..k + 1], b[..k + 1]) == Sums(add, a[..k], b[..k]) + [add(a[k], b[k])]
  {
    assert a[..k + 1] == a[..k] + [a[k]];
    assert b[..k + 1] == b[..k] + [b[k]];
    SumsSnoc(add, a[..k], b[..k], a[k], b[k]);
  }


  /** `load`: append `mem[0..DATA_LEN)` to the FIFO, in index order. */
  method Load<T>(mem: array<T>, fifo0: Stream<T>)
    requires mem.Length == DataLen
    modifies fifo0
    ensures fifo0.items == old(fifo0.items) + mem[..]
  {
    for i := 0 to DataLen
      invariant fifo0.items == old(fifo0.items) + mem[..i]
    {
      fifo0.Write(mem[i]);
      assert mem[..i + 1] == mem[..i] + [mem[i]];
    }
    assert mem[..DataLen] == mem[..];
  }

  /**
   * `compute`: `DATA_LEN` iterations; each pops one element from both
   * inputs and pushes their sum, but only when neither input is empty.
   * So exactly `min(DATA_LEN, |fifo_0|, |fifo_1|)` pairs are summed, in
   * order, and no empty FIFO is ever read.
   */
  method Compute<T>(add: (T, T) -> T, fifo0: Stream<T>, fifo1: Stream<T>, fifo2: Stream<T>)
    requires fifo0 != fifo1 && fifo0 != fifo2 && fifo1 != fifo2
    modifies fifo0, fifo1, fifo2
    ensures var n := Min(DataLen, Min(|old(fifo0.items)|, |old(fifo1.items)|));
      && fifo0.items == old(fifo0.items)[n..]
      && fifo1.items == old(fifo1.items)[n..]
      && fifo2.items == old(fifo2.items) + Sums(add, old(fifo0.items)[..n], old(fifo1.items)[..n])
  {
    ghost var in0, in1, out := fifo0.items, fifo1.items, fifo2.items;
    ghost var k := 0;
    for i := 0 to DataLen
      invariant k == Min(i, Min(|in0|, |in1|))
      invariant fifo0.items == in0[k..] && fifo1.items == in1[k..]
      invariant fifo2.items == out + Sums(add, in0[..k], in1[..k])
    {
      if !fifo0.Empty() && !fifo1.Empty() {
        var ok0, tmp0 := fifo0.ReadNb();
        var ok1, tmp1 := fifo1.ReadNb();
        fifo2.Write(add(tmp0.value, tmp1.value));
        SumsPrefixStep(add, in0, in1, k);
        k := k + 1;
      }
    }
  }

  /** `store`: pop `DATA_LEN` elements into `mem[0..DATA_LEN)`, in order. */
  method Store<T>(mem: array<T>, fifo2: Stream<T>)
    requires mem.Length == DataLen && |fifo2.items| >= DataLen
    modifies mem, fifo2
    ensures mem[..] == old(fifo2.items)[..DataLen]
    ensures fifo2.items == old(fifo2.items)[DataLen..]
  {
    ghost var in2 := fifo2.items;
    for i := 0 to DataLen
      invariant fifo2.items == in2[i..]
      invariant mem[..i] == in2[..i]
    {
      mem[i] := fifo2.Read();
    }
  }

  /**
   * `top`, its dataflow processes run in call order: `mem_2[i]` becomes
   * `mem_0[i] + mem_1[i]` (as they were on entry, so this holds even when
   * the memories alias), the inputs are left alone unless one is the
   * output, and the three FIFOs end empty.
   */
  method Top<T>(add: (T, T) -> T, mem0: array<T>, mem1: array<T>, mem2: array<T>)
    returns (fifo0: Stream<T>, fifo1: Stream<T>, fifo2: Stream<T>)
    requires mem0.Length == DataLen && mem1.Length == DataLen && mem2.Length == DataLen
    modifies mem2
    ensures mem2[..] == Sums(add, old(mem0[..]), old(mem1[..]))
    ensures mem0 != mem2 ==> mem0[..] == old(mem0[..])
    ensures mem1 != mem2 ==> mem1[..] == old(mem1[..])
    ensures fresh(fifo0) && fresh(fifo1) && fresh(fifo2)
    ensures fifo0.items == [] && fifo1.items == [] && fifo2.items == []
  {
    fifo0 := new Stream();
    fifo1 := new Stream();
    fifo2 := new Stream();
    Load(mem0, fifo0);
    Load(mem1, fifo1);
    Compute(add, fifo0, fifo1, fifo2);
    Store(mem2, fifo2);
  }

  /**
   * The host's check as written, `assert(abs(mem_2[i] - 2 * data_t(i) < EPSILON))`:
   * `abs` receives the comparison, so the assertion passes exactly when
   * the comparison holds, a one-sided bound.
   */
  function AbsOfComparison(m: real, i: nat): int {
    var cmp := if m - 2.0 * (i as real) < Epsilon then 1 else 0;
    if cmp < 0 then -cmp else cmp
  }

  predicate HostCheckAsWritten(m: real, i: nat) {
    AbsOfComparison(m, i) != 0
  }

  /** The as-written check accepts an output far below the expected `2 * i`. */
  lemma AsWrittenAcceptsWrongSum()
    ensures HostCheckAsWritten(0.0, 1) && !HostCheck(0.0, 1)
  {}

  function Abs(x: real): real {
    if x < 0.0 then -x else x
  }

  /** The check the host evidently intends: `abs(mem_2[i] - 2 * data_t(i)) < EPSILON`. */
  predicate HostCheck(m: real, i: nat) {
    Abs(m - 2.0 * (i as real)) < Epsilon
  }

  /** The intended check bounds the output on both sides of `2 * i`. */
  lemma HostCheckIff(m: real, i: nat)
    ensures HostCheck(m, i) <==> 2.0 * (i as real) - Epsilon < m < 2.0 * (i as real) + Epsilon
    ensures HostCheck(m, i) ==> HostCheckAsWritten(m, i)
  {}

  /**
   * The host `main` with the intended check: inputs `data_t(i)`, then
   * `top`, then every output within `EPSILON` of `2 * i`. Small integers
   * and their sums are exact in `float`, so `data_t` is taken as `real`.
   */
  method HostMain() returns (passed: bool)
    ensures passed
  {
    var mem0 := new real[DataLen](i => i as real);
    var mem1 := new real[DataLen](i => i as real);
    var mem2 := new real[DataLen];
    var _, _, _ := Top((a: real, b: real) => a + b, mem0, mem1, mem2);
    passed := true;
    for i := 0 to DataLen
      invariant passed
    {
      if !HostCheck(mem2[i], i) {
        passed := false;
        return;
      }
    }
  }
}
