/**
 * The read-and-write kernel whose transfer lengths are the run-time
 * scalar arguments `data_len1` (load and compute) and `data_len2`
 * (store). The arrays have the header's `DATA_LEN` elements, which is not
 * part of this model; their lengths stand for it.
 */
module ScalarArgsKernel {
  import opened HlsStream

  /** How often `for (int i = 0; i < data_len; i++)` runs its body: never for a negative `data_len`. */
  function Trips(dataLen: int): nat {
    if dataLen < 0 then 0 else dataLen
  }

  /** `load`: append `mem[0..data_len)` to `fifo_1`; in bounds only while `data_len <= DATA_LEN`. */
  method Load<T>(mem: array<T>, fifo1: Stream<T>, dataLen: int)
    requires Trips(dataLen) <= mem.Length
    modifies fifo1
    ensures fifo1.items == old(fifo1.items) + mem[..Trips(dataLen)]
  {
    var i := 0;
    while i < dataLen
      invariant 0 <= i <= Trips(dataLen)
      invariant fifo1.items == old(fifo1.items) + mem[..i]
    {
      fifo1.Write(mem[i]);
      assert mem[..i + 1] == mem[..i] + [mem[i]];
      i := i + 1;
    }
  }

  /** `compute`: move exactly `data_len` elements (none if negative), in order. */
  method Compute<T>(fifo1: Stream<T>, fifo2: Stream<T>, dataLen: int)
    requires fifo1 != fifo2 && Trips(dataLen) <= |fifo1.items|
    modifies fifo1, fifo2
    ensures fifo1.items == old(fifo1.items)[Trips(dataLen)..]
    ensures fifo2.items == old(fifo2.items) + old(fifo1.items)[..Trips(dataLen)]
  {
    ghost var src, dst := fifo1.items, fifo2.items;
    var i := 0;
    while i < dataLen
      invariant 0 <= i <= Trips(dataLen)
      invariant fifo1.items == src[i..]
      invariant fifo2.items == dst + src[..i]
    {
      var tmp := fifo1.Read();
      fifo2.Write(tmp);
      assert src[..i + 1] == src[..i] + [tmp];
      i := i + 1;
    }
  }

  /** `store`: pop `data_len` elements into `mem[0..data_len)`; the indices past them keep their values. */
  method Store<T>(mem: array<T>, fifo2: Stream<T>, dataLen: int)
    requires Trips(dataLen) <= mem.Length && Trips(dataLen) <= |fifo2.items|
    modifies mem, fifo2
    ensures mem[..Trips(dataLen)] == old(fifo2.items)[..Trips(dataLen)]
    ensures mem[Trips(dataLen)..] == old(mem[..])[Trips(dataLen)..]
    ensures fifo2.items == old(fifo2.items)[Trips(dataLen)..]
  {
    ghost var src := fifo2.items;
    var i := 0;
    while i < dataLen
      invariant 0 <= i <= Trips(dataLen)
      invariant fifo2.items == src[i..]
      invariant mem[..i] == src[..i]
      invariant mem[i..] == old(mem[..])[i..]
    {
      mem[i] := fifo2.Read();
      i := i + 1;
    }
  }

  /**
   * `top`, its processes run in call order. `store` pops `data_len2` of
   * the `data_len1` elements, so it must not ask for more; then
   * `mem_1[0..data_len2)` copies `mem_0` (as it was on entry), the rest
   * of `mem_1` is untouched, `fifo_1` ends empty, and any surplus
   * `mem_0[data_len2..data_len1)` stays behind in `fifo_2`.
   */
  method Top<T>(mem0: array<T>, mem1: array<T>, dataLen1: int, dataLen2: int)
    returns (fifo1: Stream<T>, fifo2: Stream<T>)
    requires Trips(dataLen1) <= mem0.Length && Trips(dataLen2) <= mem1.Length
    requires Trips(dataLen2) <= Trips(dataLen1)
    modifies mem1
    ensures mem1[..Trips(dataLen2)] == old(mem0[..])[..Trips(dataLen2)]
    ensures mem1[Trips(dataLen2)..] == old(mem1[..])[Trips(dataLen2)..]
    ensures mem0 != mem1 ==> mem0[..] == old(mem0[..])
    ensures fresh(fifo1) && fresh(fifo2)
    ensures fifo1.items == []
    ensures fifo2.items == old(mem0[..])[Trips(dataLen2)..Trips(dataLen1)]
  {
    ghost var m0, m1 := mem0[..], mem1[..];
    ghost var n1, n2 := Trips(dataLen1), Trips(dataLen2);
    fifo1 := new Stream();
    fifo2 := new Stream();
    Load(mem0, fifo1, dataLen1);
    assert fifo1.items == m0[..n1];
    Compute(fifo1, fifo2, dataLen1);
    assert fifo2.items == m0[..n1] && fifo1.items == [];
    Store(mem1, fifo2, dataLen2);
    assert m0[..n1][..n2] == m0[..n2];
    assert m0[..n1][n2..] == m0[n2..n1];
  }

  /** The host `main`: `mem_0[i] = i`, then `top(mem_0, mem_1, DATA_LEN, DATA_LEN)`, then `mem_1[i] == i`. */
  method HostMain(dataLen: nat) returns (passed: bool)
    ensures passed
  {
    var mem0 := new int[dataLen](i => i);
    var mem1 := new int[dataLen];
    var _, _ := Top(mem0, mem1, dataLen, dataLen);
    passed := true;
    for i := 0 to dataLen
      invariant passed
    {
      if mem1[i] != i {
        passed := false;
        return;
      }
    }
  }
}
