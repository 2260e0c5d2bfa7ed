/**
 * The read-and-write kernel whose `wrapper` process runs a two-iteration
 * loop of two chained `compute` calls, each moving `DATA_LEN / 2`
 * elements. `DATA_LEN` comes from a header not part of this model, so it
 * is the parameter `dataLen`.
 */
module LoopInsideModuleKernel {
  import opened HlsStream

  /** `load`: append `mem[0..DATA_LEN)` to `fifo_1`, in index order. */
  method Load<T>(dataLen: nat, mem: array<T>, fifo1: Stream<T>)
    requires mem.Length == dataLen
    modifies fifo1
    ensures fifo1.items == old(fifo1.items) + mem[..]
  {
    for i := 0 to dataLen
      invariant fifo1.items == old(fifo1.items) + mem[..i]
    {
      fifo1.Write(mem[i]);
      assert mem[..i + 1] == mem[..i] + [mem[i]];
    }
    assert mem[..dataLen] == mem[..];
  }

  /** `compute`: move exactly `DATA_LEN / 2` elements from one FIFO to the other, in order. */
  method Compute<T>(dataLen: nat, fifoIn: Stream<T>, fifoOut: Stream<T>)
    requires fifoIn != fifoOut && |fifoIn.items| >= dataLen / 2
    modifies fifoIn, fifoOut
    ensures fifoIn.items == old(fifoIn.items)[dataLen / 2..]
    ensures fifoOut.items == old(fifoOut.items) + old(fifoIn.items)[..dataLen / 2]
  {
    ghost var src, dst := fifoIn.items, fifoOut.items;
    for i := 0 to dataLen / 2
      invariant fifoIn.items == src[i..]
      invariant fifoOut.items == dst + src[..i]
    {
      var tmp := fifoIn.Read();
      fifoOut.Write(tmp);
      assert src[..i + 1] == src[..i] + [tmp];
    }
  }

  /** `store`: pop `DATA_LEN` elements into `mem[0..DATA_LEN)`, in order. */
  method Store<T>(dataLen: nat, mem: array<T>, fifo2: Stream<T>)
    requires mem.Length == dataLen && |fifo2.items| >= dataLen
    modifies mem, fifo2
    ensures mem[..] == old(fifo2.items)[..dataLen]
    ensures fifo2.items == old(fifo2.items)[dataLen..]
  {
    ghost var src := fifo2.items;
    for i := 0 to dataLen
      invariant fifo2.items == src[i..]
      invariant mem[..i] == src[..i]
    {
      mem[i] := fifo2.Read();
    }
  }

  /**
   * `wrapper`: each of its two iterations moves `DATA_LEN / 2` elements
   * `fifo_1` to `fifo_3` to `fifo_2`, leaving `fifo_3` empty again; in
   * all, `2 * (DATA_LEN / 2)` elements move in order, which is `DATA_LEN`
   * only when `DATA_LEN` is even.
   */
  method Wrapper<T>(dataLen: nat, fifo1: Stream<T>, fifo2: Stream<T>) returns (fifo3: Stream<T>)
    requires fifo1 != fifo2 && |fifo1.items| >= 2 * (dataLen / 2)
    modifies fifo1, fifo2
    ensures fifo1.items == old(fifo1.items)[2 * (dataLen / 2)..]
    ensures fifo2.items == old(fifo2.items) + old(fifo1.items)[..2 * (dataLen / 2)]
    ensures fresh(fifo3) && fifo3.items == []
  {
    ghost var src, dst := fifo1.items, fifo2.items;
    var half := dataLen / 2;
    ghost var lo := 0;
    fifo3 := new Stream();
    for i := 0 to 2
      invariant lo == (if i == 0 then 0 else if i == 1 then half else 2 * half)
      invariant fifo1.items == src[lo..]
      invariant fifo2.items == dst + src[..lo]
      invariant fifo3.items == []
    {
      Compute(dataLen, fifo1, fifo3);
      Compute(dataLen, fifo3, fifo2);
      SliceStep(src, lo, half);
      lo := lo + half;
    }
  }

  /** Moving the next `n` elements of `s` past position `lo`. */
  lemma SliceStep<T>(s: seq<T>, lo: nat, n: nat)
    requires lo + n <= |s|
    ensures s[lo..][..n] == s[lo..lo + n] && s[lo..][n..] == s[lo + n..]
    ensures s[..lo + n] == s[..lo] + s[lo..lo + n]
  {
  }

  /**
   * `top`, run in call order with an even `DATA_LEN`: `mem_1` becomes a
   * copy of `mem_0` (as it was on entry), `mem_0` is left alone unless it
   * is `mem_1`, and every FIFO ends empty.
   */
  method Top<T>(dataLen: nat, mem0: array<T>, mem1: array<T>)
    returns (fifo1: Stream<T>, fifo2: Stream<T>, fifo3: Stream<T>)
    requires dataLen % 2 == 0 && mem0.Length == dataLen && mem1.Length == dataLen
    modifies mem1
    ensures mem1[..] == old(mem0[..])
    ensures mem0 != mem1 ==> mem0[..] == old(mem0[..])
    ensures fresh(fifo1) && fresh(fifo2) && fresh(fifo3)
    ensures fifo1.items == [] && fifo2.items == [] && fifo3.items == []
  {
    fifo1 := new Stream();
    fifo2 := new Stream();
    Load(dataLen, mem0, fifo1);
    fifo3 := Wrapper(dataLen, fifo1, fifo2);
    Store(dataLen, mem1, fifo2);
  }
}
