/**
 * The read-and-write kernel whose `top` runs `LOOP_ITER` dataflow
 * iterations, each copying one `DATA_LEN` block at offset
 * `i * DATA_LEN`. `DATA_LEN` and `LOOP_ITER` come from a header not part
 * of this model, so they are the parameters `dataLen` and `loopIter`.
 */
module InLoopKernel {
  import opened HlsStream


  /** `load`: append `mem[offset..offset + DATA_LEN)` to `fifo_1`, in index order. */
  method Load<T>(dataLen: nat, mem: array<T>, fifo1: Stream<T>, offset: nat)
    requires offset + dataLen <= mem.Length
    modifies fifo1
    ensures fifo1.items == old(fifo1.items) + mem[offset..offset + dataLen]
  {
    for i := 0 to dataLen
      invariant fifo1.items == old(fifo1.items) + mem[offset..offset + i]
    {
      fifo1.Write(mem[i + offset]);
      assert mem[offset..offset + i + 1] == mem[offset..offset + i] + [mem[i + offset]];
    }
  }

  /**
   * `compute`: `DATA_LEN` iterations, each moving one element only when
   * `fifo_1` is not empty; so `min(DATA_LEN, |fifo_1|)` elements move, in
   * order, and no empty FIFO is read.
   */
  method Compute<T>(dataLen: nat, fifo1: Stream<T>, fifo2: Stream<T>)
    requires fifo1 != fifo2
    modifies fifo1, fifo2
    ensures var n := Min(dataLen, |old(fifo1.items)|);
      fifo1.items == old(fifo1.items)[n..] && fifo2.items == old(fifo2.items) + old(fifo1.items)[..n]
  {
    ghost var src, dst := fifo1.items, fifo2.items;
    ghost var k := 0;
    for i := 0 to dataLen
      invariant k == Min(i, |src|)
      invariant fifo1.items == src[k..]
      invariant fifo2.items == dst + src[..k]
    {
      if !fifo1.Empty() {
        var ok, tmp := fifo1.ReadNb();
        fifo2.Write(tmp.value);
        assert src[..k + 1] == src[..k] + [src[k]];
        k := k + 1;
      }
    }
  }

  /** `store`: pop `DATA_LEN` elements into `mem[offset..offset + DATA_LEN)`; no other index is touched. */
  method Store<T>(dataLen: nat, mem: array<T>, fifo2: Stream<T>, offset: nat)
    requires offset + dataLen <= mem.Length && |fifo2.items| >= dataLen
    modifies mem, fifo2
    ensures mem[offset..offset + dataLen] == old(fifo2.items)[..dataLen]
    ensures forall k :: 0 <= k < mem.Length && !(offset <= k < offset + dataLen) ==> mem[k] == old(mem[k])
    ensures fifo2.items == old(fifo2.items)[dataLen..]
  {
    ghost var src := fifo2.items;
    for i := 0 to dataLen
      invariant fifo2.items == src[i..]
      invariant mem[offset..offset + i] == src[..i]
      invariant forall k :: 0 <= k < mem.Length && !(offset <= k < offset + i) ==> mem[k] == old(mem[k])
    {
      mem[i + offset] := fifo2.Read();
    }
  }

  /**
   * The offsets `top` uses: block `i < LOOP_ITER` lies inside the arrays,
   * directly after block `i - 1`, and blocks for different `i` do not overlap.
   */
  lemma {:induction false} Blocks(dataLen: nat, loopIter: nat, i: nat, j: nat)
    requires i < loopIter && j < loopIter
    ensures i * dataLen + dataLen <= dataLen * loopIter
    ensures (i + 1) * dataLen == i * dataLen + dataLen
    ensures i != j ==> i * dataLen + dataLen <= j * dataLen || j * dataLen + dataLen <= i * dataLen
  {
    assert (i + 1) * dataLen <= loopIter * dataLen by {
      MulLeft(i + 1, loopIter, dataLen);
    }
    if i < j {
      MulLeft(i + 1, j, dataLen);
    } else if j < i {
      MulLeft(j + 1, i, dataLen);
    }
  }

  lemma {:induction false} MulLeft(a: nat, b: nat, d: nat)
    requires a <= b
    ensures a * d <= b * d
    decreases b - a
  {
    if a < b {
      MulLeft(a + 1, b, d);
    }
  }

  /** One iteration of `top`'s loop: load, compute and store the block at `offset`. */
  method CopyBlock<T>(dataLen: nat, mem0: array<T>, mem1: array<T>, fifo1: Stream<T>, fifo2: Stream<T>, offset: nat)
    requires fifo1 != fifo2 && fifo1.items == [] && fifo2.items == []
    requires offset + dataLen <= mem0.Length && mem0.Length == mem1.Length
    modifies mem1, fifo1, fifo2
    ensures fifo1.items == [] && fifo2.items == []
    ensures forall k :: offset <= k < offset + dataLen ==> mem1[k] == old(mem0[k])
    ensures forall k :: 0 <= k < mem1.Length && !(offset <= k < offset + dataLen) ==> mem1[k] == old(mem1[k])
  {
    ghost var block := mem0[offset..offset + dataLen];
    Load(dataLen, mem0, fifo1, offset);
    assert fifo1.items == block;
    Compute(dataLen, fifo1, fifo2);
    assert fifo2.items == block;
    Store(dataLen, mem1, fifo2, offset);
    forall k | offset <= k < offset + dataLen ensures mem1[k] == old(mem0[k]) {
      assert mem1[k] == mem1[offset..offset + dataLen][k - offset];
    }
  }

  /**
   * `top`, its iterations and their processes run in order: `mem_1`
   * becomes a copy of `mem_0` (as it was on entry), `mem_0` is left alone
   * unless it is `mem_1`, and both FIFOs end empty.
   */
  method Top<T>(dataLen: nat, loopIter: nat, mem0: array<T>, mem1: array<T>)
    returns (fifo1: Stream<T>, fifo2: Stream<T>)
    requires mem0.Length == dataLen * loopIter && mem1.Length == dataLen * loopIter
    modifies mem1
    ensures mem1[..] == old(mem0[..])
    ensures mem0 != mem1 ==> mem0[..] == old(mem0[..])
    ensures fresh(fifo1) && fresh(fifo2) && fifo1.items == [] && fifo2.items == []
  {
    fifo1 := new Stream();
    fifo2 := new Stream();
    ghost var done := 0;
    for i := 0 to loopIter
      invariant done == i * dataLen && done <= mem1.Length
      invariant fifo1.items == [] && fifo2.items == []
      invariant forall k :: 0 <= k < done ==> mem1[k] == old(mem0[k])
      invariant forall k :: done <= k < mem1.Length ==> mem1[k] == old(mem1[k])
      invariant mem0 != mem1 ==> forall k :: 0 <= k < mem0.Length ==> mem0[k] == old(mem0[k])
    {
      Blocks(dataLen, loopIter, i, i);
      CopyBlock(dataLen, mem0, mem1, fifo1, fifo2, i * dataLen);
      done := done + dataLen;
    }
    assert mem1[..] == old(mem0[..]);
  }

  /** The host `main`: `mem_0[i] = i`, then `top`, then `mem_1[i] == i` at every index. */
  method HostMain(dataLen: nat, loopIter: nat) returns (passed: bool)
    ensures passed
  {
    var mem0 := new int[dataLen * loopIter](i => i);
    var mem1 := new int[dataLen * loopIter];
    var _, _ := Top(dataLen, loopIter, mem0, mem1);
    passed := true;
    for i := 0 to dataLen * loopIter
      invariant passed
    {
      if mem1[i] != i {
        passed := false;
        return;
      }
    }
  }
}
