/**
 * The read-and-write kernel with AXI-stream ports: `load` pops the input
 * stream, `compute` forwards, `store` pushes the output stream, each
 * `DATA_LEN` elements. `DATA_LEN` comes from a header not part of this
 * model, so it is the parameter `dataLen`.
 */
module AxiStreamKernel {
  import opened HlsStream

  /** Move exactly `dataLen` elements from the front of `src` to the back of `dst`, in order. */
  method Transfer<T>(dataLen: nat, src: Stream<T>, dst: Stream<T>)
    requires src != dst && |src.items| >= dataLen
    modifies src, dst
    ensures src.items == old(src.items)[dataLen..]
    ensures dst.items == old(dst.items) + old(src.items)[..dataLen]
  {
    ghost var from, to := src.items, dst.items;
    for i := 0 to dataLen
      invariant src.items == from[i..]
      invariant dst.items == to + from[..i]
    {
      var tmp := src.Read();
      dst.Write(tmp);
      assert from[..i + 1] == from[..i] + [tmp];
    }
  }

  /** `load`: pop `DATA_LEN` elements of the input stream onto `fifo_1`, in order. */
  method Load<T>(dataLen: nat, mem: Stream<T>, fifo1: Stream<T>)
    requires mem != fifo1 && |mem.items| >= dataLen
    modifies mem, fifo1
    ensures mem.items == old(mem.items)[dataLen..]
    ensures fifo1.items == old(fifo1.items) + old(mem.items)[..dataLen]
  {
    Transfer(dataLen, mem, fifo1);
  }

  /** `compute`: move `DATA_LEN` elements from `fifo_1` to `fifo_2`, in order. */
  method Compute<T>(dataLen: nat, fifo1: Stream<T>, fifo2: Stream<T>)
    requires fifo1 != fifo2 && |fifo1.items| >= dataLen
    modifies fifo1, fifo2
    ensures fifo1.items == old(fifo1.items)[dataLen..]
    ensures fifo2.items == old(fifo2.items) + old(fifo1.items)[..dataLen]
  {
    Transfer(dataLen, fifo1, fifo2);
  }

  /** `store`: push `DATA_LEN` elements popped from `fifo_2` onto the output stream, in order. */
  method Store<T>(dataLen: nat, mem: Stream<T>, fifo2: Stream<T>)
    requires mem != fifo2 && |fifo2.items| >= dataLen
    modifies mem, fifo2
    ensures fifo2.items == old(fifo2.items)[dataLen..]
    ensures mem.items == old(mem.items) + old(fifo2.items)[..dataLen]
  {
    Transfer(dataLen, fifo2, mem);
  }

  /**
   * `top`, its processes run in call order: the output stream gains the
   * first `DATA_LEN` input elements in order, the input stream loses
   * exactly those, and both FIFOs end empty.
   */
  method Top<T>(dataLen: nat, mem0: Stream<T>, mem1: Stream<T>) returns (fifo1: Stream<T>, fifo2: Stream<T>)
    requires mem0 != mem1 && |mem0.items| >= dataLen
    modifies mem0, mem1
    ensures mem0.items == old(mem0.items)[dataLen..]
    ensures mem1.items == old(mem1.items) + old(mem0.items)[..dataLen]
    ensures fresh(fifo1) && fresh(fifo2) && fifo1.items == [] && fifo2.items == []
  {
    ghost var input, output := mem0.items, mem1.items;
    fifo1 := new Stream();
    fifo2 := new Stream();
    Load(dataLen, mem0, fifo1);
    assert fifo1.items == input[..dataLen] && mem0.items == input[dataLen..] && mem1.items == output;
    Compute(dataLen, fifo1, fifo2);
    assert fifo2.items == input[..dataLen] && fifo1.items == [];
    Store(dataLen, mem1, fifo2);
  }

  /** The host `main`: write `0..DATA_LEN-1` to the input stream, run `top`, read `i` back at position `i`. */
  method HostMain(dataLen: nat) returns (passed: bool)
    ensures passed
  {
    var mem0 := new Stream<int>();
    var mem1 := new Stream<int>();
    for i := 0 to dataLen
      invariant |mem0.items| == i && forall j :: 0 <= j < i ==> mem0.items[j] == j
      invariant mem1.items == []
    {
      mem0.Write(i);
    }
    ghost var input := mem0.items;
    var _, _ := Top(dataLen, mem0, mem1);
    assert mem1.items == input;
    passed := true;
    for i := 0 to dataLen
      invariant passed
      invariant |mem1.items| == dataLen - i && forall j :: 0 <= j < dataLen - i ==> mem1.items[j] == j + i
    {
      ghost var before := mem1.items;
      var x := mem1.Read();
      assert x == before[0] && mem1.items == before[1..];
      if x != i {
        passed := false;
        return;
      }
    }
  }
}
