/**
 * `hls::stream<T>` under sequential C simulation: an unbounded FIFO
 * updated in place. The hardware depth (`#pragma HLS STREAM depth=2`)
 * only matters for concurrent processes and is not modelled.
 */
module HlsStream {
  import opened Wrappers

  /** The smaller of two element counts. */
  function Min(a: int, b: int): int {
    if a < b then a else b
  }

  class Stream<T> {
    /** Queued elements, oldest first. */
    var items: seq<T>

    constructor ()
      ensures items == []
    {
      items := [];
    }

    /** `empty()` */
    function Empty(): bool
      reads this
    {
      items == []
    }

    /** `write(x)`: append at the back. */
    method Write(x: T)
      modifies this
      ensures items == old(items) + [x]
    {
      items := items + [x];
    }

    /** `read()`: blocking pop of the front; the model requires an element to be there. */
    method Read() returns (x: T)
      requires items != []
      modifies this
      ensures [x] + items == old(items)
    {
      x := items[0];
      items := items[1..];
    }

    /** `read_nb(x)`: pops the front if there is one; otherwise reports failure and leaves `x` unset. */
    method ReadNb() returns (ok: bool, x: Option<T>)
      modifies this
      ensures ok <==> old(items) != []
      ensures ok ==> x == Some(old(items)[0]) && items == old(items)[1..]
      ensures !ok ==> x == None && items == old(items)
    {
      if items == [] {
        return false, None;
      }
      ok, x := true, Some(items[0]);
      items := items[1..];
    }
  }
}
