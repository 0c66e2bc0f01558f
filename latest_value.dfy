/**
 * The two one-slot hand-off queues of the main window (`Queue(1)`) and
 * `put_latest`, which turns a full queue into "the newest item wins":
 * a producer never blocks and a consumer only ever sees the latest item.
 */
module LatestValue {
  import opened Wrappers

  /** A `queue.Queue` of capacity one; `item` is what it holds. */
  class SlotQueue<T> {
    var item: Option<T>

    /** `Queue(1)`: created empty. */
    constructor ()
      ensures item == None
    {
      item := None;
    }

    /** `put_nowait`: `full` is the `queue.Full` it raises when the slot is taken, and then nothing changes. */
    method PutNowait(x: T) returns (full: bool)
      modifies this
      ensures full <==> old(item).Some?
      ensures item == if full then old(item) else Some(x)
    {
      full := item.Some?;
      if !full {
        item := Some(x);
      }
    }

    /** `get_nowait`: `None` stands for the `queue.Empty` it raises; the slot is empty afterwards. */
    method GetNowait() returns (r: Option<T>)
      modifies this
      ensures r == old(item)
      ensures item == None
    {
      r := item;
      item := None;
    }
  }

  /**
   * `put_latest`: put, and while the queue is full drop the old item and
   * put again. The loop ends after at most one drop.
   */
  method PutLatest<T>(q: SlotQueue<T>, x: T)
    modifies q
    ensures q.item == Some(x)
  {
    while true
      decreases if q.item.Some? then 1 else 0
    {
      var full := q.PutNowait(x);
      if !full {
        return;
      }
      var dropped := q.GetNowait();
      assert dropped.Some?;   // the slot was just found full
    }
  }

  /** What the slot holds after a run of `put_latest` calls with no get in between. */
  function AfterPuts<T>(slot: Option<T>, xs: seq<T>): Option<T>
    decreases |xs|
  {
    if xs == [] then slot else AfterPuts(Some(xs[0]), xs[1..])
  }

  /** Only the last of a run of puts stays observable; an empty run leaves the slot as it was. */
  lemma {:induction false} LastPutWins<T>(slot: Option<T>, xs: seq<T>)
    ensures xs == [] ==> AfterPuts(slot, xs) == slot
    ensures xs != [] ==> AfterPuts(slot, xs) == Some(xs[|xs| - 1])
    decreases |xs|
  {
    if |xs| > 1 {
      LastPutWins(Some(xs[0]), xs[1..]);
    }
  }

  /** A run of puts splits at any point. */
  lemma {:induction false} AfterPutsAppend<T>(slot: Option<T>, xs: seq<T>, ys: seq<T>)
    ensures AfterPuts(slot, xs + ys) == AfterPuts(AfterPuts(slot, xs), ys)
    decreases |xs|
  {
    if xs == [] {
      assert xs + ys == ys;
    } else {
      assert (xs + ys)[0] == xs[0] && (xs + ys)[1..] == xs[1..] + ys;
      AfterPutsAppend(Some(xs[0]), xs[1..], ys);
    }
  }

  /** The producer side of a hand-off: `put_latest` once per item, in order. */
  method PutEach<T>(q: SlotQueue<T>, xs: seq<T>)
    modifies q
    ensures q.item == AfterPuts(old(q.item), xs)
  {
    var i := 0;
    while i < |xs|
      invariant 0 <= i <= |xs|
      invariant q.item == AfterPuts(old(q.item), xs[..i])
    {
      PutLatest(q, xs[i]);
      AfterPutsAppend(old(q.item), xs[..i], [xs[i]]);
      assert xs[..i + 1] == xs[..i] + [xs[i]];
      i := i + 1;
    }
    assert xs[..i] == xs;
  }
}
