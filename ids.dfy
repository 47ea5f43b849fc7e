/**
 * Entity id generator: a counter that hands out 1, 2, 3, ... and a FIFO
 * queue of released ids, capped at 65535 entries, which are handed out
 * again before the counter moves on.
 *
 * `Pool` is the generator's state as a value and `Take`/`Release` say what
 * `Get`/`Rel` do to it; the class `Generator` keeps the same state in
 * fields and is proved against those functions. The locks and atomic
 * operations of the original only serialise calls and are not modelled.
 */
module Ids {
  import opened Integers
  import opened Opt

  /** `math.MaxUint16`, the length at which the queue counts as full. */
  const MaxQueue: int := 0xFFFF

  /** The counter and the released ids, oldest first. */
  datatype Pool = Pool(max: Int32, free: seq<Int32>)

  predicate InRange(id: int) { 0 <= id <= MaxInt32 }

  /** A counter in range, a queue under the cap holding in-range ids. */
  predicate Sound(p: Pool)
  {
    InRange(p.max) && |p.free| <= MaxQueue && forall i | 0 <= i < |p.free| :: InRange(p.free[i])
  }

  /**
   * `Get`: the oldest released id when there is one; otherwise the counter
   * moves to the next id, and from `MaxInt32` it is reset to 0, which is
   * handed out.
   */
  function Take(p: Pool): (r: (Int32, Pool))
  {
    if p.free != [] then (p.free[0], Pool(p.max, p.free[1..]))
    else if p.max == MaxInt32 then (0, Pool(0, []))
    else (p.max + 1, Pool(p.max + 1, []))
  }

  /** `Rel`: the id joins the back of the queue; `None` is the panic on a full queue. */
  function Release(p: Pool, id: Int32): (r: Option<Pool>)
  {
    if |p.free| == MaxQueue then None else Some(Pool(p.max, p.free + [id]))
  }

  /** The ids handed out by `n` calls of `Get`, and the state after them. */
  function TakeMany(p: Pool, n: nat): (r: (seq<Int32>, Pool))
    decreases n
  {
    if n == 0 then ([], p)
    else
      var (id, q) := Take(p);
      var (ids, q') := TakeMany(q, n - 1);
      ([id] + ids, q')
  }

  /** Every id handed out lies in [0, 2^31 - 1], so long as only such ids are released. */
  lemma TakeInRange(p: Pool)
    requires Sound(p)
    ensures InRange(Take(p).0) && Sound(Take(p).1)
  {
    if p.free != [] {
      assert InRange(p.free[0]);
      forall i | 0 <= i < |p.free[1..]| ensures InRange(p.free[1..][i]) {
        assert p.free[1..][i] == p.free[i + 1];
      }
    }
  }

  /** Releasing an in-range id keeps the state sound, and fails exactly on a full queue. */
  lemma ReleaseSound(p: Pool, id: Int32)
    requires Sound(p) && InRange(id)
    ensures Release(p, id).None? <==> |p.free| == MaxQueue
    ensures Release(p, id).Some? ==> Sound(Release(p, id).value) && Release(p, id).value.max == p.max
  {
    if |p.free| < MaxQueue {
      var f := p.free + [id];
      forall i | 0 <= i < |f| ensures InRange(f[i]) {
        if i < |p.free| { assert f[i] == p.free[i]; }
      }
    }
  }

  /** With nothing queued, a released id is the next one handed out, and the counter is untouched. */
  lemma ReleaseThenTake(p: Pool, id: Int32)
    requires p.free == []
    ensures Release(p, id) == Some(Pool(p.max, [id]))
    ensures Take(Release(p, id).value) == (id, p)
  {
    assert p.free + [id] == [id] && [id][1..] == [];
  }

  /** Released ids queue up: the oldest comes out and the new one waits at the back. */
  lemma ReleaseIsFifo(p: Pool, id: Int32)
    requires p.free != [] && |p.free| < MaxQueue
    ensures Take(Release(p, id).value) == (p.free[0], Pool(p.max, p.free[1..] + [id]))
  {
    assert (p.free + [id])[1..] == p.free[1..] + [id];
  }

  /**
   * With nothing queued and room below `MaxInt32`, `n` calls hand out
   * `max + 1`, ..., `max + n`: increasing, hence all different, and all
   * above any id the counter gave before.
   */
  lemma {:induction false} CounterIdsIncrease(p: Pool, n: nat)
    requires p.free == [] && p.max + n <= MaxInt32
    ensures |TakeMany(p, n).0| == n
    ensures forall i | 0 <= i < n :: TakeMany(p, n).0[i] == p.max + 1 + i
    ensures TakeMany(p, n).1 == Pool(p.max + n, [])
    decreases n
  {
    if n > 0 {
      var q := Pool(p.max + 1, []);
      assert Take(p) == (p.max + 1, q);
      CounterIdsIncrease(q, n - 1);
    }
  }

  /** Queued ids all come out, oldest first, before the counter is used. */
  lemma {:induction false} QueuedIdsFirst(p: Pool, k: nat)
    ensures |TakeMany(p, |p.free| + k).0| == |p.free| + k
    ensures TakeMany(p, |p.free| + k).0[..|p.free|] == p.free
    ensures TakeMany(p, |p.free| + k) == (p.free + TakeMany(Pool(p.max, []), k).0, TakeMany(Pool(p.max, []), k).1)
    decreases |p.free|
  {
    if p.free != [] {
      var q := Pool(p.max, p.free[1..]);
      assert Take(p) == (p.free[0], q);
      QueuedIdsFirst(q, k);
      assert |p.free| + k - 1 == |q.free| + k;
      var rest := TakeMany(Pool(p.max, []), k).0;
      assert [p.free[0]] + (q.free + rest) == p.free + rest;
    } else {
      LengthOfTakeMany(p, k);
      assert p == Pool(p.max, []);
      assert [] + TakeMany(p, k).0 == TakeMany(p, k).0;
    }
  }

  lemma {:induction false} LengthOfTakeMany(p: Pool, n: nat)
    ensures |TakeMany(p, n).0| == n
    decreases n
  {
    if n > 0 {
      LengthOfTakeMany(Take(p).1, n - 1);
    }
  }

  /**
   * No id is handed out twice while in use: the queued ids are distinct,
   * none of them is live, and the counter is at or above every id queued
   * or live.
   */
  ghost predicate Unique(p: Pool, live: set<Int32>)
  {
    (forall i | 0 <= i < |p.free| :: p.free[i] !in live && p.free[i] <= p.max) &&
    (forall i, j | 0 <= i < j < |p.free| :: p.free[i] != p.free[j]) &&
    (forall x | x in live :: x <= p.max)
  }

  /**
   * `Get` hands out an id that is neither live nor still queued, and the
   * id joins the live ones, so long as the counter has not reached
   * `MaxInt32` with nothing queued.
   */
  lemma TakeUnique(p: Pool, live: set<Int32>)
    requires Unique(p, live)
    requires p.free == [] ==> p.max < MaxInt32
    ensures Take(p).0 !in live && Take(p).0 !in Take(p).1.free
    ensures Unique(Take(p).1, live + {Take(p).0})
  {
    var (id, q) := Take(p);
    if p.free != [] {
      forall i | 0 <= i < |q.free| ensures q.free[i] == p.free[i + 1] {}
      forall i | 0 <= i < |q.free| ensures q.free[i] != id {
        assert p.free[0] != p.free[i + 1];
      }
    }
  }

  /** `Rel` of a live id, with room in the queue, keeps ids unique; the id is no longer live. */
  lemma ReleaseUnique(p: Pool, live: set<Int32>, id: Int32)
    requires Unique(p, live) && id in live && |p.free| < MaxQueue
    ensures Release(p, id).Some? && Unique(Release(p, id).value, live - {id})
  {
    var f := p.free + [id];
    forall i | 0 <= i < |f| ensures f[i] !in live - {id} && f[i] <= p.max {
      if i < |p.free| { assert f[i] == p.free[i]; }
    }
    forall i, j | 0 <= i < j < |f| ensures f[i] != f[j] {
      assert f[i] == p.free[i];
      if j < |p.free| { assert f[j] == p.free[j]; }
    }
  }

  /**
   * At `MaxInt32` the counter starts over at 0, so an id still in use is
   * handed out again: with id 1 live and nothing queued, two calls of `Get`
   * give 0 and then 1.
   */
  lemma CounterResetReissues()
    ensures Unique(Pool(MaxInt32, []), {1})
    ensures Take(Pool(MaxInt32, [])) == (0, Pool(0, []))
    ensures Take(Pool(0, [])) == (1, Pool(1, []))
  {
  }

  /**
   * The generator object. `len` is the queue's `uint16` length field,
   * which `full` compares with 65535; `store` holds the queued ids.
   */
  class Generator {
    var max: Int32
    var store: seq<Int32>
    var len: int

    ghost predicate Valid()
      reads this
    {
      len == |store| <= MaxQueue
    }

    function Snapshot(): Pool
      reads this
    {
      Pool(max, store)
    }

    /** The zero value: counter 0, empty queue. */
    constructor ()
      ensures Valid() && Snapshot() == Pool(0, [])
    {
      max := 0;
      store := [];
      len := 0;
    }

    predicate Empty()
      reads this
    {
      len == 0
    }

    predicate Full()
      reads this
    {
      len == MaxQueue
    }

    /** `push`: appends, or panics (`panicked`) when the queue is full. */
    method Push(v: Int32) returns (panicked: bool)
      requires Valid()
      modifies this
      ensures Valid()
      ensures panicked <==> old(Full())
      ensures Release(old(Snapshot()), v) == if panicked then None else Some(Snapshot())
      ensures panicked ==> unchanged(this)
    {
      if !Full() {
        store := store + [v];
        len := len + 1;
        return false;
      }
      return true;
    }

    /** `pop`: removes and returns the oldest id, or panics when the queue is empty. */
    method Pop() returns (id: Int32, panicked: bool)
      requires Valid()
      modifies this
      ensures Valid()
      ensures panicked <==> old(store) == []
      ensures panicked ==> unchanged(this) && id == 0
      ensures !panicked ==> id == old(store[0]) && Snapshot() == Pool(max, old(store[1..])) && max == old(max)
    {
      if !Empty() {
        id := store[0];
        store := store[1..];
        len := len - 1;
        return id, false;
      }
      return 0, true;
    }

    /** `Get`: a queued id if any, otherwise the next counter value. */
    method Get() returns (id: Int32)
      requires Valid()
      modifies this
      ensures Valid()
      ensures (id, Snapshot()) == Take(old(Snapshot()))
    {
      if !Empty() {
        var panicked;
        id, panicked := Pop();
        return;
      }
      if max == MaxInt32 {
        max := 0;
        return max;
      }
      max := max + 1;
      return max;
    }

    /** `Rel`: releases an id back to the generator; `panicked` when the queue is full. */
    method Rel(id: Int32) returns (panicked: bool)
      requires Valid()
      modifies this
      ensures Valid()
      ensures Release(old(Snapshot()), id) == if panicked then None else Some(Snapshot())
      ensures panicked ==> unchanged(this)
    {
      panicked := Push(id);
    }
  }

  /**
   * `Rel` as written: `push` has a value receiver, so the append and the
   * length increment are applied to a copy of the queue and the
   * generator is left as it was.
   */
  function ReleaseAsWritten(p: Pool, id: Int32): (r: Option<Pool>)
    ensures r.Some? ==> r.value == p
  {
    if |p.free| == MaxQueue then None else Some(p)
  }

  /** As written, a released id is never handed out again: the counter's next value comes instead. */
  lemma ReleasedIdIsLost()
    ensures ReleaseAsWritten(Pool(5, []), 3) == Some(Pool(5, []))
    ensures Take(ReleaseAsWritten(Pool(5, []), 3).value).0 == 6
    ensures Take(Release(Pool(5, []), 3).value).0 == 3
  {
  }

  /** The queue with its separate length field, as `pop` sees it. */
  datatype Queue = Queue(store: seq<Int32>, len: int)

  datatype Popped = Popped(id: Int32, rest: Queue) | Panicked(reason: string)

  /**
   * `pop` as written: it checks the length field but never decrements
   * it, so once the store is drained the length still says non-empty and
   * the next `pop` indexes an empty slice.
   */
  function PopAsWritten(q: Queue): (r: Popped)
    ensures r.Popped? ==> q.store != [] && r.rest.len == q.len && r.rest.store == q.store[1..]
  {
    if q.len == 0 then Panicked("can't pop on empty queue")
    else if q.store == [] then Panicked("index out of range")
    else Popped(q.store[0], Queue(q.store[1..], q.len))
  }

  /**
   * Even with shared (by-reference) receivers, one push followed by two pops reaches the
   * out-of-range panic instead of the empty-queue check: the queue still
   * reports length 1 after the first pop.
   */
  lemma PopAsWrittenOverruns(x: Int32)
    ensures PopAsWritten(Queue([x], 1)) == Popped(x, Queue([], 1))
    ensures PopAsWritten(Queue([], 1)) == Panicked("index out of range")
  {
  }
}
