/**
 * The list of active tickers, keyed by entity id. A ticker's `Tick` is
 * code behind an interface, so `TickAll` is modelled by the calls it
 * makes: the ids whose ticker it calls, in the (arbitrary) order of the
 * map iteration, each with the same tick number.
 */
module Tickers {
  import opened Integers
  import opened Opt

  /** One call `Tick(tick)` on the ticker filed under `id`. */
  datatype Call = Call(id: Int32, tick: Int64)

  class Tickers<T> {
    var list: map<Int32, T>

    /** `New`: an empty list. */
    constructor ()
      ensures list == map[]
    {
      list := map[];
    }

    /** `Len`: the number of active tickers. */
    function Len(): (n: nat)
      reads this
      ensures n == |list.Keys|
    {
      |list|
    }

    /** `Copy`: a new map with the same entries. */
    method Copy() returns (lc: map<Int32, T>)
      ensures lc == list
    {
      lc := map[];
      var todo := list.Keys;
      while todo != {}
        invariant todo <= list.Keys
        invariant lc.Keys == list.Keys - todo
        invariant forall k | k in lc :: lc[k] == list[k]
        decreases todo
      {
        var k :| k in todo;
        lc := lc[k := list[k]];
        todo := todo - {k};
      }
    }

    /** `GetTicker`: the ticker of that id, if any (Go's nil otherwise). */
    function GetTicker(id: Int32): (t: Option<T>)
      reads this
      ensures t.Some? <==> id in list
      ensures t.Some? ==> t.value == list[id]
    {
      if id in list then Some(list[id]) else None
    }

    /** `AddTicker`: files `t` under `id`, replacing any ticker there. */
    method AddTicker(id: Int32, t: T)
      modifies this
      ensures list == old(list)[id := t]
    {
      list := list[id := t];
    }

    /** `RemTicker`: removes the ticker of that id, if any. */
    method RemTicker(id: Int32)
      modifies this
      ensures list == old(list) - {id}
    {
      list := list - {id};
    }

    /** `TickAll`: calls every ticker's `Tick(tick)` exactly once. */
    method TickAll(tick: Int64) returns (calls: seq<Call>)
      ensures |calls| == |list|
      ensures forall i | 0 <= i < |calls| :: calls[i].tick == tick && calls[i].id in list
      ensures forall id | id in list :: Call(id, tick) in calls
      ensures forall i, j | 0 <= i < j < |calls| :: calls[i] != calls[j]
    {
      calls := [];
      var todo := list.Keys;
      while todo != {}
        invariant todo <= list.Keys
        invariant forall i | 0 <= i < |calls| :: calls[i].tick == tick && calls[i].id in list.Keys - todo
        invariant forall id | id in list.Keys - todo :: Call(id, tick) in calls
        invariant forall i, j | 0 <= i < j < |calls| :: calls[i] != calls[j]
        invariant |calls| + |todo| == |list.Keys|
        decreases todo
      {
        var k :| k in todo;
        calls := calls + [Call(k, tick)];
        todo := todo - {k};
      }
    }
  }

  /** Adding a ticker and then removing the same id leaves the list without that id and otherwise as it was. */
  lemma AddThenRemove<T>(m: map<Int32, T>, id: Int32, t: T)
    ensures (m[id := t] - {id}) == m - {id}
    ensures id !in m ==> (m[id := t] - {id}) == m
  {
  }
}
