/**
 * The list of online players, keyed by player name, and the broadcasts
 * that go to every ready player on it. Iteration over the map is in no
 * particular order; the loops here pick the next key arbitrarily.
 */
module Players {
  import opened Player

  class Players {
    var list: map<string, Player>

    /** Every player is filed under its own name. */
    ghost predicate Valid()
      reads this, list.Values
    {
      forall k | k in list :: list[k].name == k
    }

    /** `New`: an empty list. */
    constructor ()
      ensures Valid() && list == map[]
    {
      list := map[];
    }

    /** `Len`: the number of online players. */
    function Len(): (n: nat)
      reads this
      ensures n == |list.Keys|
    {
      |list|
    }

    /** `GetPlayer`: the player of that name, or null. */
    function GetPlayer(name: string): (p: Player?)
      reads this
      ensures p != null <==> name in list
      ensures p != null ==> p == list[name]
    {
      if name in list then list[name] else null
    }

    /** `Copy`: a new map holding each player under its name. */
    method Copy() returns (lc: map<string, Player>)
      requires Valid()
      ensures lc == list
    {
      lc := map[];
      var todo := list.Keys;
      while todo != {}
        invariant todo <= list.Keys
        invariant lc.Keys == list.Keys - todo
        invariant forall k | k in lc :: lc[k] == list[k]
        decreases todo
      {
        var k :| k in todo;
        var p := list[k];
        lc := lc[p.name := p];
        todo := todo - {k};
      }
    }

    /** `AddPlayer`: files `p` under its name, replacing any player of that name. */
    method AddPlayer(p: Player)
      requires Valid()
      modifies this
      ensures Valid()
      ensures list == old(list)[p.name := p]
    {
      list := list[p.name := p];
    }

    /** `RemPlayer`: removes whoever is filed under `p`'s name. */
    method RemPlayer(p: Player)
      requires Valid()
      modifies this
      ensures Valid()
      ensures list == old(list) - {p.name}
    {
      list := list - {p.name};
    }

    /**
     * `BroadcastPacket`: writes `pkt` once to every ready player, and to no
     * one else. Each player is filed under its own name only, so going over
     * the players visits the same entries as going over the names.
     */
    method BroadcastPacket(pkt: Packet)
      requires Valid()
      modifies list.Values
      ensures Valid()
      ensures forall p | p in list.Values :: p.Snapshot() == Deliver(old(p.Snapshot()), pkt)
    {
      ghost var before := map p | p in list.Values :: p.Snapshot();
      var todo := list.Values;
      while todo != {}
        invariant todo <= list.Values
        invariant forall p | p in list.Values :: p.Snapshot() == if p in todo then before[p] else Deliver(before[p], pkt)
        decreases todo
      {
        var p :| p in todo;
        if p.ready {
          p.Send(pkt);
        }
        todo := todo - {p};
      }
    }

    /** `BroadcastMessage`: sends the chat message once to every ready player, and to no one else. */
    method BroadcastMessage(message: string)
      requires Valid()
      modifies list.Values
      ensures Valid()
      ensures forall p | p in list.Values :: p.Snapshot() == Deliver(old(p.Snapshot()), Chat(message))
    {
      ghost var before := map p | p in list.Values :: p.Snapshot();
      var todo := list.Values;
      while todo != {}
        invariant todo <= list.Values
        invariant forall p | p in list.Values :: p.Snapshot() == if p in todo then before[p] else Deliver(before[p], Chat(message))
        decreases todo
      {
        var p :| p in todo;
        if p.ready {
          p.SendMessage(message);
        }
        todo := todo - {p};
      }
    }

    /** The names of the ready players. */
    function ReadyNames(): (names: set<string>)
      reads this, list.Values
      ensures names <= list.Keys
      ensures forall k | k in list :: k in names <==> list[k].ready
      ensures forall k | k in names :: k in list
    {
      set k | k in list && list[k].ready
    }

    /** The spawn packet of each ready player, by name. */
    function SpawnMap(): (m: map<string, Packet>)
      reads this, list.Values
      ensures m.Keys == ReadyNames()
    {
      map k | k in ReadyNames() :: Spawn(list[k])
    }

    /**
     * `BroadcastLogin`: writes to `to` one named-entity spawn per ready
     * player, in some order, carrying that player's id, name, position and
     * look, no held item and the just-logged-in metadata.
     */
    method BroadcastLogin(to: Player)
      requires Valid()
      modifies to
      ensures Valid()
      ensures to.Snapshot() == old(to.Snapshot()).(outbox := to.outbox)
      ensures exists order :: (Enumerates(order, old(SpawnMap()).Keys) &&
                               to.outbox == old(to.outbox) + Mapped(order, old(SpawnMap())))
      ensures |to.outbox| == |old(to.outbox)| + |old(ReadyNames())|
    {
      // Nothing in the loop reads `to`'s connection, so the spawns are
      // collected first and written out in one step.
      ghost var order;
      var written;
      ghost var ready := ReadyNames();
      written, order := CollectSpawns();
      EnumerationLength(order, SpawnMap().Keys);
      assert |written| == |ready|;
      to.outbox := to.outbox + written;
    }

    /** The loop of `BroadcastLogin`: the spawn of every ready player, in some order. */
    method CollectSpawns() returns (written: seq<Packet>, ghost order: seq<string>)
      ensures Enumerates(order, SpawnMap().Keys)
      ensures written == Mapped(order, SpawnMap())
    {
      ghost var spawns := SpawnMap();
      order := [];
      written := [];
      var todo := list.Keys;
      while todo != {}
        invariant todo <= list.Keys
        invariant Enumerates(order, spawns.Keys - todo)
        invariant written == Mapped(order, spawns)
        decreases todo
      {
        var k :| k in todo;
        var p := list[k];
        if p.ready {
          var r := NamedSpawn(p.eid, p.name, p.x, p.y, p.z, p.yaw, p.pitch, 0, JustLoginMetadata(p.name));
          assert k in ReadyNames();
          assert r == spawns[k];
          EnumeratesSnoc(order, spawns.Keys - todo, k);
          MappedSnoc(order, spawns, k);
          written := written + [r];
          order := order + [k];
        }
        assert spawns.Keys - (todo - {k}) == (spawns.Keys - todo) + (if p.ready then {k} else {});
        todo := todo - {k};
      }
      assert spawns.Keys - todo == spawns.Keys;
    }
  }

  /** `order` lists every element of `s` exactly once: one iteration order of a Go map. */
  ghost predicate Enumerates<K>(order: seq<K>, s: set<K>)
  {
    (forall i | 0 <= i < |order| :: order[i] in s) &&
    (forall k | k in s :: k in order) &&
    (forall i, j | 0 <= i < j < |order| :: order[i] != order[j])
  }

  /** The values of `m` at the keys of `order`, in that order. */
  function Mapped<K, V>(order: seq<K>, m: map<K, V>): (vs: seq<V>)
    requires forall i | 0 <= i < |order| :: order[i] in m
    ensures |vs| == |order|
    ensures forall i | 0 <= i < |order| :: vs[i] == m[order[i]]
  {
    seq(|order|, i requires 0 <= i < |order| => m[order[i]])
  }

  lemma EnumeratesSnoc<K>(order: seq<K>, s: set<K>, k: K)
    requires Enumerates(order, s) && k !in s
    ensures Enumerates(order + [k], s + {k})
  {
  }

  lemma MappedSnoc<K, V>(order: seq<K>, m: map<K, V>, k: K)
    requires (forall i | 0 <= i < |order| :: order[i] in m) && k in m
    ensures Mapped(order + [k], m) == Mapped(order, m) + [m[k]]
  {
  }

  /** An enumeration of a set is as long as the set is large. */
  lemma {:induction false} EnumerationLength<K>(order: seq<K>, s: set<K>)
    requires Enumerates(order, s)
    ensures |order| == |s|
    decreases |order|
  {
    if order != [] {
      var last := order[|order| - 1];
      var init := order[..|order| - 1];
      assert Enumerates(init, s - {last}) by {
        forall k | k in s - {last} ensures k in init {
          var i :| 0 <= i < |order| && order[i] == k;
          assert i != |order| - 1;
          assert init[i] == k;
        }
      }
      EnumerationLength(init, s - {last});
    } else {
      assert s == {};
    }
  }

  /** The spawn packet announcing `p`. */
  function Spawn(p: Player): (r: Packet)
    reads p
    ensures r.NamedSpawn? && r.entity == p.eid && r.name == p.name
  {
    NamedSpawn(p.eid, p.name, p.x, p.y, p.z, p.yaw, p.pitch, 0, JustLoginMetadata(p.name))
  }
}
