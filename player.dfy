/**
 * A connected player: identity, readiness, position and look, and the
 * connection it is sent packets on. The connection is modelled by
 * `outbox`, the packets written to it so far, in order; encryption of the
 * stream (`OnlineMode`) is recorded by a flag and not otherwise modelled.
 */
module Player {
  import opened Integers
  import opened Opt
  import Ids
  import Metadata

  const TicksPerSecond: int := 20

  /** `util.Ticks`: seconds to game ticks. */
  function Ticks(s: int): (t: int)
    ensures s >= 0 ==> t >= s
  {
    s * TicksPerSecond
  }

  /** A keep-alive goes out every 50 seconds of game time. */
  const KeepAlivePeriod: int := Ticks(50)

  /** The packets a player is sent. */
  datatype Packet =
    | Chat(message: string)
    | KeepAlive(randomId: Int32)
    | NamedSpawn(entity: Int32, name: string, x: Float64Bits, y: Float64Bits, z: Float64Bits,
                 yaw: Float32Bits, pitch: Float32Bits, item: Int16, metadata: map<Byte, Metadata.Entry>)

  /** Metadata announced for a player who has just logged in. */
  function JustLoginMetadata(name: string): (m: map<Byte, Metadata.Entry>)
    ensures m.Keys == {0, 1, 5, 6, 8}
    ensures m[5] == Metadata.EntryString(name)
  {
    map[0 := Metadata.EntryByte(0), 1 := Metadata.EntryShort(300), 5 := Metadata.EntryString(name),
        6 := Metadata.EntryByte(1), 8 := Metadata.EntryInt(0)]
  }

  /** Every field of a player, as a value. */
  datatype State = State(outbox: seq<Packet>, crypto: bool, ready: bool, name: string, gameMode: Int8,
                         x: Float64Bits, y: Float64Bits, z: Float64Bits, pitch: Float32Bits, yaw: Float32Bits)

  class Player {
    var outbox: seq<Packet>
    var crypto: bool
    var ready: bool
    var name: string
    const since: Int64
    const eid: Int32
    var gameMode: Int8
    var x: Float64Bits
    var y: Float64Bits
    var z: Float64Bits
    var pitch: Float32Bits
    var yaw: Float32Bits

    function Snapshot(): State
      reads this
    {
      State(outbox, crypto, ready, name, gameMode, x, y, z, pitch, yaw)
    }

    /**
     * `New`: a fresh player that takes its entity id from `gen` at time
     * `now` (the wall clock, a parameter here); every other field is zero.
     */
    constructor (gen: Ids.Generator, now: Int64)
      requires gen.Valid()
      modifies gen
      ensures gen.Valid() && (eid, gen.Snapshot()) == Ids.Take(old(gen.Snapshot()))
      ensures since == now
      ensures Snapshot() == State([], false, false, "", 0, 0, 0, 0, 0, 0)
    {
      var id := gen.Get();
      eid := id;
      since := now;
      outbox := [];
      crypto := false;
      ready := false;
      name := "";
      gameMode := 0;
      x, y, z := 0, 0, 0;
      pitch, yaw := 0, 0;
    }

    /** `OnlineMode`: switches authentication, and with it stream encryption, on or off. */
    method OnlineMode(m: bool)
      modifies this
      ensures Snapshot() == old(Snapshot()).(crypto := m)
    {
      crypto := m;
    }

    method SetReady()
      modifies this
      ensures Snapshot() == old(Snapshot()).(ready := true)
    {
      ready := true;
    }

    method SetPos(x': Float64Bits, y': Float64Bits, z': Float64Bits)
      modifies this
      ensures Snapshot() == old(Snapshot()).(x := x', y := y', z := z')
    {
      x, y, z := x', y', z';
    }

    method SetX(x': Float64Bits)
      modifies this
      ensures Snapshot() == old(Snapshot()).(x := x')
    {
      x := x';
    }

    method SetY(y': Float64Bits)
      modifies this
      ensures Snapshot() == old(Snapshot()).(y := y')
    {
      y := y';
    }

    method SetZ(z': Float64Bits)
      modifies this
      ensures Snapshot() == old(Snapshot()).(z := z')
    {
      z := z';
    }

    method SetLook(pitch': Float32Bits, yaw': Float32Bits)
      modifies this
      ensures Snapshot() == old(Snapshot()).(pitch := pitch', yaw := yaw')
    {
      pitch, yaw := pitch', yaw';
    }

    method SetPitch(pitch': Float32Bits)
      modifies this
      ensures Snapshot() == old(Snapshot()).(pitch := pitch')
    {
      pitch := pitch';
    }

    method SetYaw(yaw': Float32Bits)
      modifies this
      ensures Snapshot() == old(Snapshot()).(yaw := yaw')
    {
      yaw := yaw';
    }

    /** A packet's `WriteTo` on the player's connection. */
    method Send(pkt: Packet)
      modifies this
      ensures Snapshot() == old(Snapshot()).(outbox := old(outbox) + [pkt])
    {
      outbox := outbox + [pkt];
    }

    /** `SendMessage`: writes one chat packet to the player's connection. */
    method SendMessage(message: string)
      modifies this
      ensures Snapshot() == old(Snapshot()).(outbox := old(outbox) + [Chat(message)])
    {
      Send(Chat(message));
    }

    /**
     * `BroadcastMessage`: sends `message` to every ready player of
     * `toList` except the one bearing this player's name. The list is
     * keyed by player name, as the player list's `Copy` returns it, so
     * each player on it is visited once.
     */
    method BroadcastMessage(toList: map<string, Player>, message: string)
      requires forall k | k in toList :: toList[k].name == k
      modifies toList.Values
      ensures forall p | p in toList.Values :: p.Snapshot() == DeliverFrom(old(p.Snapshot()), old(name), Chat(message))
    {
      ghost var before := map p | p in toList.Values :: p.Snapshot();
      var sender := name;
      var todo := toList.Values;
      while todo != {}
        invariant todo <= toList.Values
        invariant forall p | p in toList.Values ::
          p.Snapshot() == if p in todo then before[p] else DeliverFrom(before[p], sender, Chat(message))
        decreases todo
      {
        var to :| to in todo;
        assert to.Snapshot() == before[to];
        if to.ready && to.name != sender {
          to.SendMessage(message);
        }
        assert to.Snapshot() == DeliverFrom(before[to], sender, Chat(message));
        todo := todo - {to};
      }
    }

    /** `Tick`: a keep-alive with a random id (a parameter here) on every multiple of 1000 ticks. */
    method Tick(t: Int64, randomId: Int32)
      modifies this
      ensures Snapshot() == old(Snapshot()).(outbox := old(outbox) + if SendsKeepAlive(t) then [KeepAlive(randomId)] else [])
    {
      if t % KeepAlivePeriod == 0 {
        Send(KeepAlive(randomId));
      }
    }

    /** `Destroy`: gives the player's entity id back to `gen`; `panicked` when its queue is full. */
    method Destroy(gen: Ids.Generator) returns (panicked: bool)
      requires gen.Valid()
      modifies gen
      ensures gen.Valid()
      ensures Ids.Release(old(gen.Snapshot()), eid) == if panicked then None else Some(gen.Snapshot())
    {
      panicked := gen.Rel(eid);
    }
  }

  /** A player's state after a broadcast of `pkt` to ready players. */
  function Deliver(st: State, pkt: Packet): (r: State)
    ensures r.ready == st.ready && r.name == st.name
  {
    st.(outbox := st.outbox + if st.ready then [pkt] else [])
  }

  /** A player's state after `sender` broadcasts `pkt`: the sender itself is skipped. */
  function DeliverFrom(st: State, sender: string, pkt: Packet): (r: State)
    ensures r.ready == st.ready && r.name == st.name
  {
    if st.name == sender then st else Deliver(st, pkt)
  }

  /**
   * Whether `Tick(t)` sends a keep-alive. Go's `%` truncates, but a zero
   * remainder means the same under either convention.
   */
  predicate SendsKeepAlive(t: int)
  {
    t % KeepAlivePeriod == 0
  }

  /** Keep-alives go out exactly on multiples of 1000 ticks, i.e. once every 50 seconds. */
  lemma KeepAliveSchedule(t: int)
    ensures KeepAlivePeriod == 1000
    ensures SendsKeepAlive(t) <==> exists q :: t == 1000 * q
    ensures SendsKeepAlive(t) ==> SendsKeepAlive(t + 1000) && !SendsKeepAlive(t + 1)
  {
    if SendsKeepAlive(t) {
      assert t == 1000 * (t / 1000);
    }
  }

  /** A player who creates and then destroys itself hands its id back: the generator's next id is it. */
  lemma NewThenDestroyReuses(p: Ids.Pool)
    requires p.free == []
    ensures var (id, q) := Ids.Take(p);
      Ids.Release(q, id).Some? && Ids.Take(Ids.Release(q, id).value).0 == id
  {
    var (id, q) := Ids.Take(p);
    assert q.free == [];
    Ids.ReleaseThenTake(q, id);
  }
}
