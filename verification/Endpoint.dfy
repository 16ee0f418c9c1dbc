/** The collective and endpoint objects: two-level buffering performed in place. */
module EndpointObjects {
  import opened Wrappers
  import opened Delivery

  class Collective<D> {
    const id: CollectiveId
    const me: Pe
    const mapper: Mapper
    var chares: set<Index>
    var buffers: map<Index, seq<Message<D>>>
    /** Logs of the entry methods run and of the messages handed to the network. */
    var calls: seq<Message<D>>
    var sent: seq<Packet<D>>

    function Value(): Local<D>
      reads this
    {
      Local(chares, buffers, calls, sent)
    }

    /** Only messages that wait for the construction of a chare at home here are held. */
    ghost predicate Valid()
      reads this
    {
      forall i, m :: i in buffers && m in buffers[i] ==> For(m, id, i) && !m.isConstructor && mapper(id, i) == me
    }

    constructor (mapper: Mapper, me: Pe, id: CollectiveId)
      ensures this.id == id && this.mapper == mapper && this.me == me
      ensures Valid() && Value() == InitLocal()
    {
      this.mapper, this.me, this.id := mapper, me, id;
      chares, buffers, calls, sent := {}, map[], [], [];
    }

    method FlushBuffers(i: Index)
      requires Valid() && i in chares
      modifies this
      ensures Valid() && Value() == Flush(old(Value()), i)
      decreases 1
    {
      if i !in buffers {
        return;
      }
      ghost var n := 0;
      while buffers[i] != []
        invariant Valid() && i in chares && i in buffers && n <= |old(buffers)[i]|
        invariant buffers[i] == old(buffers)[i][n..]
        invariant Value() == old(Value()).(calls := old(calls) + old(buffers)[i][..n],
                                           buffers := old(buffers)[i := old(buffers)[i][n..]])
        decreases |buffers[i]|
      {
        var msg := buffers[i][0];
        var delivered := TryToDeliver(msg);
        if !delivered {
          break;
        }
        assert old(buffers)[i][..n] + [msg] == old(buffers)[i][..n + 1];
        n := n + 1;
        buffers := buffers[i := buffers[i][1..]];
      }
      assert old(buffers)[i][..n] == old(buffers)[i];
    }

    /** Runs the message, routes it to its home, or says that it has to wait. */
    method TryToDeliver(msg: Message<D>) returns (delivered: bool)
      requires Valid() && msg.collective == id
      modifies this
      ensures Valid()
      ensures TryDeliver(mapper, me, old(Value()), msg) == if delivered then Some(Value()) else None
      ensures !delivered ==> Value() == old(Value())
      ensures !msg.isConstructor && msg.chare in old(chares) ==>
                delivered && Value() == old(Value()).(calls := old(calls) + [msg])
      decreases if msg.isConstructor then 2 else 0
    {
      var pe := mapper(id, msg.chare);
      if msg.isConstructor && pe == me {
        chares := chares + {msg.chare};
        calls := calls + [msg];
        FlushBuffers(msg.chare);
      } else if msg.chare in chares {
        calls := calls + [msg];
      } else if pe == me {
        return false;
      } else {
        sent := sent + [Packet(pe, msg)];
      }
      return true;
    }

    method DeliverMessage(msg: Message<D>, immediate: bool)
      requires Valid() && msg.collective == id
      modifies this
      ensures Valid() && Value() == Deliver(mapper, me, old(Value()), msg, immediate)
    {
      if immediate {
        var delivered := TryToDeliver(msg);
        if !delivered {
          buffers := buffers[msg.chare := Buffered(buffers, msg.chare) + [msg]];
        }
      } else {
        sent := sent + [Packet(mapper(id, msg.chare), msg)];
      }
    }
  }

  class ProcessingElement<D> {
    const me: Pe
    const mapper: Mapper
    var table: map<CollectiveId, Collective<D>>
    var waiting: map<CollectiveId, seq<Message<D>>>

    ghost function Objects(): set<Collective<D>>
      reads this
    {
      set c | c in table :: table[c]
    }

    ghost function Value(): State<D>
      reads this, Objects()
    {
      State(map c | c in table :: table[c].Value(), waiting)
    }

    ghost predicate Valid()
      reads this, Objects()
    {
      && (forall c :: c in table ==>
            table[c].id == c && table[c].me == me && table[c].mapper == mapper && table[c].Valid())
      && (forall c, m :: c in waiting && m in waiting[c] ==> m.collective == c)
    }

    constructor (mapper: Mapper, me: Pe)
      ensures this.mapper == mapper && this.me == me
      ensures Valid() && Value() == State(map[], map[]) && Objects() == {}
    {
      this.mapper, this.me := mapper, me;
      table, waiting := map[], map[];
    }

    /** Gives a new collective everything that waited for it. */
    method GiveWaiting(obj: Collective<D>, c: CollectiveId)
      requires obj.Valid() && obj.id == c && obj.me == me && obj.mapper == mapper && c in waiting
      requires forall m :: m in waiting[c] ==> m.collective == c
      modifies this`waiting, obj
      ensures obj.Valid() && obj.Value() == DeliverAll(mapper, me, old(obj.Value()), old(waiting)[c])
      ensures waiting == old(waiting)[c := []]
    {
      ghost var n := 0;
      while waiting[c] != []
        invariant c in waiting && n <= |old(waiting)[c]|
        invariant waiting == old(waiting)[c := old(waiting)[c][n..]]
        invariant obj.Valid() && obj.Value() == DeliverAll(mapper, me, old(obj.Value()), old(waiting)[c][..n])
        decreases |waiting[c]|
      {
        var msg := waiting[c][0];
        waiting := waiting[c := waiting[c][1..]];
        obj.DeliverMessage(msg, true);
        assert old(waiting)[c][..n + 1][..n] == old(waiting)[c][..n];
        n := n + 1;
      }
      assert old(waiting)[c][..n] == old(waiting)[c];
    }

    /** A message that creates a collective here. */
    method CreateCollective(c: CollectiveId)
      requires Valid() && c !in table
      modifies this
      ensures Valid() && fresh(Objects() - old(Objects()))
      ensures Value() == Create(mapper, me, old(Value()), c)
    {
      var obj := new Collective<D>(mapper, me, c);
      table := table[c := obj];
      if c in waiting {
        GiveWaiting(obj, c);
      }
      assert Value().table == Create(mapper, me, old(Value()), c).table;
    }

    /** Any other message for an endpoint of a collective. */
    method DeliverToEndpoint(msg: Message<D>, immediate: bool)
      requires Valid()
      modifies this, Objects()
      ensures Valid() && Objects() == old(Objects())
      ensures Value() == Delivery.Endpoint(mapper, me, old(Value()), msg, immediate)
    {
      var c := msg.collective;
      if c in table {
        table[c].DeliverMessage(msg, immediate);
        assert forall d :: d in table && d != c ==> table[d] != table[c];
        assert Value().table == Delivery.Endpoint(mapper, me, old(Value()), msg, immediate).table;
      } else {
        waiting := waiting[c := Buffered(waiting, c) + [msg]];
      }
    }
  }
}
