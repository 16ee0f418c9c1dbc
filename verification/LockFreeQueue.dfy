/** The bounded queue object.  Its methods are performed in place, undisturbed, and
    each is a run of the steps of module `MpscQueue`; what they promise holds in any
    queue that any run has left at rest. */
module LockFreeQueueObject {
  import opened MpscQueue
  import opened MpscProof
  import opened MpscResults
  import opened MpscCalls
  import opened MpscSteps
  import opened Modulo

  class LockFreeQueue {
    const cfg: Config
    var head: nat
    var count: nat
    var tail: nat
    const data: array<Slot>
    /** The steps of all calls so far. */
    ghost var run: seq<Step>

    ghost predicate Valid()
      reads this, data
    {
      && Resting(cfg, run) && data.Length == cfg.n
      && var s := After(cfg, run);
         s.head == head && s.count == count && s.tail == tail && s.slots == data[..]
    }

    ghost function Contents(): seq<Value>
      requires Valid()
      reads this, data
    {
      var s := After(cfg, run);
      if Consistent(s) then MpscQueue.Contents(s) else []
    }

    constructor (cfg: Config)
      requires cfg.Valid() && cfg.w % cfg.n == 0
      ensures this.cfg == cfg && Valid() && Contents() == []
    {
      this.cfg := cfg;
      head, count, tail := 0, 0, 0;
      data := new Slot[cfg.n](i => Slot(false, false, 0));
      run := [];
    }

    /** Attaches to a queue that any run has left at rest. */
    constructor Attach(cfg: Config, head: nat, count: nat, tail: nat, slots: seq<Slot>, ghost run: seq<Step>)
      requires Resting(cfg, run) && |slots| == cfg.n
      requires var s := After(cfg, run); s.head == head && s.count == count && s.tail == tail && s.slots == slots
      ensures this.cfg == cfg && Valid() && this.run == run
    {
      this.cfg, this.head, this.count, this.tail, this.run := cfg, head, count, tail, run;
      data := new Slot[cfg.n](i requires 0 <= i < |slots| => slots[i]);
      new;
      assert data[..] == slots;
    }

    /** `node::acquire`. */
    method Acquire(j: nat) returns (acquired: bool)
      requires j < data.Length
      modifies data
      ensures acquired == !old(data[j]).locked && data[..] == old(data[..])[j := old(data[j]).(locked := true)]
    {
      acquired := !data[j].locked;
      data[j] := data[j].(locked := true);
    }

    /** `node::release`. */
    method Release(j: nat) returns (released: bool)
      requires j < data.Length
      modifies data
      ensures released == old(data[j]).locked && data[..] == old(data[..])[j := old(data[j]).(locked := false)]
    {
      released := data[j].locked;
      data[j] := data[j].(locked := false);
    }

    /** The spinning loop, on a slot that nobody holds. */
    method AcquireFree(j: nat)
      requires j < data.Length && !data[j].locked
      modifies data
      ensures data[..] == old(data[..])[j := old(data[j]).(locked := true)]
    {
      var acquired := false;
      while !acquired
        invariant data[..] == if acquired then old(data[..])[j := old(data[j]).(locked := true)] else old(data[..])
        decreases !acquired
      {
        acquired := Acquire(j);
      }
    }

    /** Writes a value into an empty slot, under its lock. */
    method WriteSlot(j: nat, value: Value)
      requires j < data.Length && !data[j].locked && !data[j].has
      modifies data
      ensures data[..] == old(data[..])[j := Slot(false, true, value)]
    {
      AcquireFree(j);
      var setValue := data[j].has;
      data[j] := data[j].(has := true);
      data[j] := data[j].(value := value);
      assert !setValue;
      var released := Release(j);
      assert released;
    }

    /** Takes the value out of a slot, if it has one, under its lock. */
    method ReadSlot(j: nat) returns (found: bool, result: Value)
      requires j < data.Length && !data[j].locked
      modifies data
      ensures found == old(data[j]).has && result == old(data[j]).value
      ensures data[..] == old(data[..])[j := Slot(false, false, result)]
    {
      AcquireFree(j);
      found, result := data[j].has, data[j].value;
      if found {
        data[j] := data[j].(has := false);
      }
      var released := Release(j);
      assert released;
    }

    /** Reserves a place and draws a ticket for it, unless the queue is full; `slot` is
        the ticket's slot and `next` the next ticket. */
    method TakeTicket(ghost slot: nat, ghost next: nat) returns (ok: bool, h: nat)
      requires cfg.Valid() && head < cfg.w && count <= cfg.n && slot == head % cfg.n && next == (head + 1) % cfg.w
      modifies this`head, this`count
      ensures ok == (old(count) < cfg.n) && (ok ==> h == slot)
      ensures count == (if ok then old(count) + 1 else old(count)) && head == (if ok then next else old(head))
    {
      var size := count;
      count := (count + 1) % cfg.w;
      Successor(size, cfg.w);
      if size >= cfg.n {
        count := (count + cfg.w - 1) % cfg.w;
        Back(size, cfg.w);
        return false, 0;
      }
      ok, h := true, head % cfg.n;
      head := (head + 1) % cfg.w;
    }

    /** Appends the value unless the queue is full. */
    method Enqueue(p: nat, value: Value) returns (ok: bool)
      requires Valid() && p < cfg.p
      modifies this, data
      ensures Valid() && Call(old(run), run, Produce(p, value))
      ensures ok == (|old(Contents())| < cfg.n)
      ensures Contents() == if ok then old(Contents()) + [value] else old(Contents())
    {
      ghost var slot, next := head % cfg.n, (head + 1) % cfg.w;
      ghost var r := EnqueueMemory(cfg, run, p, value, slot, next);
      var h;
      ok, h := TakeTicket(slot, next);
      if ok {
        WriteSlot(h, value);
      }
      run := r;
    }

    /** Yields the oldest value unless the queue is empty. */
    method Dequeue() returns (found: bool, result: Value)
      requires Valid()
      modifies this, data
      ensures Valid() && Call(old(run), run, Consume)
      ensures found == (old(Contents()) != [])
      ensures if found then old(Contents()) == [result] + Contents() else Contents() == old(Contents())
    {
      RestContents(cfg, run);
      OldestValue(cfg, run);
      ghost var r := DequeueEffect(cfg, run);
      found, result := ReadSlot(tail);
      if found {
        Uncount();
      } else {
        assert data[..] == After(cfg, run).slots;
      }
      run := r;
    }

    /** The end of a successful `dequeue`. */
    method Uncount()
      requires tail < cfg.n && 0 < count < cfg.w
      modifies this`tail, this`count
      ensures tail == if old(tail) + 1 >= cfg.n then 0 else old(tail) + 1
      ensures count == old(count) - 1
    {
      tail := tail + 1;
      if tail >= cfg.n {
        tail := 0;
      }
      var last := count;
      Decrement(last, cfg.w);
      count := (count + cfg.w - 1) % cfg.w;
      assert last > 0;
    }
  }
}
