/** Calls that no other thread disturbs, on a queue that any run has left at rest. */
module MpscCalls {
  import opened MpscQueue
  import opened MpscProof
  import opened MpscResults
  import opened MpscSteps
  import opened Modulo

  ghost predicate Resting(cfg: Config, run: seq<Step>)
  {
    cfg.Valid() && cfg.w % cfg.n == 0 && IsRun(cfg, run) && AtRest(After(cfg, run))
  }

  lemma {:induction false} RestFacts(cfg: Config, run: seq<Step>)
    requires Resting(cfg, run)
    ensures var s := After(cfg, run);
      && |s.out| == s.taken <= |s.tickets| && s.tail == s.taken % cfg.n && Shape(cfg, s) && !s.failed
      && s.count == |s.tickets| - s.taken <= cfg.n && s.head == |s.tickets| % cfg.w < cfg.w
    ensures var s := After(cfg, run);
      s.count < cfg.n ==> !s.slots[s.head % cfg.n].locked && !s.slots[s.head % cfg.n].has
    ensures var s := After(cfg, run);
      !s.slots[s.tail].locked && s.slots[s.tail].has == (s.taken < |s.tickets|)
    ensures var s := After(cfg, run);
      s.taken < |s.tickets| ==> s.slots[s.tail].value == s.tickets[s.taken].value
  {
    var s := After(cfg, run);
    RunInv(cfg, run);
    NoCounts(s.producers);
    Nested(|s.tickets|, cfg.w, cfg.n);
    assert SlotOk(cfg, s, s.taken);
    if s.count < cfg.n { assert SlotOk(cfg, s, |s.tickets|); }
    if s.taken < |s.tickets| { assert TicketOk(cfg, s, s.taken); }
  }

  /** There is a free slot for the next ticket. */
  lemma {:induction false} HasRoom(cfg: Config, run: seq<Step>, p: nat)
    requires Resting(cfg, run) && p < cfg.p && After(cfg, run).count < cfg.n
    ensures var s := After(cfg, run);
      MayEnter(cfg, s, p) && !s.failed && !s.slots[s.head % cfg.n].has
  {
    RestFacts(cfg, run);
  }

  ghost predicate Consistent(s: State)
  {
    |s.out| <= |s.tickets|
  }

  lemma {:induction false} EnqueuedContents(cfg: Config, s: State, p: nat, v: Value)
    requires Shape(cfg, s) && cfg.n > 0 && cfg.w > 0 && p < cfg.p && Consistent(s)
    ensures Contents(Enqueued(cfg, s, p, v)) == Contents(s) + [v]
  {
    var t := Enqueued(cfg, s, p, v);
    assert t.tickets[|t.out|..] == s.tickets[|s.out|..] + [Ticket(p, v, Done)];
    assert Contents(t) == Contents(s) + [v];
  }

  lemma {:induction false} DequeuedContents(cfg: Config, s: State)
    requires Shape(cfg, s) && cfg.n > 0 && s.count > 0 && |s.out| < |s.tickets|
    requires s.slots[s.tail].value == s.tickets[|s.out|].value
    ensures Contents(s) == [s.slots[s.tail].value] + Contents(Dequeued(cfg, s))
  {
    var t := Dequeued(cfg, s);
    assert s.tickets[|s.out|..] == [s.tickets[|s.out|]] + t.tickets[|t.out|..];
    assert Contents(s) == [s.slots[s.tail].value] + Contents(t);
  }

  lemma {:induction false} RestContents(cfg: Config, run: seq<Step>)
    requires Resting(cfg, run)
    ensures var s := After(cfg, run);
      && Consistent(s) && Shape(cfg, s) && s.count == |Contents(s)| <= cfg.n && s.head < cfg.w && s.count < cfg.w
      && !s.failed
  {
    RestFacts(cfg, run);
  }

  lemma {:induction false} EnqueueRoom(cfg: Config, run: seq<Step>, p: nat, v: Value) returns (r: seq<Step>)
    requires Resting(cfg, run) && p < cfg.p && After(cfg, run).count < cfg.n
    ensures Resting(cfg, r) && Call(run, r, Produce(p, v)) && Shape(cfg, After(cfg, run))
    ensures After(cfg, r) == Enqueued(cfg, After(cfg, run), p, v)
  {
    var s := After(cfg, run);
    HasRoom(cfg, run, p);
    EnqueueSteps(cfg, s, p, v);
    r := StepsRun(cfg, run, run, Produce(p, v), 6, Enqueued(cfg, s, p, v));
  }

  lemma {:induction false} EnqueueFull(cfg: Config, run: seq<Step>, p: nat, v: Value) returns (r: seq<Step>)
    requires Resting(cfg, run) && p < cfg.p && After(cfg, run).count >= cfg.n
    ensures Resting(cfg, r) && Call(run, r, Produce(p, v)) && After(cfg, r) == After(cfg, run)
  {
    var s := After(cfg, run);
    RestContents(cfg, run);
    assert s.producers[p].Idle?;
    RefusedSteps(cfg, s, p, v);
    r := StepsRun(cfg, run, run, Produce(p, v), 2, s);
  }

  /** `enqueue` on a queue at rest: refused exactly when the queue is full. */
  lemma {:induction false} EnqueueEffect(cfg: Config, run: seq<Step>, p: nat, v: Value) returns (r: seq<Step>)
    requires Resting(cfg, run) && p < cfg.p
    ensures Resting(cfg, r) && Call(run, r, Produce(p, v))
    ensures var s := After(cfg, run);
      Shape(cfg, s) && Consistent(s) &&
      After(cfg, r) == if |Contents(s)| < cfg.n then Enqueued(cfg, s, p, v) else s
    ensures Consistent(After(cfg, r))
    ensures var s := After(cfg, run);
      Contents(After(cfg, r)) == if |Contents(s)| < cfg.n then Contents(s) + [v] else Contents(s)
  {
    RestContents(cfg, run);
    if After(cfg, run).count < cfg.n {
      r := EnqueueRoom(cfg, run, p, v);
      EnqueuedContents(cfg, After(cfg, run), p, v);
    } else {
      r := EnqueueFull(cfg, run, p, v);
    }
  }

  /** What an `enqueue` that is not refused finds in the memory and leaves there; `slot`
      is its ticket's slot and `next` the next ticket. */
  ghost predicate Stores(s: State, v: Value, slot: nat, next: nat, t: State)
  {
    && slot < |s.slots| && !s.slots[slot].locked && !s.slots[slot].has
    && t.count == s.count + 1 && t.head == next && t.tail == s.tail
    && t.slots == s.slots[slot := Slot(false, true, v)]
  }

  lemma {:induction false} EnqueuedStores(cfg: Config, s: State, p: nat, v: Value, slot: nat, next: nat)
    requires MayEnter(cfg, s, p) && !s.slots[s.head % cfg.n].has && Consistent(s)
    requires slot == s.head % cfg.n && next == (s.head + 1) % cfg.w
    ensures var t := Enqueued(cfg, s, p, v);
      Stores(s, v, slot, next, t) && Consistent(t) && Contents(t) == Contents(s) + [v]
  {
    EnqueuedContents(cfg, s, p, v);
  }

  /** `enqueue` on a queue at rest, as far as the memory shows it. */
  lemma {:induction false} EnqueueMemory(cfg: Config, run: seq<Step>, p: nat, v: Value, slot: nat, next: nat)
    returns (r: seq<Step>)
    requires Resting(cfg, run) && p < cfg.p
    requires slot == After(cfg, run).head % cfg.n && next == (After(cfg, run).head + 1) % cfg.w
    ensures Resting(cfg, r) && Call(run, r, Produce(p, v)) && Consistent(After(cfg, run)) && Consistent(After(cfg, r))
    ensures var s := After(cfg, run);
      Shape(cfg, s) && s.count == |Contents(s)| <= cfg.n && s.head < cfg.w
    ensures var s, t := After(cfg, run), After(cfg, r);
      if s.count < cfg.n then Stores(s, v, slot, next, t) && Contents(t) == Contents(s) + [v] else t == s
  {
    RestContents(cfg, run);
    if After(cfg, run).count < cfg.n {
      r := EnqueueRoom(cfg, run, p, v);
      assert Stores(After(cfg, run), v, slot, next, After(cfg, r)) && Consistent(After(cfg, r))
        && Contents(After(cfg, r)) == Contents(After(cfg, run)) + [v] by {
        HasRoom(cfg, run, p);
        EnqueuedStores(cfg, After(cfg, run), p, v, slot, next);
      }
    } else {
      r := EnqueueFull(cfg, run, p, v);
    }
  }

  lemma {:induction false} OldestValue(cfg: Config, run: seq<Step>)
    requires Resting(cfg, run)
    ensures var s := After(cfg, run);
      Shape(cfg, s) && Consistent(s) && !s.slots[s.tail].locked && s.slots[s.tail].has == (Contents(s) != [])
      && (Contents(s) != [] ==> |s.out| < |s.tickets| && s.slots[s.tail].value == s.tickets[|s.out|].value)
  {
    RestFacts(cfg, run);
  }

  /** `dequeue` on a queue at rest: it misses exactly when the queue is empty. */
  lemma {:induction false} DequeueEffect(cfg: Config, run: seq<Step>) returns (r: seq<Step>)
    requires Resting(cfg, run)
    ensures Resting(cfg, r) && Call(run, r, Consume)
    ensures var s := After(cfg, run);
      Shape(cfg, s) && Consistent(s) && (Contents(s) != [] <==> s.count > 0) &&
      After(cfg, r) == if s.count > 0 then Dequeued(cfg, s) else s
    ensures Consistent(After(cfg, r))
    ensures var s := After(cfg, run);
      Contents(s) == if s.count > 0 then [s.slots[s.tail].value] + Contents(After(cfg, r)) else Contents(After(cfg, r))
  {
    RestContents(cfg, run);
    OldestValue(cfg, run);
    var s := After(cfg, run);
    if s.count > 0 {
      DequeueSteps(cfg, s);
      r := StepsRun(cfg, run, run, Consume, 7, Dequeued(cfg, s));
      DequeuedContents(cfg, s);
    } else {
      MissSteps(cfg, s);
      r := StepsRun(cfg, run, run, Consume, 3, s);
    }
  }
}
