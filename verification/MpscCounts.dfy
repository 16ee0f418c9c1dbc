/** What holds of the queue for every number of slots: the counters, and how many
    values there can be to take.  Which slot a ticket is sent to plays no part. */
module MpscCounts {
  import opened MpscQueue
  import opened MpscProof
  import opened Modulo

  /** The producers that have a ticket and have not yet written to their slot. */
  ghost function Unwritten(qs: seq<Producer>): nat
  {
    if qs == [] then 0
    else Unwritten(qs[..|qs| - 1]) + if Early(qs[|qs| - 1]) then 1 else 0
  }

  ghost predicate Early(q: Producer)
  {
    q.Waiting? || q.Locked?
  }

  lemma {:induction false} UnwrittenUpdate(qs: seq<Producer>, p: nat, q: Producer)
    requires p < |qs|
    ensures Unwritten(qs[p := q]) == Unwritten(qs) - (if Early(qs[p]) then 1 else 0) + if Early(q) then 1 else 0
  {
    var l := |qs| - 1;
    if p == l {
      assert qs[p := q][..l] == qs[..l];
    } else {
      assert qs[p := q][..l] == qs[..l][p := q];
      UnwrittenUpdate(qs[..l], p, q);
    }
  }

  /** The slots with a value. */
  ghost function Filled(slots: seq<Slot>): nat
  {
    if slots == [] then 0
    else Filled(slots[..|slots| - 1]) + if slots[|slots| - 1].has then 1 else 0
  }

  lemma {:induction false} FilledUpdate(slots: seq<Slot>, j: nat, slot: Slot)
    requires j < |slots|
    ensures Filled(slots[j := slot]) == Filled(slots) - (if slots[j].has then 1 else 0) + if slot.has then 1 else 0
  {
    var l := |slots| - 1;
    if j == l {
      assert slots[j := slot][..l] == slots[..l];
    } else {
      assert slots[j := slot][..l] == slots[..l][j := slot];
      FilledUpdate(slots[..l], j, slot);
    }
  }

  lemma {:induction false} FilledSome(slots: seq<Slot>, j: nat)
    requires j < |slots| && slots[j].has
    ensures Filled(slots) > 0
  {
    FilledUpdate(slots, j, slots[j].(has := false));
  }

  ghost predicate CountOk(cfg: Config, s: State)
  {
    && s.count == Count(s.producers, false) + Count(s.producers, true) + |s.tickets| - s.taken
    && Count(s.producers, true) + |s.tickets| - s.taken <= cfg.n
  }

  /** A value can be taken only after a ticket for it was drawn. */
  ghost predicate TakenOk(s: State)
  {
    && s.taken + (if Cleared(s.consumer) then 1 else 0) + Filled(s.slots) + Unwritten(s.producers) <= |s.tickets|
    && |s.out| == s.taken + (if TakenOut(s.consumer) then 1 else 0)
    && (s.consumer == CFound || s.consumer == CCopied ==> s.tail < |s.slots| && s.slots[s.tail].has)
  }

  ghost predicate Counted(cfg: Config, s: State)
  {
    && cfg.Valid() && Shape(cfg, s) && CountOk(cfg, s) && TakenOk(s)
    && forall p :: 0 <= p < cfg.p && HasTicket(s.producers[p]) ==> s.producers[p].t < |s.tickets|
  }

  lemma {:induction false} TakenFits(cfg: Config, s: State)
    requires Counted(cfg, s)
    ensures s.taken <= |s.out| <= |s.tickets| && s.count < cfg.w
  {
    CountBound(s.producers);
    if s.consumer == CCopied { FilledSome(s.slots, s.tail); }
  }

  lemma {:induction false} InitCounted(cfg: Config)
    requires cfg.Valid()
    ensures Counted(cfg, Init(cfg))
  {
    NoneYet(cfg.p);
    NoneUnwritten(cfg.p);
    NoneFilled(cfg.n);
  }

  lemma {:induction false} NoneUnwritten(p: nat)
    ensures Unwritten(seq(p, i => Idle)) == 0
  {
    if p > 0 {
      assert seq(p, i => Idle)[..p - 1] == seq(p - 1, i => Idle);
      NoneUnwritten(p - 1);
    }
  }

  lemma {:induction false} NoneFilled(n: nat)
    ensures Filled(seq(n, i => Slot(false, false, 0))) == 0
  {
    if n > 0 {
      assert seq(n, i => Slot(false, false, 0))[..n - 1] == seq(n - 1, i => Slot(false, false, 0));
      NoneFilled(n - 1);
    }
  }

  lemma {:induction false} EnterCounted(cfg: Config, s: State, p: nat, v: Value)
    requires Counted(cfg, s) && Enabled(cfg, s, Produce(p, v)) && s.producers[p].Idle?
    ensures Counted(cfg, Produced(cfg, s, p, v))
  {
    var q := Produced(cfg, s, p, v).producers[p];
    CountUpdate(s.producers, p, q, true);
    CountUpdate(s.producers, p, q, false);
    UnwrittenUpdate(s.producers, p, q);
    TakenFits(cfg, s);
    CountBound(s.producers[p := q]);
    Successor(s.count, cfg.w);
  }

  lemma {:induction false} RefusedCounted(cfg: Config, s: State, p: nat, v: Value)
    requires Counted(cfg, s) && Enabled(cfg, s, Produce(p, v)) && s.producers[p].Refused?
    ensures Counted(cfg, Produced(cfg, s, p, v))
  {
    CountUpdate(s.producers, p, Idle, true);
    CountUpdate(s.producers, p, Idle, false);
    UnwrittenUpdate(s.producers, p, Idle);
    TakenFits(cfg, s);
    Decrement(s.count, cfg.w);
  }

  lemma {:induction false} DrawCounted(cfg: Config, s: State, p: nat, v: Value)
    requires Counted(cfg, s) && Enabled(cfg, s, Produce(p, v)) && s.producers[p].Reserved?
    ensures Counted(cfg, Produced(cfg, s, p, v))
  {
    var q := Produced(cfg, s, p, v).producers[p];
    CountUpdate(s.producers, p, q, true);
    CountUpdate(s.producers, p, q, false);
    UnwrittenUpdate(s.producers, p, q);
  }

  /** A producer with a ticket moves on and updates slot `j`. */
  lemma {:induction false} MovedCounted(cfg: Config, s: State, s': State, p: nat, j: nat)
    requires Counted(cfg, s) && Shape(cfg, s') && p < cfg.p && j < cfg.n && HasTicket(s.producers[p])
    requires s'.count == s.count && s'.consumer == s.consumer && s'.out == s.out && s'.taken == s.taken
    requires s'.tail == s.tail
    requires |s'.tickets| == |s.tickets|
    requires s'.producers == s.producers[p := s'.producers[p]] && s'.slots == s.slots[j := s'.slots[j]]
    requires s'.producers[p].Idle? || (HasTicket(s'.producers[p]) && s'.producers[p].t == s.producers[p].t)
    requires s'.slots[j].has == (s.slots[j].has || s.producers[p].Locked?)
    requires Early(s'.producers[p]) == s.producers[p].Waiting?
    ensures Counted(cfg, s')
  {
    CountUpdate(s.producers, p, s'.producers[p], true);
    CountUpdate(s.producers, p, s'.producers[p], false);
    UnwrittenUpdate(s.producers, p, s'.producers[p]);
    FilledUpdate(s.slots, j, s'.slots[j]);
  }

  lemma {:induction false} TicketCounted(cfg: Config, s: State, p: nat, v: Value)
    requires Counted(cfg, s) && Enabled(cfg, s, Produce(p, v)) && HasTicket(s.producers[p])
    ensures Counted(cfg, Produced(cfg, s, p, v))
  {
    var s' := Produced(cfg, s, p, v);
    if s'.producers != s.producers {
      MovedCounted(cfg, s, s', p, s.producers[p].slot);
    }
  }

  /** A step of the consumer on its slot, whether or not it clears it. */
  lemma {:induction false} SlotCounted(cfg: Config, s: State)
    requires Counted(cfg, s) && Enabled(cfg, s, Consume)
    requires s.consumer == CIdle || s.consumer == CCopied || s.consumer == CCleared || s.consumer == CMissed
    ensures Counted(cfg, Consumed(cfg, s))
  {
    FilledUpdate(s.slots, s.tail, Consumed(cfg, s).slots[s.tail]);
  }

  lemma {:induction false} UncountCounted(cfg: Config, s: State)
    requires Counted(cfg, s) && Enabled(cfg, s, Consume) && s.consumer == CAdvanced
    ensures Counted(cfg, Consumed(cfg, s))
  {
    TakenFits(cfg, s);
    Decrement(s.count, cfg.w);
  }

  lemma {:induction false} ConsumeCounted(cfg: Config, s: State)
    requires Counted(cfg, s) && Enabled(cfg, s, Consume)
    ensures Counted(cfg, Consumed(cfg, s))
  {
    match s.consumer
    case CIdle => SlotCounted(cfg, s);
    case CCopied => SlotCounted(cfg, s);
    case CCleared => SlotCounted(cfg, s);
    case CMissed => SlotCounted(cfg, s);
    case CAdvanced => UncountCounted(cfg, s);
    case _ =>
  }

  lemma {:induction false} NextCounted(cfg: Config, s: State, st: Step)
    requires Counted(cfg, s) && Enabled(cfg, s, st)
    ensures Counted(cfg, Next(cfg, s, st))
  {
    match st
    case Consume => ConsumeCounted(cfg, s);
    case Produce(p, v) =>
      if s.producers[p].Idle? { EnterCounted(cfg, s, p, v); }
      else if s.producers[p].Refused? { RefusedCounted(cfg, s, p, v); }
      else if s.producers[p].Reserved? { DrawCounted(cfg, s, p, v); }
      else { TicketCounted(cfg, s, p, v); }
  }

  lemma {:induction false} RunCounted(cfg: Config, run: seq<Step>)
    requires cfg.Valid() && IsRun(cfg, run)
    ensures Counted(cfg, After(cfg, run))
    decreases |run|
  {
    if run == [] {
      InitCounted(cfg);
    } else {
      RunCounted(cfg, run[..|run| - 1]);
      NextCounted(cfg, After(cfg, run[..|run| - 1]), run[|run| - 1]);
    }
  }
}
