/** The queue never overwrites, is FIFO by ticket, and does so exactly when the
    number of slots divides the number of values of a machine word. */
module MpscProof {
  import opened MpscQueue
  import opened Modulo

  // ---------------------------------------------------------------- the invariant

  ghost function Count(qs: seq<Producer>, reserved: bool): nat
  {
    if qs == [] then 0
    else Count(qs[..|qs| - 1], reserved) +
         if (if reserved then qs[|qs| - 1].Reserved? else qs[|qs| - 1].Refused?) then 1 else 0
  }

  ghost function One(q: Producer, reserved: bool): int
  {
    if (if reserved then q.Reserved? else q.Refused?) then 1 else 0
  }

  lemma {:induction false} CountUpdate(qs: seq<Producer>, p: nat, q: Producer, reserved: bool)
    requires p < |qs|
    ensures Count(qs[p := q], reserved) == Count(qs, reserved) - One(qs[p], reserved) + One(q, reserved)
  {
    var l := |qs| - 1;
    if p == l {
      assert qs[p := q][..l] == qs[..l];
    } else {
      assert qs[p := q][..l] == qs[..l][p := q];
      CountUpdate(qs[..l], p, q, reserved);
    }
  }

  lemma {:induction false} CountBound(qs: seq<Producer>)
    ensures Count(qs, true) + Count(qs, false) <= |qs|
  {
    if qs != [] { CountBound(qs[..|qs| - 1]); }
  }

  ghost predicate HasTicket(q: Producer) { !q.Idle? && !q.Refused? && !q.Reserved? }

  ghost function StageOf(q: Producer): Stage
    requires HasTicket(q)
  {
    match q
    case Waiting(_, _, _) => AtLock
    case Locked(_, _, _) => InLock
    case Flagged(_, _, _, _) => AtCopy
    case Copied(_, _, _, _) => AtRelease
  }

  /** A producer with a ticket: it is its ticket, and it has the ticket's slot. */
  ghost predicate ProducerOk(cfg: Config, s: State, p: nat)
    requires Shape(cfg, s) && p < cfg.p && cfg.n > 0
  {
    var q := s.producers[p];
    HasTicket(q) ==>
      && s.taken <= q.t < |s.tickets|
      && s.tickets[q.t] == Ticket(p, q.v, StageOf(q))
      && q.slot == q.t % cfg.n
      && (q.Flagged? || q.Copied? ==> !q.setValue)
  }

  /** An unfinished ticket is its producer's. */
  ghost predicate TicketOk(cfg: Config, s: State, t: nat)
    requires Shape(cfg, s) && t < |s.tickets|
  {
    && s.tickets[t].producer < cfg.p
    && (s.tickets[t].stage != Done ==>
      var q := s.producers[s.tickets[t].producer]; HasTicket(q) && q.t == t)
  }

  /** The consumer holds the lock of its slot. */
  ghost predicate Holding(c: Consumer)
  {
    c == CLocked || c == CFound || c == CCopied || c == CCleared || c == CMissed
  }

  /** The consumer has cleared the slot of ticket `taken`. */
  ghost predicate Cleared(c: Consumer)
  {
    c == CCleared || c == CReleased || c == CAdvanced
  }

  ghost predicate TakenOut(c: Consumer)
  {
    c == CCopied || Cleared(c)
  }

  /** The slot of ticket `t`, which is or will be the slot's only ticket not taken. */
  ghost predicate SlotOk(cfg: Config, s: State, t: nat)
    requires Shape(cfg, s) && cfg.n > 0
  {
    var slot := s.slots[t % cfg.n];
    var mine := t == s.taken && Holding(s.consumer);
    if t >= |s.tickets| then slot.locked == mine && !slot.has
    else
      match s.tickets[t].stage
      case AtLock => slot.locked == mine && !slot.has
      case InLock => slot.locked && !slot.has && !mine
      case AtCopy => slot.locked && slot.has && !mine
      case AtRelease => slot.locked && slot.has && !mine && slot.value == s.tickets[t].value
      case Done =>
        && slot.locked == mine
        && slot.has == !(t == s.taken && Cleared(s.consumer))
        && slot.value == s.tickets[t].value
  }

  ghost predicate CountersOk(cfg: Config, s: State)
  {
    && cfg.Valid() && s.taken <= |s.tickets|
    && s.head == |s.tickets| % cfg.w
    && s.count == Count(s.producers, false) + Count(s.producers, true) + |s.tickets| - s.taken
    && Count(s.producers, true) + |s.tickets| - s.taken <= cfg.n
  }

  ghost predicate ConsumerOk(cfg: Config, s: State)
  {
    && cfg.Valid() && s.tail == (s.taken + if s.consumer == CAdvanced then 1 else 0) % cfg.n
    && |s.out| == s.taken + (if TakenOut(s.consumer) then 1 else 0)
    && |s.out| <= |s.tickets|
    && (s.consumer == CFound ==> s.taken < |s.tickets|)
    && (s.consumer == CFound || TakenOut(s.consumer) ==> s.taken < |s.tickets| && s.tickets[s.taken].stage == Done)
    && (s.consumer == CMissed ==> s.taken < |s.tickets| ==> s.tickets[s.taken].stage == AtLock)
    && (forall i :: 0 <= i < |s.out| ==> s.out[i] == s.tickets[i].value && s.tickets[i].stage == Done)
  }

  ghost predicate Inv(cfg: Config, s: State)
  {
    && cfg.Valid() && Shape(cfg, s) && !s.failed
    && CountersOk(cfg, s)
    && ConsumerOk(cfg, s)
    && (forall p :: 0 <= p < cfg.p ==> ProducerOk(cfg, s, p))
    && (forall t :: 0 <= t < |s.tickets| ==> TicketOk(cfg, s, t))
    && (forall t :: s.taken <= t < s.taken + cfg.n ==> SlotOk(cfg, s, t))
  }

  lemma {:induction false} InitInv(cfg: Config)
    requires cfg.Valid()
    ensures Inv(cfg, Init(cfg))
  {
    NoneYet(cfg.p);
  }

  lemma {:induction false} NoneYet(p: nat)
    ensures Count(seq(p, i => Idle), true) == 0 && Count(seq(p, i => Idle), false) == 0
  {
    if p > 0 {
      assert seq(p, i => Idle)[..p - 1] == seq(p - 1, i => Idle);
      NoneYet(p - 1);
    }
  }

  /** The slots of different tickets of the window are different. */
  lemma {:induction false} Apart(cfg: Config, s: State, t: nat, u: nat)
    requires cfg.n > 0 && s.taken <= t < s.taken + cfg.n && s.taken <= u < s.taken + cfg.n && t != u
    ensures t % cfg.n != u % cfg.n
  {
    if t < u { Distinct(t, u, cfg.n); } else { Distinct(u, t, cfg.n); }
  }

  // ---------------------------------------------------------------- producers

  lemma {:induction false} CounterFits(cfg: Config, s: State)
    requires CountersOk(cfg, s) && Shape(cfg, s)
    ensures s.count < cfg.w
  {
    CountBound(s.producers);
  }

  /** A step of a producer without a ticket that changes the counter only. */
  lemma {:induction false} CountedInv(cfg: Config, s: State, p: nat, s': State)
    requires Inv(cfg, s) && p < cfg.p && !HasTicket(s.producers[p])
    requires s' == s.(count := s'.count, producers := s'.producers)
    requires |s'.producers| == cfg.p && s'.producers == s.producers[p := s'.producers[p]] && !HasTicket(s'.producers[p])
    requires CountersOk(cfg, s')
    ensures Inv(cfg, s')
  {
    forall q | 0 <= q < cfg.p ensures ProducerOk(cfg, s', q) {
      assert ProducerOk(cfg, s, q);
    }
    forall t | 0 <= t < |s'.tickets| ensures TicketOk(cfg, s', t) {
      assert TicketOk(cfg, s, t);
    }
    forall t | s'.taken <= t < s'.taken + cfg.n ensures SlotOk(cfg, s', t) {
      assert SlotOk(cfg, s, t);
    }
  }

  lemma {:induction false} EnterStep(cfg: Config, s: State, p: nat, v: Value)
    requires Inv(cfg, s) && Enabled(cfg, s, Produce(p, v)) && s.producers[p].Idle?
    ensures Inv(cfg, Produced(cfg, s, p, v))
  {
    var s' := Produced(cfg, s, p, v);
    CountUpdate(s.producers, p, s'.producers[p], true);
    CountUpdate(s.producers, p, s'.producers[p], false);
    CountBound(s'.producers);
    Unique(s.count + 1, 0, s.count + 1, cfg.w);
    CountedInv(cfg, s, p, s');
  }

  lemma {:induction false} RefusedStep(cfg: Config, s: State, p: nat, v: Value)
    requires Inv(cfg, s) && Enabled(cfg, s, Produce(p, v)) && s.producers[p].Refused?
    ensures Inv(cfg, Produced(cfg, s, p, v))
  {
    var s' := Produced(cfg, s, p, v);
    CountUpdate(s.producers, p, Idle, true);
    CountUpdate(s.producers, p, Idle, false);
    CounterFits(cfg, s);
    Unique(s.count + cfg.w - 1, 1, s.count - 1, cfg.w);
    CountedInv(cfg, s, p, s');
  }

  /** A producer that may draw a ticket draws one of the window. */
  lemma {:induction false} ReservedFits(cfg: Config, s: State, p: nat)
    requires Inv(cfg, s) && p < cfg.p && s.producers[p].Reserved?
    ensures |s.tickets| < s.taken + cfg.n
  {
    CountUpdate(s.producers, p, Idle, true);
  }

  lemma {:induction false} DrawCounters(cfg: Config, s: State, p: nat, v: Value)
    requires Inv(cfg, s) && Enabled(cfg, s, Produce(p, v)) && s.producers[p].Reserved? && cfg.w % cfg.n == 0
    ensures CountersOk(cfg, Produced(cfg, s, p, v))
    ensures Produced(cfg, s, p, v).producers[p].slot == |s.tickets| % cfg.n
  {
    var s' := Produced(cfg, s, p, v);
    CountUpdate(s.producers, p, s'.producers[p], true);
    CountUpdate(s.producers, p, s'.producers[p], false);
    Nested(|s.tickets|, cfg.w, cfg.n);
    Increment(|s.tickets|, cfg.w);
    assert s.head + 1 <= cfg.w;
    if s.head + 1 == cfg.w { Unique(cfg.w, 1, 0, cfg.w); } else { Unique(s.head + 1, 0, s.head + 1, cfg.w); }
  }

  lemma {:induction false} DrawStep(cfg: Config, s: State, p: nat, v: Value)
    requires Inv(cfg, s) && Enabled(cfg, s, Produce(p, v)) && s.producers[p].Reserved? && cfg.w % cfg.n == 0
    ensures Inv(cfg, Produced(cfg, s, p, v))
  {
    var s' := Produced(cfg, s, p, v);
    DrawCounters(cfg, s, p, v);
    ReservedFits(cfg, s, p);
    forall q | 0 <= q < cfg.p ensures ProducerOk(cfg, s', q) {
      assert ProducerOk(cfg, s, q);
    }
    forall t | 0 <= t < |s'.tickets| ensures TicketOk(cfg, s', t) {
      if t < |s.tickets| { assert TicketOk(cfg, s, t); }
    }
    forall t | s'.taken <= t < s'.taken + cfg.n ensures SlotOk(cfg, s', t) {
      assert SlotOk(cfg, s, t);
    }
  }

  /** `s'` is `s` after producer `p` moved its ticket `t` on and updated its slot. */
  ghost predicate Moved(cfg: Config, s: State, p: nat, t: nat, s': State)
  {
    && Inv(cfg, s) && Shape(cfg, s') && p < cfg.p && HasTicket(s.producers[p]) && t == s.producers[p].t < |s.tickets|
    && s'.head == s.head && s'.count == s.count && s'.tail == s.tail && s'.consumer == s.consumer
    && s'.out == s.out && s'.taken == s.taken && s'.failed == s.failed
    && !(t == s.taken && Holding(s.consumer))
    && (var q := s'.producers[p];
        && s'.producers == s.producers[p := q]
        && s'.tickets == s.tickets[t := Ticket(p, s.tickets[t].value, if HasTicket(q) then StageOf(q) else Done)]
        && if HasTicket(q) then
             && q.t == t && q.v == s.producers[p].v && q.slot == s.producers[p].slot
             && (q.Flagged? || q.Copied? ==> !q.setValue)
           else q.Idle?)
    && s'.slots == s.slots[t % cfg.n := s'.slots[t % cfg.n]]
  }

  lemma {:induction false} MovedInv(cfg: Config, s: State, p: nat, t: nat, s': State)
    requires cfg.n > 0 && Moved(cfg, s, p, t, s') && SlotOk(cfg, s', t)
    ensures Inv(cfg, s')
  {
    assert ProducerOk(cfg, s, p);
    CountUpdate(s.producers, p, s'.producers[p], true);
    CountUpdate(s.producers, p, s'.producers[p], false);
    forall q | 0 <= q < cfg.p ensures ProducerOk(cfg, s', q) {
      assert ProducerOk(cfg, s, q);
    }
    forall u | 0 <= u < |s'.tickets| ensures TicketOk(cfg, s', u) {
      assert TicketOk(cfg, s, u);
    }
    forall u | s'.taken <= u < s'.taken + cfg.n ensures SlotOk(cfg, s', u) {
      assert SlotOk(cfg, s, u);
      if u != t { Apart(cfg, s, t, u); }
    }
  }

  lemma {:induction false} TicketStep(cfg: Config, s: State, p: nat, v: Value)
    requires Inv(cfg, s) && Enabled(cfg, s, Produce(p, v)) && HasTicket(s.producers[p])
    ensures Inv(cfg, Produced(cfg, s, p, v))
  {
    var s' := Produced(cfg, s, p, v);
    var t := s.producers[p].t;
    assert ProducerOk(cfg, s, p) && SlotOk(cfg, s, t);
    if s' != s {
      MovedInv(cfg, s, p, t, s');
    }
  }

  // ---------------------------------------------------------------- the consumer

  /** A consumer step that touches at most the slot of ticket `taken`. */
  lemma {:induction false} ConsumerLocal(cfg: Config, s: State, s': State)
    requires Inv(cfg, s) && Shape(cfg, s')
    requires s'.producers == s.producers && s'.tickets == s.tickets && s'.taken == s.taken && s'.accepted == s.accepted
    requires s'.head == s.head && s'.count == s.count && s'.failed == s.failed
    requires s'.slots == s.slots[s.taken % cfg.n := s'.slots[s.taken % cfg.n]]
    requires SlotOk(cfg, s', s.taken) && ConsumerOk(cfg, s')
    ensures Inv(cfg, s')
  {
    forall q | 0 <= q < cfg.p ensures ProducerOk(cfg, s', q) {
      assert ProducerOk(cfg, s, q);
    }
    forall u | 0 <= u < |s'.tickets| ensures TicketOk(cfg, s', u) {
      assert TicketOk(cfg, s, u);
    }
    forall u | s'.taken <= u < s'.taken + cfg.n ensures SlotOk(cfg, s', u) {
      assert SlotOk(cfg, s, u);
      if u != s.taken { Apart(cfg, s, s.taken, u); }
    }
  }

  lemma {:induction false} ReleaseStep(cfg: Config, s: State)
    requires Inv(cfg, s) && Enabled(cfg, s, Consume) && s.consumer == CAdvanced
    ensures Inv(cfg, Consumed(cfg, s))
  {
    var s' := Consumed(cfg, s);
    CounterFits(cfg, s);
    Unique(s.count + cfg.w - 1, 1, s.count - 1, cfg.w);
    assert SlotOk(cfg, s, s.taken);
    forall q | 0 <= q < cfg.p ensures ProducerOk(cfg, s', q) {
      assert ProducerOk(cfg, s, q);
    }
    forall u | 0 <= u < |s'.tickets| ensures TicketOk(cfg, s', u) {
      assert TicketOk(cfg, s, u);
    }
    forall u | s'.taken <= u < s'.taken + cfg.n ensures SlotOk(cfg, s', u) {
      if u < s.taken + cfg.n {
        assert SlotOk(cfg, s, u);
      } else {
        Shift(s.taken, cfg.n);
      }
    }
  }

  lemma {:induction false} ConsumeStep(cfg: Config, s: State)
    requires Inv(cfg, s) && Enabled(cfg, s, Consume)
    ensures Inv(cfg, Consumed(cfg, s))
  {
    if s.consumer == CAdvanced {
      ReleaseStep(cfg, s);
    } else {
      assert SlotOk(cfg, s, s.taken);
      Increment(s.taken, cfg.n);
      ConsumerLocal(cfg, s, Consumed(cfg, s));
    }
  }

  lemma {:induction false} NextInv(cfg: Config, s: State, st: Step)
    requires Inv(cfg, s) && Enabled(cfg, s, st) && cfg.w % cfg.n == 0
    ensures Inv(cfg, Next(cfg, s, st))
  {
    match st
    case Consume => ConsumeStep(cfg, s);
    case Produce(p, v) =>
      if s.producers[p].Idle? { EnterStep(cfg, s, p, v); }
      else if s.producers[p].Refused? { RefusedStep(cfg, s, p, v); }
      else if s.producers[p].Reserved? { DrawStep(cfg, s, p, v); }
      else { TicketStep(cfg, s, p, v); }
  }

  lemma {:induction false} RunInv(cfg: Config, run: seq<Step>)
    requires cfg.Valid() && cfg.w % cfg.n == 0 && IsRun(cfg, run)
    ensures Inv(cfg, After(cfg, run))
    decreases |run|
  {
    if run == [] {
      InitInv(cfg);
    } else {
      RunInv(cfg, run[..|run| - 1]);
      NextInv(cfg, After(cfg, run[..|run| - 1]), run[|run| - 1]);
    }
  }
}
