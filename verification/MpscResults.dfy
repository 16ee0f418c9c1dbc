/** What the invariants of `MpscProof` and `MpscCounts` give about every run of the
    queue.  Results that ask for the number of slots to divide the number of values of
    a machine word are false otherwise: `MpscWrap`. */
module MpscResults {
  import opened MpscQueue
  import opened MpscProof
  import opened MpscCounts

  /** For every number of slots: the tickets not taken and the open reservations never
      exceed the slots, and the counter the consumer decrements is never zero. */
  lemma {:induction false} ReservationsBounded(cfg: Config, run: seq<Step>)
    requires cfg.Valid() && IsRun(cfg, run)
    ensures var s := After(cfg, run);
      && s.taken <= |s.tickets| && |s.tickets| - s.taken + Count(s.producers, true) <= cfg.n
      && (s.consumer == CAdvanced ==> s.count > 0)
  {
    RunCounted(cfg, run);
    TakenFits(cfg, After(cfg, run));
  }

  /** Producer `p` has its slot for itself, and finds it empty. */
  ghost predicate Alone(cfg: Config, s: State, p: nat, q: nat)
    requires Shape(cfg, s) && p < cfg.p && q < cfg.p
  {
    && (s.producers[p].Locked? ==> s.producers[p].slot < cfg.n && !s.slots[s.producers[p].slot].has)
    && (HasTicket(s.producers[p]) && HasTicket(s.producers[q]) ==> s.producers[p].slot != s.producers[q].slot)
  }

  /** No assertion ever fails, a producer that holds a slot's lock to write finds
      the slot empty, and producers never meet at a slot. */
  lemma {:induction false} NeverOverwrites(cfg: Config, run: seq<Step>, p: nat, q: nat)
    requires cfg.Valid() && cfg.w % cfg.n == 0 && IsRun(cfg, run)
    requires p < cfg.p && q < cfg.p && p != q
    ensures Shape(cfg, After(cfg, run)) && !After(cfg, run).failed && Alone(cfg, After(cfg, run), p, q)
  {
    RunInv(cfg, run);
    var s := After(cfg, run);
    assert ProducerOk(cfg, s, p) && ProducerOk(cfg, s, q);
    if HasTicket(s.producers[p]) {
      assert SlotOk(cfg, s, s.producers[p].t);
      if HasTicket(s.producers[q]) { Apart(cfg, s, s.producers[p].t, s.producers[q].t); }
    }
  }

  /** The producer is between taking and releasing its slot's lock. */
  ghost predicate Writing(q: Producer)
  {
    q.Locked? || q.Flagged? || q.Copied?
  }

  /** A slot is locked while a producer or the consumer works on it, and never by both. */
  lemma {:induction false} LocksExclude(cfg: Config, run: seq<Step>, p: nat)
    requires cfg.Valid() && cfg.w % cfg.n == 0 && IsRun(cfg, run) && p < cfg.p
    ensures var s := After(cfg, run); Shape(cfg, s) && (Holding(s.consumer) ==> s.slots[s.tail].locked)
    ensures var s := After(cfg, run);
      Writing(s.producers[p]) ==>
        && s.producers[p].slot < cfg.n && s.slots[s.producers[p].slot].locked
        && (Holding(s.consumer) ==> s.producers[p].slot != s.tail)
  {
    RunInv(cfg, run);
    var s := After(cfg, run);
    assert ProducerOk(cfg, s, p) && SlotOk(cfg, s, s.taken);
    if Writing(s.producers[p]) {
      assert SlotOk(cfg, s, s.producers[p].t);
      if s.producers[p].t != s.taken { Apart(cfg, s, s.producers[p].t, s.taken); }
    }
  }

  /** The assertions of the two calls: `enqueue` asserts that the slot had no value, and
      that it was locked when it is released; so does `dequeue`, and that the counter was
      positive. */
  ghost predicate Asserted(cfg: Config, s: State, st: Step)
    requires Enabled(cfg, s, st)
  {
    match st
    case Produce(p, _) =>
      var q := s.producers[p]; q.Copied? ==> !q.setValue && s.slots[q.slot].locked
    case Consume =>
      && (s.consumer == CCleared || s.consumer == CMissed ==> s.slots[s.tail].locked)
      && (s.consumer == CAdvanced ==> s.count > 0)
  }

  /** `failed` is exactly the record of an assertion that did not hold. */
  lemma {:induction false} FailsExactly(cfg: Config, s: State, st: Step)
    requires Enabled(cfg, s, st)
    ensures Next(cfg, s, st).failed <==> s.failed || !Asserted(cfg, s, st)
  {
  }

  /** The values copied out so far are the values of the first tickets, in order:
      nothing is lost, duplicated or reordered. */
  lemma {:induction false} Fifo(cfg: Config, run: seq<Step>)
    requires cfg.Valid() && cfg.w % cfg.n == 0 && IsRun(cfg, run)
    ensures var s := After(cfg, run);
      |s.out| <= |s.tickets| && s.out + Contents(s) == Values(s.tickets)
  {
    RunInv(cfg, run);
    var s := After(cfg, run);
    assert forall i :: 0 <= i < |s.out| ==> s.out[i] == Values(s.tickets)[i];
  }

  // ---------------------------------------------------------------- each producer's order

  ghost function DrawnBy(ts: seq<Ticket>, p: nat): seq<Value>
  {
    if ts == [] then []
    else
      var l := |ts| - 1;
      DrawnBy(ts[..l], p) + if ts[l].producer == p then [ts[l].value] else []
  }

  lemma {:induction false} DrawnMark(ts: seq<Ticket>, t: nat, stage: Stage, p: nat)
    requires t < |ts|
    ensures DrawnBy(ts[t := ts[t].(stage := stage)], p) == DrawnBy(ts, p)
  {
    var l := |ts| - 1;
    var ts' := ts[t := ts[t].(stage := stage)];
    if t == l {
      assert ts'[..l] == ts[..l];
    } else {
      assert ts'[..l] == ts[..l][t := ts[..l][t].(stage := stage)];
      DrawnMark(ts[..l], t, stage, p);
    }
  }

  ghost predicate OwnOrder(cfg: Config, s: State, p: nat)
    requires Shape(cfg, s) && p < cfg.p
  {
    s.accepted[p] + (if HasTicket(s.producers[p]) then [s.producers[p].v] else []) == DrawnBy(s.tickets, p)
  }

  lemma {:induction false} DrawOwnOrder(cfg: Config, s: State, q: nat, v: Value, p: nat)
    requires Shape(cfg, s) && Enabled(cfg, s, Produce(q, v)) && s.producers[q].Reserved? && p < cfg.p
    requires OwnOrder(cfg, s, p)
    ensures OwnOrder(cfg, Produced(cfg, s, q, v), p)
  {
    var ts := Produced(cfg, s, q, v).tickets;
    assert ts[..|ts| - 1] == s.tickets;
    assert s.accepted[p] + [] == s.accepted[p];
  }

  lemma {:induction false} MarkOwnOrder(cfg: Config, s: State, q: nat, v: Value, p: nat)
    requires Counted(cfg, s) && Enabled(cfg, s, Produce(q, v)) && HasTicket(s.producers[q])
    requires p < cfg.p && OwnOrder(cfg, s, p)
    ensures OwnOrder(cfg, Produced(cfg, s, q, v), p)
  {
    var s' := Produced(cfg, s, q, v);
    var t := s.producers[q].t;
    DrawnMark(s.tickets, t, s'.tickets[t].stage, p);
    assert s'.tickets == s.tickets[t := s.tickets[t].(stage := s'.tickets[t].stage)];
    assert s'.accepted[p] + [] == s'.accepted[p];
  }

  lemma {:induction false} NextOwnOrder(cfg: Config, s: State, st: Step, p: nat)
    requires Counted(cfg, s) && Enabled(cfg, s, st) && p < cfg.p && OwnOrder(cfg, s, p)
    ensures OwnOrder(cfg, Next(cfg, s, st), p)
  {
    if st.Produce? {
      if s.producers[st.p].Reserved? {
        DrawOwnOrder(cfg, s, st.p, st.v, p);
      } else if HasTicket(s.producers[st.p]) {
        MarkOwnOrder(cfg, s, st.p, st.v, p);
      }
    }
  }

  /** The values a producer's successful calls enqueued, and the one it is at, are
      its tickets' values in the order of the calls. */
  lemma {:induction false} OwnOrderKept(cfg: Config, run: seq<Step>, p: nat)
    requires cfg.Valid() && IsRun(cfg, run) && p < cfg.p
    ensures Shape(cfg, After(cfg, run)) && OwnOrder(cfg, After(cfg, run), p)
    decreases |run|
  {
    RunCounted(cfg, run);
    if run != [] {
      var run' := run[..|run| - 1];
      RunCounted(cfg, run');
      OwnOrderKept(cfg, run', p);
      NextOwnOrder(cfg, After(cfg, run'), run[|run| - 1], p);
    }
  }

  // ---------------------------------------------------------------- what one step does to the contents

  lemma {:induction false} ValuesMark(ts: seq<Ticket>, t: nat, stage: Stage)
    requires t < |ts|
    ensures Values(ts[t := ts[t].(stage := stage)]) == Values(ts)
  {
  }

  lemma {:induction false} ValuesDraw(ts: seq<Ticket>, t: Ticket)
    ensures Values(ts + [t]) == Values(ts) + [t.value]
  {
  }

  ghost predicate Draws(s: State, st: Step)
  {
    st.Produce? && st.p < |s.producers| && s.producers[st.p].Reserved?
  }

  lemma {:induction false} TicketsGrow(cfg: Config, s: State, st: Step)
    requires Counted(cfg, s) && Enabled(cfg, s, st)
    ensures var s' := Next(cfg, s, st);
      Values(s'.tickets) == if Draws(s, st) then Values(s.tickets) + [s.producers[st.p].v] else Values(s.tickets)
  {
    if Draws(s, st) {
      ValuesDraw(s.tickets, Ticket(st.p, s.producers[st.p].v, AtLock));
    } else if st.Produce? && HasTicket(s.producers[st.p]) {
      var t := s.producers[st.p].t;
      ValuesMark(s.tickets, t, Next(cfg, s, st).tickets[t].stage);
    }
  }

  lemma {:induction false} OutGrows(cfg: Config, s: State, st: Step)
    requires Counted(cfg, s) && Enabled(cfg, s, st)
    ensures var s' := Next(cfg, s, st);
      if st.Consume? && s.consumer == CFound then |s.out| < |s.tickets| && s'.out == s.out + [s.slots[s.tail].value]
      else s'.out == s.out
  {
    if s.consumer == CFound { FilledSome(s.slots, s.tail); }
  }

  ghost predicate CopiesOut(s: State, st: Step)
  {
    st.Consume? && s.consumer == CFound
  }

  lemma {:induction false} ContentsAre(s: State)
    requires |s.out| <= |s.tickets|
    ensures Contents(s) == Values(s.tickets)[|s.out|..]
  {
  }

  /** For every number of slots: drawing a ticket appends to the contents, copying out
      removes the oldest value from them and yields one value, and every other step --
      in particular every step of a call that fails -- leaves the contents and the
      values yielded alone. */
  lemma {:induction false} StepContents(cfg: Config, run: seq<Step>, st: Step)
    requires cfg.Valid() && IsRun(cfg, run) && Enabled(cfg, After(cfg, run), st)
    ensures var s := After(cfg, run); var s' := Next(cfg, s, st);
      && |s.out| <= |s.tickets| && |s'.out| <= |s'.tickets|
      && (CopiesOut(s, st) ==> Contents(s) != [] && s.tail < |s.slots|)
      && Contents(s') == (if Draws(s, st) then Contents(s) + [s.producers[st.p].v]
                          else if CopiesOut(s, st) then Contents(s)[1..] else Contents(s))
      && s'.out == if CopiesOut(s, st) then s.out + [s.slots[s.tail].value] else s.out
  {
    var s := After(cfg, run);
    var s' := Next(cfg, s, st);
    RunCounted(cfg, run);
    NextCounted(cfg, s, st);
    TakenFits(cfg, s);
    TakenFits(cfg, s');
    TicketsGrow(cfg, s, st);
    OutGrows(cfg, s, st);
    ContentsAre(s);
    ContentsAre(s');
  }

  /** The value yielded is the oldest. */
  lemma {:induction false} YieldsOldest(cfg: Config, run: seq<Step>)
    requires cfg.Valid() && cfg.w % cfg.n == 0 && IsRun(cfg, run) && After(cfg, run).consumer == CFound
    ensures var s := After(cfg, run);
      && s.tail < |s.slots| && |s.out| <= |s.tickets| && Contents(s) != []
      && s.slots[s.tail].value == Contents(s)[0]
  {
    RunInv(cfg, run);
    var s := After(cfg, run);
    assert SlotOk(cfg, s, s.taken);
  }

  /** For every number of slots: a call to `enqueue` is refused exactly when the slots
      are all spoken for by values not taken, open reservations and refusals in progress. */
  lemma {:induction false} RefusedWhenFull(cfg: Config, run: seq<Step>, p: nat, v: Value)
    requires cfg.Valid() && IsRun(cfg, run)
    requires Enabled(cfg, After(cfg, run), Produce(p, v)) && After(cfg, run).producers[p].Idle?
    ensures var s := After(cfg, run); var q := Next(cfg, s, Produce(p, v)).producers[p];
      var spokenFor := |s.tickets| - s.taken + Count(s.producers, true) + Count(s.producers, false);
      q == if spokenFor >= cfg.n then Refused else Reserved(v)
  {
    RunCounted(cfg, run);
  }

  // ---------------------------------------------------------------- the slots

  /** `dequeue` finds nothing exactly when the oldest ticket not taken has not
      been drawn or its producer has not locked the slot. */
  ghost predicate MissExact(cfg: Config, s: State)
  {
    && Enabled(cfg, s, Consume) && s.taken <= |s.tickets|
    && (s.consumer == CLocked ==>
          (Consumed(cfg, s).consumer == CMissed <==>
           s.taken == |s.tickets| || s.tickets[s.taken].stage == AtLock))
  }

  lemma {:induction false} MissWhenUnwritten(cfg: Config, run: seq<Step>)
    requires cfg.Valid() && cfg.w % cfg.n == 0 && IsRun(cfg, run)
    ensures MissExact(cfg, After(cfg, run))
  {
    RunInv(cfg, run);
    var s := After(cfg, run);
    assert SlotOk(cfg, s, s.taken);
  }

  ghost predicate AtRest(s: State)
  {
    s.consumer == CIdle && forall p :: 0 <= p < |s.producers| ==> s.producers[p].Idle?
  }

  lemma {:induction false} NoCounts(qs: seq<Producer>)
    requires forall p :: 0 <= p < |qs| ==> qs[p].Idle?
    ensures Count(qs, true) == 0 && Count(qs, false) == 0
  {
    if qs != [] { NoCounts(qs[..|qs| - 1]); }
  }

  /** For every number of slots: between calls the counter is the number of values. */
  lemma {:induction false} CountsContents(cfg: Config, run: seq<Step>)
    requires cfg.Valid() && IsRun(cfg, run) && AtRest(After(cfg, run))
    ensures var s := After(cfg, run); |s.out| <= |s.tickets| && s.count == |Contents(s)| <= cfg.n
  {
    RunCounted(cfg, run);
    TakenFits(cfg, After(cfg, run));
    NoCounts(After(cfg, run).producers);
  }

  /** The slots from the one of ticket `taken` on hold exactly the contents, and the
      other slots are empty. */
  ghost predicate SlotsMatch(cfg: Config, s: State)
  {
    && cfg.n > 0 && |s.out| <= |s.tickets| && |s.slots| == cfg.n
    && forall i :: 0 <= i < cfg.n ==> SlotMatches(cfg, s, i)
  }

  ghost predicate SlotMatches(cfg: Config, s: State, i: nat)
    requires cfg.n > 0 && |s.out| <= |s.tickets| && |s.slots| == cfg.n
  {
    var slot := s.slots[(s.taken + i) % cfg.n];
    !slot.locked && slot.has == (i < |Contents(s)|) && (slot.has ==> slot.value == Contents(s)[i])
  }

  lemma {:induction false} SlotsHoldContents(cfg: Config, run: seq<Step>)
    requires cfg.Valid() && cfg.w % cfg.n == 0 && IsRun(cfg, run) && AtRest(After(cfg, run))
    ensures SlotsMatch(cfg, After(cfg, run))
  {
    RunInv(cfg, run);
    var s := After(cfg, run);
    NoCounts(s.producers);
    forall i | 0 <= i < cfg.n ensures SlotMatches(cfg, s, i) {
      assert SlotOk(cfg, s, s.taken + i);
      if s.taken + i < |s.tickets| { assert TicketOk(cfg, s, s.taken + i); }
    }
  }
}
