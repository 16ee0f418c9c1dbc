/** Wrap-around of the ticket counter: the queue never overwrites, is first-in
    first-out, and tells truly that it is empty, in every run, exactly when the number
    of slots divides the number of values of a machine word. */
module MpscWrap {
  import opened MpscQueue
  import opened MpscProof
  import opened Modulo
  import opened MpscResults
  import opened MpscSteps

  /** A `dequeue` that fails while no producer is in a call has nothing to find. */
  ghost predicate Honest(s: State)
  {
    s.consumer == CMissed && (forall p :: 0 <= p < |s.producers| ==> s.producers[p].Idle?) ==> |s.out| == |s.tickets|
  }

  lemma {:induction false} HonestWhenDividing(cfg: Config, run: seq<Step>)
    requires cfg.Valid() && cfg.w % cfg.n == 0 && IsRun(cfg, run)
    ensures Honest(After(cfg, run))
  {
    RunInv(cfg, run);
    var s := After(cfg, run);
    if s.consumer == CMissed && s.taken < |s.tickets| {
      assert TicketOk(cfg, s, s.taken);
    }
  }

  // ---------------------------------------------------------------- the other direction

  ghost predicate Calm(cfg: Config, s: State)
  {
    && cfg.Valid() && Shape(cfg, s) && s.consumer == CIdle && !s.failed
    && (forall p :: 0 <= p < cfg.p ==> s.producers[p].Idle?)
    && forall j :: 0 <= j < cfg.n ==> !s.slots[j].locked
  }

  /** `k` values have gone through the queue, and it is empty. */
  ghost predicate Empty(cfg: Config, s: State, k: nat)
  {
    && Calm(cfg, s)
    && s.head == k % cfg.w && s.count == 0 && s.tail == k % cfg.n
    && |s.tickets| == |s.out| == s.taken == k
    && forall j :: 0 <= j < cfg.n ==> !s.slots[j].has
  }

  /** A further value sits in slot `h`. */
  ghost predicate Single(cfg: Config, s: State, k: nat, h: nat)
  {
    && Calm(cfg, s)
    && s.head == (k + 1) % cfg.w && s.count == 1 && s.tail == k % cfg.n
    && |s.tickets| == k + 1 && |s.out| == s.taken == k && s.tickets[k].stage == Done
    && forall j :: 0 <= j < cfg.n ==> s.slots[j].has == (j == h)
  }

  /** One undisturbed `enqueue`. */
  lemma {:induction false} EnqueueOnce(cfg: Config, run: seq<Step>, k: nat) returns (r: seq<Step>)
    requires cfg.Valid() && cfg.p > 0 && IsRun(cfg, run) && Empty(cfg, After(cfg, run), k)
    ensures IsRun(cfg, r) && Single(cfg, After(cfg, r), k, k % cfg.w % cfg.n)
  {
    CountsOn(k, cfg.w);
    EnqueueSteps(cfg, After(cfg, run), 0, 0);
    r := StepsRun(cfg, run, run, Produce(0, 0), 6, Enqueued(cfg, After(cfg, run), 0, 0));
  }

  /** One undisturbed `dequeue` that finds the value where it looks. */
  lemma {:induction false} DequeueOnce(cfg: Config, run: seq<Step>, k: nat) returns (r: seq<Step>)
    requires cfg.Valid() && IsRun(cfg, run) && Single(cfg, After(cfg, run), k, k % cfg.n)
    ensures IsRun(cfg, r) && Empty(cfg, After(cfg, r), k + 1)
  {
    Increment(k, cfg.n);
    DequeueSteps(cfg, After(cfg, run));
    r := StepsRun(cfg, run, run, Consume, 7, Dequeued(cfg, After(cfg, run)));
  }

  /** Some run takes `k` values through the queue, one at a time. */
  lemma {:induction false} Cycle(cfg: Config, k: nat) returns (r: seq<Step>)
    requires cfg.Valid() && cfg.p > 0 && k <= cfg.w
    ensures IsRun(cfg, r) && Empty(cfg, After(cfg, r), k)
  {
    if k == 0 {
      Unique(0, 0, 0, cfg.w);
      Unique(0, 0, 0, cfg.n);
      r := [];
    } else {
      r := Cycle(cfg, k - 1);
      r := EnqueueOnce(cfg, r, k - 1);
      Unique(k - 1, 0, k - 1, cfg.w);
      r := DequeueOnce(cfg, r, k - 1);
    }
  }

  /** After the counter wraps, a value goes where the consumer does not look. */
  lemma {:induction false} Misplaced(cfg: Config) returns (r: seq<Step>)
    requires cfg.Valid() && cfg.p > 0 && cfg.w % cfg.n != 0
    ensures IsRun(cfg, r) && Single(cfg, After(cfg, r), cfg.w, 0)
  {
    r := Cycle(cfg, cfg.w);
    r := EnqueueOnce(cfg, r, cfg.w);
    Unique(cfg.w, 1, 0, cfg.w);
    Unique(0, 0, 0, cfg.n);
  }

  /** When the slots do not divide the word, some run hides a value: `dequeue` misses
      although a value is in the queue and nobody is in a call. */
  lemma {:induction false} HiddenValue(cfg: Config) returns (r: seq<Step>)
    requires cfg.Valid() && cfg.p > 0 && cfg.w % cfg.n != 0
    ensures IsRun(cfg, r) && !Honest(After(cfg, r))
  {
    r := Misplaced(cfg);
    var s := After(cfg, r);
    MissSteps(cfg, s);
    r := StepsRun(cfg, r, r, Consume, 2,
                  s.(slots := s.slots[s.tail := s.slots[s.tail].(locked := true)], consumer := CMissed));
  }

  lemma {:induction false} HonestIffDividing(cfg: Config)
    requires cfg.Valid() && cfg.p > 0
    ensures (forall run :: IsRun(cfg, run) ==> Honest(After(cfg, run))) <==> cfg.w % cfg.n == 0
  {
    if cfg.w % cfg.n == 0 {
      forall run | IsRun(cfg, run) ensures Honest(After(cfg, run)) {
        HonestWhenDividing(cfg, run);
      }
    } else {
      var r := HiddenValue(cfg);
      assert IsRun(cfg, r) && !Honest(After(cfg, r));
    }
  }

  /** So some miss is not exact, */
  lemma {:induction false} MissIffDividing(cfg: Config)
    requires cfg.Valid() && cfg.p > 0
    ensures (forall run :: IsRun(cfg, run) ==> MissExact(cfg, After(cfg, run))) <==> cfg.w % cfg.n == 0
  {
    if cfg.w % cfg.n == 0 {
      forall run | IsRun(cfg, run) ensures MissExact(cfg, After(cfg, run)) {
        MissWhenUnwritten(cfg, run);
      }
    } else {
      var r := Misplaced(cfg);
      var s := After(cfg, r);
      var l := s.(slots := s.slots[s.tail := s.slots[s.tail].(locked := true)], consumer := CLocked);
      OneStep(cfg, s, Consume, l);
      r := StepsRun(cfg, r, r, Consume, 1, l);
      assert !l.slots[l.tail].has;
      assert IsRun(cfg, r) && !MissExact(cfg, After(cfg, r));
    }
  }

  /** and the slots do not hold the contents where the consumer looks for them. */
  lemma {:induction false} SlotsIffDividing(cfg: Config)
    requires cfg.Valid() && cfg.p > 0
    ensures (forall run :: IsRun(cfg, run) && AtRest(After(cfg, run)) ==> SlotsMatch(cfg, After(cfg, run)))
            <==> cfg.w % cfg.n == 0
  {
    if cfg.w % cfg.n == 0 {
      forall run | IsRun(cfg, run) && AtRest(After(cfg, run)) ensures SlotsMatch(cfg, After(cfg, run)) {
        SlotsHoldContents(cfg, run);
      }
    } else {
      var r := Misplaced(cfg);
      Mismatched(cfg, After(cfg, r));
      assert IsRun(cfg, r) && AtRest(After(cfg, r)) && !SlotsMatch(cfg, After(cfg, r));
    }
  }

  lemma {:induction false} Mismatched(cfg: Config, s: State)
    requires Single(cfg, s, cfg.w, 0) && cfg.w % cfg.n != 0
    ensures AtRest(s) && !SlotsMatch(cfg, s)
  {
    assert |Contents(s)| == 1 && s.taken + 0 == cfg.w;
    assert SlotsMatch(cfg, s) ==> SlotMatches(cfg, s, 0);
  }

  // ---------------------------------------------------------------- overwriting and reordering

  /** After the counter wrapped, with `k` values gone through: `i` further values, the
      `j`-th of them `j`, are in the first slots; apart from them at most slot `last`
      has a value. */
  ghost predicate Loaded(cfg: Config, s: State, k: nat, base: nat, i: nat, last: nat)
  {
    && Calm(cfg, s) && i <= cfg.n
    && s.head == i && s.tail == k % cfg.n && |s.out| == s.taken == k
    && s.count == |s.tickets| - k && |s.tickets| == base + i
    && (forall j :: 0 <= j < cfg.n ==> s.slots[j].has == (j < i || j == last))
    && (forall j :: 0 <= j < i ==> s.slots[j].value == j)
    && forall t :: base <= t < |s.tickets| ==> s.tickets[t].value == t - base
  }

  lemma {:induction false} LoadedMore(cfg: Config, s: State, k: nat, base: nat, i: nat, last: nat)
    requires Loaded(cfg, s, k, base, i, last) && i < cfg.n && 0 < cfg.p
    requires s.head % cfg.n == i && (s.head + 1) % cfg.w == i + 1
    ensures Loaded(cfg, Enqueued(cfg, s, 0, i), k, base, i + 1, last)
  {
  }

  /** One more value, in slot `i`. */
  lemma {:induction false} LoadOne(cfg: Config, run: seq<Step>, k: nat, base: nat, i: nat, last: nat)
    returns (r: seq<Step>)
    requires cfg.p > 0 && IsRun(cfg, run) && Loaded(cfg, After(cfg, run), k, base, i, last)
    requires i < cfg.n && i != last && After(cfg, run).count < cfg.n
    ensures IsRun(cfg, r) && Loaded(cfg, After(cfg, r), k, base, i + 1, last)
  {
    var s := After(cfg, run);
    Unique(i, 0, i, cfg.n);
    Unique(i + 1, 0, i + 1, cfg.w);
    LoadedMore(cfg, s, k, base, i, last);
    EnqueueSteps(cfg, s, 0, i);
    r := StepsRun(cfg, run, run, Produce(0, i), 6, Enqueued(cfg, s, 0, i));
  }

  /** Values in the slots before slot `upTo`, as long as no slot is met twice. */
  lemma {:induction false} Load(cfg: Config, run: seq<Step>, k: nat, base: nat, i: nat, last: nat, upTo: nat)
    returns (r: seq<Step>)
    requires cfg.p > 0 && IsRun(cfg, run) && Loaded(cfg, After(cfg, run), k, base, i, last)
    requires i <= upTo <= cfg.n && (last < i || upTo <= last) && base + upTo <= k + cfg.n
    ensures IsRun(cfg, r) && Loaded(cfg, After(cfg, r), k, base, upTo, last)
    decreases upTo - i
  {
    r := run;
    if i < upTo {
      r := LoadOne(cfg, run, k, base, i, last);
      r := Load(cfg, r, k, base, i + 1, last, upTo);
    }
  }

  lemma {:induction false} Previous(w: nat, n: nat)
    requires n > 0 && w > 0 && w % n != 0
    ensures (w - 1) % n == w % n - 1
  {
    Increment(w - 1, n);
  }

  /** The last ticket before the wrap: its value stays in slot `w % n - 1`. */
  lemma {:induction false} LastSlot(cfg: Config) returns (r: seq<Step>)
    requires cfg.Valid() && cfg.p > 0 && cfg.w % cfg.n != 0
    ensures IsRun(cfg, r) && Loaded(cfg, After(cfg, r), cfg.w - 1, cfg.w, 0, cfg.w % cfg.n - 1)
  {
    var k: nat := cfg.w - 1;
    r := Cycle(cfg, k);
    r := EnqueueOnce(cfg, r, k);
    Unique(k, 0, k, cfg.w);
    Unique(cfg.w, 1, 0, cfg.w);
    Previous(cfg.w, cfg.n);
    SingleLoaded(cfg, After(cfg, r), k, cfg.w % cfg.n - 1);
  }

  lemma {:induction false} SingleLoaded(cfg: Config, s: State, k: nat, h: nat)
    requires Single(cfg, s, k, h) && s.head == 0
    ensures Loaded(cfg, s, k, k + 1, 0, h)
  {
  }

  /** When the slots do not divide the word, some run overwrites a value: after the
      wrap a ticket leads to a slot that still has one, and the assertion fails. */
  lemma {:induction false} Overwritten(cfg: Config) returns (r: seq<Step>)
    requires cfg.Valid() && cfg.p > 0 && cfg.w % cfg.n != 0
    ensures IsRun(cfg, r) && After(cfg, r).failed
  {
    var last: nat := cfg.w % cfg.n - 1;
    r := LastSlot(cfg);
    r := Load(cfg, r, cfg.w - 1, cfg.w, 0, last, last);
    var s := After(cfg, r);
    Unique(last, 0, last, cfg.n);
    EnterSteps(cfg, s, 0, last);
    var e := Entered(cfg, s, 0, last);
    OverwriteSteps(cfg, e, 0, last, |s.tickets|, last);
    var f := CopiedState(e, 0, last, |s.tickets|, last, true).(failed := true);
    Join(cfg, s, Produce(0, last), 3, e, 3, f);
    r := StepsRun(cfg, r, r, Produce(0, last), 6, f);
  }

  /** No assertion ever fails if and only if the slots divide the word. */
  lemma {:induction false} NeverFailsIffDividing(cfg: Config)
    requires cfg.Valid() && cfg.p > 0
    ensures (forall run :: IsRun(cfg, run) ==> !After(cfg, run).failed) <==> cfg.w % cfg.n == 0
  {
    if cfg.w % cfg.n == 0 {
      forall run | IsRun(cfg, run) ensures !After(cfg, run).failed {
        RunInv(cfg, run);
      }
    } else {
      var r := Overwritten(cfg);
      assert IsRun(cfg, r) && After(cfg, r).failed;
    }
  }

  /** The values dequeued are those of the first tickets, in order. */
  ghost predicate InOrder(s: State)
  {
    s.out <= Values(s.tickets)
  }

  /** The consumer takes the value of slot `j`, which is not the oldest. */
  lemma {:induction false} TakesYounger(cfg: Config, s: State, k: nat, i: nat)
    requires Loaded(cfg, s, k, k, i, cfg.n) && 0 < s.tail < i
    ensures MayTake(cfg, s) && !InOrder(FreedState(s))
  {
    var t := FreedState(s);
    assert t.out[k] == s.tail;
    assert Values(t.tickets)[k] == 0;
  }

  /** When the slots do not divide the word, some run yields a younger value first. */
  lemma {:induction false} Reordered(cfg: Config) returns (r: seq<Step>)
    requires cfg.Valid() && cfg.p > 0 && cfg.w % cfg.n != 0
    ensures IsRun(cfg, r) && !InOrder(After(cfg, r))
  {
    var j := cfg.w % cfg.n;
    r := Cycle(cfg, cfg.w);
    Unique(cfg.w, 1, 0, cfg.w);
    assert Loaded(cfg, After(cfg, r), cfg.w, cfg.w, 0, cfg.n);
    r := Load(cfg, r, cfg.w, cfg.w, 0, cfg.n, j + 1);
    var s := After(cfg, r);
    TakesYounger(cfg, s, cfg.w, j + 1);
    FreeSteps(cfg, s);
    r := StepsRun(cfg, r, r, Consume, 5, FreedState(s));
  }

  /** The queue is first-in first-out if and only if the slots divide the word. */
  lemma {:induction false} FifoIffDividing(cfg: Config)
    requires cfg.Valid() && cfg.p > 0
    ensures (forall run :: IsRun(cfg, run) ==> InOrder(After(cfg, run))) <==> cfg.w % cfg.n == 0
  {
    if cfg.w % cfg.n == 0 {
      forall run | IsRun(cfg, run) ensures InOrder(After(cfg, run)) {
        Fifo(cfg, run);
      }
    } else {
      var r := Reordered(cfg);
      assert IsRun(cfg, r) && !InOrder(After(cfg, r));
    }
  }
}
