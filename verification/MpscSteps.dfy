/** Calls taken step by step without a disturbance, from any state: the steps of one
    `enqueue` or one `dequeue`, put together. */
module MpscSteps {
  import opened MpscQueue
  import opened Modulo

  /** `k` times the step `st` leads from `s` to `t`. */
  ghost predicate Steps(cfg: Config, s: State, st: Step, k: nat, t: State)
    decreases k
  {
    if k == 0 then s == t else Enabled(cfg, s, st) && Steps(cfg, Next(cfg, s, st), st, k - 1, t)
  }

  lemma {:induction false} OneStep(cfg: Config, s: State, st: Step, t: State)
    requires Enabled(cfg, s, st) && t == Next(cfg, s, st)
    ensures Steps(cfg, s, st, 1, t)
  {
    assert Steps(cfg, t, st, 0, t);
  }

  lemma {:induction false} Join(cfg: Config, s: State, st: Step, j: nat, t: State, k: nat, u: State)
    requires Steps(cfg, s, st, j, t) && Steps(cfg, t, st, k, u)
    ensures Steps(cfg, s, st, j + k, u)
    decreases j
  {
    if j > 0 {
      Join(cfg, Next(cfg, s, st), st, j - 1, t, k, u);
    }
  }

  /** `r` prolongs `run` by steps of one caller only. */
  ghost predicate Call(run: seq<Step>, r: seq<Step>, st: Step)
  {
    run <= r && forall k :: |run| <= k < |r| ==> r[k] == st
  }

  lemma {:induction false} StepsRun(cfg: Config, start: seq<Step>, run: seq<Step>, st: Step, k: nat, t: State)
    returns (r: seq<Step>)
    requires IsRun(cfg, run) && Call(start, run, st) && Steps(cfg, After(cfg, run), st, k, t)
    ensures IsRun(cfg, r) && Call(start, r, st) && After(cfg, r) == t
    decreases k
  {
    r := run;
    if k > 0 {
      r := run + [st];
      assert r[..|run|] == run;
      r := StepsRun(cfg, start, r, st, k - 1, t);
    }
  }

  lemma {:induction false} Twice<T>(a: seq<T>, i: nat, x: T, y: T)
    requires i < |a|
    ensures a[i := x][i := y] == a[i := y]
  {
  }

  lemma {:induction false} LastTwice<T>(a: seq<T>, x: T, y: T)
    ensures (a + [x])[|a| := y] == a + [y]
  {
  }

  // ---------------------------------------------------------------- enqueue

  /** Producer `p` finds the queue full. */
  lemma {:induction false} RefusedSteps(cfg: Config, s: State, p: nat, v: Value)
    requires Enabled(cfg, s, Produce(p, v)) && s.producers[p].Idle? && cfg.n <= s.count < cfg.w
    ensures Steps(cfg, s, Produce(p, v), 2, s)
  {
    var t := Next(cfg, s, Produce(p, v));
    Back(s.count, cfg.w);
    assert s.producers[p := Refused][p := Idle] == s.producers;
    OneStep(cfg, s, Produce(p, v), t);
    OneStep(cfg, t, Produce(p, v), s);
    Join(cfg, s, Produce(p, v), 1, t, 1, s);
  }

  /** After the reservation. */
  function InsideState(s: State, p: nat, v: Value): State
    requires p < |s.producers|
  {
    s.(count := s.count + 1, producers := s.producers[p := Reserved(v)])
  }

  /** After the ticket. */
  function DrawnState(cfg: Config, s: State, p: nat, v: Value): State
    requires p < |s.producers| && cfg.n > 0 && cfg.w > 0
  {
    s.(head := (s.head + 1) % cfg.w, producers := s.producers[p := Waiting(v, |s.tickets|, s.head % cfg.n)],
       tickets := s.tickets + [Ticket(p, v, AtLock)])
  }

  /** After the lock. */
  function LockedState(s: State, p: nat, v: Value, t: nat, h: nat): State
    requires p < |s.producers| && h < |s.slots| && t < |s.tickets|
  {
    s.(slots := s.slots[h := s.slots[h].(locked := true)], producers := s.producers[p := Locked(v, t, h)],
       tickets := s.tickets[t := s.tickets[t].(stage := InLock)])
  }

  lemma {:induction false} InsideStep(cfg: Config, s: State, p: nat, v: Value)
    requires Enabled(cfg, s, Produce(p, v)) && s.producers[p].Idle? && s.count < cfg.n && s.count + 1 < cfg.w
    ensures Steps(cfg, s, Produce(p, v), 1, InsideState(s, p, v))
  {
    Successor(s.count, cfg.w);
    OneStep(cfg, s, Produce(p, v), InsideState(s, p, v));
  }

  lemma {:induction false} DrawnStep(cfg: Config, s: State, p: nat, v: Value)
    requires Enabled(cfg, s, Produce(p, v)) && s.producers[p] == Reserved(v)
    ensures Steps(cfg, s, Produce(p, v), 1, DrawnState(cfg, s, p, v))
  {
    OneStep(cfg, s, Produce(p, v), DrawnState(cfg, s, p, v));
  }

  lemma {:induction false} LockedStep(cfg: Config, s: State, p: nat, v: Value, t: nat, h: nat)
    requires Enabled(cfg, s, Produce(p, v)) && s.producers[p] == Waiting(v, t, h) && t < |s.tickets|
    requires !s.slots[h].locked
    ensures Steps(cfg, s, Produce(p, v), 1, LockedState(s, p, v, t, h))
  {
    OneStep(cfg, s, Produce(p, v), LockedState(s, p, v, t, h));
  }

  /** An idle producer may enqueue, and the slot of its ticket is free. */
  ghost predicate MayEnter(cfg: Config, s: State, p: nat)
  {
    && cfg.Valid() && Shape(cfg, s) && p < cfg.p && s.producers[p].Idle? && s.count < cfg.n
    && !s.slots[s.head % cfg.n].locked
  }

  /** Up to the lock. */
  function Entered(cfg: Config, s: State, p: nat, v: Value): State
    requires Shape(cfg, s) && p < cfg.p && cfg.n > 0 && cfg.w > 0
  {
    var h := s.head % cfg.n;
    s.(count := s.count + 1, head := (s.head + 1) % cfg.w, slots := s.slots[h := s.slots[h].(locked := true)],
       producers := s.producers[p := Locked(v, |s.tickets|, h)], tickets := s.tickets + [Ticket(p, v, InLock)])
  }

  lemma {:induction false} EnteredIs(cfg: Config, s: State, p: nat, v: Value)
    requires Shape(cfg, s) && p < cfg.p && cfg.n > 0 && cfg.w > 0
    ensures var d := DrawnState(cfg, InsideState(s, p, v), p, v);
      LockedState(d, p, v, |s.tickets|, s.head % cfg.n) == Entered(cfg, s, p, v)
  {
    var h, t := s.head % cfg.n, |s.tickets|;
    Twice(s.producers, p, Reserved(v), Waiting(v, t, h));
    Twice(s.producers, p, Waiting(v, t, h), Locked(v, t, h));
    LastTwice(s.tickets, Ticket(p, v, AtLock), Ticket(p, v, InLock));
  }

  lemma {:induction false} EnterSteps(cfg: Config, s: State, p: nat, v: Value)
    requires MayEnter(cfg, s, p)
    ensures Steps(cfg, s, Produce(p, v), 3, Entered(cfg, s, p, v))
  {
    var i := InsideState(s, p, v);
    var d := DrawnState(cfg, i, p, v);
    var e := LockedState(d, p, v, |s.tickets|, s.head % cfg.n);
    InsideStep(cfg, s, p, v);
    DrawnStep(cfg, i, p, v);
    LockedStep(cfg, d, p, v, |s.tickets|, s.head % cfg.n);
    Join(cfg, s, Produce(p, v), 1, i, 1, d);
    Join(cfg, s, Produce(p, v), 2, d, 1, e);
    EnteredIs(cfg, s, p, v);
  }

  /** From the lock to the copied value. */
  function CopiedState(s: State, p: nat, v: Value, t: nat, h: nat, had: bool): State
    requires p < |s.producers| && t < |s.tickets| && h < |s.slots|
  {
    s.(slots := s.slots[h := Slot(s.slots[h].locked, true, v)], producers := s.producers[p := Copied(v, t, h, had)],
       tickets := s.tickets[t := s.tickets[t].(stage := AtRelease)])
  }

  lemma {:induction false} CopySteps(cfg: Config, s: State, p: nat, v: Value, t: nat, h: nat)
    requires Enabled(cfg, s, Produce(p, v)) && s.producers[p] == Locked(v, t, h) && t < |s.tickets|
    ensures Steps(cfg, s, Produce(p, v), 2, CopiedState(s, p, v, t, h, s.slots[h].has))
  {
    var had := s.slots[h].has;
    var f := s.(slots := s.slots[h := s.slots[h].(has := true)], producers := s.producers[p := Flagged(v, t, h, had)],
                tickets := s.tickets[t := s.tickets[t].(stage := AtCopy)]);
    OneStep(cfg, s, Produce(p, v), f);
    FlaggedStep(cfg, f, p, v, t, h, had);
    Twice(s.slots, h, s.slots[h].(has := true), Slot(s.slots[h].locked, true, v));
    Twice(s.producers, p, Flagged(v, t, h, had), Copied(v, t, h, had));
    Twice(s.tickets, t, s.tickets[t].(stage := AtCopy), s.tickets[t].(stage := AtRelease));
    Join(cfg, s, Produce(p, v), 1, f, 1, CopiedState(f, p, v, t, h, had));
  }

  lemma {:induction false} FlaggedStep(cfg: Config, f: State, p: nat, v: Value, t: nat, h: nat, had: bool)
    requires Enabled(cfg, f, Produce(p, v)) && f.producers[p] == Flagged(v, t, h, had) && t < |f.tickets|
    requires f.slots[h].has
    ensures Steps(cfg, f, Produce(p, v), 1, CopiedState(f, p, v, t, h, had))
  {
    OneStep(cfg, f, Produce(p, v), CopiedState(f, p, v, t, h, had));
  }

  /** From the lock to the end, on an empty slot. */
  function Written(s: State, p: nat, v: Value, t: nat, h: nat): State
    requires p < |s.producers| == |s.accepted| && t < |s.tickets| && h < |s.slots|
  {
    s.(slots := s.slots[h := Slot(false, true, v)], producers := s.producers[p := Idle],
       tickets := s.tickets[t := s.tickets[t].(stage := Done)], accepted := s.accepted[p := s.accepted[p] + [v]])
  }

  lemma {:induction false} ReleasedStep(cfg: Config, s: State, p: nat, v: Value, t: nat, h: nat)
    requires Enabled(cfg, s, Produce(p, v)) && s.producers[p] == Copied(v, t, h, false) && t < |s.tickets|
    requires s.slots[h] == Slot(true, true, v) && !s.failed
    ensures Steps(cfg, s, Produce(p, v), 1, Written(s, p, v, t, h))
  {
    OneStep(cfg, s, Produce(p, v), Written(s, p, v, t, h));
  }

  lemma {:induction false} WriteSteps(cfg: Config, s: State, p: nat, v: Value, t: nat, h: nat)
    requires Enabled(cfg, s, Produce(p, v)) && s.producers[p] == Locked(v, t, h) && t < |s.tickets|
    requires s.slots[h].locked && !s.slots[h].has && !s.failed
    ensures Steps(cfg, s, Produce(p, v), 3, Written(s, p, v, t, h))
  {
    var c := CopiedState(s, p, v, t, h, false);
    CopySteps(cfg, s, p, v, t, h);
    ReleasedStep(cfg, c, p, v, t, h);
    Twice(s.slots, h, Slot(true, true, v), Slot(false, true, v));
    Twice(s.producers, p, Copied(v, t, h, false), Idle);
    Twice(s.tickets, t, s.tickets[t].(stage := AtRelease), s.tickets[t].(stage := Done));
    Join(cfg, s, Produce(p, v), 2, c, 1, Written(c, p, v, t, h));
  }

  /** On a slot that has a value the assertion fails. */
  lemma {:induction false} OverwriteSteps(cfg: Config, s: State, p: nat, v: Value, t: nat, h: nat)
    requires Enabled(cfg, s, Produce(p, v)) && s.producers[p] == Locked(v, t, h) && t < |s.tickets| && s.slots[h].has
    ensures Steps(cfg, s, Produce(p, v), 3, CopiedState(s, p, v, t, h, true).(failed := true))
  {
    var c := CopiedState(s, p, v, t, h, true);
    CopySteps(cfg, s, p, v, t, h);
    OneStep(cfg, c, Produce(p, v), c.(failed := true));
    Join(cfg, s, Produce(p, v), 2, c, 1, c.(failed := true));
  }

  /** A whole `enqueue` that is not refused. */
  function Enqueued(cfg: Config, s: State, p: nat, v: Value): State
    requires Shape(cfg, s) && cfg.n > 0 && cfg.w > 0 && p < cfg.p
  {
    s.(count := s.count + 1, head := (s.head + 1) % cfg.w,
       slots := s.slots[s.head % cfg.n := Slot(false, true, v)],
       tickets := s.tickets + [Ticket(p, v, Done)], accepted := s.accepted[p := s.accepted[p] + [v]])
  }

  lemma {:induction false} EnqueuedIs(cfg: Config, s: State, p: nat, v: Value)
    requires Shape(cfg, s) && p < cfg.p && cfg.n > 0 && cfg.w > 0 && s.producers[p].Idle?
    ensures Written(Entered(cfg, s, p, v), p, v, |s.tickets|, s.head % cfg.n) == Enqueued(cfg, s, p, v)
  {
    var h, t := s.head % cfg.n, |s.tickets|;
    Twice(s.slots, h, s.slots[h].(locked := true), Slot(false, true, v));
    Twice(s.producers, p, Locked(v, t, h), Idle);
    assert s.producers[p := Idle] == s.producers;
    LastTwice(s.tickets, Ticket(p, v, InLock), Ticket(p, v, Done));
  }

  lemma {:induction false} EnqueueSteps(cfg: Config, s: State, p: nat, v: Value)
    requires MayEnter(cfg, s, p) && !s.slots[s.head % cfg.n].has && !s.failed
    ensures Steps(cfg, s, Produce(p, v), 6, Enqueued(cfg, s, p, v))
  {
    var e := Entered(cfg, s, p, v);
    EnterSteps(cfg, s, p, v);
    WriteSteps(cfg, e, p, v, |s.tickets|, s.head % cfg.n);
    EnqueuedIs(cfg, s, p, v);
    Join(cfg, s, Produce(p, v), 3, e, 3, Enqueued(cfg, s, p, v));
  }

  // ---------------------------------------------------------------- dequeue

  /** `dequeue` finds no value in its slot. */
  lemma {:induction false} MissSteps(cfg: Config, s: State)
    requires Enabled(cfg, s, Consume) && s.consumer == CIdle && !s.slots[s.tail].locked && !s.slots[s.tail].has
    requires !s.failed
    ensures var slots := s.slots[s.tail := s.slots[s.tail].(locked := true)];
      Steps(cfg, s, Consume, 2, s.(slots := slots, consumer := CMissed))
    ensures Steps(cfg, s, Consume, 3, s)
  {
    var l := s.(slots := s.slots[s.tail := s.slots[s.tail].(locked := true)], consumer := CLocked);
    var m := l.(consumer := CMissed);
    OneStep(cfg, s, Consume, l);
    OneStep(cfg, l, Consume, m);
    Join(cfg, s, Consume, 1, l, 1, m);
    Twice(s.slots, s.tail, s.slots[s.tail].(locked := true), s.slots[s.tail]);
    assert s.slots[s.tail := s.slots[s.tail]] == s.slots;
    OneStep(cfg, m, Consume, s);
    Join(cfg, s, Consume, 2, m, 1, s);
  }

  /** `dequeue` up to where it has copied the value. */
  function TakenState(s: State): State
    requires s.tail < |s.slots|
  {
    s.(out := s.out + [s.slots[s.tail].value], slots := s.slots[s.tail := s.slots[s.tail].(locked := true)],
       consumer := CCopied)
  }

  ghost predicate MayTake(cfg: Config, s: State)
  {
    Enabled(cfg, s, Consume) && s.consumer == CIdle && !s.slots[s.tail].locked && s.slots[s.tail].has && !s.failed
  }

  lemma {:induction false} TakeSteps(cfg: Config, s: State)
    requires MayTake(cfg, s)
    ensures Steps(cfg, s, Consume, 3, TakenState(s))
  {
    var l := s.(slots := s.slots[s.tail := s.slots[s.tail].(locked := true)], consumer := CLocked);
    var f := l.(consumer := CFound);
    OneStep(cfg, s, Consume, l);
    OneStep(cfg, l, Consume, f);
    Join(cfg, s, Consume, 1, l, 1, f);
    OneStep(cfg, f, Consume, TakenState(s));
    Join(cfg, s, Consume, 2, f, 1, TakenState(s));
  }

  /** ... and up to where it has freed the slot. */
  function FreedState(s: State): State
    requires s.tail < |s.slots|
  {
    s.(out := s.out + [s.slots[s.tail].value], slots := s.slots[s.tail := Slot(false, false, s.slots[s.tail].value)],
       consumer := CReleased)
  }

  lemma {:induction false} FreeSteps(cfg: Config, s: State)
    requires MayTake(cfg, s)
    ensures Steps(cfg, s, Consume, 5, FreedState(s))
  {
    var v, j := s.slots[s.tail].value, s.tail;
    var c := TakenState(s);
    TakeSteps(cfg, s);
    var d := c.(slots := s.slots[j := Slot(true, false, v)], consumer := CCleared);
    Twice(s.slots, j, s.slots[j].(locked := true), Slot(true, false, v));
    OneStep(cfg, c, Consume, d);
    Join(cfg, s, Consume, 3, c, 1, d);
    Twice(s.slots, j, Slot(true, false, v), Slot(false, false, v));
    OneStep(cfg, d, Consume, FreedState(s));
    Join(cfg, s, Consume, 4, d, 1, FreedState(s));
  }

  /** A whole `dequeue` that finds a value. */
  function Dequeued(cfg: Config, s: State): State
    requires Shape(cfg, s) && cfg.n > 0 && s.count > 0
  {
    var slot := s.slots[s.tail];
    s.(out := s.out + [slot.value], slots := s.slots[s.tail := Slot(false, false, slot.value)],
       tail := if s.tail + 1 >= cfg.n then 0 else s.tail + 1, count := s.count - 1, taken := s.taken + 1)
  }

  lemma {:induction false} AdvanceSteps(cfg: Config, s: State)
    requires Enabled(cfg, s, Consume) && s.consumer == CReleased && 0 < s.count < cfg.w && !s.failed
    ensures Steps(cfg, s, Consume, 2, s.(tail := if s.tail + 1 >= cfg.n then 0 else s.tail + 1, count := s.count - 1,
                                         taken := s.taken + 1, consumer := CIdle))
  {
    var a := s.(tail := if s.tail + 1 >= cfg.n then 0 else s.tail + 1, consumer := CAdvanced);
    OneStep(cfg, s, Consume, a);
    Decrement(s.count, cfg.w);
    var t := a.(count := s.count - 1, taken := s.taken + 1, consumer := CIdle);
    OneStep(cfg, a, Consume, t);
    Join(cfg, s, Consume, 1, a, 1, t);
  }

  lemma {:induction false} DequeueSteps(cfg: Config, s: State)
    requires MayTake(cfg, s) && 0 < s.count < cfg.w
    ensures Steps(cfg, s, Consume, 7, Dequeued(cfg, s))
  {
    FreeSteps(cfg, s);
    AdvanceSteps(cfg, FreedState(s));
    Join(cfg, s, Consume, 5, FreedState(s), 2, Dequeued(cfg, s));
  }

  lemma {:induction false} Back(a: nat, w: nat)
    requires a < w
    ensures ((a + 1) % w + w - 1) % w == a
  {
    Successor(a, w);
    if a + 1 < w { Unique(a + w, 1, a, w); } else { Unique(a, 0, a, w); }
  }
}
