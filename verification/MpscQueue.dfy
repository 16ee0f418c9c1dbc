/** The bounded queue in shared memory: many producers, one consumer.  Every
    atomic operation, and every access to a slot's fields, is one step; the
    machine word has `w` values. */
module MpscQueue {

  type Value = int

  /** `n` slots, `w` values of a machine word, `p` producers. */
  datatype Config = Config(n: nat, w: nat, p: nat) {
    /** A queue has a slot, and the reservation counter cannot overflow: the word
        counts the slots and the threads. */
    ghost predicate Valid() { n > 0 && n + p < w }
  }

  datatype Slot = Slot(locked: bool, has: bool, value: Value)

  /** Where a producer is in `enqueue`.  `t` is the number of the ticket it drew
      (instrumentation); the code only knows the slot. */
  datatype Producer =
    | Idle
    | Refused                                                       // counted itself, found the queue full
    | Reserved(v: Value)                                            // counted itself, may draw a ticket
    | Waiting(v: Value, t: nat, slot: nat)                          // spins on the slot's lock
    | Locked(v: Value, t: nat, slot: nat)
    | Flagged(v: Value, t: nat, slot: nat, setValue: bool)          // has swapped `has_value` with true
    | Copied(v: Value, t: nat, slot: nat, setValue: bool)

  /** Where the consumer is in `dequeue`. */
  datatype Consumer = CIdle | CLocked | CFound | CCopied | CCleared | CMissed | CReleased | CAdvanced

  datatype Stage = AtLock | InLock | AtCopy | AtRelease | Done

  /** Instrumentation: who drew a ticket, for which value, and how far it got. */
  datatype Ticket = Ticket(producer: nat, value: Value, stage: Stage)

  datatype State = State(
    head: nat, count: nat, tail: nat, slots: seq<Slot>,
    producers: seq<Producer>, consumer: Consumer,
    tickets: seq<Ticket>,             // drawn so far, in order
    out: seq<Value>,                  // copied out so far, in order
    taken: nat,                       // dequeues completed
    accepted: seq<seq<Value>>,        // per producer, the values of enqueues that returned true
    failed: bool)                     // an assertion failed

  function Init(cfg: Config): State
  {
    State(0, 0, 0, seq(cfg.n, i => Slot(false, false, 0)), seq(cfg.p, i => Idle), CIdle,
          [], [], 0, seq(cfg.p, i => []), false)
  }

  datatype Step = Produce(p: nat, v: Value) | Consume

  predicate Shape(cfg: Config, s: State)
  {
    |s.slots| == cfg.n && |s.producers| == |s.accepted| == cfg.p && s.tail < cfg.n
  }

  /** The slot a producer works on. */
  predicate InRange(cfg: Config, q: Producer)
  {
    q.Idle? || q.Refused? || q.Reserved? || q.slot < cfg.n
  }

  predicate Enabled(cfg: Config, s: State, st: Step)
  {
    && cfg.n > 0 && cfg.w > 0 && Shape(cfg, s)
    && (st.Produce? ==> st.p < cfg.p && InRange(cfg, s.producers[st.p]))
  }

  function Mark(s: State, q: Producer, stage: Stage): seq<Ticket>
    requires !q.Idle? && !q.Refused? && !q.Reserved?
  {
    if q.t < |s.tickets| then s.tickets[q.t := s.tickets[q.t].(stage := stage)] else s.tickets
  }

  /** One step of `enqueue` of producer `p`; `v` is the value of a new call. */
  function Produced(cfg: Config, s: State, p: nat, v: Value): State
    requires Enabled(cfg, s, Produce(p, v))
  {
    var q := s.producers[p];
    match q
    case Idle =>
      s.(count := (s.count + 1) % cfg.w,
          producers := s.producers[p := if s.count >= cfg.n then Refused else Reserved(v)])
    case Refused =>
      s.(count := (s.count + cfg.w - 1) % cfg.w, producers := s.producers[p := Idle])
    case Reserved(v) =>
      s.(head := (s.head + 1) % cfg.w,
      producers := s.producers[p := Waiting(v, |s.tickets|, s.head % cfg.n)],
      tickets := s.tickets + [Ticket(p, v, AtLock)])
    case Waiting(v, t, j) =>
      if s.slots[j].locked then s
      else s.(slots := s.slots[j := s.slots[j].(locked := true)],
           producers := s.producers[p := Locked(v, t, j)],
           tickets := Mark(s, q, InLock))
    case Locked(v, t, j) =>
      s.(slots := s.slots[j := s.slots[j].(has := true)],
      producers := s.producers[p := Flagged(v, t, j, s.slots[j].has)],
      tickets := Mark(s, q, AtCopy))
    case Flagged(v, t, j, had) =>
      s.(slots := s.slots[j := s.slots[j].(value := v)],
      producers := s.producers[p := Copied(v, t, j, had)],
      tickets := Mark(s, q, AtRelease))
    case Copied(v, t, j, had) =>
      if had then s.(failed := true)
      else s.(slots := s.slots[j := s.slots[j].(locked := false)],
           producers := s.producers[p := Idle],
           tickets := Mark(s, q, Done),
           accepted := s.accepted[p := s.accepted[p] + [v]],
           failed := s.failed || !s.slots[j].locked)
  }

  /** One step of `dequeue`. */
  function Consumed(cfg: Config, s: State): State
    requires Enabled(cfg, s, Consume)
  {
    var j := s.tail;
    match s.consumer
    case CIdle =>
      if s.slots[j].locked then s
      else s.(slots := s.slots[j := s.slots[j].(locked := true)], consumer := CLocked)
    case CLocked => s.(consumer := if s.slots[j].has then CFound else CMissed)
    case CFound => s.(out := s.out + [s.slots[j].value], consumer := CCopied)
    case CCopied => s.(slots := s.slots[j := s.slots[j].(has := false)], consumer := CCleared)
    case CCleared =>
      s.(slots := s.slots[j := s.slots[j].(locked := false)], consumer := CReleased,
          failed := s.failed || !s.slots[j].locked)
    case CMissed =>
      s.(slots := s.slots[j := s.slots[j].(locked := false)], consumer := CIdle,
          failed := s.failed || !s.slots[j].locked)
    case CReleased => s.(tail := if j + 1 >= cfg.n then 0 else j + 1, consumer := CAdvanced)
    case CAdvanced =>
      s.(count := (s.count + cfg.w - 1) % cfg.w, consumer := CIdle, taken := s.taken + 1,
          failed := s.failed || s.count == 0)
  }

  function Next(cfg: Config, s: State, st: Step): (r: State)
    requires Enabled(cfg, s, st)
    ensures Shape(cfg, r)
  {
    match st
    case Produce(p, v) => Produced(cfg, s, p, v)
    case Consume => Consumed(cfg, s)
  }

  ghost predicate IsRun(cfg: Config, run: seq<Step>)
    decreases |run|, 0
  {
    run == [] || (IsRun(cfg, run[..|run| - 1]) && Enabled(cfg, After(cfg, run[..|run| - 1]), run[|run| - 1]))
  }

  ghost function After(cfg: Config, run: seq<Step>): State
    requires IsRun(cfg, run)
    decreases |run|, 1
  {
    if run == [] then Init(cfg) else Next(cfg, After(cfg, run[..|run| - 1]), run[|run| - 1])
  }

  function Values(ts: seq<Ticket>): seq<Value>
  {
    seq(|ts|, i requires 0 <= i < |ts| => ts[i].value)
  }

  /** The queue's contents: what was accepted under a ticket and not copied out. */
  function Contents(s: State): seq<Value>
    requires |s.out| <= |s.tickets|
  {
    Values(s.tickets[|s.out|..])
  }
}
