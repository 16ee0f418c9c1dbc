/** Pools and queues of blocks in shared memory.  A list's head is its lock: a
    thread takes the list by exchanging the head with null and gives it back by
    exchanging null with the new head.  Every exchange and every access to a
    block's fields is one step of one of any number of threads. */
module BlockLists {
  import opened Wrappers
  import opened SizeClasses

  type Block = nat

  datatype ListId = Pool(pe: nat, class_: nat) | Queue(pe: nat)

  datatype Ptr = Null | Tail | At(b: Block)

  /** The fields of `ipc::block`. */
  datatype Cell = Cell(next: Ptr, size: nat, used: bool)

  /** Where a block is (instrumentation). */
  datatype Place =
    | Fresh(t: nat)      // allocated, not yet in a pool
    | InList(l: ListId)
    | Held(t: nat)       // taken from a pool, to be filled and queued
    | Received(t: nat)   // taken from a queue, to be freed
    | Freed
    | Leaked             // `lput(void *, size)` failed after allocating it

  datatype Thread =
    | Idle
    | Putting(b: Block, pe: nat)               // `lput`: the block is allocated
    | Took(l: ListId, b: Block, prev: Ptr)     // to put `b`: the list is taken
    | Linked(l: ListId, b: Block)              // `b` points to the old head
    | Opened(l: ListId, prev: Ptr, sz: nat)    // to get a block: the list is taken
    | Read(l: ListId, b: Block, next: Ptr, sz: nat)
    | Found(b: Block, sz: nat)                 // `ralloc`: the block is out of the pool

  datatype State = State(
    heads: map<ListId, Ptr>,
    cells: seq<Cell>,
    threads: seq<Thread>,
    places: seq<Place>,
    chains: map<ListId, seq<Block>>,           // what each list holds (instrumentation)
    holder: map<ListId, Option<nat>>,          // who took the list (instrumentation)
    failed: bool)                              // an assertion failed

  datatype Config = Config(lists: set<ListId>, threads: nat)

  function Init(cfg: Config): State
  {
    State(map l | l in cfg.lists :: Tail, [], seq(cfg.threads, i => Idle), [],
          map l | l in cfg.lists :: [], map l | l in cfg.lists :: None, false)
  }

  datatype Step =
    | Alloc(t: nat, size: nat, pe: nat)      // `lput(void *, size)` up to the allocation
    | Ralloc(t: nat, pe: nat, sz: nat)
    | Resize(t: nat, b: Block, sz: nat)      // the holder sets the size to what it uses
    | Enqueue(t: nat, b: Block, pe: nat)
    | Dequeue(t: nat, pe: nat)
    | Free(t: nat, b: Block)
    | Go(t: nat)                             // the next step of the call the thread is in

  ghost predicate Shape(cfg: Config, s: State)
  {
    && s.heads.Keys == s.chains.Keys == s.holder.Keys == cfg.lists
    && |s.threads| == cfg.threads && |s.places| == |s.cells|
  }

  ghost predicate Enabled(cfg: Config, s: State, st: Step)
  {
    && Shape(cfg, s) && st.t < cfg.threads
    && match st
       case Alloc(t, size, pe) => s.threads[t].Idle? && size <= LARGEST && Pool(pe, ClassOf(size)) in cfg.lists
       case Ralloc(t, pe, sz) => s.threads[t].Idle? && sz <= LARGEST && Pool(pe, ClassOf(sz)) in cfg.lists
       case Resize(t, b, sz) => s.threads[t].Idle? && b < |s.cells| && s.places[b] == Held(t) && sz <= s.cells[b].size
       case Enqueue(t, b, pe) => s.threads[t].Idle? && b < |s.cells| && s.places[b] == Held(t) && Queue(pe) in cfg.lists
       case Dequeue(t, pe) => s.threads[t].Idle? && Queue(pe) in cfg.lists
       case Free(t, b) => s.threads[t].Idle? && b < |s.cells| && s.places[b] == Received(t)
       case Go(t) =>
         match s.threads[t]
         case Idle => false
         case Putting(b, pe) =>
           && b < |s.cells| && s.cells[b].size <= LARGEST
           && Pool(pe, ClassOf(s.cells[b].size)) in cfg.lists
         case Took(l, b, _) => l in cfg.lists && b < |s.cells|
         case Linked(l, b) => l in cfg.lists && b < |s.cells|
         case Opened(l, prev, _) => l in cfg.lists && (prev.At? ==> prev.b < |s.cells|)
         case Read(l, b, _, _) => l in cfg.lists && b < |s.cells|
         case Found(b, _) => b < |s.cells|
  }

  function SetThread(s: State, t: nat, q: Thread): State
    requires t < |s.threads|
  {
    s.(threads := s.threads[t := q])
  }

  ghost predicate SameShape(s: State, r: State)
  {
    && r.heads.Keys == s.heads.Keys && r.chains.Keys == s.chains.Keys && r.holder.Keys == s.holder.Keys
    && |r.threads| == |s.threads| && |r.places| == |s.places| && |r.cells| == |s.cells|
  }

  /** The first exchange: null for the head. */
  function Take(s: State, t: nat, l: ListId): (r: State)
    requires l in s.heads && l in s.holder
    ensures SameShape(s, r) && r.chains == s.chains && r.places == s.places
  {
    s.(heads := s.heads[l := Null], holder := if s.heads[l] == Null then s.holder else s.holder[l := Some(t)])
  }

  /** The second exchange: the new head for null, which is asserted. */
  function Give(s: State, l: ListId, head: Ptr): (r: State)
    requires l in s.heads && l in s.holder
    ensures SameShape(s, r) && r.chains == s.chains && r.places == s.places
  {
    s.(heads := s.heads[l := head], holder := s.holder[l := None], failed := s.failed || s.heads[l] != Null)
  }

  /** To put `b` on `l`: exchange, and give up when somebody else has the list. */
  function TakeToPut(s: State, t: nat, l: ListId, b: Block, onFailure: Place): (r: State)
    requires l in s.heads && l in s.holder && t < |s.threads| && b < |s.places|
    ensures SameShape(s, r) && r.chains == s.chains
  {
    var s1 := Take(s, t, l);
    if s.heads[l] == Null then SetThread(s1, t, Idle).(places := s.places[b := onFailure])
    else SetThread(s1, t, Took(l, b, s.heads[l]))
  }

  function TakeToGet(s: State, t: nat, l: ListId, sz: nat): (r: State)
    requires l in s.heads && l in s.holder && t < |s.threads|
    ensures SameShape(s, r) && r.chains == s.chains && r.places == s.places
  {
    var s1 := Take(s, t, l);
    if s.heads[l] == Null then s1 else SetThread(s1, t, Opened(l, s.heads[l], sz))
  }

  /** The exchange that completes a put. */
  function Push(s: State, t: nat, l: ListId, b: Block): (r: State)
    requires l in s.heads && l in s.holder && l in s.chains && t < |s.threads| && b < |s.places|
    ensures SameShape(s, r)
  {
    SetThread(Give(s, l, At(b)), t, Idle)
    .(places := s.places[b := InList(l)], chains := s.chains[l := [b] + s.chains[l]])
  }

  /** The exchange that completes a get. */
  function Pop(s: State, t: nat, l: ListId, b: Block, next: Ptr, sz: nat): (r: State)
    requires l in s.heads && l in s.holder && l in s.chains && t < |s.threads| && b < |s.places|
    ensures SameShape(s, r)
  {
    SetThread(Give(s, l, next), t, if l.Pool? then Found(b, sz) else Idle)
    .(places := s.places[b := if l.Pool? then Held(t) else Received(t)],
    chains := s.chains[l := if s.chains[l] == [] then [] else s.chains[l][1..]])
  }

  /** One step within a call. */
  ghost function Gone(cfg: Config, s: State, t: nat): (r: State)
    requires Enabled(cfg, s, Go(t))
    ensures SameShape(s, r)
  {
    match s.threads[t]
    case Idle => s
    case Putting(b, pe) =>
      var c := ClassOf(s.cells[b].size);
      if s.cells[b].size != CUTOFFS[c] then SetThread(s, t, Idle).(places := s.places[b := Leaked])
      else TakeToPut(s, t, Pool(pe, c), b, Leaked)
    case Took(l, b, prev) =>
      SetThread(s, t, Linked(l, b)).(cells := s.cells[b := s.cells[b].(next := prev)])
    case Linked(l, b) =>
      Push(s, t, l, b)
    case Opened(l, prev, sz) =>
      if prev.At? then SetThread(s, t, Read(l, prev.b, s.cells[prev.b].next, sz))
      else SetThread(Give(s, l, prev), t, Idle)
    case Read(l, b, next, sz) =>
      Pop(s, t, l, b, next, sz)
    case Found(b, _) =>
      SetThread(s, t, Idle).(cells := s.cells[b := s.cells[b].(used := true)], failed := s.failed || s.cells[b].used)
  }

  ghost function Next(cfg: Config, s: State, st: Step): (r: State)
    requires Enabled(cfg, s, st)
    ensures Shape(cfg, r)
  {
    match st
    case Alloc(t, size, pe) =>
      SetThread(s, t, Putting(|s.cells|, pe)).(cells := s.cells + [Cell(Null, size, false)],
          places := s.places + [Fresh(t)])
    case Ralloc(t, pe, sz) => TakeToGet(s, t, Pool(pe, ClassOf(sz)), sz)
    case Resize(t, b, sz) => s.(cells := s.cells[b := s.cells[b].(size := sz)])
    case Enqueue(t, b, pe) => TakeToPut(s, t, Queue(pe), b, Held(t))
    case Dequeue(t, pe) => TakeToGet(s, t, Queue(pe), 0)
    case Free(t, b) => s.(places := s.places[b := Freed])
    case Go(t) => Gone(cfg, s, t)
  }

  ghost predicate IsRun(cfg: Config, run: seq<Step>)
    decreases |run|, 0
  {
    run == [] || (IsRun(cfg, run[..|run| - 1]) && Enabled(cfg, After(cfg, run[..|run| - 1]), run[|run| - 1]))
  }

  ghost function After(cfg: Config, run: seq<Step>): State
    requires IsRun(cfg, run)
    decreases |run|, 1
  {
    if run == [] then Init(cfg) else Next(cfg, After(cfg, run[..|run| - 1]), run[|run| - 1])
  }
}
