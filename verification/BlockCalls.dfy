/** Calls taken without interruption by other threads: what all the steps of one
    call on a pool or a queue come to, from any state that any run leads to. */
module BlockCalls {
  import opened Wrappers
  import opened SizeClasses
  import opened BlockLists
  import opened BlockProof

  /** `b` on top of list `l`. */
  function Put(s: State, l: ListId, b: Block): State
    requires l in s.heads && l in s.chains && b < |s.cells| == |s.places|
  {
    s.(heads := s.heads[l := At(b)], cells := s.cells[b := s.cells[b].(next := s.heads[l])],
       places := s.places[b := InList(l)], chains := s.chains[l := [b] + s.chains[l]])
  }

  /** The top block of list `l` in the hands of thread `t`, and in use if it comes
      from a pool. */
  function Got(s: State, t: nat, l: ListId): State
    requires l in s.heads && l in s.chains && s.chains[l] != [] && s.chains[l][0] < |s.cells| == |s.places|
  {
    var b := s.chains[l][0];
    s.(heads := s.heads[l := s.cells[b].next],
       cells := if l.Pool? then s.cells[b := s.cells[b].(used := true)] else s.cells,
       places := s.places[b := if l.Pool? then Held(t) else Received(t)],
       chains := s.chains[l := s.chains[l][1..]])
  }

  lemma {:induction false} Step1(cfg: Config, run: seq<Step>, st: Step) returns (r: seq<Step>)
    requires IsRun(cfg, run) && Enabled(cfg, After(cfg, run), st)
    ensures IsRun(cfg, r) && After(cfg, r) == Next(cfg, After(cfg, run), st)
  {
    r := run + [st];
    assert r[..|run|] == run;
  }

  /** What is known about an idle thread and a list nobody has. */
  lemma {:induction false} ListFacts(cfg: Config, run: seq<Step>, l: ListId)
    requires IsRun(cfg, run) && l in cfg.lists
    ensures var s := After(cfg, run);
      Shape(cfg, s) && !s.failed && (s.heads[l] != Null ==> s.holder[l] == None && s.heads[l] == Head(s.chains[l]))
    ensures var s := After(cfg, run);
      s.chains[l] != [] ==> s.chains[l][0] < |s.cells| && s.cells[s.chains[l][0]].next == Head(s.chains[l][1..])
  {
    RunInv(cfg, run);
    var s := After(cfg, run);
    assert LockOk(s, l) && ChainOk(s, l);
    if s.chains[l] != [] { RestLinks(s.cells, s.chains[l]); }
  }

  /** After the first exchange of a put: the block is linked, */
  lemma {:induction false} LinkCall(cfg: Config, run: seq<Step>, t: nat, l: ListId, b: Block) returns (r: seq<Step>)
    requires IsRun(cfg, run) && Enabled(cfg, After(cfg, run), Go(t))
    requires var q := After(cfg, run).threads[t]; q.Took? && q.l == l && q.b == b
    ensures IsRun(cfg, r) && b < |After(cfg, run).cells|
    ensures var s := After(cfg, run);
      After(cfg, r) == s.(cells := s.cells[b := s.cells[b].(next := s.threads[t].prev)],
                          threads := s.threads[t := Linked(l, b)])
  {
    r := Step1(cfg, run, Go(t));
  }

  /** and the second exchange puts it on top. */
  lemma {:induction false} PushCall(cfg: Config, run: seq<Step>, t: nat, l: ListId, b: Block) returns (r: seq<Step>)
    requires IsRun(cfg, run) && Enabled(cfg, After(cfg, run), Go(t)) && l in cfg.lists && b < |After(cfg, run).cells|
    requires After(cfg, run).threads[t] == Linked(l, b) && After(cfg, run).heads[l] == Null
    ensures IsRun(cfg, r)
    ensures var s := After(cfg, run);
      After(cfg, r) == In(s, t, l, b)
  {
    r := Step1(cfg, run, Go(t));
  }

  lemma {:induction false} Restored<K, V>(m: map<K, V>, k: K, x: V, y: V)
    requires k in m
    ensures m[k := x][k := y] == m[k := y] && (m[k] == y ==> m[k := y] == m)
  {
  }

  /** The end of a put's second exchange. */
  function In(u: State, t: nat, l: ListId, b: Block): State
    requires t < |u.threads| && b < |u.places| && l in u.chains
  {
    u.(threads := u.threads[t := Idle], heads := u.heads[l := At(b)], holder := u.holder[l := None],
       places := u.places[b := InList(l)], chains := u.chains[l := [b] + u.chains[l]])
  }

  lemma {:induction false} InState(s: State, t: nat, l: ListId, b: Block, p0: Thread, p1: Thread)
    requires l in s.heads && l in s.holder && l in s.chains && t < |s.threads| && b < |s.places| == |s.cells|
    requires s.holder[l] == None && s.threads[t].Idle?
    ensures var u := s.(heads := s.heads[l := Null], holder := s.holder[l := Some(t)],
                        threads := s.threads[t := p0][t := p1],
                        cells := s.cells[b := s.cells[b].(next := s.heads[l])]);
      In(u, t, l, b) == Put(s, l, b)
  {
    Restored(s.heads, l, Null, At(b));
    Restored(s.holder, l, Some(t), None);
    assert s.threads[t := p0][t := p1][t := Idle] == s.threads;
  }

  /** From the first exchange of a put on, which finds the list free. */
  lemma {:induction false} TakenPut(
      cfg: Config, run: seq<Step>, s: State, t: nat, l: ListId, b: Block, lost: Place) returns (r: seq<Step>)
    requires IsRun(cfg, run) && Shape(cfg, s) && t < cfg.threads && l in cfg.lists && b < |s.cells|
    requires s.threads[t].Idle?
    requires s.heads[l] != Null && s.holder[l] == None && !s.failed && After(cfg, run) == TakeToPut(s, t, l, b, lost)
    ensures IsRun(cfg, r) && After(cfg, r) == Put(s, l, b)
  {
    r := LinkCall(cfg, run, t, l, b);
    r := PushCall(cfg, r, t, l, b);
    InState(s, t, l, b, Took(l, b, s.heads[l]), Linked(l, b));
  }

  /** `queue::enqueue`. */
  lemma {:induction false} EnqueueCall(cfg: Config, run: seq<Step>, t: nat, b: Block, pe: nat) returns (r: seq<Step>)
    requires IsRun(cfg, run) && Enabled(cfg, After(cfg, run), Enqueue(t, b, pe))
    ensures IsRun(cfg, r)
    ensures var s, l := After(cfg, run), Queue(pe);
      After(cfg, r) == if s.heads[l] == Null then s else Put(s, l, b)
  {
    var s, l := After(cfg, run), Queue(pe);
    ListFacts(cfg, run, l);
    r := Step1(cfg, run, Enqueue(t, b, pe));
    if s.heads[l] == Null {
      BusyPut(s, t, l, b, Held(t));
    } else {
      r := TakenPut(cfg, r, s, t, l, b, Held(t));
    }
  }

  /** The state after `lput` has allocated its block. */
  function Allocated(s: State, size: nat, place: Place): State
  {
    s.(cells := s.cells + [Cell(Null, size, false)], places := s.places + [place])
  }

  /** `lput` once its block is allocated. */
  lemma {:induction false} PutAway(s: State, t: nat, l: ListId, b: Block, u: State)
    requires l in s.heads && l in s.holder && t < |s.threads| && b < |s.places|
    requires u == SetThread(s, t, Putting(b, if l.Pool? then l.pe else 0))
    ensures TakeToPut(u, t, l, b, Leaked) == TakeToPut(s, t, l, b, Leaked)
  {
    var q := Putting(b, if l.Pool? then l.pe else 0);
    assert s.threads[t := q][t := Idle] == s.threads[t := Idle];
    assert s.threads[t := q][t := Took(l, b, s.heads[l])] == s.threads[t := Took(l, b, s.heads[l])];
  }

  lemma {:induction false} LostBlock(s: State, t: nat, l: ListId, size: nat)
    requires l in s.heads && l in s.holder && t < |s.threads| && |s.cells| == |s.places| && s.threads[t].Idle?
    requires s.heads[l] == Null
    ensures TakeToPut(Allocated(s, size, Fresh(t)), t, l, |s.cells|, Leaked) == Allocated(s, size, Leaked)
  {
    assert s.heads[l := Null] == s.heads && s.threads[t := Idle] == s.threads;
    assert (s.places + [Fresh(t)])[|s.cells| := Leaked] == s.places + [Leaked];
  }

  lemma {:induction false} OddGo(cfg: Config, u: State, t: nat, b: Block, pe: nat)
    requires Enabled(cfg, u, Go(t)) && u.threads[t] == Putting(b, pe) && b < |u.cells|
    requires u.cells[b].size <= LARGEST && u.cells[b].size != CUTOFFS[ClassOf(u.cells[b].size)]
    ensures Next(cfg, u, Go(t)) == u.(threads := u.threads[t := Idle], places := u.places[b := Leaked])
  {
  }

  lemma {:induction false} OddState(s: State, t: nat, size: nat, pe: nat)
    requires t < |s.threads| && s.threads[t].Idle? && |s.cells| == |s.places|
    ensures var u := SetThread(Allocated(s, size, Fresh(t)), t, Putting(|s.cells|, pe));
      u.(threads := u.threads[t := Idle], places := u.places[|s.cells| := Leaked]) == Allocated(s, size, Leaked)
  {
    assert s.threads[t := Putting(|s.cells|, pe)][t := Idle] == s.threads;
    assert (s.places + [Fresh(t)])[|s.cells| := Leaked] == s.places + [Leaked];
  }

  lemma {:induction false} OddLput(
      cfg: Config, run: seq<Step>, s: State, t: nat, size: nat, pe: nat) returns (r: seq<Step>)
    requires IsRun(cfg, run) && Enabled(cfg, s, Alloc(t, size, pe))
    requires After(cfg, run) == SetThread(Allocated(s, size, Fresh(t)), t, Putting(|s.cells|, pe))
    requires size != CUTOFFS[ClassOf(size)]
    ensures IsRun(cfg, r) && After(cfg, r) == Allocated(s, size, Leaked)
  {
    OddGo(cfg, After(cfg, run), t, |s.cells|, pe);
    OddState(s, t, size, pe);
    r := Step1(cfg, run, Go(t));
  }

  lemma {:induction false} FitLput(
      cfg: Config, run: seq<Step>, s: State, t: nat, size: nat, pe: nat) returns (r: seq<Step>)
    requires IsRun(cfg, run) && Enabled(cfg, s, Alloc(t, size, pe))
    requires After(cfg, run) == SetThread(Allocated(s, size, Fresh(t)), t, Putting(|s.cells|, pe))
    requires size == CUTOFFS[ClassOf(size)]
    ensures IsRun(cfg, r)
    ensures After(cfg, r) == TakeToPut(Allocated(s, size, Fresh(t)), t, Pool(pe, ClassOf(size)), |s.cells|, Leaked)
  {
    r := Step1(cfg, run, Go(t));
    PutAway(Allocated(s, size, Fresh(t)), t, Pool(pe, ClassOf(size)), |s.cells|, After(cfg, run));
  }

  /** `mempool::lput`: the new block is put on its class's list if it has exactly the
      class's size and nobody has the list. */
  lemma {:induction false} LputCall(cfg: Config, run: seq<Step>, t: nat, size: nat, pe: nat) returns (r: seq<Step>)
    requires IsRun(cfg, run) && Enabled(cfg, After(cfg, run), Alloc(t, size, pe))
    ensures IsRun(cfg, r)
    ensures var s, c := After(cfg, run), ClassOf(size);
      After(cfg, r) == if size == CUTOFFS[c] && s.heads[Pool(pe, c)] != Null
                       then Put(Allocated(s, size, Fresh(t)), Pool(pe, c), |s.cells|) else Allocated(s, size, Leaked)
  {
    var s, c := After(cfg, run), ClassOf(size);
    ListFacts(cfg, run, Pool(pe, c));
    r := Step1(cfg, run, Alloc(t, size, pe));
    if size != CUTOFFS[c] {
      r := OddLput(cfg, r, s, t, size, pe);
    } else {
      r := FitLput(cfg, r, s, t, size, pe);
      if s.heads[Pool(pe, c)] == Null {
        LostBlock(s, t, Pool(pe, c), size);
      } else {
        r := TakenPut(cfg, r, Allocated(s, size, Fresh(t)), t, Pool(pe, c), |s.cells|, Leaked);
      }
    }
  }

  /** A get that finds a free list empty. */
  lemma {:induction false} EmptyGet(
      cfg: Config, run: seq<Step>, s: State, t: nat, l: ListId, sz: nat) returns (r: seq<Step>)
    requires IsRun(cfg, run) && Shape(cfg, s) && t < cfg.threads && l in cfg.lists && s.threads[t].Idle?
    requires s.heads[l] == Tail && s.holder[l] == None && !s.failed && After(cfg, run) == TakeToGet(s, t, l, sz)
    ensures IsRun(cfg, r) && After(cfg, r) == s
  {
    assert Enabled(cfg, After(cfg, run), Go(t));
    r := Step1(cfg, run, Go(t));
    Restored(s.heads, l, Null, Tail);
    Restored(s.holder, l, Some(t), None);
    assert s.threads[t := Opened(l, Tail, sz)][t := Idle] == s.threads;
  }

  /** After the first exchange of a get: the block's link is read, */
  lemma {:induction false} ReadCall(
      cfg: Config, run: seq<Step>, t: nat, l: ListId, b: Block, sz: nat) returns (r: seq<Step>)
    requires IsRun(cfg, run) && Enabled(cfg, After(cfg, run), Go(t)) && b < |After(cfg, run).cells|
    requires After(cfg, run).threads[t] == Opened(l, At(b), sz)
    ensures IsRun(cfg, r)
    ensures var s := After(cfg, run);
      After(cfg, r) == s.(threads := s.threads[t := Read(l, b, s.cells[b].next, sz)])
  {
    r := Step1(cfg, run, Go(t));
  }

  /** and the second exchange takes it out. */
  lemma {:induction false} PopCall(cfg: Config, run: seq<Step>, t: nat, l: ListId, b: Block, next: Ptr, sz: nat)
    returns (r: seq<Step>)
    requires IsRun(cfg, run) && Enabled(cfg, After(cfg, run), Go(t)) && l in cfg.lists && b < |After(cfg, run).cells|
    requires var s := After(cfg, run);
      s.threads[t] == Read(l, b, next, sz) && s.heads[l] == Null && s.chains[l] != []
    ensures IsRun(cfg, r)
    ensures var s := After(cfg, run);
      After(cfg, r) == Out(s, t, l, b, next, if l.Pool? then Found(b, sz) else Idle)
  {
    r := Step1(cfg, run, Go(t));
  }

  /** The end of a get's second exchange. */
  function Out(u: State, t: nat, l: ListId, b: Block, next: Ptr, q: Thread): State
    requires t < |u.threads| && b < |u.places| && l in u.chains && u.chains[l] != []
  {
    u.(threads := u.threads[t := q], heads := u.heads[l := next], holder := u.holder[l := None],
       places := u.places[b := if l.Pool? then Held(t) else Received(t)], chains := u.chains[l := u.chains[l][1..]])
  }

  lemma {:induction false} OutState(s: State, t: nat, l: ListId, b: Block, next: Ptr, q: Thread, p0: Thread, p1: Thread)
    requires l in s.heads && l in s.holder && l in s.chains && s.chains[l] != [] && s.chains[l][0] == b
    requires t < |s.threads| && b < |s.places| == |s.cells| && s.holder[l] == None && next == s.cells[b].next
    ensures var u := s.(heads := s.heads[l := Null], holder := s.holder[l := Some(t)],
                        threads := s.threads[t := p0][t := p1]);
      Out(u, t, l, b, next, q) == Got(s, t, l).(cells := s.cells, threads := s.threads[t := q])
  {
    Restored(s.heads, l, Null, next);
    Restored(s.holder, l, Some(t), None);
    assert s.threads[t := p0][t := p1][t := q] == s.threads[t := q];
  }

  /** A get up to the point where the block is out of its list. */
  lemma {:induction false} TakenGet(
      cfg: Config, run: seq<Step>, s: State, t: nat, l: ListId, sz: nat) returns (r: seq<Step>)
    requires IsRun(cfg, run) && Shape(cfg, s) && t < cfg.threads && l in cfg.lists && s.threads[t].Idle? && !s.failed
    requires s.chains[l] != [] && s.chains[l][0] < |s.cells| && s.heads[l] == At(s.chains[l][0]) && s.holder[l] == None
    requires After(cfg, run) == TakeToGet(s, t, l, sz)
    ensures IsRun(cfg, r)
    ensures var q := if l.Pool? then Found(s.chains[l][0], sz) else Idle;
      After(cfg, r) == Got(s, t, l).(cells := s.cells, threads := s.threads[t := q])
  {
    var b := s.chains[l][0];
    var next := s.cells[b].next;
    r := ReadCall(cfg, run, t, l, b, sz);
    r := PopCall(cfg, r, t, l, b, next, sz);
    OutState(s, t, l, b, next, if l.Pool? then Found(b, sz) else Idle, Opened(l, At(b), sz), Read(l, b, next, sz));
  }

  /** A get, from its first exchange to where the block is out of its list. */
  lemma {:induction false} GetCall(cfg: Config, run: seq<Step>, start: seq<Step>, t: nat, l: ListId, sz: nat)
    returns (r: seq<Step>)
    requires IsRun(cfg, start) && IsRun(cfg, run) && t < cfg.threads && l in cfg.lists
    requires Shape(cfg, After(cfg, start)) && After(cfg, start).threads[t].Idle?
    requires After(cfg, run) == TakeToGet(After(cfg, start), t, l, sz)
    ensures IsRun(cfg, r)
    ensures var s := After(cfg, start);
      (s.heads[l] == Null || s.heads[l] == Head(s.chains[l])) && (s.chains[l] != [] ==> s.chains[l][0] < |s.cells|)
    ensures var s := After(cfg, start);
      After(cfg, r) == if s.heads[l] == Null || s.chains[l] == [] then s
                       else
                         var q := if l.Pool? then Found(s.chains[l][0], sz) else Idle;
                         Got(s, t, l).(cells := s.cells, threads := s.threads[t := q])
  {
    var s := After(cfg, start);
    ListFacts(cfg, start, l);
    if s.heads[l] == Null {
      BusyGet(s, t, l, sz);
      r := run;
    } else if s.chains[l] == [] {
      r := EmptyGet(cfg, run, s, t, l, sz);
    } else {
      r := TakenGet(cfg, run, s, t, l, sz);
    }
  }

  lemma {:induction false} IdleState(s: State, t: nat, l: ListId)
    requires l in s.heads && l in s.chains && s.chains[l] != [] && s.chains[l][0] < |s.cells| == |s.places|
    requires t < |s.threads| && s.threads[t].Idle? && l.Queue?
    ensures Got(s, t, l) == Got(s, t, l).(cells := s.cells, threads := s.threads[t := Idle])
  {
    assert s.threads[t := Idle] == s.threads;
  }

  /** `queue::dequeue`. */
  lemma {:induction false} DequeueCall(cfg: Config, run: seq<Step>, t: nat, pe: nat) returns (r: seq<Step>)
    requires IsRun(cfg, run) && Enabled(cfg, After(cfg, run), Dequeue(t, pe))
    ensures IsRun(cfg, r)
    ensures var s, l := After(cfg, run), Queue(pe);
      (s.heads[l] == Null || s.heads[l] == Head(s.chains[l])) && (s.chains[l] != [] ==> s.chains[l][0] < |s.cells|)
    ensures var s, l := After(cfg, run), Queue(pe);
      After(cfg, r) == if s.heads[l] == Null || s.chains[l] == [] then s else Got(s, t, l)
  {
    var s, l := After(cfg, run), Queue(pe);
    r := Step1(cfg, run, Dequeue(t, pe));
    r := GetCall(cfg, r, run, t, l, 0);
    if s.chains[l] != [] {
      IdleState(s, t, l);
    }
  }

  /** The last step of `ralloc` marks the block, which was not in use. */
  lemma {:induction false} MarkUsed(cfg: Config, run: seq<Step>, t: nat, b: Block, sz: nat) returns (r: seq<Step>)
    requires IsRun(cfg, run) && Shape(cfg, After(cfg, run)) && t < cfg.threads
    requires After(cfg, run).threads[t] == Found(b, sz)
    ensures IsRun(cfg, r) && b < |After(cfg, run).cells|
    ensures var s := After(cfg, run); !s.cells[b].used && sz <= s.cells[b].size
    ensures var s := After(cfg, run);
      After(cfg, r) == s.(cells := s.cells[b := s.cells[b].(used := true)], threads := s.threads[t := Idle])
  {
    RunInv(cfg, run);
    assert ThreadOk(cfg, After(cfg, run), t);
    r := Step1(cfg, run, Go(t));
  }

  lemma {:induction false} MarkedState(s: State, t: nat, l: ListId, sz: nat)
    requires l in s.heads && l in s.chains && s.chains[l] != [] && s.chains[l][0] < |s.cells| == |s.places|
    requires t < |s.threads| && s.threads[t].Idle? && l.Pool?
    ensures var b := s.chains[l][0];
      Got(s, t, l) == Got(s, t, l).(cells := s.cells[b := s.cells[b].(used := true)],
                                    threads := s.threads[t := Found(b, sz)][t := Idle])
  {
    assert s.threads[t := Found(s.chains[l][0], sz)][t := Idle] == s.threads;
  }

  /** `mempool::ralloc`. */
  lemma {:induction false} RallocCall(cfg: Config, run: seq<Step>, t: nat, pe: nat, sz: nat) returns (r: seq<Step>)
    requires IsRun(cfg, run) && Enabled(cfg, After(cfg, run), Ralloc(t, pe, sz))
    ensures IsRun(cfg, r)
    ensures var s, l := After(cfg, run), Pool(pe, ClassOf(sz));
      (s.heads[l] == Null || s.heads[l] == Head(s.chains[l])) &&
      (s.chains[l] != [] ==> s.chains[l][0] < |s.cells|)
    ensures var s, l := After(cfg, run), Pool(pe, ClassOf(sz));
      After(cfg, r) == if s.heads[l] == Null || s.chains[l] == [] then s else Got(s, t, l)
    ensures var s, l := After(cfg, run), Pool(pe, ClassOf(sz));
      s.heads[l] != Null && s.chains[l] != [] ==> !s.cells[s.chains[l][0]].used && sz <= s.cells[s.chains[l][0]].size
  {
    var s, l := After(cfg, run), Pool(pe, ClassOf(sz));
    r := Step1(cfg, run, Ralloc(t, pe, sz));
    r := GetCall(cfg, r, run, t, l, sz);
    if s.heads[l] != Null && s.chains[l] != [] {
      var b := s.chains[l][0];
      r := MarkUsed(cfg, r, t, b, sz);
      MarkedState(s, t, l, sz);
    }
  }

  // ----- What a call does to the memory -----

  lemma {:induction false} NewMemory(s: State, t: nat, size: nat, l: ListId)
    requires l in s.heads && l in s.chains && |s.cells| == |s.places|
    ensures Put(Allocated(s, size, Fresh(t)), l, |s.cells|).cells == s.cells + [Cell(s.heads[l], size, false)]
    ensures Put(Allocated(s, size, Fresh(t)), l, |s.cells|).heads == s.heads[l := At(|s.cells|)]
  {
    assert (s.cells + [Cell(Null, size, false)])[|s.cells| := Cell(s.heads[l], size, false)]
        == s.cells + [Cell(s.heads[l], size, false)];
  }

  /** A put of a new block of `size` bytes by thread `t` leaves it on list `l`, or lost. */
  ghost predicate Places(before: State, t: nat, l: ListId, size: nat, ok: bool, after: State)
  {
    && l in before.heads && l in before.chains && |before.cells| == |before.places|
    && after == if ok then Put(Allocated(before, size, Fresh(t)), l, |before.cells|)
                else Allocated(before, size, Leaked)
  }

  lemma {:induction false} PlacesMemory(before: State, t: nat, l: ListId, size: nat, ok: bool, after: State)
    requires Places(before, t, l, size, ok, after)
    ensures after.heads == if ok then before.heads[l := At(|before.cells|)] else before.heads
    ensures after.cells == before.cells + [Cell(if ok then before.heads[l] else Null, size, false)]
  {
    NewMemory(before, t, size, l);
  }

  lemma {:induction false} LputPlaces(cfg: Config, run: seq<Step>, t: nat, size: nat, pe: nat, l: ListId, exact: bool)
    returns (r: seq<Step>)
    requires IsRun(cfg, run) && Enabled(cfg, After(cfg, run), Alloc(t, size, pe))
    requires l == Pool(pe, ClassOf(size)) && exact == (size == CUTOFFS[ClassOf(size)])
    ensures IsRun(cfg, r)
    ensures l in After(cfg, run).heads
    ensures Places(After(cfg, run), t, l, size, exact && After(cfg, run).heads[l] != Null, After(cfg, r))
  {
    r := LputCall(cfg, run, t, size, pe);
  }

  /** A get by thread `t` yields the top block of list `l`; or nothing, and changes
      nothing, exactly if the list is empty or another thread has it. */
  ghost predicate Yields(before: State, t: nat, l: ListId, block: Option<Block>, after: State)
  {
    && l in before.heads && l in before.chains
    && (block.None? <==> before.heads[l] == Null || before.chains[l] == [])
    && (block.None? ==> after == before)
    && (block.Some? ==>
          block.value == before.chains[l][0] < |before.cells| == |before.places| && after == Got(before, t, l))
  }

  /** The block a get finds by looking at the head. */
  function TopOf(heads: map<ListId, Ptr>, l: ListId): Option<Block>
  {
    if l in heads && heads[l].At? then Some(heads[l].b) else None
  }

  lemma {:induction false} DequeueMemory(cfg: Config, run: seq<Step>, t: nat, pe: nat) returns (r: seq<Step>)
    requires IsRun(cfg, run) && Enabled(cfg, After(cfg, run), Dequeue(t, pe))
    ensures IsRun(cfg, r)
    ensures var s, l := After(cfg, run), Queue(pe);
      var top := TopOf(s.heads, l);
      && Yields(s, t, l, top, After(cfg, r)) && After(cfg, r).cells == s.cells
      && After(cfg, r).heads == if top.Some? then s.heads[l := s.cells[top.value].next] else s.heads
  {
    r := DequeueCall(cfg, run, t, pe);
  }

  lemma {:induction false} RallocMemory(cfg: Config, run: seq<Step>, t: nat, pe: nat, sz: nat) returns (r: seq<Step>)
    requires IsRun(cfg, run) && Enabled(cfg, After(cfg, run), Ralloc(t, pe, sz))
    ensures IsRun(cfg, r)
    ensures var s, l := After(cfg, run), Pool(pe, ClassOf(sz));
      var top := TopOf(s.heads, l);
      && Yields(s, t, l, top, After(cfg, r))
      && After(cfg, r).heads == (if top.Some? then s.heads[l := s.cells[top.value].next] else s.heads)
      && After(cfg, r).cells == (if top.Some? then s.cells[top.value := s.cells[top.value].(used := true)] else s.cells)
      && (top.Some? ==> !s.cells[top.value].used && sz <= s.cells[top.value].size)
  {
    r := RallocCall(cfg, run, t, pe, sz);
  }
}
