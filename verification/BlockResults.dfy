/** What the invariant of `BlockProof` gives about every run of the pools and
    queues. */
module BlockResults {
  import opened Wrappers
  import opened SizeClasses
  import opened BlockLists
  import opened BlockProof

  ghost predicate BothTake(s: State, t: nat, u: nat, l: ListId)
    requires t < |s.threads| && u < |s.threads|
  {
    Taken(s.threads[t]) == Some(l) && Taken(s.threads[u]) == Some(l)
  }

  /** Exchanging the head with null is a try-lock: no assertion ever fails (so
      every second exchange got null back), a list's head is null exactly while a
      thread is between its two exchanges on it, and then only that thread is. */
  lemma {:induction false} ExchangeIsTryLock(cfg: Config, run: seq<Step>, l: ListId)
    requires IsRun(cfg, run) && l in cfg.lists
    ensures Shape(cfg, After(cfg, run)) && !After(cfg, run).failed
    ensures var s := After(cfg, run);
      s.heads[l] == Null <==> exists t: nat :: t < cfg.threads && Taken(s.threads[t]) == Some(l)
    ensures var s := After(cfg, run);
      forall t: nat, u: nat :: t < cfg.threads && u < cfg.threads && BothTake(s, t, u, l) ==> t == u
  {
    RunInv(cfg, run);
    var s := After(cfg, run);
    assert LockOk(s, l);
    forall t: nat, u: nat | t < cfg.threads && u < cfg.threads && BothTake(s, t, u, l) ensures t == u
    {
      assert ThreadOk(cfg, s, t) && ThreadOk(cfg, s, u);
    }
    forall t: nat | t < cfg.threads && Taken(s.threads[t]) == Some(l) ensures s.heads[l] == Null {
      assert ThreadOk(cfg, s, t);
    }
    if s.heads[l] == Null {
      assert s.holder[l].Some?;
    }
  }

  /** The step gives a list back: it asserts that nobody put anything there meanwhile. */
  ghost predicate GivesBack(s: State, st: Step, l: ListId)
  {
    st.Go? && st.t < |s.threads| &&
    match s.threads[st.t]
    case Linked(k, _) => k == l
    case Read(k, _, _, _) => k == l
    case Opened(k, prev, _) => k == l && !prev.At?
    case _ => false
  }

  /** `failed` is exactly the record of an assertion that did not hold: that the head was
      null when a list is given back, and that a block found in a pool was not in use. */
  lemma {:induction false} FailsExactly(cfg: Config, s: State, st: Step)
    requires Enabled(cfg, s, st)
    ensures Next(cfg, s, st).failed <==>
            || s.failed || (exists l :: l in s.heads && GivesBack(s, st, l) && s.heads[l] != Null)
            || (st.Go? && s.threads[st.t].Found? && s.cells[s.threads[st.t].b].used)
  {
    if st.Go? && Taken(s.threads[st.t]).Some? {
      var l := Taken(s.threads[st.t]).value;
      assert GivesBack(s, st, l) ==> forall k :: GivesBack(s, st, k) ==> k == l;
    }
  }

  /** Each block is where its place says and nowhere else: it is in a list exactly
      when its place is that list, at one position, so lists share no block and
      no block that is in somebody's hands, freed or leaked is in a list. */
  lemma {:induction false} OnePlace(cfg: Config, run: seq<Step>, b: Block, l: ListId)
    requires IsRun(cfg, run) && b < |After(cfg, run).cells| && l in cfg.lists
    ensures Shape(cfg, After(cfg, run))
    ensures var s := After(cfg, run);
      && (s.places[b] == InList(l) <==> b in s.chains[l])
      && (forall i, j :: 0 <= i < j < |s.chains[l]| ==> s.chains[l][i] != s.chains[l][j])
  {
    RunInv(cfg, run);
    var s := After(cfg, run);
    assert ChainOk(s, l) && BlockOk(cfg, s, b);
  }

  /** The memory agrees with the list: from the head -- or, while a thread has the
      list, from the head it saved -- the `next` fields lead through exactly the
      list's blocks to the tail.  In particular no list is cyclic. */
  lemma {:induction false} LinksLeadThroughList(cfg: Config, run: seq<Step>, l: ListId)
    requires IsRun(cfg, run) && l in cfg.lists
    ensures Shape(cfg, After(cfg, run))
    ensures var s := After(cfg, run);
      Links(s.cells, Head(s.chains[l]), s.chains[l]) && (s.heads[l] == Null || s.heads[l] == Head(s.chains[l]))
    ensures var s := After(cfg, run);
      forall t: nat :: t < cfg.threads ==>
        match s.threads[t]
        case Took(k, b, prev) => k == l ==> prev == Head(s.chains[l]) && b !in s.chains[l]
        case Opened(k, prev, _) => k == l ==> prev == Head(s.chains[l])
        case _ => true
  {
    RunInv(cfg, run);
    var s := After(cfg, run);
    assert LockOk(s, l) && ChainOk(s, l);
    forall t: nat | t < cfg.threads
      ensures match s.threads[t]
        case Took(k, b, prev) => k == l ==> prev == Head(s.chains[l]) && b !in s.chains[l]
        case Opened(k, prev, _) => k == l ==> prev == Head(s.chains[l])
        case _ => true
    {
      assert ThreadOk(cfg, s, t);
    }
  }

  // ---------------------------------------------------------------- the stack in the memory

  /** From where the blocks of a list are linked while thread `q` has it, as far as that
      thread knows: the head it saved, or the block that leads there. */
  ghost function SavedTop(cells: seq<Cell>, q: Thread, l: ListId): Option<Ptr>
  {
    match q
    case Took(k, _, prev) => if k == l then Some(prev) else None
    case Linked(k, b) => if k == l && b < |cells| then Some(cells[b].next) else None
    case Opened(k, prev, _) => if k == l then Some(prev) else None
    case Read(k, b, _, _) => if k == l then Some(At(b)) else None
    case _ => None
  }

  /** Following the memory's links gives the stack `c`: from the head of list `l`, or
      while its head is null, from what the thread that has the list saved. */
  ghost predicate Stacked(s: State, l: ListId, c: seq<Block>)
  {
    && l in s.heads
    && if s.heads[l] != Null then Links(s.cells, s.heads[l], c)
       else exists t :: 0 <= t < |s.threads| && SavedTop(s.cells, s.threads[t], l).Some? &&
                        Links(s.cells, SavedTop(s.cells, s.threads[t], l).value, c)
  }

  /** The links from one pointer lead through one sequence of blocks only. */
  lemma {:induction false} LinksUnique(cells: seq<Cell>, p: Ptr, c: seq<Block>, d: seq<Block>)
    requires Links(cells, p, c) && Links(cells, p, d)
    ensures c == d
    decreases |c|
  {
    if c != [] && d != [] {
      LinksUnique(cells, cells[c[0]].next, c[1..], d[1..]);
    }
  }

  /** What a thread saved leads to the list's blocks. */
  lemma {:induction false} SavedLinks(cfg: Config, s: State, t: nat, l: ListId)
    requires Inv(cfg, s) && t < cfg.threads && l in cfg.lists && SavedTop(s.cells, s.threads[t], l).Some?
    ensures Links(s.cells, SavedTop(s.cells, s.threads[t], l).value, s.chains[l])
  {
    assert ThreadOk(cfg, s, t) && ChainOk(s, l);
  }

  /** The stack in the memory is the list's contents, and no other. */
  lemma {:induction false} StackIsChain(cfg: Config, s: State, l: ListId, c: seq<Block>)
    requires Inv(cfg, s) && l in cfg.lists
    ensures Stacked(s, l, c) <==> c == s.chains[l]
  {
    assert LockOk(s, l) && ChainOk(s, l);
    if s.heads[l] == Null {
      var h := s.holder[l].value;
      assert ThreadOk(cfg, s, h);
      SavedLinks(cfg, s, h, l);
    }
    if Stacked(s, l, c) {
      if s.heads[l] != Null {
        LinksUnique(s.cells, s.heads[l], c, s.chains[l]);
      } else {
        var t :| 0 <= t < |s.threads| && SavedTop(s.cells, s.threads[t], l).Some? &&
                 Links(s.cells, SavedTop(s.cells, s.threads[t], l).value, c);
        SavedLinks(cfg, s, t, l);
        LinksUnique(s.cells, SavedTop(s.cells, s.threads[t], l).value, c, s.chains[l]);
      }
    }
  }

  /** In every reachable state the memory holds exactly one stack for each list. */
  lemma {:induction false} OneStack(cfg: Config, run: seq<Step>, l: ListId) returns (c: seq<Block>)
    requires IsRun(cfg, run) && l in cfg.lists
    ensures forall d :: Stacked(After(cfg, run), l, d) <==> d == c
  {
    RunInv(cfg, run);
    var s := After(cfg, run);
    c := s.chains[l];
    forall d ensures Stacked(s, l, d) <==> d == c {
      StackIsChain(cfg, s, l, d);
    }
  }

  /** The step is the second exchange of a put of `b` on `l`. */
  ghost predicate Puts(s: State, st: Step, l: ListId, b: Block)
  {
    st.Go? && st.t < |s.threads| && s.threads[st.t] == Linked(l, b)
  }

  /** The step is the second exchange of a get that takes `b` from `l`. */
  ghost predicate Gets(s: State, st: Step, l: ListId, b: Block)
  {
    st.Go? && st.t < |s.threads| && s.threads[st.t].Read? && s.threads[st.t].l == l && s.threads[st.t].b == b
  }

  lemma {:induction false} PutChain(cfg: Config, s: State, t: nat)
    requires Enabled(cfg, s, Go(t)) && s.threads[t].Linked?
    ensures var l, b := s.threads[t].l, s.threads[t].b;
      Next(cfg, s, Go(t)).chains == s.chains[l := [b] + s.chains[l]]
  {
  }

  lemma {:induction false} GetChain(cfg: Config, s: State, t: nat)
    requires Enabled(cfg, s, Go(t)) && s.threads[t].Read? && ThreadOk(cfg, s, t)
    ensures var l, b := s.threads[t].l, s.threads[t].b;
      && s.chains[l] == [b] + s.chains[l][1..]
      && Next(cfg, s, Go(t)).chains == s.chains[l := s.chains[l][1..]]
  {
  }

  lemma {:induction false} OtherChains(cfg: Config, s: State, st: Step)
    requires Enabled(cfg, s, st) && !(st.Go? && (s.threads[st.t].Linked? || s.threads[st.t].Read?))
    ensures Next(cfg, s, st).chains == s.chains
  {
    if st.Go? {
      GoKeepsChains(cfg, s, st.t);
    }
  }

  lemma {:induction false} ChainStep(cfg: Config, s: State, st: Step, l: ListId)
    requires Inv(cfg, s) && Enabled(cfg, s, st) && l in cfg.lists
    ensures var before, after := s.chains[l], Next(cfg, s, st).chains[l];
      && (forall b :: Puts(s, st, l, b) ==> after == [b] + before)
      && (forall b :: Gets(s, st, l, b) ==> before == [b] + after)
      && ((forall b :: !Puts(s, st, l, b) && !Gets(s, st, l, b)) ==> after == before)
  {
    if st.Go? && s.threads[st.t].Linked? {
      PutChain(cfg, s, st.t);
      assert Puts(s, st, s.threads[st.t].l, s.threads[st.t].b);
    } else if st.Go? && s.threads[st.t].Read? {
      assert ThreadOk(cfg, s, st.t);
      GetChain(cfg, s, st.t);
      assert Gets(s, st, s.threads[st.t].l, s.threads[st.t].b);
    } else {
      OtherChains(cfg, s, st);
    }
  }

  lemma {:induction false} GoKeepsChains(cfg: Config, s: State, t: nat)
    requires Enabled(cfg, s, Go(t)) && !s.threads[t].Linked? && !s.threads[t].Read?
    ensures Gone(cfg, s, t).chains == s.chains
  {
  }

  /** Every list is an atomic stack in the memory: whatever steps the threads take, the
      second exchange of a put pushes the caller's block on it, the second exchange of a
      get pops the caller's block off it, and no other step changes it. */
  lemma {:induction false} AtomicStack(cfg: Config, run: seq<Step>, st: Step, l: ListId, c: seq<Block>, d: seq<Block>)
    requires IsRun(cfg, run) && Enabled(cfg, After(cfg, run), st) && l in cfg.lists
    requires Stacked(After(cfg, run), l, c) && Stacked(Next(cfg, After(cfg, run), st), l, d)
    ensures forall b :: Puts(After(cfg, run), st, l, b) ==> d == [b] + c
    ensures forall b :: Gets(After(cfg, run), st, l, b) ==> c == [b] + d
    ensures (forall b :: !Puts(After(cfg, run), st, l, b) && !Gets(After(cfg, run), st, l, b)) ==> d == c
  {
    var s := After(cfg, run);
    RunInv(cfg, run);
    NextInv(cfg, s, st);
    StackIsChain(cfg, s, l, c);
    StackIsChain(cfg, Next(cfg, s, st), l, d);
    ChainStep(cfg, s, st, l);
  }

  /** The second exchange of a put leaves the head at the caller's block, linked to what
      the list held, which the memory linked before. */
  lemma {:induction false} PutPushes(cfg: Config, run: seq<Step>, t: nat, l: ListId, b: Block)
    requires IsRun(cfg, run) && Enabled(cfg, After(cfg, run), Go(t)) && After(cfg, run).threads[t] == Linked(l, b)
    ensures var s := After(cfg, run); var s' := Next(cfg, s, Go(t));
      && Links(s.cells, Head(s.chains[l]), s.chains[l])
      && Links(s'.cells, s'.heads[l], [b] + s.chains[l]) && b !in s.chains[l] && s'.threads[t] == Idle
  {
    RunInv(cfg, run);
    var s := After(cfg, run);
    NextInv(cfg, s, Go(t));
    assert ThreadOk(cfg, s, t) && ChainOk(s, l) && ChainOk(Next(cfg, s, Go(t)), l);
  }

  /** The second exchange of a get takes the block the memory had on top, hands it to
      the caller, and leaves the rest linked from the head. */
  lemma {:induction false} GetPops(cfg: Config, run: seq<Step>, t: nat, l: ListId, b: Block, next: Ptr, sz: nat)
    requires IsRun(cfg, run) && Enabled(cfg, After(cfg, run), Go(t))
    requires After(cfg, run).threads[t] == Read(l, b, next, sz)
    ensures var s := After(cfg, run); var s' := Next(cfg, s, Go(t));
      && s.chains[l] != [] && s.chains[l][0] == b && Links(s.cells, At(b), s.chains[l])
      && Links(s'.cells, s'.heads[l], s.chains[l][1..])
      && b < |s'.places| && s'.places[b] == (if l.Pool? then Held(t) else Received(t))
  {
    RunInv(cfg, run);
    var s := After(cfg, run);
    NextInv(cfg, s, Go(t));
    assert ThreadOk(cfg, s, t) && ChainOk(s, l) && ChainOk(Next(cfg, s, Go(t)), l);
  }

  /** A call that finds the list taken returns at once and changes nothing but the
      place of a block nobody can reach any more (a failed `lput` leaks it). */
  lemma {:induction false} BusyChangesNothing(cfg: Config, run: seq<Step>, st: Step, l: ListId)
    requires IsRun(cfg, run) && Enabled(cfg, After(cfg, run), st) && l in cfg.lists
    requires After(cfg, run).heads[l] == Null
    requires (st.Ralloc? && l == Pool(st.pe,
        ClassOf(st.sz))) || (st.Enqueue? && l == Queue(st.pe)) || (st.Dequeue? && l == Queue(st.pe))
    ensures Next(cfg, After(cfg, run), st) == After(cfg, run)
  {
    var s := After(cfg, run);
    RunInv(cfg, run);
    if st.Enqueue? {
      BusyPut(s, st.t, l, st.b, Held(st.t));
    } else {
      BusyGet(s, st.t, l, if st.Ralloc? then st.sz else 0);
    }
  }

  /** A get that finds the list empty takes it and gives it back as it was. */
  lemma {:induction false} EmptyChangesNothing(cfg: Config, run: seq<Step>, t: nat, l: ListId, sz: nat)
    requires IsRun(cfg, run) && t < cfg.threads && l in cfg.lists && Shape(cfg, After(cfg, run))
    requires After(cfg, run).threads[t].Idle? && After(cfg, run).heads[l] == Tail
    ensures After(cfg, run).chains[l] == []
    ensures var s1 := TakeToGet(After(cfg, run), t, l, sz);
      Enabled(cfg, s1, Go(t)) && Next(cfg, s1, Go(t)) == After(cfg, run)
  {
    RunInv(cfg, run);
    assert LockOk(After(cfg, run), l);
    GivenBack(cfg, After(cfg, run), t, l, sz);
  }

  lemma {:induction false} GivenBack(cfg: Config, s: State, t: nat, l: ListId, sz: nat)
    requires Shape(cfg, s) && t < cfg.threads && l in cfg.lists && s.threads[t].Idle? && !s.failed
    requires s.heads[l] == Tail && s.holder[l] == None
    ensures var s1 := TakeToGet(s, t, l, sz); Enabled(cfg, s1, Go(t)) && Next(cfg, s1, Go(t)) == s
  {
    assert s.heads[l := Null][l := Tail] == s.heads;
    assert s.holder[l := Some(t)][l := None] == s.holder;
    assert s.threads[t := Opened(l, Tail, sz)][t := Idle] == s.threads;
  }

  /** The block `ralloc(sz)` returns is not in use, has at least `sz` bytes, and
      less than twice as many above the smallest class. */
  lemma {:induction false} RallocFits(cfg: Config, run: seq<Step>, t: nat)
    requires IsRun(cfg, run) && t < cfg.threads && t < |After(cfg, run).threads| && After(cfg, run).threads[t].Found?
    ensures var s := After(cfg, run); var b, sz := s.threads[t].b, s.threads[t].sz;
      b < |s.cells| == |s.places| && s.places[b] == Held(t) && !s.cells[b].used && sz <= s.cells[b].size
      && (s.cells[b].size > CUTOFFS[0] ==> s.cells[b].size < 2 * sz)
  {
    RunInv(cfg, run);
    var s := After(cfg, run);
    assert ThreadOk(cfg, s, t);
    FitIsTight(s.threads[t].sz, ClassOf(s.threads[t].sz));
  }

  /** Every block in a pool list has exactly the size of the list's class and has
      not been handed out; every block in a queue has. */
  lemma {:induction false} PoolsHoldTheirClass(cfg: Config, run: seq<Step>, l: ListId, b: Block)
    requires IsRun(cfg, run) && l in cfg.lists && l in After(cfg, run).chains && b in After(cfg, run).chains[l]
    ensures var s := After(cfg, run);
      && b < |s.cells| && s.cells[b].used == l.Queue?
      && (l.Pool? ==> l.class_ < CLASSES && s.cells[b].size == CUTOFFS[l.class_])
  {
    RunInv(cfg, run);
    var s := After(cfg, run);
    assert ChainOk(s, l) && b < |s.places| && s.places[b] == InList(l);
    assert BlockOk(cfg, s, b);
  }

  /** A block's life goes one way: into a pool, into somebody's hands, into a
      queue, into a receiver's hands, freed; the only exit is the leak. */
  ghost function Age(p: Place): nat
  {
    match p
    case Fresh(_) => 0
    case InList(Pool(_, _)) => 1
    case Held(_) => 2
    case InList(Queue(_)) => 3
    case Received(_) => 4
    case Freed => 5
    case Leaked => 6
  }

  ghost predicate OneStepOlder(p: Place, q: Place)
  {
    q == p || Age(q) == Age(p) + 1 || (p.Fresh? && q == Leaked)
  }

  lemma {:induction false} PopAges(cfg: Config, s: State, t: nat, b: Block)
    requires Inv(cfg, s) && Enabled(cfg, s, Go(t)) && b < |s.cells| && s.threads[t].Read?
    ensures b < |Next(cfg, s, Go(t)).places| && OneStepOlder(s.places[b], Next(cfg, s, Go(t)).places[b])
  {
    assert ThreadOk(cfg, s, t) && ChainOk(s, s.threads[t].l);
    TopIsIn(s, s.threads[t].l, s.threads[t].b);
  }

  lemma {:induction false} GoAges(cfg: Config, s: State, t: nat, b: Block)
    requires Inv(cfg, s) && Enabled(cfg, s, Go(t)) && b < |s.cells|
    ensures b < |Next(cfg, s, Go(t)).places| && OneStepOlder(s.places[b], Next(cfg, s, Go(t)).places[b])
  {
    if s.threads[t].Read? {
      PopAges(cfg, s, t, b);
    } else {
      assert ThreadOk(cfg, s, t);
    }
  }

  lemma {:induction false} StepAges(cfg: Config, s: State, st: Step, b: Block)
    requires Inv(cfg, s) && Enabled(cfg, s, st) && b < |s.cells|
    ensures b < |Next(cfg, s, st).places| && OneStepOlder(s.places[b], Next(cfg, s, st).places[b])
  {
    if st.Go? { GoAges(cfg, s, st.t, b); }
  }

  lemma {:induction false} LifeGoesOneWay(cfg: Config, run: seq<Step>, st: Step, b: Block)
    requires IsRun(cfg, run) && Enabled(cfg, After(cfg, run), st) && b < |After(cfg, run).cells|
    ensures b < |After(cfg, run).places| && b < |Next(cfg, After(cfg, run), st).places|
    ensures OneStepOlder(After(cfg, run).places[b], Next(cfg, After(cfg, run), st).places[b])
  {
    RunInv(cfg, run);
    StepAges(cfg, After(cfg, run), st, b);
  }
}
