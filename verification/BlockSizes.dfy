/** What a run leaves in the fields of each block: sizes are those its holder set, in
    the pools and queues and in the receiver's hands. */
module BlockSizes {
  import opened Wrappers
  import opened SizeClasses
  import opened BlockLists
  import opened BlockProof
  import opened BlockResults

  // ---------------------------------------------------------------- what the run says

  function Allocations(run: seq<Step>): nat
  {
    if run == [] then 0 else Allocations(run[..|run| - 1]) + if run[|run| - 1].Alloc? then 1 else 0
  }

  /** The size block `b` was allocated with: blocks are numbered by allocation. */
  function Allocated(run: seq<Step>, b: Block): nat
  {
    if run == [] then 0
    else
      var (rest, st) := (run[..|run| - 1], run[|run| - 1]);
      if st.Alloc? && Allocations(rest) == b then st.size else Allocated(rest, b)
  }

  /** The size the holder of block `b` last set. */
  function LastSet(run: seq<Step>, b: Block): Option<nat>
  {
    if run == [] then None
    else if run[|run| - 1].Resize? && run[|run| - 1].b == b then Some(run[|run| - 1].sz)
    else LastSet(run[..|run| - 1], b)
  }

  /** Block `b` was given to `free`. */
  predicate WasFreed(run: seq<Step>, b: Block)
  {
    run != [] && ((run[|run| - 1].Free? && run[|run| - 1].b == b) || WasFreed(run[..|run| - 1], b))
  }

  // ---------------------------------------------------------------- one step

  ghost function LinkSet(s: State, st: Step, b: Block): Option<Ptr>
    requires st.t < |s.threads|
  {
    if st.Go? && s.threads[st.t].Took? && s.threads[st.t].b == b then Some(s.threads[st.t].prev) else None
  }

  /** Which fields of which block each step writes: a resize the size of its block, the
      second step of a put the link of its block, the last step of `ralloc` the mark of the
      block found, and no other step anything. */
  lemma {:induction false} OnlyFieldWritten(cfg: Config, s: State, st: Step, b: Block)
    requires Enabled(cfg, s, st) && b < |s.cells|
    ensures |s.cells| <= |Next(cfg, s, st).cells|
    ensures var c, d := s.cells[b], Next(cfg, s, st).cells[b];
      && d.size == (if st.Resize? && st.b == b then st.sz else c.size)
      && d.next == (if LinkSet(s, st, b).Some? then LinkSet(s, st, b).value else c.next)
      && d.used == (c.used || (st.Go? && s.threads[st.t].Found? && s.threads[st.t].b == b))
  {
    if st.Go? { GoWrites(cfg, s, st.t, b); }
  }

  lemma {:induction false} GoWrites(cfg: Config, s: State, t: nat, b: Block)
    requires Enabled(cfg, s, Go(t)) && b < |s.cells|
    ensures |s.cells| == |Gone(cfg, s, t).cells|
    ensures var c, d := s.cells[b], Gone(cfg, s, t).cells[b];
      && d.size == c.size
      && d.next == (if LinkSet(s, Go(t), b).Some? then LinkSet(s, Go(t), b).value else c.next)
      && d.used == (c.used || (s.threads[t].Found? && s.threads[t].b == b))
  {
  }

  lemma {:induction false} NewCells(cfg: Config, s: State, st: Step)
    requires Enabled(cfg, s, st)
    ensures |Next(cfg, s, st).cells| == |s.cells| + if st.Alloc? then 1 else 0
    ensures st.Alloc? ==> Next(cfg, s, st).cells[|s.cells|].size == st.size
    ensures st.Alloc? ==>
              |Next(cfg, s, st).places| == |s.cells| + 1 && Next(cfg, s, st).places[|s.cells|] == Fresh(st.t)
  {
  }

  /** Only `free` frees, and it frees its block only. */
  lemma {:induction false} FreesOnly(cfg: Config, s: State, st: Step, b: Block)
    requires Inv(cfg, s) && Enabled(cfg, s, st) && b < |s.places|
    ensures b < |Next(cfg, s, st).places|
    ensures Next(cfg, s, st).places[b] == Freed <==> (s.places[b] == Freed || (st.Free? && st.b == b))
  {
    if st.Go? {
      assert ThreadOk(cfg, s, st.t);
      GoFreesNone(cfg, s, st.t, b);
    }
  }

  lemma {:induction false} GoFreesNone(cfg: Config, s: State, t: nat, b: Block)
    requires Inv(cfg, s) && Enabled(cfg, s, Go(t)) && b < |s.places| && ThreadOk(cfg, s, t)
    ensures Gone(cfg, s, t).places[b] == Freed <==> s.places[b] == Freed
  {
    if s.threads[t].Read? {
      assert ChainOk(s, s.threads[t].l);
      TopIsIn(s, s.threads[t].l, s.threads[t].b);
      ReadMoves(cfg, s, t);
    } else {
      GoMoves(cfg, s, t);
    }
  }

  lemma {:induction false} ReadMoves(cfg: Config, s: State, t: nat)
    requires Enabled(cfg, s, Go(t)) && s.threads[t].Read?
    ensures var b := s.threads[t].b;
      Gone(cfg, s, t).places == s.places[b := if s.threads[t].l.Pool? then Held(t) else Received(t)]
  {
  }

  ghost predicate MovedTo(before: seq<Place>, after: seq<Place>, b: Block, p: Place)
  {
    b < |before| && after == before[b := p]
  }

  lemma {:induction false} GoMoves(cfg: Config, s: State, t: nat)
    requires Enabled(cfg, s, Go(t)) && ThreadOk(cfg, s, t) && !s.threads[t].Read?
    ensures Gone(cfg, s, t).places == s.places || exists b: Block, p: Place ::
              MovedTo(s.places, Gone(cfg, s, t).places, b, p) && s.places[b] != Freed && p != Freed
  {
    var r := Gone(cfg, s, t);
    match s.threads[t]
    case Putting(b, _) => assert r.places == s.places || MovedTo(s.places, r.places, b, Leaked);
    case Linked(l, b) => assert MovedTo(s.places, r.places, b, InList(l));
    case _ => assert r.places == s.places;
  }

  // ---------------------------------------------------------------- every run

  /** The size a block has when it was allocated for `original` bytes and `chosen` was last set. */
  function SizeOf(chosen: Option<nat>, original: nat): nat
  {
    match chosen
    case Some(sz) => sz
    case None => original
  }

  ghost predicate RecordOk(size: nat, place: Place, chosen: Option<nat>, original: nat, freed: bool)
  {
    && size == SizeOf(chosen, original) <= original
    && (place == Freed <==> freed)
    && (Age(place) < 2 ==> chosen == None)
    && (1 <= Age(place) <= 5 ==> original in CUTOFFS)
  }

  /** Block `b`'s record agrees with the run. */
  ghost predicate Recorded(s: State, run: seq<Step>, b: Block)
  {
    && b < |s.cells| && b < |s.places|
    && RecordOk(s.cells[b].size, s.places[b], LastSet(run, b), Allocated(run, b), WasFreed(run, b))
  }

  lemma {:induction false} RunAllocates(cfg: Config, run: seq<Step>)
    requires IsRun(cfg, run)
    ensures |After(cfg, run).cells| == Allocations(run)
    decreases |run|
  {
    if run != [] {
      RunAllocates(cfg, run[..|run| - 1]);
      NewCells(cfg, After(cfg, run[..|run| - 1]), run[|run| - 1]);
    }
  }

  lemma {:induction false} NothingSet(cfg: Config, run: seq<Step>, b: Block)
    requires IsRun(cfg, run) && b >= Allocations(run)
    ensures LastSet(run, b) == None && !WasFreed(run, b)
    decreases |run|
  {
    if run != [] {
      NothingSet(cfg, run[..|run| - 1], b);
      RunAllocates(cfg, run[..|run| - 1]);
    }
  }

  lemma {:induction false} PooledAtClass(cfg: Config, s: State, b: Block)
    requires Inv(cfg, s) && b < |s.places| && Age(s.places[b]) == 1
    ensures s.cells[b].size in CUTOFFS
  {
    assert BlockOk(cfg, s, b);
  }

  lemma {:induction false} OldRecorded(cfg: Config, run: seq<Step>, b: Block)
    requires run != [] && IsRun(cfg, run) && Recorded(After(cfg, run[..|run| - 1]), run[..|run| - 1], b)
    ensures Recorded(After(cfg, run), run, b)
  {
    var rest, st := run[..|run| - 1], run[|run| - 1];
    RunInv(cfg, rest);
    RunAllocates(cfg, rest);
    StepRecorded(cfg, After(cfg, rest), st, b, LastSet(rest, b), Allocated(rest, b), WasFreed(rest, b));
  }

  lemma {:induction false} StepRecorded(
      cfg: Config, s: State, st: Step, b: Block, chosen: Option<nat>, original: nat, freed: bool)
    requires Inv(cfg, s) && Enabled(cfg, s, st) && b < |s.cells|
    requires RecordOk(s.cells[b].size, s.places[b], chosen, original, freed)
    ensures var s' := Next(cfg, s, st);
      && b < |s'.cells| && b < |s'.places|
      && RecordOk(s'.cells[b].size, s'.places[b], if st.Resize? && st.b == b then Some(st.sz) else chosen,
                  original, freed || (st.Free? && st.b == b))
  {
    var s' := Next(cfg, s, st);
    OnlyFieldWritten(cfg, s, st, b);
    FreesOnly(cfg, s, st, b);
    StepAges(cfg, s, st, b);
    NextInv(cfg, s, st);
    if Age(s'.places[b]) == 1 { PooledAtClass(cfg, s', b); }
    if st.Resize? && st.b == b {
      HeldStays(cfg, s, st);
      RecordResized(s.cells[b].size, s.places[b], st.sz, chosen, original, freed);
    } else {
      var freedNow := freed || (st.Free? && st.b == b);
      RecordMoved(s.cells[b].size, s.places[b], s'.places[b], chosen, original, freed, freedNow);
    }
  }

  lemma {:induction false} HeldStays(cfg: Config, s: State, st: Step)
    requires Enabled(cfg, s, st) && st.Resize?
    ensures st.sz <= s.cells[st.b].size && s.places[st.b] == Held(st.t) && Next(cfg, s, st).places == s.places
  {
  }

  /** A holder sets a smaller size. */
  lemma {:induction false} RecordResized(
      size: nat, place: Place, sz: nat, chosen: Option<nat>, original: nat, freed: bool)
    requires RecordOk(size, place, chosen, original, freed) && sz <= size && place.Held?
    ensures RecordOk(sz, place, Some(sz), original, freed)
  {
  }

  /** A block moves on, and into a pool at a class's size only. */
  lemma {:induction false} RecordMoved(
      size: nat, place: Place, next: Place, chosen: Option<nat>, original: nat, before: bool, freed: bool)
    requires RecordOk(size, place, chosen, original, before) && OneStepOlder(place, next)
    requires (next == Freed <==> freed) && (Age(next) == 1 ==> size in CUTOFFS)
    ensures RecordOk(size, next, chosen, original, freed)
  {
  }

  lemma {:induction false} NewRecorded(cfg: Config, run: seq<Step>)
    requires run != [] && IsRun(cfg, run) && run[|run| - 1].Alloc?
    ensures Recorded(After(cfg, run), run, Allocations(run) - 1)
  {
    var rest := run[..|run| - 1];
    RunAllocates(cfg, rest);
    NothingSet(cfg, rest, Allocations(rest));
    AllocRecorded(cfg, After(cfg, rest), run[|run| - 1]);
  }

  lemma {:induction false} AllocRecorded(cfg: Config, s: State, st: Step)
    requires Enabled(cfg, s, st) && st.Alloc?
    ensures var s' := Next(cfg, s, st);
      && |s.cells| < |s'.cells| && |s.cells| < |s'.places|
      && RecordOk(s'.cells[|s.cells|].size, s'.places[|s.cells|], None, st.size, false)
  {
    NewCells(cfg, s, st);
  }

  lemma {:induction false} RunRecorded(cfg: Config, run: seq<Step>, b: Block)
    requires IsRun(cfg, run) && b < Allocations(run)
    ensures Recorded(After(cfg, run), run, b)
    decreases |run|
  {
    var rest := run[..|run| - 1];
    if b < Allocations(rest) {
      RunRecorded(cfg, rest, b);
      OldRecorded(cfg, run, b);
    } else {
      NewRecorded(cfg, run);
    }
  }

  /** Whatever the threads do, a block has the size its holder last set, or the size it
      was allocated with if none was set; it never grows; and it is freed exactly if it
      was given to `free`. */
  lemma {:induction false} SizeIsLastSet(cfg: Config, run: seq<Step>, b: Block)
    requires IsRun(cfg, run) && b < |After(cfg, run).cells|
    ensures var s := After(cfg, run);
      && s.cells[b].size == SizeOf(LastSet(run, b), Allocated(run, b))
      && s.cells[b].size <= Allocated(run, b)
      && b < |s.places| && (s.places[b] == Freed <==> WasFreed(run, b))
  {
    RunAllocates(cfg, run);
    RunRecorded(cfg, run, b);
  }

  /** So the receiver of a block, or whoever finds it in a queue, reads the size the sender
      set; if it set none, the size of a class, that of the pool the block came from. */
  lemma {:induction false} SentSizeArrives(cfg: Config, run: seq<Step>, b: Block)
    requires IsRun(cfg, run) && b < |After(cfg, run).places| && 1 <= Age(After(cfg, run).places[b]) <= 5
    ensures var s := After(cfg, run);
      && b < |s.cells| && Allocated(run, b) in CUTOFFS
      && s.cells[b].size == SizeOf(LastSet(run, b), Allocated(run, b))
      && (s.places[b].InList? && s.places[b].l.Pool? ==>
            LastSet(run, b) == None && s.places[b].l.class_ < CLASSES
            && Allocated(run, b) == CUTOFFS[s.places[b].l.class_])
  {
    RunInv(cfg, run);
    RunAllocates(cfg, run);
    RunRecorded(cfg, run, b);
    assert BlockOk(cfg, After(cfg, run), b);
  }
}
