/** Lock-step, progress and termination of the relaxation program.  `k` is the
    number of iterations of a run throughout. */
module RelaxationProof {
  import opened Wrappers
  import opened Relaxation

  // ---------------------------------------------------------------- the invariant

  /** How many iterations the worker has entered. */
  ghost function Entered(k: nat, w: Worker): int
  {
    match w.phase
    case Unborn => 0
    case Ghosts => w.it
    case Error => w.it
    case _ => k
  }

  /** How many reduction results the worker has taken. */
  ghost function Consumed(k: nat, i: nat, w: Worker): int
  {
    match w.phase
    case Unborn => 0
    case Ghosts => w.it - 1
    case Error => w.it - 1
    case Grid => k
    case Over => if i == 0 then k + 1 else k
  }

  /** How many contributions the worker has made. */
  ghost function Made(k: nat, w: Worker): int
  {
    match w.phase
    case Unborn => 0
    case Ghosts => w.it - 1
    case Error => w.it
    case _ => k + 1
  }

  ghost predicate WorkerOk(cfg: Config, k: nat, i: nat, w: Worker)
    requires cfg.n > 0
  {
    match w.phase
    case Unborn => w == NEWBORN
    case Ghosts =>
      && 1 <= w.it <= k && !w.converged
      && w.nRecvd == (if w.gotLeft then 1 else 0) + (if w.gotRight then 1 else 0) < NumNeighbors(cfg, i)
      && (w.gotLeft ==> HasLeft(i)) && (w.gotRight ==> HasRight(cfg, i))
    case Error => 1 <= w.it <= k && !w.converged && w.nRecvd == NumNeighbors(cfg, i)
    case Grid => i == 0 && LeftLoop(cfg, k, i, w)
    case Over => LeftLoop(cfg, k, i, w)
  }

  ghost function Expected(cfg: Config, k: nat, i: nat, round: nat): Contribution
  {
    if round < k then MyError(cfg.err(i, round + 1)) else MyIndex(i)
  }

  ghost predicate ContribsOk(cfg: Config, k: nat, i: nat, w: Worker, cs: seq<Contribution>)
  {
    |cs| == Made(k, w) && forall r :: 0 <= r < |cs| ==> cs[r] == Expected(cfg, k, i, r)
  }

  ghost predicate Adjacent(a: nat, d: nat) { a + 1 == d || d + 1 == a }

  /** Whether worker `d` has counted a ghost from its neighbour `a`. */
  ghost predicate Got(d: nat, w: Worker, a: nat)
  {
    if a < d then w.gotLeft else w.gotRight
  }

  /** A worker has counted a ghost only from neighbours that entered the iteration. */
  ghost predicate NeighborsOk(k: nat, d: nat, wd: Worker, a: nat, wa: Worker)
  {
    if wd.phase == Ghosts then Got(d, wd, a) ==> Entered(k, wa) >= wd.it
    else Entered(k, wa) >= Entered(k, wd)
  }

  /** The ghost of iteration `q` from `a` has been sent and not been counted. */
  ghost predicate GhostPending(k: nat, wa: Worker, a: nat, wd: Worker, d: nat, q: int)
  {
    && 1 <= q <= Entered(k, wa)
    && (q > Entered(k, wd) || (wd.phase == Ghosts && q == wd.it && !Got(d, wd, a)))
  }

  ghost function Everyone(n: nat): set<nat>
  {
    if n == 0 then {} else Everyone(n - 1) + {n - 1}
  }

  /** Exactly which messages are in the network or in a buffer. */
  ghost predicate Pending(cfg: Config, k: nat, s: State, m: Msg)
    requires Shape(cfg, s)
  {
    match m
    case Ghost(a, d, q) =>
      a < cfg.n && d < cfg.n && Adjacent(a, d) && GhostPending(k, s.workers[a], a, s.workers[d], d, q)
    case MaxError(d, r, e) =>
      && d < cfg.n && Consumed(k, d, s.workers[d]) <= r < s.reduced && r < k
      && e == MaxErr(cfg, r + 1, cfg.n)
    case Indices(r, all) =>
      r == k && s.reduced == k + 1 && s.workers[0].phase != Over && all == Everyone(cfg.n)
  }

  ghost function Total(s: State, m: Msg): int { s.net[m] + s.bufs[m] }

  ghost predicate MessageOk(cfg: Config, k: nat, s: State, m: Msg)
    requires Shape(cfg, s)
  {
    Total(s, m) == if Pending(cfg, k, s, m) then 1 else 0
  }

  ghost predicate MessagesOk(cfg: Config, k: nat, s: State)
    requires Shape(cfg, s)
  {
    forall m :: MessageOk(cfg, k, s, m)
  }

  ghost predicate Shape(cfg: Config, s: State)
  {
    cfg.n > 0 && |s.workers| == |s.contribs| == cfg.n
  }

  ghost predicate LocalOk(cfg: Config, k: nat, s: State, i: nat)
    requires Shape(cfg, s) && i < cfg.n
  {
    && WorkerOk(cfg, k, i, s.workers[i])
    && ContribsOk(cfg, k, i, s.workers[i], s.contribs[i])
    && Consumed(k, i, s.workers[i]) <= s.reduced <= Made(k, s.workers[i])
  }

  ghost predicate WorkersOk(cfg: Config, k: nat, s: State)
    requires Shape(cfg, s)
  {
    forall i :: 0 <= i < cfg.n ==> LocalOk(cfg, k, s, i)
  }

  ghost predicate PairsOk(cfg: Config, k: nat, s: State)
    requires Shape(cfg, s)
  {
    forall d, a :: 0 <= d < cfg.n && 0 <= a < cfg.n && Adjacent(a, d) ==>
      NeighborsOk(k, d, s.workers[d], a, s.workers[a])
  }

  ghost predicate ReceivedOk(cfg: Config, s: State)
    requires Shape(cfg, s)
  {
    if s.workers[0].phase == Over then s.received == Some(Everyone(cfg.n)) else s.received == None
  }

  ghost predicate Inv(cfg: Config, k: nat, s: State)
  {
    Shape(cfg, s) && WorkersOk(cfg, k, s) && PairsOk(cfg, k, s) && MessagesOk(cfg, k, s) && ReceivedOk(cfg, s)
  }

  lemma {:induction false} InitInv(cfg: Config, k: nat)
    requires cfg.n > 0
    ensures Inv(cfg, k, Init(cfg))
  {
    var s := Init(cfg);
    forall m ensures MessageOk(cfg, k, s, m) { }
  }

  /** No worker is ahead of the reductions by more than one round. */
  lemma {:induction false} Ahead(cfg: Config, k: nat, s: State, i: nat)
    requires Shape(cfg, s) && i < cfg.n && LocalOk(cfg, k, s, i)
    ensures s.reduced - 1 <= Entered(k, s.workers[i]) <= s.reduced + 1
    ensures s.workers[i].phase == Ghosts ==> s.workers[i].it == s.reduced + 1
    ensures s.reduced <= k + 1
  {
  }

  // ---------------------------------------------------------------- the steps

  /** Worker `i` is about to run the loop's test: it is being created, or takes
      the result of the last round. */
  ghost predicate AtLoop(cfg: Config, k: nat, s: State, i: nat)
  {
    && Inv(cfg, k, s) && i < cfg.n
    && (s.workers[i].phase == Unborn || s.workers[i].phase == Error)
    && Entered(k, s.workers[i]) == s.reduced
  }

  /** The message that brings worker `i` to the loop. */
  ghost predicate Unlocks(cfg: Config, s: State, i: nat, m: Msg)
    requires Shape(cfg, s) && i < cfg.n
  {
    s.workers[i].phase == Error && s.reduced > 0 && m == MaxError(i, s.reduced - 1, MaxErr(cfg, s.reduced, cfg.n))
  }

  /** `s'` is `s` after worker `i` went through the loop's test, entering another
      iteration or leaving the loop. */
  ghost predicate Looped(cfg: Config, k: nat, s: State, i: nat, s': State, enters: bool)
  {
    && AtLoop(cfg, k, s, i) && Shape(cfg, s')
    && s'.reduced == s.reduced && s'.received == s.received
    && (forall j :: 0 <= j < cfg.n && j != i ==> s'.workers[j] == s.workers[j] && s'.contribs[j] == s.contribs[j])
    && (if enters then
          && s.reduced < k
          && Entered(k, s'.workers[i]) == s.reduced + 1
          && (if cfg.n > 1 then
                && s'.workers[i].phase == Ghosts && s'.workers[i].nRecvd == 0
                && !s'.workers[i].gotLeft && !s'.workers[i].gotRight
              else s'.workers[i].phase == Error && s'.workers[i].nRecvd == 0)
          && !s'.workers[i].converged
          && s'.contribs[i] == s.contribs[i] + (if cfg.n > 1 then [] else [MyError(cfg.err(i, s.reduced + 1))])
        else
          && s.reduced == k
          && s'.workers[i].phase == (if i == 0 then Grid else Over)
          && LeftLoop(cfg, k, i, s'.workers[i])
          && s'.contribs[i] == s.contribs[i] + [MyIndex(i)])
    && forall m :: Total(s', m) == Total(s, m) - (if Unlocks(cfg, s, i, m) then 1 else 0)
                                   + (if enters && m.Ghost? && m in GhostsOf(cfg, i, s.reduced + 1) then 1 else 0)
  }

  lemma {:induction false} LoopedLocal(cfg: Config, k: nat, s: State, i: nat, s': State, enters: bool)
    requires Looped(cfg, k, s, i, s', enters)
    ensures WorkersOk(cfg, k, s') && ReceivedOk(cfg, s')
  {
    assert LocalOk(cfg, k, s, i);
    forall j | 0 <= j < cfg.n ensures LocalOk(cfg, k, s', j) {
      assert LocalOk(cfg, k, s, j);
    }
  }

  lemma {:induction false} LoopedPairs(cfg: Config, k: nat, s: State, i: nat, s': State, enters: bool)
    requires Looped(cfg, k, s, i, s', enters)
    ensures PairsOk(cfg, k, s')
  {
    assert LocalOk(cfg, k, s, i);
    forall d, a | 0 <= d < cfg.n && 0 <= a < cfg.n && Adjacent(a, d)
      ensures NeighborsOk(k, d, s'.workers[d], a, s'.workers[a])
    {
      assert NeighborsOk(k, d, s.workers[d], a, s.workers[a]);
    }
  }

  lemma {:induction false} LoopedSends(cfg: Config, k: nat, s: State, i: nat, s': State, enters: bool, m: Msg)
    requires Looped(cfg, k, s, i, s', enters) && m.Ghost? && m.src == i && m.dst < cfg.n && Adjacent(i, m.dst)
    ensures GhostPending(k, s'.workers[i], i, s'.workers[m.dst], m.dst, m.iter) <==>
            (GhostPending(k, s.workers[i], i, s.workers[m.dst], m.dst, m.iter) || (enters && m.iter == s.reduced + 1))
    ensures enters ==> !GhostPending(k, s.workers[i], i, s.workers[m.dst], m.dst, s.reduced + 1)
  {
    assert LocalOk(cfg, k, s, m.dst) && LocalOk(cfg, k, s, i);
    Ahead(cfg, k, s, m.dst);
    assert NeighborsOk(k, m.dst, s.workers[m.dst], i, s.workers[i]);
  }

  lemma {:induction false} LoopedAwaits(cfg: Config, k: nat, s: State, i: nat, s': State, enters: bool, m: Msg)
    requires Looped(cfg, k, s, i, s', enters) && m.Ghost? && m.dst == i && m.src < cfg.n && Adjacent(m.src, i)
    ensures GhostPending(k, s'.workers[m.src], m.src, s'.workers[i], i, m.iter) <==>
            GhostPending(k, s.workers[m.src], m.src, s.workers[i], i, m.iter)
  {
    assert LocalOk(cfg, k, s, i) && LocalOk(cfg, k, s, m.src);
    Ahead(cfg, k, s, m.src);
    assert NeighborsOk(k, i, s.workers[i], m.src, s.workers[m.src]);
  }

  /** A neighbour of `i` has not counted, and may still count, the ghost `i` sends
      when it enters iteration `reduced + 1`. */
  lemma {:induction false} LoopedGhosts(cfg: Config, k: nat, s: State, i: nat, s': State, enters: bool, m: Msg)
    requires Looped(cfg, k, s, i, s', enters) && m.Ghost?
    ensures MessageOk(cfg, k, s', m)
  {
    assert MessageOk(cfg, k, s, m);
    var a, d := m.src, m.dst;
    if a < cfg.n && d < cfg.n && Adjacent(a, d) {
      if a == i { LoopedSends(cfg, k, s, i, s', enters, m); }
      else if d == i { LoopedAwaits(cfg, k, s, i, s', enters, m); }
    }
  }

  lemma {:induction false} LoopedResults(cfg: Config, k: nat, s: State, i: nat, s': State, enters: bool, m: Msg)
    requires Looped(cfg, k, s, i, s', enters) && !m.Ghost?
    ensures MessageOk(cfg, k, s', m)
  {
    assert MessageOk(cfg, k, s, m);
    assert LocalOk(cfg, k, s, i);
  }

  lemma {:induction false} LoopedInv(cfg: Config, k: nat, s: State, i: nat, s': State, enters: bool)
    requires Looped(cfg, k, s, i, s', enters)
    ensures Inv(cfg, k, s')
  {
    LoopedLocal(cfg, k, s, i, s', enters);
    LoopedPairs(cfg, k, s, i, s', enters);
    forall m ensures MessageOk(cfg, k, s', m) {
      if m.Ghost? { LoopedGhosts(cfg, k, s, i, s', enters, m); } else { LoopedResults(cfg, k, s, i, s', enters, m); }
    }
  }

  lemma {:induction false} LoopTest(cfg: Config, r: nat)
    requires cfg.n > 0 && r <= Rounds(cfg)
    ensures EndsAt(cfg, r) <==> r == Rounds(cfg)
  {
  }

  /** What the loop's test does after `r` iterations. */
  ghost predicate LoopMove(cfg: Config, k: nat, i: nat, r: nat, mv: Move)
    requires cfg.n > 0
  {
    && mv.sends == (r < k)
    && if r < k then
         && mv.w.it == r + 1 && !mv.w.converged && mv.w.nRecvd == 0 && !mv.w.gotLeft && !mv.w.gotRight
         && mv.w.phase == (if cfg.n > 1 then Ghosts else Error)
         && mv.contrib == (if cfg.n > 1 then None else Some(MyError(cfg.err(i, r + 1))))
       else
         && mv.w.phase == (if i == 0 then Grid else Over)
         && LeftLoop(cfg, k, i, mv.w)
         && mv.contrib == Some(MyIndex(i))
  }

  lemma {:induction false} LoopMoves(cfg: Config, i: nat, r: nat, w: Worker)
    requires i < cfg.n && r <= Rounds(cfg) && w.it == r
    requires w.converged == Within(cfg, r) && w.nRecvd == CountedBy(cfg, i, r)
    ensures LoopMove(cfg, Rounds(cfg), i, r, ConvergeLoop(cfg, i, w))
    ensures ConvergeLoop(cfg, i, w).w.calls == w.calls
  {
    LoopTest(cfg, r);
  }

  lemma {:induction false} SentTotal(cfg: Config, i: nat, q: int, m: Msg)
    ensures GhostsOf(cfg, i, q)[m] == if m.Ghost? && m in GhostsOf(cfg, i, q) then 1 else 0
  {
  }

  /** Committing such a move, with the unlocking message gone. */
  lemma {:induction false} CommitLoops(cfg: Config, k: nat, s: State, s1: State, i: nat, mv: Move)
    requires AtLoop(cfg, k, s, i) && s.reduced <= k && LoopMove(cfg, k, i, s.reduced, mv)
    requires s1.workers == s.workers && s1.contribs == s.contribs && s1.reduced == s.reduced
    requires s1.received == s.received
    requires forall m :: Total(s1, m) == Total(s, m) - if Unlocks(cfg, s, i, m) then 1 else 0
    ensures Looped(cfg, k, s, i, Commit(cfg, s1, i, mv), s.reduced < k)
    ensures Inv(cfg, k, Commit(cfg, s1, i, mv))
  {
    var s' := Commit(cfg, s1, i, mv);
    forall m
      ensures Total(s', m) ==
              Total(s1, m) + if s.reduced < k && m.Ghost? && m in GhostsOf(cfg, i, s.reduced + 1) then 1 else 0
    {
      SentTotal(cfg, i, s.reduced + 1, m);
    }
    assert s.contribs[i] + [] == s.contribs[i];
    LoopedInv(cfg, k, s, i, s', s.reduced < k);
  }

  lemma {:induction false} SpawnStep(cfg: Config, s: State, i: nat)
    requires cfg.n > 0 && Inv(cfg, Rounds(cfg), s) && Enabled(cfg, s, Spawn(i))
    ensures Inv(cfg, Rounds(cfg), Next(cfg, s, Spawn(i)))
  {
    var k := Rounds(cfg);
    assert LocalOk(cfg, k, s, i);
    LoopMoves(cfg, i, 0, s.workers[i]);
    CommitLoops(cfg, k, s, s, i, ConvergeLoop(cfg, i, s.workers[i]));
  }

  /** The only result a worker can take is that of the last round. */
  lemma {:induction false} ResultIsCurrent(cfg: Config, k: nat, s: State, m: Msg)
    requires Inv(cfg, k, s) && m.MaxError? && Enabled(cfg, s, Take(m))
    ensures m.round + 1 == s.workers[m.dst].it == s.reduced <= k
    ensures s.workers[m.dst].nRecvd == NumNeighbors(cfg, m.dst)
    ensures AtLoop(cfg, k, s, m.dst) && Unlocks(cfg, s, m.dst, m)
  {
    assert LocalOk(cfg, k, s, m.dst);
    assert MessageOk(cfg, k, s, m);
  }

  lemma {:induction false} MaxErrorCommits(cfg: Config, k: nat, s: State, m: Msg, mv: Move)
    requires Inv(cfg, k, s) && m.MaxError? && Enabled(cfg, s, Take(m))
    requires LoopMove(cfg, k, m.dst, s.reduced, mv)
    ensures Inv(cfg, k, Commit(cfg, s.(bufs := s.bufs - multiset{m}), m.dst, mv))
  {
    ResultIsCurrent(cfg, k, s, m);
    var s1 := s.(bufs := s.bufs - multiset{m});
    forall q ensures Total(s1, q) == Total(s, q) - if Unlocks(cfg, s, m.dst, q) then 1 else 0 {
      assert Unlocks(cfg, s, m.dst, q) <==> q == m;
    }
    CommitLoops(cfg, k, s, s1, m.dst, mv);
  }

  lemma {:induction false} MaxErrorStep(cfg: Config, s: State, m: Msg)
    requires cfg.n > 0 && Inv(cfg, Rounds(cfg), s) && m.MaxError? && Enabled(cfg, s, Take(m))
    ensures Inv(cfg, Rounds(cfg), Next(cfg, s, Take(m)))
  {
    var w := s.workers[m.dst];
    ResultIsCurrent(cfg, Rounds(cfg), s, m);
    LoopMoves(cfg, m.dst, s.reduced, w.(converged := m.error <= cfg.tolerance, calls := w.calls + 1));
    MaxErrorCommits(cfg, Rounds(cfg), s, m, ReceiveMaxError(cfg, m.dst, w, m.error));
  }

  /** A ghost that is taken belongs to the taker's iteration and is the first
      from its sender. */
  lemma {:induction false} GhostIsCurrent(cfg: Config, k: nat, s: State, m: Msg)
    requires Inv(cfg, k, s) && m.Ghost? && Enabled(cfg, s, Take(m))
    ensures m.src < cfg.n && Adjacent(m.src, m.dst)
    ensures m.iter == s.workers[m.dst].it && !Got(m.dst, s.workers[m.dst], m.src)
  {
    assert MessageOk(cfg, k, s, m);
    assert LocalOk(cfg, k, s, m.dst) && LocalOk(cfg, k, s, m.src);
    Ahead(cfg, k, s, m.dst);
    Ahead(cfg, k, s, m.src);
  }

  lemma {:induction false} GhostStepLocal(cfg: Config, k: nat, s: State, m: Msg)
    requires Inv(cfg, k, s) && m.Ghost? && Enabled(cfg, s, Take(m))
    ensures var s' := Next(cfg, s, Take(m)); Shape(cfg, s') && WorkersOk(cfg, k, s') && ReceivedOk(cfg, s')
  {
    var s' := Next(cfg, s, Take(m));
    GhostIsCurrent(cfg, k, s, m);
    assert LocalOk(cfg, k, s, m.dst);
    forall j | 0 <= j < cfg.n ensures LocalOk(cfg, k, s', j) {
      assert LocalOk(cfg, k, s, j);
    }
  }

  lemma {:induction false} GhostStepPairs(cfg: Config, k: nat, s: State, m: Msg)
    requires Inv(cfg, k, s) && m.Ghost? && Enabled(cfg, s, Take(m))
    ensures var s' := Next(cfg, s, Take(m)); Shape(cfg, s') && PairsOk(cfg, k, s')
  {
    var s' := Next(cfg, s, Take(m));
    GhostIsCurrent(cfg, k, s, m);
    assert MessageOk(cfg, k, s, m);
    assert LocalOk(cfg, k, s, m.dst);
    forall d, a | 0 <= d < cfg.n && 0 <= a < cfg.n && Adjacent(a, d)
      ensures NeighborsOk(k, d, s'.workers[d], a, s'.workers[a])
    {
      assert NeighborsOk(k, d, s.workers[d], a, s.workers[a]);
    }
  }

  /** What taking a ghost changes besides its taker: nothing. */
  lemma {:induction false} GhostStepFrame(cfg: Config, k: nat, s: State, m: Msg)
    requires Inv(cfg, k, s) && m.Ghost? && Enabled(cfg, s, Take(m))
    ensures var s' := Next(cfg, s, Take(m));
      && Shape(cfg, s') && s'.reduced == s.reduced
      && s'.workers == s.workers[m.dst := s'.workers[m.dst]]
      && s'.workers[m.dst] == ReceiveGhost(cfg, m.dst, s.workers[m.dst], m.src).w
    ensures forall q :: Total(Next(cfg, s, Take(m)), q) == Total(s, q) - if q == m then 1 else 0
  {
  }

  lemma {:induction false} GhostStepMessage(cfg: Config, k: nat, s: State, m: Msg, q: Msg)
    requires Inv(cfg, k, s) && m.Ghost? && Enabled(cfg, s, Take(m))
    ensures var s' := Next(cfg, s, Take(m)); Shape(cfg, s') && MessageOk(cfg, k, s', q)
  {
    GhostStepFrame(cfg, k, s, m);
    GhostIsCurrent(cfg, k, s, m);
    assert WorkerOk(cfg, k, m.dst, s.workers[m.dst]) by { assert LocalOk(cfg, k, s, m.dst); }
    assert MessageOk(cfg, k, s, m) && MessageOk(cfg, k, s, q);
    var w, w' := s.workers[m.dst], Next(cfg, s, Take(m)).workers[m.dst];
    assert Entered(k, w') == Entered(k, w) && Consumed(k, m.dst, w') == Consumed(k, m.dst, w);
    assert w'.phase == Error ==> forall a: nat :: a < cfg.n && Adjacent(a, m.dst) && a != m.src ==> Got(m.dst, w, a);
  }

  lemma {:induction false} GhostStep(cfg: Config, k: nat, s: State, m: Msg)
    requires Inv(cfg, k, s) && m.Ghost? && Enabled(cfg, s, Take(m))
    ensures Inv(cfg, k, Next(cfg, s, Take(m)))
  {
    GhostStepLocal(cfg, k, s, m);
    GhostStepPairs(cfg, k, s, m);
    forall q ensures MessageOk(cfg, k, Next(cfg, s, Take(m)), q) {
      GhostStepMessage(cfg, k, s, m, q);
    }
  }

  lemma {:induction false} IndicesStep(cfg: Config, k: nat, s: State, m: Msg)
    requires Inv(cfg, k, s) && m.Indices? && Enabled(cfg, s, Take(m))
    ensures Inv(cfg, k, Next(cfg, s, Take(m)))
  {
    var s' := Next(cfg, s, Take(m));
    assert MessageOk(cfg, k, s, m);
    forall j | 0 <= j < cfg.n ensures LocalOk(cfg, k, s', j) {
      assert LocalOk(cfg, k, s, j);
    }
    forall d, a | 0 <= d < cfg.n && 0 <= a < cfg.n && Adjacent(a, d)
      ensures NeighborsOk(k, d, s'.workers[d], a, s'.workers[a])
    {
      assert NeighborsOk(k, d, s.workers[d], a, s.workers[a]);
    }
    forall q ensures MessageOk(cfg, k, s', q) {
      assert MessageOk(cfg, k, s, q);
    }
  }

  lemma {:induction false} ArriveStep(cfg: Config, k: nat, s: State, m: Msg)
    requires Inv(cfg, k, s) && Enabled(cfg, s, Arrive(m))
    ensures Inv(cfg, k, Next(cfg, s, Arrive(m)))
  {
    var s' := Next(cfg, s, Arrive(m));
    forall q ensures MessageOk(cfg, k, s', q) {
      assert MessageOk(cfg, k, s, q);
    }
    forall j | 0 <= j < cfg.n ensures LocalOk(cfg, k, s', j) {
      assert LocalOk(cfg, k, s, j);
    }
  }

  lemma {:induction false} MaxIsMaxErr(cfg: Config, s: State, r: nat, upTo: nat)
    requires 0 < upTo <= |s.contribs|
    requires forall i :: 0 <= i < upTo ==> r < |s.contribs[i]| && s.contribs[i][r] == MyError(cfg.err(i, r + 1))
    ensures MaxContributed(s, r, upTo) == MaxErr(cfg, r + 1, upTo)
  {
    if upTo > 1 { MaxIsMaxErr(cfg, s, r, upTo - 1); }
  }

  lemma {:induction false} IndicesAreEveryone(s: State, r: nat, upTo: nat)
    requires upTo <= |s.contribs|
    requires forall i :: 0 <= i < upTo ==> r < |s.contribs[i]| && s.contribs[i][r] == MyIndex(i)
    ensures IndicesContributed(s, r, upTo) == Everyone(upTo)
  {
    if upTo > 0 { IndicesAreEveryone(s, r, upTo - 1); }
  }

  /** The workers' contributions to one reduction are of one kind. */
  lemma {:induction false} ReductionIsUniform(cfg: Config, k: nat, s: State)
    requires Inv(cfg, k, s) && Enabled(cfg, s, Reduce)
    ensures s.reduced <= k
    ensures AllErrors(cfg, s) <==> s.reduced < k
    ensures AllIndices(cfg, s) <==> s.reduced == k
    ensures AllErrors(cfg, s) ==> MaxContributed(s, s.reduced, cfg.n) == MaxErr(cfg, s.reduced + 1, cfg.n)
    ensures AllIndices(cfg, s) ==> IndicesContributed(s, s.reduced, cfg.n) == Everyone(cfg.n)
  {
    forall i | 0 <= i < cfg.n ensures s.contribs[i][s.reduced] == Expected(cfg, k, i, s.reduced) {
      assert LocalOk(cfg, k, s, i);
    }
    assert LocalOk(cfg, k, s, 0);
    if s.reduced < k { MaxIsMaxErr(cfg, s, s.reduced, cfg.n); } else { IndicesAreEveryone(s, s.reduced, cfg.n); }
  }

  lemma {:induction false} MaxErrIsLargest(cfg: Config, k: int, upTo: nat)
    requires upTo > 0
    ensures IsLargest(cfg, k, upTo, MaxErr(cfg, k, upTo))
  {
    if upTo > 1 {
      MaxErrIsLargest(cfg, k, upTo - 1);
      if MaxErr(cfg, k, upTo) != cfg.err(upTo - 1, k) {
        var i: nat :| i < upTo - 1 && cfg.err(i, k) == MaxErr(cfg, k, upTo - 1);
        assert i < upTo && cfg.err(i, k) == MaxErr(cfg, k, upTo);
      }
    }
  }

  lemma {:induction false} ResultsCount(n: nat, r: nat, e: real, q: Msg)
    ensures Results(n, r, e)[q] == if q.MaxError? && q.dst < n && q.round == r && q.error == e then 1 else 0
    ensures |Results(n, r, e)| == n
  {
    if n > 0 { ResultsCount(n - 1, r, e, q); }
  }

  lemma {:induction false} ReduceMessage(cfg: Config, k: nat, s: State, q: Msg)
    requires Inv(cfg, k, s) && Enabled(cfg, s, Reduce)
    ensures MessageOk(cfg, k, Next(cfg, s, Reduce), q)
  {
    ReductionIsUniform(cfg, k, s);
    assert MessageOk(cfg, k, s, q);
    ResultsCount(cfg.n, s.reduced, MaxErr(cfg, s.reduced + 1, cfg.n), q);
    assert LocalOk(cfg, k, s, 0);
    if q.MaxError? && q.dst < cfg.n { assert LocalOk(cfg, k, s, q.dst); }
  }

  lemma {:induction false} ReduceStep(cfg: Config, k: nat, s: State)
    requires Inv(cfg, k, s) && Enabled(cfg, s, Reduce)
    ensures Inv(cfg, k, Next(cfg, s, Reduce))
  {
    var s' := Next(cfg, s, Reduce);
    forall j | 0 <= j < cfg.n ensures LocalOk(cfg, k, s', j) {
      assert LocalOk(cfg, k, s, j);
    }
    forall q ensures MessageOk(cfg, k, s', q) {
      ReduceMessage(cfg, k, s, q);
    }
  }

  lemma {:induction false} NextInv(cfg: Config, s: State, st: Step)
    requires cfg.n > 0 && Inv(cfg, Rounds(cfg), s) && Enabled(cfg, s, st)
    ensures Inv(cfg, Rounds(cfg), Next(cfg, s, st))
  {
    var k := Rounds(cfg);
    match st
    case Spawn(i) => SpawnStep(cfg, s, i);
    case Reduce => ReduceStep(cfg, k, s);
    case Arrive(m) => ArriveStep(cfg, k, s, m);
    case Take(m) =>
      match m
      case Ghost(_, _, _) => GhostStep(cfg, k, s, m);
      case MaxError(_, _, _) => MaxErrorStep(cfg, s, m);
      case Indices(_, _) => IndicesStep(cfg, k, s, m);
  }

  lemma {:induction false} RunInv(cfg: Config, run: seq<Step>)
    requires cfg.n > 0 && IsRun(cfg, run)
    ensures Inv(cfg, Rounds(cfg), After(cfg, run))
    decreases |run|
  {
    if run == [] {
      InitInv(cfg, Rounds(cfg));
    } else {
      RunInv(cfg, run[..|run| - 1]);
      NextInv(cfg, After(cfg, run[..|run| - 1]), run[|run| - 1]);
    }
  }
}
