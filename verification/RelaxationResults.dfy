/** What the invariant of `RelaxationProof` gives about every run. */
module RelaxationResults {
  import opened Wrappers
  import opened Relaxation
  import opened RelaxationProof

  // ---------------------------------------------------------------- lock-step

  /** In every reachable state the workers' iterations differ by at most one. */
  lemma {:induction false} LockStep(cfg: Config, run: seq<Step>, i: nat, j: nat)
    requires IsRun(cfg, run) && i < cfg.n && j < cfg.n
    ensures var s := After(cfg, run); |s.workers| == cfg.n && s.workers[i].it <= s.workers[j].it + 1
  {
    RunInv(cfg, run);
    var s := After(cfg, run);
    assert LocalOk(cfg, Rounds(cfg), s, i) && LocalOk(cfg, Rounds(cfg), s, j);
  }

  /** Whatever the network reorders, a ghost is counted in the iteration it was
      sent in, from a neighbour not counted before; and a worker that contributes
      has counted exactly its neighbours. */
  lemma {:induction false} GhostsMatchIterations(cfg: Config, run: seq<Step>, m: Msg)
    requires cfg.n > 0 && IsRun(cfg, run) && m.Ghost? && Enabled(cfg, After(cfg, run), Take(m))
    ensures var s := After(cfg, run); var w := s.workers[m.dst];
      m.iter == w.it && Adjacent(m.src, m.dst) && !Got(m.dst, w, m.src)
    ensures var s := After(cfg, run); var s' := Next(cfg, s, Take(m)); var w' := s'.workers[m.dst];
      && (s'.contribs != s.contribs <==> w'.gotLeft == HasLeft(m.dst) && w'.gotRight == HasRight(cfg, m.dst))
      && (s'.contribs != s.contribs ==> w'.nRecvd == NumNeighbors(cfg, m.dst))
      && (s'.contribs != s.contribs ==>
            s'.contribs == s.contribs[m.dst := s.contribs[m.dst] + [MyError(cfg.err(m.dst, w'.it))]])
  {
    RunInv(cfg, run);
    var s := After(cfg, run);
    GhostIsCurrent(cfg, Rounds(cfg), s, m);
    assert LocalOk(cfg, Rounds(cfg), s, m.dst);
    var s' := Next(cfg, s, Take(m));
    if s'.workers[m.dst].phase == Error {
      assert s'.contribs[m.dst] != s.contribs[m.dst];
    }
  }

  /** The reductions never mix errors with indices, and the result of round `r`
      is the largest of the errors of iteration `r + 1`. */
  lemma {:induction false} ReductionsAgree(cfg: Config, run: seq<Step>)
    requires cfg.n > 0 && IsRun(cfg, run) && Enabled(cfg, After(cfg, run), Reduce)
    ensures Agreed(cfg, After(cfg, run), Next(cfg, After(cfg, run), Reduce))
  {
    RunInv(cfg, run);
    ReducedNet(cfg, After(cfg, run));
  }

  /** The result sent is `e`, the largest error, to all workers, or everyone's index to
      the root. */
  ghost predicate Agreed(cfg: Config, s: State, s': State)
    requires cfg.n > 0
  {
    var e := MaxErr(cfg, s.reduced + 1, cfg.n);
    && IsLargest(cfg, s.reduced + 1, cfg.n, e)
    && s'.net == s.net + if s.reduced < Rounds(cfg) then Results(cfg.n, s.reduced, e)
                         else multiset{Indices(s.reduced, Everyone(cfg.n))}
  }

  lemma {:induction false} ReducedNet(cfg: Config, s: State)
    requires cfg.n > 0 && Inv(cfg, Rounds(cfg), s) && Enabled(cfg, s, Reduce)
    ensures Agreed(cfg, s, Next(cfg, s, Reduce))
  {
    ReductionIsUniform(cfg, Rounds(cfg), s);
    MaxErrIsLargest(cfg, s.reduced + 1, cfg.n);
  }

  // ---------------------------------------------------------------- counting continuations

  function Max(a: int, b: int): int { if a < b then b else a }

  function Min(a: int, b: int): int { if a < b then a else b }

  /** How many continuations have run for worker `i`. */
  ghost function CallsMade(cfg: Config, k: nat, i: nat, w: Worker): int
  {
    var per := NumNeighbors(cfg, i) + 1;
    match w.phase
    case Unborn => 0
    case Ghosts => (w.it - 1) * per + w.nRecvd
    case Error => w.it * per - 1
    case Grid => k * per
    case Over => FullCalls(cfg, k, i)
  }

  ghost function FullCalls(cfg: Config, k: nat, i: nat): int
  {
    k * (NumNeighbors(cfg, i) + 1) + if i == 0 then 1 else 0
  }

  ghost predicate CallsOk(cfg: Config, k: nat, s: State)
    requires Shape(cfg, s)
  {
    forall i :: 0 <= i < cfg.n ==> s.workers[i].calls == CallsMade(cfg, k, i, s.workers[i])
  }

  lemma {:induction false} LoopCalls(cfg: Config, k: nat, i: nat, r: nat, mv: Move)
    requires i < cfg.n && r <= k && LoopMove(cfg, k, i, r, mv)
    requires mv.w.calls == r * (NumNeighbors(cfg, i) + 1)
    ensures mv.w.calls == CallsMade(cfg, k, i, mv.w)
  {
    if cfg.n == 1 { assert NumNeighbors(cfg, i) + 1 == 1; }
  }

  lemma {:induction false} SpawnCalls(cfg: Config, s: State, i: nat)
    requires cfg.n > 0 && Inv(cfg, Rounds(cfg), s) && Enabled(cfg, s, Spawn(i)) && CallsOk(cfg, Rounds(cfg), s)
    ensures Shape(cfg, Next(cfg, s, Spawn(i))) && CallsOk(cfg, Rounds(cfg), Next(cfg, s, Spawn(i)))
  {
    assert LocalOk(cfg, Rounds(cfg), s, i);
    LoopMoves(cfg, i, 0, s.workers[i]);
    LoopCalls(cfg, Rounds(cfg), i, 0, ConvergeLoop(cfg, i, s.workers[i]));
  }

  lemma {:induction false} GhostCalls(cfg: Config, k: nat, s: State, m: Msg)
    requires Inv(cfg, k, s) && m.Ghost? && Enabled(cfg, s, Take(m)) && CallsOk(cfg, k, s)
    ensures Shape(cfg, Next(cfg, s, Take(m))) && CallsOk(cfg, k, Next(cfg, s, Take(m)))
  {
    GhostStepFrame(cfg, k, s, m);
    assert LocalOk(cfg, k, s, m.dst);
    var w := s.workers[m.dst];
    assert w.calls == CallsMade(cfg, k, m.dst, w);
    var per := NumNeighbors(cfg, m.dst) + 1;
    assert (w.it - 1) * per + (per - 1) == w.it * per - 1;
  }

  lemma {:induction false} ResultCalls(cfg: Config, s: State, m: Msg)
    requires cfg.n > 0 && Inv(cfg, Rounds(cfg), s) && m.MaxError? && Enabled(cfg, s, Take(m))
    requires CallsOk(cfg, Rounds(cfg), s)
    ensures Shape(cfg, Next(cfg, s, Take(m))) && CallsOk(cfg, Rounds(cfg), Next(cfg, s, Take(m)))
  {
    ResultIsCurrent(cfg, Rounds(cfg), s, m);
    var w := s.workers[m.dst].(converged := m.error <= cfg.tolerance, calls := s.workers[m.dst].calls + 1);
    LoopMoves(cfg, m.dst, s.reduced, w);
    LoopCalls(cfg, Rounds(cfg), m.dst, s.reduced, ConvergeLoop(cfg, m.dst, w));
  }

  lemma {:induction false} NextCalls(cfg: Config, s: State, st: Step)
    requires cfg.n > 0 && Inv(cfg, Rounds(cfg), s) && Enabled(cfg, s, st) && CallsOk(cfg, Rounds(cfg), s)
    ensures Shape(cfg, Next(cfg, s, st)) && CallsOk(cfg, Rounds(cfg), Next(cfg, s, st))
  {
    match st
    case Spawn(i) => SpawnCalls(cfg, s, i);
    case Reduce =>
    case Arrive(m) =>
    case Take(m) =>
      if m.Ghost? { GhostCalls(cfg, Rounds(cfg), s, m); }
      else if m.MaxError? { ResultCalls(cfg, s, m); }
  }

  lemma {:induction false} RunCalls(cfg: Config, run: seq<Step>)
    requires cfg.n > 0 && IsRun(cfg, run)
    ensures Inv(cfg, Rounds(cfg), After(cfg, run)) && CallsOk(cfg, Rounds(cfg), After(cfg, run))
    decreases |run|
  {
    RunInv(cfg, run);
    if run != [] {
      RunCalls(cfg, run[..|run| - 1]);
      NextCalls(cfg, After(cfg, run[..|run| - 1]), run[|run| - 1]);
    }
  }

  ghost function TotalCalls(s: State, upTo: nat): int
    requires upTo <= |s.workers|
  {
    if upTo == 0 then 0 else TotalCalls(s, upTo - 1) + s.workers[upTo - 1].calls
  }

  /** The sum of all `FullCalls` of the first `upTo` workers. */
  lemma {:induction false} SumFull(cfg: Config, k: nat, s: State, upTo: nat)
    requires 0 < upTo <= cfg.n == |s.workers|
    requires forall i :: 0 <= i < upTo ==> s.workers[i].calls == FullCalls(cfg, k, i)
    ensures TotalCalls(s, upTo) == k * ((upTo - 1) + Min(upTo, cfg.n - 1) + upTo) + 1
  {
    if upTo == 1 {
      assert TotalCalls(s, 1) == TotalCalls(s, 0) + s.workers[0].calls;
    } else {
      SumFull(cfg, k, s, upTo - 1);
      var before := (upTo - 2) + Min(upTo - 1, cfg.n - 1) + (upTo - 1);
      assert k * before + k * (NumNeighbors(cfg, upTo - 1) + 1) == k * (before + NumNeighbors(cfg, upTo - 1) + 1);
    }
  }

  lemma {:induction false} SumAll(cfg: Config, k: nat, s: State)
    requires cfg.n > 0 && |s.workers| == cfg.n
    requires forall i :: 0 <= i < cfg.n ==> s.workers[i].calls == FullCalls(cfg, k, i)
    ensures TotalCalls(s, cfg.n) == k * (2 * (cfg.n - 1) + cfg.n) + 1
  {
    SumFull(cfg, k, s, cfg.n);
    assert (cfg.n - 1) + Min(cfg.n, cfg.n - 1) + cfg.n == 2 * (cfg.n - 1) + cfg.n;
  }

  lemma {:induction false} EveryoneCounts(n: nat)
    ensures |Everyone(n)| == n && forall j: nat :: j in Everyone(n) <==> j < n
  {
    if n > 0 { EveryoneCounts(n - 1); }
  }

  // ---------------------------------------------------------------- the end

  lemma {:induction false} AllOver(cfg: Config, k: nat, s: State, i: nat)
    requires Inv(cfg, k, s) && CallsOk(cfg, k, s) && Final(s) && i < cfg.n
    ensures s.workers[i].phase == Over && |s.contribs[i]| == k + 1 && LeftLoop(cfg, k, i, s.workers[i])
    ensures s.workers[i].calls == FullCalls(cfg, k, i)
  {
    assert LocalOk(cfg, k, s, 0) && LocalOk(cfg, k, s, i);
  }

  lemma {:induction false} NothingPending(cfg: Config, k: nat, s: State, m: Msg)
    requires Inv(cfg, k, s) && Final(s) && forall i :: 0 <= i < cfg.n ==> s.workers[i].phase == Over
    ensures m !in s.net && m !in s.bufs
  {
    assert MessageOk(cfg, k, s, m);
    assert !Pending(cfg, k, s, m);
  }

  /** When the root has the grid: it has the indices of all `n` workers, everyone
      left the loop after the same `Rounds(cfg)` iterations, no message is in the
      network or in a buffer, and the continuations run are exactly those of
      `Rounds(cfg)` iterations and the root's last one. */
  lemma {:induction false} TheEnd(cfg: Config, run: seq<Step>)
    requires cfg.n > 0 && IsRun(cfg, run) && Final(After(cfg, run))
    ensures var s := After(cfg, run); var k := Rounds(cfg);
      && s.received == Some(Everyone(cfg.n)) && |Everyone(cfg.n)| == cfg.n
      && (forall i: nat :: i in Everyone(cfg.n) <==> i < cfg.n)
      && |s.workers| == |s.contribs| == cfg.n
      && (forall i :: 0 <= i < cfg.n ==>
            s.workers[i].phase == Over && |s.contribs[i]| == k + 1 && LeftLoop(cfg, k, i, s.workers[i]))
      && s.net == multiset{} && s.bufs == multiset{}
      && TotalCalls(s, cfg.n) == k * (2 * (cfg.n - 1) + cfg.n) + 1
  {
    var s, k := After(cfg, run), Rounds(cfg);
    RunCalls(cfg, run);
    EveryoneCounts(cfg.n);
    forall i | 0 <= i < cfg.n
      ensures s.workers[i].phase == Over && |s.contribs[i]| == k + 1 && LeftLoop(cfg, k, i, s.workers[i])
      ensures s.workers[i].calls == FullCalls(cfg, k, i)
    {
      AllOver(cfg, k, s, i);
    }
    forall m ensures m !in s.net && m !in s.bufs {
      NothingPending(cfg, k, s, m);
    }
    assert s.net == multiset{} && s.bufs == multiset{};
    SumAll(cfg, k, s);
  }

  ghost predicate AllWithin(cfg: Config, k: nat)
  {
    forall i: nat :: i < cfg.n ==> cfg.err(i, k) <= cfg.tolerance
  }

  /** The number of iterations is at most `maxIters`, and it is the first after
      which all errors are within tolerance, if there is one before that. */
  lemma {:induction false} RoundsBound(cfg: Config)
    requires cfg.n > 0
    ensures Rounds(cfg) <= Max(cfg.maxIters, 0)
    ensures forall k: nat :: 0 < k < Rounds(cfg) ==> !AllWithin(cfg, k)
    ensures 0 < Rounds(cfg) < cfg.maxIters ==> AllWithin(cfg, Rounds(cfg))
    ensures Rounds(cfg) == 0 ==> cfg.maxIters <= 0
  {
    var r := FirstEnd(cfg, 0);
    MaxErrIsLargest(cfg, r, cfg.n);
    forall k: nat | 0 < k < r ensures !AllWithin(cfg, k) {
      assert !EndsAt(cfg, k);
      MaxErrIsLargest(cfg, k, cfg.n);
    }
  }

  lemma {:induction false} ConstantMax(cfg: Config, k: int, upTo: nat, e: real)
    requires upTo > 0 && forall i: nat :: cfg.err(i, k) == e
    ensures MaxErr(cfg, k, upTo) == e
  {
    if upTo > 1 { ConstantMax(cfg, k, upTo - 1, e); }
  }

  /** The program as it stands contributes twice the tolerance every time: it stops
      after one iteration if the tolerance is not positive, and else after `maxIters`. */
  lemma {:induction false} ProgramRounds(cfg: Config)
    requires cfg.n > 0 && forall i: nat, k: int :: cfg.err(i, k) == 2.0 * cfg.tolerance
    ensures Rounds(cfg) == if cfg.maxIters <= 0 then 0 else if cfg.tolerance <= 0.0 then 1 else cfg.maxIters
  {
    var r := Rounds(cfg);
    forall k: nat ensures MaxErr(cfg, k, cfg.n) == 2.0 * cfg.tolerance {
      ConstantMax(cfg, k, cfg.n, 2.0 * cfg.tolerance);
    }
    RoundsBound(cfg);
    if cfg.maxIters > 0 {
      assert !EndsAt(cfg, 0);
      assert cfg.tolerance <= 0.0 ==> EndsAt(cfg, 1);
    }
  }

  // ---------------------------------------------------------------- progress

  /** A worker that waits while its message has been sent can go on. */
  lemma {:induction false} WaitingWorker(cfg: Config, k: nat, s: State, i: nat, m: Msg)
    requires Inv(cfg, k, s) && i < cfg.n && s.net == multiset{}
    requires Pending(cfg, k, s, m) && Awaited(cfg, s, m)
    ensures Enabled(cfg, s, Take(m))
  {
    assert MessageOk(cfg, k, s, m);
  }

  /** With an empty network, a worker that holds up the next reduction can take
      a message from its buffer, or a neighbour can. */
  lemma {:induction false} StragglerMoves(cfg: Config, k: nat, s: State, i: nat) returns (st: Step)
    requires Inv(cfg, k, s) && i < cfg.n && s.net == multiset{} && !Final(s)
    requires forall j :: 0 <= j < cfg.n ==> s.workers[j].phase != Unborn
    requires |s.contribs[i]| <= s.reduced
    ensures Enabled(cfg, s, st)
  {
    assert LocalOk(cfg, k, s, i) && LocalOk(cfg, k, s, 0);
    var w := s.workers[i];
    var m: Msg;
    if w.phase == Error {
      m := MaxError(i, s.reduced - 1, MaxErr(cfg, s.reduced, cfg.n));
    } else if w.phase == Ghosts {
      var a := if HasLeft(i) && !w.gotLeft then i - 1 else i + 1;
      assert LocalOk(cfg, k, s, a);
      if Entered(k, s.workers[a]) >= w.it {
        m := Ghost(a, i, w.it);
      } else {
        m := MaxError(a, s.reduced - 1, MaxErr(cfg, s.reduced, cfg.n));
      }
    } else {
      m := Indices(k, Everyone(cfg.n));
    }
    WaitingWorker(cfg, k, s, i, m);
    return Take(m);
  }

  /** No deadlock: until the root has the grid, some step is enabled. */
  lemma {:induction false} Progress(cfg: Config, run: seq<Step>) returns (st: Step)
    requires cfg.n > 0 && IsRun(cfg, run) && !Final(After(cfg, run))
    ensures Enabled(cfg, After(cfg, run), st)
  {
    var s, k := After(cfg, run), Rounds(cfg);
    RunInv(cfg, run);
    if i :| 0 <= i < cfg.n && s.workers[i].phase == Unborn {
      return Spawn(i);
    } else if m :| m in s.net {
      return Arrive(m);
    } else if AllContributed(cfg, s) {
      return Reduce;
    } else {
      var i :| 0 <= i < cfg.n && |s.contribs[i]| <= s.reduced;
      st := StragglerMoves(cfg, k, s, i);
    }
  }

  // ---------------------------------------------------------------- termination

  /** What worker `i` still has to do: its creation and its continuations. */
  ghost function Left(cfg: Config, k: nat, i: nat, w: Worker): int
  {
    FullCalls(cfg, k, i) - w.calls + if w.phase == Unborn then 1 else 0
  }

  ghost function TotalLeft(cfg: Config, k: nat, s: State, upTo: nat): int
    requires upTo <= |s.workers|
  {
    if upTo == 0 then 0 else TotalLeft(cfg, k, s, upTo - 1) + Left(cfg, k, upTo - 1, s.workers[upTo - 1])
  }

  lemma {:induction false} LeftNonNegative(cfg: Config, k: nat, s: State, i: nat)
    requires Inv(cfg, k, s) && CallsOk(cfg, k, s) && i < cfg.n
    ensures Left(cfg, k, i, s.workers[i]) >= 0
  {
    assert LocalOk(cfg, k, s, i);
    var w, per := s.workers[i], NumNeighbors(cfg, i) + 1;
    if w.phase == Ghosts || w.phase == Error {
      assert w.it * per <= k * per;
      assert (w.it - 1) * per + per == w.it * per;
    }
  }

  lemma {:induction false} TotalLeftNonNegative(cfg: Config, k: nat, s: State, upTo: nat)
    requires Inv(cfg, k, s) && CallsOk(cfg, k, s) && upTo <= cfg.n
    ensures TotalLeft(cfg, k, s, upTo) >= 0
  {
    if upTo > 0 {
      LeftNonNegative(cfg, k, s, upTo - 1);
      TotalLeftNonNegative(cfg, k, s, upTo - 1);
    }
  }

  lemma {:induction false} TotalLeftUpdate(cfg: Config, k: nat, s: State, s': State, i: nat, upTo: nat)
    requires upTo <= |s.workers| == |s'.workers| && i < |s.workers|
    requires s'.workers == s.workers[i := s'.workers[i]]
    ensures TotalLeft(cfg, k, s', upTo) == TotalLeft(cfg, k, s, upTo)
      + if i < upTo then Left(cfg, k, i, s'.workers[i]) - Left(cfg, k, i, s.workers[i]) else 0
  {
    if upTo > 0 { TotalLeftUpdate(cfg, k, s, s', i, upTo - 1); }
  }

  /** An upper bound on the steps left. */
  ghost function Rank(cfg: Config, k: nat, s: State): int
    requires |s.workers| == cfg.n
  {
    (cfg.n + 3) * (TotalLeft(cfg, k, s, cfg.n) + k + 1 - s.reduced) + |s.net|
  }

  lemma {:induction false} Scale(a: nat, x: int, y: int)
    requires x <= y
    ensures a * x <= a * y
  {
  }

  lemma {:induction false} RankNonNegative(cfg: Config, k: nat, s: State)
    requires Inv(cfg, k, s) && CallsOk(cfg, k, s)
    ensures Rank(cfg, k, s) >= 0
  {
    TotalLeftNonNegative(cfg, k, s, cfg.n);
    assert LocalOk(cfg, k, s, 0);
    Scale(cfg.n + 3, 0, TotalLeft(cfg, k, s, cfg.n) + k + 1 - s.reduced);
  }

  /** One creation or one continuation. */
  ghost predicate Advanced(w: Worker, w': Worker)
  {
    && w'.phase != Unborn
    && if w.phase == Unborn then w'.calls == w.calls else w'.calls == w.calls + 1
  }

  ghost predicate Advances(cfg: Config, s: State, s': State, i: nat)
    requires Shape(cfg, s)
  {
    && |s'.workers| == cfg.n && i < cfg.n && s'.reduced == s.reduced && |s'.net| <= |s.net| + 2
    && s'.workers == s.workers[i := s'.workers[i]]
    && Advanced(s.workers[i], s'.workers[i])
  }

  lemma {:induction false} SpawnAdvances(cfg: Config, s: State, i: nat)
    requires cfg.n > 0 && Inv(cfg, Rounds(cfg), s) && Enabled(cfg, s, Spawn(i))
    ensures Advances(cfg, s, Next(cfg, s, Spawn(i)), i)
  {
    assert LocalOk(cfg, Rounds(cfg), s, i);
    LoopMoves(cfg, i, 0, s.workers[i]);
  }

  lemma {:induction false} ResultAdvances(cfg: Config, s: State, m: Msg)
    requires cfg.n > 0 && Inv(cfg, Rounds(cfg), s) && m.MaxError? && Enabled(cfg, s, Take(m))
    ensures Advances(cfg, s, Next(cfg, s, Take(m)), m.dst)
  {
    ResultIsCurrent(cfg, Rounds(cfg), s, m);
    var w := s.workers[m.dst];
    LoopMoves(cfg, m.dst, s.reduced, w.(converged := m.error <= cfg.tolerance, calls := w.calls + 1));
  }

  lemma {:induction false} GhostAdvances(cfg: Config, s: State, m: Msg)
    requires cfg.n > 0 && Shape(cfg, s) && m.Ghost? && Enabled(cfg, s, Take(m))
    ensures Advances(cfg, s, Next(cfg, s, Take(m)), m.dst)
  {
  }

  lemma {:induction false} TakeAdvances(cfg: Config, s: State, m: Msg)
    requires cfg.n > 0 && Inv(cfg, Rounds(cfg), s) && Enabled(cfg, s, Take(m))
    ensures Advances(cfg, s, Next(cfg, s, Take(m)), if m.Indices? then 0 else m.dst)
  {
    if m.Ghost? { GhostAdvances(cfg, s, m); } else if m.MaxError? { ResultAdvances(cfg, s, m); }
  }

  lemma {:induction false} AdvancesRank(cfg: Config, k: nat, s: State, s': State, i: nat)
    requires Shape(cfg, s) && Advances(cfg, s, s', i)
    ensures Rank(cfg, k, s') < Rank(cfg, k, s)
  {
    TotalLeftUpdate(cfg, k, s, s', i, cfg.n);
    var left := TotalLeft(cfg, k, s, cfg.n) + k + 1 - s.reduced;
    assert (cfg.n + 3) * (left - 1) == (cfg.n + 3) * left - (cfg.n + 3);
  }

  lemma {:induction false} ReduceRank(cfg: Config, k: nat, s: State)
    requires Inv(cfg, k, s) && Enabled(cfg, s, Reduce)
    ensures Rank(cfg, k, Next(cfg, s, Reduce)) < Rank(cfg, k, s)
  {
    var s' := Next(cfg, s, Reduce);
    assert s'.workers == s.workers[0 := s'.workers[0]];
    TotalLeftUpdate(cfg, k, s, s', 0, cfg.n);
    ReductionIsUniform(cfg, k, s);
    ResultsCount(cfg.n, s.reduced, MaxErr(cfg, s.reduced + 1, cfg.n), Indices(0, {}));
    var left := TotalLeft(cfg, k, s, cfg.n) + k + 1 - s.reduced;
    assert (cfg.n + 3) * (left - 1) == (cfg.n + 3) * left - (cfg.n + 3);
  }

  lemma {:induction false} ArriveRank(cfg: Config, k: nat, s: State, m: Msg)
    requires Shape(cfg, s) && Enabled(cfg, s, Arrive(m))
    ensures Rank(cfg, k, Next(cfg, s, Arrive(m))) < Rank(cfg, k, s)
  {
    var s' := Next(cfg, s, Arrive(m));
    assert s'.workers == s.workers[0 := s'.workers[0]];
    TotalLeftUpdate(cfg, k, s, s', 0, cfg.n);
  }

  lemma {:induction false} RankDecreases(cfg: Config, s: State, st: Step)
    requires cfg.n > 0 && Inv(cfg, Rounds(cfg), s) && Enabled(cfg, s, st)
    ensures |Next(cfg, s, st).workers| == cfg.n
    ensures Rank(cfg, Rounds(cfg), Next(cfg, s, st)) < Rank(cfg, Rounds(cfg), s)
  {
    var k := Rounds(cfg);
    match st
    case Spawn(i) => SpawnAdvances(cfg, s, i); AdvancesRank(cfg, k, s, Next(cfg, s, st), i);
    case Reduce => ReduceRank(cfg, k, s);
    case Arrive(m) => ArriveRank(cfg, k, s, m);
    case Take(m) => TakeAdvances(cfg, s, m); AdvancesRank(cfg, k, s, Next(cfg, s, st), if m.Indices? then 0 else m.dst);
  }

  /** Every run ends: it has at most as many steps as the rank of the initial
      state.  With `Progress` and `TheEnd`, every run that cannot be continued has
      delivered the grid. */
  lemma {:induction false} RunsEnd(cfg: Config, run: seq<Step>)
    requires cfg.n > 0 && IsRun(cfg, run)
    ensures |After(cfg, run).workers| == cfg.n
    ensures |run| + Rank(cfg, Rounds(cfg), After(cfg, run)) <= Rank(cfg, Rounds(cfg), Init(cfg))
    ensures |run| <= Rank(cfg, Rounds(cfg), Init(cfg))
    decreases |run|
  {
    RunCalls(cfg, run);
    RankNonNegative(cfg, Rounds(cfg), After(cfg, run));
    if run != [] {
      var run' := run[..|run| - 1];
      RunsEnd(cfg, run');
      RunCalls(cfg, run');
      RankDecreases(cfg, After(cfg, run'), run[|run| - 1]);
    }
  }
}
