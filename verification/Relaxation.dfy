/** The relaxation program: `n` workers exchange ghosts that carry no iteration
    number, separated only by an all-reduce, over a network without order.
    Each worker's task is the state machine of `relaxation_task`; a message is in
    the network, then in its workgroup's buffers, then taken when the task is
    suspended on its continuation. */
module Relaxation {
  import opened Wrappers

  /** `err(i, k)` is the error worker `i` contributes in iteration `k`. */
  datatype Config = Config(n: nat, maxIters: int, tolerance: real, err: (nat, int) -> real)

  /** What the task is suspended on. */
  datatype Phase = Unborn | Ghosts | Error | Grid | Over

  /** The fields of `relaxation_task`, then instrumentation: from which sides
      a ghost was counted in this iteration, and the continuations run. */
  datatype Worker = Worker(
    phase: Phase, converged: bool, it: int, nRecvd: int, gotLeft: bool, gotRight: bool, calls: int)

  datatype Contribution = MyError(error: real) | MyIndex(index: nat)

  /** The iteration in a ghost and the round in a result are instrumentation. */
  datatype Msg =
    | Ghost(src: nat, dst: nat, iter: int)
    | MaxError(dst: nat, round: nat, error: real)
    | Indices(round: nat, indices: set<nat>)

  datatype State = State(
    workers: seq<Worker>,
    net: multiset<Msg>,
    bufs: multiset<Msg>,
    contribs: seq<seq<Contribution>>,
    reduced: nat,
    received: Option<set<nat>>)

  // ---------------------------------------------------------------- the task

  predicate HasLeft(i: nat) { i > 0 }

  predicate HasRight(cfg: Config, i: nat) { i + 1 < cfg.n }

  function NumNeighbors(cfg: Config, i: nat): int
  {
    (if HasLeft(i) then 1 else 0) + (if HasRight(cfg, i) then 1 else 0)
  }

  /** What a continuation did: the new fields, whether it sent its ghosts, and
      its contribution to the next reduction. */
  datatype Move = Move(w: Worker, sends: bool, contrib: Option<Contribution>)

  function CheckAndCompute(cfg: Config, i: nat, w: Worker, sends: bool): Move
  {
    Move(w.(phase := Error), sends, Some(MyError(cfg.err(i, w.it))))
  }

  function OnConverge(i: nat, w: Worker): Move
  {
    Move(w.(phase := if i == 0 then Grid else Over), false, Some(MyIndex(i)))
  }

  /** The guard `!converged && (it++ < maxIters)` increments `it` whenever it
      compares it. */
  function ConvergeLoop(cfg: Config, i: nat, w: Worker): Move
  {
    if w.converged then OnConverge(i, w)
    else if w.it < cfg.maxIters then
      var w1 := w.(it := w.it + 1, nRecvd := 0, gotLeft := false, gotRight := false);
      if NumNeighbors(cfg, i) == 0 then CheckAndCompute(cfg, i, w1, true)
      else Move(w1.(phase := Ghosts), true, None)
    else OnConverge(i, w.(it := w.it + 1))
  }

  function ReceiveGhost(cfg: Config, i: nat, w: Worker, src: nat): Move
  {
    var w1 := w.(nRecvd := w.nRecvd + 1, calls := w.calls + 1,
                 gotLeft := w.gotLeft || src < i, gotRight := w.gotRight || src > i);
    if w1.nRecvd >= NumNeighbors(cfg, i) then CheckAndCompute(cfg, i, w1, false)
    else Move(w1, false, None)
  }

  function ReceiveMaxError(cfg: Config, i: nat, w: Worker, error: real): Move
  {
    ConvergeLoop(cfg, i, w.(converged := error <= cfg.tolerance, calls := w.calls + 1))
  }

  // ---------------------------------------------------------------- the system

  const NEWBORN := Worker(Unborn, false, 0, 0, false, false, 0)

  function Init(cfg: Config): State
  {
    State(seq(cfg.n, i => NEWBORN), multiset{}, multiset{}, seq(cfg.n, i => []), 0, None)
  }

  function GhostsOf(cfg: Config, i: nat, k: int): multiset<Msg>
  {
    (if HasLeft(i) then multiset{Ghost(i, i - 1, k)} else multiset{}) +
    (if HasRight(cfg, i) then multiset{Ghost(i, i + 1, k)} else multiset{})
  }

  function Commit(cfg: Config, s: State, i: nat, mv: Move): State
    requires i < |s.workers| == |s.contribs|
  {
    s.(workers := s.workers[i := mv.w],
    net := s.net + (if mv.sends then GhostsOf(cfg, i, mv.w.it) else multiset{}),
    contribs := if mv.contrib.Some? then s.contribs[i := s.contribs[i] + [mv.contrib.value]] else s.contribs)
  }

  function MaxContributed(s: State, round: nat, upTo: nat): real
    requires 0 < upTo <= |s.contribs|
    requires forall i :: 0 <= i < upTo ==> round < |s.contribs[i]| && s.contribs[i][round].MyError?
  {
    var e := s.contribs[upTo - 1][round].error;
    if upTo == 1 then e
    else
      var m := MaxContributed(s, round, upTo - 1);
      if m < e then e else m
  }

  function IndicesContributed(s: State, round: nat, upTo: nat): set<nat>
    requires upTo <= |s.contribs|
    requires forall i :: 0 <= i < upTo ==> round < |s.contribs[i]| && s.contribs[i][round].MyIndex?
  {
    if upTo == 0 then {} else IndicesContributed(s, round, upTo - 1) + {s.contribs[upTo - 1][round].index}
  }

  function Results(n: nat, round: nat, error: real): multiset<Msg>
  {
    if n == 0 then multiset{} else Results(n - 1, round, error) + multiset{MaxError(n - 1, round, error)}
  }

  ghost predicate AllContributed(cfg: Config, s: State)
  {
    |s.contribs| == cfg.n && forall i :: 0 <= i < cfg.n ==> s.reduced < |s.contribs[i]|
  }

  ghost predicate AllErrors(cfg: Config, s: State)
    requires AllContributed(cfg, s)
  {
    forall i :: 0 <= i < cfg.n ==> s.contribs[i][s.reduced].MyError?
  }

  ghost predicate AllIndices(cfg: Config, s: State)
    requires AllContributed(cfg, s)
  {
    forall i :: 0 <= i < cfg.n ==> s.contribs[i][s.reduced].MyIndex?
  }

  /** The reduction of everybody's next contribution: a maximum goes back to all,
      a set of indices to the root.  Contributions of different kinds have no
      result. */
  ghost function Reduced(cfg: Config, s: State): State
    requires cfg.n > 0 && AllContributed(cfg, s)
  {
    var r := s.reduced;
    var out :=
      if AllErrors(cfg, s) then Results(cfg.n, r, MaxContributed(s, r, cfg.n))
      else if AllIndices(cfg, s) then multiset{Indices(r, IndicesContributed(s, r, cfg.n))}
      else multiset{};
    s.(net := s.net + out, reduced := r + 1)
  }

  datatype Step = Spawn(i: nat) | Reduce | Arrive(m: Msg) | Take(m: Msg)

  /** Whether a workgroup's task can take `m`: it is suspended on its continuation. */
  ghost predicate Awaited(cfg: Config, s: State, m: Msg)
  {
    |s.workers| == |s.contribs| == cfg.n &&
    match m
    case Ghost(_, d, _) => d < cfg.n && s.workers[d].phase == Ghosts
    case MaxError(d, _, _) => d < cfg.n && s.workers[d].phase == Error
    case Indices(_, _) => 0 < cfg.n && s.workers[0].phase == Grid
  }

  ghost predicate Enabled(cfg: Config, s: State, st: Step)
  {
    match st
    case Spawn(i) => i < |s.workers| == |s.contribs| && s.workers[i].phase == Unborn
    case Reduce => cfg.n > 0 && AllContributed(cfg, s)
    case Arrive(m) => m in s.net
    case Take(m) => m in s.bufs && Awaited(cfg, s, m)
  }

  ghost function Next(cfg: Config, s: State, st: Step): State
    requires Enabled(cfg, s, st)
  {
    match st
    case Spawn(i) => Commit(cfg, s, i, ConvergeLoop(cfg, i, s.workers[i]))
    case Reduce => Reduced(cfg, s)
    case Arrive(m) => s.(net := s.net - multiset{m}, bufs := s.bufs + multiset{m})
    case Take(m) =>
      var s1 := s.(bufs := s.bufs - multiset{m});
      match m
      case Ghost(src, d, _) => Commit(cfg, s1, d, ReceiveGhost(cfg, d, s.workers[d], src))
      case MaxError(d, _, e) => Commit(cfg, s1, d, ReceiveMaxError(cfg, d, s.workers[d], e))
      case Indices(_, all) =>
        var w := s.workers[0].(phase := Over, calls := s.workers[0].calls + 1);
        s1.(workers := s.workers[0 := w], received := Some(all))
  }

  /** A run is a sequence of steps, each enabled where it is taken. */
  ghost predicate IsRun(cfg: Config, run: seq<Step>)
    decreases |run|, 0
  {
    run == [] || (IsRun(cfg, run[..|run| - 1]) && Enabled(cfg, After(cfg, run[..|run| - 1]), run[|run| - 1]))
  }

  /** The state a run leads to. */
  ghost function After(cfg: Config, run: seq<Step>): State
    requires IsRun(cfg, run)
    decreases |run|, 1
  {
    if run == [] then Init(cfg) else Next(cfg, After(cfg, run[..|run| - 1]), run[|run| - 1])
  }

  /** The root received the grid. */
  ghost predicate Final(s: State)
  {
    s.received.Some?
  }

  // ---------------------------------------------------------------- when it stops

  /** The largest error any of the first `upTo` workers contributes in iteration `k`. */
  ghost function MaxErr(cfg: Config, k: int, upTo: nat): real
    requires upTo > 0
  {
    if upTo == 1 then cfg.err(0, k)
    else
      var m := MaxErr(cfg, k, upTo - 1);
      var e := cfg.err(upTo - 1, k);
      if m < e then e else m
  }

  /** `e` is the largest error of the first `upTo` workers in iteration `k`. */
  ghost predicate IsLargest(cfg: Config, k: int, upTo: nat, e: real)
  {
    && (forall i: nat :: i < upTo ==> cfg.err(i, k) <= e)
    && exists i: nat :: i < upTo && cfg.err(i, k) == e
  }

  /** Iteration `k` was made and is within tolerance. */
  ghost predicate Within(cfg: Config, k: nat)
    requires cfg.n > 0
  {
    k > 0 && MaxErr(cfg, k, cfg.n) <= cfg.tolerance
  }

  /** No iteration follows iteration `k`. */
  ghost predicate EndsAt(cfg: Config, k: nat)
    requires cfg.n > 0
  {
    k >= cfg.maxIters || Within(cfg, k)
  }

  /** How worker `i` left the loop after `k` iterations: the guard's last comparison
      increments `it` too, but is not made once converged. */
  ghost predicate LeftLoop(cfg: Config, k: nat, i: nat, w: Worker)
    requires cfg.n > 0
  {
    && w.converged == Within(cfg, k) && w.it == (if w.converged then k else k + 1)
    && w.nRecvd == CountedBy(cfg, i, k)
  }

  /** The ghosts worker `i` has counted at the end of iteration `k`. */
  function CountedBy(cfg: Config, i: nat, k: nat): int
  {
    if k > 0 then NumNeighbors(cfg, i) else 0
  }

  ghost function FirstEnd(cfg: Config, k: nat): (r: nat)
    requires cfg.n > 0
    ensures r >= k && EndsAt(cfg, r)
    ensures forall j :: k <= j < r ==> !EndsAt(cfg, j)
    ensures r <= cfg.maxIters || r == k
    decreases cfg.maxIters - k
  {
    if EndsAt(cfg, k) then k else FirstEnd(cfg, k + 1)
  }

  /** The number of iterations of a run. */
  ghost function Rounds(cfg: Config): (k: nat)
    requires cfg.n > 0
  {
    FirstEnd(cfg, 0)
  }
}
