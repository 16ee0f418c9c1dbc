/** The relaxation task object: its continuations run in place, and do what the state
    machine of module `Relaxation` says they do. */
module RelaxationTaskObject {
  import opened Wrappers
  import opened Relaxation

  class RelaxationTask {
    const cfg: Config
    const index: nat
    const hasLeft: bool
    const hasRight: bool
    const nNeighbors: int
    var converged: bool
    var nRecvd: int
    var it: int
    /** The continuation suspended on; `Over` once terminated. */
    var phase: Phase
    /** Everything sent and contributed so far. */
    var sent: multiset<Msg>
    var contributed: seq<Contribution>
    /** Instrumentation. */
    ghost var gotLeft: bool
    ghost var gotRight: bool
    ghost var calls: int

    ghost function Value(): Worker
      reads this
    {
      Worker(phase, converged, it, nRecvd, gotLeft, gotRight, calls)
    }

    predicate Valid()
    {
      hasLeft == HasLeft(index) && hasRight == HasRight(cfg, index) && nNeighbors == NumNeighbors(cfg, index)
    }

    /** The task has made the move `mv` since it had sent `before` and contributed `given`. */
    ghost predicate Moved(mv: Move, before: multiset<Msg>, given: seq<Contribution>)
      reads this
    {
      && Value() == mv.w
      && sent == (if mv.sends then before + GhostsOf(cfg, index, mv.w.it) else before)
      && contributed == (if mv.contrib.Some? then given + [mv.contrib.value] else given)
    }

    constructor (cfg: Config, index: nat)
      ensures this.cfg == cfg && this.index == index && Valid()
      ensures Moved(Relaxation.ConvergeLoop(cfg, index, NEWBORN), multiset{}, [])
    {
      this.cfg, this.index := cfg, index;
      converged, nRecvd, it, phase := false, 0, 0, Unborn;
      sent, contributed, gotLeft, gotRight, calls := multiset{}, [], false, false, 0;
      hasLeft, hasRight := index > 0, index + 1 < cfg.n;
      nNeighbors := (if index > 0 then 1 else 0) + (if index + 1 < cfg.n then 1 else 0);
      new;
      ConvergeLoop();
    }

    method ConvergeLoop()
      requires Valid()
      modifies this
      ensures Moved(Relaxation.ConvergeLoop(cfg, index, old(Value())), old(sent), old(contributed))
    {
      var goOn := !converged;
      if goOn {
        goOn := it < cfg.maxIters;
        it := it + 1;
      }
      if goOn {
        Iterate();
      } else {
        OnConverge();
      }
    }

    method Iterate()
      requires Valid()
      modifies this`nRecvd, this`gotLeft, this`gotRight, this`sent, this`contributed, this`phase
      ensures nRecvd == 0 && !gotLeft && !gotRight && sent == old(sent) + GhostsOf(cfg, index, it)
      ensures phase == if nNeighbors == 0 then Error else Ghosts
      ensures contributed == if nNeighbors == 0 then old(contributed) + [MyError(cfg.err(index,
          it))] else old(contributed)
    {
      nRecvd := 0;
      gotLeft, gotRight := false, false;
      SendGhosts();
      if nNeighbors == 0 {
        CheckAndCompute();
      } else {
        phase := Ghosts;
      }
    }

    method SendGhosts()
      requires Valid()
      modifies this`sent
      ensures sent == old(sent) + GhostsOf(cfg, index, it)
    {
      if hasLeft {
        sent := sent + multiset{Ghost(index, index - 1, it)};
      }
      if hasRight {
        sent := sent + multiset{Ghost(index, index + 1, it)};
      }
    }

    method ReceiveGhost(src: nat)
      requires Valid() && phase == Ghosts
      modifies this
      ensures Moved(Relaxation.ReceiveGhost(cfg, index, old(Value()), src), old(sent), old(contributed))
    {
      gotLeft, gotRight, calls := gotLeft || src < index, gotRight || src > index, calls + 1;
      nRecvd := nRecvd + 1;
      if nRecvd >= nNeighbors {
        CheckAndCompute();
      }
    }

    method CheckAndCompute()
      modifies this`contributed, this`phase
      ensures contributed == old(contributed) + [MyError(cfg.err(index, it))] && phase == Error
    {
      contributed := contributed + [MyError(cfg.err(index, it))];
      phase := Error;
    }

    method ReceiveMaxError(error: real)
      requires Valid() && phase == Error
      modifies this
      ensures Moved(Relaxation.ReceiveMaxError(cfg, index, old(Value()), error), old(sent), old(contributed))
    {
      calls := calls + 1;
      converged := error <= cfg.tolerance;
      ConvergeLoop();
    }

    method OnConverge()
      modifies this`contributed, this`phase
      ensures contributed == old(contributed) + [MyIndex(index)] && phase == if index == 0 then Grid else Over
    {
      contributed := contributed + [MyIndex(index)];
      phase := if index == 0 then Grid else Over;
    }
  }
}
