/** What the PEs count and contribute, and what the all-reduce makes of it. */
module CompletionCounts {
  import opened CompletionDetection
  import opened CompletionProof
  import Reduction
  import ReductionTree

  /** What a PE still expects after it has handled `items`. */
  function Expected(n: nat, items: seq<Item>): int
  {
    if items == [] then 0
    else Expected(n, items[..|items| - 1]) + if items[|items| - 1].Produce? then n else -1
  }

  lemma {:induction false} ExpectedAfter(n: nat, log: seq<Item>)
    requires forall k :: 0 <= k < |log| ==> (log[k].Produce? <==> k == 0)
    ensures Expected(n, log) == if log == [] then 0 else n - (|log| - 1)
  {
    if log != [] { ExpectedAfter(n, log[..|log| - 1]); }
  }

  /** Every PE's count is what the broadcasts it has handled make it expect. */
  lemma {:induction false} CountsExpected(n: nat, run: seq<Step>, i: nat)
    requires n > 0 && IsRun(n, run) && i < n
    ensures var s := After(n, run);
      Shape(n, s) && s.pos[i] <= |s.log| && s.lcount[i] == Expected(n, s.log[..s.pos[i]])
  {
    RunInv(n, run);
    ExpectedAfter(n, After(n, run).log[..After(n, run).pos[i]]);
  }

  /** PE `i` contributed nothing, or its count. */
  ghost predicate ContributedCount(s: State, s': State, i: nat)
    requires i < |s.samples| && i < |s'.samples| && i < |s.lcount| && i < |s.pos| && i < |s'.pos|
  {
    || s'.samples[i] == s.samples[i]
    || (s'.samples[i] == s.samples[i] + [s.lcount[i]] && s'.pos[i] == s.pos[i])
  }

  lemma {:induction false} ItemContributes(n: nat, s: State, j: nat, item: Item)
    requires Shape(n, s) && j < n
    ensures HandleItem(n, s, j, item).samples == s.samples && HandleItem(n, s, j, item).failed == s.failed
  {
  }

  lemma {:induction false} StartContributes(n: nat, s: State, j: nat, i: nat)
    requires Shape(n, s) && i < n && j < n
    ensures ContributedCount(s, StartDetection(n, s, j), i)
  {
  }

  lemma {:induction false} Contributes(n: nat, s: State, st: Step, i: nat)
    requires Enabled(n, s, st) && i < n
    ensures ContributedCount(s, Next(n, s, st), i)
  {
    match st
    case NumberProduce => ItemContributes(n, s.(asked := false, log := s.log + [Produce]), 0, Produce);
    case NumberConsume(src) =>
      ItemContributes(n, s.(wanted := s.wanted - multiset{src}, log := s.log + [Consume(src)]), 0, Consume(src));
    case Handle(j) => ItemContributes(n, s, j, s.log[s.pos[j]]);
    case NumberStart => StartContributes(n, s.(requested := false, detecting := s.detecting[0 := true]), 0, i);
    case Start(j) => StartContributes(n, s.(detecting := s.detecting[j := true]), j, i);
    case Reduce =>
    case Result(j, wave) =>
  }

  /** A PE contributes what it expects at that moment, and takes nothing back. */
  lemma {:induction false} ContributesExpected(n: nat, run: seq<Step>, st: Step, i: nat)
    requires n > 0 && IsRun(n, run) && Enabled(n, After(n, run), st) && i < n
    ensures Shape(n, After(n, run)) && After(n, run).pos[i] <= |After(n, run).log|
    ensures var s, s' := After(n, run), Next(n, After(n, run), st);
      s'.samples[i] == s.samples[i] ||
      (s'.samples[i] == s.samples[i] + [Expected(n, s.log[..s.pos[i]])] && s'.pos[i] == s.pos[i])
  {
    CountsExpected(n, run, i);
    Contributes(n, After(n, run), st, i);
  }

  /** `failed` is exactly the record of a sum handled by a PE that has no request yet. */
  lemma {:induction false} FailsExactly(n: nat, s: State, st: Step)
    requires Enabled(n, s, st)
    ensures Next(n, s, st).failed <==>
            s.failed || (st.Reduce? && !s.detecting[0]) || (st.Result? && !s.detecting[st.i])
  {
    match st
    case NumberProduce => ItemContributes(n, s.(asked := false, log := s.log + [Produce]), 0, Produce);
    case NumberConsume(src) =>
      ItemContributes(n, s.(wanted := s.wanted - multiset{src}, log := s.log + [Consume(src)]), 0, Consume(src));
    case Handle(j) => ItemContributes(n, s, j, s.log[s.pos[j]]);
    case _ =>
  }

  /** The contributions of PEs 0 to `upTo` to a wave. */
  function Wave(samples: seq<seq<int>>, wave: nat, upTo: nat): (r: seq<int>)
    requires upTo <= |samples| && forall i :: 0 <= i < upTo ==> wave < |samples[i]|
    ensures |r| == upTo && forall i :: 0 <= i < upTo ==> r[i] == samples[i][wave]
  {
    seq(upTo, i requires 0 <= i < upTo => samples[i][wave])
  }

  lemma {:induction false} SumOfWave(samples: seq<seq<int>>, wave: nat, upTo: nat)
    requires upTo <= |samples| && forall i :: 0 <= i < upTo ==> wave < |samples[i]|
    ensures SumOf(samples, wave, upTo) == ReductionTree.Sum(Wave(samples, wave, upTo))
  {
    if upTo > 0 {
      SumOfWave(samples, wave, upTo - 1);
      assert Wave(samples, wave, upTo)[..upTo - 1] == Wave(samples, wave, upTo - 1);
    }
  }

  lemma {:induction false} SumPermutes(a: seq<int>, b: seq<int>)
    requires a != [] && multiset(a) == multiset(b)
    ensures ReductionTree.Sum(a) == ReductionTree.Sum(b)
  {
    ReductionTree.FoldPermutes(Reduction.Add(), a, b);
    SumFolds(a);
    SumFolds(b);
  }

  lemma {:induction false} SumFolds(a: seq<int>)
    requires a != []
    ensures ReductionTree.Sum(a) == ReductionTree.FoldAll(Reduction.Add(), a)
  {
    ReductionTree.FoldAdds(a[0], a[1..]);
    ReductionTree.SumConcat([a[0]], a[1..]);
    assert a == [a[0]] + a[1..] && [a[0]][..0] == [];
    assert ReductionTree.Sum([a[0]]) == a[0];
  }

  /** Every wave's result is what the reduction tree, of any shape and with the PEs
      anywhere in it, makes of one contribution of every PE with the combiner `add`. */
  lemma {:induction false} WavesReduce(n: nat, run: seq<Step>, k: nat, t: ReductionTree.Tree<int>)
    requires n > 0 && IsRun(n, run) && k < |After(n, run).results|
    requires Shape(n, After(n, run)) && forall i :: 0 <= i < n ==> k < |After(n, run).samples[i]|
    requires multiset(ReductionTree.Contributions(t)) == multiset(Wave(After(n, run).samples, k, n))
    ensures After(n, run).results[k] == ReductionTree.Reduce(Reduction.Add(), t)
  {
    RunSums(n, run, k);
    SumOfWave(After(n, run).samples, k, n);
    ReductionTree.AddSums(t);
    SumPermutes(ReductionTree.Contributions(t), Wave(After(n, run).samples, k, n));
  }

  /** The sums are sums, and there is one contribution of every PE to each. */
  lemma {:induction false} ResultsAreSums(n: nat, run: seq<Step>, k: nat)
    requires n > 0 && IsRun(n, run) && k < |After(n, run).results|
    ensures Shape(n, After(n, run)) && forall i :: 0 <= i < n ==> k < |After(n, run).samples[i]|
    ensures After(n, run).results[k] == ReductionTree.Sum(Wave(After(n, run).samples, k, n))
  {
    RunSums(n, run, k);
    SumOfWave(After(n, run).samples, k, n);
  }
}
