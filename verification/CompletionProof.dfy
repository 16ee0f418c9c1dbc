/** A wave that sums to zero means that everything is produced and consumed. */
module CompletionProof {
  import opened CompletionDetection

  // ---------------------------------------------------------------- counting broadcasts

  ghost function Sources(log: seq<Item>): multiset<nat>
  {
    if log == [] then multiset{}
    else
      var l := |log| - 1;
      Sources(log[..l]) + if log[l].Consume? then multiset{log[l].src} else multiset{}
  }

  /** The PEs that have handled the `produce` broadcast. */
  ghost function Producers(pos: seq<nat>, upTo: nat): set<nat>
    requires upTo <= |pos|
  {
    if upTo == 0 then {} else Producers(pos, upTo - 1) + if pos[upTo - 1] > 0 then {upTo - 1} else {}
  }

  lemma {:induction false} ProducersIn(pos: seq<nat>, upTo: nat)
    requires upTo <= |pos|
    ensures forall i: nat :: i in Producers(pos, upTo) <==> i < upTo && pos[i] > 0
  {
    if upTo > 0 { ProducersIn(pos, upTo - 1); }
  }

  lemma {:induction false} ProducersCount(pos: seq<nat>, upTo: nat)
    requires upTo <= |pos|
    ensures |Producers(pos, upTo)| <= upTo
    ensures |Producers(pos, upTo)| == upTo ==> forall i :: 0 <= i < upTo ==> pos[i] > 0
  {
    if upTo > 0 {
      ProducersCount(pos, upTo - 1);
      if pos[upTo - 1] > 0 {
        assert |Producers(pos, upTo)| <= |Producers(pos, upTo - 1)| + 1;
      }
    }
  }

  lemma {:induction false} ProducersAre(pos: seq<nat>, upTo: nat)
    requires upTo <= |pos|
    ensures forall i: nat :: i in Producers(pos, upTo) <==> i < upTo && pos[i] > 0
    ensures |Producers(pos, upTo)| <= upTo
    ensures |Producers(pos, upTo)| == upTo ==> forall i :: 0 <= i < upTo ==> pos[i] > 0
  {
    ProducersIn(pos, upTo);
    ProducersCount(pos, upTo);
  }

  // ---------------------------------------------------------------- the invariant

  ghost predicate LogOk(n: nat, s: State)
  {
    && Shape(n, s)
    && (s.asked <==> s.log == [])
    && (forall k :: 0 <= k < |s.log| ==> (s.log[k].Produce? <==> k == 0))
    && |Sources(s.log)| == (if s.log == [] then 0 else |s.log| - 1)
    && Sources(s.log) + s.wanted == multiset(Producers(s.pos, n))
  }

  ghost predicate CountsOk(n: nat, s: State)
  {
    && Shape(n, s)
    && s.pos[0] == |s.log|
    && forall i :: 0 <= i < n ==>
      && s.pos[i] <= |s.log|
      && s.lcount[i] == if s.pos[i] == 0 then 0 else n - (s.pos[i] - 1)
  }

  ghost predicate DetectionOk(n: nat, s: State)
  {
    && Shape(n, s) && !s.failed
    && (s.started <==> s.pos[0] >= 2)
    && (s.started <==> s.requested || s.detecting[0])
    && !(s.requested && s.detecting[0])
    && (forall i :: 0 <= i < n && s.detecting[i] ==> s.detecting[0])
  }

  /** Every PE is at the last wave or the one before, and has contributed to the
      wave after the last result it received unless that result was zero. */
  ghost predicate WaveOk(n: nat, s: State, i: nat)
    requires Shape(n, s) && i < n
  {
    && s.received[i] <= |s.results| <= s.received[i] + 1
    && (i == 0 ==> s.received[i] == |s.results|)
    && (!s.detecting[i] ==> s.received[i] == |s.results| == 0)
    && s.complete[i] == (s.received[i] > 0 && s.results[s.received[i] - 1] == 0)
    && |s.samples[i]| == if !s.detecting[i] then 0 else if s.complete[i] then s.received[i] else s.received[i] + 1
  }

  ghost predicate WavesOk(n: nat, s: State)
  {
    && Shape(n, s)
    && (forall i :: 0 <= i < n ==> WaveOk(n, s, i))
    && (forall k :: 0 <= k < |s.results| - 1 ==> s.results[k] != 0)
    && (forall i: nat, k: nat :: (i, k) in s.travelling <==> 0 < i < n && k + 1 == |s.results| && s.received[i] == k)
  }

  /** PE 0 is the first to contribute to each wave.  If it contributes zero, every
      broadcast has been numbered, and whoever contributes zero after that is done. */
  ghost predicate SampleOk(n: nat, s: State, i: nat, k: nat)
    requires Shape(n, s) && i < n && k < |s.samples[i]|
  {
    && k < |s.samples[0]|
    && s.samples[i][k] >= 0
    && (s.samples[0][k] == 0 ==> |s.log| == n + 1)
    && (s.samples[0][k] == 0 && s.samples[i][k] == 0 ==> DoneAt(n, s, i))
  }

  ghost predicate SamplesOk(n: nat, s: State)
  {
    && Shape(n, s)
    && (forall i, k :: 0 <= i < n && 0 <= k < |s.samples[i]| ==> SampleOk(n, s, i, k))
    && (forall i, k ::
          0 <= i < n && 0 <= k < |s.results| && k < |s.samples[i]| && s.results[k] == 0 ==> s.samples[i][k] == 0)
  }

  ghost predicate Inv(n: nat, s: State)
  {
    LogOk(n, s) && CountsOk(n, s) && DetectionOk(n, s) && WavesOk(n, s) && SamplesOk(n, s)
  }

  lemma {:induction false} InitInv(n: nat)
    requires n > 0
    ensures Inv(n, Init(n))
  {
    ProducersAre(Init(n).pos, n);
    assert Producers(Init(n).pos, n) == {};
  }

  // ---------------------------------------------------------------- broadcasts

  /** At most one broadcast per PE and the first one; and when they are all
      numbered, every PE has produced. */
  lemma {:induction false} LogBound(n: nat, s: State)
    requires LogOk(n, s)
    ensures |s.log| <= n + 1
    ensures |s.log| == n + 1 ==> s.wanted == multiset{} && forall i :: 0 <= i < n ==> s.pos[i] > 0
  {
    ProducersAre(s.pos, n);
    assert |multiset(Producers(s.pos, n))| == |Producers(s.pos, n)|;
    assert |Sources(s.log) + s.wanted| == |Sources(s.log)| + |s.wanted|;
  }

  /** PE `i` handled a broadcast it had handled none before, or another one. */
  lemma {:induction false} ProducersStep(pos: seq<nat>, i: nat)
    requires i < |pos|
    ensures multiset(Producers(pos[i := pos[i] + 1], |pos|))
         == multiset(Producers(pos, |pos|)) + if pos[i] == 0 then multiset{i} else multiset{}
  {
    var pos' := pos[i := pos[i] + 1];
    ProducersAre(pos, |pos|);
    ProducersAre(pos', |pos|);
    assert Producers(pos', |pos|) == Producers(pos, |pos|) + {i};
  }

  /** PE `i` handled a broadcast, which leaves the waves alone. */
  ghost predicate Advanced(s: State, s': State, i: nat)
  {
    && i < |s.pos| && s'.pos == s.pos[i := s.pos[i] + 1] && |s'.log| >= |s.log|
    && s'.samples == s.samples && s'.results == s.results && s'.travelling == s.travelling
    && s'.received == s.received && s'.complete == s.complete && s'.detecting == s.detecting && s'.failed == s.failed
  }

  lemma {:induction false} NumberProduceStep(n: nat, s: State)
    requires Inv(n, s) && Enabled(n, s, NumberProduce)
    ensures var s' := Next(n, s, NumberProduce);
      LogOk(n, s') && CountsOk(n, s') && DetectionOk(n, s') && Advanced(s, s', 0)
  {
    var s' := Next(n, s, NumberProduce);
    ProducersStep(s.pos, 0);
    assert s'.log[..0] == [] && s'.log == [Produce];
    assert Sources(s'.log) == multiset{};
  }

  /** A consumption on its way was asked for by a PE that has produced. */
  lemma {:induction false} WantedBy(n: nat, s: State, src: nat)
    requires Inv(n, s) && src in s.wanted
    ensures src < n && s.pos[src] > 0 && s.log != []
  {
    ProducersAre(s.pos, n);
    assert src in Sources(s.log) + s.wanted;
    assert src in multiset(Producers(s.pos, n));
  }

  lemma {:induction false} NumberConsumeLog(n: nat, s: State, src: nat)
    requires Inv(n, s) && Enabled(n, s, NumberConsume(src))
    ensures LogOk(n, Next(n, s, NumberConsume(src))) && s.pos[0] > 0
  {
    var s' := Next(n, s, NumberConsume(src));
    ProducersStep(s.pos, 0);
    assert s'.log[..|s.log|] == s.log;
    WantedBy(n, s, src);
    assert Sources(s'.log) + s'.wanted == Sources(s.log) + s.wanted;
  }

  lemma {:induction false} NumberConsumeStep(n: nat, s: State, src: nat)
    requires Inv(n, s) && Enabled(n, s, NumberConsume(src))
    ensures var s' := Next(n, s, NumberConsume(src));
      LogOk(n, s') && CountsOk(n, s') && DetectionOk(n, s') && Advanced(s, s', 0)
  {
    NumberConsumeLog(n, s, src);
  }

  lemma {:induction false} HandleLog(n: nat, s: State, i: nat)
    requires Inv(n, s) && Enabled(n, s, Handle(i))
    ensures LogOk(n, Next(n, s, Handle(i)))
  {
    ProducersStep(s.pos, i);
    assert s.pos[i] == 0 <==> s.log[s.pos[i]].Produce?;
  }

  lemma {:induction false} HandleStep(n: nat, s: State, i: nat)
    requires Inv(n, s) && Enabled(n, s, Handle(i))
    ensures var s' := Next(n, s, Handle(i)); LogOk(n, s') && CountsOk(n, s') && DetectionOk(n, s') && Advanced(s, s', i)
  {
    HandleLog(n, s, i);
  }

  /** Handling broadcasts keeps what is known about samples: a PE that is done
      has nothing left to handle. */
  lemma {:induction false} SamplesStay(n: nat, s: State, s': State, i: nat)
    requires Inv(n, s) && LogOk(n, s') && CountsOk(n, s') && Advanced(s, s', i)
    ensures WavesOk(n, s') && SamplesOk(n, s')
  {
    LogBound(n, s');
    forall j | 0 <= j < n ensures WaveOk(n, s', j) {
      assert WaveOk(n, s, j);
    }
    forall j, k | 0 <= j < n && 0 <= k < |s'.samples[j]| ensures SampleOk(n, s', j, k) {
      assert SampleOk(n, s, j, k);
    }
  }

  // ---------------------------------------------------------------- samples

  /** The contribution a PE makes when it is PE 0, or when PE 0 has made its own
      to the same wave. */
  lemma {:induction false} NewSample(n: nat, s: State, i: nat, s': State, j: nat, k: nat)
    requires LogOk(n, s) && CountsOk(n, s) && s.pos[0] >= 2 && i < n && j < n
    requires forall a, b :: 0 <= a < n && 0 <= b < |s.samples[a]| ==> SampleOk(n, s, a, b)
    requires i == 0 || |s.samples[i]| < |s.samples[0]|
    requires Shape(n, s') && s'.log == s.log && s'.pos == s.pos
    requires s'.samples == s.samples[i := s.samples[i] + [s.lcount[i]]] && k < |s'.samples[j]|
    ensures SampleOk(n, s', j, k)
  {
    LogBound(n, s);
    if j == i && k == |s.samples[i]| {
      if i != 0 { assert SampleOk(n, s, 0, k); }
    } else {
      assert SampleOk(n, s, j, k);
    }
  }

  // ---------------------------------------------------------------- waves

  /** Where every PE is while a wave is under way. */
  lemma {:induction false} WaveLengths(n: nat, s: State, i: nat)
    requires WavesOk(n, s) && i < n
    ensures |s.results| <= |s.samples[i]| <= |s.results| + 1
    ensures s.received[i] < |s.results| ==> !s.complete[i] && |s.samples[i]| == |s.results|
  {
    assert WaveOk(n, s, i);
    if s.received[i] > 0 && s.received[i] < |s.results| { assert s.results[s.received[i] - 1] != 0; }
  }

  lemma {:induction false} StartStep(n: nat, s: State, st: Step)
    requires Inv(n, s) && Enabled(n, s, st) && (st.NumberStart? || st.Start?)
    ensures Inv(n, Next(n, s, st))
  {
    var i := if st.NumberStart? then 0 else st.i;
    var s' := Next(n, s, st);
    assert WaveOk(n, s, i) && WaveOk(n, s, 0);
    assert s'.samples == s.samples[i := s.samples[i] + [s.lcount[i]]];
    forall j | 0 <= j < n ensures WaveOk(n, s', j) {
      assert WaveOk(n, s, j);
    }
    forall j, k | 0 <= j < n && 0 <= k < |s'.samples[j]| ensures SampleOk(n, s', j, k) {
      NewSample(n, s, i, s', j, k);
    }
  }

  lemma {:induction false} ZeroSum(samples: seq<seq<int>>, wave: nat, upTo: nat)
    requires upTo <= |samples| && forall i :: 0 <= i < upTo ==> wave < |samples[i]| && samples[i][wave] >= 0
    ensures SumOf(samples, wave, upTo) >= 0
    ensures SumOf(samples, wave, upTo) == 0 ==> forall i :: 0 <= i < upTo ==> samples[i][wave] == 0
  {
    if upTo > 0 { ZeroSum(samples, wave, upTo - 1); }
  }

  /** The handler that ends a wave finds every PE waiting for it. */
  lemma {:induction false} ReduceFinds(n: nat, s: State, i: nat)
    requires Inv(n, s) && Enabled(n, s, Reduce) && i < n
    ensures s.received[i] == |s.results| && !s.complete[i] && s.detecting[i] && |s.samples[i]| == |s.results| + 1
  {
    WaveLengths(n, s, i);
    assert WaveOk(n, s, i);
  }

  lemma {:induction false} ReduceWaves(n: nat, s: State)
    requires Inv(n, s) && Enabled(n, s, Reduce)
    ensures WavesOk(n, Next(n, s, Reduce))
  {
    var s' := Next(n, s, Reduce);
    forall j | 0 <= j < n ensures WaveOk(n, s', j) {
      ReduceFinds(n, s, j);
      assert WaveOk(n, s, j);
    }
    assert WaveOk(n, s, 0);
    ReduceFinds(n, s, 0);
    forall i: nat, k: nat
      ensures (i, k) in s'.travelling <==> 0 < i < n && k + 1 == |s'.results| && s'.received[i] == k
    {
      if 0 < i < n { ReduceFinds(n, s, i); }
    }
  }

  lemma {:induction false} ReduceSamples(n: nat, s: State)
    requires Inv(n, s) && Enabled(n, s, Reduce)
    ensures SamplesOk(n, Next(n, s, Reduce))
  {
    var s' := Next(n, s, Reduce);
    var wave := |s.results|;
    ReduceFinds(n, s, 0);
    forall i | 0 <= i < n ensures wave < |s.samples[i]| && s.samples[i][wave] >= 0 {
      ReduceFinds(n, s, i);
      assert SampleOk(n, s, i, wave);
    }
    ZeroSum(s.samples, wave, n);
    if s'.complete[0] {
      forall j, k | 0 <= j < n && 0 <= k < |s'.samples[j]| ensures SampleOk(n, s', j, k) {
        assert SampleOk(n, s, j, k);
      }
    } else {
      forall j, k | 0 <= j < n && 0 <= k < |s'.samples[j]| ensures SampleOk(n, s', j, k) {
        NewSample(n, s, 0, s', j, k);
      }
    }
  }

  lemma {:induction false} ReduceStep(n: nat, s: State)
    requires Inv(n, s) && Enabled(n, s, Reduce)
    ensures Inv(n, Next(n, s, Reduce))
  {
    ReduceFinds(n, s, 0);
    ReduceWaves(n, s);
    ReduceSamples(n, s);
  }

  lemma {:induction false} ResultWaves(n: nat, s: State, i: nat, wave: nat)
    requires Inv(n, s) && Enabled(n, s, Result(i, wave))
    ensures WavesOk(n, Next(n, s, Result(i, wave)))
  {
    var s' := Next(n, s, Result(i, wave));
    WaveLengths(n, s, i);
    assert WaveOk(n, s, i);
    forall j | 0 <= j < n ensures WaveOk(n, s', j) {
      assert WaveOk(n, s, j);
    }
  }

  lemma {:induction false} ResultStep(n: nat, s: State, i: nat, wave: nat)
    requires Inv(n, s) && Enabled(n, s, Result(i, wave))
    ensures Inv(n, Next(n, s, Result(i, wave)))
  {
    var s' := Next(n, s, Result(i, wave));
    ResultWaves(n, s, i, wave);
    WaveLengths(n, s, i);
    assert WaveOk(n, s, i) && WaveOk(n, s, 0);
    forall j, k | 0 <= j < n && 0 <= k < |s'.samples[j]| ensures SampleOk(n, s', j, k) {
      if s'.complete[i] { assert SampleOk(n, s, j, k); } else { NewSample(n, s, i, s', j, k); }
    }
  }

  lemma {:induction false} HandledInv(n: nat, s: State, s': State, i: nat)
    requires Inv(n, s) && LogOk(n, s') && CountsOk(n, s') && DetectionOk(n, s') && Advanced(s, s', i)
    ensures Inv(n, s')
  {
    SamplesStay(n, s, s', i);
  }

  lemma {:induction false} NextInv(n: nat, s: State, st: Step)
    requires Inv(n, s) && Enabled(n, s, st)
    ensures Inv(n, Next(n, s, st))
  {
    var s' := Next(n, s, st);
    if st.NumberProduce? { NumberProduceStep(n, s); HandledInv(n, s, s', 0); }
    else if st.NumberConsume? { NumberConsumeStep(n, s, st.src); HandledInv(n, s, s', 0); }
    else if st.Handle? { HandleStep(n, s, st.i); HandledInv(n, s, s', st.i); }
    else if st.Reduce? { ReduceStep(n, s); }
    else if st.Result? { ResultStep(n, s, st.i, st.wave); }
    else { StartStep(n, s, st); }
  }

  lemma {:induction false} RunInv(n: nat, run: seq<Step>)
    requires n > 0 && IsRun(n, run)
    ensures Inv(n, After(n, run))
    decreases |run|
  {
    if run == [] {
      InitInv(n);
    } else {
      RunInv(n, run[..|run| - 1]);
      NextInv(n, After(n, run[..|run| - 1]), run[|run| - 1]);
    }
  }

  // ---------------------------------------------------------------- sums

  /** Result `k` is the sum of the contributions to wave `k`. */
  ghost predicate SumOk(n: nat, s: State, k: nat)
    requires Shape(n, s) && k < |s.results|
  {
    (forall i :: 0 <= i < n ==> k < |s.samples[i]|) && s.results[k] == SumOf(s.samples, k, n)
  }

  lemma {:induction false} SumAgrees(a: seq<seq<int>>, b: seq<seq<int>>, wave: nat, upTo: nat)
    requires upTo <= |a| && upTo <= |b|
    requires forall i :: 0 <= i < upTo ==> wave < |a[i]| && wave < |b[i]| && a[i][wave] == b[i][wave]
    ensures SumOf(a, wave, upTo) == SumOf(b, wave, upTo)
  {
    if upTo > 0 { SumAgrees(a, b, wave, upTo - 1); }
  }

  /** Contributions are never taken back. */
  lemma {:induction false} SamplesGrow(n: nat, s: State, st: Step)
    requires Enabled(n, s, st)
    ensures forall i :: 0 <= i < n ==> s.samples[i] <= Next(n, s, st).samples[i]
    ensures Next(n, s, st).results ==
            if st.Reduce? then s.results + [SumOf(s.samples, |s.results|, n)] else s.results
  {
  }

  lemma {:induction false} NextSums(n: nat, s: State, st: Step, k: nat)
    requires Inv(n, s) && Enabled(n, s, st) && k < |Next(n, s, st).results|
    requires k < |s.results| ==> SumOk(n, s, k)
    ensures SumOk(n, Next(n, s, st), k)
  {
    SamplesGrow(n, s, st);
    SumAgrees(s.samples, Next(n, s, st).samples, k, n);
  }

  lemma {:induction false} RunSums(n: nat, run: seq<Step>, k: nat)
    requires n > 0 && IsRun(n, run)
    ensures Inv(n, After(n, run))
    ensures k < |After(n, run).results| ==> SumOk(n, After(n, run), k)
    decreases |run|
  {
    RunInv(n, run);
    if run != [] && k < |After(n, run).results| {
      RunSums(n, run[..|run| - 1], k);
      NextSums(n, After(n, run[..|run| - 1]), run[|run| - 1], k);
    }
  }
}
