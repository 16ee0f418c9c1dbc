/** What the invariant of `CompletionProof` gives about every run of completion
    detection. */
module CompletionResults {
  import opened CompletionDetection
  import opened CompletionProof

  lemma {:induction false} LogSources(log: seq<Item>)
    ensures forall src: nat :: multiset(log)[Consume(src)] == Sources(log)[src]
  {
    if log != [] {
      var l := |log| - 1;
      LogSources(log[..l]);
      assert log == log[..l] + [log[l]];
    }
  }

  lemma {:induction false} LogProduces(log: seq<Item>)
    requires log != [] && forall k :: 0 <= k < |log| ==> (log[k].Produce? <==> k == 0)
    ensures multiset(log)[Produce] == 1
  {
    assert log == [log[0]] + log[1..];
    assert Produce !in log[1..];
  }

  /** A PE that has handled `n + 1` broadcasts has handled the right ones. */
  lemma {:induction false} DoneIsAll(n: nat, s: State, i: nat)
    requires Inv(n, s) && i < n && DoneAt(n, s, i)
    ensures ConsumedAll(n, s, i)
  {
    LogBound(n, s);
    assert s.log[..s.pos[i]] == s.log;
    LogSources(s.log);
    LogProduces(s.log);
    ProducersAre(s.pos, n);
    assert Sources(s.log) + multiset{} == Sources(s.log);
    forall src: nat | src < n ensures Sources(s.log)[src] == 1 {
      assert src in Producers(s.pos, n);
    }
  }

  /** Soundness: when a wave sums to zero -- and so when any PE takes detection to
      be complete -- every PE has produced its events and consumed everybody's,
      although the PEs were sampled at different times. */
  lemma {:induction false} ZeroMeansDone(n: nat, run: seq<Step>, wave: nat, i: nat)
    requires n > 0 && IsRun(n, run) && wave < |After(n, run).results| && After(n, run).results[wave] == 0 && i < n
    ensures var s := After(n, run); Shape(n, s) && DoneAt(n, s, i) && ConsumedAll(n, s, i) && s.lcount[i] == 0
  {
    RunInv(n, run);
    var s := After(n, run);
    WaveLengths(n, s, 0);
    WaveLengths(n, s, i);
    assert SampleOk(n, s, i, wave);
    assert s.samples[0][wave] == 0 && s.samples[i][wave] == 0;
    DoneIsAll(n, s, i);
  }

  lemma {:induction false} CompleteMeansDone(n: nat, run: seq<Step>, i: nat, j: nat)
    requires n > 0 && IsRun(n, run) && i < n && j < n && Shape(n, After(n, run)) && After(n, run).complete[i]
    ensures var s := After(n, run); DoneAt(n, s, j) && ConsumedAll(n, s, j) && s.lcount[j] == 0
  {
    RunInv(n, run);
    var s := After(n, run);
    assert WaveOk(n, s, i);
    ZeroMeansDone(n, run, s.received[i] - 1, j);
  }

  /** No local count is ever negative, a sum is the sum of one contribution of
      every PE, and no result arrives before its receiver joined. */
  lemma {:induction false} CountsNonNegative(n: nat, run: seq<Step>, i: nat)
    requires n > 0 && IsRun(n, run) && i < n
    ensures var s := After(n, run); Shape(n, s) && 0 <= s.lcount[i] <= n && !s.failed
  {
    RunInv(n, run);
    LogBound(n, After(n, run));
  }

  // ---------------------------------------------------------------- progress

  /** No deadlock: until every PE knows, some step is enabled. */
  lemma {:induction false} Progress(n: nat, run: seq<Step>) returns (st: Step)
    requires n > 0 && IsRun(n, run) && Shape(n, After(n, run))
    requires exists i :: 0 <= i < n && !After(n, run).complete[i]
    ensures Enabled(n, After(n, run), st)
  {
    var s := After(n, run);
    RunInv(n, run);
    if s.asked {
      return NumberProduce;
    } else if src :| src in s.wanted {
      return NumberConsume(src);
    } else if i :| 0 < i < n && s.pos[i] < |s.log| {
      return Handle(i);
    } else if s.requested {
      return NumberStart;
    } else {
      AllHandled(n, s);
      if i :| 0 < i < n && !s.detecting[i] {
        return Start(i);
      } else if i :| 0 < i < n && s.received[i] < |s.results| {
        assert WaveOk(n, s, i);
        assert (i, |s.results| - 1) in s.travelling;
        return Result(i, |s.results| - 1);
      } else {
        WaveEnds(n, s);
        return Reduce;
      }
    }
  }

  lemma {:induction false} AllHandled(n: nat, s: State)
    requires Inv(n, s) && !s.asked && s.wanted == multiset{} && !s.requested
    requires forall i :: 0 < i < n ==> s.pos[i] >= |s.log|
    ensures s.detecting[0]
  {
    ProducersAre(s.pos, n);
    assert forall i :: 0 <= i < n ==> s.pos[i] > 0;
    EverybodyProduces(s.pos, n);
    assert Sources(s.log) + multiset{} == Sources(s.log);
    assert |multiset(Producers(s.pos, n))| == n;
  }

  lemma {:induction false} EverybodyProduces(pos: seq<nat>, upTo: nat)
    requires upTo <= |pos| && forall i :: 0 <= i < upTo ==> pos[i] > 0
    ensures |Producers(pos, upTo)| == upTo
  {
    if upTo > 0 {
      EverybodyProduces(pos, upTo - 1);
      ProducersAre(pos, upTo - 1);
    }
  }

  lemma {:induction false} WaveEnds(n: nat, s: State)
    requires Inv(n, s) && s.detecting[0]
    requires forall i :: 0 < i < n ==> s.detecting[i] && s.received[i] >= |s.results|
    requires exists i :: 0 <= i < n && !s.complete[i]
    ensures Enabled(n, s, Reduce)
  {
    var i :| 0 <= i < n && !s.complete[i];
    assert WaveOk(n, s, i);
    forall j | 0 <= j < n ensures |s.results| < |s.samples[j]| {
      assert WaveOk(n, s, j);
    }
  }

  // ---------------------------------------------------------------- detection ends

  /** In a later state, what was contributed after everybody was done. */
  ghost predicate ZeroSince(n: nat, before: State, s: State)
    requires Shape(n, before) && Shape(n, s)
  {
    && (forall i :: 0 <= i < n ==> DoneAt(n, s, i))
    && (forall i :: 0 <= i < n ==> |before.samples[i]| <= |s.samples[i]|)
    && forall i, k :: 0 <= i < n && |before.samples[i]| <= k < |s.samples[i]| ==> s.samples[i][k] == 0
  }

  lemma {:induction false} NextZeroSince(n: nat, before: State, s: State, st: Step)
    requires Shape(n, before) && Inv(n, s) && Enabled(n, s, st) && ZeroSince(n, before, s)
    ensures ZeroSince(n, before, Next(n, s, st))
  {
    LogBound(n, s);
    assert DoneAt(n, s, 0);
    assert |s.log| == n + 1;
    assert forall i :: 0 <= i < n ==> DoneAt(n, s, i) && s.lcount[i] == 0;
  }

  lemma {:induction false} ZeroSinceStart(n: nat, s: State)
    requires Shape(n, s) && forall i :: 0 <= i < n ==> DoneAt(n, s, i)
    ensures ZeroSince(n, s, s)
  {
  }

  /** The wave after the next would have to follow one that summed to zero. */
  lemma {:induction false} NoThirdWave(n: nat, before: State, s: State)
    requires Inv(n, before) && Inv(n, s) && ZeroSince(n, before, s)
    requires |s.results| == |before.results| + 2 && SumOk(n, s, |before.results| + 1)
    ensures !Enabled(n, s, Reduce)
  {
    var k := |before.results| + 1;
    forall i | 0 <= i < n ensures k < |s.samples[i]| && s.samples[i][k] == 0 {
      WaveLengths(n, before, i);
    }
    SumOfZeros(s.samples, k, n);
    WaveLengths(n, s, 0);
    assert WaveOk(n, s, 0);
  }

  lemma {:induction false} SumOfZeros(samples: seq<seq<int>>, wave: nat, upTo: nat)
    requires upTo <= |samples| && forall i :: 0 <= i < upTo ==> wave < |samples[i]| && samples[i][wave] == 0
    ensures SumOf(samples, wave, upTo) == 0
  {
    if upTo > 0 { SumOfZeros(samples, wave, upTo - 1); }
  }

  lemma {:induction false} OneMoreStep(n: nat, before: State, s: State, st: Step)
    requires Inv(n, before) && Inv(n, s) && Enabled(n, s, st) && ZeroSince(n, before, s)
    requires |s.results| <= |before.results| + 2
    requires |s.results| == |before.results| + 2 ==> SumOk(n, s, |before.results| + 1)
    ensures ZeroSince(n, before, Next(n, s, st)) && |Next(n, s, st).results| <= |before.results| + 2
  {
    NextZeroSince(n, before, s, st);
    SamplesGrow(n, s, st);
    if |s.results| == |before.results| + 2 { NoThirdWave(n, before, s); }
  }

  /** Completeness: once everybody is done, detection takes at most the wave that
      is under way and one more. */
  lemma {:induction false} AtMostTwoMoreWaves(n: nat, run: seq<Step>, more: seq<Step>)
    requires n > 0 && IsRun(n, run) && IsRun(n, run + more) && Shape(n, After(n, run))
    requires forall i :: 0 <= i < n ==> DoneAt(n, After(n, run), i)
    ensures Shape(n, After(n, run + more)) && ZeroSince(n, After(n, run), After(n, run + more))
    ensures |After(n, run + more).results| <= |After(n, run).results| + 2
    decreases |more|
  {
    var before := After(n, run);
    if more == [] {
      assert run + more == run;
      ZeroSinceStart(n, before);
    } else {
      var most := more[..|more| - 1];
      assert (run + more)[..|run + more| - 1] == run + most;
      AtMostTwoMoreWaves(n, run, most);
      RunInv(n, run);
      RunSums(n, run + most, |before.results| + 1);
      OneMoreStep(n, before, After(n, run + most), more[|more| - 1]);
    }
  }

  // ---------------------------------------------------------------- how soon it ends

  /** The PEs that have not joined. */
  ghost function Absent(detecting: seq<bool>, upTo: nat): nat
    requires upTo <= |detecting|
  {
    if upTo == 0 then 0 else Absent(detecting, upTo - 1) + if detecting[upTo - 1] then 0 else 1
  }

  lemma {:induction false} AbsentUpdate(detecting: seq<bool>, i: nat, upTo: nat)
    requires i < |detecting| && upTo <= |detecting|
    ensures Absent(detecting[i := true], upTo) ==
            Absent(detecting, upTo) - if i < upTo && !detecting[i] then 1 else 0
  {
    if upTo > 0 { AbsentUpdate(detecting, i, upTo - 1); }
  }

  lemma {:induction false} AbsentBound(detecting: seq<bool>, upTo: nat)
    requires upTo <= |detecting|
    ensures Absent(detecting, upTo) <= upTo
  {
    if upTo > 0 { AbsentBound(detecting, upTo - 1); }
  }

  /** The messages that carry one wave's result. */
  ghost function Carriers(n: nat, wave: nat): (r: set<(nat, nat)>)
    ensures |r| <= if n > 0 then n - 1 else 0
    ensures forall i: nat, k: nat :: (i, k) in r <==> 0 < i < n && k == wave
  {
    if n <= 1 then {} else Carriers(n - 1, wave) + {(n - 1, wave)}
  }

  /** How many steps there can be after the state `before`, in which everybody is done. */
  ghost function StepsLeft(n: nat, before: State, s: State): int
    requires Shape(n, s)
  {
    n * (|before.results| + 2 - |s.results|) + |s.travelling| + Absent(s.detecting, n) + if s.requested then 1 else 0
  }

  lemma {:induction false} DoneIsStill(n: nat, before: State, s: State, st: Step)
    requires Shape(n, before) && Inv(n, s) && Enabled(n, s, st) && ZeroSince(n, before, s)
    ensures st.NumberStart? || st.Start? || st.Reduce? || st.Result?
  {
    LogBound(n, s);
    assert DoneAt(n, s, 0);
    assert |s.log| == n + 1;
    forall j | 0 <= j < n ensures s.pos[j] == |s.log| {
      assert DoneAt(n, s, j);
    }
  }

  lemma {:induction false} ReduceLeft(n: nat, before: State, s: State)
    requires Inv(n, s) && Enabled(n, s, Reduce)
    ensures StepsLeft(n, before, Next(n, s, Reduce)) < StepsLeft(n, before, s)
  {
    var s' := Next(n, s, Reduce);
    var c := Carriers(n, |s.results|);
    forall m | m in s'.travelling ensures m in s.travelling + c {
      assert m in s.travelling || (m.0, m.1) in c;
    }
    CarriersHold(s'.travelling, s.travelling + c);
    var left := |before.results| + 2 - |s.results|;
    assert n * (left - 1) == n * left - n;
  }

  lemma {:induction false} StepLeft(n: nat, before: State, s: State, st: Step)
    requires Shape(n, before) && Inv(n, s) && Enabled(n, s, st) && ZeroSince(n, before, s)
    ensures StepsLeft(n, before, Next(n, s, st)) < StepsLeft(n, before, s)
  {
    DoneIsStill(n, before, s, st);
    match st
    case NumberStart => AbsentUpdate(s.detecting, 0, n);
    case Start(i) => AbsentUpdate(s.detecting, i, n);
    case Reduce => ReduceLeft(n, before, s);
    case Result(i, wave) =>
  }

  lemma {:induction false} LeftBound(n: nat, s: State)
    requires Inv(n, s)
    ensures StepsLeft(n, s, s) <= 4 * n
  {
    AbsentBound(s.detecting, n);
    var wave: nat := if s.results == [] then 0 else |s.results| - 1;
    forall m | m in s.travelling ensures m in Carriers(n, wave) {
      assert (m.0, m.1) in s.travelling;
    }
    CarriersHold(s.travelling, Carriers(n, wave));
  }

  lemma {:induction false} CarriersHold(a: set<(nat, nat)>, b: set<(nat, nat)>)
    requires a <= b
    ensures |a| <= |b|
  {
    assert b == a + (b - a);
  }

  lemma {:induction false} LeftSince(n: nat, run: seq<Step>, more: seq<Step>)
    requires n > 0 && IsRun(n, run) && IsRun(n, run + more) && Shape(n, After(n, run))
    requires forall i :: 0 <= i < n ==> DoneAt(n, After(n, run), i)
    ensures Shape(n, After(n, run + more))
    ensures StepsLeft(n, After(n, run), After(n, run + more)) + |more| <= 4 * n
    decreases |more|
  {
    var before := After(n, run);
    if more == [] {
      assert run + more == run;
      RunInv(n, run);
      LeftBound(n, before);
    } else {
      var most := more[..|more| - 1];
      assert (run + more)[..|run + more| - 1] == run + most;
      LeftSince(n, run, most);
      AtMostTwoMoreWaves(n, run, most);
      RunInv(n, run + most);
      StepLeft(n, before, After(n, run + most), more[|more| - 1]);
    }
  }

  /** Once everybody is done there are at most `4 * n` further steps of any kind. */
  lemma {:induction false} EndsSoon(n: nat, run: seq<Step>, more: seq<Step>)
    requires n > 0 && IsRun(n, run) && IsRun(n, run + more) && Shape(n, After(n, run))
    requires forall i :: 0 <= i < n ==> DoneAt(n, After(n, run), i)
    ensures |more| <= 4 * n
  {
    LeftSince(n, run, more);
    AtMostTwoMoreWaves(n, run, more);
    LeftNonNegative(n, After(n, run), After(n, run + more));
  }

  lemma {:induction false} LeftNonNegative(n: nat, before: State, s: State)
    requires Shape(n, s) && |s.results| <= |before.results| + 2
    ensures StepsLeft(n, before, s) >= 0
  {
    assert n * (|before.results| + 2 - |s.results|) >= 0;
  }

  /** So every run in which everybody is done can be completed, and every way of going on
      until nothing is possible completes it: all PEs come to know. */
  lemma {:induction false} AllComeToKnow(n: nat, run: seq<Step>, more: seq<Step>) returns (rest: seq<Step>)
    requires n > 0 && IsRun(n, run) && IsRun(n, run + more) && Shape(n, After(n, run))
    requires forall i :: 0 <= i < n ==> DoneAt(n, After(n, run), i)
    ensures more <= rest && IsRun(n, run + rest) && Shape(n, After(n, run + rest))
    ensures forall i :: 0 <= i < n ==> After(n, run + rest).complete[i]
    decreases 4 * n - |more|
  {
    EndsSoon(n, run, more);
    AtMostTwoMoreWaves(n, run, more);
    rest := more;
    if exists i :: 0 <= i < n && !After(n, run + more).complete[i] {
      var st := Progress(n, run + more);
      var longer := more + [st];
      assert (run + longer)[..|run + longer| - 1] == run + more;
      EndsSoon(n, run, longer);
      rest := AllComeToKnow(n, run, longer);
    }
  }
}
