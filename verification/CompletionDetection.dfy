/** The completion-detection program: every PE produces `n` events and broadcasts
    one consumption to all `n` PEs; waves of an all-reduce sum the PEs' local
    counts, each sampled when it suits the PE, until a wave sums to zero.
    Broadcasts reach the test chares in the one order of module `TreeBroadcast`;
    PE 0 hosts the root of both groups and numbers their broadcasts. */
module CompletionDetection {

  datatype Item = Produce | Consume(src: nat)

  datatype State = State(
    asked: bool,                  // the initial `produce` broadcast is on its way to the root
    wanted: multiset<nat>,        // PEs whose `consume` broadcast is on its way to the root
    log: seq<Item>,               // the broadcasts numbered so far
    pos: seq<nat>,                // how many of them each PE has handled
    lcount: seq<int>,             // `status::lcount`
    started: bool,                // `detection_started_` at chare 0
    requested: bool,              // the `start_detection` broadcast is on its way to the root
    detecting: seq<bool>,         // which PEs have handled it (`status::msg` is set)
    samples: seq<seq<int>>,       // what each PE contributed to wave 0, 1, ...
    results: seq<int>,            // the waves' sums
    travelling: set<(nat, nat)>,  // (PE, wave): results on their way
    received: seq<nat>,           // how many results each PE has handled
    complete: seq<bool>,          // `status::complete`
    failed: bool)                 // a result was handled before `msg` was set

  function Init(n: nat): State
  {
    State(true, multiset{}, [], seq(n, i => 0), seq(n, i => 0), false, false, seq(n, i => false),
          seq(n, i => []), [], {}, seq(n, i => 0), seq(n, i => false), false)
  }

  predicate Shape(n: nat, s: State)
  {
    n > 0 && |s.pos| == |s.lcount| == |s.detecting| == |s.samples| == |s.received| == |s.complete| == n
  }

  datatype Step =
    | NumberProduce
    | NumberConsume(src: nat)
    | Handle(i: nat)             // PE `i` handles its next test broadcast
    | NumberStart
    | Start(i: nat)              // PE `i` handles the `start_detection` broadcast
    | Reduce                     // a wave's sum reaches PE 0, which passes it on
    | Result(i: nat, wave: nat)

  predicate Enabled(n: nat, s: State, st: Step)
  {
    && Shape(n, s)
    && match st
       case NumberProduce => s.asked
       case NumberConsume(src) => src in s.wanted
       case Handle(i) => 0 < i < n && s.pos[i] < |s.log|
       case NumberStart => s.requested
       case Start(i) => 0 < i < n && s.detecting[0] && !s.detecting[i]
       case Reduce => forall i :: 0 <= i < n ==> |s.results| < |s.samples[i]|
       case Result(i, wave) => i < n && wave < |s.results| && (i, wave) in s.travelling
  }

  /** `test::produce` and `test::consume` at PE `i`. */
  function HandleItem(n: nat, s: State, i: nat, item: Item): (r: State)
    requires Shape(n, s) && i < n
    ensures Shape(n, r)
  {
    var s1 := s.(pos := s.pos[i := s.pos[i] + 1]);
    match item
    case Produce => s1.(lcount := s1.lcount[i := s1.lcount[i] + n], wanted := s1.wanted + multiset{i})
    case Consume(_) =>
      var first := i == 0 && !s1.started;
      s1.(lcount := s1.lcount[i := s1.lcount[i] - 1], started := s1.started || first,
          requested := s1.requested || first)
  }

  /** `start_detection` at PE `i`: contribute the local count, unless complete. */
  function StartDetection(n: nat, s: State, i: nat): (r: State)
    requires Shape(n, s) && i < n
    ensures Shape(n, r)
  {
    if s.complete[i] then s else s.(samples := s.samples[i := s.samples[i] + [s.lcount[i]]])
  }

  /** `receive_count_` at PE `i`. */
  function ReceiveCount(n: nat, s: State, i: nat, gcount: int): (r: State)
    requires Shape(n, s) && i < n
    ensures Shape(n, r)
  {
    StartDetection(n, s.(complete := s.complete[i := gcount == 0], received := s.received[i := s.received[i] + 1],
                         failed := s.failed || !s.detecting[i]), i)
  }

  function SumOf(samples: seq<seq<int>>, wave: nat, upTo: nat): int
    requires upTo <= |samples| && forall i :: 0 <= i < upTo ==> wave < |samples[i]|
  {
    if upTo == 0 then 0 else SumOf(samples, wave, upTo - 1) + samples[upTo - 1][wave]
  }

  ghost function Next(n: nat, s: State, st: Step): (r: State)
    requires Enabled(n, s, st)
    ensures Shape(n, r)
  {
    match st
    case NumberProduce => HandleItem(n, s.(asked := false, log := s.log + [Produce]), 0, Produce)
    case NumberConsume(src) =>
      HandleItem(n, s.(wanted := s.wanted - multiset{src}, log := s.log + [Consume(src)]), 0, Consume(src))
    case Handle(i) => HandleItem(n, s, i, s.log[s.pos[i]])
    case NumberStart => StartDetection(n, s.(requested := false, detecting := s.detecting[0 := true]), 0)
    case Start(i) => StartDetection(n, s.(detecting := s.detecting[i := true]), i)
    case Reduce =>
      var wave := |s.results|;
      var g := SumOf(s.samples, wave, n);
      ReceiveCount(n, s.(results := s.results + [g], travelling := s.travelling + set i | 0 < i < n :: (i, wave)), 0, g)
    case Result(i, wave) =>
      ReceiveCount(n, s.(travelling := s.travelling - {(i, wave)}), i, s.results[wave])
  }

  ghost predicate IsRun(n: nat, run: seq<Step>)
    decreases |run|, 0
  {
    run == [] || (IsRun(n, run[..|run| - 1]) && Enabled(n, After(n, run[..|run| - 1]), run[|run| - 1]))
  }

  ghost function After(n: nat, run: seq<Step>): State
    requires IsRun(n, run)
    decreases |run|, 1
  {
    if run == [] then Init(n) else Next(n, After(n, run[..|run| - 1]), run[|run| - 1])
  }

  /** PE `i` has produced its events and consumed everybody's. */
  predicate DoneAt(n: nat, s: State, i: nat)
    requires Shape(n, s) && i < n
  {
    s.pos[i] == n + 1
  }

  /** That is: it has handled its `produce` and one `consume` of every PE, and nothing else. */
  ghost predicate ConsumedAll(n: nat, s: State, i: nat)
    requires Shape(n, s) && i < n
  {
    && s.pos[i] <= |s.log| && s.pos[i] == n + 1
    && var handled := multiset(s.log[..s.pos[i]]);
       handled[Produce] == 1 && forall src: nat :: src < n ==> handled[Consume(src)] == 1
  }
}
