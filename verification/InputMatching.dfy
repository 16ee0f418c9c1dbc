/** Dataflow components: how values arriving on the input ports are matched into
    tuples, and which tuples the component's action runs on. */
module InputMatching {
  import opened Wrappers

  /** A possibly incomplete input tuple, one slot per port. */
  type InputSet<+V> = seq<Option<V>>

  /** `incoming` is the deque, front (newest) first; `fired` logs the tuples the
      action was run on; `created` and `processed` are the totals passed to
      `QdCreate` and `QdProcess`. */
  datatype State<+V> = State(
    n: nat, persistent: bool, active: bool, activated: bool, incoming: seq<InputSet<V>>,
    fired: seq<InputSet<V>>, created: nat, processed: nat)

  datatype Event<+V> = Arrive(port: nat, value: V) | Activate

  function Init<V>(n: nat, persistent: bool): State<V>
  {
    State(n, persistent, false, false, [], [], 0, 0)
  }

  ghost predicate WellFormed<V>(s: State<V>)
  {
    s.n >= 1 && forall t :: t in s.incoming ==> |t| == s.n
  }

  /** Ports 0 to `i` of the tuple are filled. */
  predicate IsReady<V>(t: InputSet<V>, i: nat)
    requires i < |t|
    ensures IsReady(t, i) <==> forall p :: 0 <= p <= i ==> t[p].Some?
  {
    t[i].Some? && (i == 0 || IsReady(t, i - 1))
  }

  predicate Ready<V>(t: InputSet<V>)
    ensures Ready(t) <==> forall p :: 0 <= p < |t| ==> t[p].Some?
  {
    |t| == 0 || IsReady(t, |t| - 1)
  }

  /** The newest ready tuple; `|ts|` if there is none. */
  function FindReady<V>(ts: seq<InputSet<V>>): (i: nat)
    ensures i <= |ts| && (i < |ts| ==> Ready(ts[i]))
    ensures forall j :: 0 <= j < i ==> !Ready(ts[j])
  {
    if ts == [] then 0 else if Ready(ts[0]) then 0 else 1 + FindReady(ts[1..])
  }

  /** The oldest tuple without a value for port `p`; `|ts|` if there is none. */
  function FindGap<V>(ts: seq<InputSet<V>>, p: nat): (i: nat)
    requires forall t :: t in ts ==> p < |t|
    ensures i <= |ts| && (i < |ts| ==> ts[i][p].None?)
    ensures forall j :: 0 <= j < |ts| && (j > i || i == |ts|) ==> ts[j][p].Some?
  {
    if ts == [] then 0
    else if ts[|ts| - 1][p].None? then |ts| - 1
    else
      var i := FindGap(ts[..|ts| - 1], p);
      if i == |ts| - 1 then |ts| else i
  }

  function Without<T>(s: seq<T>, i: nat): (r: seq<T>)
    requires i < |s|
    ensures |r| == |s| - 1
    ensures forall j :: 0 <= j < |r| ==> r[j] == if j < i then s[j] else s[j + 1]
  {
    s[..i] + s[i + 1..]
  }

  /** `stage_action` on a tuple held in the deque: it is erased when it was run. */
  function StageAt<V>(s: State<V>, i: nat): State<V>
    requires i < |s.incoming|
  {
    if s.active then
      s.(fired := s.fired + [s.incoming[i]], active := s.persistent,
         incoming := Without(s.incoming, i), processed := s.processed + s.n)
    else s
  }

  /** `direct_stage`: a single-input component never searches the deque. */
  function AcceptOnly<V>(s: State<V>, v: V): State<V>
  {
    if s.active then s.(fired := s.fired + [[Some(v)]], active := s.persistent)
    else s.(incoming := [[Some(v)]] + s.incoming, created := s.created + s.n)
  }

  function Empty<V>(n: nat): (t: InputSet<V>)
    ensures |t| == n && forall p :: 0 <= p < n ==> t[p] == None
  {
    seq(n, _ => None)
  }

  function AcceptOneOf<V>(s: State<V>, p: nat, v: V): State<V>
    requires WellFormed(s) && p < s.n
  {
    var g := FindGap(s.incoming, p);
    if g == |s.incoming| then
      s.(incoming := [Empty(s.n)[p := Some(v)]] + s.incoming, created := s.created + 1)
    else
      var t := s.incoming[g][p := Some(v)];
      var filled := s.(incoming := s.incoming[g := t], created := s.created + 1);
      if Ready(t) then StageAt(filled, g) else filled
  }

  function Accept<V>(s: State<V>, p: nat, v: V): State<V>
    requires WellFormed(s) && p < s.n
  {
    if s.n == 1 then AcceptOnly(s, v) else AcceptOneOf(s, p, v)
  }

  /** The loop of `activate`. */
  function Drain<V>(s: State<V>): State<V>
    decreases |s.incoming|
  {
    var i := FindReady(s.incoming);
    if s.active && i < |s.incoming| then Drain(StageAt(s, i)) else s
  }

  function Apply<V>(s: State<V>, e: Event<V>): State<V>
    requires WellFormed(s) && Enabled(s, e)
  {
    match e
    case Arrive(p, v) => Accept(s, p, v)
    case Activate => Drain(s.(active := true, activated := true))
  }

  /** What the assertions of `accept` and `activate` demand of the caller. */
  predicate Enabled<V>(s: State<V>, e: Event<V>)
  {
    match e
    case Arrive(p, _) => p < s.n
    case Activate => !s.active
  }

  lemma {:induction false} DrainWellFormed<V>(s: State<V>)
    requires WellFormed(s)
    ensures WellFormed(Drain(s)) && Drain(s).n == s.n && Drain(s).persistent == s.persistent
    decreases |s.incoming|
  {
    var i := FindReady(s.incoming);
    if s.active && i < |s.incoming| {
      DrainWellFormed(StageAt(s, i));
    }
  }

  lemma {:induction false} ApplyWellFormed<V>(s: State<V>, e: Event<V>)
    requires WellFormed(s) && Enabled(s, e)
    ensures WellFormed(Apply(s, e)) && Apply(s, e).n == s.n && Apply(s, e).persistent == s.persistent
  {
    if e == Activate {
      DrainWellFormed(s.(active := true, activated := true));
    }
  }

  predicate IsRun<V>(n: nat, persistent: bool, run: seq<Event<V>>)
    requires n >= 1
    decreases |run|, 0
  {
    run == [] ||
    (IsRun(n, persistent, run[..|run| - 1]) && Enabled(After(n, persistent, run[..|run| - 1]), run[|run| - 1]))
  }

  function After<V>(n: nat, persistent: bool, run: seq<Event<V>>): (s: State<V>)
    requires n >= 1 && IsRun(n, persistent, run)
    ensures WellFormed(s) && s.n == n && s.persistent == persistent
    decreases |run|, 1
  {
    if run == [] then Init(n, persistent)
    else
      var s := After(n, persistent, run[..|run| - 1]);
      ApplyWellFormed(s, run[|run| - 1]);
      Apply(s, run[|run| - 1])
  }

  // ----- The reference: row k of the table of arrivals -----

  /** The values that arrived on port `p`, in order. */
  function Column<V>(run: seq<Event<V>>, p: nat): seq<V>
  {
    if run == [] then []
    else
      var last := run[|run| - 1];
      Column(run[..|run| - 1], p) + if last.Arrive? && last.port == p then [last.value] else []
  }

  function Columns<V>(n: nat, run: seq<Event<V>>): (r: seq<seq<V>>)
    ensures |r| == n && forall p :: 0 <= p < n ==> r[p] == Column(run, p)
  {
    seq(n, p requires 0 <= p < n => Column(run, p))
  }

  /** The tuple of the k-th arrivals, as far as they have arrived. */
  function Row<V>(cols: seq<seq<V>>, k: nat): (t: InputSet<V>)
    ensures |t| == |cols|
    ensures forall p :: 0 <= p < |cols| ==> t[p] == if k < |cols[p]| then Some(cols[p][k]) else None
  {
    seq(|cols|, p requires 0 <= p < |cols| => if k < |cols[p]| then Some(cols[p][k]) else None)
  }

  /** Some port has had its k-th arrival. */
  predicate Begun<V>(cols: seq<seq<V>>, k: nat)
  {
    exists p :: 0 <= p < |cols| && k < |cols[p]|
  }

  /** Every port has had its k-th arrival. */
  predicate Full<V>(cols: seq<seq<V>>, k: nat)
  {
    forall p :: 0 <= p < |cols| ==> k < |cols[p]|
  }

  /** `held` (newest first) and `done` together number every row begun, once. */
  ghost predicate Numbered<V>(cols: seq<seq<V>>, held: seq<nat>, done: seq<nat>)
  {
    && (forall i, j :: 0 <= i < j < |held| ==> held[i] > held[j])
    && (forall i, j :: 0 <= i < j < |done| ==> done[i] != done[j])
    && (forall k :: k in done ==> k !in held)
    && (forall k: nat :: Begun(cols, k) <==> (k in held || k in done))
  }

  /** The tuples `ts` are the rows numbered `ns`. */
  ghost predicate AreRows<V>(ts: seq<InputSet<V>>, cols: seq<seq<V>>, ns: seq<nat>)
  {
    |ts| == |ns| && forall i :: 0 <= i < |ns| ==> ts[i] == Row(cols, ns[i])
  }

  ghost predicate AllFull<V>(cols: seq<seq<V>>, ns: seq<nat>)
  {
    forall k :: k in ns ==> Full(cols, k)
  }

  /** Every row begun is either in the deque or in the log, and no row is there twice;
      the rows in the log are complete. */
  ghost predicate Explains<V>(s: State<V>, cols: seq<seq<V>>, held: seq<nat>, done: seq<nat>)
  {
    && |cols| == s.n && Numbered(cols, held, done) && AllFull(cols, done)
    && AreRows(s.incoming, cols, held) && AreRows(s.fired, cols, done)
  }

  /** Between events an active component holds no ready tuple. */
  ghost predicate AtRest<V>(s: State<V>)
  {
    s.active ==> forall t :: t in s.incoming ==> !Ready(t)
  }

  // ----- One step -----

  lemma {:induction false} RowsGrow<V>(cols: seq<seq<V>>, more: seq<seq<V>>, p: nat, v: V)
    requires p < |cols| && more == cols[p := cols[p] + [v]]
    ensures forall k: nat ::
              Row(more, k) == if k == |cols[p]| then Row(cols, k)[p := Some(v)] else Row(cols, k)
    ensures forall k: nat :: Begun(more, k) <==> (Begun(cols, k) || k == |cols[p]|)
  {
    forall k: nat
      ensures Row(more, k) == if k == |cols[p]| then Row(cols, k)[p := Some(v)] else Row(cols, k)
      ensures Begun(more, k) <==> (Begun(cols, k) || k == |cols[p]|)
    {
      assert k == |cols[p]| ==> k < |more[p]|;
      if q :| 0 <= q < |cols| && k < |cols[q]| {
        assert k < |more[q]|;
      }
    }
  }

  /** The gap found is the row the arriving value belongs to. */
  lemma {:induction false} GapIsRow<V>(s: State<V>, cols: seq<seq<V>>, held: seq<nat>, done: seq<nat>, p: nat)
    requires WellFormed(s) && Explains(s, cols, held, done) && p < s.n
    ensures FindGap(s.incoming, p) < |held| ==> held[FindGap(s.incoming, p)] == |cols[p]|
    ensures FindGap(s.incoming, p) == |held| ==> !Begun(cols, |cols[p]|)
  {
    var g := FindGap(s.incoming, p);
    var k := |cols[p]|;
    assert !Full(cols, k);
    if Begun(cols, k) {
      var j :| 0 <= j < |held| && held[j] == k;
      assert s.incoming[j] == Row(cols, k);
      assert j <= g < |held|;
    }
    if g < |held| {
      assert s.incoming[g] == Row(cols, held[g]);
      BegunBelow(cols, held[g], k);
    }
  }

  lemma {:induction false} BegunBelow<V>(cols: seq<seq<V>>, k: nat, j: nat)
    requires Begun(cols, k)
    ensures j <= k ==> Begun(cols, j)
  {
    var p :| 0 <= p < |cols| && k < |cols[p]|;
    assert j <= k ==> j < |cols[p]|;
  }

  lemma {:induction false} WithoutIn<T>(s: seq<T>, i: nat)
    requires i < |s|
    ensures forall t :: t in Without(s, i) ==> t in s
    ensures forall t :: t in s && t != s[i] ==> t in Without(s, i)
  {
    forall t | t in s && t != s[i] ensures t in Without(s, i) {
      var j :| 0 <= j < |s| && s[j] == t;
      assert Without(s, i)[if j < i then j else j - 1] == t;
    }
  }

  lemma {:induction false} NumberRuns<V>(cols: seq<seq<V>>, held: seq<nat>, done: seq<nat>, i: nat)
    requires Numbered(cols, held, done) && i < |held|
    ensures Numbered(cols, Without(held, i), done + [held[i]])
  {
    var h := Without(held, i);
    WithoutIn(held, i);
    assert held[i] !in h;
    forall k: nat ensures Begun(cols, k) <==> (k in h || k in done + [held[i]]) {}
  }

  lemma {:induction false} ReadyIsFull<V>(cols: seq<seq<V>>, k: nat)
    ensures Ready(Row(cols, k)) <==> Full(cols, k)
  {
    if Ready(Row(cols, k)) {
      forall p | 0 <= p < |cols| ensures k < |cols[p]| {
        assert Row(cols, k)[p].Some?;
      }
    }
  }

  lemma {:induction false} StageExplained<V>(
      s: State<V>, cols: seq<seq<V>>, held: seq<nat>, done: seq<nat>, i: nat)
    requires Explains(s, cols, held, done) && s.active
    requires i < |s.incoming| && Ready(s.incoming[i])
    ensures Explains(StageAt(s, i), cols, Without(held, i), done + [held[i]])
  {
    NumberRuns(cols, held, done, i);
    ReadyIsFull(cols, held[i]);
  }

  /** The row that arrival opens or completes has no number in the log yet. */
  lemma {:induction false} FullGrows<V>(cols: seq<seq<V>>, more: seq<seq<V>>, p: nat, v: V, ns: seq<nat>)
    requires p < |cols| && more == cols[p := cols[p] + [v]] && AllFull(cols, ns)
    ensures AllFull(more, ns) && |cols[p]| !in ns
  {
    assert !Full(cols, |cols[p]|);
  }

  lemma {:induction false} RowsStay<V>(
      cols: seq<seq<V>>, more: seq<seq<V>>, p: nat, v: V, ts: seq<InputSet<V>>, ns: seq<nat>)
    requires p < |cols| && more == cols[p := cols[p] + [v]] && AreRows(ts, cols, ns) && |cols[p]| !in ns
    ensures AreRows(ts, more, ns)
  {
    RowsGrow(cols, more, p, v);
  }

  lemma {:induction false} NumberOpens<V>(
      cols: seq<seq<V>>, more: seq<seq<V>>, p: nat, v: V, held: seq<nat>, done: seq<nat>)
    requires p < |cols| && more == cols[p := cols[p] + [v]]
    requires Numbered(cols, held, done) && !Begun(cols, |cols[p]|)
    ensures |cols[p]| !in held && |cols[p]| !in done
    ensures Numbered(more, [|cols[p]|] + held, done) && Numbered(more, held, done + [|cols[p]|])
  {
    var k := |cols[p]|;
    RowsGrow(cols, more, p, v);
    forall i | 0 <= i < |held| ensures held[i] < k {
      assert held[i] in held;
      BegunBelow(cols, held[i], k);
    }
    forall j: nat ensures j in [k] + held <==> (j == k || j in held) {}
    forall j: nat ensures j in done + [k] <==> (j == k || j in done) {}
  }

  lemma {:induction false} ArriveOpens<V>(
      s: State<V>, cols: seq<seq<V>>, held: seq<nat>, done: seq<nat>, p: nat, v: V, added: nat)
    requires Explains(s, cols, held, done) && p < s.n && !Begun(cols, |cols[p]|)
    ensures Explains(s.(incoming := [Empty(s.n)[p := Some(v)]] + s.incoming, created := s.created + added),
                     cols[p := cols[p] + [v]], [|cols[p]|] + held, done)
  {
    var more := cols[p := cols[p] + [v]];
    NumberOpens(cols, more, p, v, held, done);
    FullGrows(cols, more, p, v, done);
    RowsStay(cols, more, p, v, s.incoming, held);
    RowsStay(cols, more, p, v, s.fired, done);
    RowsGrow(cols, more, p, v);
    assert Row(cols, |cols[p]|) == Empty(s.n) by {
      forall q | 0 <= q < |cols| ensures |cols[q]| <= |cols[p]| {}
    }
  }

  lemma {:induction false} ArriveFills<V>(
      s: State<V>, cols: seq<seq<V>>, held: seq<nat>, done: seq<nat>, p: nat, v: V, g: nat)
    requires WellFormed(s) && Explains(s, cols, held, done) && p < s.n
    requires g < |held| && held[g] == |cols[p]|
    ensures Explains(s.(incoming := s.incoming[g := s.incoming[g][p := Some(v)]], created := s.created + 1),
                     cols[p := cols[p] + [v]], held, done)
  {
    var more := cols[p := cols[p] + [v]];
    RowsGrow(cols, more, p, v);
    assert held[g] in held;
    FullGrows(cols, more, p, v, done);
    RowsStay(cols, more, p, v, s.fired, done);
  }

  /** A single-input component runs an arriving value without holding it. */
  lemma {:induction false} ArriveRuns<V>(s: State<V>, cols: seq<seq<V>>, held: seq<nat>, done: seq<nat>, v: V)
    requires Explains(s, cols, held, done) && s.n == 1
    ensures Explains(s.(fired := s.fired + [[Some(v)]], active := s.persistent),
                     cols[0 := cols[0] + [v]], held, done + [|cols[0]|])
  {
    var more := cols[0 := cols[0] + [v]];
    assert !Begun(cols, |cols[0]|);
    NumberOpens(cols, more, 0, v, held, done);
    FullGrows(cols, more, 0, v, done);
    RowsStay(cols, more, 0, v, s.incoming, held);
    RowsStay(cols, more, 0, v, s.fired, done);
    assert Row(more, |cols[0]|) == [Some(v)];
  }

  lemma {:induction false} AcceptOneExplained<V>(
      s: State<V>, cols: seq<seq<V>>, held: seq<nat>, done: seq<nat>, p: nat, v: V) returns (h: seq<nat>, d: seq<nat>)
    requires WellFormed(s) && Explains(s, cols, held, done) && p < s.n
    ensures Explains(AcceptOneOf(s, p, v), cols[p := cols[p] + [v]], h, d) && (d == done || d == done + [|cols[p]|])
  {
    GapIsRow(s, cols, held, done, p);
    var g := FindGap(s.incoming, p);
    h, d := held, done;
    if g == |held| {
      ArriveOpens(s, cols, held, done, p, v, 1);
      h := [|cols[p]|] + held;
    } else {
      ArriveFills(s, cols, held, done, p, v, g);
      var t := s.incoming[g][p := Some(v)];
      if Ready(t) && s.active {
        var filled := s.(incoming := s.incoming[g := t], created := s.created + 1);
        StageExplained(filled, cols[p := cols[p] + [v]], held, done, g);
        h, d := Without(held, g), done + [held[g]];
      }
    }
  }

  lemma {:induction false} AcceptExplained<V>(
      s: State<V>, cols: seq<seq<V>>, held: seq<nat>, done: seq<nat>, p: nat, v: V) returns (h: seq<nat>, d: seq<nat>)
    requires WellFormed(s) && Explains(s, cols, held, done) && p < s.n
    ensures Explains(Accept(s, p, v), cols[p := cols[p] + [v]], h, d) && (d == done || d == done + [|cols[p]|])
  {
    if s.n != 1 {
      h, d := AcceptOneExplained(s, cols, held, done, p, v);
    } else if s.active {
      ArriveRuns(s, cols, held, done, v);
      h, d := held, done + [|cols[0]|];
    } else {
      assert !Begun(cols, |cols[0]|);
      ArriveOpens(s, cols, held, done, 0, v, s.n);
      assert Empty(1)[0 := Some(v)] == [Some(v)];
      h, d := [|cols[0]|] + held, done;
    }
  }

  lemma {:induction false} DrainExplained<V>(s: State<V>, cols: seq<seq<V>>, held: seq<nat>, done: seq<nat>)
    returns (h: seq<nat>, d: seq<nat>)
    requires Explains(s, cols, held, done)
    ensures Explains(Drain(s), cols, h, d)
    decreases |s.incoming|
  {
    var i := FindReady(s.incoming);
    if s.active && i < |s.incoming| {
      StageExplained(s, cols, held, done, i);
      h, d := DrainExplained(StageAt(s, i), cols, Without(held, i), done + [held[i]]);
    } else {
      h, d := held, done;
    }
  }

  function ColumnsWith<V>(cols: seq<seq<V>>, e: Event<V>): seq<seq<V>>
    requires e.Arrive? ==> e.port < |cols|
  {
    match e
    case Arrive(p, v) => cols[p := cols[p] + [v]]
    case Activate => cols
  }

  lemma {:induction false} ColumnsGrow<V>(n: nat, run: seq<Event<V>>, e: Event<V>)
    requires run != [] && run[|run| - 1] == e && (e.Arrive? ==> e.port < n)
    ensures Columns(n, run) == ColumnsWith(Columns(n, run[..|run| - 1]), e)
  {
    var cols := Columns(n, run[..|run| - 1]);
    forall p | 0 <= p < n ensures Column(run, p) == ColumnsWith(cols, e)[p] {
      assert Column(run, p) == cols[p] + if e.Arrive? && e.port == p then [e.value] else [];
    }
    assert Columns(n, run) == ColumnsWith(cols, e);
  }

  /** Input matching: whatever the interleaving of arrivals and activations, every row
      begun is held or has been run exactly once, and nothing else is; a tuple's k-th
      row holds exactly the k-th arrival on every port that has had one. */
  lemma {:induction false} RowsMatched<V>(n: nat, persistent: bool, run: seq<Event<V>>)
    returns (held: seq<nat>, done: seq<nat>)
    requires n >= 1 && IsRun(n, persistent, run)
    ensures Explains(After(n, persistent, run), Columns(n, run), held, done)
    decreases |run|
  {
    if run == [] {
      return [], [];
    }
    var before := run[..|run| - 1];
    var s := After(n, persistent, before);
    held, done := RowsMatched(n, persistent, before);
    ColumnsGrow(n, run, run[|run| - 1]);
    var cols := Columns(n, before);
    match run[|run| - 1]
    case Arrive(p, v) =>
      held, done := AcceptExplained(s, cols, held, done, p, v);
    case Activate =>
      held, done := DrainExplained(s.(active := true, activated := true), cols, held, done);
  }

  // ----- Rest -----

  lemma {:induction false} DrainRests<V>(s: State<V>)
    ensures AtRest(Drain(s))
    decreases |s.incoming|
  {
    var i := FindReady(s.incoming);
    if s.active && i < |s.incoming| {
      DrainRests(StageAt(s, i));
    }
  }

  lemma {:induction false} AcceptRests<V>(s: State<V>, p: nat, v: V)
    requires WellFormed(s) && AtRest(s) && p < s.n
    ensures AtRest(Accept(s, p, v))
  {
    if s.n > 1 && s.active {
      var g := FindGap(s.incoming, p);
      if g == |s.incoming| {
        var q := if p == 0 then 1 else 0;
        assert Empty<V>(s.n)[p := Some(v)][q] == None;
      } else {
        var t := s.incoming[g][p := Some(v)];
        if Ready(t) {
          assert Without(s.incoming[g := t], g) == Without(s.incoming, g);
          WithoutIn(s.incoming, g);
        }
      }
    }
  }

  /** A component at rest and active holds no ready tuple. */
  lemma {:induction false} ActiveHoldsNoReady<V>(n: nat, persistent: bool, run: seq<Event<V>>)
    requires n >= 1 && IsRun(n, persistent, run)
    ensures AtRest(After(n, persistent, run))
    decreases |run|
  {
    if run != [] {
      var before := run[..|run| - 1];
      ActiveHoldsNoReady(n, persistent, before);
      var s := After(n, persistent, before);
      match run[|run| - 1]
      case Arrive(p, v) => AcceptRests(s, p, v);
      case Activate => DrainRests(s.(active := true, activated := true));
    }
  }

  // ----- The order in which tuples are run -----

  /** The number of complete rows. */
  function Depth<V>(cols: seq<seq<V>>): (d: nat)
    requires cols != []
    ensures forall k: nat :: Full(cols, k) <==> k < d
  {
    if |cols| == 1 then
      assert forall k: nat :: Full(cols, k) <==> k < |cols[0]|;
      |cols[0]|
    else
      var d := Depth(cols[1..]);
      assert forall k: nat :: Full(cols, k) <==> (k < |cols[0]| && Full(cols[1..], k));
      if |cols[0]| < d then |cols[0]| else d
  }

  /** The order in which a component that was activated with `m` complete rows, and
      now has `d`, runs them: those it held newest first, the others as they complete. */
  function Order(m: nat, d: nat): (r: seq<nat>)
    requires m <= d
    ensures |r| == d && forall i :: 0 <= i < d ==> r[i] == if i < m then m - 1 - i else i
    ensures forall k: nat :: k in r <==> k < d
  {
    var r := seq(d, i => if i < m then (m - 1 - i) as nat else i);
    OrderCovers(m, d, r);
    r
  }

  lemma {:induction false} OrderCovers(m: nat, d: nat, r: seq<nat>)
    requires m <= d && |r| == d && forall i :: 0 <= i < d ==> r[i] == if i < m then m - 1 - i else i
    ensures forall k: nat :: k in r <==> k < d
  {
    forall k: nat ensures k in r <==> k < d {
      assert k < d ==> r[if k < m then m - 1 - k else k] == k;
    }
  }

  ghost predicate Decreasing(ns: seq<nat>)
  {
    forall i, j :: 0 <= i < j < |ns| ==> ns[i] > ns[j]
  }

  /** Every complete row still held is older than every row run so far. */
  ghost predicate OlderLeft<V>(cols: seq<seq<V>>, held: seq<nat>, done: seq<nat>)
  {
    forall k, j :: k in held && Full(cols, k) && j in done ==> k < j
  }

  lemma {:induction false} NewestIsGreatest<V>(
      ts: seq<InputSet<V>>, cols: seq<seq<V>>, held: seq<nat>, i: nat, k: nat)
    requires AreRows(ts, cols, held) && Decreasing(held) && i == FindReady(ts) < |ts|
    requires k in Without(held, i) && Full(cols, k)
    ensures k in held && k < held[i]
  {
    WithoutIn(held, i);
    var j :| 0 <= j < |held| && held[j] == k;
    ReadyIsFull(cols, k);
    assert ts[j] == Row(cols, k);
    assert i <= j;
    assert k !in [held[i]] by {
      var w :| 0 <= w < |held| - 1 && Without(held, i)[w] == k;
    }
  }

  lemma {:induction false} NewestRuns<V>(
      ts: seq<InputSet<V>>, cols: seq<seq<V>>, held: seq<nat>, done: seq<nat>, i: nat)
    requires AreRows(ts, cols, held) && Decreasing(held) && Decreasing(done) && OlderLeft(cols, held, done)
    requires i == FindReady(ts) < |ts|
    ensures Decreasing(done + [held[i]]) && OlderLeft(cols, Without(held, i), done + [held[i]])
  {
    ReadyIsFull(cols, held[i]);
    assert held[i] in held;
    forall k | k in Without(held, i) && Full(cols, k) ensures k in held && k < held[i] {
      NewestIsGreatest(ts, cols, held, i, k);
    }
    assert forall j :: 0 <= j < |done| ==> done[j] in done;
  }

  lemma {:induction false} DrainDescends<V>(s: State<V>, cols: seq<seq<V>>, held: seq<nat>, done: seq<nat>)
    returns (h: seq<nat>, d: seq<nat>)
    requires Explains(s, cols, held, done) && Decreasing(done) && OlderLeft(cols, held, done)
    ensures Explains(Drain(s), cols, h, d) && Decreasing(d)
    decreases |s.incoming|
  {
    var i := FindReady(s.incoming);
    h, d := held, done;
    if s.active && i < |s.incoming| {
      StageExplained(s, cols, held, done, i);
      NewestRuns(s.incoming, cols, held, done, i);
      h, d := DrainDescends(StageAt(s, i), cols, Without(held, i), done + [held[i]]);
    }
  }

  lemma {:induction false} DescendsTo(ns: seq<nat>, m: nat)
    requires Decreasing(ns) && forall k: nat :: k in ns <==> k < m
    ensures ns == Order(m, m)
  {
    if ns == [] {
      assert 0 in ns <==> 0 < m;
    } else {
      assert ns[0] in ns;
      var top: nat := m - 1;
      assert top in ns && ns[0] == top;
      var rest := ns[1..];
      forall k: nat ensures k in rest <==> k < top {
        assert k in ns <==> k < m;
        if k < top {
          var i :| 0 <= i < |ns| && ns[i] == k;
          assert rest[i - 1] == k;
        }
      }
      DescendsTo(rest, top);
      assert ns == [ns[0]] + rest;
    }
  }

  /** While a component is active and at rest, exactly the complete rows have been run. */
  lemma {:induction false} DoneAreFull<V>(s: State<V>, cols: seq<seq<V>>, held: seq<nat>, done: seq<nat>)
    requires Explains(s, cols, held, done) && s.active && AtRest(s) && s.n >= 1
    ensures forall k: nat :: k in done <==> k < Depth(cols)
  {
    forall j | 0 <= j < |held| ensures !Full(cols, held[j]) {
      ReadyIsFull(cols, held[j]);
      assert s.incoming[j] in s.incoming;
    }
    forall k: nat | Full(cols, k) ensures Begun(cols, k) {
      assert k < |cols[0]|;
    }
  }

  ghost predicate OnlyArrivals<V>(run: seq<Event<V>>)
  {
    forall e :: e in run ==> e.Arrive?
  }

  lemma {:induction false} IdleAccepts<V>(s: State<V>, p: nat, v: V)
    requires WellFormed(s) && p < s.n && !s.active
    ensures !Accept(s, p, v).active && Accept(s, p, v).fired == s.fired
  {
  }

  lemma {:induction false} IdleHolds<V>(n: nat, persistent: bool, run: seq<Event<V>>)
    requires n >= 1 && OnlyArrivals(run) && IsRun(n, persistent, run)
    ensures !After(n, persistent, run).active && After(n, persistent, run).fired == []
    decreases |run|
  {
    if run != [] {
      var less, e := run[..|run| - 1], run[|run| - 1];
      assert e in run;
      IdleHolds(n, persistent, less);
      IdleAccepts(After(n, persistent, less), e.port, e.value);
    }
  }

  lemma {:induction false} ActivationOrder<V>(n: nat, run: seq<Event<V>>) returns (held: seq<nat>)
    requires n >= 1 && run != [] && OnlyArrivals(run[..|run| - 1]) && run[|run| - 1] == Activate && IsRun(n, true, run)
    ensures var d := Depth(Columns(n, run[..|run| - 1]));
            Explains(After(n, true, run), Columns(n, run), held, Order(d, d))
    ensures Columns(n, run) == Columns(n, run[..|run| - 1])
    ensures After(n, true, run).active && AtRest(After(n, true, run))
  {
    var before := run[..|run| - 1];
    IdleHolds(n, true, before);
    var h, d := RowsMatched(n, true, before);
    assert d == [];
    var s := After(n, true, before).(active := true, activated := true);
    var cols := Columns(n, before);
    ColumnsGrow(n, run, Activate);
    held, d := DrainDescends(s, cols, h, []);
    DrainRests(s);
    DrainStays(s);
    DoneAreFull(Drain(s), cols, held, d);
    DescendsTo(d, Depth(cols));
  }

  lemma {:induction false} DrainStays<V>(s: State<V>)
    requires s.persistent && s.active
    ensures Drain(s).active && Drain(s).n == s.n
    decreases |s.incoming|
  {
    var i := FindReady(s.incoming);
    if i < |s.incoming| {
      DrainStays(StageAt(s, i));
    }
  }

  lemma {:induction false} NextInOrder(m: nat, d: nat, e: nat, done: seq<nat>, k: nat)
    requires m <= d && (done == Order(m, d) || done == Order(m, d) + [k])
    requires forall i, j :: 0 <= i < j < |done| ==> done[i] != done[j]
    requires forall i: nat :: i in done <==> i < e
    ensures m <= e && done == Order(m, e)
  {
    assert forall i: nat :: i in Order(m, d) <==> i < d;
    if done == Order(m, d) {
      assert d in done <==> d < e;
      assert e in done <==> e < d;
    } else {
      assert done[d] == k && k in done;
      assert forall i :: 0 <= i < d ==> Order(m, d)[i] == done[i];
      assert k !in Order(m, d);
      assert d in done <==> d == k;
      assert e in done <==> (e < d || e == k);
      assert e > k >= d;
      assert d in done;
      assert d + 1 in done <==> (d + 1 < d || d + 1 == k);
      assert done == Order(m, d + 1);
    }
  }

  lemma {:induction false} ArrivalOrder<V>(s: State<V>, cols: seq<seq<V>>, held: seq<nat>, m: nat, p: nat, v: V)
    returns (h: seq<nat>)
    requires WellFormed(s) && s.active && s.persistent && AtRest(s) && p < s.n
    requires |cols| == s.n && m <= Depth(cols) && Explains(s, cols, held, Order(m, Depth(cols)))
    ensures m <= Depth(cols[p := cols[p] + [v]])
    ensures Explains(Accept(s, p, v), cols[p := cols[p] + [v]], h, Order(m, Depth(cols[p := cols[p] + [v]])))
    ensures Accept(s, p, v).active && AtRest(Accept(s, p, v))
  {
    var more := cols[p := cols[p] + [v]];
    var done;
    h, done := AcceptExplained(s, cols, held, Order(m, Depth(cols)), p, v);
    AcceptRests(s, p, v);
    DoneAreFull(Accept(s, p, v), more, h, done);
    NextInOrder(m, Depth(cols), Depth(more), done, |cols[p]|);
  }

  /** `run` leaves the component online, with the `m` rows held at activation run first. */
  ghost predicate Ordered<V>(n: nat, run: seq<Event<V>>, m: nat, held: seq<nat>)
  {
    && n >= 1 && IsRun(n, true, run)
    && var s, cols := After(n, true, run), Columns(n, run);
      && cols != [] && s.active && AtRest(s) && m <= Depth(cols)
      && Explains(s, cols, held, Order(m, Depth(cols)))
  }

  lemma {:induction false} OrderedMore<V>(n: nat, run: seq<Event<V>>, m: nat, held: seq<nat>, e: Event<V>)
    returns (h: seq<nat>)
    requires Ordered(n, run, m, held) && e.Arrive? && IsRun(n, true, run + [e])
    ensures Ordered(n, run + [e], m, h)
  {
    var more := run + [e];
    assert more[..|more| - 1] == run;
    ColumnsGrow(n, more, e);
    h := ArrivalOrder(After(n, true, run), Columns(n, run), held, m, e.port, e.value);
  }

  /** `run` is arrivals `pre`, one activation, and arrivals. */
  ghost predicate OneActivation<V>(pre: seq<Event<V>>, run: seq<Event<V>>)
  {
    && OnlyArrivals(pre) && |pre| < |run| && run[..|pre|] == pre && run[|pre|] == Activate
    && forall i :: |pre| < i < |run| ==> run[i].Arrive?
  }

  lemma {:induction false} LogOrder<V>(n: nat, pre: seq<Event<V>>, run: seq<Event<V>>) returns (held: seq<nat>)
    requires n >= 1 && OneActivation(pre, run) && IsRun(n, true, run)
    ensures Ordered(n, run, Depth(Columns(n, pre)), held)
    decreases |run|
  {
    var l := |run| - 1;
    if l == |pre| {
      held := ActivationOrder(n, run);
    } else {
      held := LogOrder(n, pre, run[..l]);
      assert run == run[..l] + [run[l]];
      held := OrderedMore(n, run[..l], Depth(Columns(n, pre)), held, run[l]);
    }
  }

  /** The order of a persistent component's runs, exactly: the rows complete when it was
      activated are run last-completed first, all later ones in order. */
  lemma {:induction false} RunOrder<V>(n: nat, pre: seq<Event<V>>, post: seq<Event<V>>)
    requires n >= 1 && OnlyArrivals(pre) && OnlyArrivals(post) && IsRun(n, true, pre + [Activate] + post)
    ensures var run, m := pre + [Activate] + post, Depth(Columns(n, pre));
            var cols, fired := Columns(n, run), After(n, true, run).fired;
            |fired| == Depth(cols) >= m &&
            forall i :: 0 <= i < |fired| ==> fired[i] == Row(cols, if i < m then m - 1 - i else i)
  {
    var held := LogOrder(n, pre, pre + [Activate] + post);
  }

  /** So its runs follow the order of arrival if and only if at most one row was complete
      when it was activated (for rows that can be told apart). */
  lemma {:induction false} InOrderIffAtMostOne<V>(n: nat, pre: seq<Event<V>>, post: seq<Event<V>>)
    requires n >= 1 && OnlyArrivals(pre) && OnlyArrivals(post) && IsRun(n, true, pre + [Activate] + post)
    requires var cols := Columns(n, pre + [Activate] + post);
             forall i: nat, j: nat :: i < j < Depth(Columns(n, pre)) ==> Row(cols, i) != Row(cols, j)
    ensures var cols, fired := Columns(n, pre + [Activate] + post), After(n, true, pre + [Activate] + post).fired;
            (forall i :: 0 <= i < |fired| ==> fired[i] == Row(cols, i)) <==> Depth(Columns(n, pre)) <= 1
  {
    RunOrder(n, pre, post);
    var m := Depth(Columns(n, pre));
    if m > 1 {
      var cols := Columns(n, pre + [Activate] + post);
      assert After(n, true, pre + [Activate] + post).fired[0] == Row(cols, m - 1) != Row(cols, 0);
    }
  }

  /** Values for the component's ports, in any order, are a run. */
  lemma {:induction false} ArrivalsRun<V>(n: nat, persistent: bool, run: seq<Event<V>>)
    requires n >= 1 && OnlyArrivals(run) && forall e :: e in run ==> e.port < n
    ensures IsRun(n, persistent, run)
    decreases |run|
  {
    if run != [] {
      var less := run[..|run| - 1];
      assert run[|run| - 1] in run;
      ArrivalsRun(n, persistent, less);
      assert After(n, persistent, less).n == n;
    }
  }

  lemma {:induction false} ActivatedRun<V>(n: nat, pre: seq<Event<V>>)
    requires n >= 1 && OnlyArrivals(pre) && forall e :: e in pre ==> e.port < n
    ensures IsRun(n, true, pre + [Activate]) && (pre + [Activate])[..|pre|] == pre
  {
    assert (pre + [Activate])[..|pre|] == pre;
    ArrivalsRun(n, true, pre);
    IdleHolds(n, true, pre);
  }

  /** The other way of the equivalence, at an input: two different pairs are complete
      when a two-input component is activated, and the second is run first. */
  lemma {:induction false} OutOfOrder<V>(a: V, b: V, c: V, d: V)
    requires a != c || b != d
    ensures var pre := TwoPairs(a, b, c, d);
      OnlyArrivals(pre) && Depth(Columns(2, pre)) == 2 && IsRun(2, true, pre + [Activate])
    ensures var cols, fired := [[a, c], [b, d]], After(2, true, TwoPairs(a, b, c, d) + [Activate]).fired;
      && Columns(2, TwoPairs(a, b, c, d) + [Activate]) == cols && Row(cols, 0) != Row(cols, 1)
      && fired == [Row(cols, 1), Row(cols, 0)]
  {
    var pre := TwoPairs(a, b, c, d);
    var run := pre + [Activate];
    PairColumns(a, b, c, d);
    PairRows(a, b, c, d);
    ActivatedRun(2, pre);
    ColumnsGrow(2, run, Activate);
    var held := LogOrder(2, pre, run);
    TwoFired(run, Columns(2, run), held);
  }

  /** Two rows complete at activation. */
  lemma {:induction false} TwoFired<V>(run: seq<Event<V>>, cols: seq<seq<V>>, held: seq<nat>)
    requires Ordered(2, run, 2, held) && cols == Columns(2, run) && cols != [] && Depth(cols) == 2
    ensures After(2, true, run).fired == [Row(cols, 1), Row(cols, 0)]
  {
    assert Order(2, 2) == [1, 0];
  }

  function TwoPairs<V>(a: V, b: V, c: V, d: V): seq<Event<V>>
  {
    OnePair(a, b) + [Arrive(0, c)] + [Arrive(1, d)]
  }

  function OnePair<V>(a: V, b: V): seq<Event<V>>
  {
    [] + [Arrive(0, a)] + [Arrive(1, b)]
  }

  lemma {:induction false} FirstColumn<V>(a: V, b: V, p: nat)
    requires p < 2
    ensures Column(OnePair(a, b), p) == if p == 0 then [a] else [b]
  {
    var none: seq<Event<V>> := [];
    ColumnPlus(none, Arrive(0, a), p);
    ColumnPlus(none + [Arrive(0, a)], Arrive(1, b), p);
  }

  lemma {:induction false} PairColumn<V>(a: V, b: V, c: V, d: V, p: nat)
    requires p < 2
    ensures Column(TwoPairs(a, b, c, d), p) == if p == 0 then [a, c] else [b, d]
  {
    FirstColumn(a, b, p);
    ColumnPlus(OnePair(a, b), Arrive(0, c), p);
    ColumnPlus(OnePair(a, b) + [Arrive(0, c)], Arrive(1, d), p);
  }

  lemma {:induction false} PairColumns<V>(a: V, b: V, c: V, d: V)
    ensures Columns(2, TwoPairs(a, b, c, d)) == [[a, c], [b, d]]
  {
    PairColumn(a, b, c, d, 0);
    PairColumn(a, b, c, d, 1);
  }

  lemma {:induction false} ColumnPlus<V>(run: seq<Event<V>>, e: Event<V>, p: nat)
    ensures Column(run + [e], p) ==
            if e.Arrive? && e.port == p then Column(run, p) + [e.value] else Column(run, p)
  {
    assert (run + [e])[..|run|] == run;
  }

  lemma {:induction false} PairRows<V>(a: V, b: V, c: V, d: V)
    requires a != c || b != d
    ensures Depth([[a, c], [b, d]]) == 2 && Row([[a, c], [b, d]], 0) != Row([[a, c], [b, d]], 1)
  {
    var cols := [[a, c], [b, d]];
    assert cols[0] == [a, c] && cols[1] == [b, d];
    assert Full(cols, 1) && !Full(cols, 2);
    assert Row(cols, 0)[0] == Some(a) && Row(cols, 1)[0] == Some(c);
    assert Row(cols, 0)[1] == Some(b) && Row(cols, 1)[1] == Some(d);
  }

  /** An always-active persistent component runs the rows in order, each as soon as it
      is complete. */
  lemma {:induction false} AlwaysActiveInOrder<V>(n: nat, post: seq<Event<V>>)
    requires n >= 1 && OnlyArrivals(post) && IsRun(n, true, [Activate] + post)
    ensures var cols, fired := Columns(n, [Activate] + post), After(n, true, [Activate] + post).fired;
            |fired| == Depth(cols) && forall i :: 0 <= i < |fired| ==> fired[i] == Row(cols, i)
  {
    assert [] + [Activate] + post == [Activate] + post;
    assert Depth(Columns<V>(n, [])) == 0 by {
      assert !Full(Columns<V>(n, []), 0) by {
        assert Columns<V>(n, [])[0] == [];
      }
    }
    RunOrder(n, [], post);
  }

  // ----- Quiescence accounting -----

  /** The number of values in a tuple. */
  function Filled<V>(t: InputSet<V>): nat
  {
    if t == [] then 0 else (if t[0].Some? then 1 else 0) + Filled(t[1..])
  }

  /** The number of values in the deque. */
  function Values<V>(ts: seq<InputSet<V>>): nat
  {
    if ts == [] then 0 else Filled(ts[0]) + Values(ts[1..])
  }

  ghost predicate Balanced<V>(s: State<V>)
  {
    s.created == s.processed + Values(s.incoming)
  }

  lemma {:induction false} FilledReady<V>(t: InputSet<V>)
    requires Ready(t)
    ensures Filled(t) == |t|
  {
    if t != [] {
      assert Ready(t[1..]);
      FilledReady(t[1..]);
    }
  }

  lemma {:induction false} FilledOne<V>(t: InputSet<V>, p: nat, v: V)
    requires p < |t| && t[p].None?
    ensures Filled(t[p := Some(v)]) == Filled(t) + 1
  {
    if p == 0 {
      assert t[0 := Some(v)][1..] == t[1..];
    } else {
      FilledOne(t[1..], p - 1, v);
      assert t[p := Some(v)][1..] == t[1..][p - 1 := Some(v)];
    }
  }

  lemma {:induction false} FilledNone<V>(n: nat)
    ensures Filled(Empty<V>(n)) == 0
  {
    if n > 0 {
      FilledNone<V>(n - 1);
      assert Empty<V>(n)[1..] == Empty<V>(n - 1);
    }
  }

  lemma {:induction false} ValuesWithout<V>(ts: seq<InputSet<V>>, i: nat)
    requires i < |ts|
    ensures Values(ts) == Values(Without(ts, i)) + Filled(ts[i])
  {
    if i == 0 {
      assert Without(ts, 0) == ts[1..];
    } else {
      ValuesWithout(ts[1..], i - 1);
      assert Without(ts, i) == [ts[0]] + Without(ts[1..], i - 1);
    }
  }

  lemma {:induction false} ValuesUpdate<V>(ts: seq<InputSet<V>>, i: nat, t: InputSet<V>)
    requires i < |ts|
    ensures Values(ts[i := t]) + Filled(ts[i]) == Values(ts) + Filled(t)
  {
    ValuesWithout(ts, i);
    ValuesWithout(ts[i := t], i);
    assert Without(ts[i := t], i) == Without(ts, i);
  }

  lemma {:induction false} StageBalanced<V>(s: State<V>, i: nat)
    requires WellFormed(s) && Balanced(s) && i < |s.incoming| && Ready(s.incoming[i])
    ensures Balanced(StageAt(s, i))
  {
    ValuesWithout(s.incoming, i);
    assert s.incoming[i] in s.incoming;
    FilledReady(s.incoming[i]);
  }

  lemma {:induction false} DrainBalanced<V>(s: State<V>)
    requires WellFormed(s) && Balanced(s)
    ensures Balanced(Drain(s))
    decreases |s.incoming|
  {
    var i := FindReady(s.incoming);
    if s.active && i < |s.incoming| {
      StageBalanced(s, i);
      DrainBalanced(StageAt(s, i));
    }
  }

  lemma {:induction false} AcceptBalanced<V>(s: State<V>, p: nat, v: V)
    requires WellFormed(s) && Balanced(s) && p < s.n
    ensures Balanced(Accept(s, p, v))
  {
    FilledNone<V>(s.n);
    FilledOne(Empty<V>(s.n), p, v);
    if s.n == 1 {
      assert Empty(1)[0 := Some(v)] == [Some(v)];
    } else {
      var g := FindGap(s.incoming, p);
      if g < |s.incoming| {
        var t := s.incoming[g][p := Some(v)];
        FilledOne(s.incoming[g], p, v);
        ValuesUpdate(s.incoming, g, t);
        if Ready(t) {
          StageBalanced(s.(incoming := s.incoming[g := t], created := s.created + 1), g);
        }
      }
    }
  }

  /** What was passed to `QdCreate` less what was passed to `QdProcess` is always the
      number of values held. */
  lemma {:induction false} QuiescenceBalanced<V>(n: nat, persistent: bool, run: seq<Event<V>>)
    requires n >= 1 && IsRun(n, persistent, run)
    ensures Balanced(After(n, persistent, run))
    decreases |run|
  {
    if run != [] {
      var before := run[..|run| - 1];
      QuiescenceBalanced(n, persistent, before);
      var s := After(n, persistent, before);
      match run[|run| - 1]
      case Arrive(p, v) => AcceptBalanced(s, p, v);
      case Activate => DrainBalanced(s.(active := true, activated := true));
    }
  }

  // ----- Activation -----

  /** The ready tuples, newest first. */
  function Readies<V>(ts: seq<InputSet<V>>): seq<InputSet<V>>
  {
    if ts == [] then [] else (if Ready(ts[0]) then [ts[0]] else []) + Readies(ts[1..])
  }

  function Partial<V>(ts: seq<InputSet<V>>): seq<InputSet<V>>
  {
    if ts == [] then [] else (if Ready(ts[0]) then [] else [ts[0]]) + Partial(ts[1..])
  }

  lemma {:induction false} FirstReady<V>(ts: seq<InputSet<V>>, i: nat)
    requires i < |ts| && Ready(ts[i]) && forall j :: 0 <= j < i ==> !Ready(ts[j])
    ensures Readies(ts) == [ts[i]] + Readies(Without(ts, i))
    ensures Partial(ts) == Partial(Without(ts, i))
  {
    if i == 0 {
      assert Without(ts, 0) == ts[1..];
    } else {
      var rest := ts[1..];
      FirstReady(rest, i - 1);
      var w := Without(ts, i);
      assert w[0] == ts[0] && w[1..] == Without(rest, i - 1);
    }
  }

  lemma {:induction false} NoneReady<V>(ts: seq<InputSet<V>>)
    requires FindReady(ts) == |ts|
    ensures Readies(ts) == [] && Partial(ts) == ts
  {
    if ts != [] {
      NoneReady(ts[1..]);
    }
  }

  /** Activation of a persistent component runs every ready tuple it holds, newest
      first, keeps the others in place and leaves it active. */
  lemma {:induction false} DrainRunsAll<V>(s: State<V>)
    requires s.active && s.persistent
    ensures Drain(s).incoming == Partial(s.incoming) && Drain(s).fired == s.fired + Readies(s.incoming)
    ensures Drain(s).active
    decreases |s.incoming|
  {
    var i := FindReady(s.incoming);
    if i < |s.incoming| {
      FirstReady(s.incoming, i);
      var next := StageAt(s, i);
      DrainRunsAll(next);
      assert Drain(s) == Drain(next);
    } else {
      NoneReady(s.incoming);
    }
  }

  /** Activation of any other component runs its newest ready tuple only, keeps the
      others in place, and ends inactive exactly if it had one. */
  lemma {:induction false} DrainRunsOne<V>(s: State<V>)
    requires s.active && !s.persistent
    ensures var r := Readies(s.incoming);
      && Drain(s).fired == (if r == [] then s.fired else s.fired + [r[0]]) && (Drain(s).active <==> r == [])
      && Readies(Drain(s).incoming) == (if r == [] then [] else r[1..])
      && Partial(Drain(s).incoming) == Partial(s.incoming)
    ensures var i := FindReady(s.incoming);
      Drain(s).incoming == if i < |s.incoming| then Without(s.incoming, i) else s.incoming
  {
    var i := FindReady(s.incoming);
    if i < |s.incoming| {
      FirstReady(s.incoming, i);
    } else {
      NoneReady(s.incoming);
    }
  }

  // ----- Repeated activation -----

  /** Row `held[i]` is the latest complete one that is held; `i` is `|held|` if none is. */
  ghost predicate LatestComplete<V>(cols: seq<seq<V>>, held: seq<nat>, i: nat)
  {
    && i <= |held|
    && (forall k :: k in held && Full(cols, k) ==> i < |held| && k <= held[i])
    && (i < |held| ==> Full(cols, held[i]))
  }

  lemma {:induction false} NewestIsLatest<V>(ts: seq<InputSet<V>>, cols: seq<seq<V>>, held: seq<nat>)
    requires AreRows(ts, cols, held) && Decreasing(held)
    ensures LatestComplete(cols, held, FindReady(ts))
  {
    var i := FindReady(ts);
    if i < |held| { ReadyIsFull(cols, held[i]); }
    forall k | k in held && Full(cols, k) ensures i < |held| && k <= held[i] {
      var j :| 0 <= j < |held| && held[j] == k;
      ReadyIsFull(cols, k);
      assert ts[j] == Row(cols, k);
      assert i <= j;
    }
  }

  /** Whatever happened before, activating a component that is not persistent runs the
      latest complete row it holds, and that one only. */
  lemma {:induction false} ActivationRunsLatest<V>(
      s: State<V>, cols: seq<seq<V>>, held: seq<nat>, done: seq<nat>) returns (i: nat)
    requires Explains(s, cols, held, done) && !s.persistent && !s.active
    ensures LatestComplete(cols, held, i)
    ensures var t := Drain(s.(active := true, activated := true));
      if i < |held| then !t.active && Explains(t, cols, Without(held, i), done + [held[i]])
      else t.active && Explains(t, cols, held, done)
  {
    var u := s.(active := true, activated := true);
    i := FindReady(s.incoming);
    NewestIsLatest(s.incoming, cols, held);
    if i < |held| {
      StageExplained(u, cols, held, done, i);
    }
  }

  function Countdown(m: nat, j: nat): (r: seq<nat>)
    requires j <= m
    ensures |r| == j && forall i :: 0 <= i < j ==> r[i] == m - 1 - i
  {
    seq(j, i requires 0 <= i < j => (m - 1 - i) as nat)
  }

  lemma {:induction false} CountdownNext<V>(cols: seq<seq<V>>, held: seq<nat>, m: nat, j: nat, i: nat)
    requires j < m && Numbered(cols, held, Countdown(m, j)) && LatestComplete(cols, held, i) && cols != []
    requires forall k: nat :: Full(cols, k) <==> k < m
    ensures i < |held| && Countdown(m, j) + [held[i]] == Countdown(m, j + 1)
  {
    var k: nat := m - 1 - j;
    assert Full(cols, k) && k < |cols[0]|;
    assert Begun(cols, k);
    assert k in held && k <= held[i];
    forall q: nat | k < q < m ensures q in Countdown(m, j) {
      assert Countdown(m, j)[m - 1 - q] == q;
    }
    assert held[i] in held;
  }

  /** `run` ends inactive, after the latest `j` of the `m` complete rows were run. */
  ghost predicate Descended<V>(n: nat, run: seq<Event<V>>, cols: seq<seq<V>>, held: seq<nat>, m: nat, j: nat)
  {
    && n >= 1 && IsRun(n, false, run) && !After(n, false, run).active && Columns(n, run) == cols
    && |cols| == n && m == Depth(cols) && j <= m && Explains(After(n, false, run), cols, held, Countdown(m, j))
  }

  /** One more activation. */
  lemma {:induction false} ActivateOnce<V>(
      n: nat, run: seq<Event<V>>, cols: seq<seq<V>>, held: seq<nat>, m: nat, j: nat)
    returns (h: seq<nat>)
    requires Descended(n, run, cols, held, m, j) && j < m
    ensures Descended(n, run + [Activate], cols, h, m, j + 1)
  {
    var more := run + [Activate];
    assert more[..|more| - 1] == run;
    ColumnsGrow(n, more, Activate);
    var i := ActivationRunsLatest(After(n, false, run), cols, held, Countdown(m, j));
    CountdownNext(cols, held, m, j, i);
    h := Without(held, i);
  }

  lemma {:induction false} NotActivated<V>(n: nat, pre: seq<Event<V>>) returns (held: seq<nat>)
    requires n >= 1 && OnlyArrivals(pre) && forall e :: e in pre ==> e.port < n
    ensures Descended(n, pre, Columns(n, pre), held, Depth(Columns(n, pre)), 0)
  {
    ArrivalsRun(n, false, pre);
    IdleHolds(n, false, pre);
    var done;
    held, done := RowsMatched(n, false, pre);
    assert done == Countdown(Depth(Columns(n, pre)), 0);
  }

  /** `pre`, and then `j` activations. */
  function Activated<V>(pre: seq<Event<V>>, j: nat): seq<Event<V>>
  {
    if j == 0 then pre else Activated(pre, j - 1) + [Activate]
  }

  lemma {:induction false} RepeatedActivations<V>(n: nat, pre: seq<Event<V>>, j: nat) returns (held: seq<nat>)
    requires n >= 1 && OnlyArrivals(pre) && (forall e :: e in pre ==> e.port < n) && j <= Depth(Columns(n, pre))
    ensures Descended(n, Activated(pre, j), Columns(n, pre), held, Depth(Columns(n, pre)), j)
    decreases j
  {
    if j == 0 {
      held := NotActivated(n, pre);
    } else {
      held := RepeatedActivations(n, pre, j - 1);
      held := ActivateOnce(n, Activated(pre, j - 1), Columns(n, pre), held, Depth(Columns(n, pre)), j - 1);
    }
  }

  /** The log holds the last `j` complete rows, the latest first. */
  ghost predicate LoggedDown<V>(fired: seq<InputSet<V>>, cols: seq<seq<V>>, j: nat)
    requires cols != [] && j <= Depth(cols)
  {
    |fired| == j && forall i :: 0 <= i < j ==> fired[i] == Row(cols, Depth(cols) - 1 - i)
  }

  lemma {:induction false} RowsLogged<V>(fired: seq<InputSet<V>>, cols: seq<seq<V>>, j: nat)
    requires cols != [] && j <= Depth(cols) && AreRows(fired, cols, Countdown(Depth(cols), j))
    ensures LoggedDown(fired, cols, j)
  {
  }

  /** Activated again and again, a component that is not persistent runs the `m` rows it
      holds complete one at a time, the latest first: row `m - 1` down to row `m - j`. */
  lemma {:induction false} LatestFirst<V>(n: nat, pre: seq<Event<V>>, j: nat)
    requires n >= 1 && OnlyArrivals(pre) && (forall e :: e in pre ==> e.port < n) && j <= Depth(Columns(n, pre))
    ensures IsRun(n, false, Activated(pre, j))
    ensures LoggedDown(After(n, false, Activated(pre, j)).fired, Columns(n, pre), j)
  {
    var held := RepeatedActivations(n, pre, j);
    RowsLogged(After(n, false, Activated(pre, j)).fired, Columns(n, pre), j);
  }
}
