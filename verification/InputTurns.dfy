/** When a component is online, and what it accounts for: one activation of a component
    that is not persistent is good for one run of its action. */
module InputTurns {
  import opened Wrappers
  import opened InputMatching

  function Activations<V>(run: seq<Event<V>>): nat
  {
    if run == [] then 0 else Activations(run[..|run| - 1]) + if run[|run| - 1].Activate? then 1 else 0
  }

  /** Being online is what the activations so far bought, less what has been run. */
  ghost predicate Turns<V>(s: State<V>, activations: nat)
  {
    && (s.activated <==> activations > 0)
    && if s.persistent then activations == if s.active then 1 else 0
       else activations == |s.fired| + if s.active then 1 else 0
  }

  lemma {:induction false} DrainTurns<V>(s: State<V>)
    requires s.active
    ensures var t := Drain(s); t.persistent == s.persistent && t.activated == s.activated
    ensures var t := Drain(s);
      if s.persistent then t.active else |t.fired| + (if t.active then 1 else 0) == |s.fired| + 1
    decreases |s.incoming|
  {
    var i := FindReady(s.incoming);
    if s.persistent && i < |s.incoming| {
      DrainTurns(StageAt(s, i));
    }
  }

  lemma {:induction false} AcceptTurns<V>(s: State<V>, p: nat, v: V, activations: nat)
    requires WellFormed(s) && p < s.n && Turns(s, activations)
    ensures Turns(Accept(s, p, v), activations)
  {
  }

  /** A component that is not persistent has run its action once for every activation,
      except that the last one is still unused exactly while it is online; a persistent
      one stays online from its only activation on. */
  lemma {:induction false} OneRunPerActivation<V>(n: nat, persistent: bool, run: seq<Event<V>>)
    requires n >= 1 && IsRun(n, persistent, run)
    ensures Turns(After(n, persistent, run), Activations(run))
    decreases |run|
  {
    if run != [] {
      var before := run[..|run| - 1];
      OneRunPerActivation(n, persistent, before);
      var s := After(n, persistent, before);
      match run[|run| - 1]
      case Arrive(p, v) => AcceptTurns(s, p, v, Activations(before));
      case Activate => DrainTurns(s.(active := true, activated := true));
    }
  }

  /** So any event in which such a component runs its action takes it offline, whatever
      the number of ports, and it runs at most one tuple in it. */
  lemma {:induction false} RunningGoesOffline<V>(n: nat, run: seq<Event<V>>, e: Event<V>)
    requires n >= 1 && IsRun(n, false, run + [e])
    ensures IsRun(n, false, run)
    ensures var s, t := After(n, false, run), After(n, false, run + [e]);
      && |s.fired| <= |t.fired| <= |s.fired| + 1
      && (|t.fired| > |s.fired| ==> !t.active && (s.active || e.Activate?))
  {
    assert (run + [e])[..|run|] == run;
    OneRunPerActivation(n, false, run);
    OneRunPerActivation(n, false, run + [e]);
    LogGrows(n, run, e);
  }

  lemma {:induction false} LogGrows<V>(n: nat, run: seq<Event<V>>, e: Event<V>)
    requires n >= 1 && IsRun(n, false, run + [e]) && (run + [e])[..|run|] == run
    ensures |After(n, false, run).fired| <= |After(n, false, run + [e]).fired|
  {
    var s := After(n, false, run);
    if e.Activate? {
      DrainTurns(s.(active := true, activated := true));
    }
  }

  // ----- What is created and processed -----

  /** The arrivals that found the component offline. */
  function MetOffline<V>(n: nat, persistent: bool, run: seq<Event<V>>): nat
    requires n >= 1 && IsRun(n, persistent, run)
  {
    if run == [] then 0
    else
      var less := run[..|run| - 1];
      MetOffline(n, persistent, less) +
      if run[|run| - 1].Arrive? && !After(n, persistent, less).active then 1 else 0
  }

  function Arrivals<V>(run: seq<Event<V>>): nat
  {
    if run == [] then 0 else Arrivals(run[..|run| - 1]) + if run[|run| - 1].Arrive? then 1 else 0
  }

  lemma {:induction false} DrainCounts<V>(s: State<V>)
    requires s.active
    ensures Drain(s).created == s.created && Drain(s).n == s.n
    ensures Drain(s).processed - s.n * |Drain(s).fired| == s.processed - s.n * |s.fired|
    decreases |s.incoming|
  {
    var i := FindReady(s.incoming);
    if i < |s.incoming| {
      var t := StageAt(s, i);
      assert s.n * (|s.fired| + 1) == s.n * |s.fired| + s.n;
      if t.active { DrainCounts(t); }
    }
  }

  /** What a component with several inputs creates and processes is every value that
      arrives and every value it runs its action on; one with a single input accounts
      only for the values it had to hold. */
  ghost predicate Accounted<V>(s: State<V>, arrivals: nat, metOffline: nat)
  {
    && s.created == (if s.n == 1 then metOffline else arrivals)
    && (s.n > 1 ==> s.processed == s.n * |s.fired|)
  }

  lemma {:induction false} AcceptAccounts<V>(s: State<V>, p: nat, v: V, arrivals: nat, metOffline: nat)
    requires WellFormed(s) && p < s.n && Accounted(s, arrivals, metOffline)
    ensures Accounted(Accept(s, p, v), arrivals + 1, metOffline + if s.active then 0 else 1)
  {
    assert s.n * (|s.fired| + 1) == s.n * |s.fired| + s.n;
  }

  lemma {:induction false} QuiescenceExact<V>(n: nat, persistent: bool, run: seq<Event<V>>)
    requires n >= 1 && IsRun(n, persistent, run)
    ensures Accounted(After(n, persistent, run), Arrivals(run), MetOffline(n, persistent, run))
    decreases |run|
  {
    if run != [] {
      var before := run[..|run| - 1];
      QuiescenceExact(n, persistent, before);
      var s := After(n, persistent, before);
      match run[|run| - 1]
      case Arrive(p, v) => AcceptAccounts(s, p, v, Arrivals(before), MetOffline(n, persistent, before));
      case Activate => DrainCounts(s.(active := true, activated := true));
    }
  }
}
