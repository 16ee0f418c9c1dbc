/** Broadcasts down a spanning tree: the root numbers them with a counter of
    `w` values, every chare passes each one on to its children and handles it, and
    takes them only in the order of their numbers. */
module TreeBroadcast {

  type Node = int
  type Data = int

  /** Any rooted tree over `nodes`; `w` is the number of values of `bcast_id_t`. */
  datatype Tree = Tree(root: Node, nodes: set<Node>, parent: map<Node, Node>, depth: map<Node, nat>, w: nat) {
    ghost predicate Valid()
    {
      && w > 0 && root in nodes && depth.Keys == nodes && parent.Keys == nodes - {root}
      && forall c :: c in parent ==> parent[c] in nodes && depth[parent[c]] < depth[c]
    }
  }

  /** A broadcast as it travels: its number and what it carries. */
  datatype Bcast = Bcast(id: nat, data: Data)

  datatype State = State(
    last: map<Node, nat>,             // `last_bcast_`
    history: map<Node, seq<Bcast>>,   // what the chare has handled, in order
    link: map<Node, seq<Bcast>>,      // on its way from the parent, oldest first
    buffer: map<Node, seq<Bcast>>)    // arrived out of order

  function Init(tr: Tree): State
  {
    State(map n | n in tr.nodes :: 0, map n | n in tr.nodes :: [],
          map n | n in tr.nodes :: [], map n | n in tr.nodes :: [])
  }

  ghost predicate Shape(tr: Tree, s: State)
  {
    tr.Valid() && s.last.Keys == s.history.Keys == s.link.Keys == s.buffer.Keys == tr.nodes
  }

  /** `handle_`.  A message whose number is 0 does not count as a broadcast: it is
      handled on the spot.  An in-order broadcast goes to the children, in their
      links' order, and is handled; another one is buffered. */
  ghost function Handle(tr: Tree, s: State, n: Node, b: Bcast): State
    requires Shape(tr, s) && n in tr.nodes
  {
    if b.id == 0 then s.(history := s.history[n := s.history[n] + [b]])
    else if b.id == s.last[n] + 1 then
      s.(last := s.last[n := s.last[n] + 1],
      history := s.history[n := s.history[n] + [b]],
      link := map c | c in tr.nodes :: if c in tr.parent && tr.parent[c] == n then s.link[c] + [b] else s.link[c])
    else s.(buffer := s.buffer[n := s.buffer[n] + [b]])
  }

  /** The number after `last`, as far as the counter's type can tell. */
  function NextId(last: nat, w: nat): nat
    requires w > 0
  {
    (last + 1) % w
  }

  datatype Step = Start(data: Data) | Deliver(n: Node)

  ghost predicate Enabled(tr: Tree, s: State, st: Step)
  {
    Shape(tr, s) && (st.Deliver? ==> st.n in tr.parent && s.link[st.n] != [])
  }

  /** A new broadcast gets the number after the root's last one. */
  ghost function Next(tr: Tree, s: State, st: Step): (r: State)
    requires Enabled(tr, s, st)
    ensures Shape(tr, r)
  {
    match st
    case Start(data) => Handle(tr, s, tr.root, Bcast(NextId(s.last[tr.root], tr.w), data))
    case Deliver(n) => Handle(tr, s.(link := s.link[n := s.link[n][1..]]), n, s.link[n][0])
  }

  ghost predicate IsRun(tr: Tree, run: seq<Step>)
    decreases |run|, 0
  {
    run == [] || (IsRun(tr, run[..|run| - 1]) && Enabled(tr, After(tr, run[..|run| - 1]), run[|run| - 1]))
  }

  ghost function After(tr: Tree, run: seq<Step>): State
    requires IsRun(tr, run)
    decreases |run|, 1
  {
    if run == [] then Init(tr) else Next(tr, After(tr, run[..|run| - 1]), run[|run| - 1])
  }

  // ---------------------------------------------------------------- the invariant

  /** The part of a chare's history that travels: all of it, except at the root
      once the counter has wrapped. */
  ghost function Travels(tr: Tree, s: State, n: Node): seq<Bcast>
    requires Shape(tr, s) && n in tr.nodes
  {
    var h := s.history[n];
    if |h| < tr.w then h else h[..tr.w - 1]
  }

  ghost predicate NodeOk(tr: Tree, s: State, n: Node)
    requires Shape(tr, s) && n in tr.nodes
  {
    && s.last[n] == |Travels(tr, s, n)|
    && s.buffer[n] == []
    && (n != tr.root ==> |s.history[n]| < tr.w)
    && forall i :: 0 <= i < |s.history[n]| ==> s.history[n][i].id == if i + 1 < tr.w then i + 1 else 0
  }

  /** Nothing is lost between a chare and its child. */
  ghost predicate LinkOk(tr: Tree, s: State, c: Node)
    requires Shape(tr, s) && c in tr.parent
  {
    Travels(tr, s, tr.parent[c]) == s.history[c] + s.link[c]
  }

  ghost predicate Inv(tr: Tree, s: State)
  {
    && Shape(tr, s)
    && (forall n :: n in tr.nodes ==> NodeOk(tr, s, n))
    && (forall c :: c in tr.parent ==> LinkOk(tr, s, c))
  }

  lemma {:induction false} InitInv(tr: Tree)
    requires tr.Valid()
    ensures Inv(tr, Init(tr))
  {
    var s := Init(tr);
    forall c | c in tr.parent ensures LinkOk(tr, s, c) {
      assert c in tr.nodes;
    }
  }

  /** Chare `n` took the next broadcast, from its link if it is not the root. */
  ghost predicate Took(tr: Tree, s: State, n: Node, b: Bcast, s': State)
  {
    && Inv(tr, s) && Shape(tr, s') && n in tr.nodes
    && b.id == s.last[n] + 1 && |s.history[n]| + 1 < tr.w
    && s'.last == s.last[n := s.last[n] + 1] && s'.buffer == s.buffer
    && s'.history == s.history[n := s.history[n] + [b]]
    && (n in tr.parent ==> s.link[n] == [b] + s'.link[n])
    && forall c :: c in tr.parent && c != n ==> s'.link[c] == s.link[c] + if tr.parent[c] == n then [b] else []
  }

  lemma {:induction false} TookNode(tr: Tree, s: State, n: Node, b: Bcast, s': State, m: Node)
    requires Took(tr, s, n, b, s') && m in tr.nodes
    ensures NodeOk(tr, s', m)
  {
    assert NodeOk(tr, s, m);
  }

  lemma {:induction false} TookLink(tr: Tree, s: State, n: Node, b: Bcast, s': State, c: Node)
    requires Took(tr, s, n, b, s') && c in tr.parent
    ensures LinkOk(tr, s', c)
  {
    var p := tr.parent[c];
    assert LinkOk(tr, s, c) && p != c;
    assert NodeOk(tr, s, n);
    if c == n {
      assert s.history[c] + ([b] + s'.link[c]) == (s.history[c] + [b]) + s'.link[c];
    } else if p == n {
      assert Travels(tr, s', p) == Travels(tr, s, p) + [b];
      assert (s.history[c] + s.link[c]) + [b] == s.history[c] + (s.link[c] + [b]);
    } else {
      assert s.link[c] + [] == s.link[c];
    }
  }

  lemma {:induction false} TookInv(tr: Tree, s: State, n: Node, b: Bcast, s': State)
    requires Took(tr, s, n, b, s')
    ensures Inv(tr, s')
  {
    forall m | m in tr.nodes ensures NodeOk(tr, s', m) {
      TookNode(tr, s, n, b, s', m);
    }
    forall c | c in tr.parent ensures LinkOk(tr, s', c) {
      TookLink(tr, s, n, b, s', c);
    }
  }

  lemma {:induction false} Wraps(w: nat)
    requires w > 0
    ensures w % w == 0
  {
  }

  /** A broadcast the root cannot number stays at the root. */
  lemma {:induction false} WrapKeeps(tr: Tree, s: State, b: Bcast, s': State)
    requires Inv(tr, s) && |s.history[tr.root]| + 1 >= tr.w && b.id == 0
    requires s' == s.(history := s.history[tr.root := s.history[tr.root] + [b]])
    ensures Inv(tr, s')
  {
    assert Travels(tr, s', tr.root) == Travels(tr, s, tr.root);
    forall m | m in tr.nodes ensures NodeOk(tr, s', m) {
      assert NodeOk(tr, s, m);
    }
    forall c | c in tr.parent ensures LinkOk(tr, s', c) {
      assert LinkOk(tr, s, c);
    }
  }

  lemma {:induction false} StartNumbered(tr: Tree, s: State, data: Data)
    requires Inv(tr, s) && |s.history[tr.root]| + 1 < tr.w
    ensures Inv(tr, Next(tr, s, Start(data)))
  {
    assert NodeOk(tr, s, tr.root);
    assert (s.last[tr.root] + 1) % tr.w == s.last[tr.root] + 1;
    var b := Bcast(s.last[tr.root] + 1, data);
    TookInv(tr, s, tr.root, b, Handle(tr, s, tr.root, b));
  }

  lemma {:induction false} StartInv(tr: Tree, s: State, data: Data)
    requires Inv(tr, s)
    ensures Inv(tr, Next(tr, s, Start(data)))
  {
    assert NodeOk(tr, s, tr.root);
    if |s.history[tr.root]| + 1 >= tr.w {
      Wraps(tr.w);
      WrapKeeps(tr, s, Bcast(0, data), Next(tr, s, Start(data)));
    } else {
      StartNumbered(tr, s, data);
    }
  }

  /** The oldest broadcast on a link is the next one its chare expects. */
  lemma {:induction false} NextOnLink(tr: Tree, s: State, n: Node)
    requires Inv(tr, s) && Enabled(tr, s, Deliver(n))
    ensures s.link[n][0].id == s.last[n] + 1 && |s.history[n]| + 1 < tr.w
  {
    var p := tr.parent[n];
    var k := |s.history[n]|;
    assert NodeOk(tr, s, n) && NodeOk(tr, s, p) && LinkOk(tr, s, n);
    assert Travels(tr, s, p)[k] == s.link[n][0];
    assert s.history[p][k] == s.link[n][0];
  }

  lemma {:induction false} DeliverTakes(tr: Tree, s: State, n: Node)
    requires Inv(tr, s) && Enabled(tr, s, Deliver(n))
    ensures Took(tr, s, n, s.link[n][0], Next(tr, s, Deliver(n)))
  {
    NextOnLink(tr, s, n);
    assert tr.parent[n] != n;
    DeliverLinks(tr, s, n);
  }

  lemma {:induction false} DeliverLinks(tr: Tree, s: State, n: Node)
    requires tr.Valid() && Enabled(tr, s, Deliver(n)) && s.link[n][0].id == s.last[n] + 1 && tr.parent[n] != n
    ensures var s', b := Next(tr, s, Deliver(n)), s.link[n][0];
      && s.link[n] == [b] + s'.link[n]
      && forall c :: c in tr.parent && c != n ==> s'.link[c] == s.link[c] + if tr.parent[c] == n then [b] else []
  {
    assert forall c :: c in tr.parent ==> s.link[c] + [] == s.link[c];
  }

  lemma {:induction false} DeliverInv(tr: Tree, s: State, n: Node)
    requires Inv(tr, s) && Enabled(tr, s, Deliver(n))
    ensures Inv(tr, Next(tr, s, Deliver(n)))
  {
    DeliverTakes(tr, s, n);
    TookInv(tr, s, n, s.link[n][0], Next(tr, s, Deliver(n)));
  }

  lemma {:induction false} NextInv(tr: Tree, s: State, st: Step)
    requires Inv(tr, s) && Enabled(tr, s, st)
    ensures Inv(tr, Next(tr, s, st))
  {
    match st
    case Start(data) => StartInv(tr, s, data);
    case Deliver(n) => DeliverInv(tr, s, n);
  }

  lemma {:induction false} RunInv(tr: Tree, run: seq<Step>)
    requires tr.Valid() && IsRun(tr, run)
    ensures Inv(tr, After(tr, run))
    decreases |run|
  {
    if run == [] {
      InitInv(tr);
    } else {
      RunInv(tr, run[..|run| - 1]);
      NextInv(tr, After(tr, run[..|run| - 1]), run[|run| - 1]);
    }
  }

  // ---------------------------------------------------------------- consequences

  /** Whatever its number and the state, a broadcast is not lost at a chare: it is either
      handled, last, or buffered, last; it is handled exactly if it is the next one or not
      a broadcast; and no other chare's history or buffer changes. */
  lemma {:induction false} HandledOrBuffered(tr: Tree, s: State, n: Node, b: Bcast)
    requires Shape(tr, s) && n in tr.nodes
    ensures var r := Handle(tr, s, n, b);
      && Shape(tr, r)
      && multiset(r.history[n]) + multiset(r.buffer[n])
         == multiset(s.history[n]) + multiset(s.buffer[n]) + multiset{b}
      && s.history[n] <= r.history[n] && s.buffer[n] <= r.buffer[n]
      && (r.buffer[n] == s.buffer[n] <==> b.id == 0 || b.id == s.last[n] + 1)
      && forall m :: m in tr.nodes && m != n ==> r.history[m] == s.history[m] && r.buffer[m] == s.buffer[m]
  {
    HandleAppends(tr, s, n, b);
  }

  lemma {:induction false} HandleAppends(tr: Tree, s: State, n: Node, b: Bcast)
    requires Shape(tr, s) && n in tr.nodes
    ensures var r, next := Handle(tr, s, n, b), b.id == 0 || b.id == s.last[n] + 1;
      && Shape(tr, r)
      && r.history == (if next then s.history[n := s.history[n] + [b]] else s.history)
      && r.buffer == (if next then s.buffer else s.buffer[n := s.buffer[n] + [b]])
  {
  }

  /** Every chare below the root handles the numbers 1, 2, ... once each and in
      order, and never has to buffer a broadcast; so does the root until its
      counter wraps. */
  lemma {:induction false} HandledInOrder(tr: Tree, run: seq<Step>, n: Node)
    requires tr.Valid() && IsRun(tr, run) && n in tr.nodes
    ensures Shape(tr, After(tr, run)) && After(tr, run).buffer[n] == []
    ensures var s := After(tr, run);
      && (forall i :: 0 <= i < |s.history[n]| && i + 1 < tr.w ==> s.history[n][i].id == i + 1)
      && (n != tr.root || |s.history[n]| < tr.w ==> s.last[n] == |s.history[n]|)
  {
    RunInv(tr, run);
    assert NodeOk(tr, After(tr, run), n);
  }

  /** A child's history is a prefix of its parent's, and what is missing is on the
      link between them. */
  lemma {:induction false} ChildFollowsParent(tr: Tree, run: seq<Step>, c: Node)
    requires tr.Valid() && IsRun(tr, run) && c in tr.parent
    ensures Shape(tr, After(tr, run))
    ensures var s := After(tr, run); var p := tr.parent[c];
      && s.history[c] <= s.history[p]
      && (|s.history[p]| < tr.w ==> s.history[p] == s.history[c] + s.link[c])
  {
    RunInv(tr, run);
    var s := After(tr, run);
    assert LinkOk(tr, s, c);
    assert s.history[c] <= Travels(tr, s, tr.parent[c]);
    assert Travels(tr, s, tr.parent[c]) <= s.history[tr.parent[c]];
  }

  /** All chares agree on one order: every history is a prefix of the root's. */
  lemma {:induction false} TotalOrder(tr: Tree, run: seq<Step>, n: Node)
    requires tr.Valid() && IsRun(tr, run) && n in tr.nodes
    ensures Shape(tr, After(tr, run)) && After(tr, run).history[n] <= After(tr, run).history[tr.root]
    decreases tr.depth[n]
  {
    RunInv(tr, run);
    if n != tr.root {
      ChildFollowsParent(tr, run, n);
      TotalOrder(tr, run, tr.parent[n]);
    }
  }

  ghost predicate Quiet(s: State)
  {
    forall n :: n in s.link ==> s.link[n] == []
  }

  /** When no broadcast is under way, every chare below the root has handled
      exactly the broadcasts the root could number. */
  lemma {:induction false} QuietHistories(tr: Tree, run: seq<Step>, n: Node)
    requires tr.Valid() && IsRun(tr, run) && n in tr.nodes && n != tr.root && Quiet(After(tr, run))
    ensures Shape(tr, After(tr, run))
    ensures var s := After(tr, run); s.history[n] == Travels(tr, s, tr.root)
    decreases tr.depth[n]
  {
    RunInv(tr, run);
    var s := After(tr, run);
    var p := tr.parent[n];
    assert LinkOk(tr, s, n) && s.link[n] == [];
    assert s.history[n] == Travels(tr, s, p);
    if p != tr.root {
      QuietHistories(tr, run, p);
      assert NodeOk(tr, s, p);
    }
  }

  // ---------------------------------------------------------------- how many broadcasts there may be

  /** What was started, in order. */
  ghost function Started(run: seq<Step>): seq<Data>
  {
    if run == [] then [] else Started(run[..|run| - 1]) + if run[|run| - 1].Start? then [run[|run| - 1].data] else []
  }

  /** The history is of the first broadcasts started, in order, with what they carry. */
  ghost predicate Carries(w: nat, h: seq<Bcast>, started: seq<Data>)
  {
    |h| <= |started| && forall i :: 0 <= i < |h| ==> h[i] == Bcast(Number(w, i), started[i])
  }

  /** The number of the broadcast after the first `i`. */
  function Number(w: nat, i: nat): nat
  {
    if i + 1 < w then i + 1 else 0
  }

  lemma {:induction false} CarriesMore(w: nat, h: seq<Bcast>, started: seq<Data>, data: Data)
    requires Carries(w, h, started) && |h| == |started|
    ensures Carries(w, h + [Bcast(Number(w, |h|), data)], started + [data])
  {
  }

  lemma {:induction false} RootNumber(tr: Tree, s: State)
    requires Inv(tr, s)
    ensures NextId(s.last[tr.root], tr.w) == Number(tr.w, |s.history[tr.root]|)
    ensures NextId(s.last[tr.root], tr.w) == 0 || NextId(s.last[tr.root], tr.w) == s.last[tr.root] + 1
  {
    assert NodeOk(tr, s, tr.root);
    if s.last[tr.root] + 1 < tr.w { SmallId(s.last[tr.root], tr.w); } else { Wraps(tr.w); }
  }

  lemma {:induction false} HandledNow(tr: Tree, s: State, n: Node, b: Bcast)
    requires Shape(tr, s) && n in tr.nodes && (b.id == 0 || b.id == s.last[n] + 1)
    ensures Handle(tr, s, n, b).history == s.history[n := s.history[n] + [b]]
  {
  }

  /** A step adds to the root's history what it starts. */
  lemma {:induction false} StepHandled(tr: Tree, s: State, st: Step)
    requires Inv(tr, s) && Enabled(tr, s, st)
    ensures var h := s.history[tr.root];
      Next(tr, s, st).history[tr.root] == h + if st.Start? then [Bcast(Number(tr.w, |h|), st.data)] else []
  {
    match st
    case Start(data) =>
      RootNumber(tr, s);
      HandledNow(tr, s, tr.root, Bcast(NextId(s.last[tr.root], tr.w), data));
    case Deliver(n) => DeliverElsewhere(tr, s, n);
  }

  lemma {:induction false} DeliverElsewhere(tr: Tree, s: State, n: Node)
    requires tr.Valid() && Enabled(tr, s, Deliver(n))
    ensures Next(tr, s, Deliver(n)).history[tr.root] == s.history[tr.root]
  {
  }

  /** The root handles every broadcast when it is started. */
  lemma {:induction false} StartsHandled(tr: Tree, run: seq<Step>)
    requires tr.Valid() && IsRun(tr, run)
    ensures Shape(tr, After(tr, run)) && Carries(tr.w, After(tr, run).history[tr.root], Started(run))
    ensures |After(tr, run).history[tr.root]| == |Started(run)|
    decreases |run|
  {
    if run != [] {
      var less, st := run[..|run| - 1], run[|run| - 1];
      StartsHandled(tr, less);
      RunInv(tr, less);
      StepHandled(tr, After(tr, less), st);
      if st.Start? {
        CarriesMore(tr.w, After(tr, less).history[tr.root], Started(less), st.data);
      }
    }
  }

  /** What any chare has handled is what was started at the root, in that order: no data
      is changed, dropped or repeated on the way down the tree. */
  lemma {:induction false} HandlesStarted(tr: Tree, run: seq<Step>, n: Node)
    requires tr.Valid() && IsRun(tr, run) && n in tr.nodes
    ensures Shape(tr, After(tr, run)) && Carries(tr.w, After(tr, run).history[n], Started(run))
  {
    StartsHandled(tr, run);
    TotalOrder(tr, run, n);
  }

  /** When no broadcast is under way, every chare below the root has handled all that was
      started, up to the last number. */
  lemma {:induction false} QuietHandled(tr: Tree, run: seq<Step>, n: Node)
    requires tr.Valid() && IsRun(tr, run) && n in tr.nodes && n != tr.root && Quiet(After(tr, run))
    ensures Shape(tr, After(tr, run)) && Carries(tr.w, After(tr, run).history[n], Started(run))
    ensures var k := |Started(run)|; |After(tr, run).history[n]| == if k < tr.w then k else tr.w - 1
  {
    HandlesStarted(tr, run, n);
    StartsHandled(tr, run);
    QuietHistories(tr, run, n);
  }

  lemma {:induction false} SmallId(last: nat, w: nat)
    requires last + 1 < w
    ensures NextId(last, w) == last + 1
  {
  }

  /** When no broadcast is under way, all chares have the same history if and only if
      fewer than `w` broadcasts were started (65536 for 16 bits). */
  lemma {:induction false} EqualIffCounterHolds(tr: Tree, run: seq<Step>, n: Node)
    requires tr.Valid() && IsRun(tr, run) && n in tr.nodes && n != tr.root && Quiet(After(tr, run))
    ensures Shape(tr, After(tr, run))
    ensures var s := After(tr, run); s.history[n] == s.history[tr.root] <==> |Started(run)| < tr.w
  {
    QuietHistories(tr, run, n);
    StartsHandled(tr, run);
  }

  /** `todo` holds all chares with something on their link, and all below those. */
  ghost predicate Leaves(tr: Tree, s: State, todo: set<Node>)
    requires Shape(tr, s)
  {
    && todo <= tr.nodes
    && forall c :: c in tr.parent && c !in todo ==> s.link[c] == [] && tr.parent[c] !in todo
  }

  lemma {:induction false} DeliverLeaves(tr: Tree, s: State, todo: set<Node>, n: Node)
    requires Inv(tr, s) && Leaves(tr, s, todo) && n in todo && Enabled(tr, s, Deliver(n))
    ensures Leaves(tr, Next(tr, s, Deliver(n)), todo)
    ensures Next(tr, s, Deliver(n)).link[n] == s.link[n][1..]
  {
    NextOnLink(tr, s, n);
    assert tr.parent[n] != n;
  }

  lemma {:induction false} Prolong(tr: Tree, run: seq<Step>, st: Step) returns (r: seq<Step>)
    requires IsRun(tr, run) && Enabled(tr, After(tr, run), st)
    ensures IsRun(tr, r) && After(tr, r) == Next(tr, After(tr, run), st)
    ensures Shape(tr, After(tr, r)) && |Started(r)| == |Started(run)| + if st.Start? then 1 else 0
  {
    r := run + [st];
    assert r[..|run|] == run;
  }

  /** Everything on the link to `n` is delivered. */
  lemma {:induction false} EmptyLink(tr: Tree, run: seq<Step>, todo: set<Node>, n: Node) returns (r: seq<Step>)
    requires tr.Valid() && IsRun(tr, run) && Shape(tr, After(tr, run)) && Leaves(tr, After(tr, run), todo)
    requires n in todo && n in tr.parent
    ensures IsRun(tr, r) && |Started(r)| == |Started(run)| && Shape(tr, After(tr, r)) && Leaves(tr, After(tr, r), todo)
    ensures After(tr, r).link[n] == []
    decreases |After(tr, run).link[n]|
  {
    var s := After(tr, run);
    r := run;
    if s.link[n] != [] {
      RunInv(tr, run);
      DeliverLeaves(tr, s, todo, n);
      r := Prolong(tr, run, Deliver(n));
      r := EmptyLink(tr, r, todo, n);
    }
  }

  ghost function Highest(tr: Tree, todo: set<Node>): (n: Node)
    requires tr.Valid() && todo != {} && todo <= tr.nodes
    ensures n in todo && forall m :: m in todo ==> tr.depth[n] <= tr.depth[m]
  {
    assert (forall m :: m !in todo) ==> todo == {};
    var m :| m in todo;
    var rest := todo - {m};
    if rest == {} then
      assert todo == {m};
      m
    else
      var n := Highest(tr, rest);
      assert todo == rest + {m};
      if tr.depth[m] <= tr.depth[n] then m else n
  }

  lemma {:induction false} RootLink(tr: Tree, run: seq<Step>)
    requires tr.Valid() && IsRun(tr, run)
    ensures Shape(tr, After(tr, run)) && After(tr, run).link[tr.root] == []
    decreases |run|
  {
    if run != [] { RootLink(tr, run[..|run| - 1]); }
  }

  /** Any run can be continued, without a new broadcast, until nothing is under way. */
  lemma {:induction false} Quieten(tr: Tree, run: seq<Step>, todo: set<Node>) returns (r: seq<Step>)
    requires tr.Valid() && IsRun(tr, run) && Shape(tr, After(tr, run)) && Leaves(tr, After(tr, run), todo)
    ensures IsRun(tr, r) && |Started(r)| == |Started(run)| && Quiet(After(tr, r))
    decreases |todo|
  {
    r := run;
    if todo == {} {
      RootLink(tr, run);
    } else {
      var n := Highest(tr, todo);
      if n in tr.parent {
        r := EmptyLink(tr, run, todo, n);
      }
      r := Quieten(tr, r, todo - {n});
    }
  }

  lemma {:induction false} StartMany(tr: Tree, k: nat) returns (r: seq<Step>)
    requires tr.Valid()
    ensures IsRun(tr, r) && |Started(r)| == k && Shape(tr, After(tr, r))
  {
    if k == 0 {
      r := [];
    } else {
      r := StartMany(tr, k - 1);
      r := Prolong(tr, r, Start(0));
    }
  }

  /** Any number of broadcasts can be started and left to arrive everywhere. */
  lemma {:induction false} QuietRun(tr: Tree, k: nat) returns (r: seq<Step>)
    requires tr.Valid()
    ensures IsRun(tr, r) && |Started(r)| == k && Quiet(After(tr, r))
  {
    r := StartMany(tr, k);
    r := Quieten(tr, r, tr.nodes);
  }

  /** With `w` broadcasts some chare never handles the last: the histories differ in a
      run in which nothing is under way, over any tree with a second chare. */
  lemma {:induction false} CounterOverrun(tr: Tree, n: Node) returns (r: seq<Step>)
    requires tr.Valid() && n in tr.nodes && n != tr.root
    ensures IsRun(tr, r) && |Started(r)| == tr.w && Quiet(After(tr, r)) && Shape(tr, After(tr, r))
    ensures After(tr, r).history[n] != After(tr, r).history[tr.root]
  {
    r := QuietRun(tr, tr.w);
    EqualIffCounterHolds(tr, r, n);
  }

  /** All runs with `k` broadcasts end with equal histories if and only if `k < w`. */
  lemma {:induction false} AllEqualIffFewer(tr: Tree, k: nat, n: Node)
    requires tr.Valid() && n in tr.nodes && n != tr.root
    ensures (forall run :: IsRun(tr, run) && |Started(run)| == k && Quiet(After(tr, run)) ==> SameHistory(tr, run, n))
            <==> k < tr.w
  {
    if k < tr.w {
      forall run | IsRun(tr, run) && |Started(run)| == k && Quiet(After(tr, run)) ensures SameHistory(tr, run, n) {
        EqualIffCounterHolds(tr, run, n);
      }
    } else {
      var r := QuietRun(tr, k);
      EqualIffCounterHolds(tr, r, n);
      assert !SameHistory(tr, r, n);
    }
  }

  ghost predicate SameHistory(tr: Tree, run: seq<Step>, n: Node)
    requires IsRun(tr, run)
  {
    var s := After(tr, run);
    n in s.history && tr.root in s.history && s.history[n] == s.history[tr.root]
  }
}
