/** Delivery of point-to-point messages on one processing element.  A message may come
    before its collective exists there, and again before its chare does, so there are
    two levels of buffers. */
module Delivery {
  import opened Wrappers

  type CollectiveId = int
  type Index = int
  type Pe = int

  /** `mapper(c, i)` is the home of chare `i` of collective `c`. */
  type Mapper = (CollectiveId, Index) -> Pe

  datatype Message<+D> = Message(collective: CollectiveId, chare: Index, isConstructor: bool, data: D)

  datatype Packet<+D> = Packet(pe: Pe, msg: Message<D>)

  /** One collective on one processing element.  `calls` logs the entry methods run and
      `sent` the messages handed to the network, in order. */
  datatype Local<+D> = Local(
    chares: set<Index>, buffers: map<Index, seq<Message<D>>>,
    calls: seq<Message<D>>, sent: seq<Packet<D>>)

  /** `waiting` is the buffer of the collectives that do not exist yet. */
  datatype State<+D> = State(table: map<CollectiveId, Local<D>>, waiting: map<CollectiveId, seq<Message<D>>>)

  function InitLocal<D>(): Local<D>
  {
    Local({}, map[], [], [])
  }

  function Buffered<K, D>(buffers: map<K, seq<Message<D>>>, k: K): seq<Message<D>>
  {
    if k in buffers then buffers[k] else []
  }

  /** `flush_buffers`: the chare exists, so every buffered message is run. */
  function Flush<D>(s: Local<D>, i: Index): Local<D>
  {
    if i in s.buffers then s.(calls := s.calls + s.buffers[i], buffers := s.buffers[i := []]) else s
  }

  /** `try_deliver` at `me`; `None` if the message has to be buffered. */
  function TryDeliver<D>(mapper: Mapper, me: Pe, s: Local<D>, m: Message<D>): Option<Local<D>>
  {
    var pe := mapper(m.collective, m.chare);
    if m.isConstructor && pe == me then
      Some(Flush(s.(chares := s.chares + {m.chare}, calls := s.calls + [m]), m.chare))
    else if m.chare in s.chares then Some(s.(calls := s.calls + [m]))
    else if pe == me then None
    else Some(s.(sent := s.sent + [Packet(pe, m)]))
  }

  function DeliverNow<D>(mapper: Mapper, me: Pe, s: Local<D>, m: Message<D>): Local<D>
  {
    var r := TryDeliver(mapper, me, s, m);
    if r.Some? then r.value
    else s.(buffers := s.buffers[m.chare := Buffered(s.buffers, m.chare) + [m]])
  }

  function DeliverLater<D>(mapper: Mapper, s: Local<D>, m: Message<D>): Local<D>
  {
    s.(sent := s.sent + [Packet(mapper(m.collective, m.chare), m)])
  }

  function Deliver<D>(mapper: Mapper, me: Pe, s: Local<D>, m: Message<D>, immediate: bool): Local<D>
  {
    if immediate then DeliverNow(mapper, me, s, m) else DeliverLater(mapper, s, m)
  }

  function DeliverAll<D>(mapper: Mapper, me: Pe, s: Local<D>, msgs: seq<Message<D>>): Local<D>
    decreases |msgs|
  {
    if msgs == [] then s
    else DeliverNow(mapper, me, DeliverAll(mapper, me, s, msgs[..|msgs| - 1]), msgs[|msgs| - 1])
  }

  /** A collective is created here; a message reaches the endpoint (`immediate`); or a
      message is passed to `send`. */
  datatype Event<+D> = Make(collective: CollectiveId) | Arrive(msg: Message<D>) | Post(msg: Message<D>)

  /** The assertion on inserting a collective. */
  predicate Enabled<D>(s: State<D>, e: Event<D>)
  {
    e.Make? ==> e.collective !in s.table
  }

  function Create<D>(mapper: Mapper, me: Pe, s: State<D>, c: CollectiveId): State<D>
  {
    State(s.table[c := DeliverAll(mapper, me, InitLocal(), Buffered(s.waiting, c))],
          if c in s.waiting then s.waiting[c := []] else s.waiting)
  }

  function Endpoint<D>(mapper: Mapper, me: Pe, s: State<D>, m: Message<D>, immediate: bool): State<D>
  {
    var c := m.collective;
    if c in s.table then s.(table := s.table[c := Deliver(mapper, me, s.table[c], m, immediate)])
    else s.(waiting := s.waiting[c := Buffered(s.waiting, c) + [m]])
  }

  function Apply<D>(mapper: Mapper, me: Pe, s: State<D>, e: Event<D>): State<D>
  {
    match e
    case Make(c) => Create(mapper, me, s, c)
    case Arrive(m) => Endpoint(mapper, me, s, m, true)
    case Post(m) => Endpoint(mapper, me, s, m, false)
  }

  function After<D>(mapper: Mapper, me: Pe, run: seq<Event<D>>): State<D>
  {
    if run == [] then State(map[], map[])
    else Apply(mapper, me, After(mapper, me, run[..|run| - 1]), run[|run| - 1])
  }

  ghost predicate IsRun<D>(mapper: Mapper, me: Pe, run: seq<Event<D>>)
  {
    run == [] ||
    (IsRun(mapper, me, run[..|run| - 1]) && Enabled(After(mapper, me, run[..|run| - 1]), run[|run| - 1]))
  }

  // ----- The reference: what one chare should see -----

  predicate For<D>(m: Message<D>, c: CollectiveId, i: Index)
  {
    m.collective == c && m.chare == i
  }

  function AddIf<T>(s: seq<T>, yes: bool, x: T): seq<T>
  {
    if yes then s + [x] else s
  }

  /** The messages for one chare, in order. */
  function Only<D>(msgs: seq<Message<D>>, c: CollectiveId, i: Index): seq<Message<D>>
  {
    if msgs == [] then []
    else AddIf(Only(msgs[..|msgs| - 1], c, i), For(msgs[|msgs| - 1], c, i), msgs[|msgs| - 1])
  }

  function OnlySent<D>(sent: seq<Packet<D>>, c: CollectiveId, i: Index): seq<Packet<D>>
  {
    if sent == [] then []
    else AddIf(OnlySent(sent[..|sent| - 1], c, i), For(sent[|sent| - 1].msg, c, i), sent[|sent| - 1])
  }

  predicate Made<D>(run: seq<Event<D>>, c: CollectiveId)
  {
    run != [] && ((run[|run| - 1].Make? && run[|run| - 1].collective == c) || Made(run[..|run| - 1], c))
  }

  /** The messages for a chare that reach it here, in order: those that arrive, and those
      passed to `send` before the collective existed, which are not routed again. */
  function Reaching<D>(run: seq<Event<D>>, c: CollectiveId, i: Index): seq<Message<D>>
  {
    if run == [] then []
    else
      var (rest, e) := (run[..|run| - 1], run[|run| - 1]);
      if e.Make? then Reaching(rest, c, i)
      else AddIf(Reaching(rest, c, i), For(e.msg, c, i) && (e.Arrive? || !Made(rest, c)), e.msg)
  }

  /** The messages for a chare that are routed to its home, in order. */
  function Routed<D>(run: seq<Event<D>>, c: CollectiveId, i: Index, isHome: bool): seq<Message<D>>
  {
    if run == [] then []
    else
      var (rest, e) := (run[..|run| - 1], run[|run| - 1]);
      if e.Make? then Routed(rest, c, i, isHome)
      else AddIf(Routed(rest, c, i, isHome), For(e.msg, c, i) && (!isHome || (e.Post? && Made(rest, c))), e.msg)
  }

  /** The position of the first constructor; `|msgs|` if there is none. */
  function FirstConstructor<D>(msgs: seq<Message<D>>): (k: nat)
    ensures k <= |msgs| && (k < |msgs| ==> msgs[k].isConstructor)
    ensures forall j :: 0 <= j < k ==> !msgs[j].isConstructor
  {
    if msgs == [] then 0 else if msgs[0].isConstructor then 0 else 1 + FirstConstructor(msgs[1..])
  }

  predicate HasConstructor<D>(msgs: seq<Message<D>>)
  {
    FirstConstructor(msgs) < |msgs|
  }

  /** The messages with the first constructor moved to the front. */
  function ConstructorFirst<D>(msgs: seq<Message<D>>): (r: seq<Message<D>>)
    requires HasConstructor(msgs)
  {
    var k := FirstConstructor(msgs);
    [msgs[k]] + msgs[..k] + msgs[k + 1..]
  }

  function Packets<D>(pe: Pe, msgs: seq<Message<D>>): (r: seq<Packet<D>>)
    ensures |r| == |msgs| && forall k :: 0 <= k < |r| ==> r[k] == Packet(pe, msgs[k])
  {
    seq(|msgs|, k requires 0 <= k < |msgs| => Packet(pe, msgs[k]))
  }

  /** What has become of the messages for chare `i` of `c`: `reached` reached it here,
      `routed` were routed to its home. */
  ghost predicate Agrees<D>(
    mapper: Mapper, me: Pe, s: Local<D>, c: CollectiveId, i: Index, reached: seq<Message<D>>, routed: seq<Message<D>>)
  {
    && OnlySent(s.sent, c, i) == Packets(mapper(c, i), routed)
    && (if mapper(c, i) != me then i !in s.chares && Buffered(s.buffers, i) == [] && Only(s.calls, c, i) == []
        else if HasConstructor(reached) then
          i in s.chares && Buffered(s.buffers, i) == [] && Only(s.calls, c, i) == ConstructorFirst(reached)
        else i !in s.chares && Buffered(s.buffers, i) == reached && Only(s.calls, c, i) == [])
  }

  /** Buffers hold messages for their own chare. */
  ghost predicate Sorted<D>(s: Local<D>, c: CollectiveId)
  {
    forall i, m :: i in s.buffers && m in s.buffers[i] ==> For(m, c, i)
  }

  // ----- Sequences -----

  lemma {:induction false} OnlyAppend<D>(a: seq<Message<D>>, b: seq<Message<D>>, c: CollectiveId, i: Index)
    ensures Only(a + b, c, i) == Only(a, c, i) + Only(b, c, i)
  {
    if b == [] {
      assert a + b == a;
    } else {
      var less := b[..|b| - 1];
      OnlyAppend(a, less, c, i);
      assert (a + b)[..|a + b| - 1] == a + less;
    }
  }

  lemma {:induction false} OnlyPlus<D>(a: seq<Message<D>>, m: Message<D>, c: CollectiveId, i: Index)
    ensures Only(a + [m], c, i) == AddIf(Only(a, c, i), For(m, c, i), m)
  {
    assert (a + [m])[..|a|] == a;
  }

  lemma {:induction false} OnlyAll<D>(a: seq<Message<D>>, c: CollectiveId, i: Index)
    requires forall m :: m in a ==> For(m, c, i)
    ensures Only(a, c, i) == a
  {
    if a != [] {
      OnlyAll(a[..|a| - 1], c, i);
    }
  }

  lemma {:induction false} OnlyNone<D>(a: seq<Message<D>>, c: CollectiveId, i: Index)
    requires forall m :: m in a ==> !For(m, c, i)
    ensures Only(a, c, i) == []
  {
    if a != [] {
      OnlyNone(a[..|a| - 1], c, i);
    }
  }

  lemma {:induction false} SentPlus<D>(sent: seq<Packet<D>>, pe: Pe, m: Message<D>, c: CollectiveId, i: Index)
    ensures OnlySent(sent + [Packet(pe, m)], c, i) ==
            AddIf(OnlySent(sent, c, i), For(m, c, i), Packet(pe, m))
  {
    assert (sent + [Packet(pe, m)])[..|sent|] == sent;
  }

  /** One more message after the first constructor keeps its place; the first
      constructor overtakes what was there. */
  lemma {:induction false} ConstructorPlus<D>(a: seq<Message<D>>, m: Message<D>)
    ensures HasConstructor(a + [m]) <==> (HasConstructor(a) || m.isConstructor)
    ensures HasConstructor(a) ==> ConstructorFirst(a + [m]) == ConstructorFirst(a) + [m]
    ensures !HasConstructor(a) && m.isConstructor ==> ConstructorFirst(a + [m]) == [m] + a
  {
    var more := a + [m];
    var k, l := FirstConstructor(a), FirstConstructor(more);
    assert forall j :: 0 <= j < |a| ==> more[j] == a[j];
    if k < |a| {
      assert more[k].isConstructor;
      assert l == k;
      assert more[..k] == a[..k] && more[k + 1..] == a[k + 1..] + [m];
    } else {
      assert forall j :: 0 <= j < |a| ==> !more[j].isConstructor;
      assert l >= |a|;
      assert m == more[|a|];
      assert l == if m.isConstructor then |a| else |a| + 1;
      assert more[..|a|] == a && more[|a| + 1..] == [];
    }
  }

  // ----- One message -----

  lemma {:induction false} NowSorted<D>(mapper: Mapper, me: Pe, s: Local<D>, m: Message<D>)
    requires Sorted(s, m.collective)
    ensures Sorted(DeliverNow(mapper, me, s, m), m.collective)
  {
  }

  /** A message leaves the other chares alone. */
  lemma {:induction false} NowOther<D>(
      mapper: Mapper, me: Pe, s: Local<D>, m: Message<D>, i: Index, reached: seq<Message<D>>, routed: seq<Message<D>>)
    requires Sorted(s, m.collective) && m.chare != i && Agrees(mapper, me, s, m.collective, i, reached, routed)
    ensures Agrees(mapper, me, DeliverNow(mapper, me, s, m), m.collective, i, reached, routed)
  {
    var c := m.collective;
    OnlyPlus(s.calls, m, c, i);
    SentPlus(s.sent, mapper(c, m.chare), m, c, i);
    if m.chare in s.buffers {
      var held := s.buffers[m.chare];
      OnlyNone(held, c, i);
      OnlyAppend(s.calls + [m], held, c, i);
    }
  }

  /** The constructor is run, and then all that waited for it. */
  lemma {:induction false} NowBuilt<D>(
      mapper: Mapper, me: Pe, s: Local<D>, m: Message<D>, reached: seq<Message<D>>, routed: seq<Message<D>>)
    requires Sorted(s, m.collective) && Agrees(mapper, me, s, m.collective, m.chare, reached, routed)
    requires mapper(m.collective, m.chare) == me && m.isConstructor
    ensures Agrees(mapper, me, DeliverNow(mapper, me, s, m), m.collective, m.chare, reached + [m], routed)
  {
    var c, i := m.collective, m.chare;
    OnlyPlus(s.calls, m, c, i);
    ConstructorPlus(reached, m);
    var held := Buffered(s.buffers, i);
    OnlyAll(held, c, i);
    OnlyAppend(s.calls + [m], held, c, i);
  }

  lemma {:induction false} NowOrdinary<D>(
      mapper: Mapper, me: Pe, s: Local<D>, m: Message<D>, reached: seq<Message<D>>, routed: seq<Message<D>>)
    requires Agrees(mapper, me, s, m.collective, m.chare, reached, routed)
    requires mapper(m.collective, m.chare) == me && !m.isConstructor
    ensures Agrees(mapper, me, DeliverNow(mapper, me, s, m), m.collective, m.chare, reached + [m], routed)
  {
    OnlyPlus(s.calls, m, m.collective, m.chare);
    ConstructorPlus(reached, m);
  }

  lemma {:induction false} NowAway<D>(
      mapper: Mapper, me: Pe, s: Local<D>, m: Message<D>, reached: seq<Message<D>>, routed: seq<Message<D>>)
    requires Agrees(mapper, me, s, m.collective, m.chare, reached, routed)
    requires mapper(m.collective, m.chare) != me
    ensures Agrees(mapper, me, DeliverNow(mapper, me, s, m), m.collective, m.chare, reached + [m], routed + [m])
  {
    var pe := mapper(m.collective, m.chare);
    SentPlus(s.sent, pe, m, m.collective, m.chare);
    assert Packets(pe, routed + [m]) == Packets(pe, routed) + [Packet(pe, m)];
  }

  lemma {:induction false} NowAgrees<D>(
      mapper: Mapper, me: Pe, s: Local<D>, m: Message<D>, i: Index, reached: seq<Message<D>>, routed: seq<Message<D>>)
    requires Sorted(s, m.collective) && Agrees(mapper, me, s, m.collective, i, reached, routed)
    ensures Agrees(mapper, me, DeliverNow(mapper, me, s, m), m.collective, i, AddIf(reached, m.chare == i, m),
                   AddIf(routed, m.chare == i && mapper(m.collective, i) != me, m))
  {
    if m.chare == i {
      if mapper(m.collective, i) == me && m.isConstructor {
        NowBuilt(mapper, me, s, m, reached, routed);
      } else if mapper(m.collective, i) == me {
        NowOrdinary(mapper, me, s, m, reached, routed);
      } else {
        NowAway(mapper, me, s, m, reached, routed);
      }
    } else {
      NowOther(mapper, me, s, m, i, reached, routed);
    }
  }

  lemma {:induction false} LaterAgrees<D>(
      mapper: Mapper, me: Pe, s: Local<D>, m: Message<D>, i: Index, reached: seq<Message<D>>, routed: seq<Message<D>>)
    requires Agrees(mapper, me, s, m.collective, i, reached, routed)
    ensures Agrees(mapper, me, DeliverLater(mapper, s, m), m.collective, i, reached,
                   AddIf(routed, m.chare == i, m))
  {
    var c := m.collective;
    var pe := mapper(c, m.chare);
    SentPlus(s.sent, pe, m, c, i);
    assert Packets(mapper(c, i), routed + [m]) == Packets(mapper(c, i), routed) + [Packet(mapper(c, i), m)];
  }

  /** A collective that is created is given all that waited for it. */
  lemma {:induction false} AllAgrees<D>(mapper: Mapper, me: Pe, msgs: seq<Message<D>>, c: CollectiveId, i: Index)
    requires forall m :: m in msgs ==> m.collective == c
    ensures var t, mine := DeliverAll(mapper, me, InitLocal(), msgs), Only(msgs, c, i);
            Sorted(t, c) && Agrees(mapper, me, t, c, i, mine, if mapper(c, i) == me then [] else mine)
    decreases |msgs|
  {
    if msgs != [] {
      var less, m := msgs[..|msgs| - 1], msgs[|msgs| - 1];
      AllAgrees(mapper, me, less, c, i);
      var t, mine := DeliverAll(mapper, me, InitLocal(), less), Only(less, c, i);
      NowSorted(mapper, me, t, m);
      NowAgrees(mapper, me, t, m, i, mine, if mapper(c, i) == me then [] else mine);
    }
  }

  // ----- Runs -----

  /** What a run has done for chare `i` of `c`. */
  ghost predicate Served<D>(mapper: Mapper, me: Pe, s: State<D>, run: seq<Event<D>>, c: CollectiveId, i: Index)
  {
    var isHome := mapper(c, i) == me;
    if Made(run, c) then
      c in s.table && Sorted(s.table[c], c) && Buffered(s.waiting, c) == [] &&
      Agrees(mapper, me, s.table[c], c, i, Reaching(run, c, i), Routed(run, c, i, isHome))
    else
      c !in s.table && (forall m :: m in Buffered(s.waiting, c) ==> m.collective == c) &&
      Only(Buffered(s.waiting, c), c, i) == Reaching(run, c, i) &&
      Routed(run, c, i, isHome) == if isHome then [] else Reaching(run, c, i)
  }

  lemma {:induction false} MakeServes<D>(
      mapper: Mapper, me: Pe, s: State<D>, run: seq<Event<D>>, d: CollectiveId, c: CollectiveId, i: Index)
    requires run != [] && run[|run| - 1] == Make(d) && Served(mapper, me, s, run[..|run| - 1], c, i) && d !in s.table
    ensures Served(mapper, me, Create(mapper, me, s, d), run, c, i)
  {
    var rest := run[..|run| - 1];
    var isHome := mapper(c, i) == me;
    assert Reaching(run, c, i) == Reaching(rest, c, i);
    assert Routed(run, c, i, isHome) == Routed(rest, c, i, isHome);
    if d == c {
      AllAgrees(mapper, me, Buffered(s.waiting, c), c, i);
    }
  }

  lemma {:induction false} EarlyServes<D>(
      mapper: Mapper, me: Pe, s: State<D>, run: seq<Event<D>>, m: Message<D>, immediate: bool, c: CollectiveId,
          i: Index)
    requires run != [] && run[|run| - 1] == (if immediate then Arrive(m) else Post(m))
    requires Served(mapper, me, s, run[..|run| - 1], c, i) && !Made(run[..|run| - 1], c)
    ensures Served(mapper, me, Endpoint(mapper, me, s, m, immediate), run, c, i)
  {
    OnlyPlus(Buffered(s.waiting, c), m, c, i);
  }

  lemma {:induction false} MessageAgrees<D>(
      mapper: Mapper, me: Pe, t: Local<D>, m: Message<D>, immediate: bool, c: CollectiveId, i: Index,
      a: seq<Message<D>>, r: seq<Message<D>>)
    requires m.collective == c && Sorted(t, c) && Agrees(mapper, me, t, c, i, a, r)
    ensures Sorted(Deliver(mapper, me, t, m, immediate), c)
    ensures Agrees(mapper, me, Deliver(mapper, me, t, m, immediate), c, i, AddIf(a, For(m, c, i) && immediate, m),
                   AddIf(r, For(m, c, i) && (mapper(c, i) != me || !immediate), m))
  {
    if immediate {
      NowSorted(mapper, me, t, m);
      NowAgrees(mapper, me, t, m, i, a, r);
    } else {
      LaterAgrees(mapper, me, t, m, i, a, r);
    }
  }

  /** What a message adds to the reference once the collective is made. */
  lemma {:induction false} ReferenceGrows<D>(
      run: seq<Event<D>>, m: Message<D>, immediate: bool, c: CollectiveId, i: Index, isHome: bool)
    requires run != [] && run[|run| - 1] == (if immediate then Arrive(m) else Post(m)) && Made(run[..|run| - 1], c)
    ensures Made(run, c)
    ensures Reaching(run, c, i) == AddIf(Reaching(run[..|run| - 1], c, i), For(m, c, i) && immediate, m)
    ensures Routed(run, c, i, isHome) ==
            AddIf(Routed(run[..|run| - 1], c, i, isHome), For(m, c, i) && (!isHome || !immediate), m)
  {
  }

  lemma {:induction false} MessageServes<D>(
      mapper: Mapper, me: Pe, s: State<D>, run: seq<Event<D>>, m: Message<D>, immediate: bool, c: CollectiveId,
          i: Index)
    requires run != [] && run[|run| - 1] == (if immediate then Arrive(m) else Post(m))
    requires Served(mapper, me, s, run[..|run| - 1], c, i) && Made(run[..|run| - 1], c)
    ensures Served(mapper, me, Endpoint(mapper, me, s, m, immediate), run, c, i)
  {
    var rest := run[..|run| - 1];
    var isHome := mapper(c, i) == me;
    ReferenceGrows(run, m, immediate, c, i, isHome);
    if m.collective == c {
      MessageAgrees(mapper, me, s.table[c], m, immediate, c, i, Reaching(rest, c, i), Routed(rest, c, i, isHome));
    }
  }

  /** Two-level buffering: however the creation of the collective, the construction of
      the chare and the arrival of messages interleave, every message for a chare at
      home here that has reached it is run exactly once, in the order of arrival except
      that the constructor comes first; before, all are buffered, once, in order; and
      every message for a chare at home elsewhere is routed there once, in order. */
  lemma {:induction false} HandledOnceInOrder<D>(
      mapper: Mapper, me: Pe, run: seq<Event<D>>, c: CollectiveId, i: Index)
    requires IsRun(mapper, me, run)
    ensures Served(mapper, me, After(mapper, me, run), run, c, i)
    decreases |run|
  {
    if run != [] {
      var rest := run[..|run| - 1];
      HandledOnceInOrder(mapper, me, rest, c, i);
      var s := After(mapper, me, rest);
      match run[|run| - 1]
      case Make(d) => MakeServes(mapper, me, s, run, d, c, i);
      case Arrive(m) =>
        if Made(rest, c) {
          MessageServes(mapper, me, s, run, m, true, c, i);
        } else {
          EarlyServes(mapper, me, s, run, m, true, c, i);
        }
      case Post(m) =>
        if Made(rest, c) {
          MessageServes(mapper, me, s, run, m, false, c, i);
        } else {
          EarlyServes(mapper, me, s, run, m, false, c, i);
        }
    }
  }

  lemma {:induction false} MovedToFront<D>(msgs: seq<Message<D>>)
    requires HasConstructor(msgs)
    ensures multiset(ConstructorFirst(msgs)) == multiset(msgs)
    ensures ConstructorFirst(msgs) == msgs <==> msgs[0].isConstructor
  {
    var k := FirstConstructor(msgs);
    var a, b := msgs[..k], msgs[k + 1..];
    assert msgs == a + [msgs[k]] + b;
    assert ConstructorFirst(msgs) == [msgs[k]] + a + b;
    assert multiset(msgs) == multiset(a) + multiset([msgs[k]]) + multiset(b);
    assert ConstructorFirst(msgs)[0] == msgs[k];
  }

  /** Once collective and chare exist, the runs on the chare are a permutation of the
      messages that reached it, and keep the order of arrival if and only if a
      constructor was the first of them. */
  lemma {:induction false} NothingLostOrDoubled<D>(
      mapper: Mapper, me: Pe, run: seq<Event<D>>, c: CollectiveId, i: Index)
    requires IsRun(mapper, me, run) && Made(run, c) && mapper(c, i) == me && HasConstructor(Reaching(run, c, i))
    ensures c in After(mapper, me, run).table
    ensures var reached, calls := Reaching(run, c, i), Only(After(mapper, me, run).table[c].calls, c, i);
            multiset(calls) == multiset(reached) && (calls == reached <==> reached[0].isConstructor)
  {
    HandledOnceInOrder(mapper, me, run, c, i);
    MovedToFront(Reaching(run, c, i));
  }

  // ----- Conservation over both levels -----

  /** Everything that arrives or is posted for a chare, in order. */
  function Given<D>(run: seq<Event<D>>, c: CollectiveId, i: Index): seq<Message<D>>
  {
    if run == [] then []
    else
      var (rest, e) := (run[..|run| - 1], run[|run| - 1]);
      if e.Make? then Given(rest, c, i) else AddIf(Given(rest, c, i), For(e.msg, c, i), e.msg)
  }

  function Unpacked<D>(sent: seq<Packet<D>>): (r: seq<Message<D>>)
    ensures |r| == |sent| && forall k :: 0 <= k < |r| ==> r[k] == sent[k].msg
  {
    seq(|sent|, k requires 0 <= k < |sent| => sent[k].msg)
  }

  /** All messages for a chare that are anywhere on this processing element, or were run
      or sent on by it. */
  ghost function Everywhere<D>(s: State<D>, c: CollectiveId, i: Index): multiset<Message<D>>
  {
    multiset(Only(Buffered(s.waiting, c), c, i)) +
    if c !in s.table then multiset{}
    else
      var t := s.table[c];
      multiset(Buffered(t.buffers, i)) + multiset(Only(t.calls, c, i)) + multiset(Unpacked(OnlySent(t.sent, c, i)))
  }

  /** What is given either reaches the chare here or is routed, at its home; elsewhere it
      is routed. */
  lemma {:induction false} GivenSplits<D>(run: seq<Event<D>>, c: CollectiveId, i: Index)
    ensures multiset(Given(run, c, i)) == multiset(Reaching(run, c, i)) + multiset(Routed(run, c, i, true))
    ensures Given(run, c, i) == Routed(run, c, i, false)
  {
    if run != [] { GivenSplits(run[..|run| - 1], c, i); }
  }

  lemma {:induction false} UnpackPackets<D>(pe: Pe, msgs: seq<Message<D>>)
    ensures Unpacked(Packets(pe, msgs)) == msgs
  {
  }

  /** Conservation: at any time every message ever given for a chare, whenever its
      collective and the chare were made, is in exactly one place, once: waiting for the
      collective, buffered for the chare, run, or sent to the chare's home.  Nothing waits
      for a collective that is made. */
  lemma {:induction false} EachInOnePlace<D>(mapper: Mapper, me: Pe, run: seq<Event<D>>, c: CollectiveId, i: Index)
    requires IsRun(mapper, me, run)
    ensures multiset(Given(run, c, i)) == Everywhere(After(mapper, me, run), c, i)
    ensures Made(run, c) <==> c in After(mapper, me, run).table
    ensures Made(run, c) ==> Buffered(After(mapper, me, run).waiting, c) == []
  {
    HandledOnceInOrder(mapper, me, run, c, i);
    GivenSplits(run, c, i);
    var isHome := mapper(c, i) == me;
    UnpackPackets(mapper(c, i), Routed(run, c, i, isHome));
    if Made(run, c) && isHome && HasConstructor(Reaching(run, c, i)) {
      MovedToFront(Reaching(run, c, i));
    }
  }
}
