/** Migration of a workgroup: what `pup` writes and restores, and why the copy
    answers every future like the original. */
module Migration {
  import opened Kahn
  import opened Scheduler

  // ---------------------------------------------------------------- payloads

  const ADDRESSES := 0x1_0000_0000_0000_0000

  datatype Message = Message(refnum: int, bytes: seq<bv8>)

  /** A payload in memory: a message at address `base`, and a pointer and length
      into it. */
  datatype InMemory = InMemory(msg: Message, base: nat, len: nat, data: nat) {
    predicate Valid() {
      && base + |msg.bytes| <= ADDRESSES
      && base <= data
      && data + len <= base + |msg.bytes|
    }

    function Contents(): seq<bv8>
      requires Valid()
    {
      msg.bytes[data - base..data - base + len]
    }
  }

  datatype PackedPayload = PackedPayload(msg: Message, len: nat, offset: nat)

  function PackPayload(p: InMemory): PackedPayload
  {
    PackedPayload(p.msg, p.len, (p.data - p.base) % ADDRESSES)
  }

  function UnpackPayload(k: PackedPayload, base: nat): InMemory
  {
    InMemory(k.msg, base, k.len, (base + k.offset) % ADDRESSES)
  }

  /** A payload re-read at any address has the same continuation and contents. */
  lemma {:induction false} PayloadRoundTrip(p: InMemory, base: nat)
    requires p.Valid() && p.data < ADDRESSES
    requires base + |p.msg.bytes| < ADDRESSES
    ensures var q := UnpackPayload(PackPayload(p), base); q.Valid() && View(q) == View(p)
    ensures UnpackPayload(PackPayload(p), base) == p.(base := base, data := base + (p.data - p.base))
  {
    var off := p.data - p.base;
    assert 0 <= off < ADDRESSES;
    assert off % ADDRESSES == off;
    assert (base + off) % ADDRESSES == base + off;
  }

  type Bytes = seq<bv8>

  /** What a continuation gets to see of a payload. */
  function View(p: InMemory): Payload<Bytes>
    requires p.Valid()
  {
    Payload(p.msg.refnum, p.Contents())
  }

  // ---------------------------------------------------------------- queues

  type Queued = map<ContId, seq<InMemory>>

  ghost predicate AllValid(ps: seq<InMemory>)
  {
    forall i :: 0 <= i < |ps| ==> ps[i].Valid() && ps[i].data < ADDRESSES
  }

  function ViewAll(ps: seq<InMemory>): (r: seq<Payload<Bytes>>)
    requires AllValid(ps)
    ensures |r| == |ps| && forall i :: 0 <= i < |ps| ==> r[i] == View(ps[i])
  {
    seq(|ps|, i requires 0 <= i < |ps| => View(ps[i]))
  }

  function PackAll(ps: seq<InMemory>): (r: seq<PackedPayload>)
    ensures |r| == |ps| && forall i :: 0 <= i < |ps| ==> r[i] == PackPayload(ps[i])
  {
    seq(|ps|, i requires 0 <= i < |ps| => PackPayload(ps[i]))
  }

  /** Payload `i` is unpacked into a message allocated at `place(i)`. */
  function UnpackAll(ks: seq<PackedPayload>, place: nat -> nat): (r: seq<InMemory>)
    ensures |r| == |ks| && forall i :: 0 <= i < |ks| ==> r[i] == UnpackPayload(ks[i], place(i))
  {
    seq(|ks|, i requires 0 <= i < |ks| => UnpackPayload(ks[i], place(i)))
  }

  lemma {:induction false} QueueRoundTrip(ps: seq<InMemory>, place: nat -> nat)
    requires AllValid(ps) && forall i :: 0 <= i < |ps| ==> place(i) + |ps[i].msg.bytes| < ADDRESSES
    ensures AllValid(UnpackAll(PackAll(ps), place)) && ViewAll(UnpackAll(PackAll(ps), place)) == ViewAll(ps)
  {
    var qs := UnpackAll(PackAll(ps), place);
    forall i | 0 <= i < |ps| ensures qs[i].Valid() && qs[i].data < ADDRESSES && View(qs[i]) == View(ps[i]) {
      PayloadRoundTrip(ps[i], place(i));
    }
  }

  // ---------------------------------------------------------------- workgroups

  /** A workgroup in memory, with its buffered payloads as they lie there. */
  datatype Memory<S> = Memory(
    active: TaskId, lastTask: nat, tasks: map<TaskId, Task<S>>, buffers: map<TaskId, Queued>, calls: seq<Call<Bytes>>)

  ghost predicate BuffersValid(buffers: map<TaskId, Queued>)
  {
    forall tid, c :: tid in buffers && c in buffers[tid] ==> AllValid(buffers[tid][c])
  }

  ghost function ViewQueues(q: Queued): Queues<Bytes>
    requires forall c :: c in q ==> AllValid(q[c])
  {
    map c | c in q :: ViewAll(q[c])
  }

  /** The workgroup as its tasks see it. */
  ghost function ViewGroup<S>(m: Memory<S>): Group<S, Bytes>
    requires BuffersValid(m.buffers)
  {
    Group(m.active, m.lastTask, m.tasks, map tid | tid in m.buffers :: ViewQueues(m.buffers[tid]), m.calls)
  }

  datatype PackedTask<S> = PackedTask(kind: Kind, cont: ContId, local: S)

  datatype Packed<S> = Packed(
    lastTask: nat, tasks: map<TaskId, PackedTask<S>>, buffers: map<TaskId, map<ContId, seq<PackedPayload>>>)

  ghost predicate AllActive<S>(tasks: map<TaskId, Task<S>>)
  {
    forall tid :: tid in tasks ==> tasks[tid].active
  }

  function PackTask<S>(t: Task<S>): PackedTask<S>
  {
    PackedTask(t.kind, t.cont, t.local)
  }

  function UnpackTask<S>(t: PackedTask<S>): Task<S>
  {
    Task(true, t.kind, t.cont, t.local)
  }

  function PackQueues(q: Queued): map<ContId, seq<PackedPayload>>
  {
    map c | c in q :: PackAll(q[c])
  }

  /** `workgroup::pup` while packing: neither `active_` nor a task's `active_`
      flag is written, and the latter is asserted. */
  function Pack<S>(m: Memory<S>): Packed<S>
  {
    Packed(m.lastTask, map tid | tid in m.tasks :: PackTask(m.tasks[tid]),
           map tid | tid in m.buffers :: PackQueues(m.buffers[tid]))
  }

  /** Where the allocator puts each unpacked message. */
  type Allocator = (TaskId, ContId, nat) -> nat

  function UnpackQueues(q: map<ContId, seq<PackedPayload>>, tid: TaskId, place: Allocator): Queued
  {
    map c | c in q :: UnpackAll(q[c], i => place(tid, c, i))
  }

  /** Unpacking: tasks come back active, `active_` holds whatever the memory held,
      and the copy's log starts empty. */
  function Unpack<S>(k: Packed<S>, junk: TaskId, place: Allocator): Memory<S>
  {
    Memory(junk, k.lastTask, map tid | tid in k.tasks :: UnpackTask(k.tasks[tid]),
           map tid | tid in k.buffers :: UnpackQueues(k.buffers[tid], tid, place), [])
  }

  /** The messages fit where the allocator puts them. */
  ghost predicate Fits(buffers: map<TaskId, Queued>, place: Allocator)
  {
    forall tid, c, i: nat :: tid in buffers && c in buffers[tid] && i < |buffers[tid][c]| ==>
      place(tid, c, i) + |buffers[tid][c][i].msg.bytes| < ADDRESSES
  }

  lemma {:induction false} QueuesRoundTrip(q: Queued, tid: TaskId, place: Allocator)
    requires forall c :: c in q ==> AllValid(q[c])
    requires forall c, i: nat :: c in q && i < |q[c]| ==> place(tid, c, i) + |q[c][i].msg.bytes| < ADDRESSES
    ensures forall c :: c in q ==> AllValid(UnpackQueues(PackQueues(q), tid, place)[c])
    ensures ViewQueues(UnpackQueues(PackQueues(q), tid, place)) == ViewQueues(q)
  {
    var u := UnpackQueues(PackQueues(q), tid, place);
    forall c | c in q ensures AllValid(u[c]) && ViewAll(u[c]) == ViewAll(q[c]) {
      QueueRoundTrip(q[c], i => place(tid, c, i));
    }
  }

  lemma {:induction false} BuffersRoundTrip<S>(m: Memory<S>, junk: TaskId, place: Allocator)
    requires BuffersValid(m.buffers) && Fits(m.buffers, place)
    ensures BuffersValid(Unpack(Pack(m), junk, place).buffers)
    ensures ViewGroup(Unpack(Pack(m), junk, place)).buffers == ViewGroup(m).buffers
  {
    var u := Unpack(Pack(m), junk, place);
    forall tid | tid in m.buffers
      ensures (forall c :: c in u.buffers[tid] ==> AllValid(u.buffers[tid][c]))
      ensures ViewQueues(u.buffers[tid]) == ViewQueues(m.buffers[tid])
    {
      QueuesRoundTrip(m.buffers[tid], tid, place);
    }
  }

  /** Two groups that may differ in `active_` only; `b` has the extra history `past`. */
  ghost predicate Twins<S, M>(a: Group<S, M>, b: Group<S, M>, past: seq<Call<M>>)
  {
    a.lastTask == b.lastTask && a.tasks == b.tasks && a.buffers == b.buffers && b.calls == past + a.calls
  }

  /** The copy is the original up to `active_` exactly when the original holds
      active tasks only: the payloads come back as they were, wherever they are put. */
  lemma {:induction false} RoundTrip<S>(m: Memory<S>, junk: TaskId, place: Allocator)
    requires BuffersValid(m.buffers) && Fits(m.buffers, place)
    ensures BuffersValid(Unpack(Pack(m), junk, place).buffers)
    ensures Twins(ViewGroup(Unpack(Pack(m), junk, place)), ViewGroup(m), m.calls) <==> AllActive(m.tasks)
  {
    BuffersRoundTrip(m, junk, place);
    var u := Unpack(Pack(m), junk, place);
    assert m.calls + [] == m.calls;
    if AllActive(m.tasks) {
      assert u.tasks == m.tasks;
    } else {
      var tid :| tid in m.tasks && !m.tasks[tid].active;
      assert u.tasks[tid].active;
    }
  }

  lemma {:induction false} TryContinueTwins<S, M>(
      prog: Program<S, M>, a: Group<S, M>, b: Group<S, M>, past: seq<Call<M>>)
    requires Twins(a, b, past) && a.active == b.active && a.active in a.tasks
    ensures Twins(TryContinue(prog, a), TryContinue(prog, b), past)
    decreases Pending(QueuesOf(a, a.active))
  {
    var tid := a.active;
    var a1, b1 := Touch(a, tid), Touch(b, tid);
    var c := a.tasks[tid].cont;
    var q := Queue(a1.buffers[tid], c);
    if q != [] && q[0].id == c {
      var a2 := PopFront(Invoke(prog, a1, tid, q[0]), tid, c);
      var b2 := PopFront(Invoke(prog, b1, tid, q[0]), tid, c);
      PendingPop(a1.buffers[tid], c);
      assert b2.calls == past + a2.calls;
      if tid in a2.tasks {
        TryContinueTwins(prog, a2, b2, past);
      }
    }
  }

  /** No entry method reads an `active_` it has not written. */
  lemma {:induction false} ApplyTwins<S, M>(
      prog: Program<S, M>, a: Group<S, M>, b: Group<S, M>, e: Event<M>, past: seq<Call<M>>)
    requires Twins(a, b, past) && (e.Created? ==> e.tid !in a.tasks)
    ensures Twins(Apply(prog, a, e), Apply(prog, b, e), past)
  {
    var tid := e.tid;
    match e
    case Created(_, kind, p) =>
      var t := prog.creator(kind, p);
      var call := Call(tid, Construct(kind, p));
      var a1, b1 := a.(active := tid, calls := a.calls + [call]), b.(active := tid, calls := b.calls + [call]);
      assert b1.calls == past + a1.calls;
      if t.active {
        TryContinueTwins(prog, a1.(tasks := a1.tasks[tid := t]), b1.(tasks := b1.tasks[tid := t]), past);
      }
    case Arrived(_, p) =>
      if tid in a.tasks && a.tasks[tid].cont == p.id {
        var a1, b1 := Invoke(prog, a, tid, p), Invoke(prog, b, tid, p);
        assert b1.calls == past + a1.calls;
        if tid in a1.tasks {
          TryContinueTwins(prog, a1, b1, past);
        }
      }
  }

  lemma {:induction false} RunTwins<S, M>(
      prog: Program<S, M>, a: Group<S, M>, b: Group<S, M>, es: seq<Event<M>>, past: seq<Call<M>>)
    requires Twins(a, b, past) && Startable(a, es) && Startable(b, es)
    ensures Twins(RunFrom(prog, a, es), RunFrom(prog, b, es), past)
    decreases |es|
  {
    if es != [] {
      var es' := es[..|es| - 1];
      RunTwins(prog, a, b, es', past);
      ApplyTwins(prog, RunFrom(prog, a, es'), RunFrom(prog, b, es'), es[|es| - 1], past);
    }
  }

  lemma {:induction false} StartConcat<S, M>(g: Group<S, M>, es: seq<Event<M>>, more: seq<Event<M>>)
    requires Startable(g, es + more)
    ensures Startable(g, es)
    ensures forall j :: 0 <= j < |more| && more[j].Created? ==> more[j].tid !in g.tasks && !CreatedIn(es, more[j].tid)
    ensures WellFormed(more)
  {
    var all := es + more;
    assert forall i :: 0 <= i < |es| ==> all[i] == es[i];
    assert forall i :: 0 <= i < |more| ==> all[|es| + i] == more[i];
  }

  lemma {:induction false} StartAfter<S, M>(prog: Program<S, M>, g: Group<S, M>, es: seq<Event<M>>, more: seq<Event<M>>)
    requires Startable(g, es + more)
    ensures Startable(g, es) && Startable(RunFrom(prog, g, es), more)
  {
    StartConcat(g, es, more);
  }

  lemma {:induction false} RunConcat<S, M>(prog: Program<S, M>, g: Group<S, M>, es: seq<Event<M>>, more: seq<Event<M>>)
    requires Startable(g, es + more)
    ensures Startable(g, es) && Startable(RunFrom(prog, g, es), more)
    ensures RunFrom(prog, g, es + more) == RunFrom(prog, RunFrom(prog, g, es), more)
    decreases |more|
  {
    StartAfter(prog, g, es, more);
    if more == [] {
      assert es + more == es;
    } else {
      var all, less := es + more, more[..|more| - 1];
      assert all[..|all| - 1] == es + less && all[|all| - 1] == more[|more| - 1];
      StartConcat(g, es + less, [more[|more| - 1]]);
      assert es + less + [more[|more| - 1]] == all;
      RunConcat(prog, g, es, less);
    }
  }

  /** A workgroup may be migrated between any two entry methods: the copy, with
      any `active_` and its buffered messages at any addresses, goes through every
      future with the same calls, and ends with the same tasks and buffers, as if it
      had never moved. */
  lemma {:induction false} MigrationIsTransparent<S>(
      prog: Program<S, Bytes>, j1: TaskId, es: seq<Event<Bytes>>, m: Memory<S>,
      j2: TaskId, place: Allocator, more: seq<Event<Bytes>>)
    requires WellFormed(es + more) && WellFormed(es)
    requires BuffersValid(m.buffers) && ViewGroup(m) == After(prog, j1, es) && Fits(m.buffers, place)
    ensures AllActive(m.tasks) && BuffersValid(Unpack(Pack(m), j2, place).buffers)
    ensures var copy := ViewGroup(Unpack(Pack(m), j2, place));
      Startable(copy, more) && Twins(RunFrom(prog, copy, more), After(prog, j1, es + more), m.calls)
  {
    RunConcat(prog, Init(j1), es, more);
    forall tid | tid in m.tasks ensures m.tasks[tid].active {
      Quiescent(prog, j1, es, tid);
    }
    RoundTrip(m, j2, place);
    RunTwins(prog, ViewGroup(Unpack(Pack(m), j2, place)), ViewGroup(m), more, m.calls);
  }
}
