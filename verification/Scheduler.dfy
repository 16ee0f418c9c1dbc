/** The workgroup scheduler as functions on values (`Workgroup.Workgroup` is the
    object that runs them in place), and the proof that, seen from any one task,
    every run is the reference process of module `Kahn`. */
module Scheduler {
  import opened Wrappers
  import opened Kahn

  datatype TaskId = TaskId(host: int, task: nat)

  /** A call into user code, with the value of `active_` while it ran: the id
      under which everything the call sends or contributes is addressed. */
  datatype Call<+M> = Call(tid: TaskId, step: Step<M>)

  type Queues<M> = map<ContId, seq<Payload<M>>>

  datatype Group<S, M> = Group(
    active: TaskId,
    lastTask: nat,
    tasks: map<TaskId, Task<S>>,
    buffers: map<TaskId, Queues<M>>,
    calls: seq<Call<M>>)

  function Queue<M>(q: Queues<M>, c: ContId): seq<Payload<M>>
  {
    if c in q then q[c] else []
  }

  function QueuesOf<S, M>(g: Group<S, M>, tid: TaskId): Queues<M>
  {
    if tid in g.buffers then g.buffers[tid] else map[]
  }

  // ---------------------------------------------------------------- operations

  /** `buffer_`: queue a message under its task and continuation. */
  function Buffer<S, M>(g: Group<S, M>, tid: TaskId, p: Payload<M>): Group<S, M>
  {
    var q := QueuesOf(g, tid);
    g.(buffers := g.buffers[tid := q[p.id := Queue(q, p.id) + [p]]])
  }

  /** The part of `resume` that runs a continuation. */
  function Invoke<S, M>(prog: Program<S, M>, g: Group<S, M>, tid: TaskId, p: Payload<M>): Group<S, M>
    requires tid in g.tasks
  {
    var t := g.tasks[tid];
    var t' := prog.step(t, p);
    g.(active := tid,
    tasks := if t'.active then g.tasks[tid := t'] else g.tasks - {tid},
    calls := g.calls + [Call(tid, Continue(t.cont, p))])
  }

  /** `buffers_[tid]` creates the entry when it is missing. */
  function Touch<S, M>(g: Group<S, M>, tid: TaskId): Group<S, M>
  {
    g.(buffers := g.buffers[tid := QueuesOf(g, tid)])
  }

  function PopFront<S, M>(g: Group<S, M>, tid: TaskId, c: ContId): Group<S, M>
    requires tid in g.buffers && c in g.buffers[tid] && g.buffers[tid][c] != []
  {
    g.(buffers := g.buffers[tid := g.buffers[tid][c := g.buffers[tid][c][1..]]])
  }

  /** `try_continue_`: deliver buffered messages to the active task for as long
      as it is alive and waits on a continuation that has one. */
  function TryContinue<S, M>(prog: Program<S, M>, g: Group<S, M>): Group<S, M>
    requires g.active in g.tasks
    decreases Pending(QueuesOf(g, g.active))
  {
    var tid := g.active;
    var g1 := Touch(g, tid);
    var c := g.tasks[tid].cont;
    var q := Queue(g1.buffers[tid], c);
    if q == [] || q[0].id != c then g1
    else
      var g2 := PopFront(Invoke(prog, g1, tid, q[0]), tid, c);
      PendingPop(g1.buffers[tid], c);
      if tid in g2.tasks then TryContinue(prog, g2) else g2
  }

  /** `create`. */
  function Create<S, M>(prog: Program<S, M>, g: Group<S, M>, tid: TaskId, kind: Kind, p: Payload<M>): Group<S, M>
    requires tid !in g.tasks
  {
    var t := prog.creator(kind, p);
    var g1 := g.(active := tid, calls := g.calls + [Call(tid, Construct(kind, p))]);
    if t.active then TryContinue(prog, g1.(tasks := g1.tasks[tid := t])) else g1
  }

  /** The entry method `resume`: deliver, or buffer what cannot be delivered. */
  function Resume<S, M>(prog: Program<S, M>, g: Group<S, M>, tid: TaskId, p: Payload<M>): Group<S, M>
  {
    if tid !in g.tasks || g.tasks[tid].cont != p.id then Buffer(g, tid, p)
    else
      var g1 := Invoke(prog, g, tid, p);
      if tid in g1.tasks then TryContinue(prog, g1) else g1
  }

  // ---------------------------------------------------------------- termination measure

  ghost function AnyOf(s: set<ContId>): (c: ContId)
    requires s != {}
    ensures c in s
  {
    assert (forall c :: c !in s) ==> s == {};
    var c :| c in s; c
  }

  /** How many messages are queued. */
  ghost function Pending<M>(q: Queues<M>): nat
    decreases |q|
  {
    if q == map[] then 0
    else
      var c := AnyOf(q.Keys);
      |q[c]| + Pending(q - {c})
  }

  lemma {:induction false} PendingSplit<M>(q: Queues<M>, c: ContId)
    requires c in q
    ensures Pending(q) == |q[c]| + Pending(q - {c})
    decreases |q|
  {
    var d := AnyOf(q.Keys);
    if d != c {
      PendingSplit(q - {d}, c);
      PendingSplit(q - {c}, d);
      assert q - {d} - {c} == q - {c} - {d};
    }
  }

  lemma {:induction false} PendingPop<M>(q: Queues<M>, c: ContId)
    requires c in q && q[c] != []
    ensures Pending(q[c := q[c][1..]]) < Pending(q)
  {
    var q' := q[c := q[c][1..]];
    PendingSplit(q, c);
    PendingSplit(q', c);
    assert q' - {c} == q - {c};
  }

  // ---------------------------------------------------------------- runs

  datatype Event<+M> = Created(tid: TaskId, kind: Kind, payload: Payload<M>) | Arrived(tid: TaskId, payload: Payload<M>)

  ghost predicate CreatedIn<M>(es: seq<Event<M>>, tid: TaskId)
  {
    exists i :: 0 <= i < |es| && es[i].Created? && es[i].tid == tid
  }

  /** Task ids are created at most once (they come from a counter). */
  ghost predicate WellFormed<M>(es: seq<Event<M>>)
  {
    forall i, j :: 0 <= i < j < |es| && es[i].Created? && es[j].Created? ==> es[i].tid != es[j].tid
  }

  function Apply<S, M>(prog: Program<S, M>, g: Group<S, M>, e: Event<M>): Group<S, M>
    requires e.Created? ==> e.tid !in g.tasks
  {
    match e
    case Created(tid, kind, p) => Create(prog, g, tid, kind, p)
    case Arrived(tid, p) => Resume(prog, g, tid, p)
  }

  function Init<S, M>(junk: TaskId): Group<S, M>
  {
    Group(junk, 0, map[], map[], [])
  }

  /** No event creates a task that exists or is created elsewhere. */
  ghost predicate Startable<S, M>(g: Group<S, M>, es: seq<Event<M>>)
  {
    WellFormed(es) && forall i :: 0 <= i < |es| && es[i].Created? ==> es[i].tid !in g.tasks
  }

  /** The state after the entry methods `es`. */
  ghost function RunFrom<S, M>(prog: Program<S, M>, g: Group<S, M>, es: seq<Event<M>>): (r: Group<S, M>)
    requires Startable(g, es)
    ensures forall tid :: tid in r.tasks ==> tid in g.tasks || CreatedIn(es, tid)
  {
    if es == [] then g
    else
      var es' := es[..|es| - 1];
      var e := es[|es| - 1];
      var r := RunFrom(prog, g, es');
      assert forall tid :: CreatedIn(es', tid) ==> CreatedIn(es, tid) by { Earlier(es, es'); }
      assert CreatedIn(es, e.tid) || e.Arrived?;
      TasksOfApply(prog, r, e);
      Apply(prog, r, e)
  }

  /** A run of an empty workgroup whose `active_` holds whatever the memory held. */
  ghost function After<S, M>(prog: Program<S, M>, junk: TaskId, es: seq<Event<M>>): Group<S, M>
    requires WellFormed(es)
  {
    RunFrom(prog, Init(junk), es)
  }

  lemma {:induction false} Earlier<M>(es: seq<Event<M>>, es': seq<Event<M>>)
    requires es' <= es
    ensures forall tid :: CreatedIn(es', tid) ==> CreatedIn(es, tid)
  {
    forall tid | CreatedIn(es', tid) ensures CreatedIn(es, tid) {
      var i :| 0 <= i < |es'| && es'[i].Created? && es'[i].tid == tid;
      assert es[i] == es'[i];
    }
  }

  /** What the rest of the group sees of one entry method: nothing. */
  ghost predicate Framed<S, M>(g: Group<S, M>, r: Group<S, M>, tid: TaskId)
  {
    && r.lastTask == g.lastTask
    && (forall u :: u != tid ==> (u in r.tasks <==> u in g.tasks) && (u in g.tasks ==> r.tasks[u] == g.tasks[u]))
    && (forall u :: u != tid ==> QueuesOf(r, u) == QueuesOf(g, u))
    && |g.calls| <= |r.calls| && r.calls[..|g.calls|] == g.calls
    && (forall i :: |g.calls| <= i < |r.calls| ==> r.calls[i].tid == tid)
  }

  lemma {:induction false} FramedTrans<S, M>(a: Group<S, M>, b: Group<S, M>, c: Group<S, M>, tid: TaskId)
    requires Framed(a, b, tid) && Framed(b, c, tid)
    ensures Framed(a, c, tid)
  {
    assert c.calls[..|a.calls|] == c.calls[..|b.calls|][..|a.calls|];
    forall i | |a.calls| <= i < |c.calls| ensures c.calls[i].tid == tid {
      if i < |b.calls| { assert c.calls[i] == c.calls[..|b.calls|][i]; }
    }
  }

  lemma {:induction false} InvokeFrames<S, M>(prog: Program<S, M>, g: Group<S, M>, tid: TaskId, p: Payload<M>)
    requires tid in g.tasks
    ensures Framed(g, Invoke(prog, g, tid, p), tid)
  {
  }

  lemma {:induction false} TryContinueFrames<S, M>(prog: Program<S, M>, g: Group<S, M>)
    requires g.active in g.tasks
    ensures Framed(g, TryContinue(prog, g), g.active)
    ensures TryContinue(prog, g).active == g.active
    decreases Pending(QueuesOf(g, g.active))
  {
    var tid := g.active;
    var g1 := Touch(g, tid);
    var c := g.tasks[tid].cont;
    var q := Queue(g1.buffers[tid], c);
    if q != [] && q[0].id == c {
      InvokeFrames(prog, g1, tid, q[0]);
      var g2 := PopFront(Invoke(prog, g1, tid, q[0]), tid, c);
      assert Framed(g, g2, tid);
      PendingPop(g1.buffers[tid], c);
      if tid in g2.tasks {
        TryContinueFrames(prog, g2);
        FramedTrans(g, g2, TryContinue(prog, g2), tid);
      }
    }
  }

  /** An entry method for `tid` leaves every other task, its buffers and its
      calls alone, and runs user code only under the id `tid`. */
  lemma {:induction false} ApplyFrames<S, M>(prog: Program<S, M>, g: Group<S, M>, e: Event<M>)
    requires e.Created? ==> e.tid !in g.tasks
    ensures Framed(g, Apply(prog, g, e), e.tid)
  {
    match e
    case Created(tid, kind, p) =>
      var t := prog.creator(kind, p);
      var g1 := g.(active := tid, calls := g.calls + [Call(tid, Construct(kind, p))]);
      assert Framed(g, g1, tid);
      if t.active {
        var g2 := g1.(tasks := g1.tasks[tid := t]);
        assert Framed(g, g2, tid);
        TryContinueFrames(prog, g2);
        FramedTrans(g, g2, TryContinue(prog, g2), tid);
      }
    case Arrived(tid, p) =>
      if tid in g.tasks && g.tasks[tid].cont == p.id {
        var g1 := Invoke(prog, g, tid, p);
        InvokeFrames(prog, g, tid, p);
        if tid in g1.tasks {
          TryContinueFrames(prog, g1);
          FramedTrans(g, g1, TryContinue(prog, g1), tid);
        }
      }
  }

  lemma {:induction false} TasksOfApply<S, M>(prog: Program<S, M>, g: Group<S, M>, e: Event<M>)
    requires e.Created? ==> e.tid !in g.tasks
    ensures forall tid :: tid in Apply(prog, g, e).tasks ==> tid in g.tasks || (e.Created? && tid == e.tid)
  {
    ApplyFrames(prog, g, e);
  }

  // ---------------------------------------------------------------- one task's view

  /** The calls made on behalf of `tid`. */
  ghost function CallsOf<M>(calls: seq<Call<M>>, tid: TaskId): seq<Step<M>>
  {
    if calls == [] then []
    else
      var before := CallsOf(calls[..|calls| - 1], tid);
      var last := calls[|calls| - 1];
      if last.tid == tid then before + [last.step] else before
  }

  /** The messages addressed to `tid`, in arrival order. */
  ghost function MessagesOf<M>(es: seq<Event<M>>, tid: TaskId): seq<Payload<M>>
  {
    if es == [] then []
    else
      var before := MessagesOf(es[..|es| - 1], tid);
      var last := es[|es| - 1];
      if last.Arrived? && last.tid == tid then before + [last.payload] else before
  }

  /** How `tid` was created, if it was. */
  ghost function CreationOf<M>(es: seq<Event<M>>, tid: TaskId): Option<Step<M>>
  {
    if es == [] then None
    else
      var last := es[|es| - 1];
      if last.Created? && last.tid == tid then Some(Construct(last.kind, last.payload))
      else CreationOf(es[..|es| - 1], tid)
  }

  /** What one task amounts to: whether it is alive and in which state, the user
      code run for it, and the messages it has not taken. */
  datatype Process<+S, +M> = Process(task: Option<Task<S>>, steps: seq<Step<M>>, rest: seq<Payload<M>>)

  /** The reference: a task that exists reads its channels like a Kahn process;
      before that its messages wait. */
  ghost function Reference<S, M>(prog: Program<S, M>, creation: Option<Step<M>>, msgs: seq<Payload<M>>): Process<S, M>
  {
    match creation
    case Some(Construct(kind, p)) =>
      var r := Run(prog, prog.creator(kind, p), msgs);
      Process(if r.task.active then Some(r.task) else None, [Construct(kind, p)] + r.steps, r.rest)
    case _ => Process(None, [], msgs)
  }

  ghost predicate QueuesMatch<M>(q: Queues<M>, rest: seq<Payload<M>>)
  {
    forall c: ContId :: Queue(q, c) == Channel(rest, c)
  }

  ghost predicate Matches<S, M>(g: Group<S, M>, tid: TaskId, r: Process<S, M>)
  {
    && r.task == (if tid in g.tasks then Some(g.tasks[tid]) else None)
    && CallsOf(g.calls, tid) == r.steps
    && QueuesMatch(QueuesOf(g, tid), r.rest)
  }

  // ---------------------------------------------------------------- refinement

  /** One turn of `try_continue_`. */
  lemma {:induction false} TurnRefines<S, M>(
      prog: Program<S, M>, g: Group<S, M>, rest: seq<Payload<M>>, g2: Group<S, M>)
    requires g.active in g.tasks
    requires QueuesMatch(QueuesOf(g, g.active), rest)
    requires Channel(rest, g.tasks[g.active].cont) != []
    requires g.active in g.buffers && g.tasks[g.active].cont in g.buffers[g.active]
    requires g.buffers[g.active][g.tasks[g.active].cont] == Channel(rest, g.tasks[g.active].cont)
    requires var c := g.tasks[g.active].cont;
      g2 == PopFront(Invoke(prog, g, g.active, Channel(rest, c)[0]), g.active, c)
    ensures QueuesMatch(QueuesOf(g2, g.active), Pop(rest, g.tasks[g.active].cont))
    ensures var c := g.tasks[g.active].cont;
      CallsOf(g2.calls, g.active) == CallsOf(g.calls, g.active) + [Continue(c, Channel(rest, c)[0])]
  {
    var tid := g.active;
    var c := g.tasks[tid].cont;
    assert g2.calls[..|g2.calls| - 1] == g.calls;
    forall d: ContId ensures Queue(QueuesOf(g2, tid), d) == Channel(Pop(rest, c), d) {
      ChannelPop(rest, c, d);
      assert Queue(QueuesOf(g, tid), d) == Channel(rest, d);
    }
  }

  /** `try_continue_` on a task whose buffers hold the messages `rest` runs the
      reference process on `rest`. */
  lemma {:induction false} DrainRefines<S, M>(prog: Program<S, M>, g: Group<S, M>, rest: seq<Payload<M>>)
    requires g.active in g.tasks && g.tasks[g.active].active
    requires QueuesMatch(QueuesOf(g, g.active), rest)
    ensures var tid := g.active; var r := Run(prog, g.tasks[tid], rest);
      Matches(TryContinue(prog, g), tid,
              Process(if r.task.active then Some(r.task) else None, CallsOf(g.calls, tid) + r.steps, r.rest))
    decreases |rest|
  {
    var tid := g.active;
    var t := g.tasks[tid];
    var g1 := Touch(g, tid);
    var c := t.cont;
    var q := Queue(g1.buffers[tid], c);
    assert q == Channel(rest, c);
    ChannelIds(rest, c);
    if q != [] {
      var p := q[0];
      var g2 := PopFront(Invoke(prog, g1, tid, p), tid, c);
      TurnRefines(prog, g1, rest, g2);
      RunTurn(prog, t, rest, p, Pop(rest, c));
      var r := Run(prog, prog.step(t, p), Pop(rest, c));
      assert CallsOf(g2.calls, tid) + r.steps == CallsOf(g.calls, tid) + ([Continue(c, p)] + r.steps);
      if tid in g2.tasks {
        DrainRefines(prog, g2, Pop(rest, c));
      }
    }
  }

  lemma {:induction false} CallsOfOthers<M>(a: seq<Call<M>>, b: seq<Call<M>>, tid: TaskId)
    requires |a| <= |b| && b[..|a|] == a
    requires forall i :: |a| <= i < |b| ==> b[i].tid != tid
    ensures CallsOf(b, tid) == CallsOf(a, tid)
    decreases |b|
  {
    if |b| == |a| {
      assert a == b;
    } else {
      var b' := b[..|b| - 1];
      assert b'[..|a|] == a;
      CallsOfOthers(a, b', tid);
    }
  }

  lemma {:induction false} OthersKeepMatching<S, M>(
      prog: Program<S, M>, g: Group<S, M>, e: Event<M>, tid: TaskId, r: Process<S, M>)
    requires e.Created? ==> e.tid !in g.tasks
    requires e.tid != tid && Matches(g, tid, r)
    ensures Matches(Apply(prog, g, e), tid, r)
  {
    ApplyFrames(prog, g, e);
    CallsOfOthers(g.calls, Apply(prog, g, e).calls, tid);
  }

  lemma {:induction false} CreateRefines<S, M>(prog: Program<S, M>, g: Group<S, M>, e: Event<M>, msgs: seq<Payload<M>>)
    requires e.Created? && e.tid !in g.tasks
    requires Matches(g, e.tid, Reference(prog, None, msgs))
    ensures Matches(Apply(prog, g, e), e.tid, Reference(prog, Some(Construct(e.kind, e.payload)), msgs))
  {
    var tid := e.tid;
    var t := prog.creator(e.kind, e.payload);
    var g1 := g.(active := tid, calls := g.calls + [Call(tid, Construct(e.kind, e.payload))]);
    assert g1.calls[..|g1.calls| - 1] == g.calls;
    if t.active {
      DrainRefines(prog, g1.(tasks := g1.tasks[tid := t]), msgs);
    }
  }

  lemma {:induction false} BufferMatches<S, M>(g: Group<S, M>, tid: TaskId, p: Payload<M>, rest: seq<Payload<M>>)
    requires QueuesMatch(QueuesOf(g, tid), rest)
    ensures QueuesMatch(QueuesOf(Buffer(g, tid, p), tid), rest + [p])
  {
    forall c: ContId ensures Queue(QueuesOf(Buffer(g, tid, p), tid), c) == Channel(rest + [p], c) {
      ChannelAppend(rest, p, c);
      assert Queue(QueuesOf(g, tid), c) == Channel(rest, c);
    }
  }

  /** The step of a task that is alive and waits for exactly this message. */
  lemma {:induction false} DeliveryRefines<S, M>(
      prog: Program<S, M>, g: Group<S, M>, tid: TaskId, p: Payload<M>, rest: seq<Payload<M>>, r: Outcome<S, M>)
    requires tid in g.tasks && g.tasks[tid].active && g.tasks[tid].cont == p.id
    requires Channel(rest, p.id) == [] && QueuesMatch(QueuesOf(g, tid), rest)
    requires r == Run(prog, g.tasks[tid], rest + [p])
    ensures Matches(Resume(prog, g, tid, p), tid,
                    Process(if r.task.active then Some(r.task) else None, CallsOf(g.calls, tid) + r.steps, r.rest))
  {
    var t := g.tasks[tid];
    PopLast(rest, p);
    RunTurn(prog, t, rest + [p], p, rest);
    var n := Run(prog, prog.step(t, p), rest);
    var g1 := Invoke(prog, g, tid, p);
    assert g1.calls[..|g1.calls| - 1] == g.calls;
    assert CallsOf(g1.calls, tid) == CallsOf(g.calls, tid) + [Continue(p.id, p)];
    assert CallsOf(g1.calls, tid) + n.steps == CallsOf(g.calls, tid) + r.steps;
    if tid in g1.tasks {
      DrainRefines(prog, g1, rest);
    }
  }

  lemma {:induction false} ResumeRefines<S, M>(
      prog: Program<S, M>, g: Group<S, M>, e: Event<M>, creation: Option<Step<M>>, msgs: seq<Payload<M>>)
    requires e.Arrived?
    requires Matches(g, e.tid, Reference(prog, creation, msgs))
    ensures Matches(Apply(prog, g, e), e.tid, Reference(prog, creation, msgs + [e.payload]))
  {
    var tid, p := e.tid, e.payload;
    if creation.None? || creation.value.Continue? {
      BufferMatches(g, tid, p, msgs);
    } else {
      var t0 := prog.creator(creation.value.kind, creation.value.payload);
      var r := Run(prog, t0, msgs);
      var q := Run(prog, r.task, r.rest + [p]);
      RunBlocks(prog, t0, msgs);
      RunExtends(prog, t0, msgs, p, r, q);
      assert [creation.value] + (r.steps + q.steps) == [creation.value] + r.steps + q.steps;
      if !r.task.active || r.task.cont != p.id {
        ChannelAppend(r.rest, p, r.task.cont);
        assert r.steps + q.steps == r.steps;
        BufferMatches(g, tid, p, r.rest);
      } else {
        DeliveryRefines(prog, g, tid, p, r.rest, q);
      }
    }
  }

  lemma {:induction false} NotYetCreated<M>(es: seq<Event<M>>, tid: TaskId)
    requires !CreatedIn(es, tid)
    ensures CreationOf(es, tid) == None
  {
    if es != [] {
      Earlier(es, es[..|es| - 1]);
      NotYetCreated(es[..|es| - 1], tid);
    }
  }

  /** Every run, seen from any task, is the reference process of that task's
      creation and messages. */
  lemma {:induction false} RunRefines<S, M>(prog: Program<S, M>, junk: TaskId, es: seq<Event<M>>, tid: TaskId)
    requires WellFormed(es)
    ensures Matches(After(prog, junk, es), tid, Reference(prog, CreationOf(es, tid), MessagesOf(es, tid)))
    decreases |es|
  {
    if es != [] {
      var es', e := es[..|es| - 1], es[|es| - 1];
      var g := After(prog, junk, es');
      RunRefines(prog, junk, es', tid);
      if e.tid != tid {
        OthersKeepMatching(prog, g, e, tid, Reference(prog, CreationOf(es', tid), MessagesOf(es', tid)));
      } else if e.Created? {
        assert !CreatedIn(es', tid);
        NotYetCreated(es', tid);
        CreateRefines(prog, g, e, MessagesOf(es', tid));
      } else {
        ResumeRefines(prog, g, e, CreationOf(es', tid), MessagesOf(es', tid));
      }
    }
  }

  // ---------------------------------------------------------------- consequences

  /** Said without the reference process: after any entry methods, a task that was created
      has made one complete run on the messages it was sent (`Completes`), its calls and
      its state are those of that run, and what the run left is what is buffered. */
  lemma {:induction false} TasksRunComplete<S, M>(
      prog: Program<S, M>, junk: TaskId, es: seq<Event<M>>, tid: TaskId, kind: Kind, p: Payload<M>)
      returns (o: Outcome<S, M>)
    requires WellFormed(es) && CreationOf(es, tid) == Some(Construct(kind, p))
    ensures Completes(prog, prog.creator(kind, p), MessagesOf(es, tid), o)
    ensures var g := After(prog, junk, es);
      && CallsOf(g.calls, tid) == [Construct(kind, p)] + o.steps
      && (tid in g.tasks <==> o.task.active) && (tid in g.tasks ==> g.tasks[tid] == o.task)
      && forall c: ContId :: Queue(QueuesOf(g, tid), c) == Channel(o.rest, c)
  {
    RunRefines(prog, junk, es, tid);
    RunCompletes(prog, prog.creator(kind, p), MessagesOf(es, tid));
    o := Run(prog, prog.creator(kind, p), MessagesOf(es, tid));
  }

  /** Two runs in which a task is created alike and gets the same messages on
      each continuation -- in any interleaving of the continuations, with the
      creation and everybody else's messages anywhere -- make the same calls for
      it, leave it in the same state and leave the same messages buffered. */
  lemma {:induction false} Determinacy<S, M>(
      prog: Program<S, M>, j1: TaskId, es1: seq<Event<M>>, j2: TaskId, es2: seq<Event<M>>, tid: TaskId)
    requires WellFormed(es1) && WellFormed(es2)
    requires CreationOf(es1, tid) == CreationOf(es2, tid)
    requires SameChannels(MessagesOf(es1, tid), MessagesOf(es2, tid))
    ensures var g1, g2 := After(prog, j1, es1), After(prog, j2, es2);
      && CallsOf(g1.calls, tid) == CallsOf(g2.calls, tid)
      && (tid in g1.tasks <==> tid in g2.tasks)
      && (tid in g1.tasks ==> g1.tasks[tid] == g2.tasks[tid])
      && forall c: ContId :: Queue(QueuesOf(g1, tid), c) == Queue(QueuesOf(g2, tid), c)
  {
    RunRefines(prog, j1, es1, tid);
    RunRefines(prog, j2, es2, tid);
    var creation := CreationOf(es1, tid);
    var m1, m2 := MessagesOf(es1, tid), MessagesOf(es2, tid);
    var g1, g2 := After(prog, j1, es1), After(prog, j2, es2);
    var p1, p2 := Reference(prog, creation, m1), Reference(prog, creation, m2);
    if creation.Some? && creation.value.Construct? {
      RunDeterminate(prog, prog.creator(creation.value.kind, creation.value.payload), m1, m2);
    }
    assert SameChannels(p1.rest, p2.rest);
    forall c: ContId ensures Queue(QueuesOf(g1, tid), c) == Queue(QueuesOf(g2, tid), c) {
      assert Queue(QueuesOf(g1, tid), c) == Channel(p1.rest, c);
      assert Queue(QueuesOf(g2, tid), c) == Channel(p2.rest, c);
      assert Channel(p1.rest, c) == Channel(p2.rest, c);
    }
  }

  /** After every entry method the live tasks are active ones, and none of them
      has a buffered message for the continuation it waits on. */
  lemma {:induction false} Quiescent<S, M>(prog: Program<S, M>, junk: TaskId, es: seq<Event<M>>, tid: TaskId)
    requires WellFormed(es)
    ensures var g := After(prog, junk, es);
      tid in g.tasks ==> g.tasks[tid].active && Queue(QueuesOf(g, tid), g.tasks[tid].cont) == []
  {
    RunRefines(prog, junk, es, tid);
    var g := After(prog, junk, es);
    if tid in g.tasks {
      var creation := CreationOf(es, tid);
      RunBlocks(prog, prog.creator(creation.value.kind, creation.value.payload), MessagesOf(es, tid));
    }
  }

  /** Each message sent to a task is delivered once or buffered once, and the
      messages of one continuation are delivered in arrival order. */
  lemma {:induction false} DeliveredOnceInOrder<S, M>(
      prog: Program<S, M>, junk: TaskId, es: seq<Event<M>>, tid: TaskId, c: ContId)
    requires WellFormed(es)
    ensures var g := After(prog, junk, es);
      Taken(CallsOf(g.calls, tid), c) + Queue(QueuesOf(g, tid), c) == Channel(MessagesOf(es, tid), c)
  {
    RunRefines(prog, junk, es, tid);
    var g := After(prog, junk, es);
    var creation := CreationOf(es, tid);
    var msgs := MessagesOf(es, tid);
    assert Queue(QueuesOf(g, tid), c) == Channel(Reference(prog, creation, msgs).rest, c);
    if creation.Some? && creation.value.Construct? {
      var t0 := prog.creator(creation.value.kind, creation.value.payload);
      RunConserves(prog, t0, msgs, c);
      var s := [creation.value] + Run(prog, t0, msgs).steps;
      assert s[1..] == Run(prog, t0, msgs).steps;
    }
  }
}
