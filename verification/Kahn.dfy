/** The reference the scheduler is measured against: one sequential process that
    reads from one FIFO channel per continuation, blocking on the channel of the
    continuation it is suspended on.  The channels are kept as one sequence of
    messages; channel `c` is the subsequence of messages addressed to `c`. */
module Kahn {

  type ContId = int
  type Kind = int

  datatype Payload<+M> = Payload(id: ContId, data: M)

  /** `task_base_` plus the user's fields (`local`). */
  datatype Task<+S> = Task(active: bool, kind: Kind, cont: ContId, local: S)

  /** What user code contributes: the registered constructors and continuations.
      `step(t, p)` is the state `t` is left in by continuation `t.cont` on `p`. */
  datatype Program<!S, !M> = Program(
    creator: (Kind, Payload<M>) -> Task<S>,
    step: (Task<S>, Payload<M>) -> Task<S>)

  /** One invocation of user code: a constructor or a continuation. */
  datatype Step<+M> = Construct(kind: Kind, payload: Payload<M>) | Continue(cont: ContId, payload: Payload<M>)

  /** The messages of channel `c`, oldest first. */
  function Channel<M>(msgs: seq<Payload<M>>, c: ContId): (r: seq<Payload<M>>)
  {
    if msgs == [] then []
    else if msgs[0].id == c then [msgs[0]] + Channel(msgs[1..], c)
    else Channel(msgs[1..], c)
  }

  ghost predicate SameChannels<M>(a: seq<Payload<M>>, b: seq<Payload<M>>)
  {
    forall c: ContId :: Channel(a, c) == Channel(b, c)
  }

  /** `msgs` without the oldest message of channel `c`. */
  function Pop<M>(msgs: seq<Payload<M>>, c: ContId): (r: seq<Payload<M>>)
    requires Channel(msgs, c) != []
    ensures |r| == |msgs| - 1
  {
    if msgs[0].id == c then msgs[1..] else [msgs[0]] + Pop(msgs[1..], c)
  }

  datatype Outcome<+S, +M> = Outcome(task: Task<S>, steps: seq<Step<M>>, rest: seq<Payload<M>>)

  /** Runs a process until it terminates or blocks on an empty channel. */
  function Run<S, M>(prog: Program<S, M>, t: Task<S>, msgs: seq<Payload<M>>): (r: Outcome<S, M>)
    decreases |msgs|
  {
    if !t.active || Channel(msgs, t.cont) == [] then Outcome(t, [], msgs)
    else
      var p := Channel(msgs, t.cont)[0];
      var r := Run(prog, prog.step(t, p), Pop(msgs, t.cont));
      Outcome(r.task, [Continue(t.cont, p)] + r.steps, r.rest)
  }

  /** The payloads the steps took from channel `c`, in order. */
  function Taken<M>(steps: seq<Step<M>>, c: ContId): (r: seq<Payload<M>>)
  {
    if steps == [] then []
    else if steps[0].Continue? && steps[0].cont == c then [steps[0].payload] + Taken(steps[1..], c)
    else Taken(steps[1..], c)
  }

  // ---------------------------------------------------------------- channels

  lemma {:induction false} ChannelIds<M>(msgs: seq<Payload<M>>, c: ContId)
    ensures forall i :: 0 <= i < |Channel(msgs, c)| ==> Channel(msgs, c)[i].id == c
  {
    if msgs != [] { ChannelIds(msgs[1..], c); }
  }

  lemma {:induction false} ChannelAppend<M>(msgs: seq<Payload<M>>, m: Payload<M>, c: ContId)
    ensures Channel(msgs + [m], c) == Channel(msgs, c) + (if m.id == c then [m] else [])
  {
    if msgs == [] {
      assert msgs + [m] == [m];
    } else {
      assert (msgs + [m])[1..] == msgs[1..] + [m];
      ChannelAppend(msgs[1..], m, c);
    }
  }

  lemma {:induction false} ChannelPop<M>(msgs: seq<Payload<M>>, c: ContId, d: ContId)
    requires Channel(msgs, c) != []
    ensures Channel(Pop(msgs, c), d) == if d == c then Channel(msgs, c)[1..] else Channel(msgs, d)
  {
    if msgs[0].id != c {
      ChannelPop(msgs[1..], c, d);
      assert Pop(msgs, c)[1..] == Pop(msgs[1..], c);
    }
  }

  lemma {:induction false} PopAppend<M>(msgs: seq<Payload<M>>, m: Payload<M>, c: ContId)
    requires Channel(msgs, c) != []
    ensures Channel(msgs + [m], c) != [] && Channel(msgs + [m], c)[0] == Channel(msgs, c)[0]
    ensures Pop(msgs + [m], c) == Pop(msgs, c) + [m]
  {
    ChannelAppend(msgs, m, c);
    if msgs[0].id == c {
      assert (msgs + [m])[1..] == msgs[1..] + [m];
    } else {
      assert (msgs + [m])[1..] == msgs[1..] + [m];
      PopAppend(msgs[1..], m, c);
    }
  }

  lemma {:induction false} PopLast<M>(msgs: seq<Payload<M>>, m: Payload<M>)
    requires Channel(msgs, m.id) == []
    ensures Channel(msgs + [m], m.id) == [m] && Pop(msgs + [m], m.id) == msgs
  {
    ChannelAppend(msgs, m, m.id);
    if msgs != [] {
      assert (msgs + [m])[1..] == msgs[1..] + [m];
      PopLast(msgs[1..], m);
    }
  }

  // ---------------------------------------------------------------- the process

  /** A blocked process waits on an empty channel. */
  lemma {:induction false} RunBlocks<S, M>(prog: Program<S, M>, t: Task<S>, msgs: seq<Payload<M>>)
    ensures var r := Run(prog, t, msgs); r.task.active ==> Channel(r.rest, r.task.cont) == []
    decreases |msgs|
  {
    if t.active && Channel(msgs, t.cont) != [] {
      RunBlocks(prog, prog.step(t, Channel(msgs, t.cont)[0]), Pop(msgs, t.cont));
    }
  }

  /** Every channel is split into what was read, in order, and what is left. */
  lemma {:induction false} RunConserves<S, M>(prog: Program<S, M>, t: Task<S>, msgs: seq<Payload<M>>, c: ContId)
    ensures var r := Run(prog, t, msgs); Taken(r.steps, c) + Channel(r.rest, c) == Channel(msgs, c)
    decreases |msgs|
  {
    if t.active && Channel(msgs, t.cont) != [] {
      var p := Channel(msgs, t.cont)[0];
      var r := Run(prog, prog.step(t, p), Pop(msgs, t.cont));
      RunConserves(prog, prog.step(t, p), Pop(msgs, t.cont), c);
      ChannelPop(msgs, t.cont, c);
      assert ([Continue(t.cont, p)] + r.steps)[1..] == r.steps;
    }
  }

  /** Only the channel contents matter, not how the channels were interleaved. */
  lemma {:induction false} RunDeterminate<S, M>(prog: Program<S, M>, t: Task<S>, a: seq<Payload<M>>, b: seq<Payload<M>>)
    requires SameChannels(a, b)
    ensures Run(prog, t, a).task == Run(prog, t, b).task
    ensures Run(prog, t, a).steps == Run(prog, t, b).steps
    ensures SameChannels(Run(prog, t, a).rest, Run(prog, t, b).rest)
    decreases |a|
  {
    assert Channel(a, t.cont) == Channel(b, t.cont);
    if t.active && Channel(a, t.cont) != [] {
      forall c: ContId ensures Channel(Pop(a, t.cont), c) == Channel(Pop(b, t.cont), c) {
        ChannelPop(a, t.cont, c);
        ChannelPop(b, t.cont, c);
        assert Channel(a, c) == Channel(b, c);
      }
      RunDeterminate(prog, prog.step(t, Channel(a, t.cont)[0]), Pop(a, t.cont), Pop(b, t.cont));
    }
  }

  /** One turn of the process. */
  lemma {:induction false} RunTurn<S, M>(
      prog: Program<S, M>, t: Task<S>, msgs: seq<Payload<M>>, p: Payload<M>, rest: seq<Payload<M>>)
    requires t.active && Channel(msgs, t.cont) != []
    requires p == Channel(msgs, t.cont)[0] && rest == Pop(msgs, t.cont)
    ensures var n := Run(prog, prog.step(t, p), rest);
      Run(prog, t, msgs) == Outcome(n.task, [Continue(t.cont, p)] + n.steps, n.rest)
  {
  }

  /** A later message only extends a run: running on `msgs + [m]` is running on
      `msgs` and then going on from there with `m` added. */
  lemma {:induction false} RunExtends<S, M>(
      prog: Program<S, M>, t: Task<S>, msgs: seq<Payload<M>>, m: Payload<M>, r: Outcome<S, M>, q: Outcome<S, M>)
    requires r == Run(prog, t, msgs) && q == Run(prog, r.task, r.rest + [m])
    ensures Run(prog, t, msgs + [m]) == Outcome(q.task, r.steps + q.steps, q.rest)
    decreases |msgs|
  {
    if t.active && Channel(msgs, t.cont) != [] {
      var p := Channel(msgs, t.cont)[0];
      var rest := Pop(msgs, t.cont);
      var n := Run(prog, prog.step(t, p), rest);
      RunTurn(prog, t, msgs, p, rest);
      PopAppend(msgs, m, t.cont);
      RunTurn(prog, t, msgs + [m], p, rest + [m]);
      RunExtends(prog, prog.step(t, p), rest, m, n, q);
      assert [Continue(t.cont, p)] + (n.steps + q.steps) == r.steps + q.steps;
    } else {
      assert r.steps + q.steps == q.steps;
    }
  }

  // ---------------------------------------------------------------- what a run is

  /** Performing `steps` takes a process from `t` to `u`: it is alive at every step, which
      runs the continuation it is suspended on. */
  ghost predicate Performs<S, M>(prog: Program<S, M>, t: Task<S>, steps: seq<Step<M>>, u: Task<S>)
    decreases |steps|
  {
    if steps == [] then u == t
    else
      && t.active && steps[0].Continue? && steps[0].cont == t.cont && steps[0].payload.id == t.cont
      && Performs(prog, prog.step(t, steps[0].payload), steps[1..], u)
  }

  /** `o` is a complete run on `msgs`: the process performed its steps, every channel is
      what was taken from it, in order, followed by what is left, and the process ended or
      waits on an empty channel.  Nothing is said of how to find the next message. */
  ghost predicate Completes<S, M>(prog: Program<S, M>, t: Task<S>, msgs: seq<Payload<M>>, o: Outcome<S, M>)
  {
    && Performs(prog, t, o.steps, o.task)
    && (forall c: ContId :: Taken(o.steps, c) + Channel(o.rest, c) == Channel(msgs, c))
    && (o.task.active ==> Channel(o.rest, o.task.cont) == [])
  }

  lemma {:induction false} RunPerforms<S, M>(prog: Program<S, M>, t: Task<S>, msgs: seq<Payload<M>>)
    ensures Performs(prog, t, Run(prog, t, msgs).steps, Run(prog, t, msgs).task)
    decreases |msgs|
  {
    if t.active && Channel(msgs, t.cont) != [] {
      var p := Channel(msgs, t.cont)[0];
      ChannelIds(msgs, t.cont);
      RunTurn(prog, t, msgs, p, Pop(msgs, t.cont));
      RunPerforms(prog, prog.step(t, p), Pop(msgs, t.cont));
      assert Run(prog, t, msgs).steps[1..] == Run(prog, prog.step(t, p), Pop(msgs, t.cont)).steps;
    }
  }

  /** The first step of a complete run takes the oldest message of the channel awaited. */
  lemma {:induction false} FirstStep<S, M>(prog: Program<S, M>, t: Task<S>, msgs: seq<Payload<M>>, o: Outcome<S, M>)
    requires Completes(prog, t, msgs, o) && t.active && Channel(msgs, t.cont) != []
    ensures o.steps != [] && o.steps[0] == Continue(t.cont, Channel(msgs, t.cont)[0])
    ensures Completes(prog, prog.step(t, Channel(msgs, t.cont)[0]), Pop(msgs, t.cont),
                      Outcome(o.task, o.steps[1..], o.rest))
  {
    assert Taken(o.steps, t.cont) + Channel(o.rest, t.cont) == Channel(msgs, t.cont);
    var p := o.steps[0].payload;
    assert Taken(o.steps, t.cont) == [p] + Taken(o.steps[1..], t.cont);
    forall c: ContId ensures Taken(o.steps[1..], c) + Channel(o.rest, c) == Channel(Pop(msgs, t.cont), c) {
      ChannelPop(msgs, t.cont, c);
      assert Taken(o.steps, c) + Channel(o.rest, c) == Channel(msgs, c);
    }
  }

  /** There is exactly one complete run, up to the order among the messages left on
      different channels, and `Run` finds it. */
  lemma {:induction false} RunIsTheOne<S, M>(prog: Program<S, M>, t: Task<S>, msgs: seq<Payload<M>>, o: Outcome<S, M>)
    ensures var r := Run(prog, t, msgs);
      Completes(prog, t, msgs, o) <==> o.task == r.task && o.steps == r.steps && SameChannels(o.rest, r.rest)
    decreases |msgs|
  {
    RunCompletes(prog, t, msgs);
    if Completes(prog, t, msgs, o) {
      CompleteIsRun(prog, t, msgs, o);
    }
  }

  lemma {:induction false} RunCompletes<S, M>(prog: Program<S, M>, t: Task<S>, msgs: seq<Payload<M>>)
    ensures Completes(prog, t, msgs, Run(prog, t, msgs))
  {
    RunPerforms(prog, t, msgs);
    RunBlocks(prog, t, msgs);
    forall c: ContId
      ensures Taken(Run(prog, t, msgs).steps, c) + Channel(Run(prog, t, msgs).rest, c) == Channel(msgs, c)
    {
      RunConserves(prog, t, msgs, c);
    }
  }

  lemma {:induction false} CompleteIsRun<S, M>(prog: Program<S, M>, t: Task<S>, msgs: seq<Payload<M>>, o: Outcome<S, M>)
    requires Completes(prog, t, msgs, o)
    ensures var r := Run(prog, t, msgs); o.task == r.task && o.steps == r.steps && SameChannels(o.rest, r.rest)
    decreases |msgs|
  {
    if t.active && Channel(msgs, t.cont) != [] {
      var p, rest := Channel(msgs, t.cont)[0], Pop(msgs, t.cont);
      FirstStep(prog, t, msgs, o);
      RunTurn(prog, t, msgs, p, rest);
      CompleteIsRun(prog, prog.step(t, p), rest, Outcome(o.task, o.steps[1..], o.rest));
      assert o.steps == [o.steps[0]] + o.steps[1..];
    } else {
      NoSteps(prog, t, msgs, o);
    }
  }

  lemma {:induction false} NoSteps<S, M>(prog: Program<S, M>, t: Task<S>, msgs: seq<Payload<M>>, o: Outcome<S, M>)
    requires Completes(prog, t, msgs, o) && (t.active ==> Channel(msgs, t.cont) == [])
    ensures o.steps == [] && o.task == t && SameChannels(o.rest, msgs)
  {
    assert |Taken(o.steps, t.cont)| + |Channel(o.rest, t.cont)| == |Channel(msgs, t.cont)| by {
      assert Taken(o.steps, t.cont) + Channel(o.rest, t.cont) == Channel(msgs, t.cont);
    }
    forall c: ContId ensures Channel(o.rest, c) == Channel(msgs, c) {
      assert Taken(o.steps, c) + Channel(o.rest, c) == Channel(msgs, c);
    }
  }
}
