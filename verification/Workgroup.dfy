/** The workgroup object: the scheduler's operations performed in place. */
module WorkgroupObject {
  import opened Kahn
  import opened Scheduler

  class Workgroup<S, M> {
    const prog: Program<S, M>
    var active_: TaskId
    var lastTask_: nat
    var tasks_: map<TaskId, Task<S>>
    var buffers_: map<TaskId, Queues<M>>
    /** Log of the user code run so far. */
    var calls: seq<Call<M>>

    function Value(): Group<S, M>
      reads this
    {
      Group(active_, lastTask_, tasks_, buffers_, calls)
    }

    constructor (prog: Program<S, M>, junk: TaskId)
      ensures this.prog == prog && Value() == Init(junk)
    {
      this.prog := prog;
      active_, lastTask_, tasks_, buffers_, calls := junk, 0, map[], map[], [];
    }

    /** Constructs a task; it is kept, and offered its early messages, only if its
        constructor did not terminate it. */
    method CreateTask(tid: TaskId, kind: Kind, p: Payload<M>)
      requires tid !in tasks_
      modifies this
      ensures Value() == Create(prog, old(Value()), tid, kind, p)
    {
      active_ := tid;
      var task := prog.creator(kind, p);
      calls := calls + [Call(tid, Construct(kind, p))];
      if task.active {
        tasks_ := tasks_[tid := task];
        TryContinueActive();
      }
    }

    /** The entry methods `resume(task_message *)` and `resume(CkReductionMsg *)`. */
    method ResumeMessage(tid: TaskId, p: Payload<M>)
      modifies this
      ensures Value() == Resume(prog, old(Value()), tid, p)
    {
      var delivered, _ := ResumeTask(tid, p, false);
      if !delivered {
        BufferMessage(tid, p);
      }
    }

    /** `resume(task_id, task_payload &, bool *)`; `observed` says that the caller
        passed a pointer, and then learns whether the task was kept. */
    method ResumeTask(tid: TaskId, p: Payload<M>, observed: bool) returns (delivered: bool, keep: bool)
      modifies this
      ensures delivered == (tid in old(tasks_) && old(tasks_)[tid].cont == p.id)
      ensures !delivered ==> Value() == old(Value())
      ensures delivered && observed ==> Value() == Invoke(prog, old(Value()), tid, p) && keep == (tid in tasks_)
      ensures delivered && !observed ==> Value() == Resume(prog, old(Value()), tid, p)
      decreases if observed then 0 else 2, 0
    {
      if tid !in tasks_ || tasks_[tid].cont != p.id {
        return false, false;
      }
      active_ := tid;
      var id := tasks_[tid].cont;
      var task := prog.step(tasks_[tid], p);
      calls := calls + [Call(active_, Continue(id, p))];
      delivered, keep := true, task.active;
      if keep {
        tasks_ := tasks_[tid := task];
      } else {
        tasks_ := tasks_ - {tid};
      }
      if !observed && keep {
        TryContinueActive();
      }
    }

    method TryContinueActive()
      requires active_ in tasks_
      modifies this
      ensures Value() == TryContinue(prog, old(Value()))
      decreases 1, Pending(QueuesOf(Value(), active_))
    {
      var tid := active_;
      buffers_ := buffers_[tid := QueuesOf(Value(), tid)];
      var c := tasks_[tid].cont;
      var queue := Queue(buffers_[tid], c);
      if queue != [] {
        var delivered, active := ResumeTask(tid, queue[0], true);
        if delivered {
          PendingPop(buffers_[tid], c);
          buffers_ := buffers_[tid := buffers_[tid][c := queue[1..]]];
          if active {
            TryContinueActive();
          }
        }
      }
    }

    method BufferMessage(tid: TaskId, p: Payload<M>)
      modifies this
      ensures Value() == Buffer(old(Value()), tid, p)
    {
      var queues := QueuesOf(Value(), tid);
      buffers_ := buffers_[tid := queues[p.id := Queue(queues, p.id) + [p]]];
    }
  }
}
