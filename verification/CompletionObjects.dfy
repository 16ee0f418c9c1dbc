/** The chares of the completion-detection program on one PE, performed in place as
    the steps of module `CompletionDetection`. */
module CompletionObjects {
  import opened CompletionDetection

  type CollectiveId = int

  /** `hasMsg`: the message that asked for detection is known. */
  datatype Status = Status(hasMsg: bool, lcount: int, complete: bool)

  datatype Contribution = Contribution(target: CollectiveId, lcount: int)

  class Completion {
    var statii: map<CollectiveId, Status>
    /** Logs of the contributions made and of the callbacks sent. */
    var contributed: seq<Contribution>
    var notified: seq<CollectiveId>

    function StatusOf(c: CollectiveId): Status
      reads this
    {
      if c in statii then statii[c] else Status(false, 0, false)
    }

    ghost function ContributedTo(c: CollectiveId): seq<int>
      reads this
    {
      Counts(contributed, c)
    }

    /** The object is PE `i`'s detector of collective `c` in the state `s` of the program. */
    ghost predicate Sees(n: nat, s: State, i: nat, c: CollectiveId)
      reads this
    {
      Shape(n, s) && i < n && StatusOf(c) == Status(s.detecting[i], s.lcount[i], s.complete[i]) &&
      ContributedTo(c) == s.samples[i]
    }

    /** Nothing changed for the other collectives. */
    twostate predicate OthersKept(c: CollectiveId)
      reads this
    {
      forall d :: d != c ==> StatusOf(d) == old(StatusOf(d)) && ContributedTo(d) == old(ContributedTo(d))
    }

    constructor ()
      ensures statii == map[] && contributed == [] && notified == []
    {
      statii, contributed, notified := map[], [], [];
    }

    method GetStatus(c: CollectiveId, hasMsg: bool) returns (status: Status)
      modifies this`statii
      ensures c in statii && status == statii[c] == old(StatusOf(c)).(hasMsg := old(StatusOf(c)).hasMsg || hasMsg)
      ensures forall d :: d != c ==> StatusOf(d) == old(StatusOf(d))
    {
      if c !in statii {
        statii := statii[c := Status(hasMsg, 0, false)];
      } else if hasMsg {
        statii := statii[c := statii[c].(hasMsg := true)];
      }
      status := statii[c];
    }

    /** Invokes the callback when complete; contributes the local count otherwise. */
    method StartDetection(c: CollectiveId, ghost n: nat, ghost s: State, ghost i: nat)
      requires Sees(n, s, i, c)
      modifies this
      ensures Sees(n, CompletionDetection.StartDetection(n, s.(detecting := s.detecting[i := true]), i), i, c)
      ensures notified == if s.complete[i] then old(notified) + [c] else old(notified)
      ensures OthersKept(c)
    {
      var status := GetStatus(c, true);
      if status.complete {
        notified := notified + [c];
      } else {
        CountsPlus(contributed, Contribution(c, status.lcount));
        contributed := contributed + [Contribution(c, status.lcount)];
      }
    }

    method Produce(c: CollectiveId, count: int)
      modifies this`statii
      ensures StatusOf(c) == old(StatusOf(c)).(lcount := old(StatusOf(c)).lcount + count)
      ensures forall d :: d != c ==> StatusOf(d) == old(StatusOf(d))
    {
      var status := GetStatus(c, false);
      statii := statii[c := status.(lcount := status.lcount + count)];
    }

    method Consume(c: CollectiveId, count: int)
      modifies this`statii
      ensures StatusOf(c) == old(StatusOf(c)).(lcount := old(StatusOf(c)).lcount - count)
      ensures forall d :: d != c ==> StatusOf(d) == old(StatusOf(d))
    {
      Produce(c, -count);
    }

    /** A wave's sum arrives, after the request for detection. */
    method ReceiveCount(c: CollectiveId, gcount: int, ghost n: nat, ghost s: State, ghost i: nat)
      requires Sees(n, s, i, c) && s.detecting[i]
      modifies this
      ensures Sees(n, CompletionDetection.ReceiveCount(n, s, i, gcount), i, c)
      ensures notified == if gcount == 0 then old(notified) + [c] else old(notified)
      ensures StatusOf(c) == old(StatusOf(c)).(complete := gcount == 0)
      ensures ContributedTo(c) == old(ContributedTo(c)) + if gcount == 0 then [] else [old(StatusOf(c)).lcount]
      ensures OthersKept(c)
    {
      var status := GetStatus(c, false);
      statii := statii[c := status.(complete := gcount == 0)];
      ghost var t := s.(complete := s.complete[i := gcount == 0], received := s.received[i := s.received[i] + 1],
                        failed := s.failed || !s.detecting[i]);
      assert t.detecting[i := true] == t.detecting;
      StartDetection(c, n, t, i);
    }
  }

  /** The counts contributed to the detection of `c`, in order. */
  ghost function Counts(all: seq<Contribution>, c: CollectiveId): seq<int>
  {
    if all == [] then []
    else Counts(all[..|all| - 1], c) + if all[|all| - 1].target == c then [all[|all| - 1].lcount] else []
  }

  lemma {:induction false} CountsPlus(all: seq<Contribution>, x: Contribution)
    ensures forall c :: Counts(all + [x], c) == Counts(all, c) + if x.target == c then [x.lcount] else []
  {
    assert (all + [x])[..|all|] == all;
  }

  /** The program's own chare; `n` is the number of PEs. */
  class Test {
    const n: nat
    const index: nat
    const collective: CollectiveId
    const detector: Completion
    var detectionStarted: bool
    /** Broadcasts sent to the roots: of `consume`, and of `start_detection`. */
    var consumptions: nat
    var requests: nat

    /** The chare and its detector are PE `index` in the state `s` of the program. */
    ghost predicate Sees(s: State)
      reads this, detector
    {
      index < n && detector.Sees(n, s, index, collective) && (index == 0 ==> detectionStarted == s.started)
    }

    constructor (n: nat, index: nat, collective: CollectiveId, detector: Completion)
      ensures this.n == n && this.index == index && this.collective == collective && this.detector == detector
      ensures !detectionStarted && consumptions == 0 && requests == 0
    {
      this.n, this.index, this.collective, this.detector := n, index, collective, detector;
      detectionStarted, consumptions, requests := false, 0, 0;
    }

    /** Expects one event of every PE, and asks every PE for one. */
    method Produce(ghost s: State)
      requires Sees(s)
      modifies this, detector
      ensures Sees(HandleItem(n, s, index, Item.Produce))
      ensures consumptions == old(consumptions) + 1 && requests == old(requests)
      ensures HandleItem(n, s, index, Item.Produce).wanted == s.wanted + multiset{index}
    {
      detector.Produce(collective, n);
      consumptions := consumptions + 1;
    }

    /** Consumes one event; the first at chare 0 starts detection. */
    method Consume(src: nat, ghost s: State)
      requires Sees(s)
      modifies this, detector
      ensures Sees(HandleItem(n, s, index, Item.Consume(src)))
      ensures consumptions == old(consumptions)
      ensures requests == old(requests) + if index == 0 && !s.started then 1 else 0
      ensures HandleItem(n, s, index, Item.Consume(src)).requested == (s.requested || requests > old(requests))
    {
      detector.Consume(collective, 1);
      if !detectionStarted && index == 0 {
        requests := requests + 1;
        detectionStarted := true;
      }
    }
  }
}
