/** One branch of a group: the handling of broadcasts, performed in place as the
    steps of module `TreeBroadcast`. */
module CollectiveBranchObject {
  import opened TreeBroadcast

  datatype Sent = Sent(child: Node, bcast: Bcast)

  /** What was sent to child `c`, in order. */
  ghost function SentTo(sent: seq<Sent>, c: Node): seq<Bcast>
  {
    if sent == [] then []
    else SentTo(sent[..|sent| - 1], c) + if sent[|sent| - 1].child == c then [sent[|sent| - 1].bcast] else []
  }

  /** A copy for each child, in the order of the children. */
  ghost function Copies(children: seq<Node>, b: Bcast): (r: seq<Sent>)
    ensures |r| == |children| && forall k :: 0 <= k < |r| ==> r[k] == Sent(children[k], b)
  {
    seq(|children|, k requires 0 <= k < |children| => Sent(children[k], b))
  }

  lemma {:induction false} CopiesTo(children: seq<Node>, b: Bcast, c: Node)
    requires forall i, j :: 0 <= i < j < |children| ==> children[i] != children[j]
    ensures SentTo(Copies(children, b), c) == if c in children then [b] else []
    decreases |children|
  {
    if children != [] {
      var less := children[..|children| - 1];
      assert Copies(children, b)[..|children| - 1] == Copies(less, b);
      CopiesTo(less, b, c);
    }
  }

  /** In `t` each link holds what it did in `s`, and the copies `news` after that. */
  ghost predicate LinksGet(tr: Tree, s: State, t: State, news: seq<Sent>)
    requires Shape(tr, s) && Shape(tr, t)
  {
    forall c :: c in tr.nodes ==> t.link[c] == s.link[c] + SentTo(news, c)
  }

  lemma {:induction false} CopiesArrive(tr: Tree, s: State, n: Node, b: Bcast, children: seq<Node>)
    requires Shape(tr, s) && n in tr.nodes && b.id == s.last[n] + 1
    requires forall c :: c in children <==> c in tr.parent && tr.parent[c] == n
    requires forall i, j :: 0 <= i < j < |children| ==> children[i] != children[j]
    ensures Shape(tr, Handle(tr, s, n, b)) && LinksGet(tr, s, Handle(tr, s, n, b), Copies(children, b))
  {
    forall c | c in tr.nodes ensures Handle(tr, s, n, b).link[c] == s.link[c] + SentTo(Copies(children, b), c) {
      CopiesTo(children, b, c);
      assert s.link[c] + [] == s.link[c];
    }
  }

  lemma {:induction false} NothingArrives(tr: Tree, s: State, t: State)
    requires Shape(tr, s) && Shape(tr, t) && t.link == s.link
    ensures LinksGet(tr, s, t, [])
  {
    assert forall c :: c in tr.nodes ==> s.link[c] + [] == s.link[c];
  }

  class CollectiveBranch {
    const index: Node
    /** The branch's children in the spanning tree. */
    const children: seq<Node>
    /** The number of values of `bcast_id_t`. */
    const w: nat
    var lastBcast: nat
    var buffer: seq<Bcast>
    /** Logs of the broadcasts handled and of the copies sent. */
    var history: seq<Bcast>
    var sent: seq<Sent>

    /** The object is the branch of node `index` in the state `s` of the whole tree. */
    ghost predicate Sees(tr: Tree, s: State)
      reads this
    {
      && Shape(tr, s) && index in tr.nodes && w == tr.w
      && lastBcast == s.last[index] && history == s.history[index] && buffer == s.buffer[index]
      && (forall c :: c in children <==> c in tr.parent && tr.parent[c] == index)
      && (forall i, j :: 0 <= i < j < |children| ==> children[i] != children[j])
    }

    constructor (index: Node, children: seq<Node>, w: nat)
      ensures this.index == index && this.children == children && this.w == w
      ensures lastBcast == 0 && buffer == [] && history == [] && sent == []
    {
      this.index, this.children, this.w := index, children, w;
      lastBcast, buffer, history, sent := 0, [], [], [];
    }

    method SendCopies(b: Bcast)
      modifies this`sent
      ensures sent == old(sent) + Copies(children, b)
    {
      var k := 0;
      while k < |children|
        invariant k <= |children| && sent == old(sent) + Copies(children, b)[..k]
      {
        sent := sent + [Sent(children[k], b)];
        k := k + 1;
      }
    }

    /** The branch's part of handling `b`; `news` are the copies sent. */
    method Handle(b: Bcast, ghost tr: Tree, ghost s: State) returns (ghost news: seq<Sent>)
      requires Sees(tr, s)
      modifies this
      ensures Sees(tr, TreeBroadcast.Handle(tr, s, index, b)) && sent == old(sent) + news
      ensures LinksGet(tr, s, TreeBroadcast.Handle(tr, s, index, b), news)
    {
      news := [];
      if b.id == 0 {
        // not a broadcast
        history := history + [b];
        NothingArrives(tr, s, TreeBroadcast.Handle(tr, s, index, b));
      } else if b.id == lastBcast + 1 {
        TakeNext(b);
        news := Copies(children, b);
        CopiesArrive(tr, s, index, b, children);
      } else {
        buffer := buffer + [b];
        NothingArrives(tr, s, TreeBroadcast.Handle(tr, s, index, b));
      }
    }

    /** Passes an in-order broadcast on to the children, then processes it here. */
    method TakeNext(b: Bcast)
      modifies this
      ensures lastBcast == old(lastBcast) + 1 && sent == old(sent) + Copies(children, b)
      ensures history == old(history) + [b] && buffer == old(buffer)
    {
      lastBcast := lastBcast + 1;
      SendCopies(b);
      history := history + [b];
    }

    /** A broadcast that reaches the root gets the next number the counter's type has:
        the branch's part of the step `Start`. */
    method Start(data: Data, ghost tr: Tree, ghost s: State) returns (ghost news: seq<Sent>)
      requires Sees(tr, s) && index == tr.root
      modifies this
      ensures sent == old(sent) + news
      ensures var t := TreeBroadcast.Handle(tr, s, tr.root, Bcast(NextId(s.last[tr.root], tr.w), data));
        Sees(tr, t) && LinksGet(tr, s, t, news)
    {
      news := Handle(Bcast(NextId(lastBcast, w), data), tr, s);
    }
  }
}
