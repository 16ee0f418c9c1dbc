/** Combining the contributions to a reduction: the loop run at one node of the
    reduction tree, and what the whole tree computes. */
module Reduction {

  /** A combiner may update both messages, and returns one of them. */
  datatype Combiner<!T> = Combiner(takesLeft: (T, T) -> bool, left: (T, T) -> T, right: (T, T) -> T)

  function Nop<T>(): Combiner<T>
  {
    Combiner((l, r) => true, (l, r) => l, (l, r) => r)
  }

  function Add(): Combiner<int>
  {
    Combiner((l, r) => true, (l, r) => l + r, (l, r) => r)
  }

  /** A combiner that updates neither message, and returns the left one if it is at least
      as good. */
  function Select<T>(better: (T, T) -> bool): Combiner<T>
  {
    Combiner(better, (l, r) => l, (l, r) => r)
  }

  /** The value of the message a combiner returns. */
  function Op<T>(comb: Combiner<T>, l: T, r: T): T
  {
    if comb.takesLeft(l, r) then comb.left(l, r) else comb.right(l, r)
  }

  /** The left fold. */
  function Fold<T>(comb: Combiner<T>, first: T, rest: seq<T>): T
  {
    if rest == [] then first else Op(comb, Fold(comb, first, rest[..|rest| - 1]), rest[|rest| - 1])
  }

  class Message<T> {
    var value: T
    const totalSize: nat

    constructor (value: T, totalSize: nat)
      ensures this.value == value && this.totalSize == totalSize
    {
      this.value, this.totalSize := value, totalSize;
    }
  }

  method Combine<T>(comb: Combiner<T>, lhs: Message<T>, rhs: Message<T>) returns (res: Message<T>)
    requires lhs != rhs
    modifies lhs, rhs
    ensures res == lhs || res == rhs
    ensures res.value == Op(comb, old(lhs.value), old(rhs.value))
  {
    var l, r := lhs.value, rhs.value;
    lhs.value, rhs.value := comb.left(l, r), comb.right(l, r);
    res := if comb.takesLeft(l, r) then lhs else rhs;
  }

  ghost function Values<T>(msgs: seq<Message<T>>): (r: seq<T>)
    reads msgs
    ensures |r| == |msgs| && forall k :: 0 <= k < |r| ==> r[k] == msgs[k].value
  {
    seq(|msgs|, k requires 0 <= k < |msgs| reads msgs => msgs[k].value)
  }

  ghost predicate Distinct<T>(local: Message<T>, remote: seq<Message<T>>)
  {
    local !in remote && forall j, k :: 0 <= j < k < |remote| ==> remote[j] != remote[k]
  }

  /** Swapping the held message with one of the array keeps them all, and apart. */
  lemma {:induction false} Exchanged<T>(s: seq<Message<T>>, i: nat, m: Message<T>)
    requires i < |s| && Distinct(m, s)
    ensures multiset{s[i]} + multiset(s[i := m]) == multiset{m} + multiset(s)
    ensures Distinct(s[i], s[i := m])
  {
    var t := s[i := m];
    assert multiset(t) == multiset(s) - multiset{s[i]} + multiset{m};
    assert s[i] in s && m !in s;
    forall k | 0 <= k < |t| ensures t[k] != s[i] {}
    assert s[i] !in t;
  }

  /** One round of the loop: if the combiner picked the remote message, the held one
      takes its place, to be freed as remote. */
  method CombineOne<T>(comb: Combiner<T>, lhs: Message<T>, remote: array<Message<T>>, i: nat)
    returns (sum: Message<T>)
    requires i < remote.Length && Distinct(lhs, remote[..])
    modifies remote, lhs, remote[i]
    ensures sum.value == Op(comb, old(lhs.value), old(remote[i].value))
    ensures (sum == lhs && remote[..] == old(remote[..])) ||
            (sum == old(remote[i]) && remote[..] == old(remote[..])[i := lhs])
    ensures Distinct(sum, remote[..])
    ensures multiset{sum} + multiset(remote[..]) == multiset{lhs} + old(multiset(remote[..]))
  {
    Exchanged(remote[..], i, lhs);
    var rhs := remote[i];
    var res := Combine(comb, lhs, rhs);
    sum := lhs;
    if res != lhs {
      sum, remote[i] := rhs, lhs;
    }
  }

  /** After `i` rounds over the messages `all` with their values: `sum` holds the fold
      so far, the rest is untouched, and no message is lost. */
  ghost predicate Rounds<T>(
    comb: Combiner<T>, local: Message<T>, start: T, all: seq<Message<T>>, values: seq<T>,
    sum: Message<T>, remote: array<Message<T>>, i: nat)
    reads sum, remote, all
  {
    && i <= |values| == |all| == remote.Length
    && Distinct(sum, remote[..])
    && multiset{sum} + multiset(remote[..]) == multiset{local} + multiset(all)
    && (sum == local || sum in all)
    && (forall k :: i <= k < |all| ==> remote[k] == all[k] && all[k].value == values[k])
    && sum.value == Fold(comb, start, values[..i])
  }

  method Round<T>(
      comb: Combiner<T>, ghost local: Message<T>, ghost start: T, ghost all: seq<Message<T>>, ghost values: seq<T>,
      sum: Message<T>, remote: array<Message<T>>, i: nat) returns (next: Message<T>)
    requires Rounds(comb, local, start, all, values, sum, remote, i) && i < |all|
    modifies remote, sum, remote[i]
    ensures Rounds(comb, local, start, all, values, next, remote, i + 1)
  {
    next := CombineOne(comb, sum, remote, i);
    assert values[..i + 1][..i] == values[..i];
  }

  /** Combines the local message with the first `count` remote ones.  The message it
      returns holds the left fold; the others are left in `remote`, to be freed. */
  method ConverseCombiner<T>(comb: Combiner<T>, local: Message<T>, remote: array<Message<T>>, count: nat)
    returns (sum: Message<T>, size: nat)
    requires count <= remote.Length && Distinct(local, remote[..])
    modifies remote, local, remote[..]
    ensures sum.value == Fold(comb, old(local.value), old(Values(remote[..count])))
    ensures multiset{sum} + multiset(remote[..]) == multiset{local} + old(multiset(remote[..]))
    ensures remote[count..] == old(remote[count..]) && Values(remote[count..]) == old(Values(remote[count..]))
    ensures size == sum.totalSize
  {
    ghost var all, start := remote[..], local.value;
    ghost var values := Values(all);
    sum := local;
    var i := 0;
    while i < count
      invariant i <= count && Rounds(comb, local, start, all, values, sum, remote, i)
    {
      sum := Round(comb, local, start, all, values, sum, remote, i);
      i := i + 1;
    }
    size := sum.totalSize;
    assert old(Values(remote[..count])) == values[..count];
    assert Values(remote[count..]) == values[count..] == old(Values(remote[count..]));
  }
}
