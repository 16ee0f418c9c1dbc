/** What a reduction tree computes when every node runs the combining loop on its own
    contribution and its children's results. */
module ReductionTree {
  import opened Reduction

  /** The children are in the order in which their results are combined. */
  datatype Tree<T> = Node(local: T, children: seq<Tree<T>>)

  function Reduce<T>(comb: Combiner<T>, t: Tree<T>): T
    decreases t, 0
  {
    Fold(comb, t.local, Results(comb, t.children))
  }

  function Results<T>(comb: Combiner<T>, ts: seq<Tree<T>>): seq<T>
    decreases ts, 1
  {
    if ts == [] then [] else Results(comb, ts[..|ts| - 1]) + [Reduce(comb, ts[|ts| - 1])]
  }

  /** All contributions made in the tree. */
  function Contributions<T>(t: Tree<T>): (r: seq<T>)
    ensures r != []
    decreases t, 0
  {
    [t.local] + Below(t.children)
  }

  function Below<T>(ts: seq<Tree<T>>): seq<T>
    decreases ts, 1
  {
    if ts == [] then [] else Below(ts[..|ts| - 1]) + Contributions(ts[|ts| - 1])
  }

  ghost predicate Associative<T(!new)>(comb: Combiner<T>)
  {
    forall a, b, c :: Op(comb, Op(comb, a, b), c) == Op(comb, a, Op(comb, b, c))
  }

  ghost predicate Commutative<T(!new)>(comb: Combiner<T>)
  {
    forall a, b :: Op(comb, a, b) == Op(comb, b, a)
  }

  function FoldAll<T>(comb: Combiner<T>, vs: seq<T>): T
    requires vs != []
  {
    Fold(comb, vs[0], vs[1..])
  }

  lemma {:induction false} FoldConcat<T>(comb: Combiner<T>, x: T, a: seq<T>, b: seq<T>)
    ensures Fold(comb, x, a + b) == Fold(comb, Fold(comb, x, a), b)
  {
    if b == [] {
      assert a + b == a;
    } else {
      FoldConcat(comb, x, a, b[..|b| - 1]);
      assert (a + b)[..|a + b| - 1] == a + b[..|b| - 1];
    }
  }

  lemma {:induction false} FoldOut<T(!new)>(comb: Combiner<T>, x: T, y: T, a: seq<T>)
    requires Associative(comb)
    ensures Fold(comb, Op(comb, x, y), a) == Op(comb, x, Fold(comb, y, a))
  {
    if a != [] {
      FoldOut(comb, x, y, a[..|a| - 1]);
    }
  }

  lemma {:induction false} FoldOne<T>(comb: Combiner<T>, x: T, y: T)
    ensures Fold(comb, x, [y]) == Op(comb, x, y)
  {
    assert [y][..0] == [];
  }

  lemma {:induction false} FoldNested<T(!new)>(comb: Combiner<T>, x: T, vs: seq<T>)
    requires Associative(comb) && vs != []
    ensures Fold(comb, x, vs) == Op(comb, x, FoldAll(comb, vs))
  {
    assert vs == [vs[0]] + vs[1..];
    FoldConcat(comb, x, [vs[0]], vs[1..]);
    FoldOne(comb, x, vs[0]);
    FoldOut(comb, x, vs[0], vs[1..]);
  }

  /** An associative combiner gives the fold of all contributions. */
  lemma {:induction false} ReduceFolds<T(!new)>(comb: Combiner<T>, t: Tree<T>)
    requires Associative(comb)
    ensures Reduce(comb, t) == FoldAll(comb, Contributions(t))
    decreases t, 0
  {
    ResultsFold(comb, t.local, t.children);
    assert Contributions(t)[1..] == Below(t.children);
  }

  lemma {:induction false} ResultsFold<T(!new)>(comb: Combiner<T>, x: T, ts: seq<Tree<T>>)
    requires Associative(comb)
    ensures Fold(comb, x, Results(comb, ts)) == Fold(comb, x, Below(ts))
    decreases ts, 1
  {
    if ts != [] {
      var less, last := ts[..|ts| - 1], ts[|ts| - 1];
      ResultsFold(comb, x, less);
      ReduceFolds(comb, last);
      FoldConcat(comb, x, Results(comb, less), [Reduce(comb, last)]);
      FoldOne(comb, Fold(comb, x, Results(comb, less)), Reduce(comb, last));
      FoldConcat(comb, x, Below(less), Contributions(last));
      FoldNested(comb, Fold(comb, x, Below(less)), Contributions(last));
    }
  }

  function Without<T>(s: seq<T>, k: nat): seq<T>
    requires k < |s|
  {
    s[..k] + s[k + 1..]
  }

  lemma {:induction false} FoldAllMoves<T(!new)>(comb: Combiner<T>, vs: seq<T>, k: nat)
    requires Associative(comb) && Commutative(comb) && k < |vs|
    ensures FoldAll(comb, vs) == FoldAll(comb, [vs[k]] + Without(vs, k))
  {
    var x := vs[k];
    if k == 0 {
      assert [x] + Without(vs, k) == vs;
    } else {
      var a, b := vs[..k], vs[k + 1..];
      assert vs == a + ([x] + b) && vs[1..] == a[1..] + ([x] + b);
      var y := FoldAll(comb, a);
      FoldConcat(comb, vs[0], a[1..], [x] + b);
      FoldConcat(comb, y, [x], b);
      FoldOne(comb, y, x);
      FoldConcat(comb, x, a, b);
      FoldNested(comb, x, a);
      assert ([x] + Without(vs, k))[1..] == a + b;
    }
  }

  lemma {:induction false} TakeOut<T>(a: seq<T>, b: seq<T>) returns (k: nat)
    requires a != [] && multiset(a) == multiset(b)
    ensures k < |b| && b[k] == a[0] && multiset(a[1..]) == multiset(Without(b, k))
  {
    assert a == [a[0]] + a[1..];
    assert a[0] in multiset(b);
    k :| 0 <= k < |b| && b[k] == a[0];
    assert b == b[..k] + [a[0]] + b[k + 1..];
    assert multiset(b) == multiset(Without(b, k)) + multiset{a[0]};
    assert multiset(a) == multiset(a[1..]) + multiset{a[0]};
    assert multiset(a[1..]) == multiset(a) - multiset{a[0]};
  }

  lemma {:induction false} FoldPermutes<T(!new)>(comb: Combiner<T>, a: seq<T>, b: seq<T>)
    requires Associative(comb) && Commutative(comb) && a != [] && multiset(a) == multiset(b)
    ensures b != [] && FoldAll(comb, a) == FoldAll(comb, b)
    decreases |a|
  {
    var k := TakeOut(a, b);
    var x, more, rest := a[0], a[1..], Without(b, k);
    FoldAllMoves(comb, b, k);
    assert ([x] + rest)[1..] == rest;
    assert |multiset(more)| == |multiset(rest)|;
    if more != [] {
      FoldPermutes(comb, more, rest);
      FoldNested(comb, x, more);
      FoldNested(comb, x, rest);
    }
  }

  /** For an associative and commutative combiner the result depends on the contributions
      alone: neither the shape of the tree nor the order of arrival matters. */
  lemma {:induction false} ShapeIrrelevant<T(!new)>(comb: Combiner<T>, t: Tree<T>, u: Tree<T>)
    requires Associative(comb) && Commutative(comb)
    requires multiset(Contributions(t)) == multiset(Contributions(u))
    ensures Reduce(comb, t) == Reduce(comb, u)
  {
    ReduceFolds(comb, t);
    ReduceFolds(comb, u);
    FoldPermutes(comb, Contributions(t), Contributions(u));
  }

  function Sum(vs: seq<int>): int
  {
    if vs == [] then 0 else Sum(vs[..|vs| - 1]) + vs[|vs| - 1]
  }

  lemma {:induction false} FoldAdds(x: int, vs: seq<int>)
    ensures Fold(Add(), x, vs) == x + Sum(vs)
  {
    if vs != [] {
      FoldAdds(x, vs[..|vs| - 1]);
    }
  }

  lemma {:induction false} SumConcat(a: seq<int>, b: seq<int>)
    ensures Sum(a + b) == Sum(a) + Sum(b)
  {
    if b == [] {
      assert a + b == a;
    } else {
      SumConcat(a, b[..|b| - 1]);
      assert (a + b)[..|a + b| - 1] == a + b[..|b| - 1];
    }
  }

  /** `add` computes the sum of all contributions over any tree. */
  lemma {:induction false} AddSums(t: Tree<int>)
    ensures Reduce(Add(), t) == Sum(Contributions(t))
  {
    ReduceFolds(Add(), t);
    FoldAdds(t.local, Contributions(t)[1..]);
    assert Contributions(t) == [t.local] + Contributions(t)[1..];
    SumConcat([t.local], Contributions(t)[1..]);
    assert Sum([t.local]) == t.local by {
      assert [t.local][..0] == [];
    }
  }

  /** `nop` computes the root's own contribution. */
  lemma {:induction false} NopKeepsRoot<T>(t: Tree<T>)
    ensures Reduce(Nop(), t) == t.local
  {
    FoldNop(t.local, Results(Nop(), t.children));
  }

  lemma {:induction false} FoldNop<T>(x: T, vs: seq<T>)
    ensures Fold(Nop(), x, vs) == x
  {
    if vs != [] {
      FoldNop(x, vs[..|vs| - 1]);
    }
  }

  ghost predicate TotalPreorder<T(!new)>(better: (T, T) -> bool)
  {
    && (forall a, b :: better(a, b) || better(b, a))
    && forall a, b, c :: better(a, b) && better(b, c) ==> better(a, c)
  }

  ghost predicate Best<T(!new)>(better: (T, T) -> bool, x: T, vs: seq<T>)
  {
    x in vs && forall v :: v in vs ==> better(x, v)
  }

  lemma {:induction false} SelectAssociative<T(!new)>(better: (T, T) -> bool)
    requires TotalPreorder(better)
    ensures Associative(Select(better))
  {
    var comb := Select(better);
    forall a, b, c ensures Op(comb, Op(comb, a, b), c) == Op(comb, a, Op(comb, b, c)) {
      assert better(a, b) || better(b, a);
      assert better(b, c) || better(c, b);
      assert better(a, c) || better(c, a);
    }
  }

  lemma {:induction false} FoldBest<T(!new)>(better: (T, T) -> bool, x: T, vs: seq<T>)
    requires TotalPreorder(better)
    ensures Best(better, Fold(Select(better), x, vs), [x] + vs)
  {
    assert better(x, x);
    if vs != [] {
      var less, v := vs[..|vs| - 1], vs[|vs| - 1];
      FoldBest(better, x, less);
      assert [x] + vs == [x] + less + [v] && better(v, v);
      var y := Fold(Select(better), x, less);
      assert better(y, v) || better(v, y);
    }
  }

  /** A combiner that selects, and so may return the remote message, gives a contribution
      at least as good as any, over any tree. */
  lemma {:induction false} SelectsBest<T(!new)>(better: (T, T) -> bool, t: Tree<T>)
    requires TotalPreorder(better)
    ensures Best(better, Reduce(Select(better), t), Contributions(t))
  {
    SelectAssociative(better);
    ReduceFolds(Select(better), t);
    FoldBest(better, t.local, Contributions(t)[1..]);
    assert Contributions(t) == [t.local] + Contributions(t)[1..];
  }
}
