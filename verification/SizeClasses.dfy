/** The size classes of the block pool. */
module SizeClasses {

  const CLASSES: nat := 25

  const CUTOFFS: seq<nat> := [
    64, 128, 256, 512, 1024, 2048, 4096,
    8192, 16384, 32768, 65536, 131072, 262144, 524288,
    1048576, 2097152, 4194304, 8388608, 16777216, 33554432, 67108864,
    134217728, 268435456, 536870912, 1073741824]

  const LARGEST: nat := 1073741824

  /** `c` is the smallest class whose blocks fit `sz` bytes. */
  ghost predicate LeastFit(sz: nat, c: nat)
  {
    c < CLASSES && sz <= CUTOFFS[c] && forall j :: 0 <= j < c ==> CUTOFFS[j] < sz
  }

  lemma {:induction false} Doubling(c: nat)
    requires 0 < c < CLASSES
    ensures CUTOFFS[c] == 2 * CUTOFFS[c - 1]
  {
  }

  /** The search of `which_pow2`.  Its loop would run one entry past the table on
      a size no class fits. */
  method WhichPow2(sz: nat) returns (i: nat)
    requires sz <= LARGEST
    ensures LeastFit(sz, i)
  {
    i := 0;
    while sz > CUTOFFS[i]
      invariant i < CLASSES
      invariant forall j :: 0 <= j < i ==> CUTOFFS[j] < sz
      decreases CLASSES - i
    {
      i := i + 1;
    }
  }

  function ClassFrom(sz: nat, i: nat): (c: nat)
    requires sz <= LARGEST && i < CLASSES && forall j :: 0 <= j < i ==> CUTOFFS[j] < sz
    ensures LeastFit(sz, c)
    decreases CLASSES - i
  {
    if sz <= CUTOFFS[i] then i else ClassFrom(sz, i + 1)
  }

  function ClassOf(sz: nat): (c: nat)
    requires sz <= LARGEST
    ensures LeastFit(sz, c)
  {
    ClassFrom(sz, 0)
  }

  /** A block of the least fitting class wastes less than half of itself, unless
      it is of the smallest class; and no other class is least fitting. */
  lemma {:induction false} FitIsTight(sz: nat, c: nat)
    requires LeastFit(sz, c)
    ensures c > 0 ==> CUTOFFS[c] < 2 * sz
    ensures sz <= LARGEST && c == ClassOf(sz)
  {
    if c > 0 { Doubling(c); assert CUTOFFS[c - 1] < sz; }
    assert forall j :: 0 <= j < CLASSES ==> CUTOFFS[j] <= LARGEST;
    assert LeastFit(sz, ClassOf(sz));
  }
}
