/** The pools and queues as objects in shared memory.  Each method performs one call
    in place, without interruption, as steps of module `BlockLists`; other threads may
    be anywhere in their calls. */
module SharedBlocksObject {
  import opened Wrappers
  import opened SizeClasses
  import opened BlockLists
  import opened BlockProof
  import opened BlockCalls

  class SharedBlocks {
    const cfg: Config
    var heads: map<ListId, Ptr>
    var cells: seq<Cell>
    /** The steps of all threads so far. */
    ghost var run: seq<Step>

    ghost predicate Valid()
      reads this
    {
      IsRun(cfg, run) && After(cfg, run).heads == heads && After(cfg, run).cells == cells
    }

    ghost function Value(): State
      requires Valid()
      reads this
    {
      After(cfg, run)
    }

    constructor (cfg: Config)
      ensures this.cfg == cfg && Valid() && run == []
    {
      this.cfg := cfg;
      heads, cells, run := map l | l in cfg.lists :: Tail, [], [];
    }

    /** Attaches to memory that any run of other threads has left. */
    constructor Attach(cfg: Config, heads: map<ListId, Ptr>, cells: seq<Cell>, ghost run: seq<Step>)
      requires IsRun(cfg, run) && After(cfg, run).heads == heads && After(cfg, run).cells == cells
      ensures this.cfg == cfg && Valid() && this.run == run
    {
      this.cfg, this.heads, this.cells, this.run := cfg, heads, cells, run;
    }

    method FindClass(sz: nat) returns (pt: nat)
      requires sz <= LARGEST
      ensures pt == ClassOf(sz)
    {
      pt := WhichPow2(sz);
      FitIsTight(sz, pt);
    }

    method Exchange(l: ListId, p: Ptr) returns (previous: Ptr)
      requires l in heads
      modifies this`heads
      ensures previous == old(heads)[l] && heads == old(heads)[l := p]
    {
      previous := heads[l];
      heads := heads[l := p];
    }

    /** Puts block `b` on list `l`, unless another thread has the list. */
    method PutOn(l: ListId, b: Block) returns (ok: bool)
      requires l in heads && b < |cells|
      modifies this`heads, this`cells
      ensures ok == (old(heads)[l] != Null)
      ensures heads == if ok then old(heads)[l := At(b)] else old(heads)
      ensures cells == if ok then old(cells)[b := old(cells)[b].(next := old(heads)[l])] else old(cells)
    {
      var prev := Exchange(l, Null);
      if prev == Null {
        assert heads == old(heads);
        return false;
      }
      cells := cells[b := cells[b].(next := prev)];
      var check := Exchange(l, At(b));
      assert check == Null;
      Restored(old(heads), l, Null, At(b));
      return true;
    }

    /** Takes the top block off list `l`, if there is one and nobody has the list. */
    method GetFrom(l: ListId) returns (block: Option<Block>)
      requires l in heads && (heads[l].At? ==> heads[l].b < |cells|)
      modifies this`heads
      ensures block == TopOf(old(heads), l)
      ensures heads == if block.Some? then old(heads)[l := cells[block.value].next] else old(heads)
    {
      var prev := Exchange(l, Null);
      if prev == Null {
        assert heads == old(heads);
        return None;
      }
      var next := if prev == Tail then prev else cells[prev.b].next;
      var check := Exchange(l, next);
      assert check == Null;
      Restored(old(heads), l, Null, next);
      block := if prev == Tail then None else Some(prev.b);
    }

    /** Allocates a block and, if it has exactly its class's size, tries to put it on
        its class's list `l`. */
    method PutNew(pe: nat, size: nat, ghost l: ListId, ghost exact: bool) returns (ok: bool)
      requires size <= LARGEST && l == Pool(pe, ClassOf(size)) && exact == (size == CUTOFFS[ClassOf(size)])
      requires l in heads
      modifies this`heads, this`cells
      ensures ok == (exact && old(heads)[l] != Null)
      ensures heads == if ok then old(heads)[l := At(|old(cells)|)] else old(heads)
      ensures cells == old(cells) + [Cell(if ok then old(heads)[l] else Null, size, false)]
    {
      var b := |cells|;
      cells := cells + [Cell(Null, size, false)];
      var pt := FindClass(size);
      ok := size == CUTOFFS[pt];
      if ok {
        ok := PutOn(Pool(pe, pt), b);
      }
    }

    /** A new block of `size` bytes goes to its class's list, if it has exactly the
        class's size and nobody has the list; else it is lost. */
    method Lput(t: nat, pe: nat, size: nat) returns (ok: bool)
      requires Valid() && Enabled(cfg, Value(), Alloc(t, size, pe))
      modifies this
      ensures Valid()
      ensures ok == (size == CUTOFFS[ClassOf(size)] && old(heads)[Pool(pe, ClassOf(size))] != Null)
      ensures Places(old(Value()), t, Pool(pe, ClassOf(size)), size, ok, Value())
    {
      ghost var l, exact := Pool(pe, ClassOf(size)), size == CUTOFFS[ClassOf(size)];
      ok := LputOn(t, pe, size, l, exact);
    }

    method LputOn(t: nat, pe: nat, size: nat, ghost l: ListId, ghost exact: bool) returns (ok: bool)
      requires Valid() && Enabled(cfg, Value(), Alloc(t, size, pe))
      requires l == Pool(pe, ClassOf(size)) && exact == (size == CUTOFFS[ClassOf(size)])
      modifies this
      ensures Valid() && l in old(heads) && ok == (exact && old(heads)[l] != Null)
      ensures Places(old(Value()), t, l, size, ok, Value())
    {
      ghost var r := LputPlaces(cfg, run, t, size, pe, l, exact);
      ghost var will := exact && heads[l] != Null;
      PlacesMemory(Value(), t, l, size, will, After(cfg, r));
      ok := PutNew(pe, size, l, exact);
      run := r;
    }

    /** Takes a block that fits `sz` bytes out of a pool and marks it used; its
        assertion that the block was not in use holds. */
    method Ralloc(t: nat, pe: nat, sz: nat) returns (block: Option<Block>)
      requires Valid() && Enabled(cfg, Value(), BlockLists.Ralloc(t, pe, sz))
      modifies this
      ensures Valid()
      ensures Yields(old(Value()), t, Pool(pe, ClassOf(sz)), block, Value())
      ensures block.Some? ==> block.value < |cells| && cells[block.value].size >= sz
    {
      ghost var r := RallocMemory(cfg, run, t, pe, sz);
      var pt := FindClass(sz);
      block := GetFrom(Pool(pe, pt));
      if block.Some? {
        var used := cells[block.value].used;
        cells := cells[block.value := cells[block.value].(used := true)];
        assert !used;
      }
      run := r;
    }

    /** Hands block `b` over to the queue of `pe`, unless another thread has it. */
    method Enqueue(t: nat, b: Block, pe: nat) returns (ok: bool)
      requires Valid() && Enabled(cfg, Value(), BlockLists.Enqueue(t, b, pe))
      modifies this
      ensures Valid() && ok == (old(heads)[Queue(pe)] != Null)
      ensures Value() == if ok then Put(old(Value()), Queue(pe), b) else old(Value())
    {
      ghost var r := EnqueueCall(cfg, run, t, b, pe);
      ok := PutOn(Queue(pe), b);
      run := r;
    }

    /** Takes the latest block out of the queue of `pe`. */
    method Dequeue(t: nat, pe: nat) returns (block: Option<Block>)
      requires Valid() && Enabled(cfg, Value(), BlockLists.Dequeue(t, pe))
      modifies this
      ensures Valid()
      ensures Yields(old(Value()), t, Queue(pe), block, Value())
    {
      ghost var r := DequeueMemory(cfg, run, t, pe);
      block := GetFrom(Queue(pe));
      run := r;
    }
  }
}
