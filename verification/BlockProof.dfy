/** The invariant of the block lists: who has which list, what each list links,
    and where every block is. */
module BlockProof {
  import opened Wrappers
  import opened SizeClasses
  import opened BlockLists

  ghost function Head(chain: seq<Block>): Ptr
  {
    if chain == [] then Tail else At(chain[0])
  }

  /** The list a thread has taken. */
  ghost function Taken(q: Thread): Option<ListId>
  {
    match q
    case Took(l, _, _) => Some(l)
    case Linked(l, _) => Some(l)
    case Opened(l, _, _) => Some(l)
    case Read(l, _, _, _) => Some(l)
    case _ => None
  }

  /** The head of a list is null exactly while somebody has the list; that thread
      is between its two exchanges on it. */
  ghost predicate LockOk(s: State, l: ListId)
    requires l in s.heads && l in s.chains && l in s.holder
  {
    match s.holder[l]
    case None => s.heads[l] == Head(s.chains[l])
    case Some(t) => s.heads[l] == Null && t < |s.threads| && Taken(s.threads[t]) == Some(l)
  }

  /** Following the links from `p` visits the blocks of `c` and ends at the tail. */
  ghost predicate Links(cells: seq<Cell>, p: Ptr, c: seq<Block>)
    decreases |c|
  {
    if c == [] then p == Tail
    else p == At(c[0]) && c[0] < |cells| && Links(cells, cells[c[0]].next, c[1..])
  }

  ghost predicate Distinct(c: seq<Block>)
  {
    forall i, j :: 0 <= i < j < |c| ==> c[i] != c[j]
  }

  ghost predicate AllIn(places: seq<Place>, c: seq<Block>, l: ListId)
  {
    forall b :: b in c ==> b < |places| && places[b] == InList(l)
  }

  /** A list links its blocks, and they are in it only, once. */
  ghost predicate ChainOk(s: State, l: ListId)
    requires l in s.chains
  {
    var c := s.chains[l];
    Links(s.cells, Head(c), c) && Distinct(c) && AllIn(s.places, c, l)
  }

  lemma {:induction false} LinksFrame(cells: seq<Cell>, cells': seq<Cell>, p: Ptr, c: seq<Block>)
    requires Links(cells, p, c) && |cells| <= |cells'|
    requires forall b :: b in c && b < |cells| ==> cells'[b].next == cells[b].next
    ensures Links(cells', p, c)
    decreases |c|
  {
    if c != [] { LinksFrame(cells, cells', cells[c[0]].next, c[1..]); }
  }

  /** The top block links to the top of the rest. */
  lemma {:induction false} RestLinks(cells: seq<Cell>, c: seq<Block>)
    requires c != [] && Links(cells, Head(c), c)
    ensures Links(cells, Head(c[1..]), c[1..]) && cells[c[0]].next == Head(c[1..])
  {
    assert Links(cells, cells[c[0]].next, c[1..]);
  }

  lemma {:induction false} PopKeeps(places: seq<Place>, c: seq<Block>, l: ListId, p: Place)
    requires c != [] && Distinct(c) && AllIn(places, c, l)
    ensures Distinct(c[1..]) && c[0] < |places| && AllIn(places[c[0] := p], c[1..], l)
    ensures forall b :: b in c && b != c[0] ==> b in c[1..]
  {
    assert c[0] in c;
    assert forall b :: b in c[1..] ==> b in c && b != c[0];
  }

  lemma {:induction false} PushKeeps(cells: seq<Cell>, places: seq<Place>, c: seq<Block>, l: ListId, b: Block)
    requires Links(cells, Head(c), c) && Distinct(c) && AllIn(places, c, l)
    requires b < |places| == |cells| && places[b] != InList(l) && cells[b].next == Head(c)
    ensures Links(cells, At(b), [b] + c) && Distinct([b] + c) && AllIn(places[b := InList(l)], [b] + c, l)
  {
    assert ([b] + c)[1..] == c;
    assert b !in c;
  }

  /** `b` has the size of the class for `sz` bytes. */
  ghost predicate Fits(s: State, b: Block, sz: nat)
    requires b < |s.cells|
  {
    sz <= LARGEST && s.cells[b].size == CUTOFFS[ClassOf(sz)]
  }

  ghost predicate MayPut(s: State, t: nat, l: ListId, b: Block)
    requires |s.places| == |s.cells|
  {
    && b < |s.cells|
    && if l.Pool? then s.places[b] == Fresh(t) && l.class_ < CLASSES && s.cells[b].size == CUTOFFS[l.class_]
       else s.places[b] == Held(t) && s.cells[b].used
  }

  ghost predicate Asked(l: ListId, sz: nat)
  {
    l.Pool? ==> sz <= LARGEST && l.class_ == ClassOf(sz)
  }

  ghost predicate ThreadOk(cfg: Config, s: State, t: nat)
    requires Shape(cfg, s) && t < |s.threads|
  {
    (Taken(s.threads[t]).Some? ==>
       Taken(s.threads[t]).value in cfg.lists && s.holder[Taken(s.threads[t]).value] == Some(t)) &&
    match s.threads[t]
    case Idle => true
    case Putting(b, pe) =>
      && b < |s.cells| && s.places[b] == Fresh(t)
      && s.cells[b].size <= LARGEST && Pool(pe, ClassOf(s.cells[b].size)) in cfg.lists
    case Took(l, b, prev) => prev == Head(s.chains[l]) && MayPut(s, t, l, b)
    case Linked(l, b) => MayPut(s, t, l, b) && s.cells[b].next == Head(s.chains[l])
    case Opened(l, prev, sz) => prev == Head(s.chains[l]) && Asked(l, sz)
    case Read(l, b, next,
        sz) => s.chains[l] != [] && b == s.chains[l][0] && next == Head(s.chains[l][1..]) && Asked(l, sz)
    case Found(b, sz) => b < |s.cells| && s.places[b] == Held(t) && !s.cells[b].used && Fits(s, b, sz)
  }

  /** The block a thread works on without having it in a list. */
  ghost predicate WorksOn(q: Thread, b: Block)
  {
    match q
    case Putting(c, _) => b == c
    case Took(l, c, _) => b == c
    case Linked(l, c) => b == c
    case _ => false
  }

  ghost predicate BlockOk(cfg: Config, s: State, b: Block)
    requires Shape(cfg, s) && b < |s.cells|
  {
    match s.places[b]
    case Fresh(t) => !s.cells[b].used && t < cfg.threads && WorksOn(s.threads[t], b)
    case InList(l) =>
      && l in cfg.lists && b in s.chains[l]
      && s.cells[b].used == l.Queue?
      && (l.Pool? ==> l.class_ < CLASSES && s.cells[b].size == CUTOFFS[l.class_])
    case Held(t) => t < cfg.threads && (s.cells[b].used || (s.threads[t].Found? && s.threads[t].b == b))
    case Received(t) => s.cells[b].used
    case Freed => s.cells[b].used
    case Leaked => !s.cells[b].used
  }

  ghost predicate Inv(cfg: Config, s: State)
  {
    && Shape(cfg, s) && !s.failed
    && (forall l :: l in cfg.lists ==> LockOk(s, l) && ChainOk(s, l))
    && (forall t :: 0 <= t < cfg.threads ==> ThreadOk(cfg, s, t))
    && (forall b :: 0 <= b < |s.cells| ==> BlockOk(cfg, s, b))
  }

  lemma {:induction false} InitInv(cfg: Config)
    ensures Inv(cfg, Init(cfg))
  {
  }

  // ---------------------------------------------------------------- steps that leave the lists alone

  /** Thread `t` does something to block `b`, which is and stays in no list. */
  ghost predicate Local(cfg: Config, s: State, s': State, t: nat, b: Block)
  {
    && Inv(cfg, s) && Shape(cfg, s') && t < cfg.threads && b < |s.cells| == |s'.cells|
    && s'.heads == s.heads && s'.holder == s.holder && s'.chains == s.chains && !s'.failed
    && s'.threads == s.threads[t := s'.threads[t]] && Taken(s'.threads[t]) == Taken(s.threads[t])
    && s'.cells == s.cells[b := s'.cells[b]] && s'.places == s.places[b := s'.places[b]]
    && !s'.places[b].InList? && (s.places[b] == Fresh(t) || s.places[b] == Held(t) || s.places[b] == Received(t))
    && (s'.threads[t] == s.threads[t] || WorksOn(s.threads[t], b) || (s.threads[t].Found? && s.threads[t].b == b))
  }

  lemma {:induction false} LocalList(cfg: Config, s: State, s': State, t: nat, b: Block, l: ListId)
    requires Local(cfg, s, s', t, b) && l in cfg.lists
    ensures LockOk(s', l) && ChainOk(s', l)
  {
    assert LockOk(s, l) && ChainOk(s, l);
    LinksFrame(s.cells, s'.cells, Head(s.chains[l]), s.chains[l]);
  }

  lemma {:induction false} LocalThread(cfg: Config, s: State, s': State, t: nat, b: Block, u: nat)
    requires Local(cfg, s, s', t, b) && u < cfg.threads && u != t
    ensures ThreadOk(cfg, s', u)
  {
    assert ThreadOk(cfg, s, u);
  }

  lemma {:induction false} LocalBlock(cfg: Config, s: State, s': State, t: nat, b: Block, c: Block)
    requires Local(cfg, s, s', t, b) && c < |s.cells| && c != b
    ensures BlockOk(cfg, s', c)
  {
    assert BlockOk(cfg, s, c);
  }

  lemma {:induction false} LocalStep(cfg: Config, s: State, s': State, t: nat, b: Block)
    requires Local(cfg, s, s', t, b) && ThreadOk(cfg, s', t) && BlockOk(cfg, s', b)
    ensures Inv(cfg, s')
  {
    forall l | l in cfg.lists ensures LockOk(s', l) && ChainOk(s', l) {
      LocalList(cfg, s, s', t, b, l);
    }
    forall u | 0 <= u < cfg.threads ensures ThreadOk(cfg, s', u) {
      if u != t { LocalThread(cfg, s, s', t, b, u); }
    }
    forall c | 0 <= c < |s'.cells| ensures BlockOk(cfg, s', c) {
      if c != b { LocalBlock(cfg, s, s', t, b, c); }
    }
  }

  lemma {:induction false} AllocLists(cfg: Config, s: State, t: nat, size: nat, pe: nat, l: ListId)
    requires Inv(cfg, s) && Enabled(cfg, s, Alloc(t, size, pe)) && l in cfg.lists
    ensures var s' := Next(cfg, s, Alloc(t, size, pe)); LockOk(s', l) && ChainOk(s', l)
  {
    assert LockOk(s, l) && ChainOk(s, l);
    LinksFrame(s.cells, s.cells + [Cell(Null, size, false)], Head(s.chains[l]), s.chains[l]);
  }

  lemma {:induction false} AllocStep(cfg: Config, s: State, t: nat, size: nat, pe: nat)
    requires Inv(cfg, s) && Enabled(cfg, s, Alloc(t, size, pe))
    ensures Inv(cfg, Next(cfg, s, Alloc(t, size, pe)))
  {
    var s' := Next(cfg, s, Alloc(t, size, pe));
    forall l | l in cfg.lists ensures LockOk(s', l) && ChainOk(s', l) {
      AllocLists(cfg, s, t, size, pe, l);
    }
    forall u | 0 <= u < cfg.threads ensures ThreadOk(cfg, s', u) {
      assert ThreadOk(cfg, s, u);
    }
    forall c | 0 <= c < |s'.cells| ensures BlockOk(cfg, s', c) {
      if c < |s.cells| { assert BlockOk(cfg, s, c); }
    }
  }

  lemma {:induction false} ResizeStep(cfg: Config, s: State, t: nat, b: Block, sz: nat)
    requires Inv(cfg, s) && Enabled(cfg, s, Resize(t, b, sz))
    ensures Inv(cfg, Next(cfg, s, Resize(t, b, sz)))
  {
    assert ThreadOk(cfg, s, t) && BlockOk(cfg, s, b);
    LocalStep(cfg, s, Next(cfg, s, Resize(t, b, sz)), t, b);
  }

  lemma {:induction false} FreeStep(cfg: Config, s: State, t: nat, b: Block)
    requires Inv(cfg, s) && Enabled(cfg, s, Free(t, b))
    ensures Inv(cfg, Next(cfg, s, Free(t, b)))
  {
    assert ThreadOk(cfg, s, t) && BlockOk(cfg, s, b);
    LocalStep(cfg, s, Next(cfg, s, Free(t, b)), t, b);
  }

  lemma {:induction false} FoundStep(cfg: Config, s: State, t: nat)
    requires Inv(cfg, s) && Enabled(cfg, s, Go(t)) && s.threads[t].Found?
    ensures Inv(cfg, Next(cfg, s, Go(t)))
  {
    assert ThreadOk(cfg, s, t) && BlockOk(cfg, s, s.threads[t].b);
    LocalStep(cfg, s, Next(cfg, s, Go(t)), t, s.threads[t].b);
  }

  lemma {:induction false} LinkStep(cfg: Config, s: State, t: nat)
    requires Inv(cfg, s) && Enabled(cfg, s, Go(t)) && s.threads[t].Took?
    ensures Inv(cfg, Next(cfg, s, Go(t)))
  {
    assert ThreadOk(cfg, s, t) && BlockOk(cfg, s, s.threads[t].b);
    LocalStep(cfg, s, Next(cfg, s, Go(t)), t, s.threads[t].b);
  }

  // ---------------------------------------------------------------- exchanges

  /** A block thread `t` has, or one of list `l`. */
  ghost predicate Within(p: Place, t: nat, l: ListId)
  {
    p == Fresh(t) || p == Held(t) || p == Received(t) || p == InList(l) || p == Leaked
  }

  /** Thread `t` does something to list `l`, to the chain of `l`, and to the place
      of one block `b` of its own or of `l`; all cells stay. */
  ghost predicate Touches(cfg: Config, s: State, s': State, t: nat, l: ListId, b: Block)
  {
    && Shape(cfg, s) && Shape(cfg, s') && t < cfg.threads && l in cfg.lists && s'.cells == s.cells && !s'.failed
    && s'.threads == s.threads[t := s'.threads[t]]
    && s'.heads == s.heads[l := s'.heads[l]] && s'.holder == s.holder[l := s'.holder[l]]
    && s'.chains == s.chains[l := s'.chains[l]]
    && (s.holder[l] == Some(t) || (s.holder[l] == None && s'.chains[l] == s.chains[l]))
    && (Taken(s.threads[t]) == None || Taken(s.threads[t]) == Some(l))
    && s'.places == (if b < |s.places| then s.places[b := s'.places[b]] else s.places)
    && (b < |s.places| ==> Within(s.places[b], t, l) && s.places[b] != Leaked && Within(s'.places[b], t, l))
  }

  ghost predicate OnList(cfg: Config, s: State, s': State, t: nat, l: ListId, b: Block)
  {
    Inv(cfg, s) && Touches(cfg, s, s', t, l, b)
  }

  /** What a thread that has list `l` knows. */
  ghost predicate Holds(cfg: Config, s: State, t: nat, l: ListId)
  {
    && Shape(cfg, s) && t < cfg.threads && l in cfg.lists && !s.failed
    && Taken(s.threads[t]) == Some(l) && s.holder[l] == Some(t) && s.heads[l] == Null
  }

  lemma {:induction false} TakerHolds(cfg: Config, s: State, t: nat, l: ListId)
    requires Inv(cfg, s) && t < cfg.threads && Taken(s.threads[t]) == Some(l)
    ensures Holds(cfg, s, t, l)
  {
    assert ThreadOk(cfg, s, t);
    assert LockOk(s, l);
  }

  /** A list nobody has. */
  ghost predicate Unheld(cfg: Config, s: State, t: nat, l: ListId)
  {
    && Shape(cfg, s) && t < cfg.threads && l in cfg.lists && !s.failed
    && Taken(s.threads[t]) == None && s.holder[l] == None && s.heads[l] == Head(s.chains[l])
  }

  lemma {:induction false} IsUnheld(cfg: Config, s: State, t: nat, l: ListId)
    requires Inv(cfg, s) && t < cfg.threads && l in cfg.lists && Taken(s.threads[t]) == None && s.heads[l] != Null
    ensures Unheld(cfg, s, t, l)
  {
    assert LockOk(s, l);
  }

  lemma {:induction false} OtherLock(cfg: Config, s: State, s': State, t: nat, l: ListId, b: Block, k: ListId)
    requires OnList(cfg, s, s', t, l, b) && k in cfg.lists && k != l
    ensures LockOk(s', k)
  {
    assert LockOk(s, k);
  }

  lemma {:induction false} OtherChain(cfg: Config, s: State, s': State, t: nat, l: ListId, b: Block, k: ListId)
    requires OnList(cfg, s, s', t, l, b) && k in cfg.lists && k != l
    ensures ChainOk(s', k)
  {
    assert ChainOk(s, k);
  }

  lemma {:induction false} OtherThread(cfg: Config, s: State, s': State, t: nat, l: ListId, b: Block, u: nat)
    requires OnList(cfg, s, s', t, l, b) && u < cfg.threads && u != t
    ensures ThreadOk(cfg, s', u)
  {
    assert ThreadOk(cfg, s, u) && s'.threads[u] == s.threads[u];
    if Taken(s.threads[u]).Some? {
      var k := Taken(s.threads[u]).value;
      assert s.holder[k] == Some(u);
      assert k != l;
    }
  }

  lemma {:induction false} OtherBlock(cfg: Config, s: State, s': State, t: nat, l: ListId, b: Block, c: Block)
    requires OnList(cfg, s, s', t, l, b) && c < |s.cells| && c != b
    requires c in s.chains[l] ==> c in s'.chains[l]
    requires WorksOn(s.threads[t], c) ==> WorksOn(s'.threads[t], c)
    requires s.threads[t].Found? ==> s'.threads[t] == s.threads[t]
    ensures BlockOk(cfg, s', c)
  {
    assert BlockOk(cfg, s, c);
  }

  lemma {:induction false} OnListStep(cfg: Config, s: State, s': State, t: nat, l: ListId, b: Block)
    requires OnList(cfg, s, s', t, l, b)
    requires forall c :: 0 <= c < |s.cells| && c != b ==>
      (c in s.chains[l] ==> c in s'.chains[l]) && (WorksOn(s.threads[t], c) ==> WorksOn(s'.threads[t], c))
    requires !s.threads[t].Found?
    requires LockOk(s', l) && ChainOk(s', l) && ThreadOk(cfg, s', t) && (b < |s.cells| ==> BlockOk(cfg, s', b))
    ensures Inv(cfg, s')
  {
    forall k | k in cfg.lists ensures LockOk(s', k) && ChainOk(s', k) {
      if k != l { OtherLock(cfg, s, s', t, l, b, k); OtherChain(cfg, s, s', t, l, b, k); }
    }
    forall u | 0 <= u < cfg.threads ensures ThreadOk(cfg, s', u) {
      if u != t { OtherThread(cfg, s, s', t, l, b, u); }
    }
    forall c | 0 <= c < |s'.cells| ensures BlockOk(cfg, s', c) {
      if c != b { OtherBlock(cfg, s, s', t, l, b, c); }
    }
  }

  lemma {:induction false} GetTouches(cfg: Config, s: State, t: nat, l: ListId, sz: nat)
    requires Unheld(cfg, s, t, l)
    ensures Touches(cfg, s, TakeToGet(s, t, l, sz), t, l, |s.cells|)
  {
  }

  lemma {:induction false} TakenToGet(cfg: Config, s: State, t: nat, l: ListId, sz: nat)
    requires Unheld(cfg, s, t, l) && ChainOk(s, l) && Asked(l, sz)
    ensures var s' := TakeToGet(s, t, l, sz);
      Shape(cfg, s') && LockOk(s', l) && ChainOk(s', l) && ThreadOk(cfg, s', t)
  {
  }

  lemma {:induction false} PutTouches(cfg: Config, s: State, t: nat, l: ListId, b: Block, onFailure: Place)
    requires Unheld(cfg, s, t, l) && b < |s.cells|
    ensures Touches(cfg, s, TakeToPut(s, t, l, b, onFailure), t, l, |s.cells|)
  {
  }

  lemma {:induction false} TakenToPut(cfg: Config, s: State, t: nat, l: ListId, b: Block, onFailure: Place)
    requires Unheld(cfg, s, t, l) && ChainOk(s, l) && b < |s.cells| && MayPut(s, t, l, b)
    ensures var s' := TakeToPut(s, t, l, b, onFailure);
      Shape(cfg, s') && LockOk(s', l) && ChainOk(s', l) && ThreadOk(cfg, s', t)
  {
  }

  /** A first exchange of a thread that has taken no list. */
  lemma {:induction false} TakeToGetStep(cfg: Config, s: State, t: nat, l: ListId, sz: nat)
    requires Inv(cfg, s) && t < cfg.threads && l in cfg.lists && s.threads[t].Idle? && Asked(l, sz)
    ensures Inv(cfg, TakeToGet(s, t, l, sz))
  {
    var s' := TakeToGet(s, t, l, sz);
    if s.heads[l] == Null {
      BusyGet(s, t, l, sz);
    } else {
      IsUnheld(cfg, s, t, l);
      GetTouches(cfg, s, t, l, sz);
      TakenToGet(cfg, s, t, l, sz);
      OnListStep(cfg, s, s', t, l, |s.cells|);
    }
  }

  lemma {:induction false} TakeToPutFails(cfg: Config, s: State, t: nat, l: ListId, b: Block, onFailure: Place)
    requires Inv(cfg, s) && t < cfg.threads && l in cfg.lists && b < |s.cells| && MayPut(s, t, l, b)
    requires if l.Pool? then s.threads[t].Putting? && s.threads[t].b == b && onFailure == Leaked
             else s.threads[t].Idle? && onFailure == Held(t)
    requires s.heads[l] == Null
    ensures Inv(cfg, TakeToPut(s, t, l, b, onFailure))
  {
    var s' := TakeToPut(s, t, l, b, onFailure);
    assert ThreadOk(cfg, s, t) && BlockOk(cfg, s, b);
    assert s'.heads == s.heads;
    LocalStep(cfg, s, s', t, b);
  }

  lemma {:induction false} TakeToPutStep(cfg: Config, s: State, t: nat, l: ListId, b: Block, onFailure: Place)
    requires Inv(cfg, s) && t < cfg.threads && l in cfg.lists && b < |s.cells| && MayPut(s, t, l, b)
    requires if l.Pool? then s.threads[t].Putting? && s.threads[t].b == b && onFailure == Leaked
             else s.threads[t].Idle? && onFailure == Held(t)
    ensures Inv(cfg, TakeToPut(s, t, l, b, onFailure))
  {
    if s.heads[l] == Null {
      TakeToPutFails(cfg, s, t, l, b, onFailure);
    } else {
      var s' := TakeToPut(s, t, l, b, onFailure);
      IsUnheld(cfg, s, t, l);
      PutTouches(cfg, s, t, l, b, onFailure);
      TakenToPut(cfg, s, t, l, b, onFailure);
      OnListStep(cfg, s, s', t, l, |s.cells|);
    }
  }

  lemma {:induction false} LeakStep(cfg: Config, s: State, t: nat)
    requires Inv(cfg, s) && Enabled(cfg, s, Go(t)) && s.threads[t].Putting?
    requires s.cells[s.threads[t].b].size != CUTOFFS[ClassOf(s.cells[s.threads[t].b].size)]
    ensures Inv(cfg, Next(cfg, s, Go(t)))
  {
    assert ThreadOk(cfg, s, t) && BlockOk(cfg, s, s.threads[t].b);
    LocalStep(cfg, s, Next(cfg, s, Go(t)), t, s.threads[t].b);
  }

  lemma {:induction false} PutStep(cfg: Config, s: State, t: nat)
    requires Inv(cfg, s) && Enabled(cfg, s, Go(t)) && s.threads[t].Putting?
    ensures Inv(cfg, Next(cfg, s, Go(t)))
  {
    var b := s.threads[t].b;
    var c := ClassOf(s.cells[b].size);
    assert ThreadOk(cfg, s, t);
    if s.cells[b].size != CUTOFFS[c] { LeakStep(cfg, s, t); }
    else { TakeToPutStep(cfg, s, t, Pool(s.threads[t].pe, c), b, Leaked); }
  }

  /** The exchange that completes a put: the block is on top. */
  ghost predicate Pushed(s: State, s': State, t: nat, l: ListId, b: Block)
    requires l in s.heads && l in s.holder && l in s.chains && t < |s.threads| && b < |s.places|
  {
    s' == s.(heads := s.heads[l := At(b)], holder := s.holder[l := None], chains := s.chains[l := [b] + s.chains[l]],
    threads := s.threads[t := Idle], places := s.places[b := InList(l)], failed := s.failed || s.heads[l] != Null)
  }

  lemma {:induction false} PushedTouches(cfg: Config, s: State, s': State, t: nat, l: ListId, b: Block)
    requires Holds(cfg, s, t, l) && b < |s.cells| && Pushed(s, s', t, l, b)
    requires s.places[b] == Fresh(t) || s.places[b] == Held(t)
    ensures Touches(cfg, s, s', t, l, b)
  {
  }

  lemma {:induction false} PushedOwn(cfg: Config, s: State, s': State, t: nat, l: ListId, b: Block)
    requires Inv(cfg, s) && t < cfg.threads && s.threads[t] == Linked(l, b) && l in cfg.lists && b < |s.cells|
    requires Pushed(s, s', t, l, b)
    ensures Shape(cfg, s') && LockOk(s', l) && ChainOk(s', l) && ThreadOk(cfg, s', t) && BlockOk(cfg, s', b)
  {
    assert ThreadOk(cfg, s, t) && LockOk(s, l) && ChainOk(s, l) && BlockOk(cfg, s, b);
    PushKeeps(s.cells, s.places, s.chains[l], l, b);
  }

  lemma {:induction false} PushedInv(cfg: Config, s: State, s': State, t: nat, l: ListId, b: Block)
    requires Inv(cfg, s) && t < cfg.threads && s.threads[t] == Linked(l, b) && l in cfg.lists && b < |s.cells|
    requires Pushed(s, s', t, l, b)
    ensures Inv(cfg, s')
  {
    PushedOwn(cfg, s, s', t, l, b);
    TakerHolds(cfg, s, t, l);
    assert ThreadOk(cfg, s, t);
    PushedTouches(cfg, s, s', t, l, b);
    OnListStep(cfg, s, s', t, l, b);
  }

  lemma {:induction false} PushStep(cfg: Config, s: State, t: nat)
    requires Inv(cfg, s) && Enabled(cfg, s, Go(t)) && s.threads[t].Linked?
    ensures Pushed(s, Next(cfg, s, Go(t)), t, s.threads[t].l, s.threads[t].b)
    ensures Inv(cfg, Next(cfg, s, Go(t)))
  {
    PushedInv(cfg, s, Next(cfg, s, Go(t)), t, s.threads[t].l, s.threads[t].b);
  }

  /** Giving an empty list back. */
  lemma {:induction false} ShutOwn(cfg: Config, s: State, t: nat, l: ListId, prev: Ptr)
    requires Holds(cfg, s, t, l) && ChainOk(s, l) && prev == Head(s.chains[l])
    ensures var s' := SetThread(Give(s, l, prev), t, Idle);
      && Touches(cfg, s, s', t, l, |s.cells|) && LockOk(s', l) && ChainOk(s', l) && ThreadOk(cfg, s', t)
  {
  }

  lemma {:induction false} ShutStep(cfg: Config, s: State, t: nat)
    requires Inv(cfg, s) && Enabled(cfg, s, Go(t)) && s.threads[t].Opened? && !s.threads[t].prev.At?
    ensures Inv(cfg, Next(cfg, s, Go(t)))
  {
    var l := s.threads[t].l;
    TakerHolds(cfg, s, t, l);
    assert ThreadOk(cfg, s, t) && ChainOk(s, l);
    ShutOwn(cfg, s, t, l, s.threads[t].prev);
    OnListStep(cfg, s, Next(cfg, s, Go(t)), t, l, |s.cells|);
  }

  /** Reading the top block's link. */
  lemma {:induction false} ReadOwn(cfg: Config, s: State, t: nat, l: ListId, b: Block, sz: nat)
    requires Holds(cfg, s, t, l) && ChainOk(s, l) && At(b) == Head(s.chains[l]) && b < |s.cells| && Asked(l, sz)
    ensures var s' := SetThread(s, t, Read(l, b, s.cells[b].next, sz));
      && Touches(cfg, s, s', t, l, |s.cells|) && LockOk(s', l) && ChainOk(s', l) && ThreadOk(cfg, s', t)
  {
    RestLinks(s.cells, s.chains[l]);
  }

  lemma {:induction false} ReadStep(cfg: Config, s: State, t: nat)
    requires Inv(cfg, s) && Enabled(cfg, s, Go(t)) && s.threads[t].Opened? && s.threads[t].prev.At?
    ensures Inv(cfg, Next(cfg, s, Go(t)))
  {
    var l := s.threads[t].l;
    TakerHolds(cfg, s, t, l);
    assert ThreadOk(cfg, s, t) && ChainOk(s, l);
    ReadOwn(cfg, s, t, l, s.threads[t].prev.b, s.threads[t].sz);
    OnListStep(cfg, s, Next(cfg, s, Go(t)), t, l, |s.cells|);
  }

  /** The exchange that completes a get: the top block is out. */
  ghost predicate Popped(s: State, s': State, t: nat, l: ListId, b: Block, next: Ptr, sz: nat)
    requires l in s.heads && l in s.holder && l in s.chains && s.chains[l] != [] && t < |s.threads| && b < |s.places|
  {
    s' == s.(heads := s.heads[l := next], holder := s.holder[l := None], chains := s.chains[l := s.chains[l][1..]],
    threads := s.threads[t := if l.Pool? then Found(b, sz) else Idle],
    places := s.places[b := if l.Pool? then Held(t) else Received(t)], failed := s.failed || s.heads[l] != Null)
  }

  lemma {:induction false} TopIsIn(s: State, l: ListId, b: Block)
    requires l in s.chains && ChainOk(s, l) && s.chains[l] != [] && s.chains[l][0] == b
    ensures b < |s.places| && s.places[b] == InList(l)
  {
    assert b in s.chains[l];
  }

  lemma {:induction false} PoppedThread(
      cfg: Config, s: State, s': State, t: nat, l: ListId, b: Block, next: Ptr, sz: nat)
    requires Holds(cfg, s, t, l) && b < |s.cells| && s.chains[l] != [] && Popped(s, s', t, l, b, next, sz)
    requires s.places[b] == InList(l) && BlockOk(cfg, s, b) && Asked(l, sz)
    ensures Shape(cfg, s') && ThreadOk(cfg, s', t)
  {
  }

  lemma {:induction false} PoppedBlock(
      cfg: Config, s: State, s': State, t: nat, l: ListId, b: Block, next: Ptr, sz: nat)
    requires Holds(cfg, s, t, l) && b < |s.cells| && s.chains[l] != [] && Popped(s, s', t, l, b, next, sz)
    requires s.places[b] == InList(l) && BlockOk(cfg, s, b)
    ensures Shape(cfg, s') && BlockOk(cfg, s', b)
  {
  }

  lemma {:induction false} PoppedTouches(
      cfg: Config, s: State, s': State, t: nat, l: ListId, b: Block, next: Ptr, sz: nat)
    requires Holds(cfg, s, t, l) && b < |s.cells| && s.chains[l] != [] && s.places[b] == InList(l)
    requires Popped(s, s', t, l, b, next, sz)
    ensures Touches(cfg, s, s', t, l, b)
  {
  }

  lemma {:induction false} PoppedInv(cfg: Config, s: State, s': State, t: nat, l: ListId, b: Block, next: Ptr, sz: nat)
    requires Inv(cfg, s) && t < cfg.threads && s.threads[t] == Read(l, b, next, sz) && l in cfg.lists && b < |s.cells|
    requires s.chains[l] != [] && s.chains[l][0] == b && Popped(s, s', t, l, b, next, sz)
    ensures Inv(cfg, s')
  {
    assert ThreadOk(cfg, s, t) && ChainOk(s, l) && BlockOk(cfg, s, b);
    TakerHolds(cfg, s, t, l);
    TopIsIn(s, l, b);
    PoppedThread(cfg, s, s', t, l, b, next, sz);
    PoppedBlock(cfg, s, s', t, l, b, next, sz);
    PoppedTouches(cfg, s, s', t, l, b, next, sz);
    RestLinks(s.cells, s.chains[l]);
    PopKeeps(s.places, s.chains[l], l, s'.places[b]);
    OnListStep(cfg, s, s', t, l, b);
  }

  lemma {:induction false} PopStep(cfg: Config, s: State, t: nat)
    requires Inv(cfg, s) && Enabled(cfg, s, Go(t)) && s.threads[t].Read?
    ensures s.chains[s.threads[t].l] != [] && s.chains[s.threads[t].l][0] == s.threads[t].b
    ensures var q := s.threads[t]; Popped(s, Next(cfg, s, Go(t)), t, q.l, q.b, q.next, q.sz)
    ensures Inv(cfg, Next(cfg, s, Go(t)))
  {
    assert ThreadOk(cfg, s, t);
    var q := s.threads[t];
    PoppedInv(cfg, s, Next(cfg, s, Go(t)), t, q.l, q.b, q.next, q.sz);
  }

  lemma {:induction false} NextInv(cfg: Config, s: State, st: Step)
    requires Inv(cfg, s) && Enabled(cfg, s, st)
    ensures Inv(cfg, Next(cfg, s, st))
  {
    match st
    case Alloc(t, size, pe) => AllocStep(cfg, s, t, size, pe);
    case Ralloc(t, pe, sz) => TakeToGetStep(cfg, s, t, Pool(pe, ClassOf(sz)), sz);
    case Resize(t, b, sz) => ResizeStep(cfg, s, t, b, sz);
    case Enqueue(t, b, pe) =>
      assert BlockOk(cfg, s, b);
      TakeToPutStep(cfg, s, t, Queue(pe), b, Held(t));
    case Dequeue(t, pe) => TakeToGetStep(cfg, s, t, Queue(pe), 0);
    case Free(t, b) => FreeStep(cfg, s, t, b);
    case Go(t) =>
      match s.threads[t]
      case Putting(_, _) => PutStep(cfg, s, t);
      case Took(_, _, _) => LinkStep(cfg, s, t);
      case Linked(_, _) => PushStep(cfg, s, t);
      case Opened(_, prev, _) => if prev.At? { ReadStep(cfg, s, t); } else { ShutStep(cfg, s, t); }
      case Read(_, _, _, _) => PopStep(cfg, s, t);
      case Found(_, _) => FoundStep(cfg, s, t);
      case Idle =>
  }

  lemma {:induction false} RunInv(cfg: Config, run: seq<Step>)
    requires IsRun(cfg, run)
    ensures Inv(cfg, After(cfg, run))
    decreases |run|
  {
    if run == [] {
      InitInv(cfg);
    } else {
      RunInv(cfg, run[..|run| - 1]);
      NextInv(cfg, After(cfg, run[..|run| - 1]), run[|run| - 1]);
    }
  }

  /** The first exchange of a put that finds the list taken. */
  lemma {:induction false} BusyPut(s: State, t: nat, l: ListId, b: Block, place: Place)
    requires l in s.heads && l in s.holder && t < |s.threads| && b < |s.places| && s.heads[l] == Null
    requires s.threads[t] == Idle && s.places[b] == place
    ensures TakeToPut(s, t, l, b, place) == s
  {
    assert s.heads[l := Null] == s.heads && s.threads[t := Idle] == s.threads && s.places[b := place] == s.places;
  }

  /** The first exchange of a get that finds the list taken. */
  lemma {:induction false} BusyGet(s: State, t: nat, l: ListId, sz: nat)
    requires l in s.heads && l in s.holder && t < |s.threads| && s.heads[l] == Null
    ensures TakeToGet(s, t, l, sz) == s
  {
    assert s.heads[l := Null] == s.heads;
  }
}
