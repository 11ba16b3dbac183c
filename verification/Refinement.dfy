/** Live blocks are immutable, and the whole concurrent system refines a plain map
    from logical blocks to contents. */
module Refinement {
  import opened MasterFile
  import opened Volumes
  import opened Protocol
  import opened Invariant
  import opened Actions
  import opened Commits
  import opened Publication
  import opened Safety

  // ---- Immutability ----

  predicate WritesMaster(a: Action) { a.FlushOne? || a.FlushFail? }

  lemma OnlyFlushWrites(H: Block -> Digest, sys: Sys, a: Action)
    requires Enabled(sys, a) && !WritesMaster(a)
    ensures Apply(H, sys, a).v.master == sys.v.master
  {
  }

  lemma FlushWrites(H: Block -> Digest, sys: Sys, a: Action) returns (got: nat)
    requires Enabled(sys, a) && WritesMaster(a)
    ensures IsAt(sys, a.t, Flushing) && HasRun(sys.threads[a.t])
    ensures var th := sys.threads[a.t]; Apply(H, sys, a).v == FlushRun(sys.v, th.plan, SkipHits(th.plan, th.pos), got)
  {
    var th := sys.threads[a.t];
    got := if a.FlushOne? then RunBytes(th.plan, SkipHits(th.plan, th.pos)) else a.got;
  }

  /** No action changes the bytes of a slot that a published info owns. */
  lemma SlotImmutable(H: Block -> Digest, sys: Sys, g: Ledger, a: Action, q: nat)
    requires SlotInv(sys, g) && Enabled(sys, a) && q in g.slots && g.slots[q].Live? && InFile(sys.v.master, q)
    ensures InFile(Apply(H, sys, a).v.master, q)
    ensures BlockAt(Apply(H, sys, a).v.master, q) == BlockAt(sys.v.master, q)
  {
    hide SlotInv, Apply, Enabled, BlockAt, InFile, FlushRun;
    if WritesMaster(a) {
      var got := FlushWrites(H, sys, a);
      FlushForeign(sys, g, a.t, got, q);
    } else {
      OnlyFlushWrites(H, sys, a);
    }
  }

  lemma LiveSlot(H: Block -> Digest, U: iset<Block>, sys: Sys, g: Ledger, r: Ref)
    requires Inv(H, U, sys, g) && Indexed(sys.v, r)
    ensures r in g.infos && g.infos[r].Published? && sys.v.infos[r].slot in g.slots &&
            g.slots[sys.v.infos[r].slot] == Live(r)
    ensures StoredOk(H, U, sys.v, sys.v.infos[r])
  {
    hide RefInv, ThreadsOk, KeepersOk, StoredOk, ThreadContents, OwnerHolds, ThreadSlots, ListOwned;
  }

  lemma BlockImmutable(H: Block -> Digest, U: iset<Block>, sys: Sys, a: Action, r: Ref)
    requires Good(H, U, sys) && Enabled(sys, a) && Indexed(sys.v, r)
    ensures var q := sys.v.infos[r].slot;
            InFile(sys.v.master, q) && InFile(Apply(H, sys, a).v.master, q) &&
            BlockAt(Apply(H, sys, a).v.master, q) == BlockAt(sys.v.master, q)
  {
    hide InfoInv, RefInv, ContentInv, SlotInv, Apply, Enabled, BlockAt, InFile, Indexed;
    IndexedIsAllocated(sys.v, r);
    var g :| Inv(H, U, sys, g);
    LiveSlot(H, U, sys, g, r);
    SlotImmutable(H, sys, g, a, sys.v.infos[r].slot);
  }

  // ---- Lock-free reads ----

  predicate MappedTo(v: Volume, k: Key, q: nat) {
    k in v.byBlock && v.byBlock[k] in v.infos && v.infos[v.byBlock[k]].slot == q
  }

  /** Some request has been handed slot q for a block that it has yet to publish. */
  ghost predicate BeingWritten(sys: Sys, q: nat) {
    exists t, i: nat :: t in sys.threads && Slotted(sys.threads[t], i) && sys.threads[t].plan[i].slot == q
  }

  /** Only the request that a slot was handed to writes it. */
  lemma UnwrittenStays(H: Block -> Digest, sys: Sys, a: Action, q: nat)
    requires Enabled(sys, a) && InFile(sys.v.master, q) && !BeingWritten(sys, q)
    ensures InFile(Apply(H, sys, a).v.master, q) && BlockAt(Apply(H, sys, a).v.master, q) == BlockAt(sys.v.master, q)
  {
    hide Apply, Enabled, BlockAt, InFile, FlushRun;
    if WritesMaster(a) {
      var got := FlushWrites(H, sys, a);
      var th := sys.threads[a.t];
      var i := SkipHits(th.plan, th.pos);
      forall k | i <= k < RunEnd(th.plan, i + 1) ensures th.plan[k].slot != q {
        RunSlots(th.plan, i, k);
        assert Slotted(th, k);
      }
      FlushOther(sys.v, th.plan, i, got, q);
    } else {
      OnlyFlushWrites(H, sys, a);
    }
  }

  /** From state i up to state j no request was handed slot q for a new block. */
  ghost predicate NotRewritten(run: seq<Sys>, i: nat, j: nat, q: nat)
    requires i <= j < |run|
  {
    forall m :: i <= m < j ==> !BeingWritten(run[m], q)
  }

  /** A slot keeps its bytes until it is handed out again, mapped or not. */
  lemma {:induction false} ContentStays(H: Block -> Digest, run: seq<Sys>, acts: seq<Action>, i: nat, j: nat, q: nat)
    requires IsRun(H, run, acts) && i <= j < |run| && InFile(run[i].v.master, q) && NotRewritten(run, i, j, q)
    ensures InFile(run[j].v.master, q) && BlockAt(run[j].v.master, q) == BlockAt(run[i].v.master, q)
    decreases j
  {
    hide Apply, Enabled, BlockAt, InFile, BeingWritten;
    if i < j {
      assert NotRewritten(run, i, j - 1, q);
      ContentStays(H, run, acts, i, j - 1, q);
      assert run[j - 1 + 1] == Apply(H, run[j - 1], acts[j - 1]);
      UnwrittenStays(H, run[j - 1], acts[j - 1], q);
    }
  }

  /** Between lookup (state i) and pread (state j) the block stays mapped to slot q. */
  ghost predicate StaysMapped(run: seq<Sys>, i: nat, j: nat, k: Key, q: nat)
    requires i <= j < |run|
  {
    forall m :: i <= m <= j ==> MappedTo(run[m].v, k, q)
  }

  /** A slot that stays mapped is not handed out. */
  lemma MappedNotRewritten(H: Block -> Digest, U: iset<Block>, run: seq<Sys>, acts: seq<Action>, i: nat, j: nat, k: Key,
                           q: nat)
    requires SafeRun(H, U, run, acts) && Good(H, U, run[0]) && i <= j < |run| && StaysMapped(run, i, j, k, q)
    ensures NotRewritten(run, i, j, q)
  {
    hide Good, Apply, Enabled, Uses, Safe, BeingWritten;
    forall m | i <= m < j ensures !BeingWritten(run[m], q) {
      RunGood(H, U, run, acts, m);
      assert MappedTo(run[m].v, k, q);
      MappedIsNotWritten(H, U, run[m], k, q);
    }
  }

  lemma MappedIsNotWritten(H: Block -> Digest, U: iset<Block>, sys: Sys, k: Key, q: nat)
    requires Good(H, U, sys) && MappedTo(sys.v, k, q)
    ensures !BeingWritten(sys, q)
  {
    hide Inv, Slotted, Indexed;
    MappedIsIndexed(H, U, sys, k);
    var g :| Inv(H, U, sys, g);
    PartitionFromInv(H, U, sys, g);
    assert Owns(sys, q, Live(sys.v.byBlock[k]));
    forall t, i: nat | t in sys.threads && Slotted(sys.threads[t], i) ensures sys.threads[t].plan[i].slot != q {
      assert Owns(sys, sys.threads[t].plan[i].slot, Unpublished(t, i));
    }
  }

  lemma MappedIsIndexed(H: Block -> Digest, U: iset<Block>, sys: Sys, k: Key)
    requires Good(H, U, sys) && k in sys.v.byBlock
    ensures Indexed(sys.v, sys.v.byBlock[k])
  {
    hide SlotInv, RefInv, ContentInv, ThreadsOk, KeepersOk, TablesOk, Indexed;
    var g :| Inv(H, U, sys, g);
    TablesIndexed(sys.v, g.infos);
  }

  lemma MappedInFile(H: Block -> Digest, U: iset<Block>, sys: Sys, k: Key)
    requires Good(H, U, sys) && k in sys.v.byBlock
    ensures sys.v.byBlock[k] in sys.v.infos && InFile(sys.v.master, sys.v.infos[sys.v.byBlock[k]].slot)
  {
    hide SlotInv, RefInv, ContentInv, InfoInv, InFile, Indexed;
    MappedIsIndexed(H, U, sys, k);
    IndexedIsAllocated(sys.v, sys.v.byBlock[k]);
    var g :| Inv(H, U, sys, g);
    LiveSlot(H, U, sys, g, sys.v.byBlock[k]);
  }

  /** A read that looks its blocks up in state i and reads each slot, without any
      lock, at some later state of its own, returns what the file contained at the
      lookup, provided no slot is handed out for a new block before it is read. */
  lemma LockFreeRead(H: Block -> Digest, U: iset<Block>, run: seq<Sys>, acts: seq<Action>, i: nat,
                     path: Path, start: nat, slots: seq<nat>, times: seq<nat>)
    requires SafeRun(H, U, run, acts) && Good(H, U, run[0]) && i < |run| && |times| == |slots|
    requires forall b :: 0 <= b < |slots| ==> MappedTo(run[i].v, Key(path, start + b), slots[b])
    requires forall b :: 0 <= b < |slots| ==> i <= times[b] < |run| && NotRewritten(run, i, times[b], slots[b])
    ensures forall b :: 0 <= b < |slots| ==>
              && InFile(run[times[b]].v.master, slots[b])
              && Key(path, start + b) in View(run[i].v)
              && BlockAt(run[times[b]].v.master, slots[b]) == View(run[i].v)[Key(path, start + b)]
  {
    hide Good, Apply, Enabled, Uses, Safe, BlockAt, InFile, NotRewritten;
    RunGood(H, U, run, acts, i);
    forall b | 0 <= b < |slots|
      ensures && InFile(run[times[b]].v.master, slots[b])
              && Key(path, start + b) in View(run[i].v)
              && BlockAt(run[times[b]].v.master, slots[b]) == View(run[i].v)[Key(path, start + b)]
    {
      assert MappedTo(run[i].v, Key(path, start + b), slots[b]);
      MappedInFile(H, U, run[i], Key(path, start + b));
      ContentStays(H, run, acts, i, times[b], slots[b]);
    }
  }

  // ---- Refinement of a plain map ----

  datatype Event = PutBlock(k: Key, b: Block) | DeleteBlock(k: Key) | Silent

  /** What an action means to a user of the file system. It is read off the request
      alone: the next block of the write, or the next block being removed. */
  function EventOf(sys: Sys, a: Action): Event
    requires Enabled(sys, a)
  {
    match a
    case MapOne(t) =>
      var th := sys.threads[t];
      if th.pos < |th.blocks| then PutBlock(Key(th.path, th.start + th.pos), th.blocks[th.pos]) else Silent
    case RemoveOne(t) => DeleteBlock(Key(sys.threads[t].path, sys.threads[t].pos))
    case _ => Silent
  }

  function Effect(m: map<Key, seq<Byte>>, e: Event): map<Key, seq<Byte>> {
    match e
    case PutBlock(k, b) => m[k := b]
    case DeleteBlock(k) => m - {k}
    case Silent => m
  }

  lemma StepByBlock(H: Block -> Digest, sys: Sys, a: Action)
    requires Enabled(sys, a)
    ensures var m, m' := sys.v.byBlock, Apply(H, sys, a).v.byBlock;
            match a
            case MapOne(t) =>
              var e := sys.threads[t].plan[sys.threads[t].pos]; m' == m[Key(sys.threads[t].path, e.blk) := e.info]
            case RemoveOne(t) => m' == m - {Key(sys.threads[t].path, sys.threads[t].pos)}
            case _ => m' == m
  {
    hide Existing, SkipHits, RunEnd, FlushRun, RunBytes, Publish, Decide, Unhit, CanRead, CanWrite, MutexFree,
         MissCount, CanAdvance, Advanced, WriterThread, RemoverThread;
    if a.DecideOne? || a.PublishOne? || a.UnhitOne? || a.FlushOne? || a.FlushFail? {
      SmallStepByBlock(H, sys, a);
    }
  }

  lemma SmallStepByBlock(H: Block -> Digest, sys: Sys, a: Action)
    requires Enabled(sys, a) && (a.DecideOne? || a.PublishOne? || a.UnhitOne? || a.FlushOne? || a.FlushFail?)
    ensures Apply(H, sys, a).v.byBlock == sys.v.byBlock
  {
  }

  lemma SlotsStable(H: Block -> Digest, sys: Sys, a: Action, r: Ref)
    requires Enabled(sys, a) && r in sys.v.infos && r != sys.v.nextRef && r in Apply(H, sys, a).v.infos
    requires a.AssignOne? ==> var th := sys.threads[a.t]; th.plan[th.pos].kind.Miss? ==> th.plan[th.pos].info != r
    ensures Apply(H, sys, a).v.infos[r].slot == sys.v.infos[r].slot
  {
    hide SkipHits, RunEnd, Existing, RunBytes, MissCount, CanRead, CanWrite, MutexFree, CanAdvance, Advanced,
         WriterThread, RemoverThread;
  }

  /** A published info keeps its slot for as long as it is allocated. */
  lemma StepSlots(H: Block -> Digest, sys: Sys, g: Ledger, a: Action, r: Ref)
    requires InfoInv(sys, g) && Enabled(sys, a) && Indexed(sys.v, r) && r in Apply(H, sys, a).v.infos
    ensures Apply(H, sys, a).v.infos[r].slot == sys.v.infos[r].slot
  {
    hide ThreadsOk, KeepersOk, Apply;
    if a.AssignOne? {
      var th := sys.threads[a.t];
      if th.plan[th.pos].kind.Miss? {
        PendingIsUnpublished(sys, g, a.t, th.pos);
      }
    }
    SlotsStable(H, sys, a, r);
  }

  lemma KeptInfo(H: Block -> Digest, U: iset<Block>, sys: Sys, a: Action, r: Ref)
    requires Good(H, U, sys) && Enabled(sys, a) && Indexed(sys.v, r) && r in Apply(H, sys, a).v.infos
    ensures r in sys.v.infos && Apply(H, sys, a).v.infos[r].slot == sys.v.infos[r].slot
    ensures Content(Apply(H, sys, a).v, r) == Content(sys.v, r)
  {
    hide SlotInv, InfoInv, RefInv, ContentInv, Apply, Enabled, InFile, BlockAt, Indexed;
    IndexedIsAllocated(sys.v, r);
    BlockImmutable(H, U, sys, a, r);
    var g :| Inv(H, U, sys, g);
    StepSlots(H, sys, g, a, r);
  }

  lemma KeptContent(H: Block -> Digest, U: iset<Block>, sys: Sys, a: Action, k: Key)
    requires Good(H, U, sys) && Enabled(sys, a) && Safe(sys, a) && Uses(U, a)
    requires k in sys.v.byBlock && k in Apply(H, sys, a).v.byBlock && Apply(H, sys, a).v.byBlock[k] == sys.v.byBlock[k]
    ensures Content(Apply(H, sys, a).v, sys.v.byBlock[k]) == Content(sys.v, sys.v.byBlock[k])
  {
    hide Good, Apply, Enabled, Safe, Uses, Indexed, Content;
    var r, sys' := sys.v.byBlock[k], Apply(H, sys, a);
    StepGood(H, U, sys, a);
    MappedIsIndexed(H, U, sys, k);
    MappedIsIndexed(H, U, sys', k);
    IndexedIsAllocated(sys'.v, r);
    KeptInfo(H, U, sys, a, r);
  }

  // ---- Published infos stay published ----

  lemma PendingBackward(H: Block -> Digest, sys: Sys, a: Action, t: Tid, i: nat)
    requires Enabled(sys, a) && t in Apply(H, sys, a).threads && Pending(Apply(H, sys, a).threads[t], i)
    ensures t in sys.threads
    ensures var r := Apply(H, sys, a).threads[t].plan[i].info;
            r == sys.v.nextRef || (Pending(sys.threads[t], i) && sys.threads[t].plan[i].info == r)
  {
    hide SkipHits, RunEnd, RunBytes, FlushRun, MissCount, Drop, Existing, Retain;
  }

  lemma StaysIndexed(H: Block -> Digest, U: iset<Block>, sys: Sys, a: Action, r: Ref)
    requires Good(H, U, sys) && Enabled(sys, a) && Safe(sys, a) && Uses(U, a)
    requires Indexed(sys.v, r) && r in Apply(H, sys, a).v.infos && r < sys.v.nextRef
    ensures Indexed(Apply(H, sys, a).v, r)
  {
    hide Inv, Apply, Enabled, Safe, Uses, Indexed, StillPending;
    var sys' := Apply(H, sys, a);
    StepGood(H, U, sys, a);
    var g :| Inv(H, U, sys, g);
    var g' :| Inv(H, U, sys', g');
    CountsFromInv(H, U, sys, g);
    CountsFromInv(H, U, sys', g');
    IndexedIsAllocated(sys.v, r);
    NotNewlyPending(H, sys, a, r);
  }

  lemma NotNewlyPending(H: Block -> Digest, sys: Sys, a: Action, r: Ref)
    requires Enabled(sys, a) && r != sys.v.nextRef
    ensures StillPending(Apply(H, sys, a), r) ==> StillPending(sys, r)
  {
    hide Apply, Enabled, Pending;
    var sys' := Apply(H, sys, a);
    if StillPending(sys', r) {
      var t, i: nat :| t in sys'.threads && Pending(sys'.threads[t], i) && sys'.threads[t].plan[i].info == r;
      PendingBackward(H, sys, a, t, i);
    }
  }

  /** The block that a write maps is the block that the request carries. */
  lemma MappedContent(H: Block -> Digest, U: iset<Block>, sys: Sys, t: Tid)
    requires Good(H, U, sys) && Enabled(sys, MapOne(t)) && CollisionFree(H, U)
    ensures var th := sys.threads[t];
            && th.pos < |th.blocks| && th.plan[th.pos].blk == th.start + th.pos
            && Content(Apply(H, sys, MapOne(t)).v, th.plan[th.pos].info) == th.blocks[th.pos]
  {
    hide SlotInv, InfoInv, RefInv, ContentInv, Apply, InFile, BlockAt, Indexed;
    var sys', th := Apply(H, sys, MapOne(t)), sys.threads[t];
    var e := th.plan[th.pos];
    var g :| Inv(H, U, sys, g);
    MapRequest(H, U, sys, g, t);
    var g' := MapKeeps(H, U, sys, g, t);
    StepByBlock(H, sys, MapOne(t));
    MappedIsIndexed(H, U, sys', Key(th.path, e.blk));
    LiveSlot(H, U, sys', g', e.info);
    IndexedIsAllocated(sys'.v, e.info);
    MapHash(H, sys, t, e.info);
  }

  lemma MapRequest(H: Block -> Digest, U: iset<Block>, sys: Sys, g: Ledger, t: Tid)
    requires Inv(H, U, sys, g) && Enabled(sys, MapOne(t))
    ensures var th := sys.threads[t];
            var e := th.plan[th.pos];
            && th.pos < |th.blocks| && e.blk == th.start + th.pos && th.blocks[th.pos] in U
            && e.info in sys.v.infos && sys.v.infos[e.info].hash == H(th.blocks[th.pos])
  {
    hide SlotInv, InfoInv, RefInv, FlushedOk, StoredOk;
    var th := sys.threads[t];
    assert ThreadContents(H, U, sys.v, th);
    HeldInfo(sys, g, t, th.pos);
  }

  lemma MapHash(H: Block -> Digest, sys: Sys, t: Tid, r: Ref)
    requires Enabled(sys, MapOne(t)) && r in sys.v.infos && r in Apply(H, sys, MapOne(t)).v.infos
    ensures Apply(H, sys, MapOne(t)).v.infos[r].hash == sys.v.infos[r].hash
  {
  }

  /** The user-visible effect of an action, hash collisions or not: a mapping action
      shows whatever its info stores. */
  lemma StepViewRaw(H: Block -> Digest, U: iset<Block>, sys: Sys, a: Action)
    requires Good(H, U, sys) && Enabled(sys, a) && Safe(sys, a) && Uses(U, a)
    ensures var v' := Apply(H, sys, a).v;
            match a
            case MapOne(t) =>
              var e := sys.threads[t].plan[sys.threads[t].pos];
              View(v') == View(sys.v)[Key(sys.threads[t].path, e.blk) := Content(v', e.info)]
            case RemoveOne(t) => View(v') == View(sys.v) - {Key(sys.threads[t].path, sys.threads[t].pos)}
            case _ => View(v') == View(sys.v)
  {
    hide Good, Apply, Safe, Uses, Content;
    var sys' := Apply(H, sys, a);
    StepByBlock(H, sys, a);
    forall k | k in sys.v.byBlock && k in sys'.v.byBlock && sys'.v.byBlock[k] == sys.v.byBlock[k]
      ensures Content(sys'.v, sys.v.byBlock[k]) == Content(sys.v, sys.v.byBlock[k])
    {
      KeptContent(H, U, sys, a, k);
    }
  }

  /** Every action of every interleaving is, to a user, the write of one block of its
      request, the removal of one block, or nothing. */
  lemma StepView(H: Block -> Digest, U: iset<Block>, sys: Sys, a: Action)
    requires CollisionFree(H, U)
    requires Good(H, U, sys) && Enabled(sys, a) && Safe(sys, a) && Uses(U, a)
    ensures View(Apply(H, sys, a).v) == Effect(View(sys.v), EventOf(sys, a))
  {
    hide Good, Apply, Safe, Uses, Content, View;
    StepViewRaw(H, U, sys, a);
    if a.MapOne? {
      MappedContent(H, U, sys, a.t);
    }
  }

  /** The first n actions of a run, applied to a plain map. */
  function Effects(m: map<Key, seq<Byte>>, run: seq<Sys>, acts: seq<Action>, n: nat): map<Key, seq<Byte>>
    requires n <= |acts| && |run| == |acts| + 1
    requires forall i :: 0 <= i < |acts| ==> Enabled(run[i], acts[i])
  {
    if n == 0 then m else Effect(Effects(m, run, acts, n - 1), EventOf(run[n - 1], acts[n - 1]))
  }

  /** Over every run of any number of writers, rollbacks and removers, what the files
      contain is what they contained at its start, changed by exactly the block writes
      and removals that the requests asked for; aborted writes and slot recycling never show. */
  lemma {:induction false} RunRefinesMap(H: Block -> Digest, U: iset<Block>, run: seq<Sys>, acts: seq<Action>, n: nat)
    requires CollisionFree(H, U)
    requires SafeRun(H, U, run, acts) && Good(H, U, run[0]) && n <= |acts|
    ensures View(run[n].v) == Effects(View(run[0].v), run, acts, n)
  {
    hide Good, Apply, Enabled, EventOf, Safe, Uses, View;
    if n > 0 {
      RunRefinesMap(H, U, run, acts, n - 1);
      RunGood(H, U, run, acts, n - 1);
      assert run[n - 1 + 1] == Apply(H, run[n - 1], acts[n - 1]);
      StepView(H, U, run[n - 1], acts[n - 1]);
    }
  }
}
