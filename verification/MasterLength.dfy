/** As long as no pwrite fails, the master file is exactly as long as the append
    counter says whenever no request is in flight. */
module MasterLength {
  import opened MasterFile
  import opened Volumes
  import opened Protocol
  import opened Invariant
  import opened Actions
  import opened Commits
  import opened Publication
  import opened Quiescence
  import opened Safety
  import opened Refinement
  import opened Locks
  import opened Solo

  predicate AllInFile(m: seq<Byte>, s: seq<nat>) {
    forall i :: 0 <= i < |s| ==> InFile(m, s[i])
  }

  predicate RollingBack(th: Thread) {
    th.pc.Failed? || th.pc.Unhitting? || th.pc.HitReleasing? || th.pc.Reverting? || th.pc.Unmissing?
  }

  /** Slots that are free or about to be given back have been written, and nothing was
      ever written past the append counter. */
  ghost predicate Covers(sys: Sys) {
    && AllInFile(sys.v.master, sys.v.free)
    && (forall t :: t in sys.threads ==> AllInFile(sys.v.master, sys.threads[t].rel) && !RollingBack(sys.threads[t]))
    && |sys.v.master| <= sys.v.next * BLOCK_SIZE
  }

  lemma LiveInFile(H: Block -> Digest, U: iset<Block>, sys: Sys, r: Ref)
    requires Good(H, U, sys) && Indexed(sys.v, r)
    ensures r in sys.v.infos && InFile(sys.v.master, sys.v.infos[r].slot)
  {
    hide SlotInv, InfoInv, RefInv, ContentInv, Indexed, InFile;
    var g :| Inv(H, U, sys, g);
    LiveSlot(H, U, sys, g, r);
    IndexedIsAllocated(sys.v, r);
  }

  lemma DroppedInFile(v: Volume, r: Ref, rel: seq<nat>)
    requires AllInFile(v.master, rel) && r in v.infos && InFile(v.master, v.infos[r].slot)
    ensures AllInFile(v.master, Drop(v, r, rel).1)
    ensures var v' := Drop(v, r, rel).0; v'.master == v.master && v'.next == v.next && v'.free == v.free
  {
  }

  lemma RemoveCovers(H: Block -> Digest, U: iset<Block>, sys: Sys, path: Path, blk: nat, rel: seq<nat>)
    requires Good(H, U, sys) && AllInFile(sys.v.master, rel)
    ensures var (v', rel') := RemoveBlock(sys.v, path, blk, rel);
            AllInFile(sys.v.master, rel') && v'.master == sys.v.master && v'.next == sys.v.next && v'.free == sys.v.free
  {
    hide Good, Indexed, InFile, Drop, AllInFile;
    var k := Key(path, blk);
    if k in sys.v.byBlock {
      MappedIsIndexed(H, U, sys, k);
      LiveInFile(H, U, sys, sys.v.byBlock[k]);
      DroppedInFile(sys.v.(byBlock := sys.v.byBlock - {k}), sys.v.byBlock[k], rel);
    }
  }

  lemma ConsInFile(m: seq<Byte>, q: nat, s: seq<nat>)
    requires AllInFile(m, s) && InFile(m, q)
    ensures AllInFile(m, [q] + s)
  {
  }

  lemma PublishCovers(H: Block -> Digest, U: iset<Block>, sys: Sys, t: Tid)
    requires Good(H, U, sys) && Enabled(sys, PublishOne(t)) && AllInFile(sys.v.master, sys.threads[t].rel)
    ensures var sys' := Apply(H, sys, PublishOne(t));
            && AllInFile(sys'.v.master, sys'.threads[t].rel) && sys'.threads[t].pc.Publishing?
            && sys'.v.master == sys.v.master && sys'.v.next == sys.v.next && sys'.v.free == sys.v.free
  {
    hide SlotInv, InfoInv, RefInv, Held, Pending, Slotted, InFile, AllInFile, PlanOk, StoredOk, BlockAt;
    var th := sys.threads[t];
    if th.plan[th.pos].kind.Miss? {
      var g :| Inv(H, U, sys, g);
      PublishPlan(th, th.plan[th.pos], th.rel);
      assert ThreadContents(H, U, sys.v, th);
      ConsInFile(sys.v.master, th.plan[th.pos].slot, th.rel);
    }
  }

  lemma FlushCovers(H: Block -> Digest, U: iset<Block>, sys: Sys, t: Tid)
    requires Good(H, U, sys) && Enabled(sys, FlushOne(t)) && |sys.v.master| <= sys.v.next * BLOCK_SIZE
    ensures var v' := Apply(H, sys, FlushOne(t)).v;
            v' == sys.v.(master := v'.master) && |sys.v.master| <= |v'.master| <= v'.next * BLOCK_SIZE
  {
    hide Good, Flatten, SkipHits, RunEnd;
    var th := sys.threads[t];
    var i := SkipHits(th.plan, th.pos);
    FullRun(sys.v, th.plan, i);
    RunBelowCounter(H, U, sys, t);
  }

  /** The run about to be flushed lies below the append counter. */
  lemma RunBelowCounter(H: Block -> Digest, U: iset<Block>, sys: Sys, t: Tid)
    requires Good(H, U, sys) && Enabled(sys, FlushOne(t))
    ensures var th := sys.threads[t];
            var i := SkipHits(th.plan, th.pos);
            i < |th.plan| && i < RunEnd(th.plan, i + 1) <= |th.plan| &&
                th.plan[i].slot + (RunEnd(th.plan, i + 1) - i) <= sys.v.next
  {
    hide InfoInv, RefInv, ContentInv, Held, Slotted, NoDup, OwnerHolds;
    var th := sys.threads[t];
    var i := SkipHits(th.plan, th.pos);
    var e := RunEnd(th.plan, i + 1);
    var g :| Inv(H, U, sys, g);
    RunSlots(th.plan, i, e - 1);
    FlushingSlotted(th, e - 1);
    assert ThreadSlots(t, th, g.slots);
  }

  lemma FlushingSlotted(th: Thread, i: nat)
    requires th.pc.Flushing? && i < |th.plan| && th.plan[i].kind.Miss?
    ensures Slotted(th, i)
  {
  }

  lemma LongerCovers(m: seq<Byte>, m': seq<Byte>, s: seq<nat>)
    requires AllInFile(m, s) && |m| <= |m'|
    ensures AllInFile(m', s)
  {
  }

  /** A step that touches the file, the free list and one thread's list only in ways
      that keep them covered. */
  lemma CoversFrame(sys: Sys, sys': Sys, t: Tid)
    requires Covers(sys) && t in sys.threads && t in sys'.threads && sys'.threads == sys.threads[t := sys'.threads[t]]
    requires |sys.v.master| <= |sys'.v.master| <= sys'.v.next * BLOCK_SIZE
    requires AllInFile(sys'.v.master, sys'.v.free) && AllInFile(sys'.v.master, sys'.threads[t].rel) &&
             !RollingBack(sys'.threads[t])
    ensures Covers(sys')
  {
    hide AllInFile, RollingBack;
    forall u | u in sys'.threads && u != t ensures AllInFile(sys'.v.master, sys'.threads[u].rel) {
      LongerCovers(sys.v.master, sys'.v.master, sys.threads[u].rel);
    }
  }

  /** What a step must show about the file, the free list and its own thread. */
  ghost predicate CoveredStep(sys: Sys, sys': Sys, t: Tid) {
    && t in sys'.threads
    && |sys.v.master| <= |sys'.v.master| <= sys'.v.next * BLOCK_SIZE
    && AllInFile(sys'.v.master, sys'.v.free) && AllInFile(sys'.v.master, sys'.threads[t].rel) &&
       !RollingBack(sys'.threads[t])
  }

  predicate Touches(a: Action) {
    a.DecideOne? || a.PublishOne? || a.FlushOne? || a.MapOne? || a.RemoveOne? || a.FlushFail? || a.UnhitOne?
  }

  lemma PlainStep(H: Block -> Digest, sys: Sys, a: Action)
    requires Enabled(sys, a) && Covers(sys) && !Touches(a)
    ensures CoveredStep(sys, Apply(H, sys, a), a.t)
  {
    hide SkipHits, RunEnd, MissCount, InFile, RunBytes, CanRead, CanWrite, MutexFree, Decide, FlushRun, Publish,
         MapBlock, RemoveBlock, Unhit;
  }

  lemma TouchingStep(H: Block -> Digest, U: iset<Block>, sys: Sys, a: Action)
    requires Good(H, U, sys) && Enabled(sys, a) && Covers(sys) && Touches(a) && !a.FlushFail?
    ensures CoveredStep(sys, Apply(H, sys, a), a.t)
  {
    hide Good, Decide, Publish, RemoveBlock, MapBlock, Unhit, FlushRun, RunBytes, SkipHits, RunEnd, AllInFile;
    var sys', t := Apply(H, sys, a), a.t;
    var th := sys.threads[t];
    if a.DecideOne? {
      DecideStorage(H, sys.v, th.plan, th.start + |th.plan|, th.blocks[|th.plan|]);
    } else if a.PublishOne? {
      PublishCovers(H, U, sys, t);
    } else if a.FlushOne? {
      FlushCovers(H, U, sys, t);
      LongerCovers(sys.v.master, sys'.v.master, sys.v.free);
      LongerCovers(sys.v.master, sys'.v.master, th.rel);
    } else if a.MapOne? {
      UnmapThenMap(sys.v, th.path, th.plan[th.pos], th.rel);
      RemoveCovers(H, U, sys, th.path, th.plan[th.pos].blk, th.rel);
    } else if a.RemoveOne? {
      RemoveCovers(H, U, sys, th.path, th.pos, th.rel);
    }
  }

  lemma StepCovers(H: Block -> Digest, U: iset<Block>, sys: Sys, a: Action)
    requires Good(H, U, sys) && Enabled(sys, a) && Covers(sys) && !a.FlushFail?
    ensures Covers(Apply(H, sys, a))
  {
    hide Good, Apply, Enabled, Covers, AllInFile, RollingBack;
    if Touches(a) {
      TouchingStep(H, U, sys, a);
    } else {
      PlainStep(H, sys, a);
    }
    StepShape(H, sys, a);
    CoversFrame(sys, Apply(H, sys, a), a.t);
  }

  lemma DecideStorage(H: Block -> Digest, v: Volume, plan: seq<Entry>, blk: nat, b: Block)
    ensures var v' := Decide(H, v, plan, blk, b).0; v'.master == v.master && v'.next == v.next && v'.free == v.free
  {
  }

  lemma {:induction false} RunCovers(H: Block -> Digest, U: iset<Block>, run: seq<Sys>, acts: seq<Action>, n: nat)
    requires SafeRun(H, U, run, acts) && Good(H, U, run[0]) && Covers(run[0]) && n < |run|
    requires forall i :: 0 <= i < |acts| ==> !acts[i].FlushFail?
    ensures Covers(run[n])
  {
    hide Good, Apply, Enabled, Uses, Safe, Covers;
    if n > 0 {
      RunCovers(H, U, run, acts, n - 1);
      RunGood(H, U, run, acts, n - 1);
      assert run[n - 1 + 1] == Apply(H, run[n - 1], acts[n - 1]);
      StepCovers(H, U, run[n - 1], acts[n - 1]);
    }
  }

  /** A session starts covered if the master file is as long as the counter says. */
  lemma StartCovers(H: Block -> Digest, U: iset<Block>, sys: Sys)
    requires Valid(H, U, sys.v) && AllIdle(sys) && |sys.v.master| == sys.v.next * BLOCK_SIZE
    ensures Covers(sys)
  {
    hide Valid, NoDup, IsLiveSlot, StoredOk, TablesSettled;
    ValidIsSettled(H, U, sys.v);
    forall i | 0 <= i < |sys.v.free| ensures InFile(sys.v.master, sys.v.free[i]) {
      assert sys.v.free[i] + 1 <= sys.v.next;
    }
  }

  /** Whenever every request has finished and no pwrite has failed, the length of the
      master file is the append counter, in blocks. */
  lemma MasterLengthIsCounter(H: Block -> Digest, U: iset<Block>, run: seq<Sys>, acts: seq<Action>, n: nat)
    requires SafeRun(H, U, run, acts) && Good(H, U, run[0]) && Covers(run[0]) && n < |run|
    requires forall i :: 0 <= i < |acts| ==> !acts[i].FlushFail?
    requires AllIdle(run[n])
    ensures |run[n].v.master| == run[n].v.next * BLOCK_SIZE
  {
    hide Good, Apply, Enabled, Uses, Safe, IsRun;
    RunCovers(H, U, run, acts, n);
    RunGood(H, U, run, acts, n);
    SlotPartition(H, U, run, acts, n);
    if run[n].v.next > 0 {
      LastSlotInFile(H, U, run[n]);
    }
  }

  lemma LastSlotInFile(H: Block -> Digest, U: iset<Block>, sys: Sys)
    requires Good(H, U, sys) && SlotsPartitioned(sys) && Covers(sys) && AllIdle(sys) && sys.v.next > 0
    ensures InFile(sys.v.master, sys.v.next - 1)
  {
    hide Good, InFile, Slotted, Indexed, NoDup;
    var q := sys.v.next - 1;
    assert Owned(sys, q);
    var who :| Owns(sys, q, who);
    assert !who.Taken? && !who.Leaving?;
    IdleUnslotted();
    match who
    case Live(r) => LiveInFile(H, U, sys, r);
    case _ =>
  }

  lemma IdleUnslotted()
    ensures forall i: nat :: !Slotted(IDLE, i)
  {
  }
}
