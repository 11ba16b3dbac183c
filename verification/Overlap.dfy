/** Why requests on one path must not overlap: a run in which an unlink acts on a size that
    a write to the same file has made stale. */
module Overlap {
  import opened MasterFile
  import opened Volumes
  import opened Protocol
  import opened Solo
  import opened Quiescence
  import opened Removals
  import opened FileSystem
  import opened Reachability

  /** File p has the one block b, in slot 0; `refs` and the other parts vary below. */
  function OneBlock(H: Block -> Digest, b: Block, refs: int, byBlock: map<Key, Ref>, sizes: map<Path, nat>): Volume {
    Volume(map[0 := Info(H(b), 0, refs)], 1, map[H(b) := 0], byBlock, sizes, [], 1, b)
  }

  function OneBlockFile(H: Block -> Digest, p: Path, b: Block): Volume {
    OneBlock(H, b, 1, map[Key(p, 0) := 0], map[p := BLOCK_SIZE])
  }

  /** The unlink of p, which has read a size of one block. */
  function Unlinker(pc: PC, p: Path, pos: nat): Thread { RemoverAt(pc, p, pos, 1, Forget, []) }

  /** The writer, which appends the block b to p once more. */
  function Writer(pc: PC, p: Path, b: Block, plan: seq<Entry>, pos: nat): Thread {
    WriterAt(pc, p, 1, [b], plan, [], pos, [])
  }

  function HitPlan(H: Block -> Digest, b: Block): seq<Entry> { [Entry(Hit, 1, 0, b, H(b), 0)] }

  lemma StartIsValid(H: Block -> Digest, p: Path, b: Block)
    ensures FsValid(H, iset{b}, OneBlockFile(H, p, b))
  {
    hide Valid;
    var v := OneBlockFile(H, p, b);
    assert KeysTo(v, 0) == {Key(p, 0)};
    assert BlockAt(v.master, 0) == b;
    assert v.infos[0].slot == 0;
    SettledIsValid(H, iset{b}, v);
  }

  ghost predicate Does(H: Block -> Digest, sys: Sys, a: Action, sys': Sys) {
    Enabled(sys, a) && Apply(H, sys, a) == sys'
  }

  lemma Goes(H: Block -> Digest, p: Path, b: Block, sys: Sys, a: Action, sys': Sys)
    requires Reaches(H, Two(OneBlockFile(H, p, b), IDLE, IDLE), sys) && Does(H, sys, a, sys')
    ensures Reaches(H, Two(OneBlockFile(H, p, b), IDLE, IDLE), sys')
  {
    hide Enabled, Apply, Reaches;
    Extend(H, Two(OneBlockFile(H, p, b), IDLE, IDLE), sys, a);
  }

  // ---- Single actions ----

  lemma WriterAdvances(H: Block -> Digest, v: Volume, u: Thread, w: Thread, w': Thread)
    requires CanAdvance(Two(v, u, w), w) && Advanced(w) == w'
    ensures Does(H, Two(v, u, w), Advance(1), Two(v, u, w'))
  {
    hide CanAdvance, Advanced;
    PutTwo(v, u, w, v, w');
  }

  lemma UnlinkerAdvances(H: Block -> Digest, v: Volume, u: Thread, u': Thread)
    requires CanAdvance(Two(v, u, IDLE), u) && Advanced(u) == u'
    ensures Does(H, Two(v, u, IDLE), Advance(0), Two(v, u', IDLE))
  {
    hide CanAdvance, Advanced;
    PutTwo(v, u, IDLE, v, u');
  }

  lemma UnlinkBegins(H: Block -> Digest, p: Path, b: Block)
    ensures var v := OneBlockFile(H, p, b);
            Does(H, Two(v, IDLE, IDLE), BeginUnlink(0, p), Two(v, Unlinker(Sized, p, 0), IDLE))
  {
    PutTwo(OneBlockFile(H, p, b), IDLE, IDLE, OneBlockFile(H, p, b), Unlinker(Sized, p, 0));
  }

  lemma WriteBegins(H: Block -> Digest, v: Volume, p: Path, b: Block)
    ensures var u := Unlinker(Sized, p, 0);
            Does(H, Two(v, u, IDLE), BeginWrite(1, p, 1, [b]), Two(v, u, Writer(Deciding, p, b, [], 0)))
  {
    PutTwo(v, Unlinker(Sized, p, 0), IDLE, v, Writer(Deciding, p, b, [], 0));
  }

  lemma Decides(H: Block -> Digest, p: Path, b: Block)
    ensures var v1, u := OneBlock(H, b, 2, map[Key(p, 0) := 0], map[p := BLOCK_SIZE]), Unlinker(Sized, p, 0);
            Does(H, Two(OneBlockFile(H, p, b), u, Writer(Deciding, p, b, [], 0)), DecideOne(1),
                 Two(v1, u, Writer(Deciding, p, b, HitPlan(H, b), 0)))
  {
    hide Decide;
    Hits(H, p, b);
    PutTwo(OneBlockFile(H, p, b), Unlinker(Sized, p, 0), Writer(Deciding, p, b, [], 0),
           OneBlock(H, b, 2, map[Key(p, 0) := 0], map[p := BLOCK_SIZE]), Writer(Deciding, p, b, HitPlan(H, b), 0));
  }

  lemma Hits(H: Block -> Digest, p: Path, b: Block)
    ensures Decide(H, OneBlockFile(H, p, b), [], 1, b) ==
              (OneBlock(H, b, 2, map[Key(p, 0) := 0], map[p := BLOCK_SIZE]), Entry(Hit, 1, 0, b, H(b), 0))
    ensures [] + [Entry(Hit, 1, 0, b, H(b), 0)] == HitPlan(H, b)
  {
    var v := OneBlockFile(H, p, b);
    assert v.infos[0 := Info(H(b), 0, 2)] == map[0 := Info(H(b), 0, 2)];
  }

  lemma NoMisses(H: Block -> Digest, b: Block, v: Volume)
    requires v.free == []
    ensures MissCount(HitPlan(H, b)) == 0 && SkipHits(HitPlan(H, b), 0) == 1
    ensures Drain(v, 0) == (v, []) && Append(v, 0) == (v, [])
  {
    assert HitPlan(H, b)[1..] == [];
    assert Append(v, 0).1 == [] && Append(v, 0).0 == v;
  }

  lemma Drains(H: Block -> Digest, v: Volume, p: Path, b: Block)
    requires v.free == []
    ensures var u, plan := Unlinker(Sized, p, 0), HitPlan(H, b);
            Does(H, Two(v, u, Writer(Draining, p, b, plan, 0)), DrainFree(1),
                 Two(v, u, Writer(Appending, p, b, plan, 0)))
  {
    hide MissCount, Drain, Append;
    NoMisses(H, b, v);
    PutTwo(v, Unlinker(Sized, p, 0), Writer(Draining, p, b, HitPlan(H, b), 0), v,
           Writer(Appending, p, b, HitPlan(H, b), 0));
  }

  lemma Appends(H: Block -> Digest, v: Volume, p: Path, b: Block)
    requires v.free == []
    ensures var u, plan := Unlinker(Sized, p, 0), HitPlan(H, b);
            Does(H, Two(v, u, Writer(Appending, p, b, plan, 0)), AppendRange(1),
                 Two(v, u, Writer(Assigning, p, b, plan, 0)))
  {
    hide MissCount, Drain, Append;
    NoMisses(H, b, v);
    var none: seq<nat> := [];
    assert none + none == none;
    PutTwo(v, Unlinker(Sized, p, 0), Writer(Appending, p, b, HitPlan(H, b), 0), v,
           Writer(Assigning, p, b, HitPlan(H, b), 0));
  }

  lemma Assigns(H: Block -> Digest, v: Volume, p: Path, b: Block)
    ensures var u, plan := Unlinker(Sized, p, 0), HitPlan(H, b);
            Does(H, Two(v, u, Writer(Assigning, p, b, plan, 0)), AssignOne(1),
                 Two(v, u, Writer(Assigning, p, b, plan, 1)))
  {
    PutTwo(v, Unlinker(Sized, p, 0), Writer(Assigning, p, b, HitPlan(H, b), 0), v,
           Writer(Assigning, p, b, HitPlan(H, b), 1));
  }

  lemma Publishes(H: Block -> Digest, v: Volume, p: Path, b: Block)
    ensures var u, plan := Unlinker(Sized, p, 0), HitPlan(H, b);
            Does(H, Two(v, u, Writer(Publishing, p, b, plan, 0)), PublishOne(1),
                 Two(v, u, Writer(Publishing, p, b, plan, 1)))
  {
    assert HitPlan(H, b)[0 := HitPlan(H, b)[0]] == HitPlan(H, b);
    PutTwo(v, Unlinker(Sized, p, 0), Writer(Publishing, p, b, HitPlan(H, b), 0), v,
           Writer(Publishing, p, b, HitPlan(H, b), 1));
  }

  lemma Maps(H: Block -> Digest, p: Path, b: Block)
    ensures var u, plan, one := Unlinker(Sized, p, 0), HitPlan(H, b), map[p := BLOCK_SIZE];
            Does(H, Two(OneBlock(H, b, 2, map[Key(p, 0) := 0], one), u, Writer(Mapping, p, b, plan, 0)), MapOne(1),
                 Two(OneBlock(H, b, 2, map[Key(p, 0) := 0, Key(p, 1) := 0], one), u, Writer(Mapping, p, b, plan, 1)))
  {
    var v, v1 := OneBlock(H, b, 2, map[Key(p, 0) := 0], map[p := BLOCK_SIZE]),
        OneBlock(H, b, 2, map[Key(p, 0) := 0, Key(p, 1) := 0], map[p := BLOCK_SIZE]);
    assert v.byBlock[Key(p, 1) := 0] == v1.byBlock;
    PutTwo(v, Unlinker(Sized, p, 0), Writer(Mapping, p, b, HitPlan(H, b), 0), v1,
           Writer(Mapping, p, b, HitPlan(H, b), 1));
  }

  lemma Grows(H: Block -> Digest, p: Path, b: Block)
    ensures var u, plan, two := Unlinker(Sized, p, 0), HitPlan(H, b), map[Key(p, 0) := 0, Key(p, 1) := 0];
            Does(H, Two(OneBlock(H, b, 2, two, map[p := BLOCK_SIZE]), u, Writer(Growing, p, b, plan, 1)), Grow(1),
                 Two(OneBlock(H, b, 2, two, map[p := 2 * BLOCK_SIZE]), u, Writer(Releasing, p, b, plan, 1)))
  {
    var two := map[Key(p, 0) := 0, Key(p, 1) := 0];
    var v, v1 := OneBlock(H, b, 2, two, map[p := BLOCK_SIZE]), OneBlock(H, b, 2, two, map[p := 2 * BLOCK_SIZE]);
    assert v.sizes[p := 2 * BLOCK_SIZE] == v1.sizes;
    PutTwo(v, Unlinker(Sized, p, 0), Writer(Growing, p, b, HitPlan(H, b), 1), v1,
           Writer(Releasing, p, b, HitPlan(H, b), 1));
  }

  lemma WriterGivesBack(H: Block -> Digest, v: Volume, p: Path, b: Block)
    ensures var u := Unlinker(Sized, p, 0);
            Does(H, Two(v, u, Writer(Releasing, p, b, HitPlan(H, b), 1)), GiveBack(1), Two(v, u, IDLE))
  {
    assert [] + v.free == v.free;
    PutTwo(v, Unlinker(Sized, p, 0), Writer(Releasing, p, b, HitPlan(H, b), 1), v, IDLE);
  }

  lemma Removes(H: Block -> Digest, p: Path, b: Block)
    ensures var size := map[p := 2 * BLOCK_SIZE];
            Does(H, Two(OneBlock(H, b, 2, map[Key(p, 0) := 0, Key(p, 1) := 0], size), Unlinker(Removing, p, 0), IDLE),
                 RemoveOne(0),
                 Two(OneBlock(H, b, 1, map[Key(p, 1) := 0], size), Unlinker(Removing, p, 1), IDLE))
  {
    var v := OneBlock(H, b, 2, map[Key(p, 0) := 0, Key(p, 1) := 0], map[p := 2 * BLOCK_SIZE]);
    assert v.byBlock - {Key(p, 0)} == map[Key(p, 1) := 0];
    assert v.infos[0 := Info(H(b), 0, 1)] == map[0 := Info(H(b), 0, 1)];
    PutTwo(v, Unlinker(Removing, p, 0), IDLE, OneBlock(H, b, 1, map[Key(p, 1) := 0], map[p := 2 * BLOCK_SIZE]),
           Unlinker(Removing, p, 1));
  }

  lemma UnlinkerGivesBack(H: Block -> Digest, v: Volume, p: Path)
    ensures Does(H, Two(v, Unlinker(RemReleasing, p, 1), IDLE), GiveBack(0), Two(v, Unlinker(Resizing, p, 1), IDLE))
  {
    assert [] + v.free == v.free;
    PutTwo(v, Unlinker(RemReleasing, p, 1), IDLE, v, Unlinker(Resizing, p, 1));
  }

  lemma Forgets(H: Block -> Digest, p: Path, b: Block)
    ensures Does(H, Two(OneBlock(H, b, 1, map[Key(p, 1) := 0], map[p := 2 * BLOCK_SIZE]), Unlinker(Resizing, p, 1),
            IDLE), Resize(0),
                 Two(OneBlock(H, b, 1, map[Key(p, 1) := 0], map[]), IDLE, IDLE))
  {
    hide SkipHits, RunEnd, RunBytes, MissCount, CanAdvance, MutexFree, CanRead;
    var v := OneBlock(H, b, 1, map[Key(p, 1) := 0], map[p := 2 * BLOCK_SIZE]);
    assert v.sizes - {p} == map[];
    PutTwo(v, Unlinker(Resizing, p, 1), IDLE, OneBlock(H, b, 1, map[Key(p, 1) := 0], map[]), IDLE);
  }

  // ---- The run ----

  /** The unlink reads the size; then the writer deduplicates its block in Pass 1. */
  lemma BothBegin(H: Block -> Digest, p: Path, b: Block)
    ensures var v := OneBlock(H, b, 2, map[Key(p, 0) := 0], map[p := BLOCK_SIZE]);
            Reaches(H, Two(OneBlockFile(H, p, b), IDLE, IDLE),
                    Two(v, Unlinker(Sized, p, 0), Writer(Draining, p, b, HitPlan(H, b), 0)))
  {
    hide Reaches, Does, OneBlock, OneBlockFile;
    var v0, u, plan := OneBlockFile(H, p, b), Unlinker(Sized, p, 0), HitPlan(H, b);
    var v := OneBlock(H, b, 2, map[Key(p, 0) := 0], map[p := BLOCK_SIZE]);
    Start(H, Two(v0, IDLE, IDLE));
    UnlinkBegins(H, p, b);
    Goes(H, p, b, Two(v0, IDLE, IDLE), BeginUnlink(0, p), Two(v0, u, IDLE));
    WriteBegins(H, v0, p, b);
    Goes(H, p, b, Two(v0, u, IDLE), BeginWrite(1, p, 1, [b]), Two(v0, u, Writer(Deciding, p, b, [], 0)));
    Decides(H, p, b);
    Goes(H, p, b, Two(v0, u, Writer(Deciding, p, b, [], 0)), DecideOne(1), Two(v, u, Writer(Deciding, p, b, plan, 0)));
    WriterAdvances(H, v, u, Writer(Deciding, p, b, plan, 0), Writer(Draining, p, b, plan, 0));
    Goes(H, p, b, Two(v, u, Writer(Deciding, p, b, plan, 0)), Advance(1), Two(v, u, Writer(Draining, p, b, plan, 0)));
  }

  /** The writer has nothing to allocate or flush. */
  lemma WriterPrepares(H: Block -> Digest, p: Path, b: Block)
    ensures var v := OneBlock(H, b, 2, map[Key(p, 0) := 0], map[p := BLOCK_SIZE]);
            Reaches(H, Two(OneBlockFile(H, p, b), IDLE, IDLE),
                    Two(v, Unlinker(Sized, p, 0), Writer(Publishing, p, b, HitPlan(H, b), 0)))
  {
    hide Reaches, Does, OneBlockFile, SkipHits, MissCount, Drain, Append;
    BothBegin(H, p, b);
    var v, u, plan := OneBlock(H, b, 2, map[Key(p, 0) := 0], map[p := BLOCK_SIZE]), Unlinker(Sized, p, 0),
        HitPlan(H, b);
    NoMisses(H, b, v);
    Drains(H, v, p, b);
    Goes(H, p, b, Two(v, u, Writer(Draining, p, b, plan, 0)), DrainFree(1),
         Two(v, u, Writer(Appending, p, b, plan, 0)));
    Appends(H, v, p, b);
    Goes(H, p, b, Two(v, u, Writer(Appending, p, b, plan, 0)), AppendRange(1),
         Two(v, u, Writer(Assigning, p, b, plan, 0)));
    Assigns(H, v, p, b);
    Goes(H, p, b, Two(v, u, Writer(Assigning, p, b, plan, 0)), AssignOne(1),
         Two(v, u, Writer(Assigning, p, b, plan, 1)));
    WriterAdvances(H, v, u, Writer(Assigning, p, b, plan, 1), Writer(Flushing, p, b, plan, 0));
    Goes(H, p, b, Two(v, u, Writer(Assigning, p, b, plan, 1)), Advance(1), Two(v, u, Writer(Flushing, p, b, plan, 0)));
    WriterAdvances(H, v, u, Writer(Flushing, p, b, plan, 0), Writer(Publishing, p, b, plan, 0));
    Goes(H, p, b, Two(v, u, Writer(Flushing, p, b, plan, 0)), Advance(1), Two(v, u, Writer(Publishing, p, b, plan, 0)));
  }

  /** The writer maps block 1 and records a size of two blocks. */
  lemma WriterFinishes(H: Block -> Digest, p: Path, b: Block)
    ensures var v := OneBlock(H, b, 2, map[Key(p, 0) := 0, Key(p, 1) := 0], map[p := 2 * BLOCK_SIZE]);
            Reaches(H, Two(OneBlockFile(H, p, b), IDLE, IDLE), Two(v, Unlinker(Sized, p, 0), IDLE))
  {
    hide Reaches, Does, OneBlock, OneBlockFile;
    WriterPrepares(H, p, b);
    var u, plan, one, two := Unlinker(Sized, p, 0), HitPlan(H, b), map[Key(p, 0) := 0],
        map[Key(p, 0) := 0, Key(p, 1) := 0];
    var v, v1, v2 := OneBlock(H, b, 2, one, map[p := BLOCK_SIZE]), OneBlock(H, b, 2, two, map[p := BLOCK_SIZE]),
        OneBlock(H, b, 2, two, map[p := 2 * BLOCK_SIZE]);
    Publishes(H, v, p, b);
    Goes(H, p, b, Two(v, u, Writer(Publishing, p, b, plan, 0)), PublishOne(1),
         Two(v, u, Writer(Publishing, p, b, plan, 1)));
    WriterAdvances(H, v, u, Writer(Publishing, p, b, plan, 1), Writer(Mapping, p, b, plan, 0));
    Goes(H, p, b, Two(v, u, Writer(Publishing, p, b, plan, 1)), Advance(1), Two(v, u, Writer(Mapping, p, b, plan, 0)));
    Maps(H, p, b);
    Goes(H, p, b, Two(v, u, Writer(Mapping, p, b, plan, 0)), MapOne(1), Two(v1, u, Writer(Mapping, p, b, plan, 1)));
    WriterAdvances(H, v1, u, Writer(Mapping, p, b, plan, 1), Writer(Growing, p, b, plan, 1));
    Goes(H, p, b, Two(v1, u, Writer(Mapping, p, b, plan, 1)), Advance(1), Two(v1, u, Writer(Growing, p, b, plan, 1)));
    Grows(H, p, b);
    Goes(H, p, b, Two(v1, u, Writer(Growing, p, b, plan, 1)), Grow(1), Two(v2, u, Writer(Releasing, p, b, plan, 1)));
    WriterGivesBack(H, v2, p, b);
    Goes(H, p, b, Two(v2, u, Writer(Releasing, p, b, plan, 1)), GiveBack(1), Two(v2, u, IDLE));
  }

  /** The unlink removes the one block it knows of and forgets the size. */
  lemma UnlinkFinishes(H: Block -> Digest, p: Path, b: Block)
    ensures Reaches(H, Two(OneBlockFile(H, p, b), IDLE, IDLE),
            Two(OneBlock(H, b, 1, map[Key(p, 1) := 0], map[]), IDLE, IDLE))
  {
    hide Reaches, Does, OneBlock, OneBlockFile;
    WriterFinishes(H, p, b);
    var size := map[p := 2 * BLOCK_SIZE];
    var v, v1 := OneBlock(H, b, 2, map[Key(p, 0) := 0, Key(p, 1) := 0], size),
        OneBlock(H, b, 1, map[Key(p, 1) := 0], size);
    UnlinkerAdvances(H, v, Unlinker(Sized, p, 0), Unlinker(Removing, p, 0));
    Goes(H, p, b, Two(v, Unlinker(Sized, p, 0), IDLE), Advance(0), Two(v, Unlinker(Removing, p, 0), IDLE));
    Removes(H, p, b);
    Goes(H, p, b, Two(v, Unlinker(Removing, p, 0), IDLE), RemoveOne(0), Two(v1, Unlinker(Removing, p, 1), IDLE));
    UnlinkerAdvances(H, v1, Unlinker(Removing, p, 1), Unlinker(RemReleasing, p, 1));
    Goes(H, p, b, Two(v1, Unlinker(Removing, p, 1), IDLE), Advance(0), Two(v1, Unlinker(RemReleasing, p, 1), IDLE));
    UnlinkerGivesBack(H, v1, p);
    Goes(H, p, b, Two(v1, Unlinker(RemReleasing, p, 1), IDLE), GiveBack(0), Two(v1, Unlinker(Resizing, p, 1), IDLE));
    Forgets(H, p, b);
    Goes(H, p, b, Two(v1, Unlinker(Resizing, p, 1), IDLE), Resize(0),
         Two(OneBlock(H, b, 1, map[Key(p, 1) := 0], map[]), IDLE, IDLE));
  }

  /** From a valid volume whose sizes fit, an unlink and a write of the next block of the
      same file, overlapping, leave that block mapped and no size recorded for the file. */
  lemma OverlapBreaksSizes(H: Block -> Digest, p: Path, b: Block)
    ensures FsValid(H, iset{b}, OneBlockFile(H, p, b))
    ensures exists sys :: Reaches(H, Two(OneBlockFile(H, p, b), IDLE, IDLE), sys) && AllIdle(sys) &&
                          Key(p, 1) in sys.v.byBlock && p !in sys.v.sizes && !SizesFit(sys.v)
  {
    hide Reaches, FsValid;
    StartIsValid(H, p, b);
    UnlinkFinishes(H, p, b);
    var v := OneBlock(H, b, 1, map[Key(p, 1) := 0], map[]);
    assert Key(p, 1) in v.byBlock && AllIdle(Two(v, IDLE, IDLE));
  }
}
