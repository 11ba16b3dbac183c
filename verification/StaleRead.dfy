/** Why a lock-free read needs its slots not to be handed out again: a run in which a slot
    is freed and rewritten between the lookup and the pread. */
module StaleRead {
  import opened MasterFile
  import opened Volumes
  import opened Protocol
  import opened Solo
  import opened Removals
  import opened Refinement
  import opened Reachability
  import opened Overlap

  /** After the unlink of the only file: one slot in the master, still holding b. */
  function Emptied(b: seq<Byte>, sizes: map<Path, nat>, free: seq<nat>): Volume {
    Volume(map[], 1, map[], map[], sizes, free, 1, b)
  }

  /** While the writer stores c under a new object. */
  function Refilled(H: Block -> Digest, c: Block, free: seq<nat>, master: seq<Byte>): Volume {
    Volume(map[1 := Info(H(c), 0, 1)], 2, map[], map[], map[], free, 1, master)
  }

  function MissPlan(H: Block -> Digest, c: Block): seq<Entry> { [Entry(Miss, 0, 0, c, H(c), 1)] }

  function NewWriter(pc: PC, q: Path, c: Block, plan: seq<Entry>, taken: seq<nat>, pos: nat): Thread {
    WriterAt(pc, q, 0, [c], plan, taken, pos, [])
  }

  // ---- Single actions ----

  lemma LastRemoved(H: Block -> Digest, p: Path, b: Block)
    ensures Does(H, Two(OneBlockFile(H, p, b), Unlinker(Removing, p, 0), IDLE), RemoveOne(0),
                 Two(Emptied(b, map[p := BLOCK_SIZE], []), RemoverAt(Removing, p, 1, 1, Forget, [0]), IDLE))
  {
    hide RemoveBlock;
    DropsLast(H, p, b);
    PutTwo(OneBlockFile(H, p, b), Unlinker(Removing, p, 0), IDLE,
           Emptied(b, map[p := BLOCK_SIZE], []), RemoverAt(Removing, p, 1, 1, Forget, [0]));
  }

  lemma DropsLast(H: Block -> Digest, p: Path, b: Block)
    ensures RemoveBlock(OneBlockFile(H, p, b), p, 0, []) == (Emptied(b, map[p := BLOCK_SIZE], []), [0])
  {
    var v := OneBlockFile(H, p, b);
    assert v.byBlock - {Key(p, 0)} == map[] && v.infos - {0} == map[] && v.byHash - {H(b)} == map[];
    assert [0] + [] == [0];
  }

  lemma SlotReturned(H: Block -> Digest, p: Path, b: Block)
    ensures var size := map[p := BLOCK_SIZE];
            Does(H, Two(Emptied(b, size, []), RemoverAt(RemReleasing, p, 1, 1, Forget, [0]), IDLE), GiveBack(0),
                 Two(Emptied(b, size, [0]), RemoverAt(Resizing, p, 1, 1, Forget, []), IDLE))
  {
    assert [0] + [] == [0];
    var size := map[p := BLOCK_SIZE];
    PutTwo(Emptied(b, size, []), RemoverAt(RemReleasing, p, 1, 1, Forget, [0]), IDLE,
           Emptied(b, size, [0]), RemoverAt(Resizing, p, 1, 1, Forget, []));
  }

  lemma SizeForgotten(H: Block -> Digest, p: Path, b: Block)
    ensures Does(H, Two(Emptied(b, map[p := BLOCK_SIZE], [0]), RemoverAt(Resizing, p, 1, 1, Forget, []), IDLE),
            Resize(0),
                 Two(Emptied(b, map[], [0]), IDLE, IDLE))
  {
    var v := Emptied(b, map[p := BLOCK_SIZE], [0]);
    assert v.sizes - {p} == map[];
    PutTwo(v, RemoverAt(Resizing, p, 1, 1, Forget, []), IDLE, Emptied(b, map[], [0]), IDLE);
  }

  lemma NewWriteBegins(H: Block -> Digest, v: Volume, q: Path, c: Block)
    ensures Does(H, Two(v, IDLE, IDLE), BeginWrite(1, q, 0, [c]), Two(v, IDLE, NewWriter(Deciding, q, c, [], [], 0)))
  {
    PutTwo(v, IDLE, IDLE, v, NewWriter(Deciding, q, c, [], [], 0));
  }

  lemma Misses(H: Block -> Digest, b: Block, c: Block)
    ensures Decide(H, Emptied(b, map[], [0]), [], 0, c) == (Refilled(H, c, [0], b), MissPlan(H, c)[0])
    ensures [] + [MissPlan(H, c)[0]] == MissPlan(H, c)
  {
    var v := Emptied(b, map[], [0]);
    assert PendingHashes([]) == map[];
    assert v.infos[1 := Info(H(c), 0, 1)] == map[1 := Info(H(c), 0, 1)];
  }

  lemma NewBlockDecided(H: Block -> Digest, b: Block, q: Path, c: Block)
    ensures Does(H, Two(Emptied(b, map[], [0]), IDLE, NewWriter(Deciding, q, c, [], [], 0)), DecideOne(1),
                 Two(Refilled(H, c, [0], b), IDLE, NewWriter(Deciding, q, c, MissPlan(H, c), [], 0)))
  {
    hide Decide;
    Misses(H, b, c);
    PutTwo(Emptied(b, map[], [0]), IDLE, NewWriter(Deciding, q, c, [], [], 0),
           Refilled(H, c, [0], b), NewWriter(Deciding, q, c, MissPlan(H, c), [], 0));
  }

  lemma OneMiss(H: Block -> Digest, c: Block)
    ensures MissCount(MissPlan(H, c)) == 1 && SkipHits(MissPlan(H, c), 0) == 0 && RunEnd(MissPlan(H, c), 1) == 1
  {
    assert MissPlan(H, c)[1..] == [];
  }

  lemma SlotTaken(H: Block -> Digest, b: Block, q: Path, c: Block)
    ensures Does(H, Two(Refilled(H, c, [0], b), IDLE, NewWriter(Draining, q, c, MissPlan(H, c), [], 0)), DrainFree(1),
                 Two(Refilled(H, c, [], b), IDLE, NewWriter(Appending, q, c, MissPlan(H, c), [0], 0)))
  {
    hide MissCount;
    OneMiss(H, c);
    var v := Refilled(H, c, [0], b);
    assert v.free[..1] == [0] && v.free[1..] == [];
    PutTwo(v, IDLE, NewWriter(Draining, q, c, MissPlan(H, c), [], 0),
           Refilled(H, c, [], b), NewWriter(Appending, q, c, MissPlan(H, c), [0], 0));
  }

  lemma NothingAppended(H: Block -> Digest, b: Block, q: Path, c: Block)
    ensures var v := Refilled(H, c, [], b);
            Does(H, Two(v, IDLE, NewWriter(Appending, q, c, MissPlan(H, c), [0], 0)), AppendRange(1),
                 Two(v, IDLE, NewWriter(Assigning, q, c, MissPlan(H, c), [0], 0)))
  {
    hide MissCount, Append;
    OneMiss(H, c);
    var v := Refilled(H, c, [], b);
    AppendsNone(v);
    assert [0] + [] == [0];
    PutTwo(v, IDLE, NewWriter(Appending, q, c, MissPlan(H, c), [0], 0), v,
           NewWriter(Assigning, q, c, MissPlan(H, c), [0], 0));
  }

  lemma AppendsNone(v: Volume)
    ensures Append(v, 0) == (v, [])
  {
    assert Append(v, 0).1 == [] && Append(v, 0).0 == v;
  }

  lemma SlotAssigned(H: Block -> Digest, b: Block, q: Path, c: Block)
    ensures var v := Refilled(H, c, [], b);
            Does(H, Two(v, IDLE, NewWriter(Assigning, q, c, MissPlan(H, c), [0], 0)), AssignOne(1),
                 Two(v, IDLE, NewWriter(Assigning, q, c, MissPlan(H, c), [], 1)))
  {
    var v, plan := Refilled(H, c, [], b), MissPlan(H, c);
    assert v.infos[1 := v.infos[1]] == v.infos && plan[0 := plan[0]] == plan && [0][1..] == [];
    PutTwo(v, IDLE, NewWriter(Assigning, q, c, plan, [0], 0), v, NewWriter(Assigning, q, c, plan, [], 1));
  }

  lemma Overwrites(H: Block -> Digest, b: Block, c: Block)
    ensures FlushRun(Refilled(H, c, [], b), MissPlan(H, c), 0, RunBytes(MissPlan(H, c), 0)) == Refilled(H, c, [], c)
  {
    OneMiss(H, c);
    var plan := MissPlan(H, c);
    assert Payloads(plan[0..1]) == [c];
    assert [c][..0] == [] && Flatten([c]) == [] + c == c;
    assert c[..BLOCK_SIZE] == c;
    assert Pwrite(b, 0, c) == c;
  }

  lemma Flushes(H: Block -> Digest, b: Block, q: Path, c: Block)
    ensures Does(H, Two(Refilled(H, c, [], b), IDLE, NewWriter(Flushing, q, c, MissPlan(H, c), [], 0)), FlushOne(1),
                 Two(Refilled(H, c, [], c), IDLE, NewWriter(Flushing, q, c, MissPlan(H, c), [], 1)))
  {
    hide FlushRun, SkipHits, RunEnd;
    OneMiss(H, c);
    Overwrites(H, b, c);
    PutTwo(Refilled(H, c, [], b), IDLE, NewWriter(Flushing, q, c, MissPlan(H, c), [], 0),
           Refilled(H, c, [], c), NewWriter(Flushing, q, c, MissPlan(H, c), [], 1));
  }

  // ---- The run ----

  lemma FileUnlinked(H: Block -> Digest, p: Path, b: Block)
    ensures Reaches(H, Two(OneBlockFile(H, p, b), IDLE, IDLE), Two(Emptied(b, map[], [0]), IDLE, IDLE))
  {
    hide Reaches, Does, OneBlockFile, Emptied;
    var v, size := OneBlockFile(H, p, b), map[p := BLOCK_SIZE];
    var v1, v2 := Emptied(b, size, []), Emptied(b, size, [0]);
    Start(H, Two(v, IDLE, IDLE));
    UnlinkBegins(H, p, b);
    Goes(H, p, b, Two(v, IDLE, IDLE), BeginUnlink(0, p), Two(v, Unlinker(Sized, p, 0), IDLE));
    UnlinkerAdvances(H, v, Unlinker(Sized, p, 0), Unlinker(Removing, p, 0));
    Goes(H, p, b, Two(v, Unlinker(Sized, p, 0), IDLE), Advance(0), Two(v, Unlinker(Removing, p, 0), IDLE));
    LastRemoved(H, p, b);
    var r1, r2 := RemoverAt(Removing, p, 1, 1, Forget, [0]), RemoverAt(RemReleasing, p, 1, 1, Forget, [0]);
    Goes(H, p, b, Two(v, Unlinker(Removing, p, 0), IDLE), RemoveOne(0), Two(v1, r1, IDLE));
    UnlinkerAdvances(H, v1, r1, r2);
    Goes(H, p, b, Two(v1, r1, IDLE), Advance(0), Two(v1, r2, IDLE));
    SlotReturned(H, p, b);
    var r3 := RemoverAt(Resizing, p, 1, 1, Forget, []);
    Goes(H, p, b, Two(v1, r2, IDLE), GiveBack(0), Two(v2, r3, IDLE));
    SizeForgotten(H, p, b);
    Goes(H, p, b, Two(v2, r3, IDLE), Resize(0), Two(Emptied(b, map[], [0]), IDLE, IDLE));
  }

  lemma SlotReused(H: Block -> Digest, p: Path, b: Block, q: Path, c: Block)
    ensures Reaches(H, Two(OneBlockFile(H, p, b), IDLE, IDLE),
                    Two(Refilled(H, c, [], b), IDLE, NewWriter(Flushing, q, c, MissPlan(H, c), [], 0)))
  {
    hide Reaches, Does, OneBlockFile, Emptied, Refilled;
    FileUnlinked(H, p, b);
    var plan, v, v1, v2 := MissPlan(H, c), Emptied(b, map[], [0]), Refilled(H, c, [0], b), Refilled(H, c, [], b);
    var w0, w1, w2 := NewWriter(Deciding, q, c, [], [], 0), NewWriter(Deciding, q, c, plan, [], 0),
        NewWriter(Draining, q, c, plan, [], 0);
    NewWriteBegins(H, v, q, c);
    Goes(H, p, b, Two(v, IDLE, IDLE), BeginWrite(1, q, 0, [c]), Two(v, IDLE, w0));
    NewBlockDecided(H, b, q, c);
    Goes(H, p, b, Two(v, IDLE, w0), DecideOne(1), Two(v1, IDLE, w1));
    WriterAdvances(H, v1, IDLE, w1, w2);
    Goes(H, p, b, Two(v1, IDLE, w1), Advance(1), Two(v1, IDLE, w2));
    SlotTaken(H, b, q, c);
    var w3, w4 := NewWriter(Appending, q, c, plan, [0], 0), NewWriter(Assigning, q, c, plan, [0], 0);
    Goes(H, p, b, Two(v1, IDLE, w2), DrainFree(1), Two(v2, IDLE, w3));
    NothingAppended(H, b, q, c);
    Goes(H, p, b, Two(v2, IDLE, w3), AppendRange(1), Two(v2, IDLE, w4));
    SlotAssigned(H, b, q, c);
    var w5, w6 := NewWriter(Assigning, q, c, plan, [], 1), NewWriter(Flushing, q, c, plan, [], 0);
    Goes(H, p, b, Two(v2, IDLE, w4), AssignOne(1), Two(v2, IDLE, w5));
    WriterAdvances(H, v2, IDLE, w5, w6);
    Goes(H, p, b, Two(v2, IDLE, w5), Advance(1), Two(v2, IDLE, w6));
  }

  /** A reader that has looked block 0 of p up finds, at its pread, the bytes of a block
      written to another file since. */
  lemma RecycledSlotIsRead(H: Block -> Digest, p: Path, b: Block, q: Path, c: Block)
    ensures var v := OneBlockFile(H, p, b);
            && MappedTo(v, Key(p, 0), 0) && Key(p, 0) in View(v) && View(v)[Key(p, 0)] == b
            && exists sys ::
                 Reaches(H, Two(v, IDLE, IDLE), sys) && InFile(sys.v.master, 0) && BlockAt(sys.v.master, 0) == c
  {
    hide Reaches, Does;
    SlotReused(H, p, b, q, c);
    Flushes(H, b, q, c);
    var w, w' := NewWriter(Flushing, q, c, MissPlan(H, c), [], 0), NewWriter(Flushing, q, c, MissPlan(H, c), [], 1);
    var v' := Refilled(H, c, [], c);
    Goes(H, p, b, Two(Refilled(H, c, [], b), IDLE, w), FlushOne(1), Two(v', IDLE, w'));
    assert BlockAt(v'.master, 0) == c && BlockAt(OneBlockFile(H, p, b).master, 0) == b;
  }
}
