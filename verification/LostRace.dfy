/** The lost publication race: the one step that can leave a reference to a freed
    MasterInfo, exactly when it does, and a run in which it does. */
module LostRace {
  import opened MasterFile
  import opened Volumes
  import opened Protocol
  import opened Invariant
  import opened Actions
  import opened Commits
  import opened Publication
  import opened Safety
  import opened Solo
  import opened Twins
  import opened Reachability

  /** Some plan entry in flight, or some file block, refers to a freed info. */
  ghost predicate Dangles(sys: Sys) {
    || (exists t, i: nat :: t in sys.threads && Held(sys.threads[t], i) && sys.threads[t].plan[i].info !in sys.v.infos)
    || (exists k :: k in sys.v.byBlock && sys.v.byBlock[k] !in sys.v.infos)
  }

  lemma GoodIsSafe(H: Block -> Digest, U: iset<Block>, sys: Sys)
    requires Good(H, U, sys)
    ensures !Dangles(sys)
  {
    hide SlotInv, RefInv, ContentInv, Held, KeepersOk, ThreadsOk, Indexed;
    var g :| Inv(H, U, sys, g);
    forall t, i: nat | t in sys.threads && Held(sys.threads[t], i) ensures sys.threads[t].plan[i].info in sys.v.infos {
      HeldInfo(sys, g, t, i);
    }
  }

  lemma TwinDangles(H: Block -> Digest, U: iset<Block>, sys: Sys, t: Tid)
    requires Good(H, U, sys) && LosesRace(sys, t) && HasTwin(sys, t) && Enabled(sys, PublishOne(t))
    ensures Dangles(Apply(H, sys, PublishOne(t)))
  {
    hide SlotInv, InfoInv, RefInv, ContentInv, Retain, Held, Indexed;
    var sys', th, p := Apply(H, sys, PublishOne(t)), sys.threads[t], Current(sys, t).info;
    var g :| Inv(H, U, sys, g);
    PublishingPending(th);
    PendingIsUnpublished(sys, g, t, th.pos);
    var j :| 0 <= j < |th.plan| && j != th.pos && th.plan[j].info == p;
    RetainFrees(sys.v, p, sys.v.byHash[Current(sys, t).hash]);
    PublishingHeld(sys'.threads[t], j);
    assert sys'.threads[t].plan[j].info == p && p !in sys'.v.infos;
  }

  lemma PublishingPending(th: Thread)
    requires th.pc.Publishing? && th.pos < |th.plan| && th.plan[th.pos].kind.Miss?
    ensures Pending(th, th.pos)
  {
  }

  lemma PublishingHeld(th: Thread, i: nat)
    requires th.pc.Publishing? && i < |th.plan|
    ensures Held(th, i)
  {
  }

  lemma RetainFrees(v: Volume, p: Ref, winner: Ref)
    ensures p !in Retain(v.(infos := v.infos - {p}), winner).infos
  {
  }

  lemma PublishSafeByObject(H: Block -> Digest, U: iset<Block>, sys: Sys, t: Tid)
    requires Good(H, U, sys) && Enabled(sys, PublishOne(t))
    ensures Good(H, U, Apply(H, sys, PublishOne(t))) <==> !(LosesRace(sys, t) && HasTwin(sys, t))
    ensures Dangles(Apply(H, sys, PublishOne(t))) <==> LosesRace(sys, t) && HasTwin(sys, t)
  {
    hide Good, Dangles, LosesRace, HasTwin, Apply;
    if LosesRace(sys, t) && HasTwin(sys, t) {
      TwinDangles(H, U, sys, t);
      if Good(H, U, Apply(H, sys, PublishOne(t))) {
        GoodIsSafe(H, U, Apply(H, sys, PublishOne(t)));
      }
    } else {
      StepGood(H, U, sys, PublishOne(t));
      GoodIsSafe(H, U, Apply(H, sys, PublishOne(t)));
    }
  }

  /** A publication step keeps the invariant, and leaves no reference to a freed info,
      exactly if it does not lose the race with a hash that the request repeats. */
  lemma PublishSafeIff(H: Block -> Digest, U: iset<Block>, sys: Sys, t: Tid)
    requires Good(H, U, sys) && TwinInv(sys) && Enabled(sys, PublishOne(t))
    ensures Good(H, U, Apply(H, sys, PublishOne(t))) <==> !LosesRepeat(H, sys, t)
    ensures Dangles(Apply(H, sys, PublishOne(t))) <==> LosesRepeat(H, sys, t)
  {
    hide Good, TwinInv, Dangles, HasTwin, Repeats, Apply;
    PublishSafeByObject(H, U, sys, t);
    if LosesRace(sys, t) {
      TwinIsRepeat(H, U, sys, t);
    }
  }

  // ---- A run that gets there ----

  /** Reachable by two threads from an empty volume. */
  ghost predicate Reachable(H: Block -> Digest, sys: Sys) {
    Reaches(H, Two(EMPTY, IDLE, IDLE), sys)
  }

  lemma Goes(H: Block -> Digest, sys: Sys, a: Action, sys': Sys)
    requires Reachable(H, sys) && Enabled(sys, a) && Apply(H, sys, a) == sys'
    ensures Reachable(H, sys')
  {
    hide Enabled, Apply, Reaches;
    Extend(H, Two(EMPTY, IDLE, IDLE), sys, a);
  }

  /** Writer 0 stores the single block b in file p; its info is 0, its slot 0. */
  function FirstWriter(pc: PC, p: Path, b: Block, plan: seq<Entry>, taken: seq<nat>, pos: nat): Thread {
    WriterAt(pc, p, 0, [b], plan, taken, pos, [])
  }

  /** Writer 1 stores b twice in file q; its info is 1, its slot 1. */
  function SecondWriter(pc: PC, q: Path, b: Block, plan: seq<Entry>, taken: seq<nat>, pos: nat, rel: seq<nat>): Thread {
    WriterAt(pc, q, 0, [b, b], plan, taken, pos, rel)
  }

  function Plan0(H: Block -> Digest, b: Block): seq<Entry> { [Entry(Miss, 0, 0, b, H(b), 0)] }
  function Plan1(H: Block -> Digest, b: Block, slot: nat): seq<Entry> {
    [Entry(Miss, 0, slot, b, H(b), 1), Entry(Hit, 1, 0, b, H(b), 1)]
  }

  function MidWrite(infos: map<Ref, Info>, nextRef: nat, next: nat, master: seq<Byte>): Volume {
    Volume(infos, nextRef, map[], map[], map[], [], next, master)
  }

  lemma Boots(H: Block -> Digest)
    ensures Reachable(H, Two(EMPTY, IDLE, IDLE))
  {
    hide Reaches;
    Start(H, Two(EMPTY, IDLE, IDLE));
  }

  lemma FirstDecides(H: Block -> Digest, p: Path, b: Block)
    ensures Reachable(H,
            Two(MidWrite(map[0 := Info(H(b), 0, 1)], 1, 0, []), FirstWriter(Draining, p, b, Plan0(H, b), [], 0), IDLE))
  {
    hide Reachable;
    var s0 := Two(EMPTY, IDLE, IDLE);
    Boots(H);
    var ta := FirstWriter(Deciding, p, b, [], [], 0);
    PutTwo(EMPTY, IDLE, IDLE, EMPTY, ta);
    Goes(H, s0, BeginWrite(0, p, 0, [b]), Two(EMPTY, ta, IDLE));
    var v1 := MidWrite(map[0 := Info(H(b), 0, 1)], 1, 0, []);
    var tb := FirstWriter(Deciding, p, b, Plan0(H, b), [], 0);
    PutTwo(EMPTY, ta, IDLE, v1, tb);
    assert Decide(H, EMPTY, [], 0, b).0 == v1;
    assert [] + [Decide(H, EMPTY, [], 0, b).1] == Plan0(H, b);
    Goes(H, Two(EMPTY, ta, IDLE), DecideOne(0), Two(v1, tb, IDLE));
    var tc := FirstWriter(Draining, p, b, Plan0(H, b), [], 0);
    PutTwo(v1, tb, IDLE, v1, tc);
    Goes(H, Two(v1, tb, IDLE), Advance(0), Two(v1, tc, IDLE));
  }

  lemma SecondDecides(H: Block -> Digest, p: Path, q: Path, b: Block)
    ensures Reachable(H, Two(MidWrite(map[0 := Info(H(b), 0, 1), 1 := Info(H(b), 0, 2)], 2, 0, []),
                             FirstWriter(Draining, p, b, Plan0(H, b), [], 0),
                                         SecondWriter(Deciding, q, b, Plan1(H, b, 0), [], 0, [])))
  {
    hide Reachable;
    FirstDecides(H, p, b);
    var v1 := MidWrite(map[0 := Info(H(b), 0, 1)], 1, 0, []);
    var t0 := FirstWriter(Draining, p, b, Plan0(H, b), [], 0);
    var ta := SecondWriter(Deciding, q, b, [], [], 0, []);
    PutTwo(v1, t0, IDLE, v1, ta);
    Goes(H, Two(v1, t0, IDLE), BeginWrite(1, q, 0, [b, b]), Two(v1, t0, ta));
    var v2 := MidWrite(map[0 := Info(H(b), 0, 1), 1 := Info(H(b), 0, 1)], 2, 0, []);
    var tb := SecondWriter(Deciding, q, b, Plan1(H, b, 0)[..1], [], 0, []);
    PutTwo(v1, t0, ta, v2, tb);
    assert Decide(H, v1, [], 0, b).0 == v2;
    assert [] + [Decide(H, v1, [], 0, b).1] == Plan1(H, b, 0)[..1];
    Goes(H, Two(v1, t0, ta), DecideOne(1), Two(v2, t0, tb));
    DecideTwin(H, b);
    var v3 := MidWrite(map[0 := Info(H(b), 0, 1), 1 := Info(H(b), 0, 2)], 2, 0, []);
    PutTwo(v2, t0, tb, v3, SecondWriter(Deciding, q, b, Plan1(H, b, 0), [], 0, []));
    Goes(H, Two(v2, t0, tb), DecideOne(1), Two(v3, t0, SecondWriter(Deciding, q, b, Plan1(H, b, 0), [], 0, [])));
  }

  lemma DecideTwin(H: Block -> Digest, b: Block)
    ensures var v2 := MidWrite(map[0 := Info(H(b), 0, 1), 1 := Info(H(b), 0, 1)], 2, 0, []);
            var (v3, e) := Decide(H, v2, Plan1(H, b, 0)[..1], 1, b);
            v3 == MidWrite(map[0 := Info(H(b), 0, 1), 1 := Info(H(b), 0, 2)], 2, 0, []) &&
                Plan1(H, b, 0)[..1] + [e] == Plan1(H, b, 0)
  {
    assert Plan1(H, b, 0)[..1][..0] == [];
    assert PendingHashes(Plan1(H, b, 0)[..1]) == map[H(b) := 1];
  }

  lemma AppendOne(v: Volume)
    ensures Append(v, 1) == (v.(next := v.next + 1), [v.next])
  {
    assert Append(v, 1).1 == [v.next];
  }

  lemma OneMiss(m: Entry, h: Entry)
    requires m.kind.Miss? && h.kind.Hit?
    ensures MissCount([m, h]) == 1
  {
    assert [m, h][1..] == [h] && [h][1..] == [];
    assert MissCount([h]) == 0;
  }

  lemma FirstAllocates(H: Block -> Digest, p: Path, q: Path, b: Block)
    ensures Reachable(H, Two(MidWrite(map[0 := Info(H(b), 0, 1), 1 := Info(H(b), 0, 2)], 2, 1, []),
                             FirstWriter(Assigning, p, b, Plan0(H, b), [0], 0),
                                         SecondWriter(Deciding, q, b, Plan1(H, b, 0), [], 0, [])))
  {
    hide Reachable;
    SecondDecides(H, p, q, b);
    var infos := map[0 := Info(H(b), 0, 1), 1 := Info(H(b), 0, 2)];
    var v0, v1 := MidWrite(infos, 2, 0, []), MidWrite(infos, 2, 1, []);
    var ta, tb, tc := FirstWriter(Draining, p, b, Plan0(H, b), [], 0), FirstWriter(Appending, p, b, Plan0(H, b), [], 0),
        FirstWriter(Assigning, p, b, Plan0(H, b), [0], 0);
    var u := SecondWriter(Deciding, q, b, Plan1(H, b, 0), [], 0, []);
    assert Plan0(H, b)[1..] == [];
    assert MissCount(Plan0(H, b)) == 1;
    PutTwo(v0, ta, u, v0, tb);
    assert Drain(v0, 1) == (v0, []);
    Goes(H, Two(v0, ta, u), DrainFree(0), Two(v0, tb, u));
    PutTwo(v0, tb, u, v1, tc);
    AppendOne(v0);
    assert [] + [0] == [0];
    Goes(H, Two(v0, tb, u), AppendRange(0), Two(v1, tc, u));
  }

  lemma FirstFlushes(H: Block -> Digest, p: Path, q: Path, b: Block)
    ensures Reachable(H, Two(MidWrite(map[0 := Info(H(b), 0, 1), 1 := Info(H(b), 0, 2)], 2, 1, Pwrite([], 0, b)),
                             FirstWriter(Flushing, p, b, Plan0(H, b), [], 1),
                                         SecondWriter(Deciding, q, b, Plan1(H, b, 0), [], 0, [])))
  {
    hide Reachable, Flatten, Pwrite;
    FirstAllocates(H, p, q, b);
    var infos := map[0 := Info(H(b), 0, 1), 1 := Info(H(b), 0, 2)];
    var v1, v2 := MidWrite(infos, 2, 1, []), MidWrite(infos, 2, 1, Pwrite([], 0, b));
    var ta, tb, tc, td := FirstWriter(Assigning, p, b, Plan0(H, b), [0], 0),
        FirstWriter(Assigning, p, b, Plan0(H, b), [], 1),
                          FirstWriter(Flushing, p, b, Plan0(H, b), [], 0),
                                      FirstWriter(Flushing, p, b, Plan0(H, b), [], 1);
    var u := SecondWriter(Deciding, q, b, Plan1(H, b, 0), [], 0, []);
    PutTwo(v1, ta, u, v1, tb);
    assert [0][1..] == [];
    assert v1.infos[0 := Info(H(b), 0, 1)] == v1.infos;
    assert Assign(v1, Plan0(H, b)[0], 0) == (v1, Plan0(H, b)[0]);
    assert Plan0(H, b)[0 := Plan0(H, b)[0]] == Plan0(H, b);
    Goes(H, Two(v1, ta, u), AssignOne(0), Two(v1, tb, u));
    PutTwo(v1, tb, u, v1, tc);
    Goes(H, Two(v1, tb, u), Advance(0), Two(v1, tc, u));
    PutTwo(v1, tc, u, v2, td);
    OneBlockRun(v1, Plan0(H, b), 0);
    Goes(H, Two(v1, tc, u), FlushOne(0), Two(v2, td, u));
  }

  lemma OneBlockRun(v: Volume, plan: seq<Entry>, i: nat)
    requires i < |plan| && plan[i].kind.Miss? && RunEnd(plan, i + 1) == i + 1
    ensures FlushRun(v, plan, i, RunBytes(plan, i)) ==
              v.(master := Pwrite(v.master, plan[i].slot * BLOCK_SIZE, plan[i].payload))
  {
    FullRun(v, plan, i);
    assert Payloads(plan[i..i + 1]) == [plan[i].payload];
    assert [plan[i].payload][..0] == [];
    assert Flatten([plan[i].payload]) == plan[i].payload;
  }

  lemma SecondAllocates(H: Block -> Digest, p: Path, q: Path, b: Block)
    ensures Reachable(H, Two(MidWrite(map[0 := Info(H(b), 0, 1), 1 := Info(H(b), 0, 2)], 2, 2, Pwrite([], 0, b)),
                             FirstWriter(Flushing, p, b, Plan0(H, b), [], 1),
                                         SecondWriter(Assigning, q, b, Plan1(H, b, 0), [1], 0, [])))
  {
    hide Reachable, Pwrite;
    FirstFlushes(H, p, q, b);
    var infos := map[0 := Info(H(b), 0, 1), 1 := Info(H(b), 0, 2)];
    var v1, v2 := MidWrite(infos, 2, 1, Pwrite([], 0, b)), MidWrite(infos, 2, 2, Pwrite([], 0, b));
    var t0, plan := FirstWriter(Flushing, p, b, Plan0(H, b), [], 1), Plan1(H, b, 0);
    var ta, tb, tc, td := SecondWriter(Deciding, q, b, plan, [], 0, []), SecondWriter(Draining, q, b, plan, [], 0, []),
                          SecondWriter(Appending, q, b, plan, [], 0, []),
                                       SecondWriter(Assigning, q, b, plan, [1], 0, []);
    OneMiss(plan[0], plan[1]);
    PutTwo(v1, t0, ta, v1, tb);
    Goes(H, Two(v1, t0, ta), Advance(1), Two(v1, t0, tb));
    PutTwo(v1, t0, tb, v1, tc);
    assert Drain(v1, 1) == (v1, []);
    Goes(H, Two(v1, t0, tb), DrainFree(1), Two(v1, t0, tc));
    PutTwo(v1, t0, tc, v2, td);
    AppendOne(v1);
    assert [] + [1] == [1];
    Goes(H, Two(v1, t0, tc), AppendRange(1), Two(v2, t0, td));
  }

  function BothFlushed(b: Block): seq<Byte> { Pwrite(Pwrite([], 0, b), 1 * BLOCK_SIZE, b) }

  lemma SecondAssigns(H: Block -> Digest, p: Path, q: Path, b: Block)
    ensures Reachable(H, Two(MidWrite(map[0 := Info(H(b), 0, 1), 1 := Info(H(b), 1, 2)], 2, 2, Pwrite([], 0, b)),
                             FirstWriter(Flushing, p, b, Plan0(H, b), [], 1),
                                         SecondWriter(Assigning, q, b, Plan1(H, b, 1), [], 2, [])))
  {
    hide Reachable, Pwrite, Flatten;
    SecondAllocates(H, p, q, b);
    var v1 := MidWrite(map[0 := Info(H(b), 0, 1), 1 := Info(H(b), 0, 2)], 2, 2, Pwrite([], 0, b));
    var v2 := MidWrite(map[0 := Info(H(b), 0, 1), 1 := Info(H(b), 1, 2)], 2, 2, Pwrite([], 0, b));
    var t0, plan := FirstWriter(Flushing, p, b, Plan0(H, b), [], 1), Plan1(H, b, 1);
    var ta, tb, tc := SecondWriter(Assigning, q, b, Plan1(H, b, 0), [1], 0, []),
        SecondWriter(Assigning, q, b, plan, [], 1, []), SecondWriter(Assigning, q, b, plan, [], 2, []);
    assert [1][1..] == [];
    assert v1.infos[1 := Info(H(b), 1, 2)] == v2.infos;
    assert Assign(v1, Plan1(H, b, 0)[0], 1) == (v2, plan[0]);
    assert Plan1(H, b, 0)[0 := plan[0]] == plan;
    PutTwo(v1, t0, ta, v2, tb);
    Goes(H, Two(v1, t0, ta), AssignOne(1), Two(v2, t0, tb));
    PutTwo(v2, t0, tb, v2, tc);
    Goes(H, Two(v2, t0, tb), AssignOne(1), Two(v2, t0, tc));
  }

  lemma SecondFlushes(H: Block -> Digest, p: Path, q: Path, b: Block)
    ensures Reachable(H, Two(MidWrite(map[0 := Info(H(b), 0, 1), 1 := Info(H(b), 1, 2)], 2, 2, BothFlushed(b)),
                             FirstWriter(Flushing, p, b, Plan0(H, b), [], 1),
                                         SecondWriter(Flushing, q, b, Plan1(H, b, 1), [], 1, [])))
  {
    hide Reachable, Pwrite, Flatten;
    SecondAssigns(H, p, q, b);
    var v2 := MidWrite(map[0 := Info(H(b), 0, 1), 1 := Info(H(b), 1, 2)], 2, 2, Pwrite([], 0, b));
    var v3 := MidWrite(map[0 := Info(H(b), 0, 1), 1 := Info(H(b), 1, 2)], 2, 2, BothFlushed(b));
    var t0, plan := FirstWriter(Flushing, p, b, Plan0(H, b), [], 1), Plan1(H, b, 1);
    var tc := SecondWriter(Assigning, q, b, plan, [], 2, []);
    var td, te := SecondWriter(Flushing, q, b, plan, [], 0, []), SecondWriter(Flushing, q, b, plan, [], 1, []);
    PutTwo(v2, t0, tc, v2, td);
    Goes(H, Two(v2, t0, tc), Advance(1), Two(v2, t0, td));
    PutTwo(v2, t0, td, v3, te);
    OneBlockRun(v2, plan, 0);
    Goes(H, Two(v2, t0, td), FlushOne(1), Two(v3, t0, te));
  }

  /** Writer 0 has published b under info 0 and mapped it; writer 1 has yet to publish. */
  function VDone(H: Block -> Digest, p: Path, b: Block): Volume {
    Volume(map[0 := Info(H(b), 0, 1), 1 := Info(H(b), 1, 2)], 2, map[H(b) := 0], map[Key(p, 0) := 0],
           map[p := BLOCK_SIZE], [], 2, BothFlushed(b))
  }

  lemma FirstPublishes(H: Block -> Digest, p: Path, q: Path, b: Block)
    ensures Reachable(H,
            Two(VDone(H, p, b).(byBlock := map[], sizes := map[]), FirstWriter(Mapping, p, b, Plan0(H, b), [], 0),
            SecondWriter(Flushing, q, b, Plan1(H, b, 1), [], 1, [])))
  {
    hide Reachable, BothFlushed;
    SecondFlushes(H, p, q, b);
    var v3 := MidWrite(map[0 := Info(H(b), 0, 1), 1 := Info(H(b), 1, 2)], 2, 2, BothFlushed(b));
    var v4 := VDone(H, p, b).(byBlock := map[], sizes := map[]);
    var u, plan := SecondWriter(Flushing, q, b, Plan1(H, b, 1), [], 1, []), Plan0(H, b);
    var ta, tb, tc, td := FirstWriter(Flushing, p, b, plan, [], 1), FirstWriter(Publishing, p, b, plan, [], 0),
        FirstWriter(Publishing, p, b, plan, [], 1), FirstWriter(Mapping, p, b, plan, [], 0);
    PutTwo(v3, ta, u, v3, tb);
    Goes(H, Two(v3, ta, u), Advance(0), Two(v3, tb, u));
    PutTwo(v3, tb, u, v4, tc);
    assert plan[0 := plan[0]] == plan;
    assert Publish(v3, plan[0], []) == (v4, plan[0], []);
    Goes(H, Two(v3, tb, u), PublishOne(0), Two(v4, tc, u));
    PutTwo(v4, tc, u, v4, td);
    Goes(H, Two(v4, tc, u), Advance(0), Two(v4, td, u));
  }

  lemma FirstMaps(H: Block -> Digest, p: Path, q: Path, b: Block)
    ensures Reachable(H,
            Two(VDone(H, p, b).(sizes := map[]), FirstWriter(Growing, p, b, Plan0(H, b), [], 1),
            SecondWriter(Flushing, q, b, Plan1(H, b, 1), [], 1, [])))
  {
    hide Reachable, BothFlushed;
    FirstPublishes(H, p, q, b);
    var v6 := VDone(H, p, b);
    var v4, v5 := v6.(byBlock := map[], sizes := map[]), v6.(sizes := map[]);
    var u, plan := SecondWriter(Flushing, q, b, Plan1(H, b, 1), [], 1, []), Plan0(H, b);
    var ta, tb, tc := FirstWriter(Mapping, p, b, plan, [], 0), FirstWriter(Mapping, p, b, plan, [], 1),
        FirstWriter(Growing, p, b, plan, [], 1);
    PutTwo(v4, ta, u, v5, tb);
    assert MapBlock(v4, p, plan[0], []) == (v5, []);
    Goes(H, Two(v4, ta, u), MapOne(0), Two(v5, tb, u));
    PutTwo(v5, tb, u, v5, tc);
    Goes(H, Two(v5, tb, u), Advance(0), Two(v5, tc, u));
  }

  lemma FirstFinishes(H: Block -> Digest, p: Path, q: Path, b: Block)
    ensures Reachable(H, Two(VDone(H, p, b), IDLE, SecondWriter(Flushing, q, b, Plan1(H, b, 1), [], 1, [])))
  {
    hide Reachable, BothFlushed;
    FirstMaps(H, p, q, b);
    var v6 := VDone(H, p, b);
    var v5 := v6.(sizes := map[]);
    var u, plan := SecondWriter(Flushing, q, b, Plan1(H, b, 1), [], 1, []), Plan0(H, b);
    var tc, td := FirstWriter(Growing, p, b, plan, [], 1), FirstWriter(Releasing, p, b, plan, [], 1);
    PutTwo(v5, tc, u, v6, td);
    assert GrowSize(v5, p, BLOCK_SIZE) == v6;
    Goes(H, Two(v5, tc, u), Grow(0), Two(v6, td, u));
    PutTwo(v6, td, u, v6, IDLE);
    assert Release(v6, []) == v6;
    Goes(H, Two(v6, td, u), GiveBack(0), Two(v6, IDLE, u));
  }

  lemma SecondLoses(H: Block -> Digest, p: Path, q: Path, b: Block)
    ensures var v7, plan := VDone(H, p, b).(infos := map[0 := Info(H(b), 0, 2)]), Plan1(H, b, 1);
            Reachable(H, Two(v7, IDLE, SecondWriter(Publishing, q, b, plan[0 := plan[0].(info := 0)], [], 1, [1])))
  {
    hide Reachable, BothFlushed;
    FirstFinishes(H, p, q, b);
    var v6 := VDone(H, p, b);
    var v7 := v6.(infos := map[0 := Info(H(b), 0, 2)]);
    var plan := Plan1(H, b, 1);
    var plan' := plan[0 := plan[0].(info := 0)];
    var ta, tb, tc := SecondWriter(Flushing, q, b, plan, [], 1, []), SecondWriter(Publishing, q, b, plan, [], 0, []),
        SecondWriter(Publishing, q, b, plan', [], 1, [1]);
    PutTwo(v6, IDLE, ta, v6, tb);
    Goes(H, Two(v6, IDLE, ta), Advance(1), Two(v6, IDLE, tb));
    PutTwo(v6, IDLE, tb, v7, tc);
    LosesTo(H, p, b);
    Goes(H, Two(v6, IDLE, tb), PublishOne(1), Two(v7, IDLE, tc));
  }

  /** Two writers, one block content, one request that contains it twice: the loser of
      the race ends up mapping its second block to an info it has freed. */
  lemma DanglingReached(H: Block -> Digest, p: Path, q: Path, b: Block)
    requires p != q
    ensures exists sys :: Reachable(H, sys) && Key(q, 1) in sys.v.byBlock && sys.v.byBlock[Key(q, 1)] !in sys.v.infos
  {
    hide Reachable, BothFlushed;
    SecondLoses(H, p, q, b);
    var v7, plan := VDone(H, p, b).(infos := map[0 := Info(H(b), 0, 2)]), Plan1(H, b, 1);
    var plan' := plan[0 := plan[0].(info := 0)];
    var tc, td := SecondWriter(Publishing, q, b, plan', [], 1, [1]), SecondWriter(Publishing, q, b, plan', [], 2, [1]);
    PutTwo(v7, IDLE, tc, v7, td);
    assert plan'[1 := plan'[1]] == plan';
    Goes(H, Two(v7, IDLE, tc), PublishOne(1), Two(v7, IDLE, td));
    MapsFreed(H, p, q, b);
  }

  lemma LosesTo(H: Block -> Digest, p: Path, b: Block)
    ensures var v6, e := VDone(H, p, b), Plan1(H, b, 1)[0];
            Publish(v6, e, []) == (v6.(infos := map[0 := Info(H(b), 0, 2)]), e.(info := 0), [1])
  {
    hide BothFlushed;
    var v6 := VDone(H, p, b);
    assert v6.infos - {1} == map[0 := Info(H(b), 0, 1)];
    assert (v6.infos - {1})[0 := Info(H(b), 0, 2)] == map[0 := Info(H(b), 0, 2)];
    assert [1] + [] == [1];
  }

  lemma MapsFreed(H: Block -> Digest, p: Path, q: Path, b: Block)
    requires p != q
    requires var v7, plan := VDone(H, p, b).(infos := map[0 := Info(H(b), 0, 2)]), Plan1(H, b, 1);
             Reachable(H, Two(v7, IDLE, SecondWriter(Publishing, q, b, plan[0 := plan[0].(info := 0)], [], 2, [1])))
    ensures exists sys :: Reachable(H, sys) && Key(q, 1) in sys.v.byBlock && sys.v.byBlock[Key(q, 1)] !in sys.v.infos
  {
    hide Reachable, BothFlushed;
    var v7, plan := VDone(H, p, b).(infos := map[0 := Info(H(b), 0, 2)]), Plan1(H, b, 1);
    var plan' := plan[0 := plan[0].(info := 0)];
    var td, te, tf, tg := SecondWriter(Publishing, q, b, plan', [], 2, [1]),
        SecondWriter(Mapping, q, b, plan', [], 0, [1]),
                          SecondWriter(Mapping, q, b, plan', [], 1, [1]),
                                       SecondWriter(Mapping, q, b, plan', [], 2, [1]);
    var v8 := v7.(byBlock := v7.byBlock[Key(q, 0) := 0]);
    var v9 := v8.(byBlock := v8.byBlock[Key(q, 1) := 1]);
    PutTwo(v7, IDLE, td, v7, te);
    Goes(H, Two(v7, IDLE, td), Advance(1), Two(v7, IDLE, te));
    PutTwo(v7, IDLE, te, v8, tf);
    assert MapBlock(v7, q, plan'[0], [1]) == (v8, [1]);
    Goes(H, Two(v7, IDLE, te), MapOne(1), Two(v8, IDLE, tf));
    PutTwo(v8, IDLE, tf, v9, tg);
    assert MapBlock(v8, q, plan'[1], [1]) == (v9, [1]);
    Goes(H, Two(v8, IDLE, tf), MapOne(1), Two(v9, IDLE, tg));
    assert 1 !in v9.infos;
  }
}
