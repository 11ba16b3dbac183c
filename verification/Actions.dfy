/** Every action of the protocol keeps the invariant. */
module Actions {
  import opened MasterFile
  import opened Volumes
  import opened Protocol
  import opened Invariant
  import opened Preservation

  // ---- Phase changes, size updates, new requests ----

  lemma AdvanceKeeps(H: Block -> Digest, U: iset<Block>, sys: Sys, g: Ledger, t: Tid)
    requires Inv(H, U, sys, g) && Enabled(sys, Advance(t))
    ensures Inv(H, U, Apply(H, sys, Advance(t)), g)
  {
    hide SlotInv, InfoInv, RefInv, ContentInv;
    AdvanceAlike(sys, t);
    QuietStep(H, U, sys, Apply(H, sys, Advance(t)), g, t);
  }

  lemma AdvanceAlike(sys: Sys, t: Tid)
    requires t in sys.threads && Shape(sys.threads[t]) && CanAdvance(sys, sys.threads[t])
    ensures var th, th' := sys.threads[t], Advanced(sys.threads[t]);
            Shape(th') && SlotsAlike(th, th') && InfosAlike(th, th') && HeldAlike(th, th') && ContentsAlike(th, th')
  {
    var th, th' := sys.threads[t], Advanced(sys.threads[t]);
  }

  lemma BeginKeeps(H: Block -> Digest, U: iset<Block>, sys: Sys, g: Ledger, t: Tid, th': Thread)
    requires Inv(H, U, sys, g) && IsAt(sys, t, Idle)
    requires th'.plan == [] && th'.taken == [] && th'.rel == [] && Shape(th')
    requires forall i :: 0 <= i < |th'.blocks| ==> th'.blocks[i] in U
    ensures Inv(H, U, Put(sys, t, sys.v, th'), g)
  {
    hide SlotInv, InfoInv, RefInv, ContentInv;
    var sys' := Put(sys, t, sys.v, th');
    assert sys.threads[t] == IDLE;
    SlotsUnaffected(sys, sys', g, t);
    InfosUnaffected(sys, sys', g, t);
    RefsUnaffected(sys, sys', t);
    ContentsFrame(H, U, sys, sys', g, t);
  }

  lemma GrowKeeps(H: Block -> Digest, U: iset<Block>, sys: Sys, g: Ledger, t: Tid)
    requires Inv(H, U, sys, g) && Enabled(sys, Grow(t))
    ensures Inv(H, U, Apply(H, sys, Grow(t)), g)
  {
    hide SlotInv, InfoInv, RefInv, ContentInv;
    QuietStep(H, U, sys, Apply(H, sys, Grow(t)), g, t);
  }

  lemma ResizeKeeps(H: Block -> Digest, U: iset<Block>, sys: Sys, g: Ledger, t: Tid)
    requires Inv(H, U, sys, g) && Enabled(sys, Resize(t))
    ensures Inv(H, U, Apply(H, sys, Resize(t)), g)
  {
    hide SlotInv, InfoInv, RefInv, ContentInv;
    QuietStep(H, U, sys, Apply(H, sys, Resize(t)), g, t);
  }

  // ---- Pass 1 ----

  /** A hash that is already known leads to an allocated info of that hash, either
      published or pending in this very thread. */
  lemma ExistingIsSafe(sys: Sys, g: Ledger, t: Tid, h: Digest)
    requires InfoInv(sys, g) && IsAt(sys, t, Deciding) && Existing(sys.v, sys.threads[t].plan, h).Some?
    ensures var r := Existing(sys.v, sys.threads[t].plan, h).value;
            && r in sys.v.infos && sys.v.infos[r].hash == h && r in g.infos
            && (g.infos[r].PendingAt? ==> g.infos[r].t == t)
  {
    var th := sys.threads[t];
    assert ThreadInfos(sys.v, t, th, g.infos);
    PendingHashesMeaning(th.plan, h);
    assert forall j :: 0 <= j < |th.plan| ==> Held(th, j);
  }

  lemma HitKeeps(H: Block -> Digest, U: iset<Block>, sys: Sys, g: Ledger, t: Tid, e: Entry)
    requires Inv(H, U, sys, g) && IsAt(sys, t, Deciding) && |sys.threads[t].plan| < |sys.threads[t].blocks|
    requires e.kind.Hit? && e.payload == sys.threads[t].blocks[|sys.threads[t].plan|]
    requires e.blk == sys.threads[t].start + |sys.threads[t].plan| && e.hash == H(e.payload)
    requires e.info in sys.v.infos && sys.v.infos[e.info].hash == e.hash
    requires g.infos[e.info].PendingAt? ==> g.infos[e.info].t == t
    ensures Inv(H, U, Put(sys, t, Retain(sys.v, e.info), sys.threads[t].(plan := sys.threads[t].plan + [e])), g)
  {
    hide SlotInv, RefInv, ThreadInfos, ThreadContents, Held, Pending, Slotted, StoredOk, Indexed, Retain, SlotsAlike,
         SameSlots, SameHashes;
    var th := sys.threads[t];
    var th' := th.(plan := th.plan + [e]);
    var sys' := Put(sys, t, Retain(sys.v, e.info), th');
    RetainAlike(sys.v, e.info);
    HitThread(H, U, sys.v, t, th, e, g.infos);
    HitRefs(sys, t, e);
    SlotsUnaffected(sys, sys', g, t);
    InfosFrame(sys, sys', g, t);
    ContentsFrame(H, U, sys, sys', g, t);
  }

  lemma RetainAlike(v: Volume, r: Ref)
    ensures SameSlots(v.infos, Retain(v, r).infos) && SameHashes(v.infos, Retain(v, r).infos)
    ensures Retain(v, r) == v.(infos := Retain(v, r).infos)
  {
  }

  lemma HitThread(H: Block -> Digest, U: iset<Block>, v: Volume, t: Tid, th: Thread, e: Entry, keep: map<Ref, Keeper>)
    requires th.pc.Deciding? && |th.plan| < |th.blocks|
    requires ThreadInfos(v, t, th, keep) && ThreadContents(H, U, v, th)
    requires e.kind.Hit? && e.payload == th.blocks[|th.plan|] && e.blk == th.start + |th.plan| && e.hash == H(e.payload)
    requires e.info in v.infos && v.infos[e.info].hash == e.hash && e.info in keep
    requires keep[e.info].PendingAt? ==> keep[e.info].t == t
    ensures var th', v' := th.(plan := th.plan + [e]), Retain(v, e.info);
            && ThreadInfos(v', t, th', keep) && ThreadContents(H, U, v', th') && SlotsAlike(th, th')
            && (forall i: nat :: Pending(th, i) ==> Pending(th', i) && th'.plan[i].info == th.plan[i].info)
  {
    var th' := th.(plan := th.plan + [e]);
    assert forall i: nat :: Held(th', i) <==> Held(th, i) || i == |th.plan|;
    assert forall i: nat :: Pending(th', i) <==> Pending(th, i);
    assert forall i :: 0 <= i < |th.plan| ==> th'.plan[i] == th.plan[i];
    hide Held, Pending, BlockAt, InFile;
  }

  lemma HitRefs(sys: Sys, t: Tid, e: Entry)
    requires RefInv(sys) && IsAt(sys, t, Deciding) && e.info in sys.v.infos
    ensures RefInv(Put(sys, t, Retain(sys.v, e.info), sys.threads[t].(plan := sys.threads[t].plan + [e])))
  {
    var th := sys.threads[t];
    var n := |th.plan|;
    var th' := th.(plan := th.plan + [e]);
    var sys' := Put(sys, t, Retain(sys.v, e.info), th');
    forall r | r in sys.v.infos
      ensures |Holders(sys', r)| == |Holders(sys, r)| + if r == e.info then 1 else 0
    {
      if r == e.info {
        MoreHolders(sys, sys', r, ByEntry(t, n));
      } else {
        SameHolders(sys, sys', r);
      }
    }
  }

  function AfterMiss(H: Block -> Digest, sys: Sys, t: Tid): Sys
    requires IsAt(sys, t, Deciding) && |sys.threads[t].plan| < |sys.threads[t].blocks|
  {
    var th, r := sys.threads[t], sys.v.nextRef;
    var b := th.blocks[|th.plan|];
    Put(sys, t, sys.v.(infos := sys.v.infos[r := Info(H(b), 0, 1)], nextRef := r + 1),
        th.(plan := th.plan + [Entry(Miss, th.start + |th.plan|, 0, b, H(b), r)]))
  }

  lemma MissSlots(H: Block -> Digest, sys: Sys, g: Ledger, t: Tid)
    requires SlotInv(sys, g) && IsAt(sys, t, Deciding) && |sys.threads[t].plan| < |sys.threads[t].blocks|
    requires g.infos.Keys == sys.v.infos.Keys && sys.v.nextRef !in sys.v.infos
    ensures SlotInv(AfterMiss(H, sys, t), g.(infos := g.infos[sys.v.nextRef := PendingAt(t, |sys.threads[t].plan|)]))
  {
    var sys' := AfterMiss(H, sys, t);
    var th, th' := sys.threads[t], sys'.threads[t];
    assert ThreadSlots(t, th, g.slots);
    assert SlotsAlike(th, th');
  }

  lemma ThreadInfosGrow(v: Volume, v': Volume, t: Tid, th: Thread, keep: map<Ref, Keeper>, keep': map<Ref, Keeper>)
    requires ThreadInfos(v, t, th, keep)
    requires forall r :: r in v.infos ==> r in v'.infos && v'.infos[r] == v.infos[r]
    requires forall r :: r in keep ==> r in keep' && keep'[r] == keep[r]
    ensures ThreadInfos(v', t, th, keep')
  {
    hide Held, Pending, Slotted;
  }

  lemma MissThread(H: Block -> Digest, sys: Sys, t: Tid, keep: map<Ref, Keeper>)
    requires IsAt(sys, t, Deciding) && |sys.threads[t].plan| < |sys.threads[t].blocks|
    requires ThreadInfos(sys.v, t, sys.threads[t], keep) && keep.Keys == sys.v.infos.Keys &&
             sys.v.nextRef !in sys.v.infos
    ensures var sys' := AfterMiss(H, sys, t);
            ThreadInfos(sys'.v, t, sys'.threads[t], keep[sys.v.nextRef := PendingAt(t, |sys.threads[t].plan|)])
  {
    hide Held, Pending, Slotted;
    MissPlan(sys.threads[t], AfterMiss(H, sys, t).threads[t].plan[|sys.threads[t].plan|]);
  }

  lemma FreshRef(v: Volume, keep: map<Ref, Keeper>)
    requires TablesOk(v, keep)
    ensures v.nextRef !in v.infos && keep.Keys == v.infos.Keys
  {
  }

  lemma MissTables(v: Volume, keep: map<Ref, Keeper>, h: Digest, k: Keeper)
    requires TablesOk(v, keep) && h !in v.byHash && k.PendingAt?
    ensures TablesOk(v.(infos := v.infos[v.nextRef := Info(h, 0, 1)], nextRef := v.nextRef + 1), keep[v.nextRef := k])
  {
  }

  lemma MissInfos(H: Block -> Digest, sys: Sys, g: Ledger, t: Tid)
    requires InfoInv(sys, g) && IsAt(sys, t, Deciding) && |sys.threads[t].plan| < |sys.threads[t].blocks|
    requires H(sys.threads[t].blocks[|sys.threads[t].plan|]) !in sys.v.byHash
    ensures InfoInv(AfterMiss(H, sys, t), g.(infos := g.infos[sys.v.nextRef := PendingAt(t, |sys.threads[t].plan|)]))
  {
    hide Held, Pending, ThreadInfos, Slotted, Flushed, TablesOk;
    FreshRef(sys.v, g.infos);
    MissTables(sys.v, g.infos, H(sys.threads[t].blocks[|sys.threads[t].plan|]), PendingAt(t, |sys.threads[t].plan|));
    var sys', r := AfterMiss(H, sys, t), sys.v.nextRef;
    var th, th', n := sys.threads[t], sys'.threads[t], |sys.threads[t].plan|;
    var keep' := g.infos[r := PendingAt(t, n)];
    MissPlan(th, th'.plan[n]);
    MissThread(H, sys, t, g.infos);
    KeepersKept(sys.threads, g.infos, keep', t, th');
    forall u | u in sys'.threads && u != t ensures ThreadInfos(sys'.v, u, sys'.threads[u], keep') {
      ThreadInfosGrow(sys.v, sys'.v, u, sys.threads[u], g.infos, keep');
    }
  }

  lemma MissPlan(th: Thread, e: Entry)
    requires th.pc.Deciding? && e.kind.Miss?
    ensures var th' := th.(plan := th.plan + [e]);
            && (forall i: nat :: Held(th', i) <==> Held(th, i) || i == |th.plan|)
            && (forall i: nat :: Pending(th', i) <==> Pending(th, i) || i == |th.plan|)
            && (forall i: nat :: !Slotted(th', i)) && (forall i: nat :: !Flushed(th', i))
            && (forall i :: 0 <= i < |th.plan| ==> th'.plan[i] == th.plan[i])
  {
  }

  lemma MissRefs(H: Block -> Digest, sys: Sys, g: Ledger, t: Tid)
    requires RefInv(sys) && InfoInv(sys, g) && IsAt(sys, t, Deciding) && |sys.threads[t].plan| < |sys.threads[t].blocks|
    requires sys.v.nextRef !in sys.v.infos
    ensures RefInv(AfterMiss(H, sys, t))
  {
    hide Held, Pending, InfoInv;
    var sys', r := AfterMiss(H, sys, t), sys.v.nextRef;
    var th, th', n := sys.threads[t], sys'.threads[t], |sys.threads[t].plan|;
    MissPlan(th, th'.plan[n]);
    NoStrayHolder(sys, g, r);
    assert Holders(sys, r) == {};
    MoreHolders(sys, sys', r, ByEntry(t, n));
    forall r' | r' in sys.v.infos && r' != r ensures Holders(sys', r') == Holders(sys, r') {
      SameHolders(sys, sys', r');
    }
  }

  /** Nothing holds an address that was never handed out. */
  lemma NoStrayHolder(sys: Sys, g: Ledger, r: Ref)
    requires InfoInv(sys, g) && r !in sys.v.infos
    ensures forall h :: !Holds(sys, r, h)
  {
    hide Held, Pending, Slotted, Indexed;
    forall h ensures !Holds(sys, r, h) {
      if h.ByEntry? && h.t in sys.threads {
        assert ThreadInfos(sys.v, h.t, sys.threads[h.t], g.infos);
      }
    }
  }

  lemma MissContents(H: Block -> Digest, U: iset<Block>, sys: Sys, g: Ledger, t: Tid)
    requires ContentInv(H, U, sys, g) && IsAt(sys, t, Deciding) && |sys.threads[t].plan| < |sys.threads[t].blocks|
    requires g.infos.Keys == sys.v.infos.Keys && sys.v.nextRef !in sys.v.infos
    ensures ContentInv(H, U, AfterMiss(H, sys, t),
            g.(infos := g.infos[sys.v.nextRef := PendingAt(t, |sys.threads[t].plan|)]))
  {
    hide Flushed, BlockAt, InFile;
    var sys' := AfterMiss(H, sys, t);
    var th, th', n := sys.threads[t], sys'.threads[t], |sys.threads[t].plan|;
    MissPlan(th, th'.plan[n]);
    assert ThreadContents(H, U, sys.v, th);
    assert ThreadContents(H, U, sys'.v, th');
    forall u | u in sys'.threads && u != t ensures ThreadContents(H, U, sys'.v, sys'.threads[u]) {
      ThreadContentsKept(H, U, sys.v, sys'.v, sys.threads[u], sys'.threads[u]);
    }
  }

  lemma DecideKeeps(H: Block -> Digest, U: iset<Block>, sys: Sys, g: Ledger, t: Tid) returns (g': Ledger)
    requires Inv(H, U, sys, g) && Enabled(sys, DecideOne(t))
    ensures Inv(H, U, Apply(H, sys, DecideOne(t)), g')
  {
    hide SlotInv, RefInv, ContentInv, ThreadInfos, Indexed, PendingHashes, Retain;
    var th, n := sys.threads[t], |sys.threads[t].plan|;
    var h := H(th.blocks[n]);
    if Existing(sys.v, th.plan, h).Some? {
      g' := g;
      ExistingIsSafe(sys, g, t, h);
      HitKeeps(H, U, sys, g, t, Decide(H, sys.v, th.plan, th.start + n, th.blocks[n]).1);
    } else {
      g' := g.(infos := g.infos[sys.v.nextRef := PendingAt(t, n)]);
      MissSlots(H, sys, g, t);
      MissInfos(H, sys, g, t);
      MissRefs(H, sys, g, t);
      MissContents(H, U, sys, g, t);
    }
  }

  // ---- Allocation ----

  lemma DrainKeeps(H: Block -> Digest, U: iset<Block>, sys: Sys, g: Ledger, t: Tid) returns (g': Ledger)
    requires Inv(H, U, sys, g) && Enabled(sys, DrainFree(t))
    ensures Inv(H, U, Apply(H, sys, DrainFree(t)), g')
  {
    hide SlotInv, InfoInv, RefInv, ContentInv;
    var sys' := Apply(H, sys, DrainFree(t));
    g' := DrainLedger(sys, g, t);
    DrainSlots(H, sys, g, t);
    InfosUnaffected(sys, sys', g, t);
    RefsUnaffected(sys, sys', t);
    ContentsUnaffected(H, U, sys, sys', g, t);
    SameKeepers(H, U, sys', g, g');
  }

  /** The slot half of the ledger matters to the slot half of the invariant only. */
  lemma SameKeepers(H: Block -> Digest, U: iset<Block>, sys: Sys, g: Ledger, g': Ledger)
    requires g'.infos == g.infos
    ensures InfoInv(sys, g') <==> InfoInv(sys, g)
    ensures ContentInv(H, U, sys, g') <==> ContentInv(H, U, sys, g)
  {
    hide ThreadInfos, ThreadContents, Pending, Indexed, StoredOk;
  }

  function DrainLedger(sys: Sys, g: Ledger, t: Tid): Ledger
    requires t in sys.threads
  {
    var out := Drain(sys.v, MissCount(sys.threads[t].plan)).1;
    g.(slots := map q | q in g.slots :: if q in out then Taken(t) else g.slots[q])
  }

  /** Retagging a prefix of an owned list splits it into two owned lists. */
  lemma SplitOwned(s: seq<nat>, k: nat, own: map<nat, Owner>, own': map<nat, Owner>, who: Owner, whoNow: Owner)
    requires ListOwned(s, own, who) && k <= |s|
    requires forall q :: q in own ==> q in own' && own'[q] == if q in s[..k] then whoNow else own[q]
    ensures ListOwned(s[..k], own', whoNow) && ListOwned(s[k..], own', who)
  {
    forall j | 0 <= j < |s[k..]| ensures s[k..][j] !in s[..k] {
      assert s[k..][j] == s[k + j];
    }
  }

  lemma DrainSlots(H: Block -> Digest, sys: Sys, g: Ledger, t: Tid)
    requires SlotInv(sys, g) && Enabled(sys, DrainFree(t)) && Shape(sys.threads[t])
    ensures SlotInv(Apply(H, sys, DrainFree(t)), DrainLedger(sys, g, t))
  {
    hide Slotted, MissCount, NoDup;
    var sys', g' := Apply(H, sys, DrainFree(t)), DrainLedger(sys, g, t);
    var th, th' := sys.threads[t], sys'.threads[t];
    var k := |th'.taken|;
    assert sys.v.free == th'.taken + sys'.v.free;
    DrainUnslotted(th, th');
    SplitOwned(sys.v.free, k, g.slots, g'.slots, Free, Taken(t));
    assert ThreadSlots(t, th, g.slots);
    forall q | q in g'.slots && !Foreign(g'.slots[q], t) ensures OwnerHolds(sys', g', q) {
      assert OwnerHolds(sys, g, q);
    }
    SlotsFrame(sys, sys', g, g', t);
  }

  lemma DrainUnslotted(th: Thread, th': Thread)
    requires th.pc.Draining? && th'.pc.Appending?
    ensures forall i: nat :: !Slotted(th, i) && !Slotted(th', i)
  {
  }

  lemma AppendKeeps(H: Block -> Digest, U: iset<Block>, sys: Sys, g: Ledger, t: Tid) returns (g': Ledger)
    requires Inv(H, U, sys, g) && Enabled(sys, AppendRange(t))
    ensures Inv(H, U, Apply(H, sys, AppendRange(t)), g')
  {
    hide SlotInv, InfoInv, RefInv, ContentInv, MissCount;
    var sys' := Apply(H, sys, AppendRange(t));
    g' := AppendLedger(sys, g, t);
    AppendSlots(H, sys, g, t);
    InfosUnaffected(sys, sys', g, t);
    RefsUnaffected(sys, sys', t);
    ContentsUnaffected(H, U, sys, sys', g, t);
    SameKeepers(H, U, sys', g, g');
    assert sys.threads[t].plan[0..] == sys.threads[t].plan;
  }

  function AppendLedger(sys: Sys, g: Ledger, t: Tid): Ledger
    requires t in sys.threads && |sys.threads[t].taken| <= MissCount(sys.threads[t].plan)
  {
    var n := MissCount(sys.threads[t].plan) - |sys.threads[t].taken|;
    g.(slots := map q: nat | q < sys.v.next + n :: if q in g.slots then g.slots[q] else Taken(t))
  }

  lemma GrowOwned(s: seq<nat>, next: nat, n: nat, own: map<nat, Owner>, own': map<nat, Owner>, who: Owner)
    requires ListOwned(s, own, who) && forall q: nat :: q in own <==> q < next
    requires forall q: nat :: q < next + n ==> q in own' && own'[q] == if q in own then own[q] else who
    ensures ListOwned(s + seq(n, i requires 0 <= i => next + i), own', who)
  {
    var ext := seq(n, i requires 0 <= i => next + i);
    assert forall j :: 0 <= j < |s| ==> (s + ext)[j] == s[j] && s[j] in own;
    assert forall j :: |s| <= j < |s| + n ==> (s + ext)[j] == next + (j - |s|);
  }

  lemma AppendSlots(H: Block -> Digest, sys: Sys, g: Ledger, t: Tid)
    requires SlotInv(sys, g) && Enabled(sys, AppendRange(t)) && Shape(sys.threads[t])
    ensures SlotInv(Apply(H, sys, AppendRange(t)), AppendLedger(sys, g, t))
  {
    hide Slotted, MissCount, NoDup;
    var sys', g' := Apply(H, sys, AppendRange(t)), AppendLedger(sys, g, t);
    var th, th' := sys.threads[t], sys'.threads[t];
    var k := |th.taken|;
    AppendUnslotted(th, th');
    assert ThreadSlots(t, th, g.slots);
    GrowOwned(th.taken, sys.v.next, MissCount(th.plan) - k, g.slots, g'.slots, Taken(t));
    forall q | q in g'.slots && !Foreign(g'.slots[q], t) ensures OwnerHolds(sys', g', q) {
      if q < sys.v.next {
        assert OwnerHolds(sys, g, q);
      } else {
        assert th'.taken[k + (q - sys.v.next)] == q;
      }
    }
    SlotsFrame(sys, sys', g, g', t);
  }

  lemma AppendUnslotted(th: Thread, th': Thread)
    requires th.pc.Appending? && th'.pc.Assigning? && th'.pos == 0
    ensures forall i: nat :: !Slotted(th, i) && !Slotted(th', i)
  {
  }

  function AfterAssign(sys: Sys, t: Tid): Sys
    requires IsAt(sys, t, Assigning) && sys.threads[t].pos < |sys.threads[t].plan| && sys.threads[t].taken != []
  {
    var th := sys.threads[t];
    var (v', e') := Assign(sys.v, th.plan[th.pos], th.taken[0]);
    Put(sys, t, v', th.(plan := th.plan[th.pos := e'], taken := th.taken[1..], pos := th.pos + 1))
  }

  lemma AssignPlan(th: Thread, th': Thread)
    requires th.pc.Assigning? && th.pos < |th.plan| && th.plan[th.pos].kind.Miss?
    requires th.pos < |th'.plan| && th'.plan[th.pos] == th.plan[th.pos].(slot := th'.plan[th.pos].slot)
    requires th' == th.(plan := th.plan[th.pos := th'.plan[th.pos]], taken := th'.taken, pos := th.pos + 1)
    ensures forall i: nat :: Held(th', i) <==> Held(th, i)
    ensures forall i: nat :: Pending(th', i) <==> Pending(th, i)
    ensures forall i: nat :: Slotted(th', i) <==> Slotted(th, i) || i == th.pos
    ensures !Slotted(th, th.pos) && Pending(th, th.pos)
    ensures forall i: nat :: !Flushed(th', i)
    ensures HeldAlike(th, th') && ContentsAlike(th, th')
  {
  }

  lemma AssignSlots(sys: Sys, g: Ledger, t: Tid)
    requires SlotInv(sys, g) && IsAt(sys, t, Assigning) && sys.threads[t].pos < |sys.threads[t].plan|
    requires sys.threads[t].taken != [] && sys.threads[t].plan[sys.threads[t].pos].kind.Miss?
    requires var r := sys.threads[t].plan[sys.threads[t].pos].info; r in g.infos && g.infos[r].PendingAt?
    ensures SlotInv(AfterAssign(sys, t),
            g.(slots := g.slots[sys.threads[t].taken[0] := Unpublished(t, sys.threads[t].pos)]))
  {
    hide Slotted, NoDup;
    var sys' := AfterAssign(sys, t);
    var th, th' := sys.threads[t], sys'.threads[t];
    var s := th.taken[0];
    var g' := g.(slots := g.slots[s := Unpublished(t, th.pos)]);
    AssignPlan(th, th');
    assert ThreadSlots(t, th, g.slots);
    assert th.taken[..1] == [s];
    SplitOwned(th.taken, 1, g.slots, g'.slots, Taken(t), Unpublished(t, th.pos));
    assert ThreadSlots(t, th', g'.slots);
    forall q | q in g'.slots && !Foreign(g'.slots[q], t) ensures OwnerHolds(sys', g', q) {
      assert OwnerHolds(sys, g, q);
      assert th.taken == [s] + th'.taken;
    }
    SlotsFrame(sys, sys', g, g', t);
  }

  lemma AssignThread(v: Volume, t: Tid, th: Thread, th': Thread, keep: map<Ref, Keeper>, slot: nat)
    requires ThreadInfos(v, t, th, keep) && th.pc.Assigning? && th.pos < |th.plan| && th.plan[th.pos].kind.Miss?
    requires th' == th.(plan := th.plan[th.pos := th.plan[th.pos].(slot := slot)], taken := th'.taken,
             pos := th.pos + 1)
    ensures ThreadInfos(Assign(v, th.plan[th.pos], slot).0, t, th', keep)
  {
    hide Held, Pending, Slotted;
    AssignPlan(th, th');
  }

  lemma AssignTables(sys: Sys, g: Ledger, t: Tid)
    requires InfoInv(sys, g) && IsAt(sys, t, Assigning) && sys.threads[t].pos < |sys.threads[t].plan|
    requires sys.threads[t].taken != [] && sys.threads[t].plan[sys.threads[t].pos].kind.Miss?
    ensures TablesOk(AfterAssign(sys, t).v, g.infos) && KeepersOk(AfterAssign(sys, t).threads, g.infos)
  {
    hide Held, Pending, Slotted, ThreadsOk;
    var sys' := AfterAssign(sys, t);
    AssignPlan(sys.threads[t], sys'.threads[t]);
    TablesKept(sys.v, sys'.v, g.infos);
    KeepersKept(sys.threads, g.infos, g.infos, t, sys'.threads[t]);
  }

  lemma AssignInfos(sys: Sys, g: Ledger, t: Tid)
    requires InfoInv(sys, g) && IsAt(sys, t, Assigning) && sys.threads[t].pos < |sys.threads[t].plan|
    requires sys.threads[t].taken != [] && sys.threads[t].plan[sys.threads[t].pos].kind.Miss?
    ensures InfoInv(AfterAssign(sys, t), g)
  {
    hide Held, Pending, Slotted, ThreadInfos, TablesOk, KeepersOk;
    var sys' := AfterAssign(sys, t);
    var th, th' := sys.threads[t], sys'.threads[t];
    AssignPlan(th, th');
    AssignThread(sys.v, t, th, th', g.infos, th.taken[0]);
    AssignTables(sys, g, t);
    forall u | u in sys'.threads && u != t ensures ThreadInfos(sys'.v, u, sys'.threads[u], g.infos) {
      AssignOther(sys, g, t, u);
    }
  }

  lemma AssignOther(sys: Sys, g: Ledger, t: Tid, u: Tid)
    requires InfoInv(sys, g) && IsAt(sys, t, Assigning) && sys.threads[t].pos < |sys.threads[t].plan|
    requires sys.threads[t].taken != [] && sys.threads[t].plan[sys.threads[t].pos].kind.Miss?
    requires u in sys.threads && u != t
    ensures ThreadInfos(AfterAssign(sys, t).v, u, sys.threads[u], g.infos)
  {
    hide Held, Slotted, Indexed;
    var th, o := sys.threads[t], sys.threads[u];
    assert ThreadInfos(sys.v, t, th, g.infos) && ThreadInfos(sys.v, u, o, g.infos);
    assert Pending(th, th.pos);
  }

  lemma PendingIsUnpublished(sys: Sys, g: Ledger, t: Tid, i: nat)
    requires InfoInv(sys, g) && t in sys.threads && Pending(sys.threads[t], i)
    ensures var r := sys.threads[t].plan[i].info;
            r in sys.v.infos && r in g.infos && g.infos[r] == PendingAt(t, i) && !Indexed(sys.v, r)
            && sys.v.infos[r].hash == sys.threads[t].plan[i].hash
            && (Slotted(sys.threads[t], i) ==> sys.v.infos[r].slot == sys.threads[t].plan[i].slot)
  {
    hide Held, Pending, Slotted, Indexed;
    assert ThreadInfos(sys.v, t, sys.threads[t], g.infos);
  }

  lemma AssignContents(H: Block -> Digest, U: iset<Block>, sys: Sys, g: Ledger, t: Tid)
    requires ContentInv(H, U, sys, g) && IsAt(sys, t, Assigning) && sys.threads[t].pos < |sys.threads[t].plan|
    requires sys.threads[t].taken != [] && sys.threads[t].plan[sys.threads[t].pos].kind.Miss?
    requires var r := sys.threads[t].plan[sys.threads[t].pos].info; r in g.infos && g.infos[r].PendingAt?
    ensures ContentInv(H, U, AfterAssign(sys, t), g)
  {
    hide Flushed, BlockAt, InFile, ThreadContents;
    var sys' := AfterAssign(sys, t);
    AssignPlan(sys.threads[t], sys'.threads[t]);
    forall u | u in sys'.threads ensures ThreadContents(H, U, sys'.v, sys'.threads[u]) {
      ThreadContentsKept(H, U, sys.v, sys'.v, sys.threads[u], sys'.threads[u]);
    }
  }

  lemma AssignShape(H: Block -> Digest, sys: Sys, t: Tid)
    requires Enabled(sys, AssignOne(t)) && Shape(sys.threads[t])
    ensures Shape(Apply(H, sys, AssignOne(t)).threads[t])
  {
    var th, th' := sys.threads[t], Apply(H, sys, AssignOne(t)).threads[t];
    assert th.plan[th.pos..] == [th.plan[th.pos]] + th.plan[th.pos + 1..];
    assert th'.plan[th'.pos..] == th.plan[th.pos + 1..];
  }

  lemma AssignKeeps(H: Block -> Digest, U: iset<Block>, sys: Sys, g: Ledger, t: Tid) returns (g': Ledger)
    requires Inv(H, U, sys, g) && Enabled(sys, AssignOne(t))
    ensures Inv(H, U, Apply(H, sys, AssignOne(t)), g')
  {
    hide SlotInv, InfoInv, RefInv, ContentInv, MissCount, Shape;
    var sys' := Apply(H, sys, AssignOne(t));
    var th, th' := sys.threads[t], sys'.threads[t];
    AssignShape(H, sys, t);
    if th.plan[th.pos].kind.Hit? {
      g' := g;
      QuietStep(H, U, sys, sys', g, t);
    } else {
      PendingIsUnpublished(sys, g, t, th.pos);
      AssignPlan(th, th');
      g' := g.(slots := g.slots[th.taken[0] := Unpublished(t, th.pos)]);
      AssignSlots(sys, g, t);
      AssignInfos(sys, g, t);
      RefsUnaffected(sys, sys', t);
      AssignContents(H, U, sys, g, t);
      SameKeepers(H, U, sys', g, g');
    }
  }

  // ---- Pass 2 ----

  /** The entries of a run are MISS entries of consecutive slots. */
  lemma {:induction false} RunSlots(plan: seq<Entry>, i: nat, k: nat)
    requires i < |plan| && plan[i].kind.Miss? && i <= k < RunEnd(plan, i + 1)
    ensures plan[k].kind.Miss? && plan[k].slot == plan[i].slot + (k - i)
  {
    if k > i {
      RunSlots(plan, i, k - 1);
      assert Consecutive(plan, k);
    }
  }

  /** A run, written in full or in part, touches no slot but its own. */
  lemma FlushOther(v: Volume, plan: seq<Entry>, i: nat, got: nat, slot: nat)
    requires i < |plan| && plan[i].kind.Miss? && InFile(v.master, slot)
    requires forall k :: i <= k < RunEnd(plan, i + 1) ==> plan[k].slot != slot
    ensures InFile(FlushRun(v, plan, i, got).master, slot)
    ensures BlockAt(FlushRun(v, plan, i, got).master, slot) == BlockAt(v.master, slot)
  {
    hide Flatten, Pwrite, BlockAt, InFile;
    var e := RunEnd(plan, i + 1);
    if plan[i].slot <= slot < plan[i].slot + (e - i) {
      RunSlots(plan, i, i + (slot - plan[i].slot));
      assert false;
    }
    var data := Flatten(Payloads(plan[i..e]));
    PwriteOther(v.master, plan[i].slot, e - i, data[..Min(got, |data|)], slot);
  }

  /** A full pwrite of a run writes the payloads of its entries, end to end. */
  lemma FullRun(v: Volume, plan: seq<Entry>, i: nat)
    requires i < |plan|
    ensures FlushRun(v, plan, i, RunBytes(plan, i)).master ==
            Pwrite(v.master, plan[i].slot * BLOCK_SIZE, Flatten(Payloads(plan[i..RunEnd(plan, i + 1)])))
  {
    hide Flatten, Pwrite, RunEnd;
    var data := Flatten(Payloads(plan[i..RunEnd(plan, i + 1)]));
    assert |data| == RunBytes(plan, i);
    assert data[..|data|] == data;
  }

  lemma FlushOwn(v: Volume, plan: seq<Entry>, i: nat, k: nat)
    requires i < |plan| && plan[i].kind.Miss? && i <= k < RunEnd(plan, i + 1)
    ensures InFile(FlushRun(v, plan, i, RunBytes(plan, i)).master, plan[k].slot)
    ensures BlockAt(FlushRun(v, plan, i, RunBytes(plan, i)).master, plan[k].slot) == plan[k].payload
  {
    hide Flatten, Pwrite, BlockAt, InFile, FlushRun, RunBytes, RunEnd;
    var bs := Payloads(plan[i..RunEnd(plan, i + 1)]);
    FullRun(v, plan, i);
    RunSlots(plan, i, k);
    PwriteRun(v.master, plan[i].slot, bs, k - i);
    assert bs[k - i] == plan[k].payload;
  }

  /** The slots a flush writes belong to the flushing thread. */
  lemma FlushForeign(sys: Sys, g: Ledger, t: Tid, got: nat, slot: nat)
    requires SlotInv(sys, g) && IsAt(sys, t, Flushing) && HasRun(sys.threads[t])
    requires slot in g.slots && InFile(sys.v.master, slot)
    requires var i := SkipHits(sys.threads[t].plan, sys.threads[t].pos);
             !(g.slots[slot].Unpublished? && g.slots[slot].t == t && g.slots[slot].i >= i)
    ensures var v' := FlushRun(sys.v, sys.threads[t].plan, SkipHits(sys.threads[t].plan, sys.threads[t].pos), got);
            InFile(v'.master, slot) && BlockAt(v'.master, slot) == BlockAt(sys.v.master, slot)
  {
    hide FlushRun, BlockAt, InFile;
    var th := sys.threads[t];
    var i := SkipHits(th.plan, th.pos);
    assert ThreadSlots(t, th, g.slots);
    forall k | i <= k < RunEnd(th.plan, i + 1) ensures th.plan[k].slot != slot {
      RunSlots(th.plan, i, k);
      assert Slotted(th, k);
    }
    FlushOther(sys.v, th.plan, i, got, slot);
  }

  lemma FlushContents(H: Block -> Digest, U: iset<Block>, sys: Sys, g: Ledger, t: Tid, got: nat, sys': Sys)
    requires SlotInv(sys, g) && ContentInv(H, U, sys, g) && IsAt(sys, t, Flushing) && HasRun(sys.threads[t])
    requires StepOf(sys, sys', t) && ThreadContents(H, U, sys'.v, sys'.threads[t])
    requires sys'.v == FlushRun(sys.v, sys.threads[t].plan, SkipHits(sys.threads[t].plan, sys.threads[t].pos), got)
    ensures ContentInv(H, U, sys', g)
  {
    hide FlushRun, BlockAt, InFile, Slotted, Flushed, PlanOk;
    FlushSame(sys, t, got);
    forall r | r in sys'.v.infos && r in g.infos && g.infos[r].Published?
      ensures StoredOk(H, U, sys'.v, sys'.v.infos[r])
    {
      FlushForeign(sys, g, t, got, sys.v.infos[r].slot);
    }
    forall u | u in sys'.threads && u != t ensures ThreadContents(H, U, sys'.v, sys'.threads[u]) {
      var th := sys.threads[u];
      assert ThreadContents(H, U, sys.v, th) && ThreadSlots(u, th, g.slots);
      assert th == sys'.threads[u];
      forall i: nat | Flushed(th, i)
        ensures InFile(sys'.v.master, th.plan[i].slot) && BlockAt(sys'.v.master, th.plan[i].slot) == th.plan[i].payload
      {
        FlushForeign(sys, g, t, got, th.plan[i].slot);
      }
    }
  }

  lemma FlushSame(sys: Sys, t: Tid, got: nat)
    requires IsAt(sys, t, Flushing) && HasRun(sys.threads[t])
    ensures var v' := FlushRun(sys.v, sys.threads[t].plan, SkipHits(sys.threads[t].plan, sys.threads[t].pos), got);
            v' == sys.v.(master := v'.master)
  {
  }

  lemma FlushThread(H: Block -> Digest, U: iset<Block>, sys: Sys, g: Ledger, t: Tid)
    requires SlotInv(sys, g) && ContentInv(H, U, sys, g) && Enabled(sys, FlushOne(t))
    ensures var sys' := Apply(H, sys, FlushOne(t)); ThreadContents(H, U, sys'.v, sys'.threads[t])
  {
    hide FlushRun, BlockAt, InFile, RunBytes;
    var sys' := Apply(H, sys, FlushOne(t));
    var th, th' := sys.threads[t], sys'.threads[t];
    var i := SkipHits(th.plan, th.pos);
    assert ThreadContents(H, U, sys.v, th) && ThreadSlots(t, th, g.slots);
    assert PlanOk(H, U, th');
    forall k: nat | Flushed(th', k)
      ensures InFile(sys'.v.master, th'.plan[k].slot) && BlockAt(sys'.v.master, th'.plan[k].slot) == th'.plan[k].payload
    {
      if k < th.pos {
        assert Flushed(th, k);
        FlushForeign(sys, g, t, RunBytes(th.plan, i), th.plan[k].slot);
      } else {
        assert i <= k;
        FlushOwn(sys.v, th.plan, i, k);
      }
    }
  }

  lemma FlushKeeps(H: Block -> Digest, U: iset<Block>, sys: Sys, g: Ledger, t: Tid)
    requires Inv(H, U, sys, g) && Enabled(sys, FlushOne(t))
    ensures Inv(H, U, Apply(H, sys, FlushOne(t)), g)
  {
    hide SlotInv, InfoInv, RefInv, ContentInv, RunBytes, FlushRun, ThreadContents;
    var sys' := Apply(H, sys, FlushOne(t));
    var th, th' := sys.threads[t], sys'.threads[t];
    var got := RunBytes(th.plan, SkipHits(th.plan, th.pos));
    FlushSame(sys, t, got);
    FlushThread(H, U, sys, g, t);
    FlushContents(H, U, sys, g, t, got, sys');
    SlotsUnaffected(sys, sys', g, t);
    InfosUnaffected(sys, sys', g, t);
    RefsUnaffected(sys, sys', t);
  }

  lemma FlushFailThread(H: Block -> Digest, U: iset<Block>, sys: Sys, g: Ledger, t: Tid, got: nat)
    requires ContentInv(H, U, sys, g) && Enabled(sys, FlushFail(t, got))
    ensures var sys' := Apply(H, sys, FlushFail(t, got)); ThreadContents(H, U, sys'.v, sys'.threads[t])
  {
    hide StoredOk, FlushRun;
    assert ThreadContents(H, U, sys.v, sys.threads[t]);
  }

  lemma FlushFailKeeps(H: Block -> Digest, U: iset<Block>, sys: Sys, g: Ledger, t: Tid, got: nat)
    requires Inv(H, U, sys, g) && Enabled(sys, FlushFail(t, got))
    ensures Inv(H, U, Apply(H, sys, FlushFail(t, got)), g)
  {
    hide SlotInv, InfoInv, RefInv, ContentInv, FlushRun, RunBytes;
    var sys' := Apply(H, sys, FlushFail(t, got));
    FlushSame(sys, t, got);
    FlushFailThread(H, U, sys, g, t, got);
    FlushContents(H, U, sys, g, t, got, sys');
    SlotsUnaffected(sys, sys', g, t);
    InfosUnaffected(sys, sys', g, t);
    RefsUnaffected(sys, sys', t);
  }
}
