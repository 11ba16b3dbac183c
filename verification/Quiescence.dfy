/** The invariant between requests, said without the ledger, and what it implies
    about storage. */
module Quiescence {
  import opened MasterFile
  import opened Volumes
  import opened Protocol
  import opened Invariant
  import opened Safety
  import opened Solo

  function KeysTo(v: Volume, r: Ref): set<Key> {
    set k | k in v.byBlock && v.byBlock[k] == r
  }

  ghost predicate TablesSettled(v: Volume) {
    && (forall r :: r in v.infos ==> r < v.nextRef && Indexed(v, r))
    && (forall h :: h in v.byHash ==> v.byHash[h] in v.infos && v.infos[v.byHash[h]].hash == h)
    && (forall k :: k in v.byBlock ==> v.byBlock[k] in v.infos)
  }

  predicate IsLiveSlot(v: Volume, q: nat) {
    exists r :: r in v.infos && v.infos[r].slot == q
  }

  /** Every slot below next is on the free list once or stores exactly one info. */
  ghost predicate SlotsSettled(v: Volume) {
    && NoDup(v.free)
    && (forall i :: 0 <= i < |v.free| ==> v.free[i] < v.next && !IsLiveSlot(v, v.free[i]))
    && (forall r :: r in v.infos ==> v.infos[r].slot < v.next)
    && (forall r, r' :: r in v.infos && r' in v.infos && v.infos[r].slot == v.infos[r'].slot ==> r == r')
    && (forall q: nat :: q < v.next ==> q in v.free || IsLiveSlot(v, q))
  }

  ghost predicate Settled(H: Block -> Digest, U: iset<Block>, v: Volume) {
    && TablesSettled(v)
    && SlotsSettled(v)
    && (forall r :: r in v.infos ==> v.infos[r].refs == |KeysTo(v, r)| && KeysTo(v, r) != {})
    && (forall r :: r in v.infos ==> StoredOk(H, U, v, v.infos[r]))
  }

  // ---- Valid implies Settled ----

  lemma {:induction false} MappedCardinality(keys: set<Key>, hs: set<Holder>)
    requires forall h :: h in hs <==> h.ByKey? && h.k in keys
    ensures |hs| == |keys|
  {
    if keys == {} {
      assert hs == {};
    } else {
      var k :| k in keys;
      MappedCardinality(keys - {k}, hs - {ByKey(k)});
      assert ByKey(k) in hs;
    }
  }

  ghost predicate AllIdle(sys: Sys) {
    forall t :: t in sys.threads ==> sys.threads[t] == IDLE
  }

  lemma IdleHolders(sys: Sys, r: Ref)
    requires AllIdle(sys)
    ensures |Holders(sys, r)| == |KeysTo(sys.v, r)|
  {
    forall h ensures h in Holders(sys, r) <==> h.ByKey? && h.k in KeysTo(sys.v, r) {
      assert h in Holders(sys, r) <==> Holds(sys, r, h);
    }
    MappedCardinality(KeysTo(sys.v, r), Holders(sys, r));
  }

  lemma IdleTables(sys: Sys, g: Ledger)
    requires InfoInv(sys, g) && AllIdle(sys)
    ensures TablesSettled(sys.v) && forall r :: r in g.infos ==> g.infos[r].Published?
  {
    hide Held, ThreadInfos, Slotted;
  }

  lemma IdleSlots(sys: Sys, g: Ledger)
    requires SlotInv(sys, g) && AllIdle(sys)
    requires g.infos.Keys == sys.v.infos.Keys && forall r :: r in g.infos ==> g.infos[r].Published?
    ensures SlotsSettled(sys.v)
  {
    hide NoDup;
    forall q: nat | q < sys.v.next ensures q in sys.v.free || IsLiveSlot(sys.v, q) {
      assert OwnerHolds(sys, g, q);
    }
  }

  lemma IdleIsSettled(H: Block -> Digest, U: iset<Block>, sys: Sys)
    requires Good(H, U, sys) && AllIdle(sys)
    ensures Settled(H, U, sys.v)
  {
    hide Held, ThreadInfos, Slotted, KeysTo, StoredOk, TablesSettled, SlotsSettled, SlotInv, Indexed, ThreadContents,
         Holds, AllIdle;
    var v := sys.v;
    var g :| Inv(H, U, sys, g);
    IdleTables(sys, g);
    IdleSlots(sys, g);
    forall r | r in v.infos ensures v.infos[r].refs == |KeysTo(v, r)| && KeysTo(v, r) != {} {
      IdleHolders(sys, r);
    }
  }

  lemma ValidIsSettled(H: Block -> Digest, U: iset<Block>, v: Volume)
    requires Valid(H, U, v)
    ensures Settled(H, U, v)
  {
    hide Good, Settled;
    IdleIsSettled(H, U, Alone(v, IDLE));
  }

  // ---- Settled implies Valid ----

  ghost function LiveAt(v: Volume, q: nat): (r: Ref)
    requires IsLiveSlot(v, q)
    ensures r in v.infos && v.infos[r].slot == q
  {
    var r :| r in v.infos && v.infos[r].slot == q;
    r
  }

  ghost function SettledLedger(v: Volume): Ledger
    requires SlotsSettled(v)
  {
    Ledger(map q: nat | q < v.next ::
              if q in v.free then Free else Live(LiveAt(v, q)), map r | r in v.infos :: Published)
  }

  lemma IdleHasNothing(t: Tid, own: map<nat, Owner>, v: Volume, keep: map<Ref, Keeper>, H: Block -> Digest,
                       U: iset<Block>)
    ensures ThreadSlots(t, IDLE, own) && ThreadInfos(v, t, IDLE, keep) && ThreadContents(H, U, v, IDLE) && Shape(IDLE)
  {
  }

  lemma FreeIsOwned(v: Volume)
    requires SlotsSettled(v)
    ensures ListOwned(v.free, SettledLedger(v).slots, Free)
  {
    hide LiveAt, IsLiveSlot;
  }

  lemma SettledSlots(H: Block -> Digest, sys: Sys)
    requires SlotsSettled(sys.v) && AllIdle(sys)
    ensures SlotInv(sys, SettledLedger(sys.v))
  {
    hide NoDup, ThreadSlots, LiveAt, IsLiveSlot, Slotted, ListOwned;
    var v, g := sys.v, SettledLedger(sys.v);
    FreeIsOwned(v);
    forall t | t in sys.threads ensures ThreadSlots(t, sys.threads[t], g.slots) {
      IdleHasNothing(t, g.slots, v, g.infos, H, iset{});
    }
    forall q: nat | q in g.slots ensures OwnerHolds(sys, g, q) {
      assert q in v.free || IsLiveSlot(v, q);
    }
    forall r | r in v.infos ensures v.infos[r].slot in g.slots && g.slots[v.infos[r].slot] == Live(r) {
      LiveSlotIsLive(v, r);
    }
  }

  lemma LiveSlotIsLive(v: Volume, r: Ref)
    requires SlotsSettled(v) && r in v.infos
    ensures v.infos[r].slot < v.next && v.infos[r].slot !in v.free && IsLiveSlot(v, v.infos[r].slot) &&
            LiveAt(v, v.infos[r].slot) == r
  {
    hide NoDup;
    assert IsLiveSlot(v, v.infos[r].slot);
  }

  lemma SettledInfos(H: Block -> Digest, U: iset<Block>, sys: Sys, g: Ledger)
    requires TablesSettled(sys.v) && AllIdle(sys) && g.infos == map r | r in sys.v.infos :: Published
    requires forall r :: r in sys.v.infos ==> StoredOk(H, U, sys.v, sys.v.infos[r])
    ensures InfoInv(sys, g) && ContentInv(H, U, sys, g) && ShapeInv(sys)
  {
    hide ThreadInfos, ThreadContents, StoredOk, Shape;
    forall t | t in sys.threads
      ensures ThreadInfos(sys.v, t, sys.threads[t], g.infos) && ThreadContents(H, U, sys.v, sys.threads[t]) &&
              Shape(sys.threads[t])
    {
      IdleHasNothing(t, g.slots, sys.v, g.infos, H, U);
    }
  }

  /** Any number of idle threads on a settled volume is a good state. */
  lemma SettledIsGood(H: Block -> Digest, U: iset<Block>, sys: Sys)
    requires Settled(H, U, sys.v) && AllIdle(sys)
    ensures Good(H, U, sys)
  {
    hide SlotsSettled, TablesSettled, KeysTo, StoredOk, SlotInv, InfoInv, ContentInv, ShapeInv, Holders, AllIdle;
    var v, g := sys.v, SettledLedger(sys.v);
    SettledSlots(H, sys);
    SettledInfos(H, U, sys, g);
    forall r | r in v.infos ensures v.infos[r].refs == |Holders(sys, r)| && v.infos[r].refs >= 1 {
      IdleHolders(sys, r);
    }
    assert Inv(H, U, sys, g);
  }

  lemma SettledIsValid(H: Block -> Digest, U: iset<Block>, v: Volume)
    requires Settled(H, U, v)
    ensures Valid(H, U, v)
  {
    hide Settled, Good;
    SettledIsGood(H, U, Alone(v, IDLE));
  }

  /** Whenever every thread is idle, the invariant between requests holds: whatever is
      proved of sequences of requests holds from there on. */
  lemma QuiescentIsValid(H: Block -> Digest, U: iset<Block>, sys: Sys)
    requires Good(H, U, sys) && AllIdle(sys)
    ensures Valid(H, U, sys.v)
  {
    hide Good, Settled, Valid;
    IdleIsSettled(H, U, sys);
    SettledIsValid(H, U, sys.v);
  }

  /** The converse: any number of idle threads on a valid volume, such as the one a
      mount has loaded, is a good state for a run to start from. */
  lemma ValidIsGood(H: Block -> Digest, U: iset<Block>, sys: Sys)
    requires Valid(H, U, sys.v) && AllIdle(sys)
    ensures Good(H, U, sys)
  {
    hide Valid, Settled, Good, AllIdle;
    ValidIsSettled(H, U, sys.v);
    SettledIsGood(H, U, sys);
  }

  // ---- Storage ----

  lemma {:induction false} InjectiveCard<X, Y>(m: map<X, Y>)
    requires forall x, x' :: x in m && x' in m && m[x] == m[x'] ==> x == x'
    ensures |m.Values| == |m|
  {
    if m == map[] {
      assert m.Values == {};
    } else {
      var x :| x in m;
      var m1 := m - {x};
      InjectiveCard(m1);
      forall y ensures y in m.Values <==> y in m1.Values + {m[x]} {
        if y in m.Values && y != m[x] {
          var z :| z in m && m[z] == y;
          assert z in m1 && m1[z] == y;
        }
        if y in m1.Values {
          var z :| z in m1 && m1[z] == y;
          assert z in m && m[z] == y;
        }
      }
      assert m.Values == m1.Values + {m[x]};
      assert m[x] !in m1.Values;
      assert |m1.Keys| == |m.Keys| - 1 by { assert m1.Keys == m.Keys - {x}; }
    }
  }

  ghost function Range(n: nat): (r: set<nat>)
    ensures |r| == n && forall q: nat :: q in r <==> q < n
  {
    if n == 0 then {} else Range(n - 1) + {n - 1}
  }

  ghost function Elems(s: seq<nat>): (r: set<nat>)
    ensures forall q :: q in r <==> q in s
    ensures NoDup(s) ==> |r| == |s|
  {
    if s == [] then {}
    else
      var n := |s| - 1;
      assert s == s[..n] + [s[n]];
      assert NoDup(s) ==> NoDup(s[..n]) && s[n] !in s[..n];
      Elems(s[..n]) + {s[n]}
  }

  ghost function LiveSlots(v: Volume): (r: set<nat>)
    ensures forall q: nat :: q in r <==> IsLiveSlot(v, q)
  {
    set r | r in v.infos :: v.infos[r].slot
  }

  lemma LiveCard(v: Volume)
    requires SlotsSettled(v)
    ensures |LiveSlots(v)| == |v.infos|
  {
    var live := map r | r in v.infos :: v.infos[r].slot;
    InjectiveCard(live);
    assert live.Keys == v.infos.Keys;
    assert live.Values == LiveSlots(v) by {
      forall q ensures q in live.Values <==> q in LiveSlots(v) {
        assert q in LiveSlots(v) <==> exists r :: r in v.infos && live[r] == q;
      }
    }
  }

  /** The slots of the master are the free ones and one per stored info. */
  lemma SlotAccounting(v: Volume)
    requires SlotsSettled(v)
    ensures v.next == |v.free| + |v.infos|
  {
    hide LiveSlots, Elems, Range, SlotsSettled, IsLiveSlot;
    LiveCard(v);
    assert NoDup(v.free) by { SlotIsOne(v, 0); }
    var f, l := Elems(v.free), LiveSlots(v);
    forall q: nat ensures (q < v.next <==> q in f || q in l) && !(q in f && q in l) {
      SlotIsOne(v, q);
    }
    assert Range(v.next) == f + l;
    assert f !! l;
  }

  lemma SlotIsOne(v: Volume, q: nat)
    requires SlotsSettled(v)
    ensures NoDup(v.free)
    ensures (q < v.next <==> q in v.free || IsLiveSlot(v, q)) && !(q in v.free && IsLiveSlot(v, q))
  {
    hide NoDup;
  }

  /** Two infos never store the same bytes, since their hashes differ. */
  lemma ContentsDistinct(H: Block -> Digest, U: iset<Block>, v: Volume, r: Ref, r': Ref)
    requires Settled(H, U, v) && r in v.infos && r' in v.infos && Content(v, r) == Content(v, r')
    ensures r == r'
  {
    hide SlotsSettled, KeysTo, BlockAt, InFile;
    assert Indexed(v, r) && Indexed(v, r');
  }

  /** Between requests the master holds one slot for each distinct block content that
      some file contains, and the rest of it is free. */
  lemma StorageIsDistinctContents(H: Block -> Digest, U: iset<Block>, v: Volume)
    requires Valid(H, U, v)
    ensures |v.infos| == |View(v).Values|
    ensures v.next == |v.free| + |View(v).Values|
  {
    hide Valid, StoredOk, Content, SlotsSettled, Indexed;
    ValidIsSettled(H, U, v);
    SlotAccounting(v);
    var stored := map r | r in v.infos :: Content(v, r);
    forall r, r' | r in stored && r' in stored && stored[r] == stored[r'] ensures r == r' {
      ContentsDistinct(H, U, v, r, r');
    }
    InjectiveCard(stored);
    assert |stored| == |v.infos| by { assert stored.Keys == v.infos.Keys; }
    StoredIsViewed(v, stored);
  }

  lemma StoredIsViewed(v: Volume, stored: map<Ref, seq<Byte>>)
    requires TablesSettled(v) && forall r :: r in v.infos ==> KeysTo(v, r) != {}
    requires stored == map r | r in v.infos :: Content(v, r)
    ensures stored.Values == View(v).Values
  {
    hide Content, Indexed;
    forall r | r in v.infos ensures Content(v, r) in View(v).Values {
      var k :| k in KeysTo(v, r);
      assert View(v)[k] == Content(v, r);
    }
    forall k | k in v.byBlock ensures View(v)[k] in stored.Values {
      assert stored[v.byBlock[k]] == View(v)[k];
    }
  }
}
