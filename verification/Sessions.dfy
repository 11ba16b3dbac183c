/** The life of a volume: any number of sessions, each a concurrent run between a mount
    and an unmount. */
module Sessions {
  import opened MasterFile
  import opened Volumes
  import opened Protocol
  import opened Safety
  import opened Refinement
  import opened Solo
  import opened Quiescence
  import opened MasterLength
  import opened Removals
  import opened Sizes
  import opened Stranding
  import opened Mount
  import opened Remount

  /** What ran between a mount and the next unmount, and the orders in which the unmount
      happened to iterate the tables. */
  datatype Session = Session(run: seq<Sys>, acts: seq<Action>, orders: Orders)

  /** The volume at the unmount. */
  function Last(s: Session): Volume
    requires s.run != []
  {
    s.run[|s.run| - 1].v
  }

  /** All threads start and end idle, and no pwrite of the session failed. */
  ghost predicate IsSession(H: Block -> Digest, U: iset<Block>, s: Session)
    ensures IsSession(H, U, s) ==> |s.run| == |s.acts| + 1
  {
    && |s.run| == |s.acts| + 1 && SafeRun(H, U, s.run, s.acts) && AllIdle(s.run[0]) && AllIdle(s.run[|s.acts|])
    && (forall i :: 0 <= i < |s.acts| ==> !s.acts[i].FlushFail?)
    && OrdersOf(s.orders, Last(s)) && Fits(Last(s), s.orders)
  }

  /** Each session starts on what was mounted after the one before. */
  ghost predicate IsHistory(H: Block -> Digest, U: iset<Block>, hist: seq<Session>) {
    && (forall i :: 0 <= i < |hist| ==> IsSession(H, U, hist[i]))
    && (forall i :: 0 < i < |hist| ==> hist[i].run[0].v == Reloaded(Last(hist[i - 1]), hist[i - 1].orders))
  }

  /** The first n sessions, action by action, applied to a plain map. */
  ghost function HistoryEffects(H: Block -> Digest, U: iset<Block>, m: map<Key, seq<Byte>>, hist: seq<Session>,
                                n: nat): map<Key, seq<Byte>>
    requires IsHistory(H, U, hist) && n <= |hist|
  {
    if n == 0 then m
    else
      assert IsSession(H, U, hist[n - 1]);
      Effects(HistoryEffects(H, U, m, hist, n - 1), hist[n - 1].run, hist[n - 1].acts, |hist[n - 1].acts|)
  }

  lemma FreshIsMountable(H: Block -> Digest, U: iset<Block>)
    ensures Mountable(H, U, EMPTY)
  {
    hide Good;
    InitialGood(H, U, Alone(EMPTY, IDLE));
  }

  /** One session takes a mountable volume to a mountable volume. */
  lemma SessionKeeps(H: Block -> Digest, U: iset<Block>, s: Session)
    requires IsSession(H, U, s) && Mountable(H, U, s.run[0].v)
    ensures Mountable(H, U, Last(s)) && Mountable(H, U, Reloaded(Last(s), s.orders))
    ensures View(Reloaded(Last(s), s.orders)) == View(Last(s))
    ensures forall n :: 0 <= n < |s.run| ==> Good(H, U, s.run[n]) && Covers(s.run[n])
  {
    hide IsRun, Mountable, AllIdle, OrdersOf, Fits, Good, Covers, View, Uses;
    RemountAfterRun(H, U, s.run, s.acts, |s.acts|, s.orders);
    MountedStarts(H, U, s.run[0]);
    forall n | 0 <= n < |s.run| ensures Good(H, U, s.run[n]) && Covers(s.run[n]) {
      RunGood(H, U, s.run, s.acts, n);
      RunCovers(H, U, s.run, s.acts, n);
    }
  }

  lemma MountedStarts(H: Block -> Digest, U: iset<Block>, sys: Sys)
    requires Mountable(H, U, sys.v) && AllIdle(sys)
    ensures Good(H, U, sys) && Covers(sys)
  {
    hide Valid, AllIdle, Good, Covers;
    ValidIsGood(H, U, sys);
    StartCovers(H, U, sys);
  }

  /** Over any number of mounts, runs and unmounts: every mount finds the invariant and
      a master file as long as the append counter says, and every state in between is
      good. */
  lemma {:induction false} HistoryIsSound(H: Block -> Digest, U: iset<Block>, hist: seq<Session>, i: nat)
    requires IsHistory(H, U, hist) && i < |hist| && Mountable(H, U, hist[0].run[0].v)
    ensures Mountable(H, U, hist[i].run[0].v) && Mountable(H, U, Reloaded(Last(hist[i]), hist[i].orders))
    ensures forall n :: 0 <= n < |hist[i].run| ==> Good(H, U, hist[i].run[n]) && Covers(hist[i].run[n])
  {
    hide IsSession, Mountable, Good, Covers, Reloaded;
    assert IsSession(H, U, hist[i]);
    if i > 0 {
      HistoryIsSound(H, U, hist, i - 1);
    }
    SessionKeeps(H, U, hist[i]);
  }

  /** And what is mounted after the i-th session is what was there at the beginning,
      changed by the block writes and removals of all sessions in order. */
  lemma {:induction false} HistoryRefinesMap(H: Block -> Digest, U: iset<Block>, hist: seq<Session>, i: nat)
    requires IsHistory(H, U, hist) && i < |hist| && Mountable(H, U, hist[0].run[0].v) && CollisionFree(H, U)
    ensures View(Reloaded(Last(hist[i]), hist[i].orders)) == HistoryEffects(H, U, View(hist[0].run[0].v), hist, i + 1)
  {
    hide IsSession, Mountable, Good, Covers, Reloaded, View, Effects, CollisionFree;
    assert IsSession(H, U, hist[i]);
    HistoryIsSound(H, U, hist, i);
    SessionKeeps(H, U, hist[i]);
    SessionRefinesMap(H, U, hist[i]);
    if i > 0 {
      HistoryRefinesMap(H, U, hist, i - 1);
    }
  }

  lemma SessionRefinesMap(H: Block -> Digest, U: iset<Block>, s: Session)
    requires IsSession(H, U, s) && Good(H, U, s.run[0]) && CollisionFree(H, U)
    ensures View(Last(s)) == Effects(View(s.run[0].v), s.run, s.acts, |s.acts|)
  {
    hide Good, AllIdle, OrdersOf, Fits, View, CollisionFree, Uses;
    RunRefinesMap(H, U, s.run, s.acts, |s.acts|);
  }

  /** No write overtook an unlink or truncate of its file. */
  ghost predicate InOrder(H: Block -> Digest, s: Session) {
    |s.run| == |s.acts| + 1 && NothingOvertakes(H, s.run, s.acts, |s.acts|)
  }

  /** If in no session a write overtook an unlink or truncate of its file, every mount finds
      every mapped block below its file's recorded size. */
  lemma {:induction false} HistorySizesFit(H: Block -> Digest, U: iset<Block>, hist: seq<Session>, i: nat)
    requires IsHistory(H, U, hist) && i < |hist| && Mountable(H, U, hist[0].run[0].v)
    requires SizesFit(hist[0].run[0].v) && forall j :: 0 <= j < |hist| ==> InOrder(H, hist[j])
    ensures SizesFit(hist[i].run[0].v) && SizesFit(Reloaded(Last(hist[i]), hist[i].orders))
  {
    hide IsSession, Mountable, Good, Covers, Reloaded, SizesFit, InOrder;
    assert IsSession(H, U, hist[i]);
    if i > 0 {
      HistorySizesFit(H, U, hist, i - 1);
    }
    HistoryIsSound(H, U, hist, i);
    SessionSizesFit(H, U, hist[i]);
  }

  lemma SessionSizesFit(H: Block -> Digest, U: iset<Block>, s: Session)
    requires IsSession(H, U, s) && Good(H, U, s.run[0]) && SizesFit(s.run[0].v) && InOrder(H, s)
    ensures SizesFit(Reloaded(Last(s), s.orders))
  {
    hide Good, AllIdle, OrdersOf, Fits, SizesFit, NothingOvertakes, Uses, Load, Save;
    NothingOvertakesFits(H, U, s.run, s.acts, |s.acts|);
    RemountSame(Last(s), s.orders);
    RemountedFits(Last(s), Reloaded(Last(s), s.orders));
  }

  /** In particular if unlink and truncate had their file to themselves. */
  lemma SerialSessionIsInOrder(H: Block -> Digest, U: iset<Block>, s: Session)
    requires IsSession(H, U, s) && Good(H, U, s.run[0]) && SizesFit(s.run[0].v)
    requires forall i :: 0 <= i < |s.acts| ==> Serialised(s.run[i], s.acts[i])
    ensures InOrder(H, s)
  {
    hide Good, AllIdle, OrdersOf, Fits, SizesFit, NothingOvertakes, Uses, Serialised;
    SerialisedOvertakesNothing(H, U, s.run, s.acts);
  }
}
