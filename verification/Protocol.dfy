/** Any number of threads running write_dedup, unlink and truncate against one
    volume. Each action below is one atomic operation or one iteration of a loop
    that runs under a lock; the lock guards are part of `Enabled`. */
module Protocol {
  import opened MasterFile
  import opened Volumes

  type Tid = nat

  datatype PC =
    | Idle          // between requests
    | Deciding      // Pass 1, metadata lock held for reading
    | Draining      // about to drain the free list
    | Appending     // about to fetch_add the append counter
    | Assigning     // copying slots into the plan
    | Flushing      // Pass 2, no lock
    | Publishing    // Pass 3, first loop, metadata lock held for writing
    | Mapping       // Pass 3, second loop, same lock
    | Growing       // Pass 3, size update, same lock
    | Releasing     // about to give the collected slots back
    | Failed        // a pwrite failed, rollback not begun
    | Unhitting     // rollback, first half, metadata lock held for writing
    | HitReleasing  // rollback, about to give back the slots of dead hits
    | Reverting     // rollback, about to take the free-list mutex
    | Unmissing     // rollback, second half, free-list mutex held
    | Sized         // unlink/truncate has read the size, no lock
    | Removing      // batch removal, metadata lock held for writing
    | RemReleasing  // batch removal, about to give the slots back
    | Resizing      // about to update or drop the recorded size

  /** What unlink and truncate do to the recorded size in the end. */
  datatype After = Forget | Shrink(size: nat)

  /** A writer uses start, blocks, plan and taken; a remover uses stop and after. */
  datatype Thread = Thread(pc: PC, path: Path, start: nat, blocks: seq<Block>, plan: seq<Entry>, taken: seq<nat>,
                           pos: nat, rel: seq<nat>, stop: nat, after: After)

  const IDLE: Thread := Thread(Idle, [], 0, [], [], [], 0, [], 0, Forget)

  function WriterThread(path: Path, start: nat, blocks: seq<Block>): Thread {
    Thread(Deciding, path, start, blocks, [], [], 0, [], 0, Forget)
  }

  function RemoverThread(path: Path, pos: nat, stop: nat, after: After): Thread {
    Thread(Sized, path, 0, [], [], [], pos, [], stop, after)
  }

  datatype Sys = Sys(v: Volume, threads: map<Tid, Thread>)

  datatype Action =
    | BeginWrite(t: Tid, path: Path, start: nat, blocks: seq<Block>)
    | DecideOne(t: Tid)
    | DrainFree(t: Tid)
    | AppendRange(t: Tid)
    | AssignOne(t: Tid)
    | FlushOne(t: Tid)
    | FlushFail(t: Tid, got: nat)
    | PublishOne(t: Tid)
    | MapOne(t: Tid)
    | Grow(t: Tid)
    | GiveBack(t: Tid)
    | UnhitOne(t: Tid)
    | UnmissOne(t: Tid)
    | BeginUnlink(t: Tid, path: Path)
    | BeginTruncate(t: Tid, path: Path, size: nat)
    | RemoveOne(t: Tid)
    | Resize(t: Tid)
    | Advance(t: Tid)

  /** The action starts a request. */
  predicate Begins(a: Action) { a.BeginWrite? || a.BeginUnlink? || a.BeginTruncate? }

  // ---- Locks ----

  predicate HoldsRead(th: Thread) { th.pc.Deciding? }
  predicate HoldsWrite(th: Thread) {
    th.pc.Publishing? || th.pc.Mapping? || th.pc.Growing? || th.pc.Unhitting? || th.pc.Removing?
  }

  predicate CanRead(sys: Sys) {
    forall t :: t in sys.threads ==> !HoldsWrite(sys.threads[t])
  }

  predicate CanWrite(sys: Sys) {
    forall t :: t in sys.threads ==> !HoldsWrite(sys.threads[t]) && !HoldsRead(sys.threads[t])
  }

  predicate MutexFree(sys: Sys) {
    forall t :: t in sys.threads ==> !sys.threads[t].pc.Unmissing?
  }

  // ---- Enabled actions ----

  predicate IsAt(sys: Sys, t: Tid, pc: PC) {
    t in sys.threads && sys.threads[t].pc == pc
  }

  function RoundUp(bytes: nat): nat { (bytes + BLOCK_SIZE - 1) / BLOCK_SIZE }

  /** The fewest blocks that hold the bytes. */
  lemma RoundUpIsLeast(bytes: nat, n: nat)
    ensures RoundUp(bytes) <= n <==> bytes <= n * BLOCK_SIZE
  {
    var r := RoundUp(bytes);
    assert (r - 1) * BLOCK_SIZE < bytes <= r * BLOCK_SIZE;
  }

  predicate CanAdvance(sys: Sys, th: Thread) {
    match th.pc
    case Deciding => |th.plan| == |th.blocks|
    case Assigning => th.pos == |th.plan|
    case Flushing => th.pos <= |th.plan| && SkipHits(th.plan, th.pos) == |th.plan| && CanWrite(sys)
    case Publishing => th.pos == |th.plan|
    case Mapping => th.pos == |th.plan|
    case Failed => CanWrite(sys)
    case Unhitting => th.pos == |th.plan|
    case Reverting => MutexFree(sys)
    case Unmissing => th.pos == |th.plan|
    case Sized => CanWrite(sys)
    case Removing => th.pos >= th.stop
    case _ => false
  }

  predicate Enabled(sys: Sys, a: Action) {
    match a
    case BeginWrite(t, _, _, blocks) => IsAt(sys, t, Idle) && blocks != [] && CanRead(sys)
    case DecideOne(t) => IsAt(sys, t, Deciding) && |sys.threads[t].plan| < |sys.threads[t].blocks|
    case DrainFree(t) => IsAt(sys, t, Draining) && MutexFree(sys)
    case AppendRange(t) => IsAt(sys, t, Appending) && |sys.threads[t].taken| <= MissCount(sys.threads[t].plan)
    case AssignOne(t) =>
      IsAt(sys, t, Assigning) && sys.threads[t].pos < |sys.threads[t].plan| &&
      (sys.threads[t].plan[sys.threads[t].pos].kind.Miss? ==> sys.threads[t].taken != [])
    case FlushOne(t) => IsAt(sys, t, Flushing) && HasRun(sys.threads[t])
    case FlushFail(t, got) => IsAt(sys, t, Flushing) && HasRun(sys.threads[t]) && got < NextRunBytes(sys.threads[t])
    case PublishOne(t) => IsAt(sys, t, Publishing) && sys.threads[t].pos < |sys.threads[t].plan|
    case MapOne(t) => IsAt(sys, t, Mapping) && sys.threads[t].pos < |sys.threads[t].plan|
    case Grow(t) => IsAt(sys, t, Growing)
    case GiveBack(t) => (IsAt(sys, t, Releasing) || IsAt(sys, t, HitReleasing) || IsAt(sys, t, RemReleasing)) &&
        MutexFree(sys)
    case UnhitOne(t) => IsAt(sys, t, Unhitting) && sys.threads[t].pos < |sys.threads[t].plan|
    case UnmissOne(t) => IsAt(sys, t, Unmissing) && sys.threads[t].pos < |sys.threads[t].plan|
    case BeginUnlink(t, path) => IsAt(sys, t, Idle) && path in sys.v.sizes && CanRead(sys)
    case BeginTruncate(t, path, size) =>
      IsAt(sys, t, Idle) && path in sys.v.sizes && size % BLOCK_SIZE == 0 && size < sys.v.sizes[path] && CanRead(sys)
    case RemoveOne(t) => IsAt(sys, t, Removing) && sys.threads[t].pos < sys.threads[t].stop
    case Resize(t) => IsAt(sys, t, Resizing) && CanWrite(sys)
    case Advance(t) => t in sys.threads && CanAdvance(sys, sys.threads[t])
  }

  predicate HasRun(th: Thread) {
    th.pos <= |th.plan| && SkipHits(th.plan, th.pos) < |th.plan|
  }

  function NextRunBytes(th: Thread): nat
    requires HasRun(th)
  {
    RunBytes(th.plan, SkipHits(th.plan, th.pos))
  }

  // ---- Effects ----

  /** The thread after a phase change that touches nothing shared. */
  function Advanced(th: Thread): Thread {
    match th.pc
    case Deciding => th.(pc := Draining)
    case Assigning => th.(pc := Flushing, pos := 0)
    case Flushing => th.(pc := Publishing, pos := 0)
    case Publishing => th.(pc := Mapping, pos := 0)
    case Mapping => th.(pc := Growing)
    case Failed => th.(pc := Unhitting, pos := 0)
    case Unhitting => th.(pc := HitReleasing)
    case Reverting => th.(pc := Unmissing, pos := 0)
    case Sized => th.(pc := Removing)
    case Removing => th.(pc := RemReleasing)
    case _ => IDLE
  }

  function Put(sys: Sys, t: Tid, v: Volume, th: Thread): Sys {
    Sys(v, sys.threads[t := th])
  }

  function Apply(H: Block -> Digest, sys: Sys, a: Action): Sys
    requires Enabled(sys, a)
  {
    var v := sys.v;
    match a
    case BeginWrite(t, path, start, blocks) => Put(sys, t, v, WriterThread(path, start, blocks))
    case DecideOne(t) =>
      var th := sys.threads[t];
      var n := |th.plan|;
      var (v', e) := Decide(H, v, th.plan, th.start + n, th.blocks[n]);
      Put(sys, t, v', th.(plan := th.plan + [e]))
    case DrainFree(t) =>
      var th := sys.threads[t];
      var (v', out) := Drain(v, MissCount(th.plan));
      Put(sys, t, v', th.(pc := Appending, taken := out))
    case AppendRange(t) =>
      var th := sys.threads[t];
      var (v', out) := Append(v, MissCount(th.plan) - |th.taken|);
      Put(sys, t, v', th.(pc := Assigning, taken := th.taken + out, pos := 0))
    case AssignOne(t) =>
      var th := sys.threads[t];
      var e := th.plan[th.pos];
      if e.kind.Hit? then Put(sys, t, v, th.(pos := th.pos + 1))
      else
        var (v', e') := Assign(v, e, th.taken[0]);
        Put(sys, t, v', th.(plan := th.plan[th.pos := e'], taken := th.taken[1..], pos := th.pos + 1))
    case FlushOne(t) =>
      var th := sys.threads[t];
      var i := SkipHits(th.plan, th.pos);
      Put(sys, t, FlushRun(v, th.plan, i, RunBytes(th.plan, i)), th.(pos := RunEnd(th.plan, i + 1)))
    case FlushFail(t, got) =>
      var th := sys.threads[t];
      Put(sys, t, FlushRun(v, th.plan, SkipHits(th.plan, th.pos), got), th.(pc := Failed))
    case PublishOne(t) =>
      var th := sys.threads[t];
      var (v', e', rel) := Publish(v, th.plan[th.pos], th.rel);
      Put(sys, t, v', th.(plan := th.plan[th.pos := e'], rel := rel, pos := th.pos + 1))
    case MapOne(t) =>
      var th := sys.threads[t];
      var (v', rel) := MapBlock(v, th.path, th.plan[th.pos], th.rel);
      Put(sys, t, v', th.(rel := rel, pos := th.pos + 1))
    case Grow(t) =>
      var th := sys.threads[t];
      Put(sys, t, GrowSize(v, th.path, (th.start + |th.blocks|) * BLOCK_SIZE), th.(pc := Releasing))
    case GiveBack(t) =>
      var th := sys.threads[t];
      var v' := Release(v, th.rel);
      if th.pc.Releasing? then Put(sys, t, v', IDLE)
      else if th.pc.HitReleasing? then Put(sys, t, v', th.(pc := Reverting, rel := []))
      else Put(sys, t, v', th.(pc := Resizing, rel := []))
    case UnhitOne(t) =>
      var th := sys.threads[t];
      var (v', rel) := Unhit(v, th.plan[th.pos], th.rel);
      Put(sys, t, v', th.(rel := rel, pos := th.pos + 1))
    case UnmissOne(t) =>
      var th := sys.threads[t];
      Put(sys, t, Unmiss(v, th.plan[th.pos]), th.(pos := th.pos + 1))
    case BeginUnlink(t, path) => Put(sys, t, v, RemoverThread(path, 0, RoundUp(v.sizes[path]), Forget))
    case BeginTruncate(t, path, size) =>
      Put(sys, t, v, RemoverThread(path, RoundUp(size), RoundUp(v.sizes[path]), Shrink(size)))
    case RemoveOne(t) =>
      var th := sys.threads[t];
      var (v', rel) := RemoveBlock(v, th.path, th.pos, th.rel);
      Put(sys, t, v', th.(rel := rel, pos := th.pos + 1))
    case Resize(t) =>
      var th := sys.threads[t];
      Put(sys, t, Resized(v, th.path, th.after), IDLE)
    case Advance(t) =>
      Put(sys, t, v, Advanced(sys.threads[t]))
  }

  /** unlink forgets the size; truncate lowers it, never raises it. */
  function Resized(v: Volume, path: Path, after: After): Volume {
    match after
    case Forget => v.(sizes := v.sizes - {path})
    case Shrink(size) => if path in v.sizes && size < v.sizes[path] then v.(sizes := v.sizes[path := size]) else v
  }

  // ---- Runs ----

  ghost predicate IsRun(H: Block -> Digest, run: seq<Sys>, acts: seq<Action>) {
    && |run| == |acts| + 1
    && forall i :: 0 <= i < |acts| ==> Enabled(run[i], acts[i]) && run[i + 1] == Apply(H, run[i], acts[i])
  }
}
