/** Queue and tracker advance in lockstep in every reachable state of the ingestion machine. */
module IngestionLockstep {
  import opened PortalEvents
  import opened DepositQueue
  import opened EncryptionKeys
  import opened BlockTracker
  import opened Ingestion
  import Recovery = DeferredRecovery
  import TrackerRuns

  /** The highest height this node has ingested, or the checkpoint it started from. */
  function Tip(n: Node): int
  {
    if n.q.last.Some? then n.q.last.value.number else n.start - 1
  }

  // ---- The invariant, in parts ------------------------------------------------------------------------

  ghost predicate QueueOnChain(w: World, q: Queue)
  {
    && (q.last.None? ==> q == EMPTY)
    && (q.last.Some? ==> q.last.value == w.block(q.last.value.number).Anchor())
    && (forall i :: 0 <= i < |q.pending| ==> q.pending[i].Number() <= q.last.value.number)
  }

  ghost predicate Marks(n: Node)
  {
    1 <= n.start && n.start - 1 <= n.checkpoint <= n.built <= Tip(n) < U64_MAX
  }

  ghost predicate TrackerOnChain(w: World, n: Node)
  {
    && TrackerRuns.Interval(n.t)
    && (n.t.pruned.Some? ==> n.t.pruned.value <= n.built)
    && (n.t.latest.Some? ==> n.q.last.Some? && n.t.latest.value == w.block(n.t.latest.value.number).Anchor())
    && (forall h :: h in n.t.observed ==> n.t.observed[h].hash == w.block(h).Anchor().hash)
  }

  /** Queue and tracker stand at the same height, up to the one block between enqueue and record. */
  ghost predicate Aligned(n: Node, height: int)
  {
    if n.t.latest.Some? then n.t.latest.value.number == height
    else n.t.pruned.Some? && n.t.pruned.value == height
  }

  ghost predicate PhaseOk(n: Node)
  {
    match n.phase
    case Session(cursor, pc) =>
      && n.t.pruned.Some? && n.start <= cursor
      && (pc.Idle? || pc.finalized < U64_MAX)
      && (pc.Idle? || pc.Backfilling? || HasCapacityFor(n.t, cursor))
      && (pc.Idle? || pc.Backfilling? || cursor <= pc.finalized)
      && if pc.Enqueued? then
           && n.q.last.Some? && Tip(n) == cursor
           && (n.t.latest.Some? ==> n.t.latest.value.number == cursor - 1)
           && (n.t.latest.None? ==> n.t.pruned.value >= cursor - 1)
         else
           cursor == Tip(n) + 1 && Aligned(n, Tip(n))
    case _ =>
      n.q.last.Some? ==> Aligned(n, Tip(n))
  }

  ghost predicate Lockstep(w: World, n: Node)
  {
    QueueOnChain(w, n.q) && Marks(n) && TrackerOnChain(w, n) && PhaseOk(n)
  }

  // ---- The subscriber's steps -------------------------------------------------------------------------

  lemma RecoverKeepsTip(w: World, n: Node)
    requires Canonical(w) && Lockstep(w, n) && n.phase.Disconnected?
    ensures var (q, outcome) := Recovery.Recover(n.q, n.deferredStart, w.block(n.checkpoint).Anchor(), w.block);
            && (outcome.Skipped? || outcome.Recovered?)
            && QueueOnChain(w, q)
            && Tip(n.(q := q)) == Tip(n)
  {
  }

  /** From every disconnected state the node resumes at the successor of its tip. */
  lemma ConnectKeepsLockstep(w: World, n: Node)
    requires Canonical(w) && Lockstep(w, n) && n.phase.Disconnected?
    ensures Lockstep(w, Connecting(w, n))
    ensures Connecting(w, n).phase == Session(Tip(n) + 1, Idle)
  {
    RecoverKeepsTip(w, n);
    TrackerRuns.StepKeepsInterval(n.t, TrackerRuns.DoInitialize(n.checkpoint));
  }

  /** The block at the cursor is always the one the queue appends. */
  lemma CursorIsAppended(w: World, n: Node)
    requires Canonical(w) && Lockstep(w, n) && n.phase.Session? && n.phase.pc.PauseApplied?
    ensures var block := w.block(n.phase.cursor);
            TryEnqueueSealed(n.q, block)
            == (Queue(n.q.pending + [block], n.q.deferred, Some(block.Anchor())), Ok(true))
  {
  }

  lemma EnqueueKeepsLockstep(w: World, n: Node)
    requires Canonical(w) && Lockstep(w, n) && n.phase.Session? && n.phase.pc.PauseApplied?
    ensures Lockstep(w, Enqueueing(w, n))
    ensures Enqueueing(w, n).phase == n.phase.(pc := Enqueued(n.phase.pc.finalized))
  {
  }

  /**
   Recording the block just enqueued succeeds, except in one race: nothing was observed yet and the
   consumer already released the block.
   */
  lemma CursorIsRecordedExactly(w: World, n: Node, logs: Option<Logs>)
    requires Canonical(w) && Lockstep(w, n) && n.phase.Session? && n.phase.pc.Enqueued?
    ensures var block := w.block(n.phase.cursor);
            var (t, r) := Record(n.t, block.Anchor(), block.events, logs);
            && (r.Ok? <==> !(n.t.latest.None? && n.t.pruned.value == n.phase.cursor))
            && (r.Ok? ==> t.latest == Some(block.Anchor()) && n.phase.cursor in t.observed)
            && (r.Err? ==> r.error == NonContiguousFirst && t == n.t)
  {
  }

  lemma RecordKeepsLockstep(w: World, n: Node, logs: Option<Logs>)
    requires Canonical(w) && Lockstep(w, n) && n.phase.Session? && n.phase.pc.Enqueued?
    ensures Lockstep(w, Recording(w, n, logs))
  {
    var block := w.block(n.phase.cursor);
    CursorIsRecordedExactly(w, n, logs);
    TrackerRuns.StepKeepsInterval(n.t, TrackerRuns.DoRecord(block.Anchor(), block.events, logs));
  }

  // ---- The consumer's steps ------------------------------------------------------------------------------

  lemma TakingShortens(q: Queue, kind: Import, anchor: NumHash)
    ensures var after := Taking(q, kind, anchor);
            after.last == q.last && exists k :: 0 <= k <= |q.pending| && after.pending == q.pending[k..]
  {
    var k := if kind.LeaderFull? then (if ConfirmOperational(q, anchor).1.Ok? then 1 else 0) else Passed(q.pending, anchor);
    assert Taking(q, kind, anchor).pending == q.pending[k..];
  }

  lemma TakeWorkKeepsLockstep(w: World, n: Node, kind: Import, anchor: NumHash)
    requires Lockstep(w, n)
    ensures Lockstep(w, Step(w, n, TakeWork(kind, anchor)))
  {
    TakingShortens(n.q, kind, anchor);
  }

  lemma ReleaseKeepsLockstep(w: World, n: Node, number: U64)
    requires Lockstep(w, n) && number <= n.built
    ensures Lockstep(w, n.(t := Prune(n.t, number)))
  {
    TrackerRuns.StepKeepsInterval(n.t, TrackerRuns.DoPrune(number));
  }

  // ---- Whole runs -------------------------------------------------------------------------------------------

  lemma TargetStepKeepsLockstep(w: World, n: Node, a: Action)
    requires Lockstep(w, n) && (a.ReadFinalized? || a.Refresh? || a.Drop?)
    ensures Lockstep(w, Step(w, n, a))
  {
    hide TrackerRuns.Interval, RecordTarget, MarkReady, HasCapacityFor;
  }

  lemma BlockStepKeepsLockstep(w: World, n: Node, a: Action)
    requires Lockstep(w, n) && (a.Fetch? || a.ApplyKeys? || a.ApplyPause?)
    ensures Lockstep(w, Step(w, n, a))
  {
  }

  lemma SessionStepKeepsLockstep(w: World, n: Node, a: Action)
    requires Canonical(w) && Lockstep(w, n) && (a.Connect? || a.Enqueue? || a.RecordBlock?)
    ensures Lockstep(w, Step(w, n, a))
  {
    hide Recording, Enqueueing, Connecting, Lockstep;
    match a
    case Connect => if n.phase.Disconnected? { ConnectKeepsLockstep(w, n); }
    case Enqueue => if n.phase.Session? && n.phase.pc.PauseApplied? { EnqueueKeepsLockstep(w, n); }
    case RecordBlock(logs) => if n.phase.Session? && n.phase.pc.Enqueued? { RecordKeepsLockstep(w, n, logs); }
  }

  lemma ConsumerStepKeepsLockstep(w: World, n: Node, a: Action)
    requires Lockstep(w, n) && (a.Build? || a.TakeWork? || a.Release? || a.Canonicalize? || a.PollPause?)
    ensures Lockstep(w, Step(w, n, a))
  {
    hide Prune, ObservePause, Taking;
    match a
    case TakeWork(kind, anchor) => TakeWorkKeepsLockstep(w, n, kind, anchor);
    case Release(number) => if number <= n.built { ReleaseKeepsLockstep(w, n, number); }
    case _ =>
  }

  lemma StepKeepsLockstep(w: World, n: Node, a: Action)
    requires Canonical(w) && Lockstep(w, n)
    ensures Lockstep(w, Step(w, n, a))
  {
    hide Step, Lockstep, Canonical;
    if a.Connect? || a.Enqueue? || a.RecordBlock? {
      SessionStepKeepsLockstep(w, n, a);
    } else if a.ReadFinalized? || a.Refresh? || a.Drop? {
      TargetStepKeepsLockstep(w, n, a);
    } else if a.Fetch? || a.ApplyKeys? || a.ApplyPause? {
      BlockStepKeepsLockstep(w, n, a);
    } else {
      ConsumerStepKeepsLockstep(w, n, a);
    }
  }
}
