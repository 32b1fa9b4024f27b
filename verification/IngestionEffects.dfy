/**
 What ingestion has applied in every reachable state: key rotations and pauses before the block
 that carries them becomes consumable, observations, and finalized-target readiness.
 */
module IngestionEffects {
  import opened PortalEvents
  import opened DepositQueue
  import opened EncryptionKeys
  import opened BlockTracker
  import opened Ingestion
  import opened IngestionLockstep

  ghost predicate KeysBoundAt(w: World, ring: Ring, h: U64)
  {
    forall i :: 0 <= i < |w.block(h).events.rotations| ==> Applied(w.pub, ring, w.block(h).events.rotations[i])
  }

  ghost predicate PauseSeenAt(w: World, gate: Option<Pause>, h: U64)
  {
    w.block(h).events.pause.Some? ==> gate.Some? && gate.value.block.number >= h
  }

  /** Heights appended by backfill in this process. */
  predicate Appended(n: Node, h: U64)
  {
    n.start <= h <= Tip(n)
  }

  ghost predicate KeysOk(w: World, n: Node)
  {
    && WellKeyed(w.pub, n.ring)
    && (forall h: U64 :: Appended(n, h) ==> KeysBoundAt(w, n.ring, h))
    && (n.phase.Session? && (n.phase.pc.KeysApplied? || n.phase.pc.PauseApplied?) ==> KeysBoundAt(w, n.ring, n.phase.cursor))
  }

  ghost predicate OnChain(w: World, p: Pause)
  {
    p.block == w.block(p.block.number).Anchor() && p.paused == w.pausedAt(p.block.number)
  }

  ghost predicate PauseOk(w: World, n: Node)
  {
    && (n.t.pause.Some? ==> OnChain(w, n.t.pause.value))
    && (forall h: U64 :: Appended(n, h) ==> PauseSeenAt(w, n.t.pause, h))
    && (n.phase.Session? && n.phase.pc.PauseApplied? ==> PauseSeenAt(w, n.t.pause, n.phase.cursor))
  }

  /** Every appended height was observed, or was consumed before its observation was attempted. */
  ghost predicate HistoryOk(n: Node)
  {
    && (forall h: U64 :: Appended(n, h) ==>
          h in n.seen || h in n.skipped || (n.phase.Session? && n.phase.pc.Enqueued? && h == n.phase.cursor))
    && (forall h: U64 :: h in n.seen ==> n.t.latest.Some? && n.start <= h <= n.t.latest.value.number)
    && (forall h: U64 :: h in n.skipped ==> n.start <= h <= n.built)
  }

  /** The highest height whose enqueue and observation attempt are both over. */
  function Settled(n: Node): int
  {
    if n.phase.Session? && n.phase.pc.Enqueued? then n.phase.cursor - 1 else Tip(n)
  }

  ghost predicate TargetOk(n: Node)
  {
    && (n.target.Some? && n.target.value.ready ==> n.target.value.number <= Settled(n))
    && (n.phase.Session? && !n.phase.pc.Idle? ==> n.target.Some? && n.target.value.number >= n.phase.pc.finalized)
  }

  ghost predicate Effects(w: World, n: Node)
  {
    KeysOk(w, n) && PauseOk(w, n) && HistoryOk(n) && TargetOk(n)
  }

  // ---- Key rotations ----------------------------------------------------------------------------------

  lemma BindingsLast(w: World, ring: Ring, later: Ring, h: U64)
    requires KeysBoundAt(w, ring, h) && Extends(later, ring)
    ensures KeysBoundAt(w, later, h)
  {
  }

  lemma ApplyKeysStep(w: World, n: Node)
    requires KeysOk(w, n) && n.phase.Session? && n.phase.pc.Fetched?
    ensures KeysOk(w, Step(w, n, ApplyKeys))
  {
    var m := Step(w, n, ApplyKeys);
    var rotations := w.block(n.phase.cursor).events.rotations;
    RotationsOnlyExtend(w.pub, n.ring, rotations);
    forall h: U64 | Appended(n, h) ensures KeysBoundAt(w, m.ring, h) {
      BindingsLast(w, n.ring, m.ring, h);
    }
    if m.phase.Session? {
      RotationsBind(w.pub, n.ring, rotations);
    }
  }

  /** The tip moves only by enqueueing the block at the cursor. */
  lemma TipStep(w: World, n: Node, a: Action)
    requires Canonical(w) && Lockstep(w, n)
    ensures var m := Step(w, n, a);
            && m.start == n.start
            && Tip(m) == (if a.Enqueue? && n.phase.Session? && n.phase.pc.PauseApplied? then n.phase.cursor else Tip(n))
            && Tip(m) >= Tip(n)
  {
    hide ApplyRotations, TryEnqueueSealed, Record, Prune, ObservePause, RecordTarget, MarkReady, Taking, HasCapacityFor,
         TrackerOnChain;
    match a
    case Connect => if n.phase.Disconnected? { RecoverKeepsTip(w, n); }
    case Enqueue => if n.phase.Session? && n.phase.pc.PauseApplied? { CursorIsAppended(w, n); }
    case TakeWork(kind, anchor) => TakingShortens(n.q, kind, anchor);
    case _ =>
  }

  /** A block passes through key application, pause application and enqueueing in that order. */
  lemma ProgressStep(w: World, n: Node, a: Action)
    requires Canonical(w) && Lockstep(w, n)
    ensures var m := Step(w, n, a);
            && (!a.ApplyKeys? ==> m.ring == n.ring)
            && (!a.ApplyPause? && !a.PollPause? ==> m.t.pause == n.t.pause)
            && (m.phase.Session? && m.phase.pc.KeysApplied? && !a.ApplyKeys? ==> m.phase == n.phase)
            && (m.phase.Session? && m.phase.pc.PauseApplied? ==>
                  m.phase == n.phase || (a.ApplyPause? && n.phase == Session(m.phase.cursor, KeysApplied(m.phase.pc.finalized))))
            && (m.phase.Session? && m.phase.pc.Enqueued? ==>
                  m.phase == n.phase || (a.Enqueue? && n.phase == Session(m.phase.cursor, PauseApplied(m.phase.pc.finalized))))
  {
    hide ApplyRotations, TryEnqueueSealed, DeferThrough, ConfirmThrough, ConfirmOperational;
    if a.Connect? && n.phase.Disconnected? {
      RecoverKeepsTip(w, n);
    }
  }

  lemma KeysStep(w: World, n: Node, a: Action)
    requires Canonical(w) && Lockstep(w, n) && KeysOk(w, n)
    ensures KeysOk(w, Step(w, n, a))
  {
    if a.ApplyKeys? && n.phase.Session? && n.phase.pc.Fetched? {
      ApplyKeysStep(w, n);
    } else {
      TipStep(w, n, a);
      ProgressStep(w, n, a);
    }
  }

  // ---- The pause gate ------------------------------------------------------------------------------------

  /** An observation of the canonical chain is accepted, and the gate never goes back. */
  lemma GateAdvances(w: World, gate: Option<Pause>, number: U64)
    requires Canonical(w) && (gate.Some? ==> OnChain(w, gate.value))
    ensures var (after, r) := ObservePause(gate, w.block(number).Anchor(), w.pausedAt(number));
            && r.Ok? && after.Some? && OnChain(w, after.value) && after.value.block.number >= number
            && (gate.Some? ==> after.value.block.number >= gate.value.block.number)
  {
  }

  lemma GateStep(w: World, n: Node, a: Action)
    requires Canonical(w) && PauseOk(w, n)
    ensures var before, after := n.t.pause, Step(w, n, a).t.pause;
            && (after.Some? ==> OnChain(w, after.value))
            && (before.Some? ==> after.Some? && after.value.block.number >= before.value.block.number)
            && (a.ApplyPause? && n.phase.Session? && n.phase.pc.KeysApplied? ==> PauseSeenAt(w, after, n.phase.cursor))
            && (a.ApplyPause? && !n.phase.Dead? ==> !Step(w, n, a).phase.Dead?)
  {
    match a
    case ApplyPause => if n.phase.Session? { GateAdvances(w, n.t.pause, n.phase.cursor); }
    case PollPause(number) => GateAdvances(w, n.t.pause, number);
    case _ =>
  }

  lemma PauseStep(w: World, n: Node, a: Action)
    requires Canonical(w) && Lockstep(w, n) && PauseOk(w, n)
    ensures PauseOk(w, Step(w, n, a))
  {
    TipStep(w, n, a);
    ProgressStep(w, n, a);
    GateStep(w, n, a);
    var m := Step(w, n, a);
    forall h: U64 | Appended(m, h) ensures PauseSeenAt(w, m.t.pause, h) {
      if !Appended(n, h) {
        assert h == n.phase.cursor;
      }
      assert PauseSeenAt(w, n.t.pause, h);
    }
  }

  // ---- Observations and the finalized target ----------------------------------------------------------------

  lemma RecordHistory(w: World, n: Node, logs: Option<Logs>)
    requires Canonical(w) && Lockstep(w, n) && HistoryOk(n) && n.phase.Session? && n.phase.pc.Enqueued?
    ensures HistoryOk(Recording(w, n, logs))
  {
  }

  lemma HistoryFrame(w: World, n: Node, a: Action)
    requires Canonical(w) && Lockstep(w, n)
    requires !(a.RecordBlock? && n.phase.Session? && n.phase.pc.Enqueued?)
    ensures var m := Step(w, n, a);
            && m.seen == n.seen && m.skipped == n.skipped && m.t.latest == n.t.latest && m.built >= n.built
            && (n.phase.Session? && n.phase.pc.Enqueued? ==> m.phase == n.phase)
            && (a.Enqueue? && n.phase.Session? && n.phase.pc.PauseApplied? ==>
                  m.phase == Session(n.phase.cursor, Enqueued(n.phase.pc.finalized)))
  {
    hide ApplyRotations, TryEnqueueSealed, DeferThrough, ConfirmThrough, ConfirmOperational;
    if a.Enqueue? && n.phase.Session? && n.phase.pc.PauseApplied? {
      CursorIsAppended(w, n);
    }
  }

  lemma HistoryStep(w: World, n: Node, a: Action)
    requires Canonical(w) && Lockstep(w, n) && HistoryOk(n)
    ensures HistoryOk(Step(w, n, a))
  {
    if a.RecordBlock? && n.phase.Session? && n.phase.pc.Enqueued? {
      RecordHistory(w, n, a.logs);
    } else {
      TipStep(w, n, a);
      HistoryFrame(w, n, a);
    }
  }

  lemma SettledStep(w: World, n: Node, a: Action)
    requires Canonical(w) && Lockstep(w, n)
    ensures Settled(Step(w, n, a)) >= Settled(n)
  {
    TipStep(w, n, a);
    ProgressStep(w, n, a);
  }

  lemma TargetStep(w: World, n: Node, a: Action)
    requires Canonical(w) && Lockstep(w, n) && TargetOk(n)
    ensures TargetOk(Step(w, n, a))
    ensures n.target.Some? ==>
      var before, after := n.target.value, Step(w, n, a).target;
      && after.Some? && after.value.number >= before.number
      && (after.value.number > before.number ==> !after.value.ready)
      && (before.ready && after.value.number == before.number ==> after.value.ready)
  {
    hide ApplyRotations, TryEnqueueSealed, DeferThrough, ConfirmThrough, ConfirmOperational;
    SettledStep(w, n, a);
  }

  // ---- Whole runs -----------------------------------------------------------------------------------------

  lemma {:induction false} RunInvariant(w: World, n: Node, actions: seq<Action>)
    requires Canonical(w) && Lockstep(w, n) && Effects(w, n)
    ensures Lockstep(w, Run(w, n, actions)) && Effects(w, Run(w, n, actions))
    decreases |actions|
  {
    if actions == [] {
    } else {
      var a := actions[0];
      StepKeepsLockstep(w, n, a);
      KeysStep(w, n, a);
      PauseStep(w, n, a);
      HistoryStep(w, n, a);
      TargetStep(w, n, a);
      RunInvariant(w, Step(w, n, a), actions[1..]);
    }
  }

  lemma BootInvariant(w: World, checkpoint: U64, deferredStart: Option<U64>, candidates: map<PublicKey, SecretKey>)
    requires checkpoint < U64_MAX
    requires WellKeyed(w.pub, Ring(candidates, map[]))
    ensures var n := Boot(checkpoint, deferredStart, candidates);
            Lockstep(w, n) && Effects(w, n)
  {
  }
}
