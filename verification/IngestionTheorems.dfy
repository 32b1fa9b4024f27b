/** The main results about ingestion, over every run of the machine from every boot. */
module IngestionTheorems {
  import opened PortalEvents
  import opened DepositQueue
  import opened EncryptionKeys
  import opened BlockTracker
  import opened Ingestion
  import opened IngestionLockstep
  import opened IngestionEffects
  import TrackerRuns

  ghost predicate BootsWell(w: World, n: Node)
  {
    && Canonical(w)
    && n == Boot(n.checkpoint, n.deferredStart, n.ring.candidates)
    && n.checkpoint < U64_MAX
    && WellKeyed(w.pub, n.ring)
  }

  /** The node has opened a session whose cursor is `height`. */
  predicate Resumes(n: Node, height: int)
  {
    n.phase.Session? && n.phase.pc.Idle? && n.phase.cursor == height
  }

  lemma Reaches(w: World, boot: Node, actions: seq<Action>)
    requires BootsWell(w, boot)
    ensures Lockstep(w, Run(w, boot, actions)) && Effects(w, Run(w, boot, actions))
  {
    BootInvariant(w, boot.checkpoint, boot.deferredStart, boot.ring.candidates);
    RunInvariant(w, boot, actions);
  }

  /**
   Ingestion never wedges. A disconnected node always resumes at the successor of its tip, the queue
   always appends the block at the cursor, and the tracker records it unless nothing was observed
   yet and the consumer released that very block between the two steps.
   */
  lemma IngestionNeverWedges(w: World, boot: Node, actions: seq<Action>, logs: Option<Logs>)
    requires BootsWell(w, boot)
    ensures var n := Run(w, boot, actions);
            && (n.phase.Disconnected? ==> Resumes(Step(w, n, Connect), Tip(n) + 1))
            && (n.phase.Session? && n.phase.pc.PauseApplied? ==>
                  TryEnqueueSealed(n.q, w.block(n.phase.cursor)).1 == Ok(true))
            && (n.phase.Session? && n.phase.pc.Enqueued? ==>
                  (Step(w, n, RecordBlock(logs)).phase.Session?
                   <==> !(n.t.latest.None? && n.t.pruned == Some(n.phase.cursor))))
  {
    Reaches(w, boot, actions);
    var n := Run(w, boot, actions);
    if n.phase.Disconnected? {
      ConnectKeepsLockstep(w, n);
    } else if n.phase.Session? && n.phase.pc.PauseApplied? {
      CursorIsAppended(w, n);
    } else if n.phase.Session? && n.phase.pc.Enqueued? {
      CursorIsRecordedExactly(w, n, logs);
    }
  }

  /** The subscriber has a block to fetch and waits only for the consumer to free capacity. */
  predicate WaitsForCapacity(n: Node)
  {
    && n.phase.Session? && n.phase.pc.Backfilling? && n.phase.cursor <= n.phase.pc.finalized
    && !HasCapacityFor(n.t, n.phase.cursor)
  }

  /**
   A full lookahead is no deadlock. Ingested blocks are left that the consumer has not released, and
   once it has built on them and released them the fetch goes ahead.
   */
  lemma FullLookaheadIsReleasable(w: World, boot: Node, actions: seq<Action>)
    requires BootsWell(w, boot)
    ensures var n := Run(w, boot, actions);
            WaitsForCapacity(n) ==>
            && n.q.last.Some? && n.t.pruned.Some?
            && n.t.pruned.value + MAX_L1_LOOKAHEAD_BLOCKS <= n.q.last.value.number
            && var m := Step(w, Step(w, n, Build(n.q.last.value.number)), Release(n.q.last.value.number));
               Step(w, m, Fetch).phase == Session(n.phase.cursor, Fetched(n.phase.pc.finalized))
  {
    Reaches(w, boot, actions);
    var n := Run(w, boot, actions);
    hide Run, Canonical, Effects, QueueOnChain, TrackerRuns.Interval;
    if WaitsForCapacity(n) {
      var tip := n.q.last.value.number;
      var m := Step(w, n, Build(tip));
      assert m == n.(built := if n.built < tip then tip else n.built);
      assert Step(w, m, Release(tip)) == m.(t := Prune(m.t, tip));
    }
  }

  /** A node that lost that race resumes one block later, where the tracker accepts the record. */
  lemma LosingTheRaceCostsOneObservation(w: World, boot: Node, actions: seq<Action>, logs: Option<Logs>)
    requires BootsWell(w, boot)
    requires var n := Run(w, boot, actions);
             n.phase.Session? && n.phase.pc.Enqueued? && n.t.latest.None? && n.t.pruned == Some(n.phase.cursor)
    ensures var n := Run(w, boot, actions);
            var m := Step(w, Step(w, n, RecordBlock(logs)), Connect);
            && Resumes(m, n.phase.cursor + 1)
            && NextObservation(m.t) == Some(m.phase.cursor)
            && n.phase.cursor in m.skipped && n.phase.cursor <= m.built
  {
    Reaches(w, boot, actions);
    var n := Run(w, boot, actions);
    CursorIsRecordedExactly(w, n, logs);
    RecordKeepsLockstep(w, n, logs);
    ConnectKeepsLockstep(w, Step(w, n, RecordBlock(logs)));
  }

  /** A successful wait means the queue has been given every block through that anchor. */
  lemma ObservedOnlyAfterEnqueued(w: World, boot: Node, actions: seq<Action>, block: NumHash)
    requires BootsWell(w, boot)
    ensures var n := Run(w, boot, actions);
            && (Wait(n.t, block).Found? ==> n.q.last.Some? && block.number <= n.q.last.value.number)
            && (Wait(n.t, block).Found? ==> block == w.block(block.number).Anchor())
            && Wait(n.t, block) != MissingBelowLatest
  {
    Reaches(w, boot, actions);
    var n := Run(w, boot, actions);
    assert w.block(block.number).Number() == block.number;
  }

  /**
   Every rotation and every pause of a block appended by backfill was applied before the append,
   and applying that block's effects again changes neither the key ring nor the gate.
   */
  lemma EffectsPrecedeAppendAndRepeatSafely(w: World, boot: Node, actions: seq<Action>, h: U64)
    requires BootsWell(w, boot)
    ensures var n := Run(w, boot, actions);
            var events := w.block(h).events;
            Appended(n, h) ==>
            && ApplyRotations(w.pub, n.ring, events.rotations) == (n.ring, Ok(()))
            && (events.pause.Some? ==>
                  ObservePause(n.t.pause, w.block(h).Anchor(), events.pause.value) == (n.t.pause, Ok(false)))
  {
    Reaches(w, boot, actions);
    var n := Run(w, boot, actions);
    if Appended(n, h) {
      assert KeysBoundAt(w, n.ring, h) && PauseSeenAt(w, n.t.pause, h);
      ReapplyingExactly(w.pub, n.ring, w.block(h).events.rotations);
      assert w.block(h).Number() == h;
    }
  }

  lemma {:induction false} StartIsFixed(w: World, n: Node, actions: seq<Action>)
    requires Canonical(w) && Lockstep(w, n)
    ensures Run(w, n, actions).start == n.start
    decreases |actions|
  {
    if actions == [] {
    } else {
      TipStep(w, n, actions[0]);
      StepKeepsLockstep(w, n, actions[0]);
      StartIsFixed(w, Step(w, n, actions[0]), actions[1..]);
    }
  }

  /**
   A ready target has had every height from the starting cursor through it enqueued. Each of those
   was also observed, or had already been consumed when its observation was attempted.
   */
  lemma ReadyTargetsAreIngested(w: World, boot: Node, actions: seq<Action>, h: U64)
    requires BootsWell(w, boot)
    ensures var n := Run(w, boot, actions);
            n.target.Some? && n.target.value.ready && boot.start <= h <= n.target.value.number ==>
            && n.q.last.Some? && h <= n.q.last.value.number
            && (h in n.seen || (h in n.skipped && h <= n.built))
  {
    Reaches(w, boot, actions);
    StartIsFixed(w, boot, actions);
    var n := Run(w, boot, actions);
    if n.target.Some? && n.target.value.ready && boot.start <= h <= n.target.value.number {
      assert Appended(n, h);
    }
  }

  lemma {:induction false} TargetsKeepRising(w: World, n: Node, more: seq<Action>)
    requires Canonical(w) && Lockstep(w, n) && TargetOk(n) && n.target.Some?
    ensures var after := Run(w, n, more).target;
            after.Some? && after.value.number >= n.target.value.number
    decreases |more|
  {
    if more == [] {
    } else {
      StepKeepsLockstep(w, n, more[0]);
      TargetStep(w, n, more[0]);
      TargetsKeepRising(w, Step(w, n, more[0]), more[1..]);
    }
  }

  /** Over any continuation, announced targets never decrease, and a raised one is not ready yet. */
  lemma {:induction false} TargetsNeverDecrease(w: World, boot: Node, actions: seq<Action>, more: seq<Action>)
    requires BootsWell(w, boot) && Run(w, boot, actions).target.Some?
    ensures var before := Run(w, boot, actions).target.value;
            var after := Run(w, Run(w, boot, actions), more).target;
            after.Some? && after.value.number >= before.number
    ensures forall a: Action ::
              var before := Run(w, boot, actions).target.value;
              var after := Step(w, Run(w, boot, actions), a).target;
              after.Some? && (after.value.number > before.number ==> !after.value.ready)
  {
    Reaches(w, boot, actions);
    var n := Run(w, boot, actions);
    TargetsKeepRising(w, n, more);
    forall a: Action
      ensures var after := Step(w, n, a).target;
              after.Some? && (after.value.number > n.target.value.number ==> !after.value.ready)
    {
      TargetStep(w, n, a);
    }
  }

  // ---- The race happens ------------------------------------------------------------------------------------

  /** A chain of empty blocks. */
  function EmptyChain(): World
  {
    World((n: U64) => Block(Header(NumHash(n, n), if n == 0 then 0 else n - 1, 0), NO_EVENTS),
          (n: U64) => false, (k: SecretKey) => PublicKey(k, 2))
  }

  /** The node after the subscriber enqueued block 1 and before it records it. */
  function EnqueuedOne(): Node
  {
    Boot(0, None, map[]).(
      q := Queue([EmptyChain().block(1)], None, Some(NumHash(1, 1))),
      t := FRESH.(pruned := Some(0)),
      target := Some(Target(1, false)),
      phase := Session(1, Enqueued(1)))
  }

  lemma RunOf3(w: World, n: Node, a: Action, b: Action, c: Action, rest: seq<Action>)
    ensures Run(w, n, [a, b, c] + rest) == Run(w, Step(w, Step(w, Step(w, n, a), b), c), rest)
    ensures [a, b, c] + [] == [a, b, c]
  {
    var all := [a, b, c] + rest;
    var n1 := Step(w, n, a);
    assert all[1..] == [b, c] + rest;
    assert all[1..][1..] == [c] + rest;
    assert all[1..][1..][1..] == rest;
    assert Run(w, n, all) == Run(w, n1, all[1..]);
    assert Run(w, n1, all[1..]) == Run(w, Step(w, n1, b), all[1..][1..]);
  }

  lemma RaceUpToEnqueue()
    ensures var w := EmptyChain();
            Run(w, Boot(0, None, map[]), [Connect, ReadFinalized(1), Fetch, ApplyKeys, ApplyPause, Enqueue]) == EnqueuedOne()
  {
    var w, boot := EmptyChain(), Boot(0, None, map[]);
    var n1 := boot.(t := FRESH.(pruned := Some(0)), phase := Session(1, Idle));
    assert Step(w, boot, Connect) == n1;
    var n2 := n1.(target := Some(Target(1, false)), phase := Session(1, Backfilling(1)));
    assert Step(w, n1, ReadFinalized(1)) == n2;
    var n5 := n2.(phase := Session(1, PauseApplied(1)));
    assert Step(w, Step(w, Step(w, n2, Fetch), ApplyKeys), ApplyPause) == n5;
    assert Step(w, n5, Enqueue) == EnqueuedOne();
    RunOf3(w, boot, Connect, ReadFinalized(1), Fetch, [ApplyKeys, ApplyPause, Enqueue]);
    RunOf3(w, Step(w, n2, Fetch), ApplyKeys, ApplyPause, Enqueue, []);
  }

  lemma RaceAfterEnqueue()
    ensures var n := Run(EmptyChain(), EnqueuedOne(), [Build(1), Release(1), RecordBlock(None)]);
            n.phase.Disconnected? && n.q.last == Some(NumHash(1, 1)) && n.t.latest.None? && n.skipped == {1}
  {
    var w, n := EmptyChain(), EnqueuedOne();
    var released := Step(w, Step(w, n, Build(1)), Release(1));
    assert released.t.pruned == Some(1) && released.t.latest.None? && released.t.observed == map[];
    RunOf3(w, n, Build(1), Release(1), RecordBlock(None), []);
  }

  lemma EmptyChainIsCanonical()
    ensures Canonical(EmptyChain())
  {
  }

  /** The first block is enqueued, built on and released before the subscriber records it. */
  lemma RaceExample()
    ensures var w, boot := EmptyChain(), Boot(0, None, map[]);
            var n := Run(w, Run(w, boot, [Connect, ReadFinalized(1), Fetch, ApplyKeys, ApplyPause, Enqueue]),
                         [Build(1), Release(1), RecordBlock(None)]);
            && BootsWell(w, boot)
            && n.phase.Disconnected? && n.q.last == Some(NumHash(1, 1)) && n.t.latest.None? && n.skipped == {1}
  {
    RaceUpToEnqueue();
    RaceAfterEnqueue();
    EmptyChainIsCanonical();
  }
}
