/** Invariants of the block tracker under any order of its operations. */
module TrackerRuns {
  import opened PortalEvents
  import opened BlockTracker

  datatype Op =
    | DoRecord(block: NumHash, events: Events, logs: Option<Logs>)
    | DoPrune(number: U64)
    | DoInitialize(number: U64)

  function Step(t: Tracker, op: Op): Tracker
  {
    match op
    case DoRecord(block, events, logs) => Record(t, block, events, logs).0
    case DoPrune(number) => Prune(t, number)
    case DoInitialize(number) => InitializeConsumed(t, number)
  }

  function Run(t: Tracker, ops: seq<Op>): Tracker
    decreases |ops|
  {
    if ops == [] then t else Run(Step(t, ops[0]), ops[1..])
  }

  /**
   The observed heights are one interval that ends at the latest anchor and leaves no unconsumed
   height below it, and the latest anchor is within the lookahead bound of the watermark.
   */
  ghost predicate Interval(t: Tracker)
  {
    if t.latest.None? then t.observed == map[]
    else
      var latest := t.latest.value;
      && t.pruned.Some?
      && (forall h :: h in t.observed ==> h <= latest.number)
      && (forall g, h :: h in t.observed && h <= g <= latest.number ==> g in t.observed)
      && (forall g :: t.pruned.value < g <= latest.number ==> g in t.observed)
      && (latest.number in t.observed ==> t.observed[latest.number].hash == latest.hash)
      && latest.number <= SaturatingAdd(t.pruned.value, MAX_L1_LOOKAHEAD_BLOCKS)
  }

  lemma StepKeepsInterval(t: Tracker, op: Op)
    requires Interval(t)
    ensures Interval(Step(t, op))
  {
  }

  lemma {:induction false} RunKeepsInterval(t: Tracker, ops: seq<Op>)
    requires Interval(t)
    ensures Interval(Run(t, ops))
    decreases |ops|
  {
    if ops == [] {
    } else {
      StepKeepsInterval(t, ops[0]);
      RunKeepsInterval(Step(t, ops[0]), ops[1..]);
    }
  }

  /**
   Under any order of operations: a waiter never sees a block missing below the latest height, it
   keeps waiting exactly for heights above both the latest observation and the watermark, and the
   latest observation stays within the lookahead bound.
   */
  lemma WaitersNeverSeeAGap(ops: seq<Op>, block: NumHash)
    ensures var t := Run(FRESH, ops);
            && Wait(t, block) != MissingBelowLatest
            && (Wait(t, block) == KeepWaiting <==>
                  && (t.latest.Some? ==> block.number > t.latest.value.number)
                  && (t.pruned.Some? ==> block.number > t.pruned.value))
            && (t.latest.Some? ==> t.pruned.Some?)
            && (t.latest.Some? ==>
                  t.latest.value.number <= SaturatingAdd(t.pruned.value, 7_200))
  {
    RunKeepsInterval(FRESH, ops);
  }

  /** Once there is a watermark, granted capacity is never withdrawn, whatever happens next. */
  lemma {:induction false} CapacityIsNeverWithdrawn(t: Tracker, ops: seq<Op>, number: U64)
    requires t.pruned.Some? && HasCapacityFor(t, number)
    ensures HasCapacityFor(Run(t, ops), number)
    decreases |ops|
  {
    if ops == [] {
    } else {
      CapacityIsNeverWithdrawn(Step(t, ops[0]), ops[1..], number);
    }
  }

  lemma FirstWindowAlwaysFits(t: Tracker, number: U64)
    requires number <= MAX_L1_LOOKAHEAD_BLOCKS
    ensures HasCapacityFor(t, number)
  {
  }

  predicate HasCapacityAfter(t: Tracker, ops: seq<Op>, number: U64)
  {
    HasCapacityFor(Run(t, ops), number)
  }

  /** Granted capacity survives every run exactly if there is a watermark or the height is within the first window. */
  lemma CapacityLastsExactly(t: Tracker, number: U64)
    requires HasCapacityFor(t, number)
    ensures (forall ops :: HasCapacityAfter(t, ops, number))
       <==> t.pruned.Some? || number <= 7_200
  {
    if t.pruned.Some? {
      forall ops ensures HasCapacityAfter(t, ops, number) { CapacityIsNeverWithdrawn(t, ops, number); }
    } else if number <= MAX_L1_LOOKAHEAD_BLOCKS {
      forall ops ensures HasCapacityAfter(t, ops, number) { FirstWindowAlwaysFits(Run(t, ops), number); }
    } else {
      assert [DoPrune(0)][1..] == [];
      assert !HasCapacityAfter(t, [DoPrune(0)], number);
    }
  }

  /** A record that follows a granted capacity never fails on the lookahead bound. */
  lemma GrantedCapacitySuffices(t: Tracker, ops: seq<Op>, block: NumHash, events: Events, logs: Option<Logs>)
    requires t.pruned.Some? && HasCapacityFor(t, block.number)
    ensures Record(Run(t, ops), block, events, logs).1 != Err(LookaheadExceeded)
  {
    CapacityIsNeverWithdrawn(t, ops, block.number);
  }

  /** Without a watermark every height has capacity, and the first record takes it away again. */
  lemma CapacityBeforeInitializationExample()
    ensures HasCapacityFor(FRESH, 8_000)
    ensures !HasCapacityFor(Run(FRESH, [DoRecord(NumHash(5, 0), NO_EVENTS, None)]), 8_000)
  {
  }

  // ---- Evidence --------------------------------------------------------------------------------------

  /** All evidence the tracker can still return: retained observations and recently consumed ones. */
  function Available(t: Tracker): map<U64, Evidence>
  {
    t.recent + ObservedEvidence(t)
  }

  ghost predicate EvidenceOrdered(t: Tracker)
  {
    && (t.latest.None? ==> t.recent == map[])
    && (forall h :: h in t.recent ==> h <= t.latest.value.number && t.recent[h].block.number == h)
    && (forall g, h :: g in t.recent && h in t.observed ==> g < h)
    && (forall g, h :: g in t.recent && h in t.recent ==> h - g < 256)
    && (forall h :: h in t.observed && t.observed[h].evidence.Some? ==>
          t.observed[h].evidence.value.block == NumHash(h, t.observed[h].hash))
  }

  ghost predicate Valid(t: Tracker)
  {
    Interval(t) && EvidenceOrdered(t)
  }

  /** The latest height has a successor. Saturation makes the last u64 height its own successor. */
  predicate HasSuccessor(t: Tracker)
  {
    t.latest.Some? ==> t.latest.value.number < U64_MAX
  }

  lemma PruneKeepsEvidenceOrdered(t: Tracker, number: U64)
    requires Valid(t)
    ensures EvidenceOrdered(Prune(t, number))
  {
  }

  lemma StepKeepsValid(t: Tracker, op: Op)
    requires Valid(t) && HasSuccessor(t)
    ensures Valid(Step(t, op))
  {
    StepKeepsInterval(t, op);
    if op.DoPrune? {
      PruneKeepsEvidenceOrdered(t, op.number);
    }
  }

  predicate BelowLastHeight(op: Op)
  {
    op.DoRecord? ==> op.block.number < U64_MAX
  }

  predicate AllBelowLastHeight(ops: seq<Op>)
  {
    forall i :: 0 <= i < |ops| ==> BelowLastHeight(ops[i])
  }

  lemma {:induction false} RunKeepsValid(t: Tracker, ops: seq<Op>)
    requires Valid(t) && HasSuccessor(t) && AllBelowLastHeight(ops)
    ensures Valid(Run(t, ops)) && HasSuccessor(Run(t, ops))
    decreases |ops|
  {
    if ops == [] {
    } else {
      StepKeepsValid(t, ops[0]);
      RunKeepsValid(Step(t, ops[0]), ops[1..]);
    }
  }

  lemma {:induction false} LeastHeight(heights: set<U64>) returns (least: U64)
    requires heights != {}
    ensures least in heights && forall h :: h in heights ==> least <= h
  {
    least :| least in heights;
    var others := heights - {least};
    assert forall h :: h in heights ==> h == least || h in others;
    if others != {} {
      var other := LeastHeight(others);
      if other < least {
        least := other;
      }
    }
  }

  lemma {:induction false} WindowSize(heights: set<U64>, low: U64, size: nat)
    requires forall h :: h in heights ==> low <= h < low + size
    ensures |heights| <= size
    decreases size
  {
    if size == 0 {
      assert heights == {};
    } else {
      var top := low + size - 1;
      if top <= U64_MAX {
        WindowSize(heights - {top}, low, size - 1);
      } else {
        WindowSize(heights, low, size - 1);
      }
    }
  }

  lemma CacheFitsItsWindow(t: Tracker)
    requires Valid(t)
    ensures |t.recent| <= 256
  {
    if t.recent.Keys != {} {
      var least := LeastHeight(t.recent.Keys);
      WindowSize(t.recent.Keys, least, 256);
    }
  }

  /** After any operations on a fresh tracker the consumed-evidence cache holds at most 256 blocks. */
  lemma RecentEvidenceIsBounded(ops: seq<Op>)
    requires AllBelowLastHeight(ops)
    ensures |Run(FRESH, ops).recent| <= 256
  {
    RunKeepsValid(FRESH, ops);
    CacheFitsItsWindow(Run(FRESH, ops));
  }

  lemma PruneAt(t: Tracker, number: U64, h: U64)
    requires Valid(t)
    ensures var n := Prune(t, number);
            && (h in Available(n) <==> h in Available(t) && h > SaturatingSub(number, 256))
            && (h in Available(n) ==> Available(n)[h] == Available(t)[h])
  {
  }

  /**
   The two-tier store behaves as one map. Pruning through `number` forgets exactly the heights at
   most `number - 256`, wherever they were kept.
   */
  lemma PruneForgetsOneWindow(t: Tracker, number: U64)
    requires Valid(t)
    ensures Available(Prune(t, number))
         == map h | h in Available(t) && h > SaturatingSub(number, 256) :: Available(t)[h]
  {
    hide Available, Prune, Valid;
    var n := Prune(t, number);
    forall h: U64
      ensures h in Available(n) <==> h in Available(t) && h > SaturatingSub(number, 256)
      ensures h in Available(n) ==> Available(n)[h] == Available(t)[h]
    {
      PruneAt(t, number, h);
    }
  }

  lemma NewHeightIsFresh(t: Tracker, block: NumHash, events: Events, logs: Option<Logs>)
    requires Valid(t) && HasSuccessor(t) && Record(t, block, events, logs).0.latest != t.latest
    ensures block.number !in t.recent && block.number !in t.observed
  {
  }

  lemma ObservingAddsEvidence(t: Tracker, number: U64, o: Observation)
    requires number !in t.observed && number !in t.recent
    ensures Available(t.(observed := t.observed[number := o]))
         == if o.evidence.Some? then Available(t)[number := o.evidence.value] else Available(t)
  {
  }

  /** Recording a new block adds its evidence and disturbs no other; other records add nothing. */
  lemma RecordAddsEvidence(t: Tracker, block: NumHash, events: Events, logs: Option<Logs>)
    requires Valid(t) && HasSuccessor(t)
    ensures var n := Record(t, block, events, logs).0;
            Available(n) == if n.latest != t.latest && logs.Some?
                            then Available(t)[block.number := Evidence(block, logs.value)]
                            else Available(t)
  {
    if Record(t, block, events, logs).0.latest != t.latest {
      NewHeightIsFresh(t, block, events, logs);
      var evidence := if logs.Some? then Some(Evidence(block, logs.value)) else None;
      ObservingAddsEvidence(t, block.number, Observation(block.hash, events, evidence));
    }
  }

  /** A lookup returns exactly the recorded evidence of the named block while it is available. */
  lemma LookupReadsAvailable(t: Tracker, block: NumHash, evidence: Evidence)
    requires Valid(t)
    ensures AuthenticatedLogs(t, block) == Ok(Some(evidence))
       <==> block.number in Available(t) && Available(t)[block.number] == evidence && evidence.block == block
  {
  }

  predicate Spares(op: Op, height: U64)
  {
    op.DoPrune? ==> height > SaturatingSub(op.number, 256)
  }

  lemma StepOnEvidence(t: Tracker, op: Op, height: U64)
    requires Valid(t) && HasSuccessor(t) && BelowLastHeight(op)
    requires t.latest.Some? && height <= t.latest.value.number
    ensures var n := Step(t, op);
            && Valid(n) && HasSuccessor(n)
            && n.latest.Some? && height <= n.latest.value.number
            && (height in Available(n) <==> height in Available(t) && Spares(op, height))
            && (height in Available(n) ==> Available(n)[height] == Available(t)[height])
  {
    StepKeepsValid(t, op);
    match op
    case DoRecord(block, events, logs) => RecordAddsEvidence(t, block, events, logs);
    case DoPrune(number) => PruneForgetsOneWindow(t, number);
    case DoInitialize(_) =>
  }

  /** Which of `ops` leave evidence at `height` within the window. */
  predicate AllSpare(ops: seq<Op>, height: U64)
  {
    forall i :: 0 <= i < |ops| ==> Spares(ops[i], height)
  }

  lemma {:induction false} KeptWhileSpared(t: Tracker, ops: seq<Op>, height: U64)
    requires Valid(t) && HasSuccessor(t) && t.latest.Some? && height <= t.latest.value.number
    requires AllBelowLastHeight(ops)
    ensures var n := Run(t, ops);
            && (height in Available(n) <==> height in Available(t) && AllSpare(ops, height))
            && (height in Available(n) ==> Available(n)[height] == Available(t)[height])
    decreases |ops|
  {
    if ops == [] {
    } else {
      StepOnEvidence(t, ops[0], height);
      hide Step, Valid, HasSuccessor, Available;
      KeptWhileSpared(Step(t, ops[0]), ops[1..], height);
      assert AllSpare(ops, height) <==> Spares(ops[0], height) && AllSpare(ops[1..], height) by {
        assert forall i :: 0 <= i < |ops| ==> ops[i] == if i == 0 then ops[0] else ops[1..][i - 1];
      }
    }
  }

  /**
   Take a fresh tracker after any operations, an observed or passed height, and any further
   operations. Evidence at that height stays available, unchanged, exactly as long as no prune
   reaches 256 blocks past it, and once forgotten it never comes back.
   */
  lemma EvidenceIsKeptForOneWindow(before: seq<Op>, ops: seq<Op>, height: U64)
    requires AllBelowLastHeight(before) && AllBelowLastHeight(ops)
    requires Run(FRESH, before).latest.Some? && height <= Run(FRESH, before).latest.value.number
    ensures var t := Run(FRESH, before);
            var n := Run(t, ops);
            && (height in Available(n) <==> height in Available(t) && AllSpare(ops, height))
            && (height in Available(n) ==> Available(n)[height] == Available(t)[height])
  {
    RunKeepsValid(FRESH, before);
    KeptWhileSpared(Run(FRESH, before), ops, height);
  }

  /** A new observation's evidence is what every lookup returns until a prune leaves it behind. */
  lemma RecordedEvidenceIsReturned(before: seq<Op>, block: NumHash, events: Events, logs: Logs, ops: seq<Op>)
    requires AllBelowLastHeight(before) && AllBelowLastHeight(ops) && block.number < U64_MAX
    requires var t := Run(FRESH, before); Record(t, block, events, Some(logs)).0.latest != t.latest
    ensures var n := Run(Record(Run(FRESH, before), block, events, Some(logs)).0, ops);
            AuthenticatedLogs(n, block) == Ok(Some(Evidence(block, logs))) <==> AllSpare(ops, block.number)
  {
    var t := Run(FRESH, before);
    var m := Record(t, block, events, Some(logs)).0;
    RunKeepsValid(FRESH, before);
    StepKeepsValid(t, DoRecord(block, events, Some(logs)));
    RecordAddsEvidence(t, block, events, Some(logs));
    assert m.latest == Some(block) && Available(m)[block.number] == Evidence(block, logs);
    hide Record, Available, AuthenticatedLogs;
    RunKeepsValid(m, ops);
    KeptWhileSpared(m, ops, block.number);
    LookupReadsAvailable(Run(m, ops), block, Evidence(block, logs));
  }

  // ---- Observations --------------------------------------------------------------------------------------------

  /**
   When a record succeeds: for the latest block or one already observed under that hash, and for the
   next height within the window. Only the last kind changes anything, and then only that height.
   */
  lemma RecordExactly(t: Tracker, block: NumHash, events: Events, logs: Option<Logs>)
    ensures var (n, r) := Record(t, block, events, logs);
            var known := t.latest == Some(block) || (block.number in t.observed && t.observed[block.number].hash == block.hash);
            var next := (t.latest.Some? ==> block.number == SaturatingAdd(t.latest.value.number, 1))
                        && (t.latest.None? && t.pruned.Some? ==> block.number == SaturatingAdd(t.pruned.value, 1))
                        && (t.latest.None? && t.pruned.None? ==> block.number > 0);
            var conflict := block.number in t.observed && t.observed[block.number].hash != block.hash;
            && (r.Ok? <==> !conflict && (known || (next && HasCapacityFor(t, block.number))))
            && (r == Err(ConflictingHash) <==> conflict)
            && (known || conflict ==> n == t)
            && (r.Ok? && !known ==>
                  && n.latest == Some(block) && n.observed.Keys == t.observed.Keys + {block.number}
                  && (forall h :: h in t.observed ==> n.observed[h] == t.observed[h])
                  && Wait(n, block) == Found(events))
            && n.recent == t.recent && n.pause == t.pause
            && (!(known || conflict) ==>
                  n.pruned == if t.pruned.Some? then t.pruned else Some(SaturatingSub(block.number, 1)))
            && (r.Err? ==> n == t.(pruned := n.pruned))
  {
  }

  /** Why a record fails: a conflicting hash, the lookahead bound, or a gap, in this order. */
  lemma RecordFailsExactly(t: Tracker, block: NumHash, events: Events, logs: Option<Logs>)
    ensures var r := Record(t, block, events, logs).1;
            && (r == Err(LookaheadExceeded) <==>
                  block.number !in t.observed && t.latest != Some(block) && !HasCapacityFor(t, block.number))
            && (r == Err(NonContiguous) <==>
                  && block.number !in t.observed && t.latest.Some? && t.latest != Some(block)
                  && HasCapacityFor(t, block.number) && block.number != SaturatingAdd(t.latest.value.number, 1))
            && (r == Err(NonContiguousFirst) <==>
                  && t.latest.None? && block.number !in t.observed && HasCapacityFor(t, block.number)
                  && (if t.pruned.Some? then block.number != SaturatingAdd(t.pruned.value, 1) else block.number == 0))
  {
  }

  /** What a look answers: the recorded events under the right hash, else why there are none. */
  lemma WaitExactly(t: Tracker, block: NumHash)
    ensures var r := Wait(t, block);
            && (r.Found? ==> block.number in t.observed && r.events == t.observed[block.number].events)
            && (r.Found? <==> block.number in t.observed && t.observed[block.number].hash == block.hash)
            && (r == WrongHash <==> block.number in t.observed && t.observed[block.number].hash != block.hash)
            && (r == AlreadyConsumed <==> block.number !in t.observed && t.pruned.Some? && block.number <= t.pruned.value)
  {
  }

  /** The next height to observe is the only new one that can be recorded. */
  lemma NextObservationExactly(t: Tracker, block: NumHash, events: Events, logs: Option<Logs>)
    requires Record(t, block, events, logs).0.latest != t.latest
    ensures NextObservation(t) == if t.latest.None? && t.pruned.None? then None else Some(block.number)
  {
  }

  /** A lookup fails exactly when another hash is known at that height. */
  lemma LookupConflictsExactly(t: Tracker, block: NumHash)
    ensures AuthenticatedLogs(t, block).Err?
       <==> if block.number in t.observed then t.observed[block.number].hash != block.hash
            else block.number in t.recent && t.recent[block.number].block.hash != block.hash
  {
  }

  predicate LeavesObserved(op: Op, height: U64)
  {
    op.DoPrune? ==> op.number < height
  }

  lemma {:induction false} ObservedUntilPruned(t: Tracker, ops: seq<Op>, height: U64)
    requires Valid(t) && HasSuccessor(t) && t.latest.Some? && height <= t.latest.value.number
    requires AllBelowLastHeight(ops)
    ensures var n := Run(t, ops);
            && (height in n.observed <==> height in t.observed && forall i :: 0 <= i < |ops| ==> LeavesObserved(ops[i], height))
            && (height in n.observed ==> n.observed[height] == t.observed[height])
    decreases |ops|
  {
    if ops == [] {
    } else {
      var m := Step(t, ops[0]);
      StepKeepsValid(t, ops[0]);
      assert m.latest.Some? && height <= m.latest.value.number;
      assert height in m.observed <==> height in t.observed && LeavesObserved(ops[0], height);
      assert height in m.observed ==> m.observed[height] == t.observed[height];
      assert HasSuccessor(m);
      hide Step, Valid, HasSuccessor;
      ObservedUntilPruned(m, ops[1..], height);
      assert forall i :: 0 <= i < |ops| ==> ops[i] == if i == 0 then ops[0] else ops[1..][i - 1];
    }
  }

  lemma {:induction false} LatestNeverFalls(t: Tracker, ops: seq<Op>)
    requires Valid(t) && HasSuccessor(t) && t.latest.Some? && AllBelowLastHeight(ops)
    ensures Run(t, ops).latest.Some? && Run(t, ops).latest.value.number >= t.latest.value.number
    decreases |ops|
  {
    if ops == [] {
    } else {
      StepKeepsValid(t, ops[0]);
      LatestNeverFalls(Step(t, ops[0]), ops[1..]);
    }
  }

  lemma ObservedOrConsumed(t: Tracker, height: U64)
    requires Valid(t) && t.latest.Some? && height <= t.latest.value.number
    ensures height in t.observed || (t.pruned.Some? && height <= t.pruned.value)
  {
  }

  /** A waiter gets the recorded events of a block, exactly until a prune reaches it. */
  lemma RecordedEventsAreReturned(before: seq<Op>, block: NumHash, events: Events, logs: Option<Logs>, ops: seq<Op>)
    requires AllBelowLastHeight(before) && AllBelowLastHeight(ops) && block.number < U64_MAX
    requires var t := Run(FRESH, before); Record(t, block, events, logs).0.latest != t.latest
    ensures var n := Run(Record(Run(FRESH, before), block, events, logs).0, ops);
            && (Wait(n, block) == Found(events) <==> forall i :: 0 <= i < |ops| ==> LeavesObserved(ops[i], block.number))
            && (Wait(n, block) == Found(events) || Wait(n, block) == AlreadyConsumed)
  {
    var t := Run(FRESH, before);
    var m := Record(t, block, events, logs).0;
    RunKeepsValid(FRESH, before);
    StepKeepsValid(t, DoRecord(block, events, logs));
    assert m.latest == Some(block) && block.number in m.observed;
    assert m.observed[block.number].hash == block.hash && m.observed[block.number].events == events;
    hide Record, Run, Valid, HasSuccessor;
    RunKeepsValid(m, ops);
    ObservedUntilPruned(m, ops, block.number);
    LatestNeverFalls(m, ops);
    ObservedOrConsumed(Run(m, ops), block.number);
  }
}
