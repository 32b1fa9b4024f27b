/**
 The subscriber's own code over the shared queue, tracker and key ring, without interference, and
 its correspondence with the steps of the ingestion machine.
 */
module Subscriber {
  import opened PortalEvents
  import opened DepositQueue
  import opened EncryptionKeys
  import opened BlockTracker
  import opened Ingestion

  datatype Outcome = Done | Retry | Fatal

  /** A fetched, authenticated and decoded block with its optional raw logs. */
  datatype Item = Item(block: Block, logs: Option<Logs>)

  /** Everything a backfilled block is applied to. */
  datatype Sinks = Sinks(q: Queue, t: Tracker, ring: Ring)

  function PauseOutcome(t: Tracker, block: Block): (Option<Pause>, Result<bool, TrackerError>)
  {
    if block.events.pause.Some? then ObservePause(t.pause, block.Anchor(), block.events.pause.value)
    else (t.pause, Ok(false))
  }

  /** Rotations, then the pause, then the queue, then the tracker; stop at the first failure. */
  function IngestOne(pub: SecretKey -> PublicKey, s: Sinks, item: Item): (Sinks, Outcome)
  {
    var (ring, keysOk) := ApplyRotations(pub, s.ring, item.block.events.rotations);
    if keysOk.Err? then (s.(ring := ring), Fatal)
    else
      var (pause, pauseOk) := PauseOutcome(s.t, item.block);
      if pauseOk.Err? then (Sinks(s.q, s.t, ring), Fatal)
      else
        var (q, enqueued) := TryEnqueueSealed(s.q, item.block);
        if enqueued.Err? then (Sinks(q, s.t.(pause := pause), ring), Retry)
        else
          var (t, recorded) := Record(s.t.(pause := pause), item.block.Anchor(), item.block.events, item.logs);
          (Sinks(q, t, ring), if recorded.Ok? then Done else Retry)
  }

  function IngestFetched(pub: SecretKey -> PublicKey, s: Sinks, item: Option<Item>): (Sinks, Outcome)
  {
    if item.None? then (s, Retry) else IngestOne(pub, s, item.value)
  }

  /** Backfill of `first..last` (exclusive), in order. A height that cannot be fetched ends it with a retry. */
  function IngestRange(pub: SecretKey -> PublicKey, s: Sinks, fetch: U64 -> Option<Item>, first: nat, last: nat): (Sinks, Outcome)
    requires last <= U64_MAX + 1
    decreases last
  {
    if last <= first then (s, Done)
    else
      var (before, outcome) := IngestRange(pub, s, fetch, first, last - 1);
      if outcome.Done? then IngestFetched(pub, before, fetch(last - 1)) else (before, outcome)
  }

  lemma RangeStep(pub: SecretKey -> PublicKey, s: Sinks, fetch: U64 -> Option<Item>, first: nat, n: U64, middle: Sinks)
    requires first <= n && IngestRange(pub, s, fetch, first, n) == (middle, Done)
    ensures IngestRange(pub, s, fetch, first, n + 1) == IngestFetched(pub, middle, fetch(n))
  {
  }

  lemma {:induction false} StopsEarly(pub: SecretKey -> PublicKey, s: Sinks, fetch: U64 -> Option<Item>, first: nat, middle: nat, last: nat)
    requires middle <= last <= U64_MAX + 1
    requires !IngestRange(pub, s, fetch, first, middle).1.Done?
    ensures IngestRange(pub, s, fetch, first, last) == IngestRange(pub, s, fetch, first, middle)
    decreases last
  {
    if middle == last {
    } else {
      StopsEarly(pub, s, fetch, first, middle, last - 1);
    }
  }

  /** Where the reads of the finalized tag stop rising. */
  function LastRise(answers: seq<U64>): (last: nat)
    requires answers != []
    ensures last < |answers|
    ensures forall i, j :: 0 <= i < j <= last ==> answers[i] < answers[j]
    ensures last + 1 < |answers| ==> answers[last + 1] <= answers[last]
  {
    if |answers| > 1 && answers[1] > answers[0] then 1 + LastRise(answers[1..]) else 0
  }

  /** The tag is read twice in a row with the same answer before it ever falls. */
  predicate Settles(answers: seq<U64>)
    requires answers != []
  {
    LastRise(answers) + 1 < |answers| && answers[LastRise(answers) + 1] == answers[LastRise(answers)]
  }

  predicate Announceable(target: Option<Target>, number: U64)
  {
    target.Some? ==> target.value.number <= number
  }

  lemma EmptyRange(pub: SecretKey -> PublicKey, s: Sinks, fetch: U64 -> Option<Item>, first: nat, last: nat)
    requires last <= first && last <= U64_MAX + 1
    ensures IngestRange(pub, s, fetch, first, last) == (s, Done)
  {
  }

  /** Announcing a target and then one no lower is announcing the second; only that one can be ready. */
  lemma TargetsFold(target: Option<Target>, a: U64, b: U64)
    requires a <= b
    ensures RecordTarget(RecordTarget(target, a), b) == RecordTarget(target, b)
    ensures RecordTarget(target, b).Some?
    ensures RecordTarget(target, b).value.number == b <==> Announceable(target, b)
  {
  }

  /** Backfilling in two stretches is backfilling the whole range. */
  lemma {:induction false} RangesJoin(pub: SecretKey -> PublicKey, s: Sinks, fetch: U64 -> Option<Item>, first: nat, middle: nat, last: nat)
    requires first <= middle <= last <= U64_MAX + 1
    requires IngestRange(pub, s, fetch, first, middle).1.Done?
    ensures IngestRange(pub, s, fetch, first, last)
         == IngestRange(pub, IngestRange(pub, s, fetch, first, middle).0, fetch, middle, last)
    decreases last
  {
    if middle == last {
    } else {
      RangesJoin(pub, s, fetch, first, middle, last - 1);
    }
  }

  class L1Subscriber {
    const queue: PendingDeposits
    const tracker: L1BlockTracker
    const keys: EncryptionKeyRing

    constructor (queue: PendingDeposits, tracker: L1BlockTracker, keys: EncryptionKeyRing)
      ensures this.queue == queue && this.tracker == tracker && this.keys == keys
    {
      this.queue, this.tracker, this.keys := queue, tracker, keys;
    }

    function State(): Sinks
      reads queue, tracker, keys
    {
      Sinks(queue.State(), tracker.State(), keys.State())
    }

    /** Resolve the resume cursor; only the persisted checkpoint counts as consumed. */
    method NextBlock(checkpoint: U64) returns (next: U64)
      modifies tracker
      ensures next == NextBlockToSync(queue.State(), old(tracker.State()), checkpoint)
      ensures next == SaturatingAdd(checkpoint, 1)
              || (queue.lastEnqueued.Some? && next == SaturatingAdd(queue.lastEnqueued.value.number, 1))
              || (old(tracker.latest).Some? && next == SaturatingAdd(old(tracker.latest).value.number, 1))
      ensures next >= SaturatingAdd(checkpoint, 1)
      ensures queue.lastEnqueued.Some? ==> next >= SaturatingAdd(queue.lastEnqueued.value.number, 1)
      ensures old(tracker.latest).Some? ==> next >= SaturatingAdd(old(tracker.latest).value.number, 1)
      ensures tracker.State() == InitializeConsumed(old(tracker.State()), checkpoint)
      ensures tracker.finalizedTarget == old(tracker.finalizedTarget)
    {
      next := SaturatingAdd(checkpoint, 1);
      if queue.lastEnqueued.Some? && SaturatingAdd(queue.lastEnqueued.value.number, 1) > next {
        next := SaturatingAdd(queue.lastEnqueued.value.number, 1);
      }
      if tracker.latest.Some? && SaturatingAdd(tracker.latest.value.number, 1) > next {
        next := SaturatingAdd(tracker.latest.value.number, 1);
      }
      tracker.InitializeConsumedThrough(checkpoint);
    }

    method Ingest(item: Item) returns (outcome: Outcome)
      requires keys.Valid()
      modifies queue, tracker, keys
      ensures keys.Valid()
      ensures tracker.finalizedTarget == old(tracker.finalizedTarget)
      ensures (State(), outcome) == IngestOne(keys.pub, old(State()), item)
    {
      var keysOk := keys.ApplyAll(item.block.events.rotations);
      if keysOk.Err? {
        return Fatal;
      }
      if item.block.events.pause.Some? {
        var pauseOk := tracker.ObservePortalPause(item.block.Anchor(), item.block.events.pause.value);
        if pauseOk.Err? {
          return Fatal;
        }
      }
      var enqueued := queue.EnqueueSealed(item.block);
      if enqueued.Err? {
        return Retry;
      }
      var recorded := tracker.RecordObservation(item.block.Anchor(), item.block.events, item.logs);
      outcome := if recorded.Ok? then Done else Retry;
    }

    method Backfill(fetch: U64 -> Option<Item>, first: U64, last: U64) returns (outcome: Outcome)
      requires keys.Valid() && first <= last
      modifies queue, tracker, keys
      ensures keys.Valid()
      ensures tracker.finalizedTarget == old(tracker.finalizedTarget)
      ensures (State(), outcome) == IngestRange(keys.pub, old(State()), fetch, first, last + 1)
    {
      hide IngestOne;
      ghost var before := State();
      for n := first to last + 1
        invariant keys.Valid() && tracker.finalizedTarget == old(tracker.finalizedTarget)
        invariant (State(), Done) == IngestRange(keys.pub, before, fetch, first, n)
      {
        ghost var middle := State();
        var item := fetch(n);
        if item.None? {
          outcome := Retry;
        } else {
          outcome := Ingest(item.value);
        }
        RangeStep(keys.pub, before, fetch, first, n, middle);
        if !outcome.Done? {
          StopsEarly(keys.pub, before, fetch, first, n + 1, last + 1);
          return;
        }
      }
      outcome := Done;
    }

    /**
     Synchronize through the finalized head. `answers` are the successive reads of the finalized
     tag; running out of them is a transport failure. The goal is the last answer before the tag
     stops rising: everything through it is ingested, and the call succeeds exactly when the tag
     repeats there, the whole range is applied and no higher target was announced before.
     */
    method SyncToFinalized(fetch: U64 -> Option<Item>, answers: seq<U64>, start: U64) returns (r: Option<U64>)
      requires keys.Valid()
      modifies queue, tracker, keys
      ensures keys.Valid()
      ensures answers == [] ==> r == None && State() == old(State()) && tracker.finalizedTarget == old(tracker.finalizedTarget)
      ensures answers != [] ==>
        var goal: nat := answers[LastRise(answers)];
        var (s, outcome) := IngestRange(keys.pub, old(State()), fetch, start, goal + 1);
        && State() == s
        && (r.Some? <==> outcome.Done? && Settles(answers) && Announceable(old(tracker.finalizedTarget), goal))
        && (r.Some? ==> r.value == (if start <= goal then SaturatingAdd(goal, 1) else start))
        && (r.Some? ==> tracker.finalizedTarget == Some(Target(goal, true)))
        && (r.None? ==> exists i :: 0 <= i <= LastRise(answers)
                          && tracker.finalizedTarget == RecordTarget(old(tracker.finalizedTarget), answers[i]))
    {
      hide IngestOne, IngestRange, LastRise, RecordTarget;
      ghost var before, target := State(), tracker.finalizedTarget;
      EmptyRange(keys.pub, before, fetch, start, start);
      if answers == [] {
        return None;
      }
      ghost var last := LastRise(answers);
      ghost var goal: nat := answers[last];
      var next: U64, finalized: U64, i: nat := start, answers[0], 1;
      while true
        invariant keys.Valid() && 1 <= i <= last + 1 && finalized == answers[i - 1] && start <= next
        invariant (State(), Done) == IngestRange(keys.pub, before, fetch, start, next)
        invariant next == if i == 1 || answers[i - 2] < start then start else answers[i - 2] + 1
        invariant tracker.finalizedTarget == if i == 1 then target else RecordTarget(target, finalized)
        decreases |answers| - i
      {
        TargetsFold(target, finalized, finalized);
        tracker.RecordFinalizedTarget(finalized);
        if next <= finalized {
          var outcome := Backfill(fetch, next, finalized);
          RangesJoin(keys.pub, before, fetch, start, next, finalized + 1);
          if !outcome.Done? {
            StopsEarly(keys.pub, before, fetch, start, finalized + 1, goal + 1);
            return None;
          }
          next := SaturatingAdd(finalized, 1);
        } else {
          EmptyRange(keys.pub, before, fetch, start, finalized + 1);
        }
        if i == |answers| || answers[i] < finalized {
          return None;
        }
        var refreshed := answers[i];
        TargetsFold(target, finalized, refreshed);
        tracker.RecordFinalizedTarget(refreshed);
        if refreshed == finalized {
          var ready := tracker.MarkFinalizedTargetReady(refreshed);
          if ready.Err? {
            return None;
          }
          return Some(next);
        }
        finalized, i := refreshed, i + 1;
      }
    }
  }

  /** The block's pause state contradicts what the gate holds for that very height. */
  predicate Contradicts(gate: Option<Pause>, block: Block)
  {
    && block.events.pause.Some? && gate.Some? && gate.value.block.number == block.header.anchor.number
    && gate.value != Pause(block.header.anchor, block.events.pause.value)
  }

  /**
   How a block's ingestion ends. It is fatal exactly for rotations that do not fit the keys or a
   contradicted pause, and then neither queue nor observations change. Otherwise queue and tracker
   decide, and the tracker is reached only when the queue took the block.
   */
  lemma IngestExactly(pub: SecretKey -> PublicKey, s: Sinks, item: Item)
    requires WellKeyed(pub, s.ring)
    ensures var (after, outcome) := IngestOne(pub, s, item);
            var fatal := !Compatible(pub, s.ring, item.block.events.rotations) || Contradicts(s.t.pause, item.block);
            && (outcome == Fatal <==> fatal)
            && (fatal ==> after.q == s.q && after.t == s.t)
            && (!fatal ==> after.q == TryEnqueueSealed(s.q, item.block).0)
            && (!fatal && TryEnqueueSealed(s.q, item.block).1.Err? ==>
                  outcome == Retry && after.t == s.t.(pause := after.t.pause))
            && (!fatal && TryEnqueueSealed(s.q, item.block).1.Ok? ==>
                  (outcome == Done <==> Record(s.t, item.block.Anchor(), item.block.events, item.logs).1.Ok?))
  {
    hide TryEnqueueSealed, ApplyRotations, Compatible;
    RotationsSucceedExactly(pub, s.ring, item.block.events.rotations);
  }

  /**
   Without interference, the machine's four steps for a fetched block do exactly what the code does
   with it, and the phase tells the outcome.
   */
  lemma MachineRunsTheCode(w: World, n: Node, logs: Option<Logs>)
    requires n.phase.Session? && n.phase.pc.Fetched?
    ensures var m := Step(w, Step(w, Step(w, Step(w, n, ApplyKeys), ApplyPause), Enqueue), RecordBlock(logs));
            var (s, outcome) := IngestOne(w.pub, Sinks(n.q, n.t, n.ring), Item(w.block(n.phase.cursor), logs));
            && Sinks(m.q, m.t, m.ring) == s
            && (outcome.Done? <==> m.phase.Session?)
            && (outcome.Fatal? <==> m.phase.Dead?)
            && (outcome.Done? ==> m.phase.cursor == SaturatingAdd(n.phase.cursor, 1))
  {
    var block := w.block(n.phase.cursor);
    var (ring, keysOk) := ApplyRotations(w.pub, n.ring, block.events.rotations);
    var (pause, pauseOk) := PauseOutcome(n.t, block);
    var n1 := Step(w, n, ApplyKeys);
    if keysOk.Err? {
      assert n1 == n.(ring := ring, phase := Dead);
    } else {
      assert n1 == n.(ring := ring, phase := Session(n.phase.cursor, KeysApplied(n.phase.pc.finalized)));
      var n2 := Step(w, n1, ApplyPause);
      assert n2 == n1.(t := n.t.(pause := pause),
                       phase := if pauseOk.Ok? then Session(n.phase.cursor, PauseApplied(n.phase.pc.finalized)) else Dead);
    }
  }
}
