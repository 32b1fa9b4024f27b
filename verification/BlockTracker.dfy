/**
 The tracker of validated L1 blocks: retained observations, the consumed watermark that bounds the
 subscriber's lookahead, recent evidence, the Portal pause gate and the finalized target. `Tracker`
 is its value, apart from the target, which no other operation reads, and the functions on it specify
 the class `L1BlockTracker`.
 */
module BlockTracker {
  import opened PortalEvents

  const MAX_L1_LOOKAHEAD_BLOCKS: U64 := 7_200
  const RECENT_PORTAL_EVIDENCE_BLOCKS: U64 := 256

  /** Authenticated logs of one block, as the subscriber supplies them. */
  datatype Logs = Logs(parentHash: Hash, timestampMillis: U64, logs: seq<nat>)

  /** Logs together with the block they belong to. */
  datatype Evidence = Evidence(block: NumHash, logs: Logs)

  datatype Observation = Observation(hash: Hash, events: Events, evidence: Option<Evidence>)

  datatype Target = Target(number: U64, ready: bool)

  datatype Pause = Pause(block: NumHash, paused: bool)

  datatype TrackerError =
    | ConflictingHash
    | LookaheadExceeded
    | NonContiguous
    | NonContiguousFirst
    | ContradictoryPause
    | TargetNotAnnounced

  datatype Tracker = Tracker(
    observed: map<U64, Observation>,
    recent: map<U64, Evidence>,
    latest: Option<NumHash>,
    pruned: Option<U64>,
    pause: Option<Pause>)

  const FRESH := Tracker(map[], map[], None, None, None)

  // ---- Operations on tracker values ---------------------------------------------------------------

  function Raised(old_: Option<U64>, number: U64): U64
  {
    if old_.Some? && old_.value > number then old_.value else number
  }

  function InitializeConsumed(t: Tracker, number: U64): Tracker
  {
    t.(pruned := Some(Raised(t.pruned, number)))
  }

  predicate HasCapacityFor(t: Tracker, number: U64)
  {
    t.pruned.Some? ==> number <= SaturatingAdd(t.pruned.value, MAX_L1_LOOKAHEAD_BLOCKS)
  }

  function NextObservation(t: Tracker): Option<U64>
  {
    if t.latest.Some? then Some(SaturatingAdd(t.latest.value.number, 1))
    else if t.pruned.Some? then Some(SaturatingAdd(t.pruned.value, 1))
    else None
  }

  function Record(t: Tracker, block: NumHash, events: Events, logs: Option<Logs>)
    : (r: (Tracker, Result<(), TrackerError>))
  {
    if block.number in t.observed then
      (t, if t.observed[block.number].hash == block.hash then Ok(()) else Err(ConflictingHash))
    else if t.latest == Some(block) then
      (t, Ok(()))
    else
      var consumed := if t.pruned.Some? then t.pruned.value else SaturatingSub(block.number, 1);
      var touched := t.(pruned := Some(consumed));
      if block.number > SaturatingAdd(consumed, MAX_L1_LOOKAHEAD_BLOCKS) then (touched, Err(LookaheadExceeded))
      else if t.latest.Some? && block.number != SaturatingAdd(t.latest.value.number, 1) then (touched, Err(NonContiguous))
      else if t.latest.None? && block.number != SaturatingAdd(consumed, 1) then (touched, Err(NonContiguousFirst))
      else
        var evidence := if logs.Some? then Some(Evidence(block, logs.value)) else None;
        (touched.(observed := t.observed[block.number := Observation(block.hash, events, evidence)],
                  latest := Some(block)), Ok(()))
  }

  /** Evidence of the retained observations. */
  function ObservedEvidence(t: Tracker): map<U64, Evidence>
  {
    map h | h in t.observed && t.observed[h].evidence.Some? :: t.observed[h].evidence.value
  }

  function Prune(t: Tracker, number: U64): Tracker
  {
    var consumed := map h | h in t.observed && h <= number && t.observed[h].evidence.Some? :: t.observed[h].evidence.value;
    var recent := t.recent + consumed;
    var retainAfter := SaturatingSub(number, RECENT_PORTAL_EVIDENCE_BLOCKS);
    t.(observed := map h | h in t.observed && h > number :: t.observed[h],
       recent := map h | h in recent && h > retainAfter :: recent[h],
       pruned := Some(Raised(t.pruned, number)))
  }

  function AuthenticatedLogs(t: Tracker, block: NumHash): (r: Result<Option<Evidence>, TrackerError>)
  {
    if block.number in t.observed then
      if t.observed[block.number].hash == block.hash then Ok(t.observed[block.number].evidence) else Err(ConflictingHash)
    else if block.number in t.recent then
      if t.recent[block.number].block.hash == block.hash then Ok(Some(t.recent[block.number])) else Err(ConflictingHash)
    else Ok(None)
  }

  /** How one look at the tracker answers a waiter for `block`. */
  datatype WaitOutcome = Found(events: Events) | WrongHash | AlreadyConsumed | MissingBelowLatest | KeepWaiting

  function Wait(t: Tracker, block: NumHash): WaitOutcome
  {
    if block.number in t.observed then
      if t.observed[block.number].hash == block.hash then Found(t.observed[block.number].events) else WrongHash
    else if t.pruned.Some? && t.pruned.value >= block.number then AlreadyConsumed
    else if t.latest.Some? && t.latest.value.number >= block.number then MissingBelowLatest
    else KeepWaiting
  }

  function ObservePause(gate: Option<Pause>, block: NumHash, paused: bool): (r: (Option<Pause>, Result<bool, TrackerError>))
  {
    if gate.Some? && block.number < gate.value.block.number then (gate, Ok(false))
    else if gate.Some? && block.number == gate.value.block.number then
      (gate, if block.hash != gate.value.block.hash then Err(ConflictingHash)
             else if paused != gate.value.paused then Err(ContradictoryPause)
             else Ok(false))
    else
      (Some(Pause(block, paused)), Ok((gate.Some? && gate.value.paused) != paused))
  }

  function RecordTarget(target: Option<Target>, number: U64): Option<Target>
  {
    if target.Some? && number <= target.value.number then target else Some(Target(number, false))
  }

  function MarkReady(target: Option<Target>, number: U64): (r: (Option<Target>, Result<(), TrackerError>))
  {
    if target.None? || target.value.number != number then (target, Err(TargetNotAnnounced))
    else (Some(Target(number, true)), Ok(()))
  }

  // ---- The tracker object -----------------------------------------------------------------------------

  class L1BlockTracker {
    var observed: map<U64, Observation>
    var recentEvidence: map<U64, Evidence>
    var latest: Option<NumHash>
    var prunedThrough: Option<U64>
    var finalizedTarget: Option<Target>
    var portalPause: Option<Pause>

    function State(): Tracker
      reads this
    {
      Tracker(observed, recentEvidence, latest, prunedThrough, portalPause)
    }

    constructor ()
      ensures State() == FRESH && finalizedTarget.None?
    {
      observed, recentEvidence := map[], map[];
      latest, prunedThrough, finalizedTarget, portalPause := None, None, None, None;
    }

    method InitializeConsumedThrough(number: U64)
      modifies this
      ensures finalizedTarget == old(finalizedTarget)
      ensures State() == InitializeConsumed(old(State()), number)
    {
      if prunedThrough.None? || prunedThrough.value < number {
        prunedThrough := Some(number);
      }
    }

    method RecordObservation(block: NumHash, events: Events, logs: Option<Logs>) returns (r: Result<(), TrackerError>)
      modifies this
      ensures finalizedTarget == old(finalizedTarget)
      ensures (State(), r) == Record(old(State()), block, events, logs)
    {
      if block.number in observed {
        return if observed[block.number].hash == block.hash then Ok(()) else Err(ConflictingHash);
      }
      if latest == Some(block) {
        return Ok(());
      }
      if prunedThrough.None? {
        prunedThrough := Some(SaturatingSub(block.number, 1));
      }
      var consumed := prunedThrough.value;
      if block.number > SaturatingAdd(consumed, MAX_L1_LOOKAHEAD_BLOCKS) {
        return Err(LookaheadExceeded);
      }
      if latest.Some? {
        if block.number != SaturatingAdd(latest.value.number, 1) {
          return Err(NonContiguous);
        }
      } else if block.number != SaturatingAdd(consumed, 1) {
        return Err(NonContiguousFirst);
      }
      var evidence := if logs.Some? then Some(Evidence(block, logs.value)) else None;
      observed := observed[block.number := Observation(block.hash, events, evidence)];
      latest := Some(block);
      r := Ok(());
    }

    method PruneThrough(number: U64)
      modifies this
      ensures finalizedTarget == old(finalizedTarget)
      ensures State() == Prune(old(State()), number)
    {
      var consumed := map h | h in observed && h <= number && observed[h].evidence.Some? :: observed[h].evidence.value;
      recentEvidence := recentEvidence + consumed;
      observed := map h | h in observed && h > number :: observed[h];
      var retainAfter := SaturatingSub(number, RECENT_PORTAL_EVIDENCE_BLOCKS);
      recentEvidence := map h | h in recentEvidence && h > retainAfter :: recentEvidence[h];
      InitializeConsumedThrough(number);
    }

    method ObservePortalPause(block: NumHash, paused: bool) returns (r: Result<bool, TrackerError>)
      modifies this
      ensures finalizedTarget == old(finalizedTarget)
      ensures (State().pause, r) == ObservePause(old(portalPause), block, paused)
      ensures State() == old(State()).(pause := State().pause)
    {
      var previous := portalPause;
      if previous.Some? {
        if block.number < previous.value.block.number {
          return Ok(false);
        }
        if block.number == previous.value.block.number {
          if block.hash != previous.value.block.hash {
            return Err(ConflictingHash);
          }
          if paused != previous.value.paused {
            return Err(ContradictoryPause);
          }
          return Ok(false);
        }
      }
      portalPause := Some(Pause(block, paused));
      r := Ok((previous.Some? && previous.value.paused) != paused);
    }

    method RecordFinalizedTarget(number: U64)
      modifies this`finalizedTarget
      ensures finalizedTarget == RecordTarget(old(finalizedTarget), number)
    {
      if finalizedTarget.None? || number > finalizedTarget.value.number {
        finalizedTarget := Some(Target(number, false));
      }
    }

    method MarkFinalizedTargetReady(number: U64) returns (r: Result<(), TrackerError>)
      modifies this`finalizedTarget
      ensures (finalizedTarget, r) == MarkReady(old(finalizedTarget), number)
    {
      if finalizedTarget.None? || finalizedTarget.value.number != number {
        return Err(TargetNotAnnounced);
      }
      finalizedTarget := Some(Target(number, true));
      r := Ok(());
    }
  }
}
