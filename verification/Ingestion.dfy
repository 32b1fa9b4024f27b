/**
 Ingestion as a state machine: the L1 subscriber (connect, read the finalized tag, backfill block by
 block, fail, reconnect), the Zone consumer (build, take queue work, release observations,
 canonicalize) and the pause poller, each lock section one atomic step, interleaved freely on one
 canonical finalized chain.
 */
module Ingestion {
  import opened PortalEvents
  import opened DepositQueue
  import opened EncryptionKeys
  import opened BlockTracker
  import Recovery = DeferredRecovery

  /** The finalized chain, the Portal's true pause state at each block, and key derivation. */
  datatype World = World(block: U64 -> Block, pausedAt: U64 -> bool, pub: SecretKey -> PublicKey)

  ghost predicate Canonical(w: World)
  {
    && (forall n: U64 :: w.block(n).Number() == n)
    && (forall n: U64, m: U64 :: m == n + 1 ==> w.block(m).header.parentHash == w.block(n).Anchor().hash)
    && (forall n: U64 :: w.block(n).events.pause.Some? ==> w.block(n).events.pause.value == w.pausedAt(n))
  }

  /** Where the subscriber is inside `sync_to_finalized` and `backfill`. */
  datatype Pc =
    | Idle
    | Backfilling(finalized: U64)
    | Fetched(finalized: U64)
    | KeysApplied(finalized: U64)
    | PauseApplied(finalized: U64)
    | Enqueued(finalized: U64)

  datatype Phase = Disconnected | Dead | Session(cursor: U64, pc: Pc)

  /**
   A running node. `start` is the first height after the checkpoint the process started from,
   `checkpoint` the persisted Zone checkpoint, and `built` the highest anchor of an executed Zone
   block. `seen` and `skipped` record which heights were observed and which observations failed.
   */
  datatype Node = Node(
    q: Queue, t: Tracker, target: Option<Target>, ring: Ring, deferredStart: Option<U64>,
    start: U64, checkpoint: U64, built: U64, phase: Phase, seen: set<U64>, skipped: set<U64>)

  datatype Import = CheckpointOnly | LeaderFull | FollowerFull

  datatype Action =
    | Connect
    | ReadFinalized(number: U64)
    | Fetch
    | ApplyKeys
    | ApplyPause
    | Enqueue
    | RecordBlock(logs: Option<Logs>)
    | Refresh(number: U64)
    | Drop
    | Build(height: U64)
    | TakeWork(kind: Import, anchor: NumHash)
    | Release(number: U64)
    | Canonicalize(number: U64)
    | PollPause(number: U64)

  /** The first block not ingested yet: the highest of the three resume cursors. */
  function NextBlockToSync(q: Queue, t: Tracker, checkpoint: U64): U64
  {
    var resolved := SaturatingAdd(checkpoint, 1);
    var queued := if q.last.Some? then SaturatingAdd(q.last.value.number, 1) else 0;
    var observed := if t.latest.Some? then SaturatingAdd(t.latest.value.number, 1) else 0;
    var best := if queued > resolved then queued else resolved;
    if observed > best then observed else best
  }

  function Connecting(w: World, n: Node): Node
  {
    var (q, outcome) := Recovery.Recover(n.q, n.deferredStart, w.block(n.checkpoint).Anchor(), w.block);
    if outcome.WrongTip? || outcome.NotEmpty? then n
    else n.(q := q, t := InitializeConsumed(n.t, n.checkpoint),
            phase := Session(NextBlockToSync(q, n.t, n.checkpoint), Idle))
  }

  function Enqueueing(w: World, n: Node): Node
    requires n.phase.Session? && n.phase.pc.PauseApplied?
  {
    var (q, r) := TryEnqueueSealed(n.q, w.block(n.phase.cursor));
    n.(q := q, phase := if r.Ok? then n.phase.(pc := Enqueued(n.phase.pc.finalized)) else Disconnected)
  }

  function Recording(w: World, n: Node, logs: Option<Logs>): Node
    requires n.phase.Session? && n.phase.pc.Enqueued?
  {
    var cursor := n.phase.cursor;
    var (t, r) := Record(n.t, w.block(cursor).Anchor(), w.block(cursor).events, logs);
    if r.Ok? then
      n.(t := t, phase := Session(SaturatingAdd(cursor, 1), Backfilling(n.phase.pc.finalized)), seen := n.seen + {cursor})
    else
      n.(t := t, phase := Disconnected, skipped := n.skipped + {cursor})
  }

  /** The second read of the finalized tag after a backfill that reached `finalized`. */
  function Refreshing(n: Node, number: U64): Node
    requires n.phase.Session? && n.phase.pc.Backfilling?
  {
    var finalized := n.phase.pc.finalized;
    if number < finalized then n.(phase := Disconnected)
    else
      var announced := RecordTarget(n.target, number);
      if number > finalized then
        n.(target := announced, phase := n.phase.(pc := Backfilling(number)))
      else
        var (target, r) := MarkReady(announced, number);
        n.(target := target, phase := if r.Ok? then n.phase.(pc := Idle) else Disconnected)
  }

  function Taking(q: Queue, kind: Import, anchor: NumHash): Queue
  {
    match kind
    case CheckpointOnly => DeferThrough(q, anchor).0
    case LeaderFull => ConfirmOperational(q, anchor).0
    case FollowerFull => ConfirmThrough(q, anchor).0
  }

  /**
   One action; an action that is not enabled changes nothing. `Drop` is any transport failure. It
   cannot fall between enqueueing a block and recording it, since those two run without an await.
   */
  function Step(w: World, n: Node, a: Action): Node
  {
    match a
    case Connect =>
      if n.phase.Disconnected? then Connecting(w, n) else n
    case ReadFinalized(number) =>
      if n.phase.Session? && n.phase.pc.Idle? && number < U64_MAX
      then n.(target := RecordTarget(n.target, number), phase := n.phase.(pc := Backfilling(number)))
      else n
    case Fetch =>
      if n.phase.Session? && n.phase.pc.Backfilling? && n.phase.cursor <= n.phase.pc.finalized
         && HasCapacityFor(n.t, n.phase.cursor)
      then n.(phase := n.phase.(pc := Fetched(n.phase.pc.finalized)))
      else n
    case ApplyKeys =>
      if n.phase.Session? && n.phase.pc.Fetched? then
        var (ring, r) := ApplyRotations(w.pub, n.ring, w.block(n.phase.cursor).events.rotations);
        n.(ring := ring, phase := if r.Ok? then n.phase.(pc := KeysApplied(n.phase.pc.finalized)) else Dead)
      else n
    case ApplyPause =>
      if n.phase.Session? && n.phase.pc.KeysApplied? then
        var block := w.block(n.phase.cursor);
        var (pause, r) := if block.events.pause.Some?
          then ObservePause(n.t.pause, block.Anchor(), block.events.pause.value)
          else (n.t.pause, Ok(false));
        n.(t := n.t.(pause := pause), phase := if r.Ok? then n.phase.(pc := PauseApplied(n.phase.pc.finalized)) else Dead)
      else n
    case Enqueue =>
      if n.phase.Session? && n.phase.pc.PauseApplied? then Enqueueing(w, n) else n
    case RecordBlock(logs) =>
      if n.phase.Session? && n.phase.pc.Enqueued? then Recording(w, n, logs) else n
    case Refresh(number) =>
      if n.phase.Session? && n.phase.pc.Backfilling? && n.phase.cursor > n.phase.pc.finalized && number < U64_MAX
      then Refreshing(n, number)
      else n
    case Drop =>
      if n.phase.Session? && !n.phase.pc.Enqueued? then n.(phase := Disconnected) else n
    case Build(height) =>
      if n.q.last.Some? && n.built < height <= n.q.last.value.number then n.(built := height) else n
    case TakeWork(kind, anchor) =>
      if anchor.number <= n.built then n.(q := Taking(n.q, kind, anchor)) else n
    case Release(number) =>
      if number <= n.built then n.(t := Prune(n.t, number)) else n
    case Canonicalize(number) =>
      if n.checkpoint < number <= n.built then n.(checkpoint := number) else n
    case PollPause(number) =>
      n.(t := n.t.(pause := ObservePause(n.t.pause, w.block(number).Anchor(), w.pausedAt(number)).0))
  }

  function Run(w: World, n: Node, actions: seq<Action>): Node
    decreases |actions|
  {
    if actions == [] then n else Run(w, Step(w, n, actions[0]), actions[1..])
  }

  /** A process that starts from a persisted checkpoint with the configured private keys. */
  function Boot(checkpoint: U64, deferredStart: Option<U64>, candidates: map<PublicKey, SecretKey>): Node
  {
    Node(EMPTY, FRESH, None, Ring(candidates, map[]), deferredStart, SaturatingAdd(checkpoint, 1), checkpoint, checkpoint,
         Disconnected, {}, {})
  }
}
