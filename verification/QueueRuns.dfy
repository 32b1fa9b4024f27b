/**
 Whole runs of the deposit queue: every deposit and token enablement that enters is handed to the
 Zone exactly once and in order, whatever mixture of ingestion, checkpoint deferral, full blocks
 and follower reconciliation happens.
 */
module QueueRuns {
  import opened PortalEvents
  import opened DepositQueue

  // ---- Compaction ---------------------------------------------------------------------------------

  function Compact(blocks: seq<Block>): Option<Deferred>
  {
    PushAll(None, blocks)
  }

  lemma CompactSnoc(blocks: seq<Block>, block: Block)
    ensures Compact(blocks + [block]) == Some(Push(Compact(blocks), block))
  {
  }

  lemma {:induction false} PushAllAppend(d: Option<Deferred>, a: seq<Block>, b: seq<Block>)
    ensures PushAll(PushAll(d, a), b) == PushAll(d, a + b)
  {
    if b == [] {
      assert a + b == a;
    } else {
      assert (a + b)[..|a + b| - 1] == a + b[..|b| - 1];
      PushAllAppend(d, a, b[..|b| - 1]);
    }
  }

  lemma RetainKeepsWork(d: Option<Deferred>, block: Block)
    ensures DeferredWork(Some(Push(d, block))) == DeferredWork(d).Then(EventWork(block.events))
  {
    var groups := if d.Some? then d.value.groups else [];
    ThenAssociates(EventsWork(groups), NO_WORK, NO_WORK);
    assert (groups + [block.events])[..|groups|] == groups;
  }

  /** Compaction keeps the last header and both event streams. */
  lemma {:induction false} PushAllKeepsWork(d: Option<Deferred>, blocks: seq<Block>)
    ensures DeferredWork(PushAll(d, blocks)) == DeferredWork(d).Then(WorkOf(blocks))
    ensures blocks != [] ==> PushAll(d, blocks).Some?
                             && PushAll(d, blocks).value.lastHeader == blocks[|blocks| - 1].header
  {
    if blocks == [] {
      ThenAssociates(DeferredWork(d), NO_WORK, NO_WORK);
    } else {
      var front, e := blocks[..|blocks| - 1], blocks[|blocks| - 1].events;
      PushAllKeepsWork(d, front);
      ThenAssociates(DeferredWork(d), WorkOf(front), EventWork(e));
      RetainKeepsWork(PushAll(d, front), blocks[|blocks| - 1]);
    }
  }

  /** Every retained group holds at least one deposit or token, so the protocol caps bound them. */
  lemma {:induction false} GroupsBounded(blocks: seq<Block>)
    ensures blocks == [] <==> Compact(blocks).None?
    ensures blocks != [] ==>
      |Compact(blocks).value.groups| <= |WorkOf(blocks).deposits| + |WorkOf(blocks).tokens|
  {
    if blocks == [] {
    } else {
      GroupsBounded(blocks[..|blocks| - 1]);
    }
  }

  // ---- The ledger of a run ------------------------------------------------------------------------

  /** Work read by the Zone consumer and not yet confirmed. */
  datatype InFlight = InFlight(anchor: NumHash, work: seq<Block>)

  /**
   The queue with the history of its run: every block accepted so far, the blocks consumed by full
   Zone blocks, the blocks crossed by checkpoint-only Zone blocks since, and the operational events
   handed to the Zone, in the order they were handed over.
   */
  datatype Ledger = Ledger(
    q: Queue, enqueued: seq<Block>, consumed: seq<Block>, crossed: seq<Block>,
    delivered: Work, inFlight: Option<InFlight>)

  datatype Op =
    | Ingest(block: Block, fromSubscriber: bool)
    | Defer(anchor: NumHash)
    | Begin(anchor: NumHash)
    | Abort
    | Finish
    | Reconcile(anchor: NumHash)

  const START := Ledger(EMPTY, [], [], [], NO_WORK, None)

  function Ingested(l: Ledger, block: Block, fromSubscriber: bool): Ledger
  {
    var (q, r) := if fromSubscriber then TryEnqueueSealed(l.q, block) else TryEnqueue(l.q, block);
    l.(q := q, enqueued := if r == Ok(true) then l.enqueued + [block] else l.enqueued)
  }

  function Deferring(l: Ledger, anchor: NumHash): Ledger
  {
    l.(q := DeferThrough(l.q, anchor).0, crossed := l.crossed + l.q.pending[..Passed(l.q.pending, anchor)])
  }

  /** The consumer took the crossed blocks and the first `k` pending ones, leaving `q`. */
  function Consuming(l: Ledger, q: Queue, k: nat, work: Work): Ledger
    requires k <= |l.q.pending|
  {
    l.(q := q, consumed := l.consumed + l.crossed + l.q.pending[..k], crossed := [],
       delivered := l.delivered.Then(work), inFlight := None)
  }

  /** What `ConfirmThrough` takes out of the queue: released deferred work, then passed blocks. */
  function Removed(q: Queue, anchor: NumHash): Work
  {
    var released := if ConfirmThrough(q, anchor).0.deferred.None? then DeferredWork(q.deferred) else NO_WORK;
    released.Then(WorkOf(q.pending[..Passed(q.pending, anchor)]))
  }

  function Reconciling(l: Ledger, anchor: NumHash): Ledger
  {
    var q := ConfirmThrough(l.q, anchor).0;
    if q == l.q then l else Consuming(l, q, Passed(l.q.pending, anchor), Removed(l.q, anchor))
  }

  function Finishing(l: Ledger, f: InFlight): Ledger
  {
    var (q, r) := ConfirmOperational(l.q, f.anchor);
    if r.Err? then l.(inFlight := None) else Consuming(l, q, 1, WorkOf(f.work))
  }

  /**
   One step. Ingestion runs at any time. The Zone has a single consumer, so deferral and
   reconciliation do not run between reading operational work and confirming it.
   */
  function Step(l: Ledger, op: Op): Ledger
  {
    match op
    case Ingest(block, fromSubscriber) => Ingested(l, block, fromSubscriber)
    case Abort => l.(inFlight := None)
    case Finish => if l.inFlight.None? then l else Finishing(l, l.inFlight.value)
    case Begin(anchor) =>
      var r := OperationalWork(l.q, anchor);
      if l.inFlight.Some? || r.Err? then l else l.(inFlight := Some(InFlight(anchor, r.value)))
    case Defer(anchor) => if l.inFlight.Some? then l else Deferring(l, anchor)
    case Reconcile(anchor) => if l.inFlight.Some? then l else Reconciling(l, anchor)
  }

  function Run(l: Ledger, ops: seq<Op>): Ledger
    decreases |ops|
  {
    if ops == [] then l else Run(Step(l, ops[0]), ops[1..])
  }

  /**
   A reconciliation that fails after popping stale blocks while work is deferred. It needs a
   conflicting hash at the anchor's height and a lower block in front of it.
   */
  predicate FailsPastDeferred(q: Queue, anchor: NumHash)
  {
    q.deferred.Some? && Blocked(q.pending, anchor) && q.pending[0].Number() < anchor.number
  }

  predicate Sound(l: Ledger, op: Op)
  {
    op.Reconcile? && l.inFlight.None? ==> !FailsPastDeferred(l.q, op.anchor)
  }

  predicate AllSound(l: Ledger, ops: seq<Op>)
    decreases |ops|
  {
    ops != [] ==> Sound(l, ops[0]) && AllSound(Step(l, ops[0]), ops[1..])
  }

  /** The queue owes exactly `crossed` (compacted) and then its pending blocks. */
  ghost predicate Tidy(q: Queue, enqueued: seq<Block>, consumed: seq<Block>, crossed: seq<Block>)
  {
    && Linked(enqueued)
    && enqueued == consumed + crossed + q.pending
    && q.deferred == Compact(crossed)
    && q.last == (if enqueued == [] then None else Some(enqueued[|enqueued| - 1].Anchor()))
  }

  ghost predicate Inv(l: Ledger)
  {
    && Tidy(l.q, l.enqueued, l.consumed, l.crossed)
    && l.delivered == WorkOf(l.consumed)
    && (l.inFlight.Some? ==> OperationalWork(l.q, l.inFlight.value.anchor) == Ok(l.inFlight.value.work))
  }

  // ---- Each kind of step keeps the invariant --------------------------------------------------------

  lemma IngestKeepsInv(l: Ledger, block: Block, fromSubscriber: bool)
    requires Inv(l)
    ensures Inv(Ingested(l, block, fromSubscriber))
  {
    var n := Ingested(l, block, fromSubscriber);
    if n.enqueued != l.enqueued {
      LinkedAppend(l.enqueued, block);
      assert l.consumed + l.crossed + l.q.pending + [block] == l.consumed + l.crossed + (l.q.pending + [block]);
    }
  }

  lemma MoveBoundary(a: seq<Block>, b: seq<Block>, c: seq<Block>, k: nat)
    requires k <= |c|
    ensures a + b + c == a + (b + c[..k]) + c[k..]
  {
  }

  lemma DeferKeepsInv(l: Ledger, anchor: NumHash)
    requires Inv(l) && l.inFlight.None?
    ensures Inv(Deferring(l, anchor))
  {
    var k := Passed(l.q.pending, anchor);
    PushAllAppend(None, l.crossed, l.q.pending[..k]);
    MoveBoundary(l.consumed, l.crossed, l.q.pending, k);
  }

  lemma ConsumeKeepsInv(l: Ledger, k: nat)
    requires Inv(l) && k <= |l.q.pending|
    ensures Inv(Consuming(l, l.q.(pending := l.q.pending[k..], deferred := None), k,
                          DeferredWork(l.q.deferred).Then(WorkOf(l.q.pending[..k]))))
  {
    var front, rest := l.q.pending[..k], l.q.pending[k..];
    assert l.q.pending == front + rest;
    assert l.consumed + l.crossed + l.q.pending == l.consumed + l.crossed + front + [] + rest;
    PushAllKeepsWork(None, l.crossed);
    ThenAssociates(WorkOf(l.crossed), NO_WORK, NO_WORK);
    ThenAssociates(WorkOf(l.consumed), WorkOf(l.crossed), WorkOf(front));
    WorkOfAppend(l.consumed, l.crossed);
    WorkOfAppend(l.consumed + l.crossed, front);
  }

  lemma OperationalWorkStream(q: Queue, anchor: NumHash)
    requires OperationalWork(q, anchor).Ok?
    ensures WorkOf(OperationalWork(q, anchor).value) == DeferredWork(q.deferred).Then(WorkOf(q.pending[..1]))
  {
  }

  lemma FinishKeepsInv(l: Ledger)
    requires Inv(l) && l.inFlight.Some?
    ensures Inv(Finishing(l, l.inFlight.value))
  {
    OperationalWorkStream(l.q, l.inFlight.value.anchor);
    ConsumeKeepsInv(l, 1);
  }

  /** The front of the pending blocks is the child of the last crossed block. */
  lemma PendingFollowsCrossed(q: Queue, enqueued: seq<Block>, consumed: seq<Block>, crossed: seq<Block>)
    requires Tidy(q, enqueued, consumed, crossed)
    ensures q.deferred.Some? <==> crossed != []
    ensures crossed != [] ==> q.deferred.value.lastHeader == crossed[|crossed| - 1].header
    ensures crossed != [] && q.pending != [] ==>
      q.pending[0].Number() == q.deferred.value.lastHeader.anchor.number + 1
  {
    PushAllKeepsWork(None, crossed);
    if crossed != [] && q.pending != [] {
      var m := |consumed + crossed|;
      assert enqueued[m] == q.pending[0] && enqueued[m - 1] == crossed[|crossed| - 1];
      assert ChildAt(enqueued, m);
    }
  }

  lemma BlockedAtFront(pending: seq<Block>, anchor: NumHash)
    requires Blocked(pending, anchor) && Linked(pending)
    ensures pending[0].Number() < anchor.number <==> Passed(pending, anchor) > 0
  {
    LinkedNumbers(pending, 0, Passed(pending, anchor));
  }

  lemma PendingLinked(q: Queue, enqueued: seq<Block>, consumed: seq<Block>, crossed: seq<Block>)
    requires Tidy(q, enqueued, consumed, crossed)
    ensures Linked(q.pending)
  {
    assert enqueued[|consumed + crossed|..] == q.pending;
    LinkedSuffix(enqueued, |consumed + crossed|);
  }

  /** An anchor below the end of the deferred work neither passes pending blocks nor releases work. */
  lemma LateAnchorIsIgnored(q: Queue, enqueued: seq<Block>, consumed: seq<Block>, crossed: seq<Block>, anchor: NumHash)
    requires Tidy(q, enqueued, consumed, crossed)
    requires q.deferred.Some? && q.deferred.value.lastHeader.anchor.number > anchor.number
    ensures ConfirmThrough(q, anchor) == (q, true)
    ensures DeferThrough(q, anchor) == (q, true)
  {
    PendingFollowsCrossed(q, enqueued, consumed, crossed);
    assert Passed(q.pending, anchor) == 0;
    assert q.pending[0..] == q.pending;
  }

  lemma ReconcileKeepsInv(l: Ledger, anchor: NumHash)
    requires Inv(l) && l.inFlight.None? && !FailsPastDeferred(l.q, anchor)
    ensures Inv(Reconciling(l, anchor))
  {
    var q, k := ConfirmThrough(l.q, anchor).0, Passed(l.q.pending, anchor);
    assert l.q.pending[0..] == l.q.pending;
    PendingLinked(l.q, l.enqueued, l.consumed, l.crossed);
    if l.q.deferred.Some? && Blocked(l.q.pending, anchor) {
      BlockedAtFront(l.q.pending, anchor);
    } else if l.q.deferred.Some? && l.q.deferred.value.lastHeader.anchor.number > anchor.number {
      LateAnchorIsIgnored(l.q, l.enqueued, l.consumed, l.crossed, anchor);
    } else {
      assert q == l.q.(pending := l.q.pending[k..], deferred := None);
      ConsumeKeepsInv(l, k);
    }
  }

  // ---- Whole runs -----------------------------------------------------------------------------------

  lemma StepKeepsInv(l: Ledger, op: Op)
    requires Inv(l) && Sound(l, op)
    ensures Inv(Step(l, op))
  {
    match op
    case Ingest(block, fromSubscriber) => IngestKeepsInv(l, block, fromSubscriber);
    case Finish => if l.inFlight.Some? { FinishKeepsInv(l); }
    case Defer(anchor) => if l.inFlight.None? { DeferKeepsInv(l, anchor); }
    case Reconcile(anchor) => if l.inFlight.None? { ReconcileKeepsInv(l, anchor); }
    case Begin(_) =>
    case Abort =>
  }

  lemma {:induction false} RunKeepsInv(l: Ledger, ops: seq<Op>)
    requires Inv(l) && AllSound(l, ops)
    ensures Inv(Run(l, ops))
    decreases |ops|
  {
    if ops == [] {
    } else {
      StepKeepsInv(l, ops[0]);
      RunKeepsInv(Step(l, ops[0]), ops[1..]);
    }
  }

  /**
   Exactly-once, in-order delivery. After any run, what the Zone was handed, then what is deferred,
   then what is pending, is the operational content of everything ever accepted, in order.
   */
  lemma ExactlyOnceInOrder(l: Ledger, ops: seq<Op>)
    requires Inv(l) && AllSound(l, ops)
    ensures var n := Run(l, ops);
            && Linked(n.enqueued)
            && n.delivered.Then(DeferredWork(n.q.deferred)).Then(WorkOf(n.q.pending)) == WorkOf(n.enqueued)
    ensures Inv(START)
  {
    RunKeepsInv(l, ops);
    var n := Run(l, ops);
    PushAllKeepsWork(None, n.crossed);
    ThenAssociates(WorkOf(n.crossed), NO_WORK, NO_WORK);
    WorkOfAppend(n.consumed, n.crossed);
    WorkOfAppend(n.consumed + n.crossed, n.q.pending);
  }
}
