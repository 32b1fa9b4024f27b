/**
 The finalized-L1 deposit queue: pending blocks, the compacted work that checkpoint-only Zone
 blocks deferred, and the high-water mark of ingestion. `Queue` is the value of the queue and the
 functions on it are the specification of the class `PendingDeposits`.
 */
module DepositQueue {
  import opened PortalEvents

  datatype QueueError =
    | OutOfOrder
    | Conflict
    | Gap
    | ParentMismatch
    | EmptyQueue
    | AnchorMismatch
    | QueueNotEmpty

  /** Work crossed by checkpoint-only Zone blocks: the last header and the nonempty event groups. */
  datatype Deferred = Deferred(lastHeader: Header, groups: seq<Events>)

  datatype Queue = Queue(pending: seq<Block>, deferred: Option<Deferred>, last: Option<NumHash>)

  const EMPTY := Queue([], None, None)

  predicate HasWork(e: Events)
  {
    e.deposits != [] || e.tokens != []
  }

  function Retain(groups: seq<Events>, e: Events): seq<Events>
  {
    if HasWork(e) then groups + [e] else groups
  }

  function Push(deferred: Option<Deferred>, block: Block): Deferred
  {
    Deferred(block.header, Retain(if deferred.Some? then deferred.value.groups else [], block.events))
  }

  function PushAll(deferred: Option<Deferred>, blocks: seq<Block>): Option<Deferred>
  {
    if blocks == [] then deferred
    else Some(Push(PushAll(deferred, blocks[..|blocks| - 1]), blocks[|blocks| - 1]))
  }

  function DeferredWork(deferred: Option<Deferred>): Work
  {
    if deferred.None? then NO_WORK else EventsWork(deferred.value.groups)
  }

  /** The single block that stands for all deferred work. */
  function Aggregated(d: Deferred): Block
  {
    var work := EventsWork(d.groups);
    Block(d.lastHeader, Events(work.deposits, work.tokens, [], [], None))
  }

  // ---- Operations on queue values -------------------------------------------------------------

  function TryEnqueue(q: Queue, block: Block): (r: (Queue, Result<bool, QueueError>))
  {
    var appended := Queue(q.pending + [block], q.deferred, Some(block.Anchor()));
    if q.last.None? then
      (appended, Ok(true))
    else if block.Number() < q.last.value.number then
      (q, Err(OutOfOrder))
    else if block.Number() == q.last.value.number then
      (q, if block.Anchor() == q.last.value then Ok(false) else Err(Conflict))
    else if block.Number() != q.last.value.number + 1 then
      (q, Err(Gap))
    else if block.header.parentHash != q.last.value.hash then
      (q, Err(ParentMismatch))
    else
      (appended, Ok(true))
  }

  /** Index of the first pending block at `number`, or the length of the queue. */
  function FindNumber(pending: seq<Block>, number: U64): (i: nat)
    ensures i <= |pending|
    ensures i < |pending| ==> pending[i].Number() == number
    ensures forall j :: 0 <= j < i ==> pending[j].Number() != number
  {
    if pending == [] || pending[0].Number() == number then 0
    else 1 + FindNumber(pending[1..], number)
  }

  function TryEnqueueSealed(q: Queue, block: Block): (r: (Queue, Result<bool, QueueError>))
  {
    var i := FindNumber(q.pending, block.Number());
    if i < |q.pending| then
      (q, if q.pending[i].Anchor() == block.Anchor() then Ok(false) else Err(Conflict))
    else
      TryEnqueue(q, block)
  }

  /** A walk to `anchor` passes lower blocks and the anchor itself, and stops at anything else. */
  predicate Passes(block: Block, anchor: NumHash)
  {
    block.Number() < anchor.number || block.Anchor() == anchor
  }

  /** How many leading blocks a walk to `anchor` passes. */
  function Passed(pending: seq<Block>, anchor: NumHash): (k: nat)
    ensures k <= |pending|
    ensures forall j :: 0 <= j < k ==> Passes(pending[j], anchor)
    ensures k < |pending| ==> !Passes(pending[k], anchor)
  {
    if pending == [] || !Passes(pending[0], anchor) then 0
    else 1 + Passed(pending[1..], anchor)
  }

  /** The walk stops at the anchor's own height: the queue holds a different hash there. */
  predicate Blocked(pending: seq<Block>, anchor: NumHash)
  {
    var k := Passed(pending, anchor);
    k < |pending| && pending[k].Number() == anchor.number
  }

  predicate DeferredAgrees(deferred: Option<Deferred>, anchor: NumHash)
  {
    deferred.Some? && deferred.value.lastHeader.anchor.number == anchor.number
    ==> deferred.value.lastHeader.anchor == anchor
  }

  function DeferThrough(q: Queue, anchor: NumHash): (r: (Queue, bool))
  {
    var k := Passed(q.pending, anchor);
    var deferred := PushAll(q.deferred, q.pending[..k]);
    (Queue(q.pending[k..], deferred, q.last), !Blocked(q.pending, anchor) && DeferredAgrees(deferred, anchor))
  }

  function OperationalWork(q: Queue, anchor: NumHash): (r: Result<seq<Block>, QueueError>)
  {
    if q.pending == [] then Err(EmptyQueue)
    else if q.pending[0].Anchor() != anchor then Err(AnchorMismatch)
    else Ok((if q.deferred.Some? then [Aggregated(q.deferred.value)] else []) + [q.pending[0]])
  }

  function Confirm(q: Queue, anchor: NumHash): (r: (Queue, Result<Block, QueueError>))
  {
    if q.pending == [] then (q, Err(EmptyQueue))
    else if q.pending[0].Anchor() != anchor then (q, Err(AnchorMismatch))
    else (q.(pending := q.pending[1..]), Ok(q.pending[0]))
  }

  function ConfirmOperational(q: Queue, anchor: NumHash): (r: (Queue, Result<Block, QueueError>))
  {
    var (after, outcome) := Confirm(q, anchor);
    (if outcome.Ok? then after.(deferred := None) else after, outcome)
  }

  function ConfirmThrough(q: Queue, anchor: NumHash): (r: (Queue, bool))
  {
    var rest := q.pending[Passed(q.pending, anchor)..];
    if Blocked(q.pending, anchor) then
      (q.(pending := rest), false)
    else if q.deferred.Some? && q.deferred.value.lastHeader.anchor.number <= anchor.number then
      (q.(pending := rest, deferred := None), true)
    else
      (q.(pending := rest), true)
  }

  function RestoreDeferred(q: Queue, deferred: Deferred): (r: (Queue, bool))
  {
    if q == EMPTY then (Queue([], Some(deferred), Some(deferred.lastHeader.anchor)), true) else (q, false)
  }

  // ---- The queue object -------------------------------------------------------------------------

  /** Build the aggregated block by appending each retained group's operational events. */
  method AggregatedBlock(d: Deferred) returns (block: Block)
    ensures block == Aggregated(d)
    ensures block.header == d.lastHeader && EventWork(block.events) == EventsWork(d.groups)
    ensures block.events.rotations == [] && block.events.leaderTransitions == [] && block.events.pause.None?
  {
    var events := NO_EVENTS;
    for i := 0 to |d.groups|
      invariant EventWork(events) == EventsWork(d.groups[..i])
      invariant events.rotations == [] && events.leaderTransitions == [] && events.pause == None
    {
      assert d.groups[..i + 1][..i] == d.groups[..i];
      events := events.(deposits := events.deposits + d.groups[i].deposits,
                        tokens := events.tokens + d.groups[i].tokens);
    }
    assert d.groups[..|d.groups|] == d.groups;
    block := Block(d.lastHeader, events);
  }

  lemma {:induction false} PushAllFront(d: Option<Deferred>, blocks: seq<Block>)
    requires blocks != []
    ensures PushAll(d, blocks) == PushAll(Some(Push(d, blocks[0])), blocks[1..])
  {
    var n := |blocks| - 1;
    if n == 0 {
    } else {
      PushAllFront(d, blocks[..n]);
      assert blocks[..n][1..] == blocks[1..][..n - 1];
    }
  }

  lemma WalkOne(pending: seq<Block>, anchor: NumHash)
    requires pending != [] && Passes(pending[0], anchor)
    ensures pending[Passed(pending, anchor)..] == pending[1..][Passed(pending[1..], anchor)..]
    ensures Blocked(pending, anchor) == Blocked(pending[1..], anchor)
  {
  }

  /** Deferring the front block first changes nothing about a walk that passes it. */
  lemma DeferOne(q: Queue, anchor: NumHash)
    requires q.pending != [] && Passes(q.pending[0], anchor)
    ensures DeferThrough(q, anchor)
         == DeferThrough(Queue(q.pending[1..], Some(Push(q.deferred, q.pending[0])), q.last), anchor)
  {
    var k := Passed(q.pending, anchor);
    PushAllFront(q.deferred, q.pending[..k]);
    WalkOne(q.pending, anchor);
    assert q.pending[..k][1..] == q.pending[1..][..k - 1];
  }

  lemma ConfirmOne(q: Queue, anchor: NumHash)
    requires q.pending != [] && Passes(q.pending[0], anchor)
    ensures ConfirmThrough(q, anchor) == ConfirmThrough(q.(pending := q.pending[1..]), anchor)
  {
  }

  class PendingDeposits {
    var pending: seq<Block>
    var deferred: Option<Deferred>
    var lastEnqueued: Option<NumHash>

    function State(): Queue
      reads this
    {
      Queue(pending, deferred, lastEnqueued)
    }

    constructor ()
      ensures State() == EMPTY
    {
      pending, deferred, lastEnqueued := [], None, None;
    }

    method Enqueue(block: Block) returns (r: Result<bool, QueueError>)
      modifies this
      ensures (State(), r) == TryEnqueue(old(State()), block)
    {
      if lastEnqueued.Some? {
        var tip := lastEnqueued.value;
        if block.Number() < tip.number {
          return Err(OutOfOrder);
        }
        if block.Number() == tip.number {
          if block.Anchor().hash != tip.hash {
            return Err(Conflict);
          }
          return Ok(false);
        }
        if block.Number() != tip.number + 1 {
          return Err(Gap);
        }
        if block.header.parentHash != tip.hash {
          return Err(ParentMismatch);
        }
      }
      lastEnqueued := Some(block.Anchor());
      pending := pending + [block];
      r := Ok(true);
    }

    method EnqueueSealed(block: Block) returns (r: Result<bool, QueueError>)
      modifies this
      ensures (State(), r) == TryEnqueueSealed(old(State()), block)
    {
      var i := FindNumber(pending, block.Number());
      if i < |pending| {
        if pending[i].Anchor().hash != block.Anchor().hash {
          return Err(Conflict);
        }
        return Ok(false);
      }
      r := Enqueue(block);
    }

    method DeferFront()
      requires pending != []
      modifies this
      ensures State() == Queue(old(pending)[1..], Some(Push(old(deferred), old(pending)[0])), old(lastEnqueued))
    {
      deferred := Some(Push(deferred, pending[0]));
      pending := pending[1..];
    }

    method Defer(anchor: NumHash) returns (ok: bool)
      modifies this
      ensures (State(), ok) == DeferThrough(old(State()), anchor)
    {
      while pending != [] && pending[0].Number() <= anchor.number
        invariant DeferThrough(State(), anchor) == DeferThrough(old(State()), anchor)
        decreases |pending|
      {
        if pending[0].Number() == anchor.number && pending[0].Anchor().hash != anchor.hash {
          assert pending[0..] == pending;
          return false;
        }
        DeferOne(State(), anchor);
        DeferFront();
      }
      assert pending[0..] == pending;
      if deferred.Some? && deferred.value.lastHeader.anchor.number == anchor.number {
        if deferred.value.lastHeader.anchor.hash != anchor.hash {
          return false;
        }
      }
      ok := true;
    }

    method WorkFor(anchor: NumHash) returns (r: Result<seq<Block>, QueueError>)
      ensures r == OperationalWork(State(), anchor)
    {
      if pending == [] {
        return Err(EmptyQueue);
      }
      if pending[0].Anchor() != anchor {
        return Err(AnchorMismatch);
      }
      var work: seq<Block> := [];
      if deferred.Some? {
        var aggregated := AggregatedBlock(deferred.value);
        work := [aggregated];
      }
      r := Ok(work + [pending[0]]);
    }

    method ConfirmFront(anchor: NumHash) returns (r: Result<Block, QueueError>)
      modifies this
      ensures (State(), r) == Confirm(old(State()), anchor)
    {
      if pending == [] {
        return Err(EmptyQueue);
      }
      if pending[0].Anchor() != anchor {
        return Err(AnchorMismatch);
      }
      r := Ok(pending[0]);
      pending := pending[1..];
    }

    method ConfirmFull(anchor: NumHash) returns (r: Result<Block, QueueError>)
      modifies this
      ensures (State(), r) == ConfirmOperational(old(State()), anchor)
    {
      r := ConfirmFront(anchor);
      if r.Ok? {
        deferred := None;
      }
    }

    method Reconcile(anchor: NumHash) returns (ok: bool)
      modifies this
      ensures (State(), ok) == ConfirmThrough(old(State()), anchor)
    {
      while pending != []
        invariant ConfirmThrough(State(), anchor) == ConfirmThrough(old(State()), anchor)
        decreases |pending|
      {
        assert pending[0..] == pending;
        if pending[0].Number() > anchor.number {
          break;
        }
        if pending[0].Number() == anchor.number && pending[0].Anchor().hash != anchor.hash {
          return false;
        }
        ConfirmOne(State(), anchor);
        var _ := ConfirmFront(pending[0].Anchor());
      }
      if deferred.Some? && deferred.value.lastHeader.anchor.number <= anchor.number {
        deferred := None;
      }
      ok := true;
    }

    method Restore(d: Deferred) returns (ok: bool)
      modifies this
      ensures (State(), ok) == RestoreDeferred(old(State()), d)
    {
      if !(pending == [] && deferred.None? && lastEnqueued.None?) {
        return false;
      }
      lastEnqueued := Some(d.lastHeader.anchor);
      deferred := Some(d);
      ok := true;
    }
  }
}
