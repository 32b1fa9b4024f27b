/**
 Idempotence and order of the queue operations that follow canonical Zone blocks, and exactly when
 each of them keeps the owed work in order.
 */
module QueueReconciliation {
  import opened PortalEvents
  import opened DepositQueue
  import opened QueueRuns

  /** Some prefix of the accepted blocks is consumed, and the queue owes the rest in order. */
  ghost predicate InOrder(q: Queue, enqueued: seq<Block>)
  {
    exists consumed, crossed :: Tidy(q, enqueued, consumed, crossed)
  }

  /** In order, deferred work ends just before the first pending block. */
  lemma DeferredEndsBeforePending(q: Queue, enqueued: seq<Block>)
    requires InOrder(q, enqueued) && q.deferred.Some?
    ensures |q.pending| < |enqueued|
    ensures q.deferred.value.lastHeader == enqueued[|enqueued| - |q.pending| - 1].header
  {
  }

  /** Dropping pending blocks while keeping deferred work leaves a hole in what is owed. */
  lemma DroppingBehindDeferredBreaksOrder(q: Queue, enqueued: seq<Block>, k: nat)
    requires InOrder(q, enqueued) && q.deferred.Some? && 0 < k <= |q.pending|
    ensures !InOrder(q.(pending := q.pending[k..]), enqueued)
  {
    var after := q.(pending := q.pending[k..]);
    DeferredEndsBeforePending(q, enqueued);
    if InOrder(after, enqueued) {
      DeferredEndsBeforePending(after, enqueued);
      var consumed, crossed :| Tidy(q, enqueued, consumed, crossed);
      LinkedNumbers(enqueued, |enqueued| - |q.pending| - 1, |enqueued| - |q.pending| - 1 + k);
    }
  }

  /**
   Follower reconciliation takes a prefix of deferred-then-pending work, except in one case: it
   fails on a conflicting hash after it popped lower blocks while work was still deferred.
   */
  lemma ReconcileKeepsOrderExactly(q: Queue, enqueued: seq<Block>, anchor: NumHash)
    requires InOrder(q, enqueued)
    ensures InOrder(ConfirmThrough(q, anchor).0, enqueued) <==> !FailsPastDeferred(q, anchor)
    ensures ConfirmThrough(q, anchor).1 ==> !FailsPastDeferred(q, anchor)
  {
    var consumed, crossed :| Tidy(q, enqueued, consumed, crossed);
    if FailsPastDeferred(q, anchor) {
      PendingLinked(q, enqueued, consumed, crossed);
      BlockedAtFront(q.pending, anchor);
      DroppingBehindDeferredBreaksOrder(q, enqueued, Passed(q.pending, anchor));
    } else {
      var l := Ledger(q, enqueued, consumed, crossed, WorkOf(consumed), None);
      ReconcileKeepsInv(l, anchor);
      var n := Reconciling(l, anchor);
      assert Tidy(n.q, enqueued, n.consumed, n.crossed);
    }
  }

  /** Blocks of a chain in which block `n` bounces back the amount `n`. */
  function NumberedBlock(n: U64): Block
  {
    Block(Header(NumHash(n, n), if n == 0 then 0 else n - 1, 0), NO_EVENTS.(deposits := [BounceBack(0, 0, n)]))
  }

  lemma SingleWork(block: Block)
    ensures WorkOf([block]) == EventWork(block.events)
  {
    assert [block][..0] == [];
    ThenAssociates(EventWork(block.events), NO_WORK, NO_WORK);
  }

  /**
   The failing case happens: block 1 deferred, 2 and 3 pending, a follower told 3 has hash 9. Block 2
   is dropped undelivered, and its deposit is in nothing that the queue still owes.
   */
  lemma ReconcileFailureExample()
    ensures var b1, b2, b3 := NumberedBlock(1), NumberedBlock(2), NumberedBlock(3);
            var q := Queue([b2, b3], Compact([b1]), Some(NumHash(3, 3)));
            var after := ConfirmThrough(q, NumHash(3, 9)).0;
            && InOrder(q, [b1, b2, b3])
            && !InOrder(after, [b1, b2, b3])
            && DeferredWork(after.deferred).Then(WorkOf(after.pending)).deposits == [BounceBack(0, 0, 1), BounceBack(0, 0, 3)]
  {
    var b1, b2, b3 := NumberedBlock(1), NumberedBlock(2), NumberedBlock(3);
    var q := Queue([b2, b3], Compact([b1]), Some(NumHash(3, 3)));
    var all := [b1, b2, b3];
    assert ChildAt(all, 1) && ChildAt(all, 2);
    assert Tidy(q, all, [], [b1]);
    assert Passed(q.pending, NumHash(3, 9)) == 1 by {
      assert q.pending[1..] == [b3];
    }
    assert ConfirmThrough(q, NumHash(3, 9)).0 == q.(pending := [b3]);
    PushAllKeepsWork(None, [b1]);
    ReconcileKeepsOrderExactly(q, all, NumHash(3, 9));
    SingleWork(b1);
    SingleWork(b3);
  }

  /** Confirming the front block alone keeps the order exactly when nothing is deferred. */
  lemma ConfirmKeepsOrderExactly(q: Queue, enqueued: seq<Block>, anchor: NumHash)
    requires InOrder(q, enqueued)
    ensures InOrder(Confirm(q, anchor).0, enqueued) <==> Confirm(q, anchor).1.Err? || q.deferred.None?
  {
    var consumed, crossed :| Tidy(q, enqueued, consumed, crossed);
    if Confirm(q, anchor).1.Ok? {
      if q.deferred.Some? {
        DroppingBehindDeferredBreaksOrder(q, enqueued, 1);
      } else {
        PendingFollowsCrossed(q, enqueued, consumed, crossed);
        assert consumed + crossed + q.pending == consumed + [q.pending[0]] + [] + q.pending[1..];
        assert Tidy(Confirm(q, anchor).0, enqueued, consumed + [q.pending[0]], []);
      }
    }
  }

  /** Repeating a successful reconciliation with the same anchor does nothing, on any queue. */
  lemma ReconcileIsIdempotent(q: Queue, anchor: NumHash)
    requires ConfirmThrough(q, anchor).1
    ensures ConfirmThrough(ConfirmThrough(q, anchor).0, anchor) == (ConfirmThrough(q, anchor).0, true)
  {
  }

  /** A delayed replay of an older full block keeps all work that was deferred past it. */
  lemma LateReplayKeepsDeferred(q: Queue, enqueued: seq<Block>, anchor: NumHash)
    requires InOrder(q, enqueued)
    requires q.deferred.Some? && q.deferred.value.lastHeader.anchor.number > anchor.number
    ensures ConfirmThrough(q, anchor) == (q, true) == DeferThrough(q, anchor)
  {
    var consumed, crossed :| Tidy(q, enqueued, consumed, crossed);
    LateAnchorIsIgnored(q, enqueued, consumed, crossed, anchor);
  }

  lemma {:induction false} LaterAnchorPassesMore(pending: seq<Block>, a: NumHash, b: NumHash)
    requires a.number < b.number || a == b
    ensures Passed(pending, b) == Passed(pending, a) + Passed(pending[Passed(pending, a)..], b)
  {
    var i := Passed(pending, a);
    if i == 0 {
      assert pending[i..] == pending;
    } else {
      LaterAnchorPassesMore(pending[1..], a, b);
      assert pending[i..] == pending[1..][i - 1..];
    }
  }

  lemma SliceTwice(blocks: seq<Block>, i: nat, j: nat)
    requires i + j <= |blocks|
    ensures blocks[..i] + blocks[i..][..j] == blocks[..i + j]
    ensures blocks[i..][j..] == blocks[i + j..]
    ensures i + j < |blocks| ==> blocks[i..][j] == blocks[i + j]
  {
  }

  lemma StagedWalk(pending: seq<Block>, a: NumHash, b: NumHash)
    requires a.number < b.number || a == b
    ensures var i := Passed(pending, a);
            var j := Passed(pending[i..], b);
            && i + j == Passed(pending, b)
            && pending[..i] + pending[i..][..j] == pending[..i + j]
            && pending[i..][j..] == pending[i + j..]
            && Blocked(pending[i..], b) == Blocked(pending, b)
  {
    hide Passed, Passes;
    LaterAnchorPassesMore(pending, a, b);
    var i := Passed(pending, a);
    SliceTwice(pending, i, Passed(pending[i..], b));
  }

  /** Deferring through `a` and then `b` is deferring through `b`, even if the first walk failed. */
  lemma DeferringInStages(q: Queue, a: NumHash, b: NumHash)
    requires a.number < b.number || a == b
    ensures DeferThrough(DeferThrough(q, a).0, b) == DeferThrough(q, b)
  {
    hide Passed, PushAll, Blocked, DeferredAgrees;
    StagedWalk(q.pending, a, b);
    var i := Passed(q.pending, a);
    PushAllAppend(q.deferred, q.pending[..i], q.pending[i..][..Passed(q.pending[i..], b)]);
  }

  /** On a linked queue a walk passes exactly the blocks at or below an anchor it does not contradict. */
  lemma WalkExactly(pending: seq<Block>, anchor: NumHash)
    requires Linked(pending)
    ensures !Blocked(pending, anchor) <==>
      forall i :: 0 <= i < |pending| && pending[i].Number() == anchor.number ==> pending[i].Anchor() == anchor
    ensures !Blocked(pending, anchor) ==>
      forall i :: 0 <= i < |pending| ==> (i < Passed(pending, anchor) <==> pending[i].Number() <= anchor.number)
  {
    var k := Passed(pending, anchor);
    forall i | 0 <= i < |pending|
      ensures i < k ==> Passes(pending[i], anchor)
      ensures i >= k ==> pending[i].Number() == pending[k].Number() + (i - k)
    {
      if i >= k {
        LinkedNumbers(pending, k, i);
      }
    }
  }

  /**
   Deferral, exactly. It succeeds if and only if neither a pending block nor the end of the deferred
   work contradicts the anchor at its height. Then it crosses every block at or below the anchor
   and no other.
   */
  lemma DeferExactly(q: Queue, enqueued: seq<Block>, anchor: NumHash)
    requires InOrder(q, enqueued)
    ensures var (after, ok) := DeferThrough(q, anchor);
            && (ok <==> DeferredAgrees(q.deferred, anchor)
                        && forall i :: 0 <= i < |q.pending| && q.pending[i].Number() == anchor.number ==>
                             q.pending[i].Anchor() == anchor)
            && (ok ==> forall i :: 0 <= i < |q.pending| ==>
                  (i < |q.pending| - |after.pending| <==> q.pending[i].Number() <= anchor.number))
            && InOrder(after, enqueued)
  {
    var consumed, crossed :| Tidy(q, enqueued, consumed, crossed);
    var l := Ledger(q, enqueued, consumed, crossed, WorkOf(consumed), None);
    DeferKeepsInv(l, anchor);
    assert Tidy(Deferring(l, anchor).q, enqueued, consumed, Deferring(l, anchor).crossed);
    PendingLinked(q, enqueued, consumed, crossed);
    PendingFollowsCrossed(q, enqueued, consumed, crossed);
    WalkExactly(q.pending, anchor);
    PushAllKeepsWork(q.deferred, q.pending[..Passed(q.pending, anchor)]);
  }

  /**
   Reconciliation, exactly. It succeeds if and only if no pending block contradicts the anchor, and
   then nothing at or below the anchor is still owed, while every later block still is.
   */
  lemma ReconcileExactly(q: Queue, enqueued: seq<Block>, anchor: NumHash)
    requires InOrder(q, enqueued)
    ensures var (after, ok) := ConfirmThrough(q, anchor);
            && (ok <==> forall i :: 0 <= i < |q.pending| && q.pending[i].Number() == anchor.number ==>
                          q.pending[i].Anchor() == anchor)
            && (ok ==> after.deferred == if q.deferred.Some? && q.deferred.value.lastHeader.anchor.number > anchor.number
                                         then q.deferred else None)
            && (ok ==> forall i :: 0 <= i < |q.pending| ==>
                  (i < |q.pending| - |after.pending| <==> q.pending[i].Number() <= anchor.number))
  {
    var consumed, crossed :| Tidy(q, enqueued, consumed, crossed);
    PendingLinked(q, enqueued, consumed, crossed);
    WalkExactly(q.pending, anchor);
  }

  /**
   Admission on an in-order queue: a block is appended exactly when it is the child of the newest
   accepted block, and accepted as a redelivery exactly when it is that block or a pending one.
   */
  lemma AdmissionExactly(q: Queue, enqueued: seq<Block>, block: Block)
    requires InOrder(q, enqueued) && enqueued != []
    ensures var (after, r) := TryEnqueueSealed(q, block);
            && (r == Ok(true) <==> Linked(enqueued + [block]))
            && (r == Ok(true) ==> InOrder(after, enqueued + [block]))
            && (r == Ok(false) <==> Some(block.Anchor()) == q.last
                                    || exists i :: 0 <= i < |q.pending| && q.pending[i].Anchor() == block.Anchor())
            && (r != Ok(true) ==> after == q)
  {
    var consumed, crossed :| Tidy(q, enqueued, consumed, crossed);
    var all := enqueued + [block];
    var f := FindNumber(q.pending, block.Number());
    PendingLinked(q, enqueued, consumed, crossed);
    forall i | 0 <= i < |q.pending|
      ensures q.pending[i].Number() == q.last.value.number - (|q.pending| - 1 - i)
      ensures q.pending[i].Number() == block.Number() ==> i == f
    {
      assert q.pending[|q.pending| - 1] == enqueued[|enqueued| - 1];
      LinkedNumbers(q.pending, i, |q.pending| - 1);
      if f < |q.pending| {
        LinkedNumbers(q.pending, f, |q.pending| - 1);
      }
    }
    if Linked(all) {
      assert ChildAt(all, |enqueued|);
    }
    if TryEnqueueSealed(q, block).1 == Ok(true) {
      LinkedAppend(enqueued, block);
      assert consumed + crossed + q.pending + [block] == consumed + crossed + (q.pending + [block]);
      assert Tidy(TryEnqueueSealed(q, block).0, all, consumed, crossed);
    }
  }

  // ---- Each operation, field by field -------------------------------------------------------------------------

  /** Operational work is offered exactly under the front's own anchor: what is deferred, then the front. */
  lemma OperationalWorkExactly(q: Queue, anchor: NumHash)
    ensures var r := OperationalWork(q, anchor);
            && (r.Ok? <==> q.pending != [] && q.pending[0].header.anchor == anchor)
            && (r == Err(EmptyQueue) <==> q.pending == [])
            && (r.Ok? ==> r.value[|r.value| - 1] == q.pending[0] && |r.value| == if q.deferred.Some? then 2 else 1)
            && (r.Ok? && q.deferred.Some? ==>
                  && r.value[0].header == q.deferred.value.lastHeader
                  && r.value[0].events == Events(EventsWork(q.deferred.value.groups).deposits,
                                                 EventsWork(q.deferred.value.groups).tokens, [], [], None))
  {
  }

  /** A confirmation takes exactly the front, under its own anchor; only a full one releases deferred work. */
  lemma ConfirmExactly(q: Queue, anchor: NumHash)
    ensures var matches := q.pending != [] && q.pending[0].header.anchor == anchor;
            var (one, r) := Confirm(q, anchor);
            var (full, s) := ConfirmOperational(q, anchor);
            && r == s && (r.Ok? <==> matches) && (r == Err(EmptyQueue) <==> q.pending == [])
            && (matches ==> r.value == q.pending[0] && [q.pending[0]] + one.pending == q.pending == [q.pending[0]] + full.pending)
            && (matches ==> one.deferred == q.deferred && full.deferred == None && one.last == q.last == full.last)
            && (!matches ==> one == q == full)
  {
  }

  /** Deferred work is seeded exactly into a queue that never held anything. */
  lemma RestoreExactly(q: Queue, d: Deferred)
    ensures var (after, ok) := RestoreDeferred(q, d);
            && (ok <==> q.pending == [] && q.deferred.None? && q.last.None?)
            && (ok ==> after.pending == [] && after.deferred == Some(d) && after.last == Some(d.lastHeader.anchor))
            && (!ok ==> after == q)
  {
  }

  /** Why a block is refused, whatever the queue holds. */
  lemma RejectionsExactly(q: Queue, block: Block)
    requires q.last.Some? && forall i :: 0 <= i < |q.pending| ==> q.pending[i].Number() != block.Number()
    ensures var tip, r := q.last.value, TryEnqueueSealed(q, block).1;
            && (r == Err(OutOfOrder) <==> block.Number() < tip.number)
            && (r == Err(Conflict) <==> block.Number() == tip.number && block.Anchor().hash != tip.hash)
            && (r == Ok(false) <==> block.Number() == tip.number && block.Anchor().hash == tip.hash)
            && (r == Err(Gap) <==> block.Number() > tip.number + 1)
            && (r == Err(ParentMismatch) <==> block.Number() == tip.number + 1 && block.header.parentHash != tip.hash)
            && (r == Ok(true) <==> block.Number() == tip.number + 1 && block.header.parentHash == tip.hash)
  {
  }

  /** A block at a pending height is a repetition or a conflict, and a new queue takes any first block. */
  lemma KnownHeightsExactly(q: Queue, block: Block, i: nat)
    ensures i < |q.pending| && q.pending[i].Number() == block.Number()
            && (forall j :: 0 <= j < i ==> q.pending[j].Number() != block.Number()) ==>
      TryEnqueueSealed(q, block)
      == (q, if q.pending[i].header.anchor.hash == block.header.anchor.hash then Ok(false) else Err(Conflict))
    ensures TryEnqueueSealed(EMPTY, block) == (Queue([block], None, Some(block.header.anchor)), Ok(true))
  {
    assert [] + [block] == [block];
  }
}
