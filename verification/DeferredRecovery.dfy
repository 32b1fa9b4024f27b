/** Rebuilding deferred work after a restart, compared with the queue that crashed. */
module DeferredRecovery {
  import opened PortalEvents
  import opened DepositQueue
  import opened QueueRuns

  /** The blocks `first..=last` as the L1 provider returns them. */
  function Fetched(fetch: U64 -> Block, first: U64, last: U64): (blocks: seq<Block>)
    requires first <= last
    ensures |blocks| == last - first + 1
    ensures forall i :: 0 <= i < |blocks| ==> blocks[i] == fetch(first + i)
    decreases last
  {
    (if first == last then [] else Fetched(fetch, first, last - 1)) + [fetch(last)]
  }

  datatype Recovery = Skipped | Recovered | WrongTip | NotEmpty

  /** What recovery leaves behind: the queue and how it ended. */
  function Recover(q: Queue, start: Option<U64>, checkpoint: NumHash, fetch: U64 -> Block): (r: (Queue, Recovery))
  {
    if start.None? || q.last.Some? || start.value > checkpoint.number then
      (q, Skipped)
    else
      var blocks := Fetched(fetch, start.value, checkpoint.number);
      if blocks[|blocks| - 1].Anchor() != checkpoint then (q, WrongTip)
      else
        PushAllKeepsWork(None, blocks);
        var (after, ok) := RestoreDeferred(q, Compact(blocks).value);
        (after, if ok then Recovered else NotEmpty)
  }

  /** How recovery ends, and that it touches the queue only when it succeeds. */
  lemma RecoverExactly(q: Queue, start: Option<U64>, checkpoint: NumHash, fetch: U64 -> Block)
    ensures var (after, outcome) := Recover(q, start, checkpoint, fetch);
            var owed := start.Some? && start.value <= checkpoint.number && q.last.None?;
            var tip := fetch(checkpoint.number).header.anchor == checkpoint;
            && (outcome == Skipped <==> !owed)
            && (outcome == WrongTip <==> owed && !tip)
            && (outcome == Recovered <==> owed && tip && q == EMPTY)
            && (outcome != Recovered ==> after == q)
            && (outcome == Recovered ==>
                  after == Queue([], Compact(Fetched(fetch, start.value, checkpoint.number)), Some(checkpoint)))
  {
    if start.Some? && start.value <= checkpoint.number {
      PushAllKeepsWork(None, Fetched(fetch, start.value, checkpoint.number));
    }
  }

  /** Compact a nonempty stream of blocks as it arrives. */
  method CompactStream(blocks: seq<Block>) returns (deferred: Deferred)
    requires blocks != []
    ensures Some(deferred) == Compact(blocks)
  {
    var work: Option<Deferred> := None;
    for i := 0 to |blocks|
      invariant work == Compact(blocks[..i])
    {
      assert blocks[..i + 1] == blocks[..i] + [blocks[i]];
      CompactSnoc(blocks[..i], blocks[i]);
      work := Some(Push(work, blocks[i]));
    }
    assert blocks[..|blocks|] == blocks;
    PushAllKeepsWork(None, blocks);
    deferred := work.value;
  }

  method RecoverDeferredWork(queue: PendingDeposits, start: Option<U64>, checkpoint: NumHash, fetch: U64 -> Block)
    returns (outcome: Recovery)
    modifies queue
    ensures (queue.State(), outcome) == Recover(old(queue.State()), start, checkpoint, fetch)
  {
    if start.None? || queue.lastEnqueued.Some? || start.value > checkpoint.number {
      return Skipped;
    }
    var blocks := Fetched(fetch, start.value, checkpoint.number);
    var deferred := CompactStream(blocks);
    PushAllKeepsWork(None, blocks);
    if deferred.lastHeader.anchor != checkpoint {
      return WrongTip;
    }
    var ok := queue.Restore(deferred);
    outcome := if ok then Recovered else NotEmpty;
  }

  /** Ingest `blocks` one after the other. */
  function IngestAll(q: Queue, blocks: seq<Block>): Queue
  {
    if blocks == [] then q else TryEnqueueSealed(IngestAll(q, blocks[..|blocks| - 1]), blocks[|blocks| - 1]).0
  }

  lemma AppendingAChild(q: Queue, tip: Block)
    requires forall i :: 0 <= i < |q.pending| ==> q.pending[i].Number() < tip.Number()
    requires q.last.Some? ==>
      tip.Number() == q.last.value.number + 1 && tip.header.parentHash == q.last.value.hash
    ensures TryEnqueueSealed(q, tip).0 == Queue(q.pending + [tip], q.deferred, Some(tip.Anchor()))
  {
  }

  lemma {:induction false} IngestingAChild(q: Queue, blocks: seq<Block>)
    requires q.pending == [] && Linked(blocks)
    requires q.last.Some? && blocks != [] ==>
      blocks[0].Number() == q.last.value.number + 1 && blocks[0].header.parentHash == q.last.value.hash
    ensures IngestAll(q, blocks)
         == Queue(blocks, q.deferred, if blocks == [] then q.last else Some(blocks[|blocks| - 1].Anchor()))
  {
    if blocks == [] {
    } else {
      var n := |blocks| - 1;
      var front, tip := blocks[..n], blocks[n];
      LinkedPrefix(blocks, n);
      IngestingAChild(q, front);
      assert front + [tip] == blocks;
      if n > 0 {
        assert ChildAt(blocks, n);
        forall i | 0 <= i < n ensures front[i].Number() < tip.Number() { LinkedNumbers(blocks, i, n); }
      }
      AppendingAChild(IngestAll(q, front), tip);
    }
  }

  /** The canonical chain returns every block this node ever accepted. */
  ghost predicate Serves(fetch: U64 -> Block, blocks: seq<Block>)
  {
    forall i :: 0 <= i < |blocks| ==> fetch(blocks[i].Number()) == blocks[i]
  }

  lemma FetchedRange(fetch: U64 -> Block, blocks: seq<Block>, i: nat, j: nat)
    requires Linked(blocks) && Serves(fetch, blocks) && i < j <= |blocks|
    ensures blocks[i].Number() <= blocks[j - 1].Number()
    ensures Fetched(fetch, blocks[i].Number(), blocks[j - 1].Number()) == blocks[i..j]
  {
    LinkedNumbers(blocks, i, j - 1);
    var fetched := Fetched(fetch, blocks[i].Number(), blocks[j - 1].Number());
    forall k | 0 <= k < j - i ensures fetched[k] == blocks[i..j][k] {
      LinkedNumbers(blocks, i, i + k);
    }
  }

  lemma RecoveredRange(l: Ledger, fetch: U64 -> Block)
    requires Inv(l) && l.crossed != [] && Serves(fetch, l.enqueued)
    ensures l.crossed[0].Number() <= l.crossed[|l.crossed| - 1].Number()
    ensures Fetched(fetch, l.crossed[0].Number(), l.crossed[|l.crossed| - 1].Number()) == l.crossed
  {
    var c, m := |l.consumed|, |l.consumed + l.crossed|;
    assert l.enqueued[c..m] == l.crossed;
    assert l.enqueued[c] == l.crossed[0] && l.enqueued[m - 1] == l.crossed[|l.crossed| - 1];
    FetchedRange(fetch, l.enqueued, c, m);
  }

  lemma RebuildsDeferred(crossed: seq<Block>, fetch: U64 -> Block)
    requires crossed != [] && crossed[0].Number() <= crossed[|crossed| - 1].Number()
    requires Fetched(fetch, crossed[0].Number(), crossed[|crossed| - 1].Number()) == crossed
    ensures var checkpoint := crossed[|crossed| - 1].Anchor();
            Recover(EMPTY, Some(crossed[0].Number()), checkpoint, fetch)
            == (Queue([], Compact(crossed), Some(checkpoint)), Recovered)
  {
  }

  lemma ReingestsPending(l: Ledger)
    requires Inv(l) && l.crossed != []
    ensures IngestAll(Queue([], l.q.deferred, Some(l.crossed[|l.crossed| - 1].Anchor())), l.q.pending) == l.q
  {
    PendingLinked(l.q, l.enqueued, l.consumed, l.crossed);
    var m := |l.consumed + l.crossed|;
    var tip := l.crossed[|l.crossed| - 1];
    assert l.enqueued[m - 1] == tip;
    if l.q.pending != [] {
      assert ChildAt(l.enqueued, m);
    }
    IngestingAChild(Queue([], l.q.deferred, Some(tip.Anchor())), l.q.pending);
  }

  /**
   Crash recovery refines the live run. Take any reachable state of the queue with deferred work.
   Restarting from the persisted checkpoint, rebuilding the deferred range from the chain and
   ingesting the later blocks again gives the very same queue, however the live deferrals were
   split across checkpoint anchors.
   */
  lemma RecoveryRefinesLiveRun(l: Ledger, fetch: U64 -> Block)
    requires Inv(l) && l.crossed != [] && Serves(fetch, l.enqueued)
    ensures var checkpoint := l.crossed[|l.crossed| - 1].Anchor();
            var (q, outcome) := Recover(EMPTY, Some(l.crossed[0].Number()), checkpoint, fetch);
            outcome == Recovered && IngestAll(q, l.q.pending) == l.q
  {
    RecoveredRange(l, fetch);
    RebuildsDeferred(l.crossed, fetch);
    ReingestsPending(l);
  }

  /** With nothing deferred recovery is skipped, and re-ingestion rebuilds the pending blocks. */
  lemma RestartWithoutDeferredWork(l: Ledger, start: Option<U64>, checkpoint: NumHash, fetch: U64 -> Block)
    requires Inv(l) && l.crossed == []
    requires start.Some? ==> start.value > checkpoint.number
    ensures var (q, outcome) := Recover(EMPTY, start, checkpoint, fetch);
            && outcome == Skipped
            && IngestAll(q, l.q.pending) == l.q.(last := if l.q.pending == [] then None else l.q.last)
  {
    assert l.enqueued[|l.consumed|..] == l.q.pending;
    LinkedSuffix(l.enqueued, |l.consumed|);
    IngestingAChild(EMPTY, l.q.pending);
  }

  /** A recovered queue continues the run: the crossed range is owed, what was consumed stays consumed. */
  lemma RecoveredQueueStartsARun(consumed: seq<Block>, crossed: seq<Block>)
    requires crossed != [] && Linked(consumed + crossed)
    ensures var q := Queue([], Compact(crossed), Some(crossed[|crossed| - 1].Anchor()));
            Inv(Ledger(q, consumed + crossed, consumed, crossed, WorkOf(consumed), None))
  {
    assert consumed + crossed == consumed + crossed + [];
  }
}
