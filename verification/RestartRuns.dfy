/**
 Runs of the deposit queue across restarts. A restart loses the queue and everything pending. It
 keeps what is canonical on the Zone: the last L1 block of a full import, and the last one of any
 import. Deferred work is rebuilt from the L1 chain between the two.
 */
module RestartRuns {
  import opened PortalEvents
  import opened DepositQueue
  import opened QueueRuns
  import opened DeferredRecovery

  /** The finalized L1 chain, from the block that the Zone genesis is anchored to. */
  ghost predicate Canonical(fetch: U64 -> Block, genesis: NumHash)
  {
    && (forall n: U64 :: fetch(n).Number() == n)
    && (forall n: U64, m: U64 :: m == n + 1 ==> fetch(m).header.parentHash == fetch(n).Anchor().hash)
    && fetch(genesis.number).Anchor() == genesis
  }

  /**
   The life of a node: `past` are the blocks consumed before the last restart, `before` what they
   delivered, and `l` is the run of the queue since then.
   */
  datatype Life = Life(genesis: NumHash, past: seq<Block>, before: Work, l: Ledger)

  datatype Event = Queued(op: Op) | Restart

  function Tip(genesis: NumHash, blocks: seq<Block>): NumHash
  {
    if blocks == [] then genesis else blocks[|blocks| - 1].Anchor()
  }

  /** The last L1 block that a full Zone block imported. */
  function Operational(n: Life): NumHash
  {
    Tip(n.genesis, n.past + n.l.consumed)
  }

  /** The last L1 block that any Zone block imported. */
  function Checkpoint(n: Life): NumHash
  {
    Tip(n.genesis, n.past + n.l.consumed + n.l.crossed)
  }

  /** Everything handed to the Zone over the node's life. */
  function Delivered(n: Life): Work
  {
    n.before.Then(n.l.delivered)
  }

  function DeferredStart(n: Life): Option<U64>
  {
    if Operational(n).number < Checkpoint(n).number then Some(SaturatingAdd(Operational(n).number, 1)) else None
  }

  function Restarting(fetch: U64 -> Block, n: Life): Life
  {
    var q := Recover(EMPTY, DeferredStart(n), Checkpoint(n), fetch).0;
    n.(past := n.past + n.l.consumed, before := Delivered(n),
       l := Ledger(q, n.l.crossed, [], n.l.crossed, NO_WORK, None))
  }

  function Step(fetch: U64 -> Block, n: Life, e: Event): Life
  {
    match e
    case Queued(op) => n.(l := QueueRuns.Step(n.l, op))
    case Restart => Restarting(fetch, n)
  }

  function Run(fetch: U64 -> Block, n: Life, events: seq<Event>): Life
    decreases |events|
  {
    if events == [] then n else Run(fetch, Step(fetch, n, events[0]), events[1..])
  }

  /** Ingestion reads the canonical chain, and without a queue mark it resumes after the checkpoint. */
  predicate Sound(fetch: U64 -> Block, n: Life, e: Event)
  {
    e.Queued? ==>
      && QueueRuns.Sound(n.l, e.op)
      && (e.op.Ingest? ==>
            && e.op.block == fetch(e.op.block.Number())
            && (n.l.q.last.None? ==> e.op.block.Number() == Checkpoint(n).number + 1))
  }

  predicate AllSound(fetch: U64 -> Block, n: Life, events: seq<Event>)
    decreases |events|
  {
    events != [] ==> Sound(fetch, n, events[0]) && AllSound(fetch, Step(fetch, n, events[0]), events[1..])
  }

  /** A linked stretch of the canonical chain that starts right after `genesis`. */
  ghost predicate Follows(fetch: U64 -> Block, genesis: NumHash, blocks: seq<Block>)
  {
    && Linked(blocks) && Serves(fetch, blocks)
    && (blocks != [] ==> blocks[0].Number() == genesis.number + 1)
  }

  ghost predicate Inv(fetch: U64 -> Block, n: Life)
  {
    && QueueRuns.Inv(n.l)
    && n.before == WorkOf(n.past)
    && Follows(fetch, n.genesis, n.past + n.l.enqueued)
  }

  lemma FollowsAppend(fetch: U64 -> Block, genesis: NumHash, blocks: seq<Block>, block: Block)
    requires Canonical(fetch, genesis) && Follows(fetch, genesis, blocks)
    requires block == fetch(block.Number()) && block.Number() == Tip(genesis, blocks).number + 1
    ensures Follows(fetch, genesis, blocks + [block])
  {
    if blocks == [] {
    } else {
      LinkedAppend(blocks, block);
    }
  }

  lemma FollowsPrefix(fetch: U64 -> Block, genesis: NumHash, blocks: seq<Block>, rest: seq<Block>)
    requires Follows(fetch, genesis, blocks + rest)
    ensures Follows(fetch, genesis, blocks)
  {
    assert (blocks + rest)[..|blocks|] == blocks;
    LinkedPrefix(blocks + rest, |blocks|);
    assert forall i :: 0 <= i < |blocks| ==> blocks[i] == (blocks + rest)[i];
  }

  lemma OtherOpsAcceptNothing(l: Ledger, op: Op)
    requires !op.Ingest?
    ensures QueueRuns.Step(l, op).enqueued == l.enqueued
  {
  }

  lemma AcceptedIsNext(l: Ledger, block: Block, fromSubscriber: bool)
    requires QueueRuns.Inv(l)
    ensures l.q.last.None? <==> l.enqueued == []
    ensures var after := Ingested(l, block, fromSubscriber).enqueued;
            after == l.enqueued
            || (after == l.enqueued + [block]
                && (l.enqueued != [] ==> block.Number() == l.enqueued[|l.enqueued| - 1].Number() + 1))
  {
    hide Compact, WorkOf, OperationalWork, Linked;
  }

  lemma IngestStaysOnChain(fetch: U64 -> Block, n: Life, block: Block, fromSubscriber: bool)
    requires Canonical(fetch, n.genesis) && Inv(fetch, n) && Sound(fetch, n, Queued(Ingest(block, fromSubscriber)))
    ensures Follows(fetch, n.genesis, n.past + Ingested(n.l, block, fromSubscriber).enqueued)
  {
    var chain := n.past + n.l.enqueued;
    AcceptedIsNext(n.l, block, fromSubscriber);
    assert n.l.enqueued == [] ==> n.past + n.l.consumed + n.l.crossed == chain;
    assert n.l.enqueued != [] ==> chain[|chain| - 1] == n.l.enqueued[|n.l.enqueued| - 1];
    hide Ingested, Canonical, Follows, Compact, WorkOf, OperationalWork;
    if Ingested(n.l, block, fromSubscriber).enqueued != n.l.enqueued {
      FollowsAppend(fetch, n.genesis, chain, block);
      assert chain + [block] == n.past + (n.l.enqueued + [block]);
    }
  }

  lemma QueuedKeepsInv(fetch: U64 -> Block, n: Life, op: Op)
    requires Canonical(fetch, n.genesis) && Inv(fetch, n) && Sound(fetch, n, Queued(op))
    ensures Inv(fetch, Step(fetch, n, Queued(op)))
  {
    StepKeepsInv(n.l, op);
    if op.Ingest? {
      IngestStaysOnChain(fetch, n, op.block, op.fromSubscriber);
    } else {
      OtherOpsAcceptNothing(n.l, op);
    }
  }

  /** A stretch of the chain is what the provider returns for its heights, and starts after what is done. */
  lemma StretchIsFetched(fetch: U64 -> Block, genesis: NumHash, done: seq<Block>, more: seq<Block>)
    requires Follows(fetch, genesis, done + more) && more != []
    ensures Tip(genesis, done).number + 1 == more[0].Number() <= more[|more| - 1].Number()
    ensures Fetched(fetch, more[0].Number(), more[|more| - 1].Number()) == more
    ensures Tip(genesis, done + more) == more[|more| - 1].Anchor()
  {
    var chain := done + more;
    assert chain[|done|] == more[0] && chain[|chain| - 1] == more[|more| - 1];
    assert chain[|done|..|chain|] == more;
    if done != [] {
      assert chain[|done| - 1] == done[|done| - 1];
      assert ChildAt(chain, |done|);
    }
    hide Linked, Serves;
    FetchedRange(fetch, chain, |done|, |chain|);
  }

  lemma CrossedInChain(fetch: U64 -> Block, n: Life)
    requires Inv(fetch, n)
    ensures Follows(fetch, n.genesis, n.past + n.l.consumed + n.l.crossed)
  {
    hide Compact, WorkOf, Follows, OperationalWork;
    var chain := n.past + n.l.consumed + n.l.crossed;
    assert n.past + n.l.enqueued == chain + n.l.q.pending;
    FollowsPrefix(fetch, n.genesis, chain, n.l.q.pending);
  }

  /** Recovery rebuilds exactly the work that checkpoint-only blocks crossed. */
  lemma RestartRebuilds(fetch: U64 -> Block, n: Life)
    requires Inv(fetch, n)
    ensures Recover(EMPTY, DeferredStart(n), Checkpoint(n), fetch).0
         == if n.l.crossed == [] then EMPTY else Queue([], Compact(n.l.crossed), Some(Checkpoint(n)))
  {
    hide Compact, WorkOf;
    CrossedInChain(fetch, n);
    hide Inv, Follows, Fetched;
    var done, crossed := n.past + n.l.consumed, n.l.crossed;
    if crossed == [] {
      assert done + crossed == done;
    } else {
      StretchIsFetched(fetch, n.genesis, done, crossed);
      RebuildsDeferred(crossed, fetch);
    }
  }

  lemma EmptyLedger()
    ensures QueueRuns.Inv(START) && WorkOf([]) == NO_WORK
  {
  }

  lemma CrossedAreLinked(fetch: U64 -> Block, genesis: NumHash, done: seq<Block>, crossed: seq<Block>)
    requires Follows(fetch, genesis, done + crossed)
    ensures Linked([] + crossed)
  {
    assert (done + crossed)[|done|..] == crossed == [] + crossed;
    LinkedSuffix(done + crossed, |done|);
  }

  lemma RestartedLedger(fetch: U64 -> Block, n: Life)
    requires Inv(fetch, n)
    ensures QueueRuns.Inv(Restarting(fetch, n).l)
  {
    RestartRebuilds(fetch, n);
    CrossedInChain(fetch, n);
    EmptyLedger();
    hide Recover, Compact, Inv, WorkOf, Follows, DeferredStart, QueueRuns.Inv;
    var done, crossed := n.past + n.l.consumed, n.l.crossed;
    if crossed != [] {
      StretchIsFetched(fetch, n.genesis, done, crossed);
      CrossedAreLinked(fetch, n.genesis, done, crossed);
      assert [] + crossed == crossed;
      RecoveredQueueStartsARun([], crossed);
    }
  }

  lemma RestartKeepsInv(fetch: U64 -> Block, n: Life)
    requires Inv(fetch, n)
    ensures Inv(fetch, Restarting(fetch, n)) && Delivered(Restarting(fetch, n)) == Delivered(n)
  {
    RestartRebuilds(fetch, n);
    CrossedInChain(fetch, n);
    WorkOfAppend(n.past, n.l.consumed);
    ThenAssociates(Delivered(n), NO_WORK, NO_WORK);
    RestartedLedger(fetch, n);
    hide Recover, Follows, Compact, WorkOf;
  }

  lemma {:induction false} RunKeepsInv(fetch: U64 -> Block, n: Life, events: seq<Event>)
    requires Canonical(fetch, n.genesis) && Inv(fetch, n) && AllSound(fetch, n, events)
    ensures Inv(fetch, Run(fetch, n, events)) && Run(fetch, n, events).genesis == n.genesis
    decreases |events|
  {
    if events == [] {
    } else {
      match events[0] {
        case Queued(op) => QueuedKeepsInv(fetch, n, op);
        case Restart => RestartKeepsInv(fetch, n);
      }
      RunKeepsInv(fetch, Step(fetch, n, events[0]), events[1..]);
    }
  }

  /** The operational content of the canonical blocks after `from` up to `through`. */
  function ChainWork(fetch: U64 -> Block, from: NumHash, through: NumHash): Work
  {
    if from.number < through.number then WorkOf(Fetched(fetch, from.number + 1, through.number)) else NO_WORK
  }

  lemma StretchIsChainWork(fetch: U64 -> Block, genesis: NumHash, done: seq<Block>, more: seq<Block>)
    requires Follows(fetch, genesis, done + more)
    ensures ChainWork(fetch, Tip(genesis, done), Tip(genesis, done + more)) == WorkOf(more)
  {
    hide Follows, Fetched;
    if more == [] {
      assert done + more == done;
    } else {
      StretchIsFetched(fetch, genesis, done, more);
    }
  }

  lemma CompactKeepsWork(crossed: seq<Block>)
    ensures DeferredWork(Compact(crossed)) == WorkOf(crossed)
  {
    PushAllKeepsWork(None, crossed);
    ThenAssociates(WorkOf(crossed), NO_WORK, NO_WORK);
  }

  lemma LifeIsChainWork(fetch: U64 -> Block, n: Life)
    requires Inv(fetch, n)
    ensures Delivered(n) == ChainWork(fetch, n.genesis, Operational(n))
    ensures DeferredWork(n.l.q.deferred) == ChainWork(fetch, Operational(n), Checkpoint(n))
    ensures WorkOf(n.l.q.pending) == ChainWork(fetch, Checkpoint(n), Tip(n.genesis, n.past + n.l.enqueued))
  {
    hide ChainWork, WorkOf, Follows, Compact, OperationalWork, Linked;
    var done, crossed, pending := n.past + n.l.consumed, n.l.crossed, n.l.q.pending;
    assert n.past + n.l.enqueued == done + crossed + pending;
    StretchIsChainWork(fetch, n.genesis, done + crossed, pending);
    FollowsPrefix(fetch, n.genesis, done + crossed, pending);
    StretchIsChainWork(fetch, n.genesis, done, crossed);
    FollowsPrefix(fetch, n.genesis, done, crossed);
    assert [] + done == done;
    StretchIsChainWork(fetch, n.genesis, [], done);
    WorkOfAppend(n.past, n.l.consumed);
    CompactKeepsWork(crossed);
  }

  /**
   Exactly once and in order over the whole life of a node, through any number of restarts at any
   moment. What the Zone was handed is the content of the canonical L1 chain from genesis through
   the last full import. What is deferred is the content from there through the checkpoint.
   */
  lemma ExactlyOnceAcrossRestarts(fetch: U64 -> Block, genesis: NumHash, events: seq<Event>)
    requires Canonical(fetch, genesis) && AllSound(fetch, Life(genesis, [], NO_WORK, START), events)
    ensures var n := Run(fetch, Life(genesis, [], NO_WORK, START), events);
            && Delivered(n) == ChainWork(fetch, genesis, Operational(n))
            && DeferredWork(n.l.q.deferred) == ChainWork(fetch, Operational(n), Checkpoint(n))
            && WorkOf(n.l.q.pending) == ChainWork(fetch, Checkpoint(n), Tip(genesis, n.past + n.l.enqueued))
  {
    RunKeepsInv(fetch, Life(genesis, [], NO_WORK, START), events);
    LifeIsChainWork(fetch, Run(fetch, Life(genesis, [], NO_WORK, START), events));
  }
}
