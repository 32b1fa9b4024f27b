/**
 The two ends of a full import: the leader prepares `advanceTempo` inputs from its queue, and each
 follower checks them against its own queue, which may have crossed checkpoints differently.
 */
module AdvanceTempo {
  import opened PortalEvents
  import opened DepositQueue
  import opened QueueRuns
  import opened EncryptionKeys
  import opened Preparation

  /** The entry carries the deposit's type and data; the `rejected` flag is the sequencer's. */
  predicate SameEntry(actual: QueuedDeposit, expected: QueuedDeposit)
  {
    actual.kind == expected.kind && actual.data == expected.data
  }

  predicate SameEntries(actual: seq<QueuedDeposit>, expected: seq<QueuedDeposit>)
  {
    |actual| == |expected| && forall i :: 0 <= i < |actual| ==> SameEntry(actual[i], expected[i])
  }

  /** The inputs process exactly this work, in order. */
  predicate Matches(c: Codec, work: Work, queued: seq<QueuedDeposit>, tokens: seq<EnabledToken>)
  {
    SameEntries(queued, QueuedOf(c, work.deposits)) && tokens == work.tokens
  }

  method ValidateAdvanceTempoInputs(c: Codec, events: Events, queued: seq<QueuedDeposit>, tokens: seq<EnabledToken>)
    returns (ok: bool)
    ensures ok <==> && |queued| == |events.deposits|
                    && (forall i :: 0 <= i < |queued| ==>
                          && (queued[i].kind == KindBounceBack <==> events.deposits[i].BounceBack?)
                          && queued[i].data == c.encode(events.deposits[i]))
                    && tokens == events.tokens
    ensures ok == Matches(c, EventWork(events), queued, tokens)
  {
    if |queued| != |events.deposits| {
      return false;
    }
    for i := 0 to |queued|
      invariant forall j :: 0 <= j < i ==> SameEntry(queued[j], ToAbi(c, events.deposits[j]))
    {
      var expected := ToAbi(c, events.deposits[i]);
      if queued[i].kind != expected.kind || queued[i].data != expected.data {
        assert !SameEntry(queued[i], QueuedOf(c, events.deposits)[i]);
        return false;
      }
    }
    ok := tokens == events.tokens;
  }

  /** The inputs are the deposits' kinds and encodings, one by one, and the tokens. */
  lemma MatchesExactly(c: Codec, work: Work, queued: seq<QueuedDeposit>, tokens: seq<EnabledToken>)
    ensures Matches(c, work, queued, tokens)
       <==> && |queued| == |work.deposits|
            && (forall i :: 0 <= i < |queued| ==>
                  && (queued[i].kind == KindBounceBack <==> work.deposits[i].BounceBack?)
                  && queued[i].data == c.encode(work.deposits[i]))
            && tokens == work.tokens
  {
    assert forall i :: 0 <= i < |work.deposits| ==> QueuedOf(c, work.deposits)[i] == ToAbi(c, work.deposits[i]);
  }

  lemma EmptyPrefix(work: seq<Block>)
    ensures WorkOf(work[..0]) == NO_WORK
  {
  }

  lemma SameEntriesAppend(queued: seq<QueuedDeposit>, a: seq<QueuedDeposit>, b: seq<QueuedDeposit>)
    ensures SameEntries(queued, a + b)
       <==> |a| <= |queued| && SameEntries(queued[..|a|], a) && SameEntries(queued[|a|..], b)
  {
    hide SameEntry;
    if |queued| == |a| + |b| {
      assert forall i :: 0 <= i < |queued| ==>
        queued[i] == (if i < |a| then queued[..|a|][i] else queued[|a|..][i - |a|]);
    }
  }

  /** Inputs match two pieces of work in sequence exactly when they split into matching halves. */
  lemma MatchesAppend(c: Codec, a: Work, b: Work, queued: seq<QueuedDeposit>, tokens: seq<EnabledToken>)
    ensures var n, m := |a.deposits|, |a.tokens|;
            Matches(c, a.Then(b), queued, tokens) <==>
            && n <= |queued| && m <= |tokens|
            && Matches(c, a, queued[..n], tokens[..m]) && Matches(c, b, queued[n..], tokens[m..])
  {
    hide QueuedOf, SameEntries;
    StreamsAppend(c, map[], 0, a.deposits, b.deposits);
    SameEntriesAppend(queued, QueuedOf(c, a.deposits), QueuedOf(c, b.deposits));
    var m := |a.tokens|;
    assert tokens == a.tokens + b.tokens <==> m <= |tokens| && tokens[..m] == a.tokens && tokens[m..] == b.tokens;
  }

  /** Check the calldata block by block, each block against its own slice. */
  method ValidateWork(c: Codec, work: seq<Block>, queued: seq<QueuedDeposit>, tokens: seq<EnabledToken>)
    returns (ok: bool)
    ensures ok == Matches(c, WorkOf(work), queued, tokens)
  {
    hide QueuedOf, SameEntry, WorkOf;
    var d, t := 0, 0;
    assert WorkOf(work[..0]) == NO_WORK by { EmptyPrefix(work); }
    for i := 0 to |work|
      invariant 0 <= d <= |queued| && 0 <= t <= |tokens|
      invariant Matches(c, WorkOf(work[..i]), queued[..d], tokens[..t])
    {
      SplitAt(work, i);
      var e := work[i].events;
      var nextD, nextT := d + |e.deposits|, t + |e.tokens|;
      if !(nextD <= |queued| && nextT <= |tokens|) {
        return false;
      }
      MatchesAppend(c, WorkOf(work[..i]), EventWork(e), queued[..nextD], tokens[..nextT]);
      assert queued[..nextD][..d] == queued[..d] && tokens[..nextT][..t] == tokens[..t];
      assert queued[..nextD][d..] == queued[d..nextD] && tokens[..nextT][t..] == tokens[t..nextT];
      var blockOk := ValidateAdvanceTempoInputs(c, e, queued[d..nextD], tokens[t..nextT]);
      if !blockOk {
        MatchesAppend(c, WorkOf(work[..i + 1]), WorkOf(work[i + 1..]), queued, tokens);
        return false;
      }
      d, t := nextD, nextT;
    }
    assert work[..|work|] == work;
    ok := d == |queued| && t == |tokens|;
    if ok {
      assert queued[..d] == queued && tokens[..t] == tokens;
    }
  }

  /** A follower accepts calldata that processes exactly the operational work of its own queue. */
  method ValidateFullPortalInputs(
    queue: PendingDeposits, anchor: NumHash, c: Codec, queued: seq<QueuedDeposit>, tokens: seq<EnabledToken>)
    returns (ok: bool)
    ensures var work := OperationalWork(queue.State(), anchor);
            ok <==> work.Ok? && Matches(c, WorkOf(work.value), queued, tokens)
  {
    var work := queue.WorkFor(anchor);
    if work.Err? {
      return false;
    }
    ok := ValidateWork(c, work.value, queued, tokens);
  }

  // ---- Compaction preserves meaning -------------------------------------------------------------------

  lemma OperationalWorkIsUncompactedWork(q: Queue, crossed: seq<Block>, anchor: NumHash)
    requires q.deferred == Compact(crossed) && OperationalWork(q, anchor).Ok?
    ensures WorkOf(OperationalWork(q, anchor).value) == WorkOf(crossed + [q.pending[0]])
  {
    OperationalWorkStream(q, anchor);
    PushAllKeepsWork(None, crossed);
    ThenAssociates(WorkOf(crossed), NO_WORK, NO_WORK);
    WorkOfAppend(crossed, [q.pending[0]]);
    assert q.pending[..1] == [q.pending[0]];
  }

  /**
   Preparing the compacted operational work gives the same result, error included, as preparing
   every crossed block and the current one without compaction.
   */
  lemma CompactionPreservesPreparation(
    c: Codec, bound: map<nat, SecretKey>, portal: Address, q: Queue, crossed: seq<Block>, anchor: NumHash)
    requires q.deferred == Compact(crossed) && OperationalWork(q, anchor).Ok?
    ensures PreparedBlocks(c, bound, portal, OperationalWork(q, anchor).value)
         == PreparedBlocks(c, bound, portal, crossed + [q.pending[0]])
  {
    OperationalWorkIsUncompactedWork(q, crossed, anchor);
    PushAllKeepsWork(None, crossed);
  }

  // ---- Preparation and validation agree -----------------------------------------------------------------

  lemma FrontStandsInChain(l: Ledger, chain: seq<Block>)
    requires Inv(l) && l.enqueued <= chain && l.q.pending != []
    ensures var i := |l.consumed + l.crossed|;
            && i < |chain| && chain[i] == l.q.pending[0]
            && l.crossed + [l.q.pending[0]] == chain[|l.consumed|..i + 1]
  {
    hide Compact, WorkOf, OperationalWork, Linked;
    var i := |l.consumed + l.crossed|;
    assert l.enqueued[i] == l.q.pending[0];
    assert l.enqueued[|l.consumed|..i + 1] == l.crossed + [l.q.pending[0]];
  }

  /** Two nodes that consumed the same blocks and stand at the same anchor crossed the same blocks. */
  lemma SameAnchorSameCrossed(leader: Ledger, follower: Ledger, anchor: NumHash)
    requires Inv(leader) && Inv(follower) && leader.consumed == follower.consumed
    requires leader.enqueued <= follower.enqueued || follower.enqueued <= leader.enqueued
    requires OperationalWork(leader.q, anchor).Ok? && OperationalWork(follower.q, anchor).Ok?
    ensures leader.q.pending != [] && follower.q.pending != []
    ensures leader.crossed + [leader.q.pending[0]] == follower.crossed + [follower.q.pending[0]]
  {
    hide Compact, WorkOf;
    var longer := if leader.enqueued <= follower.enqueued then follower.enqueued else leader.enqueued;
    FrontStandsInChain(leader, longer);
    FrontStandsInChain(follower, longer);
    hide Inv, OperationalWork;
    var i, j := |leader.consumed + leader.crossed|, |follower.consumed + follower.crossed|;
    LinkedNumbers(longer, if i <= j then i else j, if i <= j then j else i);
    assert i == j;
  }

  lemma PreparedIsWhatMatches(
    c: Codec, bound: map<nat, SecretKey>, portal: Address, blocks: seq<Block>,
    queued: seq<QueuedDeposit>, tokens: seq<EnabledToken>)
    requires PreparedBlocks(c, bound, portal, blocks).Ok?
    ensures var p := PreparedBlocks(c, bound, portal, blocks).value;
            && Matches(c, WorkOf(blocks), p.queued, p.tokens)
            && (Matches(c, WorkOf(blocks), queued, tokens) <==> SameEntries(queued, p.queued) && tokens == p.tokens)
  {
    hide QueuedOf, WorkOf, DecryptionsOf, FirstMissing;
  }

  /**
   A leader and a follower have consumed the same blocks and ingested the same chain, one possibly
   further than the other, each deferring in its own steps. What the leader prepares at an anchor
   passes the follower's validation there. Nothing else does: accepted inputs carry the prepared
   types, data and tokens, so only the sequencer's `rejected` flags can differ.
   */
  lemma PreparedInputsAreTheAcceptedOnes(
    c: Codec, bound: map<nat, SecretKey>, portal: Address, leader: Ledger, follower: Ledger, anchor: NumHash,
    queued: seq<QueuedDeposit>, tokens: seq<EnabledToken>)
    requires Inv(leader) && Inv(follower) && leader.consumed == follower.consumed
    requires leader.enqueued <= follower.enqueued || follower.enqueued <= leader.enqueued
    requires OperationalWork(leader.q, anchor).Ok? && OperationalWork(follower.q, anchor).Ok?
    requires PreparedBlocks(c, bound, portal, OperationalWork(leader.q, anchor).value).Ok?
    ensures var p := PreparedBlocks(c, bound, portal, OperationalWork(leader.q, anchor).value).value;
            var expected := WorkOf(OperationalWork(follower.q, anchor).value);
            && Matches(c, expected, p.queued, p.tokens)
            && (Matches(c, expected, queued, tokens) <==> SameEntries(queued, p.queued) && tokens == p.tokens)
  {
    hide OperationalWork, PreparedBlocks, Matches, SameEntries, WorkOf, Compact;
    SameAnchorSameCrossed(leader, follower, anchor);
    OperationalWorkIsUncompactedWork(leader.q, leader.crossed, anchor);
    OperationalWorkIsUncompactedWork(follower.q, follower.crossed, anchor);
    PreparedIsWhatMatches(c, bound, portal, OperationalWork(leader.q, anchor).value, queued, tokens);
  }
}
