/** Transaction ordering inside one Zone block and the obligations checked when it is finished. */
module BlockExecutor {
  import opened PortalEvents

  datatype Phase = AwaitingAdvanceTempo | Executing | CheckpointOnly | WithdrawalsFinalized

  datatype Kind = AdvanceTempo | AdvanceTempoHeaders | Regular | FinalizeWithdrawalBatch | UnexpectedSystem

  /** The system contracts: their addresses, call selectors and event signatures. */
  datatype Contracts = Contracts(
    inbox: Address, outbox: Address,
    advanceTempo: seq<nat>, advanceTempoHeaders: seq<nat>, finalizeWithdrawalBatch: seq<nat>,
    withdrawalRequested: Hash, tempoAdvanced: Hash)

  datatype Call = Call(to: Option<Address>, input: seq<nat>)

  datatype Tx = Tx(subblockNonce: bool, system: bool, calls: seq<Call>)

  /** `processed` is the decoded deposit count, when the log decodes as `TempoAdvanced`. */
  datatype Log = Log(address: Address, topics: seq<Hash>, processed: Option<nat>)

  type Receipt = seq<Log>

  datatype TxResult = TxResult(kind: Kind, receipt: Receipt, nextPhase: Phase)

  function Rank(p: Phase): nat
  {
    match p case AwaitingAdvanceTempo => 0 case Executing => 1 case CheckpointOnly => 2 case WithdrawalsFinalized => 3
  }

  predicate Targets(tx: Tx, to: Address, selector: seq<nat>)
  {
    exists i :: 0 <= i < |tx.calls| && tx.calls[i].to == Some(to) && selector <= tx.calls[i].input
  }

  function Classify(c: Contracts, tx: Tx): Kind
  {
    if !tx.system then Regular
    else if Targets(tx, c.inbox, c.advanceTempo) then AdvanceTempo
    else if Targets(tx, c.inbox, c.advanceTempoHeaders) then AdvanceTempoHeaders
    else if Targets(tx, c.outbox, c.finalizeWithdrawalBatch) then FinalizeWithdrawalBatch
    else UnexpectedSystem
  }

  /** The phase a transaction of this kind leads to, if it is admitted in this phase at all. */
  function Admit(phase: Phase, kind: Kind): Option<Phase>
  {
    match (phase, kind)
    case (AwaitingAdvanceTempo, AdvanceTempo) => Some(Executing)
    case (AwaitingAdvanceTempo, AdvanceTempoHeaders) => Some(CheckpointOnly)
    case (Executing, Regular) => Some(Executing)
    case (Executing, FinalizeWithdrawalBatch) => Some(WithdrawalsFinalized)
    case _ => None
  }

  function Validate(c: Contracts, phase: Phase, tx: Tx): Option<Phase>
  {
    if tx.subblockNonce then None else Admit(phase, Classify(c, tx))
  }

  predicate HasTopic(log: Log, address: Address, topic: Hash)
  {
    log.address == address && log.topics != [] && log.topics[0] == topic
  }

  predicate RequestsWithdrawal(c: Contracts, receipts: seq<Receipt>)
  {
    exists i, j :: 0 <= i < |receipts| && 0 <= j < |receipts[i]| && HasTopic(receipts[i][j], c.outbox, c.withdrawalRequested)
  }

  predicate ProcessesDeposits(c: Contracts, receipts: seq<Receipt>)
  {
    exists i, j :: 0 <= i < |receipts| && 0 <= j < |receipts[i]|
      && HasTopic(receipts[i][j], c.inbox, c.tempoAdvanced)
      && receipts[i][j].processed.Some? && receipts[i][j].processed.value != 0
  }

  /** The block's withdrawals must be finalized in the block itself. */
  predicate MustFinalize(c: Contracts, t13: bool, receipts: seq<Receipt>)
  {
    RequestsWithdrawal(c, receipts) || (t13 && ProcessesDeposits(c, receipts))
  }

  predicate FinishOk(c: Contracts, t13: bool, phase: Phase, receipts: seq<Receipt>)
  {
    && phase != AwaitingAdvanceTempo
    && (MustFinalize(c, t13, receipts) ==> phase == WithdrawalsFinalized)
  }

  /**
   Which logs oblige a block to finalize: a withdrawal request of the outbox, and after T13 an inbox
   log of processed deposits with a nonzero count.
   */
  ghost predicate Obliges(c: Contracts, t13: bool, log: Log)
  {
    || (log.address == c.outbox && log.topics != [] && log.topics[0] == c.withdrawalRequested)
    || (t13 && log.address == c.inbox && log.topics != [] && log.topics[0] == c.tempoAdvanced
        && log.processed.Some? && log.processed.value > 0)
  }

  lemma MustFinalizeExactly(c: Contracts, t13: bool, receipts: seq<Receipt>)
    ensures MustFinalize(c, t13, receipts) <==>
      exists i, j :: 0 <= i < |receipts| && 0 <= j < |receipts[i]| && Obliges(c, t13, receipts[i][j])
  {
  }

  /** Some call goes to this contract and its input starts with this selector. */
  ghost predicate Calls(tx: Tx, to: Address, selector: seq<nat>)
  {
    exists i :: 0 <= i < |tx.calls| && tx.calls[i].to == Some(to)
      && |tx.calls[i].input| >= |selector| && tx.calls[i].input[..|selector|] == selector
  }

  lemma TargetsExactly(tx: Tx, to: Address, selector: seq<nat>)
    ensures Targets(tx, to, selector) <==> Calls(tx, to, selector)
  {
    forall i | 0 <= i < |tx.calls|
      ensures selector <= tx.calls[i].input
         <==> |tx.calls[i].input| >= |selector| && tx.calls[i].input[..|selector|] == selector
    {
    }
  }

  /** The kind of a transaction, from what it calls, in this order of preference. */
  lemma ClassifyExactly(c: Contracts, tx: Tx)
    ensures var advances, imports := Calls(tx, c.inbox, c.advanceTempo), Calls(tx, c.inbox, c.advanceTempoHeaders);
            && (Classify(c, tx) == Regular <==> !tx.system)
            && (Classify(c, tx) == AdvanceTempo <==> tx.system && advances)
            && (Classify(c, tx) == AdvanceTempoHeaders <==> tx.system && !advances && imports)
            && (Classify(c, tx) == FinalizeWithdrawalBatch
                <==> tx.system && !advances && !imports && Calls(tx, c.outbox, c.finalizeWithdrawalBatch))
  {
    TargetsExactly(tx, c.inbox, c.advanceTempo);
    TargetsExactly(tx, c.inbox, c.advanceTempoHeaders);
    TargetsExactly(tx, c.outbox, c.finalizeWithdrawalBatch);
  }

  /** The transition table, with subblock transactions refused in every phase. */
  lemma ValidateExactly(c: Contracts, phase: Phase, tx: Tx, next: Phase)
    ensures Validate(c, phase, tx) == Some(next)
       <==> !tx.subblockNonce
            && (|| (phase == AwaitingAdvanceTempo && Classify(c, tx) == AdvanceTempo && next == Executing)
                || (phase == AwaitingAdvanceTempo && Classify(c, tx) == AdvanceTempoHeaders && next == CheckpointOnly)
                || (phase == Executing && Classify(c, tx) == Regular && next == Executing)
                || (phase == Executing && Classify(c, tx) == FinalizeWithdrawalBatch && next == WithdrawalsFinalized))
  {
  }

  /** Commit never lets a stale result take the phase back. */
  function Advance(phase: Phase, next: Phase): (r: Phase)
    ensures Rank(r) >= Rank(phase) && Rank(r) >= Rank(next) && (r == phase || r == next)
  {
    if Rank(phase) < Rank(next) then next else phase
  }

  class ZoneBlockExecutor {
    const contracts: Contracts
    const t13: bool
    var phase: Phase
    var receipts: seq<Receipt>

    constructor (contracts: Contracts, t13: bool)
      ensures this.contracts == contracts && this.t13 == t13
      ensures phase == AwaitingAdvanceTempo && receipts == []
    {
      this.contracts, this.t13 := contracts, t13;
      phase, receipts := AwaitingAdvanceTempo, [];
    }

    /** Execute without committing. `outcome` is the EVM's receipt, or nothing when execution errs. */
    method Execute(tx: Tx, outcome: Option<Receipt>) returns (r: Option<TxResult>)
      ensures r.Some? <==> Validate(contracts, phase, tx).Some? && outcome.Some?
      ensures r.Some? ==>
        r.value == TxResult(Classify(contracts, tx), outcome.value, Validate(contracts, phase, tx).value)
    {
      var next := Validate(contracts, phase, tx);
      if next.None? || outcome.None? {
        return None;
      }
      r := Some(TxResult(Classify(contracts, tx), outcome.value, next.value));
    }

    method Commit(result: TxResult)
      modifies this
      ensures receipts == old(receipts) + [result.receipt]
      ensures phase == Advance(old(phase), result.nextPhase)
      ensures phase == if WithdrawalsFinalized in {old(phase), result.nextPhase} then WithdrawalsFinalized
                       else if CheckpointOnly in {old(phase), result.nextPhase} then CheckpointOnly
                       else if Executing in {old(phase), result.nextPhase} then Executing
                       else AwaitingAdvanceTempo
    {
      if Rank(phase) < Rank(result.nextPhase) {
        phase := result.nextPhase;
      }
      receipts := receipts + [result.receipt];
    }

    method Finish() returns (ok: bool)
      ensures ok == FinishOk(contracts, t13, phase, receipts)
      ensures phase == WithdrawalsFinalized ==> ok
      ensures phase == AwaitingAdvanceTempo ==> !ok
      ensures phase == Executing || phase == CheckpointOnly ==>
        (!ok <==> exists i, j :: 0 <= i < |receipts| && 0 <= j < |receipts[i]| && Obliges(contracts, t13, receipts[i][j]))
    {
      MustFinalizeExactly(contracts, t13, receipts);
      if phase == AwaitingAdvanceTempo {
        return false;
      }
      if RequestsWithdrawal(contracts, receipts) && phase != WithdrawalsFinalized {
        return false;
      }
      if t13 && ProcessesDeposits(contracts, receipts) && phase != WithdrawalsFinalized {
        return false;
      }
      ok := true;
    }
  }

  // ---- Committing each result before the next execution ----------------------------------------------

  /** The phase after committing these kinds one by one, or nothing if one is not admitted. */
  function Replay(kinds: seq<Kind>): Option<Phase>
  {
    if kinds == [] then Some(AwaitingAdvanceTempo)
    else
      var before := Replay(kinds[..|kinds| - 1]);
      if before.None? then None
      else
        var next := Admit(before.value, kinds[|kinds| - 1]);
        if next.None? then None else Some(Advance(before.value, next.value))
  }

  /** A checkpoint-only block, or an opening advance, regular transactions and at most one closing. */
  predicate InLanguage(kinds: seq<Kind>)
  {
    || kinds == [AdvanceTempoHeaders]
    || (&& kinds != [] && kinds[0] == AdvanceTempo
        && (forall i :: 1 <= i < |kinds| - 1 ==> kinds[i] == Regular)
        && (|kinds| > 1 ==> kinds[|kinds| - 1] == Regular || kinds[|kinds| - 1] == FinalizeWithdrawalBatch))
  }

  predicate EndsInFinalization(kinds: seq<Kind>)
  {
    |kinds| > 1 && kinds[|kinds| - 1] == FinalizeWithdrawalBatch
  }

  lemma {:induction false} ReplayIsTheLanguage(kinds: seq<Kind>)
    ensures kinds != [] ==> (Replay(kinds).Some? <==> InLanguage(kinds))
    ensures InLanguage(kinds) ==>
      Replay(kinds).value == if kinds == [AdvanceTempoHeaders] then CheckpointOnly
                             else if EndsInFinalization(kinds) then WithdrawalsFinalized
                             else Executing
  {
    if kinds == [] {
    } else {
      var n := |kinds| - 1;
      var front := kinds[..n];
      ReplayIsTheLanguage(front);
      if n > 0 {
        if InLanguage(kinds) {
          assert kinds[0] == AdvanceTempo;
          assert n > 1 ==> kinds[n - 1] == Regular;
          assert InLanguage(front) && !EndsInFinalization(front);
        } else if InLanguage(front) {
          assert front[0] == kinds[0];
          assert n > 1 ==> front[n - 1] == kinds[n - 1];
        }
      }
    }
  }

  /**
   Accepted blocks, exactly. A sequence of committed transactions is executed and finished without
   error if and only if its kinds are in the language and, when the receipts oblige the block to
   finalize its withdrawals, the sequence ends in that finalization.
   */
  lemma AcceptedBlocksExactly(c: Contracts, t13: bool, kinds: seq<Kind>, receipts: seq<Receipt>)
    ensures Replay(kinds).Some? && FinishOk(c, t13, Replay(kinds).value, receipts)
       <==> InLanguage(kinds) && (MustFinalize(c, t13, receipts) ==> EndsInFinalization(kinds))
  {
    ReplayIsTheLanguage(kinds);
  }

  // ---- Serial building, with failures and discarded results -----------------------------------------------

  /** One attempt of the payload builder: execute, then commit the result or discard it. */
  datatype Attempt = Attempt(tx: Tx, outcome: Option<Receipt>, commit: bool)

  datatype Built = Built(phase: Phase, kinds: seq<Kind>, receipts: seq<Receipt>)

  function Build(c: Contracts, attempts: seq<Attempt>): Built
  {
    if attempts == [] then Built(AwaitingAdvanceTempo, [], [])
    else
      var before, a := Build(c, attempts[..|attempts| - 1]), attempts[|attempts| - 1];
      var next := Validate(c, before.phase, a.tx);
      if next.None? || a.outcome.None? || !a.commit then before
      else Built(Advance(before.phase, next.value), before.kinds + [Classify(c, a.tx)], before.receipts + [a.outcome.value])
  }

  /** Whatever was tried and thrown away, the committed transactions replay to the same phase. */
  lemma {:induction false} BuiltBlocksReplay(c: Contracts, attempts: seq<Attempt>)
    ensures Replay(Build(c, attempts).kinds) == Some(Build(c, attempts).phase)
    ensures |Build(c, attempts).kinds| == |Build(c, attempts).receipts|
  {
    if attempts == [] {
    } else {
      var before, after := Build(c, attempts[..|attempts| - 1]), Build(c, attempts);
      BuiltBlocksReplay(c, attempts[..|attempts| - 1]);
      if after != before {
        assert after.kinds[..|after.kinds| - 1] == before.kinds;
      }
    }
  }

  /** So a finished block is always in the language, with its withdrawals finalized when they must be. */
  lemma BuiltBlocksAreInTheLanguage(c: Contracts, t13: bool, attempts: seq<Attempt>)
    requires var b := Build(c, attempts); FinishOk(c, t13, b.phase, b.receipts)
    ensures var b := Build(c, attempts);
            InLanguage(b.kinds) && (MustFinalize(c, t13, b.receipts) ==> EndsInFinalization(b.kinds))
  {
    var b := Build(c, attempts);
    BuiltBlocksReplay(c, attempts);
    AcceptedBlocksExactly(c, t13, b.kinds, b.receipts);
  }

  // ---- Stale results -----------------------------------------------------------------------------------------

  /** Commit results in any order, each executed at whatever earlier phase admitted it. */
  function CommitAll(results: seq<TxResult>): Phase
  {
    if results == [] then AwaitingAdvanceTempo
    else Advance(CommitAll(results[..|results| - 1]), results[|results| - 1].nextPhase)
  }

  function Kinds(results: seq<TxResult>): (kinds: seq<Kind>)
    ensures |kinds| == |results|
    ensures forall i :: 0 <= i < |results| ==> kinds[i] == results[i].kind
  {
    seq(|results|, i requires 0 <= i < |results| => results[i].kind)
  }

  /** Results come from `Execute`: some phase admitted the kind and led to the recorded phase. */
  ghost predicate Executed(r: TxResult)
  {
    exists phase :: Admit(phase, r.kind) == Some(r.nextPhase)
  }

  /** Each result is still admitted in the phase in which it is committed. */
  predicate Timely(results: seq<TxResult>)
  {
    results != [] ==>
      && Timely(results[..|results| - 1])
      && Admit(CommitAll(results[..|results| - 1]), results[|results| - 1].kind).Some?
  }

  lemma {:induction false} PhaseNeverRegresses(results: seq<TxResult>, k: nat)
    requires k <= |results|
    ensures Rank(CommitAll(results[..k])) <= Rank(CommitAll(results))
  {
    if k == |results| {
      assert results[..k] == results;
    } else {
      PhaseNeverRegresses(results[..|results| - 1], k);
      assert results[..|results| - 1][..k] == results[..k];
    }
  }

  /**
   With stale results, the committed block is a prefix of the language exactly when every result
   was still admitted at its commit.
   */
  lemma {:induction false} StaleCommitsExactly(results: seq<TxResult>)
    requires forall i :: 0 <= i < |results| ==> Executed(results[i])
    ensures Replay(Kinds(results)).Some? <==> Timely(results)
    ensures Timely(results) ==> Replay(Kinds(results)).value == CommitAll(results)
  {
    if results == [] {
    } else {
      var n := |results| - 1;
      assert forall i :: 0 <= i < n ==> results[..n][i] == results[i];
      StaleCommitsExactly(results[..n]);
      assert Kinds(results)[..n] == Kinds(results[..n]);
      assert Executed(results[n]);
    }
  }

  /** Two openings executed against the same fresh block and both committed. */
  lemma StaleCommitExample(c: Contracts, t13: bool)
    ensures var results := [TxResult(AdvanceTempo, [], Executing), TxResult(AdvanceTempoHeaders, [], CheckpointOnly)];
            && (forall i :: 0 <= i < 2 ==> Executed(results[i]))
            && FinishOk(c, t13, CommitAll(results), [[], []])
            && !InLanguage(Kinds(results))
  {
    var first, second := TxResult(AdvanceTempo, [], Executing), TxResult(AdvanceTempoHeaders, [], CheckpointOnly);
    assert Admit(AwaitingAdvanceTempo, first.kind) == Some(first.nextPhase);
    assert Admit(AwaitingAdvanceTempo, second.kind) == Some(second.nextPhase);
    assert [first, second][..1] == [first] && [first][..0] == [];
  }
}
