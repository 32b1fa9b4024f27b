/** The audit's numbers are the live liabilities, and the Portal balance always covers them. */
module BackingTheorems {
  import opened PortalEvents
  import opened PortalBacking

  /** Portal balance and Zone supply of `token`, as the logged transfers, mints and burns leave them. */
  function Balance(token: Token, l1: seq<L1Event>): int
  {
    L1Total(Deposits, token, l1) + L1Total(Donations, token, l1) - L1Total(Paid, token, l1)
    - L1Total(Refunded, token, l1) - L1Total(ParkedFees, token, l1) - L1Total(PortalClaims, token, l1)
  }

  function Supply(token: Token, zone: seq<ZoneEvent>): int
  {
    ZoneTotal(Minted, token, zone) + ZoneTotal(Reminted, token, zone) + ZoneTotal(InboxClaims, token, zone)
    - ZoneTotal(Burned, token, zone)
  }

  // ---- Live items -------------------------------------------------------------------------------------------

  function After<T>(queue: seq<T>, k: nat): seq<T>
  {
    if k <= |queue| then queue[k..] else []
  }

  /** Deposit-queue entries that the Zone has not processed. */
  function Unprocessed(l1: seq<L1Event>, zone: seq<ZoneEvent>): seq<Entry>
  {
    After(Entries(l1), ProcessedCount(zone))
  }

  function LiveDeposits(token: Token, l1: seq<L1Event>, zone: seq<ZoneEvent>): nat
  {
    EntrySum(token, Unprocessed(l1, zone), false)
  }

  /** Withdrawals in flight: not yet settled on L1, or bounced there and not yet back on the Zone. */
  function LiveWithdrawals(token: Token, l1: seq<L1Event>, zone: seq<ZoneEvent>): nat
  {
    RequestSum(token, After(Requests(zone), |Settlements(l1)|)) + EntrySum(token, Unprocessed(l1, zone), true)
  }

  /** Withdrawals that the L1 log settles and the Zone log does not request. */
  function SettledAhead(token: Token, l1: seq<L1Event>, zone: seq<ZoneEvent>): nat
  {
    RequestSum(token, After(Settlements(l1), |Requests(zone)|))
  }

  function LivePortalRefunds(token: Token, l1: seq<L1Event>): nat
  {
    ParkedSum(token, Registry(PortalRefunds(l1)))
  }

  function LiveInboxRefunds(token: Token, zone: seq<ZoneEvent>): nat
  {
    ParkedSum(token, Registry(InboxRefunds(zone)))
  }

  // ---- No fold overflows -------------------------------------------------------------------------------------

  predicate L1Small(e: L1Event)
  {
    e.amount < U128_LIMIT && (e.DepositRefunded? || e.DepositRefundParked? ==> e.fee < U128_LIMIT)
  }

  predicate ZoneSmall(e: ZoneEvent)
  {
    e.amount < U128_LIMIT && (e.WithdrawalRequested? ==> e.fee < U128_LIMIT)
  }

  /** Amounts and fees are 128-bit and a log has fewer than 2^64 events. */
  predicate Sized(l1: seq<L1Event>, zone: seq<ZoneEvent>)
  {
    && |l1| < 0x1_0000_0000_0000_0000 && |zone| < 0x1_0000_0000_0000_0000
    && (forall i :: 0 <= i < |l1| ==> L1Small(l1[i]))
    && (forall i :: 0 <= i < |zone| ==> ZoneSmall(zone[i]))
  }

  lemma {:induction false} L1TotalBound(column: L1Column, token: Token, log: seq<L1Event>)
    requires forall i :: 0 <= i < |log| ==> L1Small(log[i])
    ensures L1Total(column, token, log) <= |log| * 0x2_0000_0000_0000_0000_0000_0000_0000_0000
  {
    if log == [] {
    } else {
      L1TotalBound(column, token, log[..|log| - 1]);
      assert L1Small(log[|log| - 1]);
    }
  }

  lemma {:induction false} ZoneTotalBound(column: ZoneColumn, token: Token, log: seq<ZoneEvent>)
    requires forall i :: 0 <= i < |log| ==> ZoneSmall(log[i])
    ensures ZoneTotal(column, token, log) <= |log| * 0x2_0000_0000_0000_0000_0000_0000_0000_0000
  {
    if log == [] {
    } else {
      ZoneTotalBound(column, token, log[..|log| - 1]);
      assert ZoneSmall(log[|log| - 1]);
    }
  }

  /** An eighth of the 256-bit range, far above any total. */
  const ROOM: nat := 0x1000_0000_0000_0000_0000_0000_0000_0000_0000_0000_0000_0000_0000_0000_0000_0000

  lemma L1FoldFits(column: L1Column, token: Token, l1: seq<L1Event>, zone: seq<ZoneEvent>)
    requires Sized(l1, zone)
    ensures L1Total(column, token, l1) < ROOM && L1Fold(column, token, l1) == Ok(L1Total(column, token, l1))
  {
    L1TotalBound(column, token, l1);
    L1FoldIsTotal(column, token, l1);
  }

  lemma ZoneFoldFits(column: ZoneColumn, token: Token, l1: seq<L1Event>, zone: seq<ZoneEvent>)
    requires Sized(l1, zone)
    ensures ZoneTotal(column, token, zone) < ROOM && ZoneFold(column, token, zone) == Ok(ZoneTotal(column, token, zone))
  {
    ZoneTotalBound(column, token, zone);
    ZoneFoldIsTotal(column, token, zone);
  }

  // ---- Pending deposits ------------------------------------------------------------------------------------------

  lemma AfterSnoc(token: Token, entries: seq<Entry>, e: Entry, k: nat)
    ensures EntrySum(token, After(entries + [e], k), false)
         == EntrySum(token, After(entries, k), false)
            + (if k <= |entries| && e.token == token && !e.bounce then e.amount else 0)
  {
    if k <= |entries| {
      assert (entries + [e])[k..] == entries[k..] + [e];
      EntrySnoc(token, entries[k..], e);
    } else {
      assert After(entries + [e], k) == [];
    }
  }

  /** Filtering by queue number picks exactly the unprocessed user deposits. */
  lemma {:induction false} PendingDepositsAreLive(token: Token, log: seq<L1Event>, processed: nat)
    requires Numbered(log)
    ensures var live := EntrySum(token, After(Entries(log), processed), false);
            PendingDepositFold(token, log, processed) == if live <= U256_MAX then Ok(live) else Err(Overflow)
  {
    if log == [] {
    } else {
      var front, e := log[..|log| - 1], log[|log| - 1];
      PendingDepositsAreLive(token, front, processed);
      if e.DepositMade? || e.WithdrawalBounced? {
        AfterSnoc(token, Entries(front), Entry(e.token, e.amount, e.WithdrawalBounced?), processed);
      }
    }
  }

  // ---- Refund registries -------------------------------------------------------------------------------------------

  function OpTotal(token: Token, ops: seq<RefundOp>, claims: bool): nat
  {
    if ops == [] then 0
    else
      var op := ops[|ops| - 1];
      OpTotal(token, ops[..|ops| - 1], claims) + (if op.token == token && op.Claim? == claims then op.amount else 0)
  }

  lemma ParkedSnoc(token: Token, parked: seq<RefundOp>, p: RefundOp)
    ensures ParkedSum(token, parked + [p]) == ParkedSum(token, parked) + (if p.token == token then p.amount else 0)
  {
  }

  lemma {:induction false} ClaimTakesWhatIsOwed(token: Token, parked: seq<RefundOp>, t: Token, recipient: Address)
    ensures ParkedSum(token, Without(parked, t, recipient)) + (if token == t then Owed(parked, t, recipient) else 0)
         == ParkedSum(token, parked)
  {
    if parked == [] {
    } else {
      var front, p := parked[..|parked| - 1], parked[|parked| - 1];
      ClaimTakesWhatIsOwed(token, front, t, recipient);
      ParkedSnoc(token, Without(front, t, recipient), p);
    }
  }

  /** Parked minus claimed is the content of the registry. */
  lemma {:induction false} RegistryIsParkedMinusClaimed(token: Token, ops: seq<RefundOp>)
    requires ClaimsExact(ops)
    ensures OpTotal(token, ops, false) == ParkedSum(token, Registry(ops)) + OpTotal(token, ops, true)
  {
    if ops == [] {
    } else {
      var front, op := ops[..|ops| - 1], ops[|ops| - 1];
      RegistryIsParkedMinusClaimed(token, front);
      if op.Park? {
        ParkedSnoc(token, Registry(front), op);
      } else {
        ClaimTakesWhatIsOwed(token, Registry(front), op.token, op.recipient);
      }
    }
  }

  lemma OpTotalSnoc(token: Token, ops: seq<RefundOp>, op: RefundOp)
    ensures forall claims :: OpTotal(token, ops + [op], claims)
                          == OpTotal(token, ops, claims) + (if op.token == token && op.Claim? == claims then op.amount else 0)
  {
    assert (ops + [op])[..|ops + [op]| - 1] == ops;
  }

  lemma {:induction false} PortalRefundColumns(token: Token, log: seq<L1Event>)
    ensures L1Total(Parked, token, log) == OpTotal(token, PortalRefunds(log), false)
    ensures L1Total(PortalClaims, token, log) == OpTotal(token, PortalRefunds(log), true)
  {
    if log == [] {
    } else {
      var front, e := log[..|log| - 1], log[|log| - 1];
      PortalRefundColumns(token, front);
      OpTotalSnoc(token, PortalRefunds(front), if e.DepositRefundParked? then Park(e.token, e.recipient, e.amount)
                  else Claim(e.token, if e.PortalRefundClaimed? then e.recipient else 0, e.amount));
      hide OpTotal;
    }
  }

  lemma {:induction false} InboxRefundColumns(token: Token, log: seq<ZoneEvent>)
    ensures ZoneTotal(InboxParked, token, log) == OpTotal(token, InboxRefunds(log), false)
    ensures ZoneTotal(InboxClaims, token, log) == OpTotal(token, InboxRefunds(log), true)
  {
    if log == [] {
    } else {
      var front, e := log[..|log| - 1], log[|log| - 1];
      InboxRefundColumns(token, front);
      OpTotalSnoc(token, InboxRefunds(front), if e.BounceBackPending? then Park(e.token, e.recipient, e.amount)
                  else Claim(e.token, if e.InboxRefundClaimed? then e.recipient else 0, e.amount));
      hide OpTotal;
    }
  }

  lemma RefundsAreLive(token: Token, l1: seq<L1Event>, zone: seq<ZoneEvent>)
    requires ClaimsExact(PortalRefunds(l1)) && ClaimsExact(InboxRefunds(zone)) && Sized(l1, zone)
    ensures PortalRefundLiability(token, l1) == Ok(LivePortalRefunds(token, l1))
    ensures InboxRefundLiability(token, zone) == Ok(LiveInboxRefunds(token, zone))
    ensures L1Total(Parked, token, l1) == LivePortalRefunds(token, l1) + L1Total(PortalClaims, token, l1)
    ensures ZoneTotal(InboxParked, token, zone) == LiveInboxRefunds(token, zone) + ZoneTotal(InboxClaims, token, zone)
  {
    hide Registry, ClaimsExact, PortalRefunds, InboxRefunds, OpTotal, ParkedSum, L1Total, ZoneTotal, L1Fold, ZoneFold, Sized;
    PortalRefundColumns(token, l1);
    InboxRefundColumns(token, zone);
    RegistryIsParkedMinusClaimed(token, PortalRefunds(l1));
    RegistryIsParkedMinusClaimed(token, InboxRefunds(zone));
    L1FoldFits(Parked, token, l1, zone);
    L1FoldFits(PortalClaims, token, l1, zone);
    ZoneFoldFits(InboxParked, token, l1, zone);
    ZoneFoldFits(InboxClaims, token, l1, zone);
  }

  // ---- Withdrawals ---------------------------------------------------------------------------------------------------

  /** Everything that retires a withdrawal: paid, refunded, re-minted or parked in a registry. */
  function Retired(token: Token, l1: seq<L1Event>, zone: seq<ZoneEvent>): nat
  {
    L1Total(Paid, token, l1) + L1Total(Refunded, token, l1) + ZoneTotal(Reminted, token, zone)
    + ZoneTotal(InboxParked, token, zone) + L1Total(ParkedRetired, token, l1)
  }

  /** The liability is requested minus retired, and an error exactly when that would be negative. */
  lemma WithdrawalLiabilityExactly(token: Token, l1: seq<L1Event>, zone: seq<ZoneEvent>)
    requires Sized(l1, zone)
    ensures var requested, retired := ZoneTotal(Requested, token, zone), Retired(token, l1, zone);
            WithdrawalLiability(token, l1, zone)
            == if retired <= requested then Ok(requested - retired) else Err(IncompleteHistory)
    ensures ZoneTotal(Requested, token, zone) < ROOM
  {
    ZoneFoldFits(Requested, token, l1, zone);
    L1FoldFits(Paid, token, l1, zone);
    L1FoldFits(Refunded, token, l1, zone);
    ZoneFoldFits(Reminted, token, l1, zone);
    ZoneFoldFits(InboxParked, token, l1, zone);
    L1FoldFits(ParkedRetired, token, l1, zone);
  }

  /** Of two logs of one history, either may be ahead in settling or requesting withdrawals. */
  predicate Comparable(l1: seq<L1Event>, zone: seq<ZoneEvent>)
  {
    Settlements(l1) <= Requests(zone) || Requests(zone) <= Settlements(l1)
  }

  lemma RequestsBalance(token: Token, requests: seq<Request>, settlements: seq<Request>)
    requires settlements <= requests || requests <= settlements
    ensures RequestSum(token, requests) + RequestSum(token, After(settlements, |requests|))
         == RequestSum(token, settlements) + RequestSum(token, After(requests, |settlements|))
  {
    if settlements <= requests {
      RequestSumSplits(token, requests, |settlements|);
      assert requests[..|settlements|] == settlements;
      assert After(settlements, |requests|) == [];
    } else {
      RequestSumSplits(token, settlements, |requests|);
      assert settlements[..|requests|] == requests;
      assert After(requests, |settlements|) == [];
    }
  }

  /** Requested withdrawals and those settled ahead are the retired ones and those in flight. */
  lemma WithdrawalsBalance(token: Token, l1: seq<L1Event>, zone: seq<ZoneEvent>)
    requires Processings(zone) <= Entries(l1) && Comparable(l1, zone)
    ensures ZoneTotal(Requested, token, zone) + SettledAhead(token, l1, zone)
         == Retired(token, l1, zone) + LiveWithdrawals(token, l1, zone)
  {
    hide L1Total, ZoneTotal;
    L1Columns(token, l1);
    ZoneColumns(token, zone);
    RequestsBalance(token, Requests(zone), Settlements(l1));
    EntrySumSplits(token, Entries(l1), ProcessedCount(zone), true);
    assert Entries(l1)[..ProcessedCount(zone)] == Processings(zone);
  }

  /** On matched logs nothing underflows and the difference is the sum of withdrawals in flight. */
  lemma WithdrawalsInFlight(token: Token, l1: seq<L1Event>, zone: seq<ZoneEvent>)
    requires Matched(l1, zone)
    ensures ZoneTotal(Requested, token, zone) == Retired(token, l1, zone) + LiveWithdrawals(token, l1, zone)
  {
    WithdrawalsBalance(token, l1, zone);
    assert After(Settlements(l1), |Requests(zone)|) == [];
  }

  // ---- Main results ---------------------------------------------------------------------------------------------------

  /** The sum of everything the Portal owes, item by item. */
  function LiveObligations(token: Token, l1: seq<L1Event>, zone: seq<ZoneEvent>): int
  {
    Supply(token, zone) + LivePortalRefunds(token, l1) + LiveInboxRefunds(token, zone)
    + LiveDeposits(token, l1, zone) + LiveWithdrawals(token, l1, zone)
  }

  lemma DepositsSplit(token: Token, l1: seq<L1Event>, zone: seq<ZoneEvent>)
    requires Processings(zone) <= Entries(l1)
    ensures L1Total(Deposits, token, l1)
         == ZoneTotal(Minted, token, zone) + ZoneTotal(Failed, token, zone) + LiveDeposits(token, l1, zone)
  {
    L1Columns(token, l1);
    ZoneColumns(token, zone);
    EntrySumSplits(token, Entries(l1), ProcessedCount(zone), false);
    assert Entries(l1)[..ProcessedCount(zone)] == Processings(zone);
  }

  lemma SupplyFits(token: Token, l1: seq<L1Event>, zone: seq<ZoneEvent>)
    requires Sized(l1, zone)
    ensures Supply(token, zone) < 3 * ROOM
  {
    ZoneFoldFits(Minted, token, l1, zone);
    ZoneFoldFits(Reminted, token, l1, zone);
    ZoneFoldFits(InboxClaims, token, l1, zone);
  }

  /**
   Whenever the Zone has not processed more deposits than the Portal recorded, the audit either
   reports an incomplete withdrawal history, exactly when the L1 log retires more than the Zone log
   requested, or its required backing is below the balance by the fees burned and tokens donated.
   */
  lemma AuditVerdict(token: Token, l1: seq<L1Event>, zone: seq<ZoneEvent>)
    requires Numbered(l1) && Processings(zone) <= Entries(l1)
    requires ClaimsExact(PortalRefunds(l1)) && ClaimsExact(InboxRefunds(zone))
    requires Sized(l1, zone) && Supply(token, zone) >= 0
    ensures var r := RequiredBacking(token, l1, zone, Supply(token, zone));
            if ZoneTotal(Requested, token, zone) < Retired(token, l1, zone) then r == Err(IncompleteHistory)
            else
              && r.Ok?
              && Balance(token, l1) - r.value == ZoneTotal(Fees, token, zone) + L1Total(Donations, token, l1)
              && r.value == Supply(token, zone) + LivePortalRefunds(token, l1) + LiveInboxRefunds(token, zone)
                   + LiveDeposits(token, l1, zone) + (ZoneTotal(Requested, token, zone) - Retired(token, l1, zone))
  {
    hide L1Total, ZoneTotal, L1Fold, ZoneFold, PendingDepositFold, Numbered, ClaimsExact, Entries, Processings,
         Registry, PortalRefunds, InboxRefunds, EntrySum, RequestSum, ParkedSum, Sized;
    RefundsAreLive(token, l1, zone);
    WithdrawalLiabilityExactly(token, l1, zone);
    DepositsSplit(token, l1, zone);
    PendingDepositsAreLive(token, l1, ProcessedCount(zone));
    SupplyFits(token, l1, zone);
    L1FoldFits(Deposits, token, l1, zone);
    L1FoldFits(Parked, token, l1, zone);
    ZoneFoldFits(InboxParked, token, l1, zone);
    L1Columns(token, l1);
    ZoneColumns(token, zone);
  }

  /**
   On matched logs the audit succeeds, its required backing is the sum of the live obligations, and
   the Portal's surplus over it is exactly the burned withdrawal fees plus direct donations.
   */
  lemma AuditIsExact(token: Token, l1: seq<L1Event>, zone: seq<ZoneEvent>)
    requires Matched(l1, zone) && Sized(l1, zone) && Supply(token, zone) >= 0
    ensures var r := RequiredBacking(token, l1, zone, Supply(token, zone));
            && r == Ok(LiveObligations(token, l1, zone))
            && WithdrawalLiability(token, l1, zone) == Ok(LiveWithdrawals(token, l1, zone))
            && Balance(token, l1) - r.value == ZoneTotal(Fees, token, zone) + L1Total(Donations, token, l1)
  {
    hide RequiredBacking, WithdrawalLiability, Balance, Supply, Retired, LiveWithdrawals, LiveDeposits,
         LivePortalRefunds, LiveInboxRefunds, Numbered, ClaimsExact, Entries, Processings, Requests, Settlements,
         L1Total, ZoneTotal, Sized;
    AuditVerdict(token, l1, zone);
    WithdrawalsInFlight(token, l1, zone);
    WithdrawalLiabilityExactly(token, l1, zone);
  }

  /**
   Without causal closure: the audit fails when more is settled ahead than is in flight, and
   otherwise reports exactly the amounts settled ahead too little.
   */
  lemma AuditFallsShortBySettledAhead(token: Token, l1: seq<L1Event>, zone: seq<ZoneEvent>)
    requires Numbered(l1) && Processings(zone) <= Entries(l1) && Comparable(l1, zone)
    requires ClaimsExact(PortalRefunds(l1)) && ClaimsExact(InboxRefunds(zone))
    requires Sized(l1, zone) && Supply(token, zone) >= 0
    ensures var ahead, live := SettledAhead(token, l1, zone), LiveWithdrawals(token, l1, zone);
            && WithdrawalLiability(token, l1, zone) == (if ahead <= live then Ok(live - ahead) else Err(IncompleteHistory))
            && RequiredBacking(token, l1, zone, Supply(token, zone))
               == (if ahead <= live then Ok(LiveObligations(token, l1, zone) - ahead) else Err(IncompleteHistory))
  {
    hide RequiredBacking, WithdrawalLiability, Balance, Supply, Retired, LiveWithdrawals, LiveDeposits, SettledAhead,
         LivePortalRefunds, LiveInboxRefunds, Numbered, ClaimsExact, Entries, Processings, Comparable,
         L1Total, ZoneTotal, Sized;
    AuditVerdict(token, l1, zone);
    WithdrawalsBalance(token, l1, zone);
    WithdrawalLiabilityExactly(token, l1, zone);
  }
}
