/** Every run of the two-chain bridge, and every consistent pair of snapshots of it. */
module BridgeLifecycle {
  import opened PortalEvents
  import opened PortalBacking
  import opened BackingTheorems

  /** The event logs of both chains. */
  datatype Bridge = Bridge(l1: seq<L1Event>, zone: seq<ZoneEvent>)

  const GENESIS := Bridge([], [])

  datatype Action =
    | Deposit(token: Token, amount: nat)
    | Donate(token: Token, amount: nat)
    | Mint
    | FailDeposit
    | Remint
    | ParkBounceBack(recipient: Address)
    | RequestWithdrawal(token: Token, amount: nat, fee: nat)
    | PayWithdrawal
    | BounceWithdrawal
    | RefundDeposit(fee: nat)
    | ParkRefund(fee: nat, recipient: Address)
    | ClaimPortalRefund(token: Token, recipient: Address)
    | ClaimInboxRefund(token: Token, recipient: Address)

  /** The queue entry the Zone processes next, and the withdrawal L1 settles next. */
  function NextEntry(b: Bridge): Option<Entry>
  {
    if ProcessedCount(b.zone) < Recorded(b.l1) then Some(Entries(b.l1)[ProcessedCount(b.zone)]) else None
  }

  function NextRequest(b: Bridge): Option<Request>
  {
    if |Settlements(b.l1)| < |Requests(b.zone)| then Some(Requests(b.zone)[|Settlements(b.l1)|]) else None
  }

  predicate NextEntryIs(b: Bridge, bounce: bool)
  {
    NextEntry(b).Some? && NextEntry(b).value.bounce == bounce
  }

  predicate NextRequestIs(b: Bridge, refund: bool)
  {
    NextRequest(b).Some? && NextRequest(b).value.refund == refund
  }

  /** The event an action appends on L1, if the action runs there and is enabled. */
  function L1Effect(b: Bridge, a: Action): Option<L1Event>
  {
    match a
    case Deposit(token, amount) => Some(DepositMade(token, Recorded(b.l1) + 1, amount))
    case Donate(token, amount) => Some(Donated(token, amount))
    case PayWithdrawal =>
      if NextRequestIs(b, false) then Some(WithdrawalPaid(NextRequest(b).value.token, NextRequest(b).value.amount)) else None
    case BounceWithdrawal =>
      if NextRequestIs(b, false)
      then Some(WithdrawalBounced(NextRequest(b).value.token, Recorded(b.l1) + 1, NextRequest(b).value.amount)) else None
    case RefundDeposit(fee) =>
      if NextRequestIs(b, true) && fee <= NextRequest(b).value.amount
      then Some(DepositRefunded(NextRequest(b).value.token, NextRequest(b).value.amount - fee, fee)) else None
    case ParkRefund(fee, recipient) =>
      if NextRequestIs(b, true) && fee <= NextRequest(b).value.amount
      then Some(DepositRefundParked(NextRequest(b).value.token, recipient, NextRequest(b).value.amount - fee, fee)) else None
    case ClaimPortalRefund(token, recipient) =>
      Some(PortalRefundClaimed(token, recipient, Owed(Registry(PortalRefunds(b.l1)), token, recipient)))
    case _ => None
  }

  /** The event an action appends on the Zone, if the action runs there and is enabled. */
  function ZoneEffect(b: Bridge, a: Action): Option<ZoneEvent>
  {
    match a
    case Mint =>
      if NextEntryIs(b, false) then Some(DepositProcessed(NextEntry(b).value.token, NextEntry(b).value.amount)) else None
    case FailDeposit =>
      if NextEntryIs(b, false) then Some(DepositFailed(NextEntry(b).value.token, NextEntry(b).value.amount)) else None
    case Remint =>
      if NextEntryIs(b, true) then Some(BounceBackProcessed(NextEntry(b).value.token, NextEntry(b).value.amount)) else None
    case ParkBounceBack(recipient) =>
      if NextEntryIs(b, true)
      then Some(BounceBackPending(NextEntry(b).value.token, recipient, NextEntry(b).value.amount)) else None
    case RequestWithdrawal(token, amount, fee) =>
      if amount > 0 && amount + fee <= Supply(token, b.zone) then Some(WithdrawalRequested(token, amount, fee)) else None
    case ClaimInboxRefund(token, recipient) =>
      Some(InboxRefundClaimed(token, recipient, Owed(Registry(InboxRefunds(b.zone)), token, recipient)))
    case _ => None
  }

  function Step(b: Bridge, a: Action): Bridge
  {
    var l1, zone := L1Effect(b, a), ZoneEffect(b, a);
    Bridge(if l1.Some? then b.l1 + [l1.value] else b.l1, if zone.Some? then b.zone + [zone.value] else b.zone)
  }

  function Run(b: Bridge, actions: seq<Action>): Bridge
    decreases |actions|
  {
    if actions == [] then b else Run(Step(b, actions[0]), actions[1..])
  }

  // ---- Every step keeps the two logs matched -----------------------------------------------------------------

  ghost predicate Inv(b: Bridge)
  {
    Matched(b.l1, b.zone) && forall token: Token :: Supply(token, b.zone) >= 0
  }

  lemma L1Snoc(log: seq<L1Event>, e: L1Event)
    ensures (log + [e])[..|log + [e]| - 1] == log && (log + [e])[|log + [e]| - 1] == e
  {
  }

  lemma ZoneSnoc(log: seq<ZoneEvent>, e: ZoneEvent)
    ensures (log + [e])[..|log + [e]| - 1] == log && (log + [e])[|log + [e]| - 1] == e
  {
  }

  lemma L1StepKeepsMatched(b: Bridge, a: Action)
    requires Matched(b.l1, b.zone) && L1Effect(b, a).Some?
    ensures Matched(b.l1 + [L1Effect(b, a).value], b.zone)
  {
  }

  lemma ZoneStepKeepsMatched(b: Bridge, a: Action)
    requires Matched(b.l1, b.zone) && ZoneEffect(b, a).Some?
    ensures Matched(b.l1, b.zone + [ZoneEffect(b, a).value])
  {
  }

  lemma SupplyStep(b: Bridge, a: Action, token: Token)
    requires Supply(token, b.zone) >= 0 && ZoneEffect(b, a).Some?
    ensures Supply(token, b.zone + [ZoneEffect(b, a).value]) >= 0
  {
  }

  lemma StepKeepsInv(b: Bridge, a: Action)
    requires Inv(b)
    ensures Inv(Step(b, a))
  {
    if L1Effect(b, a).Some? {
      L1StepKeepsMatched(b, a);
    } else if ZoneEffect(b, a).Some? {
      ZoneStepKeepsMatched(b, a);
      forall token: Token ensures Supply(token, b.zone + [ZoneEffect(b, a).value]) >= 0 {
        SupplyStep(b, a, token);
      }
    }
  }

  lemma {:induction false} RunKeepsInv(b: Bridge, actions: seq<Action>)
    requires Inv(b)
    ensures Inv(Run(b, actions))
    decreases |actions|
  {
    if actions == [] {
    } else {
      StepKeepsInv(b, actions[0]);
      RunKeepsInv(Step(b, actions[0]), actions[1..]);
    }
  }

  lemma GenesisInv()
    ensures Inv(GENESIS)
  {
  }

  // ---- Conservation ---------------------------------------------------------------------------------------------

  /** Balance minus the live obligations. */
  function Surplus(token: Token, b: Bridge): int
  {
    Balance(token, b.l1) - LiveObligations(token, b.l1, b.zone)
  }

  lemma SurplusIsFeesAndDonations(token: Token, b: Bridge)
    requires Matched(b.l1, b.zone)
    ensures Surplus(token, b) == ZoneTotal(Fees, token, b.zone) + L1Total(Donations, token, b.l1)
  {
    WithdrawalsInFlight(token, b.l1, b.zone);
    DepositsSplit(token, b.l1, b.zone);
    L1Columns(token, b.l1);
    ZoneColumns(token, b.zone);
    PortalRefundColumns(token, b.l1);
    InboxRefundColumns(token, b.zone);
    RegistryIsParkedMinusClaimed(token, PortalRefunds(b.l1));
    RegistryIsParkedMinusClaimed(token, InboxRefunds(b.zone));
  }

  /** What a step adds to the surplus: the fee a withdrawal request burns, or a donation. */
  function SurplusGain(token: Token, b: Bridge, a: Action): nat
  {
    if a.RequestWithdrawal? && a.token == token && ZoneEffect(b, a).Some? then a.fee
    else if a.Donate? && a.token == token then a.amount
    else 0
  }

  lemma DonationsStep(token: Token, b: Bridge, a: Action)
    ensures L1Total(Donations, token, Step(b, a).l1) == L1Total(Donations, token, b.l1)
              + (if a.Donate? && a.token == token then a.amount else 0)
  {
    hide Owed, Settlements, NextRequest, ZoneEffect;
    if L1Effect(b, a).Some? {
      L1Snoc(b.l1, L1Effect(b, a).value);
    }
  }

  lemma FeesStep(token: Token, b: Bridge, a: Action)
    ensures ZoneTotal(Fees, token, Step(b, a).zone) == ZoneTotal(Fees, token, b.zone)
              + (if a.RequestWithdrawal? && a.token == token && ZoneEffect(b, a).Some? then a.fee else 0)
  {
    hide Owed, Supply, NextEntry, L1Effect;
    if ZoneEffect(b, a).Some? {
      ZoneSnoc(b.zone, ZoneEffect(b, a).value);
    }
  }

  /**
   Conservation, step by step. Every lifecycle step changes the balance and the obligations by the
   same amount, except a request with a fee, which burns the fee, and a donation.
   */
  lemma StepsConserveBacking(token: Token, b: Bridge, a: Action)
    requires Inv(b)
    ensures Inv(Step(b, a))
    ensures Surplus(token, Step(b, a)) == Surplus(token, b) + SurplusGain(token, b, a)
  {
    hide Surplus;
    StepKeepsInv(b, a);
    SurplusIsFeesAndDonations(token, b);
    SurplusIsFeesAndDonations(token, Step(b, a));
    DonationsStep(token, b, a);
    FeesStep(token, b, a);
  }

  /** In every reachable state the Portal is backed, and can pay whatever it must settle next. */
  lemma PortalStaysBacked(actions: seq<Action>, token: Token)
    ensures var b := Run(GENESIS, actions);
            && Inv(b)
            && Balance(token, b.l1) >= LiveObligations(token, b.l1, b.zone) >= 0
            && (NextRequest(b).Some? && NextRequest(b).value.token == token ==>
                  Balance(token, b.l1) >= NextRequest(b).value.amount)
  {
    GenesisInv();
    RunKeepsInv(GENESIS, actions);
    var b := Run(GENESIS, actions);
    SurplusIsFeesAndDonations(token, b);
    if NextRequest(b).Some? && NextRequest(b).value.token == token {
      var rest := Requests(b.zone)[|Settlements(b.l1)|..];
      RequestSumSplits(token, rest, 1);
      assert rest[..1] == [NextRequest(b).value];
      assert [NextRequest(b).value][..0] == [];
    }
  }

  // ---- Consistent cuts --------------------------------------------------------------------------------------------

  /**
   A pair of snapshots is causally closed when neither chain's prefix consumes a queue entry that
   the other prefix has not produced.
   */
  predicate Closed(l1: seq<L1Event>, zone: seq<ZoneEvent>)
  {
    ProcessedCount(zone) <= Recorded(l1) && |Settlements(l1)| <= |Requests(zone)|
  }

  lemma {:induction false} L1PrefixKeepsOrder(log: seq<L1Event>, i: nat)
    requires i <= |log|
    ensures Entries(log[..i]) <= Entries(log) && Settlements(log[..i]) <= Settlements(log)
    ensures Numbered(log) ==> Numbered(log[..i])
    ensures ClaimsExact(PortalRefunds(log)) ==> ClaimsExact(PortalRefunds(log[..i]))
    decreases |log|
  {
    if i == |log| {
      assert log[..i] == log;
    } else {
      var n := |log| - 1;
      L1PrefixKeepsOrder(log[..n], i);
      assert log[..n][..i] == log[..i];
      var front, ops := PortalRefunds(log[..n]), PortalRefunds(log);
      assert ops != front ==> ops[..|ops| - 1] == front;
    }
  }

  lemma {:induction false} ZonePrefixKeepsOrder(log: seq<ZoneEvent>, j: nat)
    requires j <= |log|
    ensures Processings(log[..j]) <= Processings(log) && Requests(log[..j]) <= Requests(log)
    ensures ClaimsExact(InboxRefunds(log)) ==> ClaimsExact(InboxRefunds(log[..j]))
    decreases |log|
  {
    if j == |log| {
      assert log[..j] == log;
    } else {
      var n := |log| - 1;
      ZonePrefixKeepsOrder(log[..n], j);
      assert log[..n][..j] == log[..j];
      var front, ops := InboxRefunds(log[..n]), InboxRefunds(log);
      assert ops != front ==> ops[..|ops| - 1] == front;
    }
  }

  lemma ShorterPrefix<T>(a: seq<T>, b: seq<T>, whole: seq<T>)
    requires a <= whole && b <= whole && |a| <= |b|
    ensures a <= b
  {
  }

  /** In any pair of snapshots of one history, one side of each queue is a prefix of the other side. */
  lemma CutsAreComparable(b: Bridge, i: nat, j: nat)
    requires Matched(b.l1, b.zone) && i <= |b.l1| && j <= |b.zone|
    ensures var l1, zone := b.l1[..i], b.zone[..j];
            && Numbered(l1) && ClaimsExact(PortalRefunds(l1)) && ClaimsExact(InboxRefunds(zone))
            && Comparable(l1, zone)
            && (ProcessedCount(zone) <= Recorded(l1) ==> Processings(zone) <= Entries(l1))
  {
    hide Numbered, ClaimsExact, PortalRefunds, InboxRefunds;
    var l1, zone := b.l1[..i], b.zone[..j];
    L1PrefixKeepsOrder(b.l1, i);
    ZonePrefixKeepsOrder(b.zone, j);
    if ProcessedCount(zone) <= Recorded(l1) {
      ShorterPrefix(Processings(zone), Entries(l1), Entries(b.l1));
    }
    if |Settlements(l1)| <= |Requests(zone)| {
      ShorterPrefix(Settlements(l1), Requests(zone), Requests(b.zone));
    } else {
      ShorterPrefix(Requests(zone), Settlements(l1), Requests(b.zone));
    }
  }

  /** A causally closed pair of prefixes of matched logs is itself matched. */
  lemma CutsAreMatched(b: Bridge, i: nat, j: nat)
    requires Matched(b.l1, b.zone) && i <= |b.l1| && j <= |b.zone|
    requires Closed(b.l1[..i], b.zone[..j])
    ensures Matched(b.l1[..i], b.zone[..j])
  {
    CutsAreComparable(b, i, j);
  }

  lemma {:induction false} ZoneOnlyGrows(b: Bridge, actions: seq<Action>)
    ensures b.zone <= Run(b, actions).zone
    decreases |actions|
  {
    if actions == [] {
    } else {
      ZoneOnlyGrows(Step(b, actions[0]), actions[1..]);
    }
  }

  lemma {:induction false} SupplyAlongRun(b: Bridge, actions: seq<Action>, j: nat, token: Token)
    requires Inv(b) && |b.zone| <= j <= |Run(b, actions).zone|
    ensures b.zone <= Run(b, actions).zone
    ensures Supply(token, Run(b, actions).zone[..j]) >= 0
    decreases |actions|
  {
    if actions == [] {
      assert b.zone[..j] == b.zone;
    } else {
      var next := Step(b, actions[0]);
      StepKeepsInv(b, actions[0]);
      ZoneOnlyGrows(next, actions[1..]);
      if |next.zone| <= j {
        SupplyAlongRun(next, actions[1..], j, token);
      } else {
        assert Run(b, actions).zone[..j] == b.zone;
      }
    }
  }

  lemma SuppliesStayNonNegative(actions: seq<Action>, j: nat, token: Token)
    requires j <= |Run(GENESIS, actions).zone|
    ensures Supply(token, Run(GENESIS, actions).zone[..j]) >= 0
  {
    GenesisInv();
    SupplyAlongRun(GENESIS, actions, j, token);
  }

  /**
   Consistent-cut accounting. For every run and every causally closed pair of snapshots, the audit
   succeeds and never underflows, its withdrawal term is the sum of withdrawals still in flight, its
   required backing is the sum of the live obligations, and the balance covers it.
   */
  lemma AuditHoldsAtEveryConsistentCut(actions: seq<Action>, i: nat, j: nat, token: Token)
    requires i <= |Run(GENESIS, actions).l1| && j <= |Run(GENESIS, actions).zone|
    requires var b := Run(GENESIS, actions); Closed(b.l1[..i], b.zone[..j]) && Sized(b.l1[..i], b.zone[..j])
    ensures var l1, zone := Run(GENESIS, actions).l1[..i], Run(GENESIS, actions).zone[..j];
            && Supply(token, zone) >= 0
            && WithdrawalLiability(token, l1, zone) == Ok(LiveWithdrawals(token, l1, zone))
            && RequiredBacking(token, l1, zone, Supply(token, zone)) == Ok(LiveObligations(token, l1, zone))
            && Balance(token, l1) >= LiveObligations(token, l1, zone)
  {
    GenesisInv();
    RunKeepsInv(GENESIS, actions);
    SuppliesStayNonNegative(actions, j, token);
    CutsAreMatched(Run(GENESIS, actions), i, j);
    AuditIsExact(token, Run(GENESIS, actions).l1[..i], Run(GENESIS, actions).zone[..j]);
  }

  /**
   The audit at every pair of snapshots of every run. It notices a Zone that is ahead in deposits.
   Otherwise it is right exactly when no withdrawal of the token is settled on L1 and not yet
   requested on the Zone, reports an incomplete history exactly when more is settled ahead than is
   in flight, and between the two silently falls short by the amounts settled ahead.
   */
  lemma AuditAtEveryCut(actions: seq<Action>, i: nat, j: nat, token: Token)
    requires i <= |Run(GENESIS, actions).l1| && j <= |Run(GENESIS, actions).zone|
    requires Sized(Run(GENESIS, actions).l1[..i], Run(GENESIS, actions).zone[..j])
    ensures var l1, zone := Run(GENESIS, actions).l1[..i], Run(GENESIS, actions).zone[..j];
            var ahead, live := SettledAhead(token, l1, zone), LiveWithdrawals(token, l1, zone);
            && Supply(token, zone) >= 0
            && var r := RequiredBacking(token, l1, zone, Supply(token, zone));
            && (r == Err(ZoneAhead) <==> ProcessedCount(zone) > Recorded(l1))
            && (r == Err(IncompleteHistory) <==> ProcessedCount(zone) <= Recorded(l1) && ahead > live)
            && (r == Ok(LiveObligations(token, l1, zone)) <==> ProcessedCount(zone) <= Recorded(l1) && ahead == 0)
            && (r.Ok? ==> r.value == LiveObligations(token, l1, zone) - ahead)
  {
    GenesisInv();
    RunKeepsInv(GENESIS, actions);
    SuppliesStayNonNegative(actions, j, token);
    CutsAreComparable(Run(GENESIS, actions), i, j);
    hide Run, Supply, SettledAhead, LiveWithdrawals, LiveObligations, Numbered, ClaimsExact, Entries, Processings,
         PortalRefunds, InboxRefunds, Comparable, Sized, Matched, WithdrawalLiability, PortalRefundLiability,
         InboxRefundLiability, PendingDepositFold;
    var l1, zone := Run(GENESIS, actions).l1[..i], Run(GENESIS, actions).zone[..j];
    if ProcessedCount(zone) <= Recorded(l1) {
      AuditFallsShortBySettledAhead(token, l1, zone);
    }
  }

  /**
   An open cut can pass unnoticed. When the L1 snapshot has settled withdrawals that the Zone
   snapshot has not requested yet, the only withdrawals in flight are the bounced ones. The audit's
   term is right exactly when nothing is settled ahead, and errs exactly when that exceeds them.
   */
  lemma OpenCutUnderReports(b: Bridge, i: nat, j: nat, token: Token)
    requires Matched(b.l1, b.zone) && i <= |b.l1| && j <= |b.zone|
    requires ProcessedCount(b.zone[..j]) <= Recorded(b.l1[..i])
    requires |Requests(b.zone[..j])| <= |Settlements(b.l1[..i])|
    requires Sized(b.l1[..i], b.zone[..j])
    ensures var l1, zone := b.l1[..i], b.zone[..j];
            var bounced, ahead := EntrySum(token, Unprocessed(l1, zone), true), SettledAhead(token, l1, zone);
            && (WithdrawalLiability(token, l1, zone) == Ok(bounced) <==> ahead == 0)
            && (WithdrawalLiability(token, l1, zone) == Err(IncompleteHistory) <==> ahead > bounced)
            && (ahead <= bounced ==> WithdrawalLiability(token, l1, zone) == Ok(bounced - ahead))
  {
    hide WithdrawalLiability, Retired, ZoneTotal, L1Total, Sized, Matched, Numbered, ClaimsExact, EntrySum, Unprocessed,
         SettledAhead, Entries, Settlements, Requests, Processings, PortalRefunds, InboxRefunds, Comparable;
    CutsAreComparable(b, i, j);
    var l1, zone := b.l1[..i], b.zone[..j];
    assert After(Requests(zone), |Settlements(l1)|) == [];
    assert RequestSum(token, []) == 0;
    hide RequestSum;
    WithdrawalsBalance(token, l1, zone);
    WithdrawalLiabilityExactly(token, l1, zone);
  }

  // ---- An open cut of a real run ------------------------------------------------------------------------------------

  const MINTED := DepositProcessed(0, 7)
  const FIRST := WithdrawalRequested(0, 4, 0)
  const SECOND := WithdrawalRequested(0, 3, 0)

  /** Deposit 7, withdraw 4, which bounces, withdraw 3, which is paid. */
  const OPEN_RUN: seq<Action> :=
    [Deposit(0, 7), Mint, RequestWithdrawal(0, 4, 0), BounceWithdrawal, RequestWithdrawal(0, 3, 0), PayWithdrawal]

  const OPEN_L1 := [DepositMade(0, 1, 7), WithdrawalBounced(0, 2, 4), WithdrawalPaid(0, 3)]

  lemma OpenL1Queues()
    ensures Entries(OPEN_L1[..1]) == [Entry(0, 7, false)] && Settlements(OPEN_L1[..1]) == []
    ensures Entries(OPEN_L1[..2]) == [Entry(0, 7, false), Entry(0, 4, true)]
    ensures Settlements(OPEN_L1[..2]) == [Request(0, 4, false)]
    ensures Entries(OPEN_L1) == [Entry(0, 7, false), Entry(0, 4, true)]
    ensures Settlements(OPEN_L1) == [Request(0, 4, false), Request(0, 3, false)]
  {
    assert OPEN_L1[..1][..0] == [] && OPEN_L1[..2][..1] == OPEN_L1[..1];
  }

  lemma OpenZoneQueues()
    ensures Processings([MINTED]) == [Entry(0, 7, false)] && Requests([MINTED]) == []
    ensures Processings([MINTED, FIRST]) == [Entry(0, 7, false)] && Requests([MINTED, FIRST]) == [Request(0, 4, false)]
    ensures Requests([MINTED, FIRST, SECOND]) == [Request(0, 4, false), Request(0, 3, false)]
  {
    assert [MINTED][..0] == [] && [MINTED, FIRST][..1] == [MINTED] && [MINTED, FIRST, SECOND][..2] == [MINTED, FIRST];
  }

  lemma OpenSupplies()
    ensures Supply(0, [MINTED]) == 7 && Supply(0, [MINTED, FIRST]) == 3
  {
    assert [MINTED][..0] == [] && [MINTED, FIRST][..1] == [MINTED];
    assert forall column :: ZoneTotal(column, 0, [MINTED]) == ZoneAmount(column, 0, MINTED);
    assert forall column :: ZoneTotal(column, 0, [MINTED, FIRST])
                         == ZoneAmount(column, 0, MINTED) + ZoneAmount(column, 0, FIRST);
  }

  lemma OpenDepositSteps()
    ensures Step(GENESIS, Deposit(0, 7)) == Bridge(OPEN_L1[..1], [])
    ensures Step(Bridge(OPEN_L1[..1], []), Mint) == Bridge(OPEN_L1[..1], [MINTED])
    ensures Step(Bridge(OPEN_L1[..1], [MINTED]), RequestWithdrawal(0, 4, 0)) == Bridge(OPEN_L1[..1], [MINTED, FIRST])
  {
    OpenL1Queues();
    OpenSupplies();
    hide Supply;
  }

  lemma OpenWithdrawalSteps()
    ensures Step(Bridge(OPEN_L1[..1], [MINTED, FIRST]), BounceWithdrawal) == Bridge(OPEN_L1[..2], [MINTED, FIRST])
    ensures Step(Bridge(OPEN_L1[..2], [MINTED, FIRST]), RequestWithdrawal(0, 3, 0))
         == Bridge(OPEN_L1[..2], [MINTED, FIRST, SECOND])
    ensures Step(Bridge(OPEN_L1[..2], [MINTED, FIRST, SECOND]), PayWithdrawal)
         == Bridge(OPEN_L1, [MINTED, FIRST, SECOND])
  {
    OpenL1Queues();
    OpenZoneQueues();
    OpenSupplies();
    hide Entries, Settlements, Requests, Supply;
  }

  lemma RunOf3(b: Bridge, x: Action, y: Action, z: Action, rest: seq<Action>)
    ensures Run(b, [x, y, z] + rest) == Run(Step(Step(Step(b, x), y), z), rest)
  {
    hide Step;
    var all := [x, y, z] + rest;
    assert all[1..] == [y, z] + rest && ([y, z] + rest)[1..] == [z] + rest && ([z] + rest)[1..] == rest;
    assert Run(b, all) == Run(Step(b, x), [y, z] + rest);
    assert Run(Step(b, x), [y, z] + rest) == Run(Step(Step(b, x), y), [z] + rest);
  }

  lemma OpenRunReaches()
    ensures Run(GENESIS, OPEN_RUN) == Bridge(OPEN_L1, [MINTED, FIRST, SECOND])
  {
    OpenDepositSteps();
    OpenWithdrawalSteps();
    hide Step;
    var last := [BounceWithdrawal, RequestWithdrawal(0, 3, 0), PayWithdrawal];
    assert OPEN_RUN == [Deposit(0, 7), Mint, RequestWithdrawal(0, 4, 0)] + last && last == last + [];
    RunOf3(GENESIS, OPEN_RUN[0], OPEN_RUN[1], OPEN_RUN[2], last);
    RunOf3(Bridge(OPEN_L1[..1], [MINTED, FIRST]), last[0], last[1], last[2], []);
  }

  lemma OpenSums()
    ensures EntrySum(0, [Entry(0, 4, true)], true) == 4
    ensures RequestSum(0, [Request(0, 3, false)]) == 3 && RequestSum(0, []) == 0
  {
  }

  lemma OpenAmounts()
    ensures var zone := [MINTED, FIRST];
            && Sized(OPEN_L1, zone) && ProcessedCount(zone) <= Recorded(OPEN_L1) && |Requests(zone)| <= |Settlements(OPEN_L1)|
            && EntrySum(0, Unprocessed(OPEN_L1, zone), true) == 4 == LiveWithdrawals(0, OPEN_L1, zone)
            && SettledAhead(0, OPEN_L1, zone) == 3
  {
    OpenL1Queues();
    OpenZoneQueues();
    hide Entries, Settlements, Requests, Processings;
    assert [Entry(0, 7, false), Entry(0, 4, true)][1..] == [Entry(0, 4, true)];
    assert [Request(0, 4, false), Request(0, 3, false)][1..] == [Request(0, 3, false)];
    assert After([Request(0, 4, false)], 2) == [];
    OpenSums();
  }

  /**
   The Zone snapshot is from before the second request. The audit reports 1 in flight and no error,
   while the 4 that bounced are still owed.
   */
  lemma OpenCutExample()
    ensures var b := Run(GENESIS, OPEN_RUN);
            && |b.l1| == 3 && |b.zone| == 3
            && WithdrawalLiability(0, b.l1[..3], b.zone[..2]) == Ok(1)
            && LiveWithdrawals(0, b.l1[..3], b.zone[..2]) == 4
  {
    hide Run, Matched, Sized, Recorded, ProcessedCount, Settlements, Requests, EntrySum, WithdrawalLiability,
         LiveWithdrawals, SettledAhead, Unprocessed, Supply, OPEN_RUN;
    OpenRunReaches();
    OpenAmounts();
    GenesisInv();
    RunKeepsInv(GENESIS, OPEN_RUN);
    var b := Run(GENESIS, OPEN_RUN);
    assert b.l1[..3] == OPEN_L1 && b.zone[..2] == [MINTED, FIRST];
    OpenCutUnderReports(b, 3, 2, 0);
  }
}
