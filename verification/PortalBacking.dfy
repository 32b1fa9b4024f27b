/**
 The Portal backing audit: liabilities recomputed from two event logs by checked sums and
 subtractions, and what those numbers are when the logs belong to one bridge history.
 */
module PortalBacking {
  import opened PortalEvents

  const U256_MAX: nat := 0xFFFF_FFFF_FFFF_FFFF_FFFF_FFFF_FFFF_FFFF_FFFF_FFFF_FFFF_FFFF_FFFF_FFFF_FFFF_FFFF
  const U128_LIMIT: nat := 0x1_0000_0000_0000_0000_0000_0000_0000_0000

  type Token = Address

  /**
   What happened on L1. A bounced withdrawal enters the deposit queue and emits `WithdrawalProcessed`
   without success next to `WithdrawalBounceBack`. Queue numbers count both kinds of entry from one.
   */
  datatype L1Event =
    | DepositMade(token: Token, number: nat, amount: nat)
    | WithdrawalBounced(token: Token, number: nat, amount: nat)
    | WithdrawalPaid(token: Token, amount: nat)
    | DepositRefunded(token: Token, amount: nat, fee: nat)
    | DepositRefundParked(token: Token, recipient: Address, amount: nat, fee: nat)
    | PortalRefundClaimed(token: Token, recipient: Address, amount: nat)
    | Donated(token: Token, amount: nat)

  /**
   What happened on the Zone. A failed deposit emits `WithdrawalRequested` for its refund with no
   fee and nothing burned; a user request burns its amount and its fee.
   */
  datatype ZoneEvent =
    | WithdrawalRequested(token: Token, amount: nat, fee: nat)
    | DepositProcessed(token: Token, amount: nat)
    | DepositFailed(token: Token, amount: nat)
    | BounceBackProcessed(token: Token, amount: nat)
    | BounceBackPending(token: Token, recipient: Address, amount: nat)
    | InboxRefundClaimed(token: Token, recipient: Address, amount: nat)

  // ---- Column totals ------------------------------------------------------------------------------------

  datatype L1Column = Deposits | Bounced | Paid | Refunded | ParkedRetired | Parked | ParkedFees | PortalClaims | Donations

  datatype ZoneColumn = Requested | Minted | Failed | Reminted | InboxParked | InboxClaims | Burned | Fees

  /** What an event contributes to a column for `token`. */
  function L1Amount(column: L1Column, token: Token, e: L1Event): nat
  {
    if e.token != token then 0
    else
      match e
      case DepositMade(_, _, amount) => if column.Deposits? then amount else 0
      case WithdrawalBounced(_, _, amount) => if column.Bounced? then amount else 0
      case WithdrawalPaid(_, amount) => if column.Paid? then amount else 0
      case DepositRefunded(_, amount, fee) => if column.Refunded? then amount + fee else 0
      case DepositRefundParked(_, _, amount, fee) =>
        if column.ParkedRetired? then amount + fee else if column.Parked? then amount
        else if column.ParkedFees? then fee else 0
      case PortalRefundClaimed(_, _, amount) => if column.PortalClaims? then amount else 0
      case Donated(_, amount) => if column.Donations? then amount else 0
  }

  function ZoneAmount(column: ZoneColumn, token: Token, e: ZoneEvent): nat
  {
    if e.token != token then 0
    else
      match e
      case WithdrawalRequested(_, amount, fee) =>
        if column.Requested? then amount else if column.Burned? then amount + fee else if column.Fees? then fee else 0
      case DepositProcessed(_, amount) => if column.Minted? then amount else 0
      case DepositFailed(_, amount) => if column.Requested? || column.Failed? then amount else 0
      case BounceBackProcessed(_, amount) => if column.Reminted? then amount else 0
      case BounceBackPending(_, _, amount) => if column.InboxParked? then amount else 0
      case InboxRefundClaimed(_, _, amount) => if column.InboxClaims? then amount else 0
  }

  function L1Total(column: L1Column, token: Token, log: seq<L1Event>): nat
  {
    if log == [] then 0
    else L1Total(column, token, log[..|log| - 1]) + L1Amount(column, token, log[|log| - 1])
  }

  function ZoneTotal(column: ZoneColumn, token: Token, log: seq<ZoneEvent>): nat
  {
    if log == [] then 0
    else ZoneTotal(column, token, log[..|log| - 1]) + ZoneAmount(column, token, log[|log| - 1])
  }

  // ---- The audit -------------------------------------------------------------------------------------------

  datatype AuditError = ZoneAhead | Overflow | IncompleteHistory

  function CheckedAdd(a: nat, b: nat): Result<nat, AuditError>
  {
    if a + b <= U256_MAX then Ok(a + b) else Err(Overflow)
  }

  function CheckedSub(a: nat, b: nat): Result<nat, AuditError>
  {
    if b <= a then Ok(a - b) else Err(IncompleteHistory)
  }

  function Plus(a: Result<nat, AuditError>, b: Result<nat, AuditError>): Result<nat, AuditError>
  {
    if a.Err? then a else if b.Err? then b else CheckedAdd(a.value, b.value)
  }

  function Minus(a: Result<nat, AuditError>, b: Result<nat, AuditError>): Result<nat, AuditError>
  {
    if a.Err? then a else if b.Err? then b else CheckedSub(a.value, b.value)
  }

  /** A checked fold over the L1 log. */
  function L1Fold(column: L1Column, token: Token, log: seq<L1Event>): Result<nat, AuditError>
  {
    if log == [] then Ok(0)
    else Plus(L1Fold(column, token, log[..|log| - 1]), Ok(L1Amount(column, token, log[|log| - 1])))
  }

  function ZoneFold(column: ZoneColumn, token: Token, log: seq<ZoneEvent>): Result<nat, AuditError>
  {
    if log == [] then Ok(0)
    else Plus(ZoneFold(column, token, log[..|log| - 1]), Ok(ZoneAmount(column, token, log[|log| - 1])))
  }

  /** User deposits numbered past the Zone's processed watermark. */
  function PendingDepositFold(token: Token, log: seq<L1Event>, processed: nat): Result<nat, AuditError>
  {
    if log == [] then Ok(0)
    else
      var e := log[|log| - 1];
      var before := PendingDepositFold(token, log[..|log| - 1], processed);
      if e.DepositMade? && e.token == token && e.number > processed then Plus(before, Ok(e.amount)) else before
  }

  function OutstandingWithdrawals(requested: Result<nat, AuditError>, paid: Result<nat, AuditError>,
                                  reminted: Result<nat, AuditError>, refunded: Result<nat, AuditError>): Result<nat, AuditError>
  {
    Minus(Minus(Minus(requested, paid), reminted), refunded)
  }

  function WithdrawalLiability(token: Token, l1: seq<L1Event>, zone: seq<ZoneEvent>): Result<nat, AuditError>
  {
    OutstandingWithdrawals(
      ZoneFold(Requested, token, zone),
      Plus(L1Fold(Paid, token, l1), L1Fold(Refunded, token, l1)),
      ZoneFold(Reminted, token, zone),
      Plus(ZoneFold(InboxParked, token, zone), L1Fold(ParkedRetired, token, l1)))
  }

  function PortalRefundLiability(token: Token, l1: seq<L1Event>): Result<nat, AuditError>
  {
    Minus(L1Fold(Parked, token, l1), L1Fold(PortalClaims, token, l1))
  }

  function InboxRefundLiability(token: Token, zone: seq<ZoneEvent>): Result<nat, AuditError>
  {
    Minus(ZoneFold(InboxParked, token, zone), ZoneFold(InboxClaims, token, zone))
  }

  /** A deposit-queue entry: a user deposit or a bounced withdrawal. */
  datatype Entry = Entry(token: Token, amount: nat, bounce: bool)

  function Entries(log: seq<L1Event>): seq<Entry>
  {
    if log == [] then []
    else
      var front, e := Entries(log[..|log| - 1]), log[|log| - 1];
      if e.DepositMade? then front + [Entry(e.token, e.amount, false)]
      else if e.WithdrawalBounced? then front + [Entry(e.token, e.amount, true)]
      else front
  }

  /** Deposit-queue entries recorded on L1, and entries consumed by the Zone. */
  function Recorded(log: seq<L1Event>): nat
  {
    |Entries(log)|
  }

  function Processings(log: seq<ZoneEvent>): seq<Entry>
  {
    if log == [] then []
    else
      var front, e := Processings(log[..|log| - 1]), log[|log| - 1];
      if e.DepositProcessed? || e.DepositFailed? then front + [Entry(e.token, e.amount, false)]
      else if e.BounceBackProcessed? || e.BounceBackPending? then front + [Entry(e.token, e.amount, true)]
      else front
  }

  function ProcessedCount(log: seq<ZoneEvent>): nat
  {
    |Processings(log)|
  }

  /** The backing that the Portal must hold for `token`, from the two logs and the Zone supply. */
  function RequiredBacking(token: Token, l1: seq<L1Event>, zone: seq<ZoneEvent>, supply: nat): Result<nat, AuditError>
  {
    if ProcessedCount(zone) > Recorded(l1) then Err(ZoneAhead)
    else
      Plus(Plus(Plus(Plus(Ok(supply), PortalRefundLiability(token, l1)), InboxRefundLiability(token, zone)),
                PendingDepositFold(token, l1, ProcessedCount(zone))),
           WithdrawalLiability(token, l1, zone))
  }

  // ---- The two queues that the logs carry ------------------------------------------------------------------

  /** A withdrawal-queue entry: a user request or the refund of a failed deposit. */
  datatype Request = Request(token: Token, amount: nat, refund: bool)

  function Requests(log: seq<ZoneEvent>): seq<Request>
  {
    if log == [] then []
    else
      var front, e := Requests(log[..|log| - 1]), log[|log| - 1];
      if e.WithdrawalRequested? then front + [Request(e.token, e.amount, false)]
      else if e.DepositFailed? then front + [Request(e.token, e.amount, true)]
      else front
  }

  function Settlements(log: seq<L1Event>): seq<Request>
  {
    if log == [] then []
    else
      var front, e := Settlements(log[..|log| - 1]), log[|log| - 1];
      if e.WithdrawalPaid? || e.WithdrawalBounced? then front + [Request(e.token, e.amount, false)]
      else if e.DepositRefunded? || e.DepositRefundParked? then front + [Request(e.token, e.amount + e.fee, true)]
      else front
  }

  function EntrySum(token: Token, entries: seq<Entry>, bounce: bool): nat
  {
    if entries == [] then 0
    else
      var e := entries[|entries| - 1];
      EntrySum(token, entries[..|entries| - 1], bounce) + (if e.token == token && e.bounce == bounce then e.amount else 0)
  }

  function RequestSum(token: Token, requests: seq<Request>): nat
  {
    if requests == [] then 0
    else
      var r := requests[|requests| - 1];
      RequestSum(token, requests[..|requests| - 1]) + (if r.token == token then r.amount else 0)
  }

  // ---- Refund registries ---------------------------------------------------------------------------------------

  datatype RefundOp = Park(token: Token, recipient: Address, amount: nat) | Claim(token: Token, recipient: Address, amount: nat)

  function PortalRefunds(log: seq<L1Event>): seq<RefundOp>
  {
    if log == [] then []
    else
      var front, e := PortalRefunds(log[..|log| - 1]), log[|log| - 1];
      if e.DepositRefundParked? then front + [Park(e.token, e.recipient, e.amount)]
      else if e.PortalRefundClaimed? then front + [Claim(e.token, e.recipient, e.amount)]
      else front
  }

  function InboxRefunds(log: seq<ZoneEvent>): seq<RefundOp>
  {
    if log == [] then []
    else
      var front, e := InboxRefunds(log[..|log| - 1]), log[|log| - 1];
      if e.BounceBackPending? then front + [Park(e.token, e.recipient, e.amount)]
      else if e.InboxRefundClaimed? then front + [Claim(e.token, e.recipient, e.amount)]
      else front
  }

  function Without(parked: seq<RefundOp>, token: Token, recipient: Address): seq<RefundOp>
  {
    if parked == [] then []
    else
      var front, p := Without(parked[..|parked| - 1], token, recipient), parked[|parked| - 1];
      if p.token == token && p.recipient == recipient then front else front + [p]
  }

  /** The registry: refunds parked for someone and not claimed since. A claim takes all of them. */
  function Registry(ops: seq<RefundOp>): seq<RefundOp>
  {
    if ops == [] then []
    else
      var front, op := Registry(ops[..|ops| - 1]), ops[|ops| - 1];
      if op.Park? then front + [op] else Without(front, op.token, op.recipient)
  }

  /** What the registry owes one recipient. */
  function Owed(parked: seq<RefundOp>, token: Token, recipient: Address): nat
  {
    if parked == [] then 0
    else
      var p := parked[|parked| - 1];
      Owed(parked[..|parked| - 1], token, recipient) + (if p.token == token && p.recipient == recipient then p.amount else 0)
  }

  function ParkedSum(token: Token, parked: seq<RefundOp>): nat
  {
    if parked == [] then 0
    else
      var p := parked[|parked| - 1];
      ParkedSum(token, parked[..|parked| - 1]) + (if p.token == token then p.amount else 0)
  }

  /** Every claim is for exactly what the registry owes its recipient at that point. */
  predicate ClaimsExact(ops: seq<RefundOp>)
  {
    ops != [] ==>
      var front, op := ops[..|ops| - 1], ops[|ops| - 1];
      ClaimsExact(front) && (op.Claim? ==> op.amount == Owed(Registry(front), op.token, op.recipient))
  }

  /** Queue numbers count entries from one, in order. */
  predicate Numbered(log: seq<L1Event>)
  {
    log != [] ==>
      var front, e := log[..|log| - 1], log[|log| - 1];
      && Numbered(front)
      && (e.DepositMade? || e.WithdrawalBounced? ==> e.number == Recorded(front) + 1)
  }

  /**
   Two logs of one history: each chain has consumed a prefix of the other's queue, entry by entry,
   and registries pay out what they owe.
   */
  predicate Matched(l1: seq<L1Event>, zone: seq<ZoneEvent>)
  {
    && Numbered(l1)
    && Processings(zone) <= Entries(l1)
    && Settlements(l1) <= Requests(zone)
    && ClaimsExact(PortalRefunds(l1))
    && ClaimsExact(InboxRefunds(zone))
  }

  // ---- Checked folds are totals ----------------------------------------------------------------------------------

  lemma {:induction false} L1FoldIsTotal(column: L1Column, token: Token, log: seq<L1Event>)
    ensures L1Fold(column, token, log)
         == if L1Total(column, token, log) <= U256_MAX then Ok(L1Total(column, token, log)) else Err(Overflow)
  {
    if log == [] {
    } else {
      L1FoldIsTotal(column, token, log[..|log| - 1]);
    }
  }

  lemma {:induction false} ZoneFoldIsTotal(column: ZoneColumn, token: Token, log: seq<ZoneEvent>)
    ensures ZoneFold(column, token, log)
         == if ZoneTotal(column, token, log) <= U256_MAX then Ok(ZoneTotal(column, token, log)) else Err(Overflow)
  {
    if log == [] {
    } else {
      ZoneFoldIsTotal(column, token, log[..|log| - 1]);
    }
  }

  lemma {:induction false} ParkedColumns(token: Token, log: seq<L1Event>)
    ensures L1Total(ParkedRetired, token, log) == L1Total(Parked, token, log) + L1Total(ParkedFees, token, log)
  {
    if log == [] {
    } else {
      ParkedColumns(token, log[..|log| - 1]);
    }
  }

  lemma EntrySnoc(token: Token, entries: seq<Entry>, e: Entry)
    ensures forall bounce :: EntrySum(token, entries + [e], bounce)
                          == EntrySum(token, entries, bounce) + (if e.token == token && e.bounce == bounce then e.amount else 0)
  {
  }

  lemma RequestSnoc(token: Token, requests: seq<Request>, r: Request)
    ensures RequestSum(token, requests + [r]) == RequestSum(token, requests) + (if r.token == token then r.amount else 0)
  {
  }

  lemma L1Append(token: Token, log: seq<L1Event>)
    requires log != []
    ensures var front, e := log[..|log| - 1], log[|log| - 1];
            && EntrySum(token, Entries(log), false) == EntrySum(token, Entries(front), false) + L1Amount(Deposits, token, e)
            && EntrySum(token, Entries(log), true) == EntrySum(token, Entries(front), true) + L1Amount(Bounced, token, e)
            && RequestSum(token, Settlements(log)) == RequestSum(token, Settlements(front))
                 + L1Amount(Paid, token, e) + L1Amount(Bounced, token, e) + L1Amount(Refunded, token, e)
                 + L1Amount(ParkedRetired, token, e)
  {
    var front, e := log[..|log| - 1], log[|log| - 1];
    EntrySnoc(token, Entries(front), Entry(e.token, e.amount, e.WithdrawalBounced?));
    var refund := e.DepositRefunded? || e.DepositRefundParked?;
    RequestSnoc(token, Settlements(front), Request(e.token, if refund then e.amount + e.fee else e.amount, refund));
  }

  /** The columns are the sums of the queue entries they come from. */
  lemma {:induction false} L1Columns(token: Token, log: seq<L1Event>)
    ensures L1Total(Deposits, token, log) == EntrySum(token, Entries(log), false)
    ensures L1Total(Bounced, token, log) == EntrySum(token, Entries(log), true)
    ensures L1Total(Paid, token, log) + L1Total(Bounced, token, log) + L1Total(Refunded, token, log)
            + L1Total(ParkedRetired, token, log) == RequestSum(token, Settlements(log))
    ensures L1Total(ParkedRetired, token, log) == L1Total(Parked, token, log) + L1Total(ParkedFees, token, log)
  {
    ParkedColumns(token, log);
    if log == [] {
    } else {
      hide Entries, EntrySum, Settlements, RequestSum, L1Amount;
      L1Columns(token, log[..|log| - 1]);
      L1Append(token, log);
    }
  }

  lemma ZoneAppend(token: Token, log: seq<ZoneEvent>)
    requires log != []
    ensures var front, e := log[..|log| - 1], log[|log| - 1];
            && EntrySum(token, Processings(log), false)
               == EntrySum(token, Processings(front), false) + ZoneAmount(Minted, token, e) + ZoneAmount(Failed, token, e)
            && EntrySum(token, Processings(log), true)
               == EntrySum(token, Processings(front), true) + ZoneAmount(Reminted, token, e) + ZoneAmount(InboxParked, token, e)
            && RequestSum(token, Requests(log)) == RequestSum(token, Requests(front)) + ZoneAmount(Requested, token, e)
  {
    var front, e := log[..|log| - 1], log[|log| - 1];
    EntrySnoc(token, Processings(front), Entry(e.token, e.amount, e.BounceBackProcessed? || e.BounceBackPending?));
    RequestSnoc(token, Requests(front), Request(e.token, e.amount, e.DepositFailed?));
  }

  lemma {:induction false} BurnedColumns(token: Token, log: seq<ZoneEvent>)
    ensures ZoneTotal(Burned, token, log) + ZoneTotal(Failed, token, log)
         == ZoneTotal(Requested, token, log) + ZoneTotal(Fees, token, log)
  {
    if log == [] {
    } else {
      BurnedColumns(token, log[..|log| - 1]);
    }
  }

  lemma {:induction false} ZoneColumns(token: Token, log: seq<ZoneEvent>)
    ensures ZoneTotal(Minted, token, log) + ZoneTotal(Failed, token, log) == EntrySum(token, Processings(log), false)
    ensures ZoneTotal(Reminted, token, log) + ZoneTotal(InboxParked, token, log) == EntrySum(token, Processings(log), true)
    ensures ZoneTotal(Requested, token, log) == RequestSum(token, Requests(log))
    ensures ZoneTotal(Burned, token, log) + ZoneTotal(Failed, token, log)
         == ZoneTotal(Requested, token, log) + ZoneTotal(Fees, token, log)
  {
    BurnedColumns(token, log);
    if log == [] {
    } else {
      hide Processings, EntrySum, Requests, RequestSum, ZoneAmount;
      ZoneColumns(token, log[..|log| - 1]);
      ZoneAppend(token, log);
    }
  }

  lemma {:induction false} EntrySumSplits(token: Token, entries: seq<Entry>, k: nat, bounce: bool)
    requires k <= |entries|
    ensures EntrySum(token, entries, bounce) == EntrySum(token, entries[..k], bounce) + EntrySum(token, entries[k..], bounce)
    decreases |entries|
  {
    if k == |entries| {
      assert entries[..k] == entries;
    } else {
      var n := |entries| - 1;
      EntrySumSplits(token, entries[..n], k, bounce);
      assert entries[..n][..k] == entries[..k];
      assert entries[k..][..n - k] == entries[..n][k..];
    }
  }

  lemma {:induction false} RequestSumSplits(token: Token, requests: seq<Request>, k: nat)
    requires k <= |requests|
    ensures RequestSum(token, requests) == RequestSum(token, requests[..k]) + RequestSum(token, requests[k..])
    decreases |requests|
  {
    if k == |requests| {
      assert requests[..k] == requests;
    } else {
      var n := |requests| - 1;
      RequestSumSplits(token, requests[..n], k);
      assert requests[..n][..k] == requests[..k];
      assert requests[k..][..n - k] == requests[..n][k..];
    }
  }
}
