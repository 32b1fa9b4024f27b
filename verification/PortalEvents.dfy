/** Values shared by the L1 ingestion pipeline: anchors, headers, portal events and L1 blocks. */
module PortalEvents {
  const U64_MAX: int := 0xFFFF_FFFF_FFFF_FFFF

  type U64 = n: int | 0 <= n <= U64_MAX
  type Hash = nat
  type Address = nat

  datatype Option<+T> = None | Some(value: T)
  datatype Result<+T, +E> = Ok(value: T) | Err(error: E)

  function SaturatingAdd(a: U64, b: U64): (r: U64)
    ensures r <= a + b && (r < U64_MAX ==> r == a + b)
  {
    if a + b > U64_MAX then U64_MAX else a + b
  }

  function SaturatingSub(a: U64, b: U64): (r: U64)
    ensures r >= a - b && (r > 0 ==> r == a - b)
  {
    if a < b then 0 else a - b
  }

  /** A block number paired with a block hash. */
  datatype NumHash = NumHash(number: U64, hash: Hash)

  /** A sealed header: the part of it that ingestion inspects. */
  datatype Header = Header(anchor: NumHash, parentHash: Hash, timestampMillis: U64)

  datatype DepositPayload = DepositPayload(
    ephemeralX: nat, ephemeralYParity: nat, ciphertext: seq<nat>, nonce: seq<nat>, tag: seq<nat>)

  /** A queue entry from L1: an internal withdrawal bounce-back or an encrypted user deposit. */
  datatype L1Deposit =
    | BounceBack(token: Address, to: Address, amount: nat)
    | UserDeposit(token: Address, sender: Address, amount: nat, refundRecipient: Address,
                  keyIndex: nat, payload: DepositPayload)

  datatype EnabledToken = EnabledToken(token: Address, name: string, symbol: string, currency: string)

  datatype KeyRotation = KeyRotation(x: nat, yParity: nat, keyIndex: nat, activationBlock: U64)

  datatype LeaderTransition = LeaderTransition(previous: Address, next: Address, epoch: U64, activationBlock: U64)

  /** Portal events of one L1 block, in canonical log order within each kind. */
  datatype Events = Events(
    deposits: seq<L1Deposit>,
    tokens: seq<EnabledToken>,
    rotations: seq<KeyRotation>,
    leaderTransitions: seq<LeaderTransition>,
    pause: Option<bool>)

  const NO_EVENTS := Events([], [], [], [], None)

  datatype Block = Block(header: Header, events: Events) {
    function Anchor(): NumHash { header.anchor }
    function Number(): U64 { header.anchor.number }
  }

  /** The two event streams that a full Zone block consumes through `advanceTempo`. */
  datatype Work = Work(deposits: seq<L1Deposit>, tokens: seq<EnabledToken>) {
    function Then(next: Work): Work
    {
      Work(deposits + next.deposits, tokens + next.tokens)
    }
  }

  const NO_WORK := Work([], [])

  function EventWork(e: Events): Work
  {
    Work(e.deposits, e.tokens)
  }

  /** Every deposit and every token enablement of `events`, in order. */
  function EventsWork(events: seq<Events>): Work
  {
    if events == [] then NO_WORK
    else EventsWork(events[..|events| - 1]).Then(EventWork(events[|events| - 1]))
  }

  /** Every deposit and every token enablement of `blocks`, in order. */
  function WorkOf(blocks: seq<Block>): Work
  {
    if blocks == [] then NO_WORK
    else WorkOf(blocks[..|blocks| - 1]).Then(EventWork(blocks[|blocks| - 1].events))
  }

  lemma ThenAssociates(a: Work, b: Work, c: Work)
    ensures a.Then(b).Then(c) == a.Then(b.Then(c))
    ensures NO_WORK.Then(a) == a == a.Then(NO_WORK)
  {
  }

  lemma {:induction false} WorkOfAppend(a: seq<Block>, b: seq<Block>)
    ensures WorkOf(a + b) == WorkOf(a).Then(WorkOf(b))
  {
    if b == [] {
      assert a + b == a;
    } else {
      var n := |b| - 1;
      assert (a + b)[..|a + b| - 1] == a + b[..n];
      WorkOfAppend(a, b[..n]);
      ThenAssociates(WorkOf(a), WorkOf(b[..n]), EventWork(b[n].events));
    }
  }

  /** The content of a range, one block after the other. */
  lemma WorkOfExactly(blocks: seq<Block>, block: Block)
    ensures WorkOf([]).deposits == [] && WorkOf([]).tokens == []
    ensures WorkOf(blocks + [block]).deposits == WorkOf(blocks).deposits + block.events.deposits
    ensures WorkOf(blocks + [block]).tokens == WorkOf(blocks).tokens + block.events.tokens
  {
    assert (blocks + [block])[..|blocks|] == blocks;
  }

  /** The block at `i` is the child of the block before it. */
  ghost predicate ChildAt(blocks: seq<Block>, i: int)
    requires 0 < i < |blocks|
  {
    && blocks[i].Number() == blocks[i - 1].Number() + 1
    && blocks[i].header.parentHash == blocks[i - 1].Anchor().hash
  }

  /** Consecutive numbers, each header naming its predecessor's hash. */
  ghost predicate Linked(blocks: seq<Block>)
  {
    forall i :: 0 < i < |blocks| ==> ChildAt(blocks, i)
  }

  lemma LinkedAppend(blocks: seq<Block>, next: Block)
    requires Linked(blocks)
    requires blocks != [] ==>
      var tip := blocks[|blocks| - 1].Anchor();
      next.Number() == tip.number + 1 && next.header.parentHash == tip.hash
    ensures Linked(blocks + [next])
  {
    forall i | 0 < i < |blocks + [next]|
      ensures ChildAt(blocks + [next], i)
    {
      if i < |blocks| {
        assert ChildAt(blocks, i);
      }
    }
  }

  lemma LinkedPrefix(blocks: seq<Block>, k: nat)
    requires Linked(blocks) && k <= |blocks|
    ensures Linked(blocks[..k])
  {
    forall i | 0 < i < k
      ensures ChildAt(blocks[..k], i)
    {
      assert ChildAt(blocks, i);
    }
  }

  lemma LinkedSuffix(blocks: seq<Block>, k: nat)
    requires Linked(blocks) && k <= |blocks|
    ensures Linked(blocks[k..])
  {
    forall i | 0 < i < |blocks[k..]|
      ensures ChildAt(blocks[k..], i)
    {
      assert ChildAt(blocks, k + i);
    }
  }

  lemma {:induction false} LinkedNumbers(blocks: seq<Block>, i: nat, j: nat)
    requires Linked(blocks) && i <= j < |blocks|
    ensures blocks[j].Number() == blocks[i].Number() + (j - i)
    decreases j
  {
    if i == j {
    } else {
      assert ChildAt(blocks, j);
      LinkedNumbers(blocks, i, j - 1);
    }
  }
}
