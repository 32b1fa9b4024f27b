/**
 From queue work to the inputs of `advanceTempo`, and the follower's independent check of those
 inputs. Decryption, proof computation and ABI encoding are parameters.
 */
module Preparation {
  import opened PortalEvents
  import opened EncryptionKeys

  const MAX_UNPROCESSED_DEPOSITS := 230
  const MAX_UNPROCESSED_TOKEN_ENABLEMENTS := 8

  datatype DepositKind = KindBounceBack | KindDeposit

  datatype QueuedDeposit = QueuedDeposit(kind: DepositKind, rejected: bool, data: seq<nat>)

  datatype Decryption = Decryption(sharedSecret: nat, yParity: nat, proofS: nat, proofC: nat)

  const ZEROED_DECRYPTION := Decryption(0, 2, 0, 0)

  /** The foreign operations: ABI encoding, full ECIES decryption, and the bare ECDH proof. */
  datatype Codec = Codec(
    encode: L1Deposit -> seq<nat>,
    decrypt: (SecretKey, L1Deposit, Address) -> Option<Decryption>,
    ecdh: (SecretKey, L1Deposit) -> Option<Decryption>)

  datatype Prepared = Prepared(
    header: Header, queued: seq<QueuedDeposit>, decryptions: seq<Decryption>,
    tokens: seq<EnabledToken>, followsCheckpoint: bool)

  datatype PrepareError = EmptyRange | NoKey(keyIndex: nat) | TooManyDeposits | TooManyTokens

  function ToAbi(c: Codec, d: L1Deposit): QueuedDeposit
  {
    QueuedDeposit(if d.BounceBack? then KindBounceBack else KindDeposit, false, c.encode(d))
  }

  /** Full decryption, else a proof for an on-chain refund, else zeroed data. */
  function DecryptionFor(c: Codec, key: SecretKey, d: L1Deposit, portal: Address): Decryption
  {
    var full := c.decrypt(key, d, portal);
    if full.Some? then full.value
    else
      var proof := c.ecdh(key, d);
      if proof.Some? then proof.value else ZEROED_DECRYPTION
  }

  function PrepareDeposit(c: Codec, d: L1Deposit, keys: map<nat, SecretKey>, portal: Address)
    : (r: (QueuedDeposit, Option<Decryption>))
    requires d.UserDeposit? ==> d.keyIndex in keys
  {
    (ToAbi(c, d), if d.BounceBack? then None else Some(DecryptionFor(c, keys[d.keyIndex], d, portal)))
  }

  // ---- What preparation means on the whole deposit stream -------------------------------------------

  /** The key index of the first user deposit whose key is not bound. */
  function FirstMissing(bound: map<nat, SecretKey>, deposits: seq<L1Deposit>): (r: Option<nat>)
    ensures r.None? ==> forall i :: 0 <= i < |deposits| && deposits[i].UserDeposit? ==> deposits[i].keyIndex in bound
  {
    if deposits == [] then None
    else
      var front, d := FirstMissing(bound, deposits[..|deposits| - 1]), deposits[|deposits| - 1];
      if front.Some? then front
      else if d.UserDeposit? && d.keyIndex !in bound then Some(d.keyIndex)
      else
        assert forall i :: 0 <= i < |deposits| - 1 ==> deposits[i] == deposits[..|deposits| - 1][i];
        None
  }

  function QueuedOf(c: Codec, deposits: seq<L1Deposit>): (q: seq<QueuedDeposit>)
    ensures |q| == |deposits|
    ensures forall i :: 0 <= i < |q| ==> q[i] == ToAbi(c, deposits[i])
  {
    if deposits == [] then []
    else QueuedOf(c, deposits[..|deposits| - 1]) + [ToAbi(c, deposits[|deposits| - 1])]
  }

  /** One decryption for each user deposit, in deposit order. */
  function DecryptionsOf(c: Codec, bound: map<nat, SecretKey>, portal: Address, deposits: seq<L1Deposit>)
    : (r: seq<Decryption>)
  {
    if deposits == [] then []
    else
      var front, d := DecryptionsOf(c, bound, portal, deposits[..|deposits| - 1]), deposits[|deposits| - 1];
      if d.UserDeposit? && d.keyIndex in bound
      then front + [DecryptionFor(c, bound[d.keyIndex], d, portal)]
      else front
  }

  /** Preparation of a stream of work, with no reference to how it is split into blocks. */
  function PreparedWork(c: Codec, bound: map<nat, SecretKey>, portal: Address, header: Header, work: Work, follows: bool)
    : (r: Result<Prepared, PrepareError>)
  {
    var missing := FirstMissing(bound, work.deposits);
    if missing.Some? then Err(NoKey(missing.value))
    else
      Ok(Prepared(header, QueuedOf(c, work.deposits), DecryptionsOf(c, bound, portal, work.deposits),
                  work.tokens, follows))
  }

  function PreparedBlocks(c: Codec, bound: map<nat, SecretKey>, portal: Address, blocks: seq<Block>)
    : (r: Result<Prepared, PrepareError>)
  {
    if blocks == [] then Err(EmptyRange)
    else
      var work := WorkOf(blocks);
      var r := PreparedWork(c, bound, portal, blocks[|blocks| - 1].header, work, |blocks| > 1);
      if r.Err? then r
      else if |work.deposits| > MAX_UNPROCESSED_DEPOSITS then Err(TooManyDeposits)
      else if |work.tokens| > MAX_UNPROCESSED_TOKEN_ENABLEMENTS then Err(TooManyTokens)
      else r
  }

  lemma {:induction false} StreamsAppend(c: Codec, bound: map<nat, SecretKey>, portal: Address, a: seq<L1Deposit>, b: seq<L1Deposit>)
    ensures QueuedOf(c, a + b) == QueuedOf(c, a) + QueuedOf(c, b)
    ensures DecryptionsOf(c, bound, portal, a + b) == DecryptionsOf(c, bound, portal, a) + DecryptionsOf(c, bound, portal, b)
  {
    if b == [] {
      assert a + b == a;
    } else {
      assert (a + b)[..|a + b| - 1] == a + b[..|b| - 1];
      StreamsAppend(c, bound, portal, a, b[..|b| - 1]);
    }
  }

  lemma {:induction false} FirstMissingAppend(bound: map<nat, SecretKey>, a: seq<L1Deposit>, b: seq<L1Deposit>)
    ensures FirstMissing(bound, a + b) == if FirstMissing(bound, a).Some? then FirstMissing(bound, a) else FirstMissing(bound, b)
  {
    if b == [] {
      assert a + b == a;
    } else {
      assert (a + b)[..|a + b| - 1] == a + b[..|b| - 1];
      FirstMissingAppend(bound, a, b[..|b| - 1]);
    }
  }

  // ---- The preparation loops --------------------------------------------------------------------------

  /** Resolve every key that the deposits name, in deposit order, before any decryption. */
  method ResolveKeys(bound: map<nat, SecretKey>, deposits: seq<L1Deposit>)
    returns (r: Result<map<nat, SecretKey>, PrepareError>)
    ensures FirstMissing(bound, deposits).Some? ==> r == Err(NoKey(FirstMissing(bound, deposits).value))
    ensures FirstMissing(bound, deposits).None? ==>
      && r.Ok?
      && (forall k :: k in r.value ==> k in bound && r.value[k] == bound[k])
      && (forall i :: 0 <= i < |deposits| && deposits[i].UserDeposit? ==> deposits[i].keyIndex in r.value)
  {
    var keys: map<nat, SecretKey> := map[];
    for i := 0 to |deposits|
      invariant FirstMissing(bound, deposits[..i]).None?
      invariant forall k :: k in keys ==> k in bound && keys[k] == bound[k]
      invariant forall j :: 0 <= j < i && deposits[j].UserDeposit? ==> deposits[j].keyIndex in keys
    {
      var d := deposits[i];
      assert deposits[..i + 1][..i] == deposits[..i];
      if d.UserDeposit? && d.keyIndex !in keys {
        if d.keyIndex !in bound {
          assert deposits[..i + 1] + deposits[i + 1..] == deposits;
          FirstMissingAppend(bound, deposits[..i + 1], deposits[i + 1..]);
          return Err(NoKey(d.keyIndex));
        }
        keys := keys[d.keyIndex := bound[d.keyIndex]];
      }
    }
    assert deposits[..|deposits|] == deposits;
    r := Ok(keys);
  }

  method Prepare(c: Codec, bound: map<nat, SecretKey>, portal: Address, block: Block)
    returns (r: Result<Prepared, PrepareError>)
    ensures r == PreparedWork(c, bound, portal, block.header, EventWork(block.events), false)
  {
    var deposits := block.events.deposits;
    var resolved := ResolveKeys(bound, deposits);
    if resolved.Err? {
      return Err(resolved.error);
    }
    var queued: seq<QueuedDeposit>, decryptions: seq<Decryption> := [], [];
    for i := 0 to |deposits|
      invariant queued == QueuedOf(c, deposits[..i])
      invariant decryptions == DecryptionsOf(c, bound, portal, deposits[..i])
    {
      assert deposits[..i + 1][..i] == deposits[..i];
      var (entry, decryption) := PrepareDeposit(c, deposits[i], resolved.value, portal);
      queued := queued + [entry];
      if decryption.Some? {
        decryptions := decryptions + [decryption.value];
      }
    }
    assert deposits[..|deposits|] == deposits;
    r := Ok(Prepared(block.header, queued, decryptions, block.events.tokens, false));
  }

  lemma PrefixStep(blocks: seq<Block>, i: nat)
    requires i < |blocks|
    ensures WorkOf(blocks[..i + 1]) == WorkOf(blocks[..i]).Then(EventWork(blocks[i].events))
    ensures i == 0 ==> WorkOf(blocks[..i + 1]) == EventWork(blocks[i].events)
  {
    var prefix := blocks[..i + 1];
    assert prefix[..|prefix| - 1] == blocks[..i] && prefix[|prefix| - 1] == blocks[i];
    ThenAssociates(EventWork(blocks[i].events), NO_WORK, NO_WORK);
  }

  lemma SplitAt(blocks: seq<Block>, i: nat)
    requires i < |blocks|
    ensures WorkOf(blocks[..i + 1]) == WorkOf(blocks[..i]).Then(EventWork(blocks[i].events))
    ensures WorkOf(blocks) == WorkOf(blocks[..i]).Then(EventWork(blocks[i].events)).Then(WorkOf(blocks[i + 1..]))
    ensures i == 0 ==> WorkOf(blocks[..i + 1]) == EventWork(blocks[i].events)
  {
    PrefixStep(blocks, i);
    hide WorkOf;
    WorkOfAppend(blocks[..i + 1], blocks[i + 1..]);
    assert blocks[..i + 1] + blocks[i + 1..] == blocks;
  }

  lemma NothingToPrepare(c: Codec, bound: map<nat, SecretKey>, portal: Address, blocks: seq<Block>)
    requires blocks != []
    ensures PreparedWork(c, bound, portal, blocks[0].header, WorkOf(blocks[..0]), false).Ok?
  {
  }

  /** Preparing `before`, then `now`: the outputs concatenate, and the first missing key decides. */
  lemma PreparedSplits(c: Codec, bound: map<nat, SecretKey>, portal: Address, header: Header, before: Work, now: Work, after: Work)
    ensures var b := PreparedWork(c, bound, portal, header, before, false);
            var n := PreparedWork(c, bound, portal, header, now, false);
            var both := PreparedWork(c, bound, portal, header, before.Then(now), false);
            && (b.Ok? && n.Ok? ==> both == Ok(Prepared(header, b.value.queued + n.value.queued,
                                 b.value.decryptions + n.value.decryptions, b.value.tokens + n.value.tokens, false)))
            && (b.Ok? && n.Err? ==>
                  PreparedWork(c, bound, portal, header, before.Then(now).Then(after), false) == n)
  {
    hide QueuedOf, DecryptionsOf, FirstMissing;
    FirstMissingAppend(bound, before.deposits, now.deposits);
    FirstMissingAppend(bound, before.deposits + now.deposits, after.deposits);
    StreamsAppend(c, bound, portal, before.deposits, now.deposits);
  }

  method PrepareMany(c: Codec, bound: map<nat, SecretKey>, portal: Address, blocks: seq<Block>)
    returns (r: Result<Prepared, PrepareError>)
    ensures r == PreparedBlocks(c, bound, portal, blocks)
  {
    hide QueuedOf, DecryptionsOf, FirstMissing, WorkOf;
    if blocks == [] {
      return Err(EmptyRange);
    }
    var first := Prepare(c, bound, portal, blocks[0]);
    SplitAt(blocks, 0);
    NothingToPrepare(c, bound, portal, blocks);
    PreparedSplits(c, bound, portal, blocks[0].header, WorkOf(blocks[..0]), EventWork(blocks[0].events), WorkOf(blocks[1..]));
    if first.Err? {
      return first;
    }
    var prepared := first.value;
    for i := 1 to |blocks|
      invariant Ok(prepared) == PreparedWork(c, bound, portal, blocks[i - 1].header, WorkOf(blocks[..i]), false)
    {
      SplitAt(blocks, i);
      PreparedSplits(c, bound, portal, blocks[i].header, WorkOf(blocks[..i]), EventWork(blocks[i].events), WorkOf(blocks[i + 1..]));
      var next := Prepare(c, bound, portal, blocks[i]);
      if next.Err? {
        return next;
      }
      prepared := Prepared(next.value.header, prepared.queued + next.value.queued,
                           prepared.decryptions + next.value.decryptions,
                           prepared.tokens + next.value.tokens, false);
    }
    assert blocks[..|blocks|] == blocks;
    if |prepared.queued| > MAX_UNPROCESSED_DEPOSITS {
      return Err(TooManyDeposits);
    }
    if |prepared.tokens| > MAX_UNPROCESSED_TOKEN_ENABLEMENTS {
      return Err(TooManyTokens);
    }
    r := Ok(prepared.(followsCheckpoint := |blocks| > 1));
  }

  // ---- What is prepared, deposit by deposit -------------------------------------------------------------

  function Users(deposits: seq<L1Deposit>): nat
  {
    if deposits == [] then 0
    else Users(deposits[..|deposits| - 1]) + (if deposits[|deposits| - 1].UserDeposit? then 1 else 0)
  }

  /** The decryption of one user deposit: the decrypted proof, else the bare one, else zeroed data. */
  ghost predicate DecryptionIs(c: Codec, key: SecretKey, d: L1Deposit, portal: Address, r: Decryption)
  {
    && (forall v :: c.decrypt(key, d, portal) == Some(v) ==> r == v)
    && (forall p :: c.decrypt(key, d, portal) == None && c.ecdh(key, d) == Some(p) ==> r == p)
    && (c.decrypt(key, d, portal) == None && c.ecdh(key, d) == None ==> r == Decryption(0, 2, 0, 0))
  }

  lemma DecryptionForExactly(c: Codec, key: SecretKey, d: L1Deposit, portal: Address)
    ensures DecryptionIs(c, key, d, portal, DecryptionFor(c, key, d, portal))
  {
  }

  lemma {:induction false} DecryptionsInOrder(c: Codec, bound: map<nat, SecretKey>, portal: Address, deposits: seq<L1Deposit>)
    requires forall i :: 0 <= i < |deposits| && deposits[i].UserDeposit? ==> deposits[i].keyIndex in bound
    ensures var r := DecryptionsOf(c, bound, portal, deposits);
            && |r| == Users(deposits)
            && forall i :: 0 <= i < |deposits| && deposits[i].UserDeposit? ==>
                 && Users(deposits[..i]) < |r|
                 && DecryptionIs(c, bound[deposits[i].keyIndex], deposits[i], portal, r[Users(deposits[..i])])
  {
    if deposits == [] {
    } else {
      var front := deposits[..|deposits| - 1];
      DecryptionsInOrder(c, bound, portal, front);
      hide DecryptionFor;
      var r := DecryptionsOf(c, bound, portal, deposits);
      forall i | 0 <= i < |deposits| && deposits[i].UserDeposit?
        ensures Users(deposits[..i]) < |r|
        ensures DecryptionIs(c, bound[deposits[i].keyIndex], deposits[i], portal, r[Users(deposits[..i])])
      {
        assert deposits[..i] == front[..i];
        DecryptionForExactly(c, bound[deposits[i].keyIndex], deposits[i], portal);
      }
    }
  }

  /** The first deposit whose key is not bound. */
  ghost predicate FirstUnbound(bound: map<nat, SecretKey>, deposits: seq<L1Deposit>, i: int)
  {
    && 0 <= i < |deposits| && deposits[i].UserDeposit? && deposits[i].keyIndex !in bound
    && forall j :: 0 <= j < i && deposits[j].UserDeposit? ==> deposits[j].keyIndex in bound
  }

  lemma {:induction false} FirstMissingExactly(bound: map<nat, SecretKey>, deposits: seq<L1Deposit>)
    ensures FirstMissing(bound, deposits).Some? ==>
      exists i :: FirstUnbound(bound, deposits, i) && FirstMissing(bound, deposits) == Some(deposits[i].keyIndex)
    ensures FirstMissing(bound, deposits).None? ==>
      forall i :: 0 <= i < |deposits| && deposits[i].UserDeposit? ==> deposits[i].keyIndex in bound
  {
    if deposits == [] {
    } else {
      var n := |deposits| - 1;
      var front := deposits[..n];
      FirstMissingExactly(bound, front);
      if FirstMissing(bound, front).Some? {
        var i :| FirstUnbound(bound, front, i) && FirstMissing(bound, front) == Some(front[i].keyIndex);
        assert FirstUnbound(bound, deposits, i);
      } else if FirstMissing(bound, deposits).Some? {
        assert forall j :: 0 <= j < n ==> deposits[j] == front[j];
        assert FirstUnbound(bound, deposits, n);
      }
    }
  }

  /** Why preparation fails: an empty range, the first unbound key, 231 deposits, or nine tokens, in that order. */
  lemma PreparationFailsExactly(c: Codec, bound: map<nat, SecretKey>, portal: Address, blocks: seq<Block>)
    ensures var r, work := PreparedBlocks(c, bound, portal, blocks), WorkOf(blocks);
            var allBound := forall i :: 0 <= i < |work.deposits| && work.deposits[i].UserDeposit? ==> work.deposits[i].keyIndex in bound;
            && (r == Err(EmptyRange) <==> blocks == [])
            && (r.Err? && r.error.NoKey? <==> blocks != [] && !allBound)
            && (r.Err? && r.error.NoKey? ==>
                  exists i :: FirstUnbound(bound, work.deposits, i) && r == Err(NoKey(work.deposits[i].keyIndex)))
            && (r == Err(TooManyDeposits) <==> blocks != [] && allBound && |work.deposits| > 230)
            && (r == Err(TooManyTokens) <==> blocks != [] && allBound && |work.deposits| <= 230 && |work.tokens| > 8)
  {
    hide WorkOf, QueuedOf, DecryptionsOf, FirstMissing;
    FirstMissingExactly(bound, WorkOf(blocks).deposits);
  }

  /**
   What is prepared: the last header, every deposit's kind and encoding in order, not rejected, each
   user deposit's decryption at its place among the user deposits, and all tokens.
   */
  lemma PreparedExactly(c: Codec, bound: map<nat, SecretKey>, portal: Address, blocks: seq<Block>)
    requires PreparedBlocks(c, bound, portal, blocks).Ok?
    ensures var p, work := PreparedBlocks(c, bound, portal, blocks).value, WorkOf(blocks);
            && blocks != [] && p.header == blocks[|blocks| - 1].header
            && p.tokens == work.tokens && (p.followsCheckpoint <==> |blocks| >= 2)
            && |p.queued| == |work.deposits| && |p.decryptions| == Users(work.deposits)
            && (forall i :: 0 <= i < |p.queued| ==>
                  && (p.queued[i].kind == KindBounceBack <==> work.deposits[i].BounceBack?)
                  && p.queued[i].data == c.encode(work.deposits[i]) && !p.queued[i].rejected)
            && (forall i :: 0 <= i < |work.deposits| && work.deposits[i].UserDeposit? ==>
                  && work.deposits[i].keyIndex in bound && Users(work.deposits[..i]) < |p.decryptions|
                  && DecryptionIs(c, bound[work.deposits[i].keyIndex], work.deposits[i], portal,
                                  p.decryptions[Users(work.deposits[..i])]))
  {
    hide WorkOf, DecryptionsOf, FirstMissing, DecryptionIs;
    DecryptionsInOrder(c, bound, portal, WorkOf(blocks).deposits);
  }
}
