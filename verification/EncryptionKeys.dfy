/** Private decryption keys and the Portal key indexes that finalized rotations bind them to. */
module EncryptionKeys {
  import opened PortalEvents

  type SecretKey = nat
  datatype PublicKey = PublicKey(x: nat, yParity: nat)

  datatype KeyError = MissingCandidate(keyIndex: nat) | BoundElsewhere(keyIndex: nat)

  datatype Ring = Ring(candidates: map<PublicKey, SecretKey>, bound: map<nat, SecretKey>)

  function Announced(rotation: KeyRotation): PublicKey
  {
    PublicKey(rotation.x, rotation.yParity)
  }

  function ApplyRotation(pub: SecretKey -> PublicKey, ring: Ring, rotation: KeyRotation)
    : (r: (Ring, Result<(), KeyError>))
  {
    var key := Announced(rotation);
    if key !in ring.candidates then (ring, Err(MissingCandidate(rotation.keyIndex)))
    else if rotation.keyIndex in ring.bound then
      (ring, if pub(ring.bound[rotation.keyIndex]) == key then Ok(()) else Err(BoundElsewhere(rotation.keyIndex)))
    else (ring.(bound := ring.bound[rotation.keyIndex := ring.candidates[key]]), Ok(()))
  }

  /** Apply a block's rotations in log order, stopping at the first failure. */
  function ApplyRotations(pub: SecretKey -> PublicKey, ring: Ring, rotations: seq<KeyRotation>)
    : (r: (Ring, Result<(), KeyError>))
    decreases |rotations|
  {
    if rotations == [] then (ring, Ok(()))
    else
      var (next, outcome) := ApplyRotation(pub, ring, rotations[0]);
      if outcome.Err? then (next, outcome) else ApplyRotations(pub, next, rotations[1..])
  }

  ghost predicate WellKeyed(pub: SecretKey -> PublicKey, ring: Ring)
  {
    forall p :: p in ring.candidates ==> pub(ring.candidates[p]) == p
  }

  class EncryptionKeyRing {
    const pub: SecretKey -> PublicKey
    var candidates: map<PublicKey, SecretKey>
    var byIndex: map<nat, SecretKey>

    function State(): Ring
      reads this
    {
      Ring(candidates, byIndex)
    }

    ghost predicate Valid()
      reads this
    {
      WellKeyed(pub, State())
    }

    constructor (pub: SecretKey -> PublicKey, keys: seq<SecretKey>)
      ensures this.pub == pub && Valid()
      ensures byIndex == map[]
      ensures forall i :: 0 <= i < |keys| ==> pub(keys[i]) in candidates
      ensures forall p :: p in candidates ==> candidates[p] in keys
    {
      this.pub := pub;
      candidates, byIndex := map[], map[];
      new;
      for i := 0 to |keys|
        invariant Valid() && byIndex == map[]
        invariant forall j :: 0 <= j < i ==> pub(keys[j]) in candidates
        invariant forall p :: p in candidates ==> candidates[p] in keys
      {
        AddCandidate(keys[i]);
      }
    }

    method AddCandidate(key: SecretKey)
      requires Valid()
      modifies this
      ensures Valid()
      ensures State() == Ring(old(candidates)[pub(key) := key], old(byIndex))
    {
      candidates := candidates[pub(key) := key];
    }

    method Apply(rotation: KeyRotation) returns (r: Result<(), KeyError>)
      requires Valid()
      modifies this
      ensures Valid()
      ensures (State(), r) == ApplyRotation(pub, old(State()), rotation)
    {
      var key := PublicKey(rotation.x, rotation.yParity);
      if key !in candidates {
        return Err(MissingCandidate(rotation.keyIndex));
      }
      if rotation.keyIndex in byIndex {
        if pub(byIndex[rotation.keyIndex]) != key {
          return Err(BoundElsewhere(rotation.keyIndex));
        }
        return Ok(());
      }
      byIndex := byIndex[rotation.keyIndex := candidates[key]];
      r := Ok(());
    }

    method ApplyAll(rotations: seq<KeyRotation>) returns (r: Result<(), KeyError>)
      requires Valid()
      modifies this
      ensures Valid()
      ensures (State(), r) == ApplyRotations(pub, old(State()), rotations)
    {
      for i := 0 to |rotations|
        invariant Valid()
        invariant ApplyRotations(pub, State(), rotations[i..]) == ApplyRotations(pub, old(State()), rotations)
      {
        assert rotations[i..][1..] == rotations[i + 1..];
        r := Apply(rotations[i]);
        if r.Err? {
          return;
        }
      }
      r := Ok(());
    }
  }

  // ---- Properties ---------------------------------------------------------------------------------

  /** `later` binds everything `earlier` binds, to the same keys. */
  ghost predicate Extends(later: Ring, earlier: Ring)
  {
    && later.candidates == earlier.candidates
    && forall i :: i in earlier.bound ==> i in later.bound && later.bound[i] == earlier.bound[i]
  }

  /** The rotation's index is bound to the private key behind the announced public key. */
  ghost predicate Applied(pub: SecretKey -> PublicKey, ring: Ring, rotation: KeyRotation)
  {
    && PublicKey(rotation.x, rotation.yParity) in ring.candidates
    && rotation.keyIndex in ring.bound
    && pub(ring.bound[rotation.keyIndex]) == PublicKey(rotation.x, rotation.yParity)
  }

  /** Bindings are never changed or dropped, even when a later rotation of the block fails, and none are made up. */
  lemma {:induction false} RotationsOnlyExtend(pub: SecretKey -> PublicKey, ring: Ring, rotations: seq<KeyRotation>)
    ensures Extends(ApplyRotations(pub, ring, rotations).0, ring)
    ensures forall k :: k in ApplyRotations(pub, ring, rotations).0.bound ==>
      k in ring.bound || exists i :: 0 <= i < |rotations| && rotations[i].keyIndex == k
    decreases |rotations|
  {
    if rotations == [] {
    } else {
      var (next, outcome) := ApplyRotation(pub, ring, rotations[0]);
      if outcome.Ok? {
        RotationsOnlyExtend(pub, next, rotations[1..]);
      }
    }
  }

  /** Applying a block succeeds only by binding every announced key to its index. */
  lemma {:induction false} RotationsBind(pub: SecretKey -> PublicKey, ring: Ring, rotations: seq<KeyRotation>)
    requires WellKeyed(pub, ring)
    requires ApplyRotations(pub, ring, rotations).1.Ok?
    ensures forall i :: 0 <= i < |rotations| ==> Applied(pub, ApplyRotations(pub, ring, rotations).0, rotations[i])
    decreases |rotations|
  {
    if rotations == [] {
    } else {
      var next := ApplyRotation(pub, ring, rotations[0]).0;
      RotationsBind(pub, next, rotations[1..]);
      RotationsOnlyExtend(pub, next, rotations[1..]);
      forall i | 0 <= i < |rotations|
        ensures Applied(pub, ApplyRotations(pub, ring, rotations).0, rotations[i])
      {
        if i > 0 {
          assert rotations[i] == rotations[1..][i - 1];
        }
      }
    }
  }

  /** Every announced key is configured, and no index is announced or bound with two different keys. */
  ghost predicate Compatible(pub: SecretKey -> PublicKey, ring: Ring, rotations: seq<KeyRotation>)
  {
    && (forall i :: 0 <= i < |rotations| ==> Announced(rotations[i]) in ring.candidates)
    && (forall i :: 0 <= i < |rotations| && rotations[i].keyIndex in ring.bound ==>
          pub(ring.bound[rotations[i].keyIndex]) == Announced(rotations[i]))
    && (forall i, j :: 0 <= i < j < |rotations| && rotations[i].keyIndex == rotations[j].keyIndex ==>
          Announced(rotations[i]) == Announced(rotations[j]))
  }

  lemma CompatibleSplits(pub: SecretKey -> PublicKey, ring: Ring, rotations: seq<KeyRotation>)
    requires WellKeyed(pub, ring) && rotations != []
    ensures var (next, outcome) := ApplyRotation(pub, ring, rotations[0]);
            Compatible(pub, ring, rotations) <==> outcome.Ok? && Compatible(pub, next, rotations[1..])
  {
  }

  /** A block of rotations is applied exactly when it is compatible with the configured and bound keys. */
  lemma {:induction false} RotationsSucceedExactly(pub: SecretKey -> PublicKey, ring: Ring, rotations: seq<KeyRotation>)
    requires WellKeyed(pub, ring)
    ensures ApplyRotations(pub, ring, rotations).1.Ok? <==> Compatible(pub, ring, rotations)
    decreases |rotations|
  {
    if rotations == [] {
    } else {
      CompatibleSplits(pub, ring, rotations);
      RotationsSucceedExactly(pub, ApplyRotation(pub, ring, rotations[0]).0, rotations[1..]);
    }
  }

  /** Applying a block again succeeds and changes nothing exactly when all of it is already applied. */
  lemma {:induction false} ReapplyingExactly(pub: SecretKey -> PublicKey, ring: Ring, rotations: seq<KeyRotation>)
    requires WellKeyed(pub, ring)
    ensures ApplyRotations(pub, ring, rotations) == (ring, Ok(()))
       <==> forall i :: 0 <= i < |rotations| ==> Applied(pub, ring, rotations[i])
  {
    if ApplyRotations(pub, ring, rotations) == (ring, Ok(())) {
      RotationsBind(pub, ring, rotations);
    }
    if forall i :: 0 <= i < |rotations| ==> Applied(pub, ring, rotations[i]) {
      if rotations != [] {
        assert Applied(pub, ring, rotations[0]);
        forall i | 0 <= i < |rotations| - 1 ensures Applied(pub, ring, rotations[1..][i]) {
          assert rotations[1..][i] == rotations[i + 1];
        }
        ReapplyingExactly(pub, ring, rotations[1..]);
      }
    }
  }
}
