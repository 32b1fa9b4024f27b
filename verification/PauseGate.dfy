/** The Portal pause gate under observations from the event subscriber and the state poller. */
module PauseGate {
  import opened PortalEvents
  import opened BlockTracker

  /** The Portal counts as paused exactly when the newest observation says so. */
  predicate Effective(gate: Option<Pause>)
  {
    gate.Some? && gate.value.paused
  }

  /**
   One observation. It fails, and leaves the gate alone, exactly when it contradicts the newest one at
   that one's height. An older one is ignored, a newer one replaces it, and the result reports
   exactly whether the effective pause state changed.
   */
  lemma ObservePauseExactly(gate: Option<Pause>, block: NumHash, paused: bool)
    ensures var (after, r) := ObservePause(gate, block, paused);
            && (r.Err? <==> gate.Some? && gate.value.block.number == block.number && gate.value != Pause(block, paused))
            && (r == Err(ConflictingHash) <==> r.Err? && gate.value.block.hash != block.hash)
            && (r.Err? ==> after == gate)
            && (r.Ok? ==> (r.value <==> Effective(after) != Effective(gate)))
            && (gate.Some? && block.number <= gate.value.block.number ==> after == gate)
            && (gate.None? || block.number > gate.value.block.number ==> after == Some(Pause(block, paused)))
  {
  }

  /** Apply observations in arrival order; an observation that is rejected leaves the gate alone. */
  function Gate(gate: Option<Pause>, arrivals: seq<Pause>): Option<Pause>
  {
    if arrivals == [] then gate
    else
      var before, last := Gate(gate, arrivals[..|arrivals| - 1]), arrivals[|arrivals| - 1];
      ObservePause(before, last.block, last.paused).0
  }

  /** Observations of one block agree on its hash and on the pause state there. */
  ghost predicate Consistent(observations: set<Pause>)
  {
    forall a, b :: a in observations && b in observations && a.block.number == b.block.number ==> a == b
  }

  function Seen(arrivals: seq<Pause>): set<Pause>
  {
    set p | p in arrivals
  }

  /** No observation in the set is of a higher block. */
  ghost predicate IsHighest(p: Pause, observations: set<Pause>)
  {
    p in observations && forall q :: q in observations ==> q.block.number <= p.block.number
  }

  /** The gate holds one of the arrivals of highest number, whether or not they are consistent. */
  lemma {:induction false} GateHoldsAHighest(arrivals: seq<Pause>)
    ensures arrivals == [] ==> Gate(None, arrivals).None?
    ensures arrivals != [] ==> Gate(None, arrivals).Some? && IsHighest(Gate(None, arrivals).value, Seen(arrivals))
  {
    if arrivals == [] {
    } else {
      var front, last := arrivals[..|arrivals| - 1], arrivals[|arrivals| - 1];
      GateHoldsAHighest(front);
      assert arrivals == front + [last];
      assert Seen(arrivals) == Seen(front) + {last};
    }
  }

  /**
   Convergence. Two arrivals of the same consistent observations, in any order and with any
   repetition, leave the same gate: the state at the highest observed block.
   */
  lemma GateConverges(arrivals: seq<Pause>, other: seq<Pause>)
    requires Consistent(Seen(arrivals)) && Seen(other) == Seen(arrivals)
    ensures Gate(None, arrivals) == Gate(None, other)
    ensures arrivals != [] ==> Gate(None, arrivals).Some? && IsHighest(Gate(None, arrivals).value, Seen(arrivals))
  {
    GateHoldsAHighest(arrivals);
    GateHoldsAHighest(other);
  }

  /** A consistent arrival is never rejected, whatever came before it. */
  lemma ConsistentArrivalsAreAccepted(arrivals: seq<Pause>, k: nat)
    requires Consistent(Seen(arrivals)) && k < |arrivals|
    ensures ObservePause(Gate(None, arrivals[..k]), arrivals[k].block, arrivals[k].paused).1.Ok?
  {
    GateHoldsAHighest(arrivals[..k]);
    if k > 0 {
      var gate := Gate(None, arrivals[..k]).value;
      assert gate in arrivals[..k];
      assert gate in Seen(arrivals) && arrivals[k] in Seen(arrivals);
    }
  }
}
