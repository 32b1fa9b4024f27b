/**
 The parent L1 fork schedule: how it is accepted, what it says about time, and why no parent
 configuration can change it once it is written to the Zone genesis. Tempo forks are numbered in
 release order, with Genesis as zero.
 */
module ForkSchedule {
  import opened PortalEvents

  type Fork = nat

  const GENESIS: Fork := 0

  /** The forks this binary knows: how many, how their names parse, and their configuration keys. */
  datatype Registry = Registry(count: nat, parse: string -> Option<Fork>, key: Fork -> Option<string>)

  ghost predicate RegistryOk(r: Registry)
  {
    && (forall name :: r.parse(name).Some? ==> r.parse(name).value < r.count)
    && (forall f: Fork, g: Fork :: r.key(f).Some? && r.key(f) == r.key(g) ==> f == g)
  }

  datatype ForkInfo = ForkInfo(name: string, activationTime: nat, active: bool)

  datatype Schedule = Schedule(active: string, forks: seq<ForkInfo>)

  type Activations = map<Fork, nat>

  /** Activation times do not decrease in fork order. */
  predicate InOrder(m: Activations)
  {
    forall f, g :: f in m && g in m && f < g ==> m[f] <= m[g]
  }

  /** The highest scheduled fork below `limit` that is active at `timestamp`: a search from the top. */
  function HighestActive(m: Activations, limit: nat, timestamp: nat): Option<Fork>
  {
    if limit == 0 then None
    else if limit - 1 in m && m[limit - 1] <= timestamp then Some(limit - 1)
    else HighestActive(m, limit - 1, timestamp)
  }

  function HardforkAt(r: Registry, m: Activations, timestamp: nat): Option<Fork>
  {
    HighestActive(m, r.count, timestamp)
  }

  /** What each entry must satisfy on its own. */
  predicate EntryOk(r: Registry, timestamp: nat, e: ForkInfo)
  {
    && r.parse(e.name).Some? && r.parse(e.name).value != GENESIS
    && e.active == (e.activationTime <= timestamp)
  }

  predicate EntriesOk(r: Registry, timestamp: nat, forks: seq<ForkInfo>)
  {
    && (forall i :: 0 <= i < |forks| ==> EntryOk(r, timestamp, forks[i]))
    && (forall i, j :: 0 <= i < j < |forks| ==> r.parse(forks[i].name) != r.parse(forks[j].name))
  }

  /** The map that schedules exactly these entries. */
  predicate Schedules(r: Registry, m: Activations, forks: seq<ForkInfo>)
  {
    && (forall i :: 0 <= i < |forks| ==>
          && r.parse(forks[i].name).Some?
          && r.parse(forks[i].name).value in m
          && m[r.parse(forks[i].name).value] == forks[i].activationTime)
    && (forall f :: f in m ==> exists i :: 0 <= i < |forks| && r.parse(forks[i].name) == Some(f))
  }

  /** A schedule is accepted at a head timestamp, with `m` as its activations. */
  predicate Accepts(r: Registry, timestamp: nat, s: Schedule, m: Activations)
  {
    && EntriesOk(r, timestamp, s.forks) && Schedules(r, m, s.forks) && InOrder(m)
    && r.parse(s.active).Some? && HardforkAt(r, m, timestamp) == r.parse(s.active)
  }

  lemma EveryForkHasAnEntry(r: Registry, m: Activations, forks: seq<ForkInfo>, e: ForkInfo)
    requires Schedules(r, m, forks) && r.parse(e.name).Some?
    ensures var all := forks + [e];
            forall f :: f in m || f == r.parse(e.name).value ==>
              exists i :: 0 <= i < |all| && r.parse(all[i].name) == Some(f)
  {
    var all := forks + [e];
    assert all[|forks|] == e;
    forall f | f in m ensures exists i :: 0 <= i < |all| && r.parse(all[i].name) == Some(f) {
      var i :| 0 <= i < |forks| && r.parse(forks[i].name) == Some(f);
      assert all[i] == forks[i];
    }
  }

  lemma ExtendSchedule(r: Registry, timestamp: nat, m: Activations, forks: seq<ForkInfo>, e: ForkInfo)
    requires EntriesOk(r, timestamp, forks) && Schedules(r, m, forks)
    requires EntryOk(r, timestamp, e) && r.parse(e.name).value !in m
    ensures EntriesOk(r, timestamp, forks + [e])
    ensures Schedules(r, m[r.parse(e.name).value := e.activationTime], forks + [e])
  {
    EveryForkHasAnEntry(r, m, forks, e);
  }

  lemma ScheduleIsUnique(r: Registry, m: Activations, n: Activations, forks: seq<ForkInfo>)
    requires Schedules(r, m, forks) && Schedules(r, n, forks)
    ensures m == n
  {
  }

  lemma OnlyThisMap(r: Registry, timestamp: nat, s: Schedule, m: Activations)
    requires Schedules(r, m, s.forks)
    ensures forall other :: Accepts(r, timestamp, s, other) ==> other == m
  {
    forall other | Accepts(r, timestamp, s, other) ensures other == m {
      ScheduleIsUnique(r, m, other, s.forks);
    }
  }

  method FromSchedule(r: Registry, timestamp: nat, s: Schedule) returns (activations: Option<Activations>)
    ensures activations.Some? ==> Accepts(r, timestamp, s, activations.value)
    ensures activations.None? ==> forall m :: !Accepts(r, timestamp, s, m)
  {
    if r.parse(s.active).None? {
      return None;
    }
    hide HardforkAt, InOrder;
    var m: Activations := map[];
    for i := 0 to |s.forks|
      invariant EntriesOk(r, timestamp, s.forks[..i])
      invariant Schedules(r, m, s.forks[..i])
    {
      var e := s.forks[i];
      assert forall j :: 0 <= j < i ==> s.forks[..i][j] == s.forks[j];
      if !EntryOk(r, timestamp, e) {
        return None;
      }
      var fork := r.parse(e.name).value;
      if fork in m {
        var j :| 0 <= j < i && r.parse(s.forks[..i][j].name) == Some(fork);
        assert r.parse(s.forks[j].name) == r.parse(s.forks[i].name);
        return None;
      }
      ExtendSchedule(r, timestamp, m, s.forks[..i], e);
      assert s.forks[..i + 1] == s.forks[..i] + [e];
      m := m[fork := e.activationTime];
    }
    assert s.forks[..|s.forks|] == s.forks;
    OnlyThisMap(r, timestamp, s, m);
    hide Schedules, EntriesOk;
    if !InOrder(m) || HardforkAt(r, m, timestamp) != r.parse(s.active) {
      return None;
    }
    activations := Some(m);
  }

  function ForkOf(r: Registry, s: Schedule, i: nat): Fork
    requires i < |s.forks|
  {
    var fork := r.parse(s.forks[i].name);
    if fork.Some? then fork.value else GENESIS
  }

  /** The entry at `k` is the reported fork: active, with no later fork active. */
  ghost predicate Reported(r: Registry, timestamp: nat, s: Schedule, k: nat)
    requires k < |s.forks|
  {
    && r.parse(s.active) == r.parse(s.forks[k].name) && s.forks[k].activationTime <= timestamp
    && forall j :: 0 <= j < |s.forks| && ForkOf(r, s, j) > ForkOf(r, s, k) ==> s.forks[j].activationTime > timestamp
  }

  /**
   What is accepted, from the entries alone: every name is known and none is Genesis, no fork is
   named twice, flags agree with the head, times do not decrease from fork to later fork, and the
   reported fork is active while no later scheduled fork is.
   */
  ghost predicate Acceptable(r: Registry, timestamp: nat, s: Schedule)
  {
    && (forall i :: 0 <= i < |s.forks| ==>
          && r.parse(s.forks[i].name).Some? && r.parse(s.forks[i].name) != Some(0)
          && (s.forks[i].active <==> s.forks[i].activationTime <= timestamp))
    && (forall i, j :: 0 <= i < |s.forks| && 0 <= j < |s.forks| && i != j ==> ForkOf(r, s, i) != ForkOf(r, s, j))
    && (forall i, j :: 0 <= i < |s.forks| && 0 <= j < |s.forks| && ForkOf(r, s, i) < ForkOf(r, s, j) ==>
          s.forks[i].activationTime <= s.forks[j].activationTime)
    && (exists k :: 0 <= k < |s.forks| && Reported(r, timestamp, s, k))
  }

  lemma {:induction false} HighestActiveExactly(m: Activations, limit: nat, timestamp: nat)
    ensures var h := HighestActive(m, limit, timestamp);
            && (h.Some? ==> h.value < limit && h.value in m && m[h.value] <= timestamp)
            && (h.Some? ==> forall f :: f in m && h.value < f < limit ==> m[f] > timestamp)
            && (h.None? ==> forall f :: f in m && f < limit ==> m[f] > timestamp)
  {
    if limit == 0 {
    } else {
      HighestActiveExactly(m, limit - 1, timestamp);
    }
  }

  lemma ScheduledForksAreKnown(r: Registry, m: Activations, forks: seq<ForkInfo>)
    requires RegistryOk(r) && Schedules(r, m, forks)
    ensures forall f :: f in m ==> f < r.count
  {
  }

  lemma AcceptedIsAcceptable(r: Registry, timestamp: nat, s: Schedule, m: Activations)
    requires RegistryOk(r) && Accepts(r, timestamp, s, m)
    ensures Acceptable(r, timestamp, s)
  {
    HighestActiveExactly(m, r.count, timestamp);
    assert forall i :: 0 <= i < |s.forks| ==> EntryOk(r, timestamp, s.forks[i]) && m[ForkOf(r, s, i)] == s.forks[i].activationTime;
    var k :| 0 <= k < |s.forks| && r.parse(s.forks[k].name) == r.parse(s.active);
    ScheduledForksAreKnown(r, m, s.forks);
    assert Reported(r, timestamp, s, k);
  }

  lemma {:induction false} SomeMapSchedules(r: Registry, timestamp: nat, forks: seq<ForkInfo>) returns (m: Activations)
    requires EntriesOk(r, timestamp, forks)
    ensures Schedules(r, m, forks)
  {
    if forks == [] {
      m := map[];
    } else {
      var n := |forks| - 1;
      var front, e := forks[..n], forks[n];
      assert EntriesOk(r, timestamp, front) by {
        assert forall i :: 0 <= i < n ==> front[i] == forks[i];
      }
      var before := SomeMapSchedules(r, timestamp, front);
      assert EntryOk(r, timestamp, e);
      assert r.parse(e.name).value !in before;
      ExtendSchedule(r, timestamp, before, front, e);
      assert front + [e] == forks;
      m := before[r.parse(e.name).value := e.activationTime];
    }
  }

  lemma MapIsInOrder(r: Registry, timestamp: nat, s: Schedule, m: Activations)
    requires Acceptable(r, timestamp, s) && Schedules(r, m, s.forks)
    ensures InOrder(m)
  {
    hide Reported;
    forall f, g | f in m && g in m && f < g ensures m[f] <= m[g] {
      var i :| 0 <= i < |s.forks| && r.parse(s.forks[i].name) == Some(f);
      var j :| 0 <= j < |s.forks| && r.parse(s.forks[j].name) == Some(g);
      assert ForkOf(r, s, i) == f && ForkOf(r, s, j) == g;
    }
  }

  lemma ReportIs(r: Registry, m: Activations, timestamp: nat, active: Fork)
    requires active in m && active < r.count && m[active] <= timestamp
    requires forall f :: f in m && f > active ==> m[f] > timestamp
    ensures HardforkAt(r, m, timestamp) == Some(active)
  {
    HighestActiveExactly(m, r.count, timestamp);
  }

  lemma MapReports(r: Registry, timestamp: nat, s: Schedule, m: Activations, k: nat)
    requires RegistryOk(r) && Schedules(r, m, s.forks)
    requires k < |s.forks| && Reported(r, timestamp, s, k)
    ensures r.parse(s.active).Some? && HardforkAt(r, m, timestamp) == r.parse(s.active)
  {
    hide HardforkAt;
    var active := ForkOf(r, s, k);
    assert m[active] == s.forks[k].activationTime;
    forall f | f in m && f > active ensures m[f] > timestamp {
      var j :| 0 <= j < |s.forks| && r.parse(s.forks[j].name) == Some(f);
      assert ForkOf(r, s, j) == f;
    }
    ReportIs(r, m, timestamp, active);
  }

  lemma AcceptableIsAccepted(r: Registry, timestamp: nat, s: Schedule)
    requires RegistryOk(r) && Acceptable(r, timestamp, s)
    ensures exists m :: Accepts(r, timestamp, s, m)
  {
    assert EntriesOk(r, timestamp, s.forks) by {
      assert forall i, j :: 0 <= i < j < |s.forks| ==> ForkOf(r, s, i) != ForkOf(r, s, j);
    }
    var m := SomeMapSchedules(r, timestamp, s.forks);
    MapIsInOrder(r, timestamp, s, m);
    var k :| 0 <= k < |s.forks| && Reported(r, timestamp, s, k);
    hide EntriesOk, Acceptable, Reported, HardforkAt, Schedules;
    MapReports(r, timestamp, s, m, k);
    assert Accepts(r, timestamp, s, m);
  }

  /** A schedule has activations exactly when it is acceptable as it stands. */
  lemma AcceptanceExactly(r: Registry, timestamp: nat, s: Schedule)
    requires RegistryOk(r)
    ensures (exists m :: Accepts(r, timestamp, s, m)) <==> Acceptable(r, timestamp, s)
  {
    if m :| Accepts(r, timestamp, s, m) {
      AcceptedIsAcceptable(r, timestamp, s, m);
    }
    if Acceptable(r, timestamp, s) {
      AcceptableIsAccepted(r, timestamp, s);
    }
  }

  // ---- What an accepted schedule says about time ---------------------------------------------------------------------

  /**
   In an accepted schedule a scheduled fork is active exactly when it is at most the fork reported
   for that time, so all earlier scheduled forks are active too; and the report never goes back.
   */
  lemma ReportedForkIsMonotone(r: Registry, head: nat, s: Schedule, m: Activations, t: nat, later: nat)
    requires RegistryOk(r) && Accepts(r, head, s, m) && t <= later
    ensures forall f :: f in m ==>
      (m[f] <= t <==> HardforkAt(r, m, t).Some? && f <= HardforkAt(r, m, t).value)
    ensures HardforkAt(r, m, t).Some? ==>
      HardforkAt(r, m, later).Some? && HardforkAt(r, m, later).value >= HardforkAt(r, m, t).value
  {
    ScheduledForksAreKnown(r, m, s.forks);
    HighestActiveExactly(m, r.count, t);
    HighestActiveExactly(m, r.count, later);
  }

  /** The same schedule as another head would report it. */
  function SampledAt(forks: seq<ForkInfo>, timestamp: nat): (r: seq<ForkInfo>)
    ensures |r| == |forks|
    ensures forall i :: 0 <= i < |forks| ==> r[i] == forks[i].(active := forks[i].activationTime <= timestamp)
  {
    seq(|forks|, i requires 0 <= i < |forks| => forks[i].(active := forks[i].activationTime <= timestamp))
  }

  /**
   The sampled head does not matter. A schedule accepted at one head is accepted at any other head
   that names the fork active there, with the same activations and no others.
   */
  lemma HeadDoesNotMatter(r: Registry, head: nat, s: Schedule, m: Activations, other: nat, active: string, n: Activations)
    requires Accepts(r, head, s, m)
    ensures Accepts(r, other, Schedule(active, SampledAt(s.forks, other)), n)
       <==> n == m && r.parse(active).Some? && HardforkAt(r, m, other) == r.parse(active)
  {
    var forks := SampledAt(s.forks, other);
    assert forall i :: 0 <= i < |forks| ==> forks[i].name == s.forks[i].name;
    assert EntriesOk(r, other, forks) by {
      forall i | 0 <= i < |forks| ensures EntryOk(r, other, forks[i]) { assert EntryOk(r, head, s.forks[i]); }
    }
    assert Schedules(r, m, forks) by {
      forall f | f in m ensures exists i :: 0 <= i < |forks| && r.parse(forks[i].name) == Some(f) {
        var i :| 0 <= i < |s.forks| && r.parse(s.forks[i].name) == Some(f);
        assert forks[i].name == s.forks[i].name;
      }
    }
    if Accepts(r, other, Schedule(active, forks), n) {
      ScheduleIsUnique(r, m, n, forks);
    }
  }

  // ---- Writing the schedule and inheriting from the parent ------------------------------------------------------------------

  datatype Value = Null | Time(seconds: nat) | Other(text: string)

  type Config = map<string, Value>

  function Written(m: Activations, f: Fork): Value
  {
    if f in m then Time(m[f]) else Null
  }

  /** Every known fork's key holds its activation, or an explicit null. */
  predicate WrittenBelow(r: Registry, m: Activations, config: Config, limit: nat)
  {
    forall f :: 0 <= f < limit && r.key(f).Some? ==>
      r.key(f).value in config && config[r.key(f).value] == Written(m, f)
  }

  predicate IsForkKey(r: Registry, name: string)
  {
    exists f :: 0 <= f < r.count && r.key(f) == Some(name)
  }

  method WriteTo(r: Registry, m: Activations, config: Config) returns (after: Config)
    requires RegistryOk(r)
    ensures WrittenBelow(r, m, after, r.count)
    ensures forall f :: 0 <= f < r.count && r.key(f).Some? ==> r.key(f).value in after
    ensures forall f :: 0 <= f < r.count && r.key(f).Some? && f in m ==> after[r.key(f).value] == Time(m[f])
    ensures forall f :: 0 <= f < r.count && r.key(f).Some? && f !in m ==> after[r.key(f).value] == Null
    ensures forall name :: !IsForkKey(r, name) ==> (name in after <==> name in config)
    ensures forall name :: !IsForkKey(r, name) && name in config ==> after[name] == config[name]
  {
    after := config;
    for f := 0 to r.count
      invariant WrittenBelow(r, m, after, f)
      invariant forall name :: !IsForkKey(r, name) ==> (name in after <==> name in config)
      invariant forall name :: !IsForkKey(r, name) && name in config ==> after[name] == config[name]
    {
      if r.key(f).Some? {
        assert IsForkKey(r, r.key(f).value);
        after := after[r.key(f).value := Written(m, f)];
      }
    }
  }

  predicate HasSuffix(name: string, suffix: string)
  {
    |suffix| <= |name| && name[|name| - |suffix|..] == suffix
  }

  predicate IsActivationField(name: string)
  {
    HasSuffix(name, "Block") || HasSuffix(name, "Time")
  }

  /** Activation fields are the names that end in `Block` or `Time`. */
  lemma ActivationFieldsExactly(name: string)
    ensures IsActivationField(name) <==> exists stem :: name == stem + "Block" || name == stem + "Time"
  {
    if HasSuffix(name, "Block") {
      assert name == name[..|name| - 5] + "Block";
    }
    if HasSuffix(name, "Time") {
      assert name == name[..|name| - 4] + "Time";
    }
    forall stem | name == stem + "Block" ensures HasSuffix(name, "Block") {
      assert name[|name| - 5..] == "Block";
    }
    forall stem | name == stem + "Time" ensures HasSuffix(name, "Time") {
      assert name[|name| - 4..] == "Time";
    }
  }

  /** Fill in the parent's activation fields that the Zone does not set. */
  method InheritParent(zone: Config, parent: seq<(string, Value)>) returns (after: Config)
    requires forall i, j :: 0 <= i < j < |parent| ==> parent[i].0 != parent[j].0
    ensures forall name :: name in zone ==> name in after && after[name] == zone[name]
    ensures forall i :: 0 <= i < |parent| && IsActivationField(parent[i].0) && parent[i].0 !in zone ==>
      parent[i].0 in after && after[parent[i].0] == parent[i].1
    ensures forall name :: name in after && name !in zone ==>
      IsActivationField(name) && exists i :: 0 <= i < |parent| && parent[i].0 == name
  {
    after := zone;
    for i := 0 to |parent|
      invariant forall name :: name in zone ==> name in after && after[name] == zone[name]
      invariant forall j :: 0 <= j < i && IsActivationField(parent[j].0) && parent[j].0 !in zone ==>
        parent[j].0 in after && after[parent[j].0] == parent[j].1
      invariant forall name :: name in after && name !in zone ==>
        IsActivationField(name) && exists j :: 0 <= j < i && parent[j].0 == name
    {
      var name := parent[i].0;
      if IsActivationField(name) && name !in after {
        after := after[name := parent[i].1];
      }
    }
  }

  /**
   The schedule survives inheritance: writing it and then inheriting from any parent leaves every
   known fork with its own activation, or explicitly without one.
   */
  method WriteThenInherit(r: Registry, m: Activations, config: Config, parent: seq<(string, Value)>) returns (after: Config)
    requires RegistryOk(r)
    requires forall i, j :: 0 <= i < j < |parent| ==> parent[i].0 != parent[j].0
    ensures forall f :: 0 <= f < r.count && r.key(f).Some? ==> r.key(f).value in after
    ensures forall f :: 0 <= f < r.count && r.key(f).Some? && f in m ==> after[r.key(f).value] == Time(m[f])
    ensures forall f :: 0 <= f < r.count && r.key(f).Some? && f !in m ==> after[r.key(f).value] == Null
    ensures forall name :: name in config && !IsForkKey(r, name) ==> name in after && after[name] == config[name]
  {
    var written := WriteTo(r, m, config);
    after := InheritParent(written, parent);
  }
}
