/**
 Replication factors of Ceph's OSD pools: the replica step of `setupCluster` raises the default pools when a cluster
 grows, `removeClusterMember` lowers pools before a member leaves. A failing request may have resized some of its pools.
 */
module Replication {
  import opened Services

  datatype Pool = Pool(name: string, size: nat)

  // One entry of `disks` per OSD: the member that holds it. `defaultSize` is the size of pools created later.
  datatype Cluster = Cluster(disks: seq<string>, pools: seq<Pool>, defaultSize: nat)

  const RECOMMENDED_OSD_HOSTS: nat := 3

  const DEFAULT_POOLS := {".mgr", "lxd_cephfs_data", "lxd_cephfs_meta", "lxd_cephfs", "lxd_remote"}

  function Min(a: nat, b: nat): nat {
    if a < b then a else b
  }

  function Elsewhere(disks: seq<string>, name: string): (r: seq<string>)
    ensures |r| <= |disks|
    ensures |r| == |disks| <==> name !in disks
  {
    if disks == [] then []
    else Elsewhere(disks[..|disks| - 1], name) + if disks[|disks| - 1] != name then [disks[|disks| - 1]] else []
  }

  /** Sets the size of the named pools. */
  function Resized(pools: seq<Pool>, names: set<string>, size: nat): (r: seq<Pool>)
    ensures |r| == |pools|
    ensures forall i :: 0 <= i < |r| ==> r[i] == if pools[i].name in names then pools[i].(size := size) else pools[i]
  {
    seq(|pools|, i requires 0 <= i < |pools| => if pools[i].name in names then pools[i].(size := size) else pools[i])
  }

  /** The default pools that are too small, and the pools that are too large. */
  function TooSmall(pools: seq<Pool>, size: nat): set<string> {
    set p | p in pools && p.name in DEFAULT_POOLS && p.size < size :: p.name
  }

  function TooLarge(pools: seq<Pool>, size: nat): set<string> {
    set p | p in pools && p.size > size :: p.name
  }

  // Whether a request went through, or failed after it had resized some of its pools.
  datatype Outcome = Done | Failed(applied: set<string>) {
    predicate Covers(name: string) {
      Done? || name in applied
    }
  }

  function Covered(names: set<string>, outcome: Outcome): set<string> {
    set n | n in names && outcome.Covers(n)
  }

  /** Sets a replication factor; without a pool to update it is the default of later pools. */
  function SetFactor(c: Cluster, names: set<string>, size: nat, outcome: Outcome): Cluster {
    if names == {} then c.(defaultSize := if outcome.Done? then size else c.defaultSize)
    else c.(pools := Resized(c.pools, Covered(names, outcome), size))
  }

  function GrowPools(c: Cluster, outcome: Outcome): Cluster {
    var size := Min(|c.disks|, RECOMMENDED_OSD_HOSTS);
    if |c.disks| == 0 then c else SetFactor(c, TooSmall(c.pools, size), size, outcome)
  }

  function ShrinkPools(c: Cluster, name: string, outcome: Outcome): Cluster {
    var size := |Elsewhere(c.disks, name)|;
    SetFactor(c, TooLarge(c.pools, size), size, outcome)
  }

  // What can happen to the cluster. `Removal(_, resized, left)`: the resize came to `resized`, and the member left or not.
  datatype Event =
    | Growth(added: seq<string>, resized: Outcome)
    | Removal(name: string, resized: Outcome, left: bool)
    | Other(pools: seq<Pool>)

  function Next(c: Cluster, e: Event): Cluster {
    match e
    case Growth(added, resized) => GrowPools(c.(disks := c.disks + added), resized)
    case Removal(name, resized, left) =>
      var c' := ShrinkPools(c, name, resized);
      if left then c'.(disks := Elsewhere(c.disks, name)) else c'
    case Other(pools) => c.(pools := pools)
  }

  /** A member leaves only after its pools were resized. */
  predicate Possible(e: Event) {
    e.Removal? && e.left ==> e.resized.Done?
  }

  predicate Successful(e: Event) {
    match e
    case Growth(_, resized) => resized.Done?
    case Removal(_, _, left) => left
    case Other(_) => true
  }

  /** The pools called `p` are only touched by growths and removals. */
  ghost predicate LeavesAlone(c: Cluster, e: Event, p: string) {
    e.Other? ==> Valid(c.(pools := e.pools)) && forall q: Pool :: q.name == p && q in e.pools ==> q in c.pools
  }

  function Run(c: Cluster, events: seq<Event>): Cluster
    decreases events
  {
    if events == [] then c else Run(Next(c, events[0]), events[1..])
  }

  ghost predicate Allowed(c: Cluster, events: seq<Event>, p: string)
    decreases events
  {
    events != [] ==>
      Possible(events[0]) && LeavesAlone(c, events[0], p) && Allowed(Next(c, events[0]), events[1..], p)
  }

  // ---- Sizes --------------------------------------------------------------------------------------------------------

  /** Pool names are unique. */
  ghost predicate Valid(c: Cluster) {
    forall i, j :: 0 <= i < j < |c.pools| ==> c.pools[i].name != c.pools[j].name
  }

  /** Growth raises a default pool to three replicas, or to as many as there are disks, and lowers nothing. */
  lemma GrowthSize(c: Cluster, added: seq<string>, resized: Outcome, i: nat)
    requires Valid(c) && i < |c.pools|
    ensures var c' := Next(c, Growth(added, resized));
            && |c'.pools| == |c.pools| && c'.pools[i].name == c.pools[i].name
            && c'.pools[i].size ==
               if c.pools[i].name in DEFAULT_POOLS && resized.Covers(c.pools[i].name)
               then Max(c.pools[i].size, Min(RECOMMENDED_OSD_HOSTS, |c'.disks|)) else c.pools[i].size
  {
    var size := Min(|c.disks + added|, RECOMMENDED_OSD_HOSTS);
    var p := c.pools[i];
    OwnName(c, i);
    assert p.name in TooSmall(c.pools, size) <==> p.name in DEFAULT_POOLS && p.size < size;
  }

  /** Before a removal every pool, default or not, is lowered to the disks that stay, and nothing is raised. */
  lemma RemovalSize(c: Cluster, name: string, resized: Outcome, left: bool, i: nat)
    requires Valid(c) && i < |c.pools|
    ensures var c' := Next(c, Removal(name, resized, left));
            && |c'.pools| == |c.pools| && c'.pools[i].name == c.pools[i].name
            && c'.pools[i].size ==
               if resized.Covers(c.pools[i].name) then Min(c.pools[i].size, |Elsewhere(c.disks, name)|) else c.pools[i].size
  {
    var size := |Elsewhere(c.disks, name)|;
    var p := c.pools[i];
    OwnName(c, i);
    assert p.name in TooLarge(c.pools, size) <==> p.size > size;
  }

  function Max(a: nat, b: nat): nat {
    if a < b then b else a
  }

  lemma OwnName(c: Cluster, i: nat)
    requires Valid(c) && i < |c.pools|
    ensures forall q :: q in c.pools && q.name == c.pools[i].name ==> q == c.pools[i]
  {
  }

  // ---- The bounds ---------------------------------------------------------------------------------------------------

  /** The pool called `p` is replicated at least three times, or as often as there are disks. */
  ghost predicate Lower(c: Cluster, p: string) {
    forall i :: 0 <= i < |c.pools| && c.pools[i].name == p ==> Min(RECOMMENDED_OSD_HOSTS, |c.disks|) <= c.pools[i].size
  }

  /** There are enough disks for its replicas. */
  ghost predicate Upper(c: Cluster, p: string) {
    forall i :: 0 <= i < |c.pools| && c.pools[i].name == p ==> c.pools[i].size <= |c.disks|
  }

  /** The upper bound survives everything: growths, removals and failures anywhere. */
  lemma UpperSurvives(c: Cluster, e: Event, p: string)
    requires Valid(c) && Upper(c, p) && Possible(e) && LeavesAlone(c, e, p)
    ensures Upper(Next(c, e), p)
  {
    var c' := Next(c, e);
    forall i | 0 <= i < |c'.pools| && c'.pools[i].name == p ensures c'.pools[i].size <= |c'.disks| {
      match e
      case Growth(added, resized) => GrowthSize(c, added, resized, i);
      case Removal(name, resized, left) => RemovalSize(c, name, resized, left, i);
      case Other(_) => assert c'.pools[i] in c.pools;
    }
  }

  /** A successful growth restores the lower bound of a default pool, whatever happened before. */
  lemma GrowthRestoresLower(c: Cluster, added: seq<string>, p: string)
    requires Valid(c) && p in DEFAULT_POOLS
    ensures Lower(Next(c, Growth(added, Done)), p)
  {
    var c' := Next(c, Growth(added, Done));
    forall i | 0 <= i < |c'.pools| && c'.pools[i].name == p
      ensures Min(RECOMMENDED_OSD_HOSTS, |c'.disks|) <= c'.pools[i].size
    {
      GrowthSize(c, added, Done, i);
    }
  }

  /** A successful removal restores the upper bound of every pool, whatever happened before. */
  lemma RemovalRestoresUpper(c: Cluster, name: string, p: string)
    requires Valid(c)
    ensures Upper(Next(c, Removal(name, Done, true)), p)
  {
    var c' := Next(c, Removal(name, Done, true));
    forall i | 0 <= i < |c'.pools| && c'.pools[i].name == p ensures c'.pools[i].size <= |c'.disks| {
      RemovalSize(c, name, Done, true, i);
    }
  }

  /** A successful removal keeps the lower bound. */
  lemma RemovalKeepsLower(c: Cluster, name: string, p: string)
    requires Valid(c) && Lower(c, p)
    ensures Lower(Next(c, Removal(name, Done, true)), p)
  {
    var c' := Next(c, Removal(name, Done, true));
    forall i | 0 <= i < |c'.pools| && c'.pools[i].name == p
      ensures Min(RECOMMENDED_OSD_HOSTS, |c'.disks|) <= c'.pools[i].size
    {
      RemovalSize(c, name, Done, true, i);
    }
  }

  /**
   A removal that fails after resizing leaves the lower bound intact exactly when three disks stay or nothing shrank.
   */
  lemma FailedRemovalKeepsLowerIff(c: Cluster, name: string, resized: Outcome, i: nat)
    requires Valid(c) && i < |c.pools| && Lower(c, c.pools[i].name) && Upper(c, c.pools[i].name)
    ensures Lower(Next(c, Removal(name, resized, false)), c.pools[i].name) <==>
            |Elsewhere(c.disks, name)| >= RECOMMENDED_OSD_HOSTS || |Elsewhere(c.disks, name)| >= c.pools[i].size
            || !resized.Covers(c.pools[i].name)
  {
    var c' := Next(c, Removal(name, resized, false));
    RemovalSize(c, name, resized, false, i);
    forall j | 0 <= j < |c'.pools| && c'.pools[j].name == c.pools[i].name ensures j == i {
      RemovalSize(c, name, resized, false, j);
    }
  }

  /**
   So a failing removal can break a pool's lower bound exactly when fewer than three disks stay, and fewer than its
   size.
   */
  lemma FailedRemovalCanLowerIff(c: Cluster, name: string, i: nat)
    requires Valid(c) && i < |c.pools| && Lower(c, c.pools[i].name) && Upper(c, c.pools[i].name)
    ensures (exists resized :: !Lower(Next(c, Removal(name, resized, false)), c.pools[i].name)) <==>
            |Elsewhere(c.disks, name)| < RECOMMENDED_OSD_HOSTS && |Elsewhere(c.disks, name)| < c.pools[i].size
  {
    forall resized ensures Lower(Next(c, Removal(name, resized, false)), c.pools[i].name) <==>
      |Elsewhere(c.disks, name)| >= RECOMMENDED_OSD_HOSTS || |Elsewhere(c.disks, name)| >= c.pools[i].size
      || !resized.Covers(c.pools[i].name)
    {
      FailedRemovalKeepsLowerIff(c, name, resized, i);
    }
    assert Done.Covers(c.pools[i].name);
  }

  /** Removing the member after all makes up for any earlier failure to remove it. */
  lemma RetryMakesUp(c: Cluster, name: string, resized: Outcome)
    requires Valid(c)
    ensures var once, twice := Next(c, Removal(name, Done, true)),
                               Next(Next(c, Removal(name, resized, false)), Removal(name, Done, true));
            once.disks == twice.disks && once.pools == twice.pools
  {
    var c1 := Next(c, Removal(name, resized, false));
    ValidStays(c, Removal(name, resized, false));
    var once, twice := Next(c, Removal(name, Done, true)), Next(c1, Removal(name, Done, true));
    forall i | 0 <= i < |c.pools| ensures once.pools[i] == twice.pools[i] {
      RemovalSize(c, name, Done, true, i);
      RemovalSize(c, name, resized, false, i);
      RemovalSize(c1, name, Done, true, i);
    }
  }

  lemma ValidStays(c: Cluster, e: Event)
    requires Valid(c) && !e.Other?
    ensures Valid(Next(c, e))
  {
    var c' := Next(c, e);
    forall i, j | 0 <= i < j < |c'.pools| ensures c'.pools[i].name != c'.pools[j].name {
      match e
      case Growth(added, resized) =>
        GrowthSize(c, added, resized, i);
        GrowthSize(c, added, resized, j);
      case Removal(name, resized, left) =>
        RemovalSize(c, name, resized, left, i);
        RemovalSize(c, name, resized, left, j);
    }
  }

  // ---- Whole histories ----------------------------------------------------------------------------------------------

  lemma LowerSurvives(c: Cluster, e: Event, p: string)
    requires Valid(c) && Lower(c, p) && p in DEFAULT_POOLS && Successful(e) && Possible(e) && LeavesAlone(c, e, p)
    ensures Lower(Next(c, e), p)
  {
    match e
    case Growth(added, _) => GrowthRestoresLower(c, added, p);
    case Removal(name, _, _) => RemovalKeepsLower(c, name, p);
    case Other(pools) =>
      forall i | 0 <= i < |pools| && pools[i].name == p ensures pools[i] in c.pools { assert pools[i] in pools; }
  }

  /** Over every history of successful growths and removals a default pool stays within both bounds. */
  lemma {:induction false} BoundsOverHistories(c: Cluster, events: seq<Event>, p: string)
    requires Valid(c) && Lower(c, p) && Upper(c, p) && p in DEFAULT_POOLS && Allowed(c, events, p)
    requires forall i :: 0 <= i < |events| ==> Successful(events[i])
    ensures Lower(Run(c, events), p) && Upper(Run(c, events), p)
    decreases events
  {
    if events != [] {
      UpperSurvives(c, events[0], p);
      LowerSurvives(c, events[0], p);
      AllowedStaysValid(c, events, p);
      BoundsOverHistories(Next(c, events[0]), events[1..], p);
    }
  }

  lemma AllowedStaysValid(c: Cluster, events: seq<Event>, p: string)
    requires Valid(c) && events != [] && Allowed(c, events, p)
    ensures Valid(Next(c, events[0]))
  {
    if !events[0].Other? { ValidStays(c, events[0]); }
  }

  /** Over every history at all the upper bound holds, and after a successful growth the lower one does. */
  lemma {:induction false} AnyHistory(c: Cluster, events: seq<Event>, added: seq<string>, p: string)
    requires Valid(c) && Upper(c, p) && p in DEFAULT_POOLS && Allowed(c, events, p)
    ensures var end := Run(c, events);
            Upper(end, p) && Upper(Next(end, Growth(added, Done)), p) && Lower(Next(end, Growth(added, Done)), p)
    decreases events
  {
    if events == [] {
      UpperSurvives(c, Growth(added, Done), p);
      GrowthRestoresLower(c, added, p);
    } else {
      UpperSurvives(c, events[0], p);
      AllowedStaysValid(c, events, p);
      AnyHistory(Next(c, events[0]), events[1..], added, p);
    }
  }

  // ---- The code -----------------------------------------------------------------------------------------------------

  lemma OneMorePool(pools: seq<Pool>, i: nat, size: nat)
    requires i < |pools|
    ensures TooSmall(pools[..i + 1], size) == TooSmall(pools[..i], size)
            + if pools[i].name in DEFAULT_POOLS && pools[i].size < size then {pools[i].name} else {}
    ensures TooLarge(pools[..i + 1], size)
            == TooLarge(pools[..i], size) + if pools[i].size > size then {pools[i].name} else {}
  {
    assert pools[..i + 1] == pools[..i] + [pools[i]];
    assert pools[i] in pools[..i + 1];
    assert forall p :: p in pools[..i + 1] <==> p in pools[..i] || p == pools[i];
  }

  lemma Appended(names: seq<string>, name: string)
    ensures (set n | n in names + [name]) == (set n | n in names) + {name}
  {
  }

  /** The pools that a request names; the single empty name stands for none. */
  function Named(names: seq<string>): set<string> {
    if names == [""] then {} else set n | n in names
  }

  lemma NamedAll(names: seq<string>)
    requires "" !in names
    ensures Named(if names == [] then [""] else names) == set n | n in names
  {
    if names != [] { assert names[0] in names && names[0] != ""; }
  }

  method DefaultPoolsToRaise(pools: seq<Pool>, size: nat) returns (names: seq<string>)
    requires forall i :: 0 <= i < |pools| ==> pools[i].name != ""
    ensures names != [] && Named(names) == TooSmall(pools, size)
  {
    names := [];
    for i := 0 to |pools|
      invariant (set n | n in names) == TooSmall(pools[..i], size) && "" !in names
    {
      OneMorePool(pools, i, size);
      if pools[i].name in DEFAULT_POOLS && pools[i].size < size {
        Appended(names, pools[i].name);
        names := names + [pools[i].name];
      }
    }
    assert pools[..|pools|] == pools;
    NamedAll(names);
    if |names| == 0 { names := [""]; }
  }

  method PoolsToLower(pools: seq<Pool>, size: nat) returns (names: seq<string>)
    requires forall i :: 0 <= i < |pools| ==> pools[i].name != ""
    ensures names != [] && Named(names) == TooLarge(pools, size)
  {
    names := [];
    for i := 0 to |pools|
      invariant (set n | n in names) == TooLarge(pools[..i], size) && "" !in names
    {
      OneMorePool(pools, i, size);
      if pools[i].size > size {
        Appended(names, pools[i].name);
        names := names + [pools[i].name];
      }
    }
    assert pools[..|pools|] == pools;
    NamedAll(names);
    if |names| == 0 { names := [""]; }
  }

  method CountElsewhere(disks: seq<string>, name: string) returns (diskCount: nat)
    ensures diskCount == |Elsewhere(disks, name)|
  {
    diskCount := 0;
    for i := 0 to |disks|
      invariant diskCount == |Elsewhere(disks[..i], name)|
    {
      assert disks[..i + 1][..i] == disks[..i];
      if disks[i] != name { diskCount := diskCount + 1; }
    }
    assert disks[..|disks|] == disks;
  }

  class CephService {
    var cluster: Cluster

    /** Sets the factor of the listed pools, or of later pools if the only name is empty; may fail half way. */
    method PoolSetReplicationFactor(names: seq<string>, size: nat) returns (ghost outcome: Outcome, ok: bool)
      requires names != []
      modifies this
      ensures ok <==> outcome.Done?
      ensures cluster == SetFactor(old(cluster), Named(names), size, outcome)
    {
      var result: Outcome := *;
      outcome, ok := result, result.Done?;
      if names == [""] {
        if ok { cluster := cluster.(defaultSize := size); }
      } else {
        assert names[0] in Named(names);
        cluster := cluster.(pools := Resized(cluster.pools, Covered(Named(names), result), size));
      }
    }

    /** The replica step after `added` disks came with new members. */
    method UpdateReplicas(ghost before: Cluster, ghost added: seq<string>) returns (ghost outcome: Outcome, ok: bool)
      requires cluster == before.(disks := before.disks + added)
      requires forall i :: 0 <= i < |cluster.pools| ==> cluster.pools[i].name != ""
      modifies this
      ensures ok <==> outcome.Done?
      ensures cluster == Next(before, Growth(added, outcome))
    {
      outcome, ok := Done, true;
      var allDisks := cluster.disks;
      if |allDisks| > 0 {
        var defaultPoolSize := |allDisks|;
        if defaultPoolSize > RECOMMENDED_OSD_HOSTS { defaultPoolSize := RECOMMENDED_OSD_HOSTS; }
        var poolsToUpdate := DefaultPoolsToRaise(cluster.pools, defaultPoolSize);
        outcome, ok := PoolSetReplicationFactor(poolsToUpdate, defaultPoolSize);
      }
    }

    /** Lowers the pools to the disks that stay, then deletes the member, which may fail after it took effect. */
    method RemoveMember(name: string) returns (ghost event: Event, ok: bool)
      requires forall i :: 0 <= i < |cluster.pools| ==> cluster.pools[i].name != ""
      modifies this
      ensures event.Removal? && event.name == name && Possible(event) && (ok ==> event.left)
      ensures cluster == Next(old(cluster), event)
    {
      var disks := cluster.disks;
      var diskCount := CountElsewhere(disks, name);
      var poolsToUpdate := PoolsToLower(cluster.pools, diskCount);
      ghost var outcome;
      outcome, ok := PoolSetReplicationFactor(poolsToUpdate, diskCount);
      event := Removal(name, outcome, false);
      if !ok { return; }
      var answer: Answer := *;        // DeleteClusterMember
      ok := answer.Succeeds?;
      if answer.TakesEffect() {
        cluster := cluster.(disks := Elsewhere(disks, name));
        event := Removal(name, outcome, true);
      }
    }
  }
}
