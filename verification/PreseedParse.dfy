/**
 `Preseed.Parse` over all systems: the phases of the storage configuration, and what a successful parse guarantees.
 */
module PreseedParse {
  import opened Services
  import opened FiniteSets
  import opened DiskFilters
  import opened Tallies
  import opened PreseedStorage

  ghost predicate Permutes(order: seq<string>, all: set<string>) {
    && (forall i, j :: 0 <= i < j < |order| ==> order[i] != order[j])
    && (forall q :: q in order <==> q in all)
  }

  // What LXD reports: the disks of every system, once for the Ceph filters and once for the local ones.
  datatype Reported = Reported(ceph: string -> seq<Disk>, local: string -> seq<Disk>)

  /** The input of a parse. */
  datatype Input = Input(name: string, bootstrap: bool, preseed: Preseed, matcher: Matcher, reported: Reported,
                         hasCephFS: bool)
  {
    function ModeOf(q: string): Mode {
      Mode(bootstrap, q == name)
    }

    function AfterDirect(q: string): System {
      WithDirect(ModeOf(q), preseed.DirectLocal(q), preseed.DirectCeph(q))
    }

    function ChosenDisks(q: string): seq<Post> {
      if preseed.FiltersCeph(q) then FilterPosts(matcher, preseed.ceph, |preseed.ceph|, Unpartitioned(reported.ceph(q)))
      else []
    }

    function ChosenFinds(q: string): seq<string> {
      if preseed.FiltersCeph(q) then FilterFinds(matcher, preseed.ceph, |preseed.ceph|, Unpartitioned(reported.ceph(q)))
      else []
    }

    lemma OneFindPerDisk(q: string)
      ensures |ChosenFinds(q)| == |ChosenDisks(q)|
    {
      OneFindPerPost(matcher, preseed.ceph, |preseed.ceph|, Unpartitioned(reported.ceph(q)));
    }

    /** The expressions of the chosen disks, system by system in the order of iteration. */
    function AllFinds(order: seq<string>): seq<string> {
      if order == [] then [] else AllFinds(order[..|order| - 1]) + ChosenFinds(order[|order| - 1])
    }

    /** `order` lists, once each, the systems that are offered to the Ceph filters. */
    ghost predicate Iterates(order: seq<string>, all: set<string>) {
      Permutes(order, set q | q in all && preseed.FiltersCeph(q))
    }

    /** The number of chosen disks lies within each filter's bounds, counted per expression. */
    ghost predicate WithinFilterBounds(order: seq<string>) {
      forall f :: f in preseed.ceph ==>
        && f.findMin <= Count(AllFinds(order), f.find)
        && (f.findMax > 0 ==> Count(AllFinds(order), f.find) <= f.findMax)
    }

    function AfterCeph(q: string): System {
      WithFiltered(AfterDirect(q), ModeOf(q), ChosenDisks(q), false)
    }

    /** `k` is the number of local filters that were applied. */
    function AfterLocal(q: string, k: nat): System
      requires k <= |preseed.local|
    {
      if preseed.FiltersLocal(q)
      then WithLocalFilters(AfterCeph(q), ModeOf(q), matcher, preseed.local, k, Unpartitioned(reported.local(q)))
      else AfterCeph(q)
    }

    predicate FoundLocal(q: string, k: nat)
      requires k <= |preseed.local|
    {
      preseed.FiltersLocal(q) && SomeMatch(matcher, preseed.local, k, Unpartitioned(reported.local(q)))
    }

    /** The expressions of the local filters that were applied to one system and matched. */
    function FoundFinds(q: string, ks: map<string, nat>): seq<string> {
      if q in ks && ks[q] <= |preseed.local|
      then LocalFinds(matcher, preseed.local, ks[q], Unpartitioned(reported.local(q))) else []
    }

    function AllLocalFinds(order: seq<string>, ks: map<string, nat>): seq<string> {
      if order == [] then [] else AllLocalFinds(order[..|order| - 1], ks) + FoundFinds(order[|order| - 1], ks)
    }

    /** `order` lists, once each, the systems that are offered to the local filters. */
    ghost predicate IteratesLocal(order: seq<string>, all: set<string>) {
      Permutes(order, set q | q in all && preseed.FiltersLocal(q))
    }

    /** The number of systems on which a local filter matched lies within its bounds, counted per expression. */
    ghost predicate WithinLocalBounds(order: seq<string>, ks: map<string, nat>) {
      forall f :: f in preseed.local ==>
        && f.findMin <= Count(AllLocalFinds(order, ks), f.find)
        && (f.findMax > 0 ==> Count(AllLocalFinds(order, ks), f.find) <= f.findMax)
    }

    predicate HasDirectLocal(q: string) {
      preseed.DirectLocal(q).path != ""
    }

    function AfterRemote(q: string, k: nat, any: bool): System
      requires k <= |preseed.local|
    {
      if any then WithRemote(AfterLocal(q, k), ModeOf(q)) else AfterLocal(q, k)
    }

    function AfterRemoteFS(q: string, k: nat, any: bool, key: bool): System
      requires k <= |preseed.local|
    {
      if (any && preseed.cephFS) || hasCephFS then WithRemoteFS(AfterRemote(q, k, any), ModeOf(q), key)
      else AfterRemote(q, k, any)
    }
  }

  // ---- Summaries --------------------------------------------------------------------------------------------------

  predicate HasPendingLocal(target: seq<Pool>) {
    exists i :: 0 <= i < |target| && target[i].PendingLocal?
  }

  /** Which pools a system ends up with. */
  datatype Summary = Summary(pendingLocal: bool, finalLocal: bool, pendingRemote: nat, finalRemote: nat,
                             pendingFS: nat, finalFS: nat)

  function Summarize(s: System): Summary {
    Summary(HasPendingLocal(s.target), FinalLocal in s.final, multiset(s.target)[Remote], multiset(s.final)[Remote],
            multiset(s.target)[RemoteFS], multiset(s.final)[RemoteFS])
  }

  function Ones(b: bool): nat {
    if b then 1 else 0
  }

  function Pools(mode: Mode, local: bool, remote: bool, fs: bool): Summary {
    var (b, h) := (mode.bootstrap, mode.bootstrap && mode.here);
    Summary(b && local, h && local, Ones(b && remote), Ones(h && remote), Ones(b && fs), Ones(h && fs))
  }

  lemma AppendPool(pools: seq<Pool>, pool: Pool)
    ensures HasPendingLocal(pools + [pool]) <==> HasPendingLocal(pools) || pool.PendingLocal?
    ensures forall p :: multiset(pools + [pool])[p] == multiset(pools)[p] + Ones(p == pool)
  {
    assert (pools + [pool])[|pools|] == pool;
    if HasPendingLocal(pools) {
      var i :| 0 <= i < |pools| && pools[i].PendingLocal?;
      assert (pools + [pool])[i] == pools[i];
    }
  }

  lemma SummaryOfLocal(s: System, mode: Mode, wipe: bool, path: string, was: bool, remote: bool, fs: bool)
    requires Summarize(s) == Pools(mode, was, remote, fs)
    ensures Summarize(WithLocalDisk(s, mode, wipe, path)) == Pools(mode, true, remote, fs)
  {
    AppendPool(s.target, PendingLocal(wipe, path));
    AppendPool(s.final, FinalLocal);
    assert s.final + [] == s.final;
  }

  lemma {:induction false} SummaryOfLocalFilters(s: System, mode: Mode, m: Matcher, filters: seq<Filter>, k: nat,
                                                 disks: seq<Disk>, was: bool, remote: bool, fs: bool)
    requires k <= |filters| && Summarize(s) == Pools(mode, was, remote, fs)
    ensures Summarize(WithLocalFilters(s, mode, m, filters, k, disks))
            == Pools(mode, was || SomeMatch(m, filters, k, disks), remote, fs)
  {
    if k > 0 {
      SummaryOfLocalFilters(s, mode, m, filters, k - 1, disks, was, remote, fs);
      OneMoreLocalFilter(s, mode, m, filters, k, disks, was || SomeMatch(m, filters, k - 1, disks), remote, fs);
    }
  }

  lemma OneMoreLocalFilter(s: System, mode: Mode, m: Matcher, filters: seq<Filter>, k: nat, disks: seq<Disk>,
                           was: bool, remote: bool, fs: bool)
    requires 0 < k <= |filters|
    requires Summarize(WithLocalFilters(s, mode, m, filters, k - 1, disks)) == Pools(mode, was, remote, fs)
    ensures var matched := Matching(m, filters[k - 1], disks);
            Summarize(WithLocalFilters(s, mode, m, filters, k, disks))
            == if matched == [] then Pools(mode, was, remote, fs) else Pools(mode, true, remote, fs)
  {
    var matched := Matching(m, filters[k - 1], disks);
    if matched != [] {
      SummaryOfLocal(WithLocalFilters(s, mode, m, filters, k - 1, disks), mode, filters[k - 1].wipe,
                     FormatDiskPath(matched[0]), was, remote, fs);
    }
  }

  lemma SummaryOfFiltered(s: System, mode: Mode, posts: seq<Post>, local: bool)
    requires Summarize(s) == Pools(mode, local, false, false)
    ensures Summarize(WithFiltered(s, mode, posts, false)) == Pools(mode, local, posts != [], false)
  {
    AppendPool(s.target, Remote);
    AppendPool(s.final, Remote);
    assert s.target + [] == s.target && s.final + [] == s.final;
  }

  lemma SummaryOfRemote(s: System, mode: Mode, local: bool, was: bool)
    requires Summarize(s) == Pools(mode, local, was, false)
    ensures Summarize(WithRemote(s, mode)) == Pools(mode, local, true, false)
  {
    AppendPool(s.target, Remote);
    AppendPool(s.final, Remote);
    assert s.target + [] == s.target && s.final + [] == s.final;
  }

  lemma SummaryOfRemoteFS(s: System, mode: Mode, key: bool, local: bool, remote: bool)
    requires Summarize(s) == Pools(mode, local, remote, false)
    ensures Summarize(WithRemoteFS(s, mode, key)) == Pools(mode, local, remote, true)
  {
    AppendPool(s.target, RemoteFS);
    AppendPool(s.final, RemoteFS);
    assert s.target + [] == s.target && s.final + [] == s.final;
  }

  // The pools of a system, phase after phase.

  lemma PoolsAfterDirect(mode: Mode, local: Direct, ceph: seq<Direct>)
    ensures Summarize(WithDirect(mode, local, ceph)) == Pools(mode, local.path != "", false, false)
  {
    assert Summarize(FRESH) == Pools(mode, false, false, false);
    SummaryOfLocal(FRESH, mode, local.wipe, local.path, false, false, false);
  }

  lemma PoolsAfterLocal(input: Input, q: string, k: nat)
    requires k <= |input.preseed.local|
    ensures Summarize(input.AfterLocal(q, k))
            == Pools(input.ModeOf(q), input.HasDirectLocal(q) || input.FoundLocal(q, k), input.ChosenDisks(q) != [], false)
  {
    var mode, local := input.ModeOf(q), input.HasDirectLocal(q);
    PoolsAfterDirect(mode, input.preseed.DirectLocal(q), input.preseed.DirectCeph(q));
    SummaryOfFiltered(input.AfterDirect(q), mode, input.ChosenDisks(q), local);
    if input.preseed.FiltersLocal(q) {
      SummaryOfLocalFilters(input.AfterCeph(q), mode, input.matcher, input.preseed.local, k,
                            Unpartitioned(input.reported.local(q)), local, input.ChosenDisks(q) != [], false);
    }
  }

  lemma PoolsOf(input: Input, q: string, k: nat, any: bool, key: bool)
    requires k <= |input.preseed.local| && (!any ==> input.ChosenDisks(q) == [])
    ensures Summarize(input.AfterRemoteFS(q, k, any, key))
            == Pools(input.ModeOf(q), input.HasDirectLocal(q) || input.FoundLocal(q, k), any,
                     (any && input.preseed.cephFS) || input.hasCephFS)
  {
    var mode, local := input.ModeOf(q), input.HasDirectLocal(q) || input.FoundLocal(q, k);
    PoolsAfterLocal(input, q, k);
    SummaryOfRemote(input.AfterLocal(q, k), mode, local, input.ChosenDisks(q) != []);
    SummaryOfRemoteFS(input.AfterRemote(q, k, any), mode, key, local, any);
  }

  // ---- What a successful parse guarantees -------------------------------------------------------------------------

  ghost predicate LocalSettled(input: Input, systems: map<string, System>, ks: map<string, nat>) {
    && systems.Keys == ks.Keys && (forall q :: q in ks ==> ks[q] <= |input.preseed.local|)
    && forall q :: q in systems ==> systems[q] == input.AfterLocal(q, ks[q])
  }

  /** Some system supplies Ceph disks, directly or through a filter. */
  ghost predicate AnyCeph(input: Input, all: set<string>) {
    exists q :: q in all && (input.preseed.DirectCeph(q) != [] || input.ChosenDisks(q) != [])
  }

  /** Every system went through all phases; `ks` and `keyed` are what map order and LXD versions leave open. */
  ghost predicate Parsed(input: Input, systems: map<string, System>, ks: map<string, nat>, keyed: set<string>) {
    && systems.Keys == ks.Keys && (forall q :: q in ks ==> ks[q] <= |input.preseed.local|)
    && forall q :: q in systems ==> systems[q] == input.AfterRemoteFS(q, ks[q], AnyCeph(input, systems.Keys), q in keyed)
  }

  /** Either no system has a `local` pool, or every system has a pending one and the bootstrap system a final one. */
  ghost predicate LocalAllOrNothing(systems: map<string, System>, name: string) {
    || (forall q :: q in systems ==> !HasPendingLocal(systems[q].target) && FinalLocal !in systems[q].final)
    || (forall q :: q in systems ==> HasPendingLocal(systems[q].target) && (FinalLocal in systems[q].final <==> q == name))
  }

  /**
   Without Ceph disks there is no `remote` pool; else every system has one pending, the bootstrap system one final.
   */
  ghost predicate RemotePools(systems: map<string, System>, name: string) {
    forall q :: q in systems ==>
      if exists d :: d in systems && systems[d].cephDisks != []
      then multiset(systems[q].target)[Remote] == 1 && multiset(systems[q].final)[Remote] == Ones(q == name)
      else Remote !in systems[q].target && Remote !in systems[q].final
  }

  ghost predicate RemoteFSDone(input: Input, systems: map<string, System>, ks: map<string, nat>, any: bool,
                               done: set<string>, keyed: set<string>)
  {
    && keyed <= done <= systems.Keys == ks.Keys && (forall q :: q in ks ==> ks[q] <= |input.preseed.local|)
    && (forall q :: q in done ==> systems[q] == input.AfterRemoteFS(q, ks[q], any, q in keyed))
    && (forall q :: q in systems && q !in done ==> systems[q] == input.AfterRemote(q, ks[q], any))
  }

  lemma RemoteFSStep(input: Input, systems: map<string, System>, ks: map<string, nat>, any: bool,
                     done: set<string>, keyed: set<string>, q: string, key: bool)
    requires RemoteFSDone(input, systems, ks, any, done, keyed) && q in systems && q !in done
    requires (any && input.preseed.cephFS) || input.hasCephFS
    ensures RemoteFSDone(input, systems[q := WithRemoteFS(systems[q], input.ModeOf(q), key)], ks, any,
                         done + {q}, if key then keyed + {q} else keyed)
  {
  }

  // ---- The phases over all systems --------------------------------------------------------------------------------

  lemma OrderGrows(input: Input, order: seq<string>, done: set<string>, q: string)
    requires Permutes(order, done) && q !in done
    ensures Permutes(order + [q], done + {q})
    ensures input.AllFinds(order + [q]) == input.AllFinds(order) + input.ChosenFinds(q)
  {
    assert (order + [q])[..|order|] == order;
  }

  /** The systems in `done` went through the Ceph filters. */
  ghost predicate CephDone(input: Input, systems: map<string, System>, done: set<string>, check: set<string>) {
    && done <= systems.Keys * check
    && forall q :: q in systems ==> systems[q] == if q in done then input.AfterCeph(q) else input.AfterDirect(q)
  }

  lemma CephStepDone(input: Input, systems: map<string, System>, done: set<string>, check: set<string>, q: string,
                     s: System)
    requires CephDone(input, systems, done, check) && q in systems && q in check && s == input.AfterCeph(q)
    ensures CephDone(input, systems[q := s], done + {q}, check)
  {
  }

  /** One system's turn, as the loop over all systems sees it. */
  lemma CephVisit(input: Input, systems: map<string, System>, done: set<string>, check: set<string>, order: seq<string>,
                  q: string)
    requires CephDone(input, systems, done, check) && Permutes(order, done) && q in systems && q in check && q !in done
    ensures systems[q] == input.AfterDirect(q)
    ensures CephDone(input, systems[q := input.AfterCeph(q)], done + {q}, check) && Permutes(order + [q], done + {q})
    ensures input.AllFinds(order + [q]) == input.AllFinds(order) + input.ChosenFinds(q)
  {
    CephStepDone(input, systems, done, check, q, input.AfterCeph(q));
    OrderGrows(input, order, done, q);
  }

  lemma CephAll(input: Input, systems: map<string, System>, order: seq<string>, done: set<string>, check: set<string>)
    requires CephDone(input, systems, done, check) && done == systems.Keys * check && Permutes(order, done)
    requires forall q :: q in check <==> input.preseed.FiltersCeph(q)
    ensures input.Iterates(order, systems.Keys) && forall q :: q in systems ==> systems[q] == input.AfterCeph(q)
  {
    forall q | q in systems ensures systems[q] == input.AfterCeph(q) {
      if q !in check { NothingFiltered(input.AfterDirect(q), input.ModeOf(q), false); }
    }
    assert done == set q | q in systems.Keys && input.preseed.FiltersCeph(q);
  }

  /** A system before or after its turn with the local filters, of which `k` were applied. */
  ghost predicate LocalAt(input: Input, q: string, s: System, k: nat, done: bool, found: bool) {
    && k <= |input.preseed.local|
    && s == (if done then input.AfterLocal(q, k) else input.AfterCeph(q))
    && (found <==> done && input.FoundLocal(q, k))
  }

  /** How far the local filters got on each system. */
  ghost predicate LocalDone(input: Input, systems: map<string, System>, ks: map<string, nat>, done: set<string>,
                            machines: set<string>) {
    && machines <= done <= systems.Keys == ks.Keys
    && forall q :: q in systems ==> LocalAt(input, q, systems[q], ks[q], q in done, q in machines)
  }

  /** Systems outside the local filters are done from the start. */
  lemma LocalAll(input: Input, systems: map<string, System>, order: seq<string>, ks: map<string, nat>,
                 done: set<string>, check: set<string>, machines: set<string>)
    requires LocalDone(input, systems, ks, done, machines) && done == systems.Keys * check && Permutes(order, done)
    requires forall q :: q in check <==> input.preseed.FiltersLocal(q)
    ensures LocalDone(input, systems, ks, systems.Keys, machines) && input.IteratesLocal(order, systems.Keys)
  {
    assert done == set q | q in systems.Keys && input.preseed.FiltersLocal(q);
  }

  lemma LocalStepDone(input: Input, systems: map<string, System>, ks: map<string, nat>, done: set<string>,
                      machines: set<string>, q: string, s: System, k: nat, found: bool)
    requires LocalDone(input, systems, ks, done, machines) && q in systems && q !in done
    requires LocalAt(input, q, s, k, true, found)
    ensures LocalDone(input, systems[q := s], ks[q := k], done + {q}, if found then machines + {q} else machines)
  {
  }

  /** One system's turn, as the loop over all systems sees it. */
  lemma LocalVisit(input: Input, systems: map<string, System>, ks: map<string, nat>, done: set<string>,
                   machines: set<string>, matches: map<string, nat>, order: seq<string>, q: string, k: nat, l: LocalState)
    requires LocalDone(input, systems, ks, done, machines) && Permutes(order, done)
    requires q in systems && q !in done && input.preseed.FiltersLocal(q) && k <= |input.preseed.local|
    requires LocalAfter(LocalState(systems[q], machines, matches), input.ModeOf(q), input.matcher, input.preseed.local, k,
                        Unpartitioned(input.reported.local(q)), q, input.AllLocalFinds(order, ks), l)
    ensures LocalDone(input, systems[q := l.system], ks[q := k], done + {q}, l.machines)
            && Permutes(order + [q], done + {q})
    ensures l.counts == Tally(input.AllLocalFinds(order + [q], ks[q := k]))
  {
    assert LocalAt(input, q, systems[q], ks[q], q in done, q in machines);
    LocalStepDone(input, systems, ks, done, machines, q, l.system, k, input.FoundLocal(q, k));
    LocalFindsGrow(input, order, ks, done, q, k);
  }

  class InitConfig {
    var systems: map<string, System>

    /** The entries for `peer` among the given systems. */
    method FindDirect(input: Input, peer: string) returns (local: Direct, ceph: seq<Direct>)
      ensures local == input.preseed.DirectLocal(peer) && ceph == input.preseed.DirectCeph(peer)
    {
      local, ceph := NO_DIRECT, [];
      for i := 0 to |input.preseed.systems|
        invariant var e := input.preseed.Entry(peer, i);
                  if e.Some? then local == e.value.local && ceph == e.value.ceph else local == NO_DIRECT && ceph == []
      {
        if input.preseed.systems[i].name == peer {
          local, ceph := input.preseed.systems[i].local, input.preseed.systems[i].ceph;
        }
      }
    }

    method SetUpDirectDisksOf(input: Input, peer: string) returns (zfs: bool, ceph: bool)
      requires peer in systems && systems[peer] == FRESH
      modifies this
      ensures systems == old(systems)[peer := input.AfterDirect(peer)]
      ensures zfs == input.HasDirectLocal(peer) && ceph == (input.preseed.DirectCeph(peer) != [])
    {
      var system := systems[peer];
      var local, disks := FindDirect(input, peer);
      zfs := local.path != "";
      if zfs { system := WithLocalDisk(system, input.ModeOf(peer), local.wipe, local.path); }
      system := system.(cephDisks := system.cephDisks + DirectPosts(disks));
      assert system == input.AfterDirect(peer);
      ceph := |system.cephDisks| > 0;
      systems := systems[peer := system];
    }

    /** Gives every system its directly specified disks. */
    method SetUpDirectDisks(input: Input) returns (directZFS: set<string>, directCeph: set<string>)
      requires forall q :: q in systems ==> systems[q] == FRESH
      modifies this
      ensures systems.Keys == old(systems.Keys)
      ensures forall q :: q in systems ==> systems[q] == input.AfterDirect(q)
      ensures forall q :: q in directZFS <==> q in systems && input.HasDirectLocal(q)
      ensures forall q :: q in directCeph <==> q in systems && input.preseed.DirectCeph(q) != []
    {
      directZFS, directCeph := {}, {};
      var done := {};
      while done != systems.Keys
        invariant done <= systems.Keys == old(systems.Keys)
        invariant forall q :: q in systems ==> systems[q] == if q in done then input.AfterDirect(q) else FRESH
        invariant forall q :: q in directZFS <==> q in done && input.HasDirectLocal(q)
        invariant forall q :: q in directCeph <==> q in done && input.preseed.DirectCeph(q) != []
        decreases old(systems.Keys) - done
      {
        var peer :| peer in systems && peer !in done;
        var zfs, ceph := SetUpDirectDisksOf(input, peer);
        if zfs { directZFS := directZFS + {peer}; }
        if ceph { directCeph := directCeph + {peer}; }
        done := done + {peer};
      }
    }

    /** The systems left to the filters, by name. */
    method CheckFilters(input: Input) returns (zfs: set<string>, ceph: set<string>)
      requires input.preseed.Valid()
      ensures forall q :: q in zfs <==> input.preseed.FiltersLocal(q)
      ensures forall q :: q in ceph <==> input.preseed.FiltersCeph(q)
    {
      zfs, ceph := {}, {};
      var given := input.preseed.systems;
      for i := 0 to |given|
        invariant forall q :: q in zfs <==> exists j :: 0 <= j < i && given[j].name == q && given[j].local == NO_DIRECT
        invariant forall q :: q in ceph <==> exists j :: 0 <= j < i && given[j].name == q && given[j].ceph == []
      {
        if given[i].local == NO_DIRECT { zfs := zfs + {given[i].name}; }
        if given[i].ceph == [] { ceph := ceph + {given[i].name}; }
      }
      forall q ensures (q in zfs <==> input.preseed.FiltersLocal(q)) && (q in ceph <==> input.preseed.FiltersCeph(q)) {
        NamedOnce(input.preseed, q);
      }
    }

    /** Offers one system's disks to the Ceph filters. */
    method SetUpCephFiltersOf(input: Input, peer: string, matches: map<string, nat>, ghost log: seq<string>)
      returns (ok: bool, matches': map<string, nat>)
      requires peer in systems && systems[peer] == input.AfterDirect(peer) && input.preseed.FiltersCeph(peer)
      requires matches == Tally(log)
      modifies this
      ensures ok ==> systems == old(systems)[peer := input.AfterCeph(peer)]
      ensures ok ==> matches' == Tally(log + input.ChosenFinds(peer))
    {
      var system;
      ok, system, matches' := ApplyCephFilters(input.matcher, input.preseed.ceph, input.reported.ceph(peer), systems[peer],
                                               input.ModeOf(peer), matches, log);
      if ok { systems := systems[peer := system]; }
    }

    /** Offers every remaining disk of every filtered system to the Ceph filters. */
    method SetUpCephFilters(input: Input,
                            check: set<string>) returns (ok: bool, matches: map<string, nat>, ghost order: seq<string>)
      requires forall q :: q in check <==> input.preseed.FiltersCeph(q)
      requires forall q :: q in systems ==> systems[q] == input.AfterDirect(q)
      modifies this
      ensures ok ==> systems.Keys == old(systems.Keys) && forall q :: q in systems ==> systems[q] == input.AfterCeph(q)
      ensures ok ==> matches == Tally(input.AllFinds(order)) && input.Iterates(order, systems.Keys)
    {
      matches, order := map[], [];
      var done := {};
      while done != systems.Keys * check
        invariant systems.Keys == old(systems.Keys) && CephDone(input, systems, done, check)
        invariant matches == Tally(input.AllFinds(order)) && Permutes(order, done)
        decreases old(systems.Keys) - done
      {
        var peer :| peer in systems && peer in check && peer !in done;
        CephVisit(input, systems, done, check, order, peer);
        ok, matches := SetUpCephFiltersOf(input, peer, matches, input.AllFinds(order));
        if !ok { return; }
        order := order + [peer];
        done := done + {peer};
      }
      CephAll(input, systems, order, done, check);
      ok := true;
    }

    /** One system takes its local disks from the filters. */
    method SetUpLocalFiltersOf(input: Input, peer: string, ghost ks: map<string, nat>, ghost done: set<string>,
                               machines: set<string>, matches: map<string, nat>, ghost order: seq<string>)
      returns (ok: bool, machines': set<string>, matches': map<string, nat>, ghost ks': map<string, nat>)
      requires LocalDone(input, systems, ks, done, machines) && Permutes(order, done)
      requires matches == Tally(input.AllLocalFinds(order, ks))
      requires peer in systems && peer !in done && input.preseed.FiltersLocal(peer)
      modifies this
      ensures systems.Keys == old(systems.Keys)
      ensures ok ==> LocalDone(input, systems, ks', done + {peer}, machines') && Permutes(order + [peer], done + {peer})
      ensures ok ==> matches' == Tally(input.AllLocalFinds(order + [peer], ks'))
    {
      var l, k;
      ks', machines', matches' := ks, machines, matches;
      ok, l, k := ApplyLocalFilters(input.matcher, input.preseed.local, input.reported.local(peer),
                                    LocalState(systems[peer], machines, matches), input.ModeOf(peer), peer, |systems|,
                                    input.AllLocalFinds(order, ks));
      if !ok { return; }
      machines', matches' := l.machines, l.counts;
      LocalVisit(input, systems, ks, done, machines, matches, order, peer, k, l);
      ks' := ks[peer := k];
      systems := systems[peer := l.system];
    }

    /** Offers the disks of every remaining system to the local filters, and counts the filters that match. */
    method SetUpLocalFilters(input: Input, check: set<string>)
      returns (ok: bool, matches: map<string, nat>, machines: set<string>,
               ghost order: seq<string>, ghost ks: map<string, nat>)
      requires forall q :: q in check <==> input.preseed.FiltersLocal(q)
      requires forall q :: q in systems ==> systems[q] == input.AfterCeph(q)
      modifies this
      ensures ok ==> systems.Keys == old(systems.Keys) && LocalDone(input, systems, ks, systems.Keys, machines)
      ensures ok ==> matches == Tally(input.AllLocalFinds(order, ks)) && input.IteratesLocal(order, systems.Keys)
    {
      matches, machines, order, ks := map[], {}, [], map q | q in systems :: 0;
      var done := {};
      while done != systems.Keys * check
        invariant done <= systems.Keys * check && systems.Keys == old(systems.Keys) && Permutes(order, done)
        invariant matches == Tally(input.AllLocalFinds(order, ks)) && LocalDone(input, systems, ks, done, machines)
        decreases old(systems.Keys) - done
      {
        var peer :| peer in systems && peer in check && peer !in done;
        ok, machines, matches, ks := SetUpLocalFiltersOf(input, peer, ks, done, machines, matches, order);
        if !ok { return; }
        order := order + [peer];
        done := done + {peer};
      }
      LocalAll(input, systems, order, ks, done, check, machines);
      ok := true;
    }

    method HasRemotePool(pools: seq<Pool>) returns (found: bool)
      ensures found == (Remote in pools)
    {
      found := false;
      for i := 0 to |pools|
        invariant found == (Remote in pools[..i])
      {
        if pools[i] == Remote { found := true; }
      }
      assert pools[..|pools|] == pools;
    }

    method AddRemotePool(input: Input, q: string) returns (ok: bool)
      requires q in systems
      modifies this
      ensures ok ==> systems == old(systems)[q := WithRemote(old(systems)[q], input.ModeOf(q))]
    {
      var system := systems[q];
      var found := HasRemotePool(system.target);
      if !found && input.bootstrap {
        ok := *;
        if !ok { return; }
        system := system.(target := system.target + [Remote]);
      }
      found := HasRemotePool(system.final);
      if !found && input.bootstrap && q == input.name {
        ok := *;
        if !ok { return; }
        system := system.(final := system.final + [Remote]);
      }
      assert system.target + [] == system.target && system.final + [] == system.final;
      systems := systems[q := system];
      ok := true;
    }

    /** Members that do not contribute disks still need the pool. */
    method CompleteRemote(input: Input, ghost ks: map<string, nat>) returns (ok: bool)
      requires LocalSettled(input, systems, ks)
      modifies this
      ensures ok ==> systems.Keys == old(systems.Keys) && forall q :: q in systems ==>
                systems[q] == input.AfterRemote(q, ks[q], true)
    {
      var done := {};
      while done != systems.Keys
        invariant done <= systems.Keys == old(systems.Keys)
        invariant forall q :: q in systems ==> systems[q] == input.AfterRemote(q, ks[q], q in done)
        decreases old(systems.Keys) - done
      {
        var q :| q in systems && q !in done;
        ok := AddRemotePool(input, q);
        if !ok { return; }
        done := done + {q};
      }
      ok := true;
    }

    method CompleteRemoteFS(input: Input, ghost ks: map<string, nat>, any: bool) returns (ok: bool, keyed: set<string>)
      requires (any && input.preseed.cephFS) || input.hasCephFS
      requires systems.Keys == ks.Keys && forall q :: q in ks ==> ks[q] <= |input.preseed.local|
      requires forall q :: q in systems ==> systems[q] == input.AfterRemote(q, ks[q], any)
      modifies this
      ensures ok ==> systems.Keys == old(systems.Keys)
      ensures ok ==> forall q :: q in systems ==> systems[q] == input.AfterRemoteFS(q, ks[q], any, q in keyed)
    {
      var done := {};
      keyed := {};
      while done != systems.Keys
        invariant systems.Keys == old(systems.Keys) && RemoteFSDone(input, systems, ks, any, done, keyed)
        decreases old(systems.Keys) - done
      {
        var q :| q in systems && q !in done;
        ok := *;
        if !ok { return; }
        var key: bool := *;             // whether this LXD still wants the pool's source
        RemoteFSStep(input, systems, ks, any, done, keyed, q, key);
        systems := systems[q := WithRemoteFS(systems[q], input.ModeOf(q), key)];
        if key { keyed := keyed + {q}; }
        done := done + {q};
      }
      ok := true;
    }

    /** Both filter phases. */
    method ApplyFilters(input: Input) returns (ok: bool, cephMatches: map<string, nat>, zfsMatches: map<string, nat>,
                                               machines: set<string>, ghost order: seq<string>, ghost localOrder: seq<string>,
                                               ghost ks: map<string, nat>)
      requires input.preseed.Valid() && forall q :: q in systems ==> systems[q] == input.AfterDirect(q)
      modifies this
      ensures ok ==> systems.Keys == old(systems.Keys) && LocalDone(input, systems, ks, systems.Keys, machines)
      ensures ok ==> cephMatches == Tally(input.AllFinds(order)) && input.Iterates(order, systems.Keys)
      ensures ok ==> zfsMatches == Tally(input.AllLocalFinds(localOrder, ks)) && input.IteratesLocal(localOrder, systems.Keys)
    {
      cephMatches, zfsMatches, machines, order, localOrder, ks := map[], map[], {}, [], [], map[];
      var zfs, ceph := CheckFilters(input);
      ok := false;
      if ceph == {} && |input.preseed.ceph| > 0 { return; }
      if zfs == {} && |input.preseed.local| > 0 { return; }
      ok := *;                          // every system reports its resources
      if !ok { return; }
      ok, cephMatches, order := SetUpCephFilters(input, ceph);
      if !ok { return; }
      ok, zfsMatches, machines, localOrder, ks := SetUpLocalFilters(input, zfs);
    }

    /** Creates the distributed pools on every system. */
    method CompletePools(input: Input, any: bool, ghost ks: map<string, nat>) returns (ok: bool, keyed: set<string>)
      requires LocalSettled(input, systems, ks) && any == AnyCeph(input, systems.Keys)
      modifies this
      ensures ok ==> systems.Keys == old(systems.Keys) && Parsed(input, systems, ks, keyed)
    {
      ok, keyed := true, {};
      if any {
        ok := CompleteRemote(input, ks);
        if !ok { return; }
      }
      if (any && input.preseed.cephFS) || input.hasCephFS {
        ok, keyed := CompleteRemoteFS(input, ks, any);
      }
    }

    /**
     The storage part of a parse. On success every filter kept its bounds, every system has exactly the disks and pools
     that `Parsed` says, and a new cluster has consistent pools.
     */
    method Parse(input: Input) returns (ok: bool, ghost order: seq<string>, ghost localOrder: seq<string>,
                                        ghost ks: map<string, nat>, ghost keyed: set<string>)
      requires input.preseed.Valid() && (input.bootstrap ==> input.name in systems)
      modifies this
      ensures ok ==> systems.Keys == old(systems.Keys) && Parsed(input, systems, ks, keyed)
      ensures ok ==> input.Iterates(order, systems.Keys) && input.WithinFilterBounds(order)
      ensures ok ==> input.IteratesLocal(localOrder, systems.Keys) && input.WithinLocalBounds(localOrder, ks)
      ensures ok && input.bootstrap ==> LocalAllOrNothing(systems, input.name) && RemotePools(systems, input.name)
    {
      systems := map q | q in systems :: FRESH;
      keyed := {};
      var any;
      ok, any, order, localOrder, ks := ChooseDisks(input);
      if !ok { return; }
      ok, keyed := CompletePools(input, any, ks);
      if ok && input.bootstrap { ConsistentPools(input, systems, ks, keyed); }
    }

    /** Direct disks, filtered disks, and the checks on how many there are. */
    method ChooseDisks(input: Input)
      returns (ok: bool, any: bool, ghost order: seq<string>, ghost localOrder: seq<string>, ghost ks: map<string, nat>)
      requires input.preseed.Valid() && forall q :: q in systems ==> systems[q] == FRESH
      modifies this
      ensures ok ==>
                systems.Keys == old(systems.Keys) && LocalSettled(input, systems, ks) && any == AnyCeph(input, systems.Keys)
      ensures ok ==> input.Iterates(order, systems.Keys) && input.WithinFilterBounds(order)
      ensures ok ==> input.IteratesLocal(localOrder, systems.Keys) && input.WithinLocalBounds(localOrder, ks)
      ensures ok && input.bootstrap ==> AllOrNothing(input, ks)
    {
      any := false;
      var directZFS, directCeph := SetUpDirectDisks(input);
      var cephMatches, zfsMatches, machines;
      ok, cephMatches, zfsMatches, machines, order, localOrder, ks := ApplyFilters(input);
      if !ok { return; }
      ok := CheckMatches(input, cephMatches, zfsMatches, order, localOrder, ks);
      if !ok { return; }
      ok := !(input.bootstrap && |machines| + |directZFS| > 0 && |machines| + |directZFS| < |systems|);
      any := |cephMatches| + |directCeph| > 0;
      CountedLocal(input, systems, ks, machines, directZFS);
      AnyCephDisks(input, systems.Keys, order, directCeph);
    }

    method CheckMatches(input: Input, cephMatches: map<string, nat>, zfsMatches: map<string, nat>,
                        ghost order: seq<string>, ghost localOrder: seq<string>, ghost ks: map<string, nat>)
      returns (ok: bool)
      requires cephMatches == Tally(input.AllFinds(order)) && zfsMatches == Tally(input.AllLocalFinds(localOrder, ks))
      ensures ok ==> input.WithinFilterBounds(order) && input.WithinLocalBounds(localOrder, ks)
    {
      ok := *;                          // the Ceph networks are valid
      if !ok { return; }
      ok := CheckBounds(input.preseed.ceph, cephMatches);
      if !ok { return; }
      BoundsOnLog(input.preseed.ceph, input.AllFinds(order));
      ok := CheckBounds(input.preseed.local, zfsMatches);
      if ok { BoundsOnLog(input.preseed.local, input.AllLocalFinds(localOrder, ks)); }
    }
  }

  lemma BoundsOnLog(filters: seq<Filter>, log: seq<string>)
    requires WithinBounds(filters, Tally(log))
    ensures forall f :: f in filters ==>
              f.findMin <= Count(log, f.find) && (f.findMax > 0 ==> Count(log, f.find) <= f.findMax)
  {
    forall f | f in filters
      ensures f.findMin <= Count(log, f.find) && (f.findMax > 0 ==> Count(log, f.find) <= f.findMax)
    {
      TallyCounts(log, f.find);
    }
  }

  ghost predicate AllOrNothing(input: Input, ks: map<string, nat>)
    requires forall q :: q in ks ==> ks[q] <= |input.preseed.local|
  {
    || (forall q :: q in ks ==> !input.HasDirectLocal(q) && !input.FoundLocal(q, ks[q]))
    || (forall q :: q in ks ==> input.HasDirectLocal(q) || input.FoundLocal(q, ks[q]))
  }

  /** Systems with a direct disk and systems that found one are disjoint, so their numbers add up. */
  lemma CountedLocal(input: Input, systems: map<string, System>, ks: map<string, nat>, machines: set<string>,
                     direct: set<string>)
    requires LocalDone(input, systems, ks, systems.Keys, machines)
    requires forall q :: q in direct <==> q in systems && input.HasDirectLocal(q)
    ensures LocalSettled(input, systems, ks)
    ensures |machines| + |direct| == 0 || |machines| + |direct| >= |systems| ==> AllOrNothing(input, ks)
  {
    assert machines !! direct;
    assert |machines + direct| == |machines| + |direct|;
    assert |systems| == |systems.Keys|;
    SubsetSize(machines + direct, systems.Keys);
    if |machines| + |direct| >= |systems| {
      assert forall q :: q in ks ==> q in machines + direct;
    }
  }

  lemma {:induction false} LocalFiltersKeepDisks(s: System, mode: Mode, m: Matcher, filters: seq<Filter>, k: nat,
                                                 disks: seq<Disk>)
    requires k <= |filters|
    ensures WithLocalFilters(s, mode, m, filters, k, disks).cephDisks == s.cephDisks
  {
    if k > 0 { LocalFiltersKeepDisks(s, mode, m, filters, k - 1, disks); }
  }

  /** The Ceph disks of a system are its direct ones, followed by those that the filters chose for it. */
  lemma DisksOf(input: Input, q: string, k: nat, any: bool, key: bool)
    requires k <= |input.preseed.local|
    ensures input.AfterRemoteFS(q, k, any, key).cephDisks
            == DirectPosts(input.preseed.DirectCeph(q)) + input.ChosenDisks(q)
  {
    LocalFiltersKeepDisks(input.AfterCeph(q), input.ModeOf(q), input.matcher, input.preseed.local, k,
                          Unpartitioned(input.reported.local(q)));
  }

  /**
   With distinct IDs the filtered ones are, filter by filter, the disks that it is the first to match, with its flags.
   */
  lemma DisksAreFirstMatches(input: Input, q: string, k: nat, any: bool, key: bool)
    requires k <= |input.preseed.local| && DistinctIds(input.reported.ceph(q))
    ensures input.AfterRemoteFS(q, k, any, key).cephDisks == DirectPosts(input.preseed.DirectCeph(q))
            + if input.preseed.FiltersCeph(q)
              then FirstMatchPosts(input.matcher, input.preseed.ceph, |input.preseed.ceph|,
                                   Unpartitioned(input.reported.ceph(q)))
              else []
  {
    DisksOf(input, q, k, any, key);
    KeepDistinct((d: Disk) => d.partitions == 0, input.reported.ceph(q));
    PostsAreFirstMatches(input.matcher, input.preseed.ceph, |input.preseed.ceph|, Unpartitioned(input.reported.ceph(q)));
  }

  /** So that is what a successful parse gives a system. */
  lemma ParsedDisks(input: Input, systems: map<string, System>, ks: map<string, nat>, keyed: set<string>, q: string)
    requires Parsed(input, systems, ks, keyed) && q in systems && DistinctIds(input.reported.ceph(q))
    ensures systems[q].cephDisks == DirectPosts(input.preseed.DirectCeph(q))
            + if input.preseed.FiltersCeph(q)
              then FirstMatchPosts(input.matcher, input.preseed.ceph, |input.preseed.ceph|,
                                   Unpartitioned(input.reported.ceph(q)))
              else []
  {
    DisksAreFirstMatches(input, q, ks[q], AnyCeph(input, systems.Keys), q in keyed);
  }

  lemma LocalPools(input: Input, systems: map<string, System>, ks: map<string, nat>, keyed: set<string>)
    requires input.bootstrap && Parsed(input, systems, ks, keyed) && AllOrNothing(input, ks)
    ensures LocalAllOrNothing(systems, input.name)
  {
    forall q | q in systems
      ensures HasPendingLocal(systems[q].target) == (input.HasDirectLocal(q) || input.FoundLocal(q, ks[q]))
      ensures FinalLocal in systems[q].final <==> q == input.name && (input.HasDirectLocal(q) || input.FoundLocal(q, ks[q]))
    {
      PoolsOf(input, q, ks[q], AnyCeph(input, systems.Keys), q in keyed);
    }
  }

  lemma DistributedPools(input: Input, systems: map<string, System>, ks: map<string, nat>, keyed: set<string>)
    requires input.bootstrap && Parsed(input, systems, ks, keyed)
    ensures RemotePools(systems, input.name)
  {
    var any := AnyCeph(input, systems.Keys);
    forall q | q in systems
      ensures multiset(systems[q].target)[Remote] == Ones(any)
              && multiset(systems[q].final)[Remote] == Ones(any && q == input.name)
      ensures systems[q].cephDisks != [] <==> input.preseed.DirectCeph(q) != [] || input.ChosenDisks(q) != []
    {
      PoolsOf(input, q, ks[q], any, q in keyed);
      DisksOf(input, q, ks[q], any, q in keyed);
    }
    assert any <==> exists d :: d in systems && systems[d].cephDisks != [];
  }

  lemma ConsistentPools(input: Input, systems: map<string, System>, ks: map<string, nat>, keyed: set<string>)
    requires input.bootstrap && Parsed(input, systems, ks, keyed) && AllOrNothing(input, ks)
    ensures LocalAllOrNothing(systems, input.name) && RemotePools(systems, input.name)
  {
    LocalPools(input, systems, ks, keyed);
    DistributedPools(input, systems, ks, keyed);
  }

  lemma {:induction false} SomeFinds(input: Input, order: seq<string>, q: string)
    requires q in order && input.ChosenDisks(q) != []
    ensures input.AllFinds(order) != []
  {
    var front, last := order[..|order| - 1], order[|order| - 1];
    assert order == front + [last];
    if q == last {
      input.OneFindPerDisk(last);
    } else {
      SomeFinds(input, front, q);
    }
  }

  lemma {:induction false} FindsFrom(input: Input, order: seq<string>) returns (q: string)
    requires input.AllFinds(order) != []
    ensures q in order && input.ChosenDisks(q) != []
  {
    var front, last := order[..|order| - 1], order[|order| - 1];
    q := last;
    input.OneFindPerDisk(last);
    if input.ChosenDisks(last) == [] {
      assert input.AllFinds(order) == input.AllFinds(front);
      q := FindsFrom(input, front);
    }
  }

  function ChosenCount(input: Input, order: seq<string>): nat {
    if order == [] then 0
    else ChosenCount(input, order[..|order| - 1]) + |input.ChosenDisks(order[|order| - 1])|
  }

  /** The match counters of the Ceph filters add up to the number of disks that the filters chose. */
  lemma {:induction false} CountersAddUp(input: Input, order: seq<string>)
    ensures Total(Tally(input.AllFinds(order))) == ChosenCount(input, order)
  {
    TallyTotal(input.AllFinds(order));
    CountFinds(input, order);
  }

  lemma {:induction false} CountFinds(input: Input, order: seq<string>)
    ensures |input.AllFinds(order)| == ChosenCount(input, order)
  {
    if order != [] {
      CountFinds(input, order[..|order| - 1]);
      input.OneFindPerDisk(order[|order| - 1]);
    }
  }

  /** Over all systems, the disks without partitions whose first match is a filter with the expression `find`. */
  function ClaimedCount(input: Input, order: seq<string>, find: string): nat {
    if order == [] then 0
    else
      var q := order[|order| - 1];
      ClaimedCount(input, order[..|order| - 1], find)
      + |ClaimedBy(input.matcher, input.preseed.ceph, |input.preseed.ceph|, Unpartitioned(input.reported.ceph(q)), find)|
  }

  /** With distinct disk IDs on each system, what the bounds of a filter are compared with is a number of disks. */
  lemma {:induction false} CountsAreDisks(input: Input, order: seq<string>, find: string)
    requires forall q :: q in order ==> input.preseed.FiltersCeph(q) && DistinctIds(input.reported.ceph(q))
    ensures Count(input.AllFinds(order), find) == ClaimedCount(input, order, find)
  {
    if order != [] {
      var front, q := order[..|order| - 1], order[|order| - 1];
      CountsAreDisks(input, front, find);
      KeepDistinct((d: Disk) => d.partitions == 0, input.reported.ceph(q));
      FindsCountFirstMatches(input.matcher, input.preseed.ceph, |input.preseed.ceph|,
                             Unpartitioned(input.reported.ceph(q)), find);
      CountConcat(input.AllFinds(front), input.ChosenFinds(q), find);
    }
  }

  lemma TallyEmpty(log: seq<string>)
    ensures |Tally(log)| == 0 <==> log == []
  {
    if log != [] {
      TallyCounts(log, log[0]);
      assert log[0] in Tally(log);
    }
  }

  lemma AnyCephDisks(input: Input, all: set<string>, order: seq<string>, direct: set<string>)
    requires input.Iterates(order, all)
    requires forall q :: q in direct <==> q in all && input.preseed.DirectCeph(q) != []
    ensures |Tally(input.AllFinds(order))| + |direct| > 0 <==> AnyCeph(input, all)
  {
    TallyEmpty(input.AllFinds(order));
    if direct != {} {
      var q :| q in direct;
      assert AnyCeph(input, all);
    }
    if input.AllFinds(order) != [] {
      var q := FindsFrom(input, order);
      assert AnyCeph(input, all);
    }
    if AnyCeph(input, all) {
      var q :| q in all && (input.preseed.DirectCeph(q) != [] || input.ChosenDisks(q) != []);
      if input.preseed.DirectCeph(q) != [] {
        assert q in direct;
      } else {
        assert q in order;
        SomeFinds(input, order, q);
      }
    }
  }

  lemma {:induction false} LocalFindsFrame(input: Input, order: seq<string>, ks: map<string, nat>, q: string, k: nat)
    requires q !in order
    ensures input.AllLocalFinds(order, ks[q := k]) == input.AllLocalFinds(order, ks)
  {
    if order != [] {
      var front, last := order[..|order| - 1], order[|order| - 1];
      assert order == front + [last] && last in order;
      LocalFindsFrame(input, front, ks, q, k);
    }
  }

  lemma LocalFindsGrow(input: Input, order: seq<string>, ks: map<string, nat>, done: set<string>, q: string, k: nat)
    requires Permutes(order, done) && q !in done && k <= |input.preseed.local|
    ensures Permutes(order + [q], done + {q})
    ensures input.AllLocalFinds(order + [q], ks[q := k]) == input.AllLocalFinds(order, ks)
            + LocalFinds(input.matcher, input.preseed.local, k, Unpartitioned(input.reported.local(q)))
  {
    LocalFindsFrame(input, order, ks, q, k);
    assert (order + [q])[..|order|] == order;
  }

  lemma NamedOnce(p: Preseed, q: string)
    requires p.Valid()
    ensures p.FiltersLocal(q) <==>
            exists j :: 0 <= j < |p.systems| && p.systems[j].name == q && p.systems[j].local == NO_DIRECT
    ensures p.FiltersCeph(q) <==> exists j :: 0 <= j < |p.systems| && p.systems[j].name == q && p.systems[j].ceph == []
  {
    if p.Of(q).Some? {
      var i := p.EntryIs(q, |p.systems|);
    }
    forall j | 0 <= j < |p.systems| && p.systems[j].name == q ensures p.Of(q) == Some(p.systems[j]) {
      p.EntryOf(j, |p.systems|);
    }
  }
}
