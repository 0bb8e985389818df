/**
 The storage part of `Preseed.Parse`: which disks and which storage pools every system gets, from directly given disks
 and from disk filters. Map iteration order is an arbitrary pick, answers of LXD are arbitrary values.
 */
module PreseedStorage {
  import opened Services
  import opened DiskFilters
  import opened Tallies

  datatype Direct = Direct(path: string, wipe: bool, encrypt: bool)

  const NO_DIRECT := Direct("", false, false)

  datatype SystemConfig = SystemConfig(name: string, local: Direct, ceph: seq<Direct>)

  datatype Preseed = Preseed(systems: seq<SystemConfig>, local: seq<Filter>, ceph: seq<Filter>, cephFS: bool) {
    /** `validate` refuses two systems of the same name. */
    ghost predicate Valid() {
      forall i, j :: 0 <= i < j < |systems| ==> systems[i].name != systems[j].name
    }

    /**
     The last entry for `peer`; a system without an entry has no direct disks, but is not left to the filters either.
     */
    function Entry(peer: string, k: nat): Option<SystemConfig>
      requires k <= |systems|
    {
      if k == 0 then None
      else if systems[k - 1].name == peer then Some(systems[k - 1])
      else Entry(peer, k - 1)
    }

    function Of(peer: string): Option<SystemConfig> {
      Entry(peer, |systems|)
    }

    predicate FiltersCeph(peer: string) {
      Of(peer).Some? && Of(peer).value.ceph == []
    }

    predicate FiltersLocal(peer: string) {
      Of(peer).Some? && Of(peer).value.local == NO_DIRECT
    }

    function DirectLocal(peer: string): Direct {
      if Of(peer).Some? then Of(peer).value.local else NO_DIRECT
    }

    function DirectCeph(peer: string): seq<Direct> {
      if Of(peer).Some? then Of(peer).value.ceph else []
    }

    lemma {:induction false} EntryOf(i: nat, k: nat)
      requires Valid() && i < k <= |systems|
      ensures Entry(systems[i].name, k) == Some(systems[i])
    {
      if i < k - 1 { EntryOf(i, k - 1); }
    }

    lemma {:induction false} EntryIs(peer: string, k: nat) returns (i: nat)
      requires k <= |systems| && Entry(peer, k).Some?
      ensures i < k && systems[i] == Entry(peer, k).value && systems[i].name == peer
    {
      if systems[k - 1].name == peer { i := k - 1; } else { i := EntryIs(peer, k - 1); }
    }
  }

  // A pending pool on a system, or a final one on the bootstrap system.
  datatype Pool = PendingLocal(wipe: bool, path: string) | FinalLocal | Remote | RemoteFS

  datatype JoinKey = LocalSource(path: string) | LocalWipe | RemoteFSSource

  datatype System = System(cephDisks: seq<Post>, target: seq<Pool>, final: seq<Pool>, joinConfig: seq<JoinKey>)

  // What Parse knows besides the preseed: whether this is a bootstrap, and whether the system is the local one.
  datatype Mode = Mode(bootstrap: bool, here: bool)

  const FRESH := System([], [], [], [])

  // ---- The effect of each phase on one system ---------------------------------------------------------------------

  function WithLocalDisk(s: System, mode: Mode, wipe: bool, path: string): System {
    if mode.bootstrap then
      s.(target := s.target + [PendingLocal(wipe, path)], final := s.final + if mode.here then [FinalLocal] else [])
    else
      s.(joinConfig := s.joinConfig + [LocalSource(path)] + if wipe then [LocalWipe] else [])
  }

  function DirectPosts(disks: seq<Direct>): (r: seq<Post>)
    ensures |r| == |disks|
  {
    seq(|disks|, i requires 0 <= i < |disks| => Post(disks[i].path, disks[i].wipe, disks[i].encrypt))
  }

  function WithDirect(mode: Mode, local: Direct, ceph: seq<Direct>): System {
    var s := if local.path != "" then WithLocalDisk(FRESH, mode, local.wipe, local.path) else FRESH;
    s.(cephDisks := DirectPosts(ceph))
  }

  /** Hands over filtered disks; the first of them brings the pool, unless it is there already. */
  function WithFiltered(s: System, mode: Mode, posts: seq<Post>, added: bool): System {
    var pool := mode.bootstrap && !added && posts != [];
    s.(cephDisks := s.cephDisks + posts,
       target := s.target + if pool then [Remote] else [],
       final := s.final + if pool && mode.here then [Remote] else [])
  }

  /** The filters before `k` that match some disk add one local disk each: the first that matches. */
  function WithLocalFilters(s: System, mode: Mode, m: Matcher, filters: seq<Filter>, k: nat, disks: seq<Disk>): System
    requires k <= |filters|
  {
    if k == 0 then s
    else
      var before := WithLocalFilters(s, mode, m, filters, k - 1, disks);
      var matched := Matching(m, filters[k - 1], disks);
      if matched == [] then before else WithLocalDisk(before, mode, filters[k - 1].wipe, FormatDiskPath(matched[0]))
  }

  predicate SomeMatch(m: Matcher, filters: seq<Filter>, k: nat, disks: seq<Disk>)
    requires k <= |filters|
  {
    k > 0 && (SomeMatch(m, filters, k - 1, disks) || Matching(m, filters[k - 1], disks) != [])
  }

  function WithRemote(s: System, mode: Mode): System {
    s.(target := s.target + if mode.bootstrap && Remote !in s.target then [Remote] else [],
       final := s.final + if mode.bootstrap && mode.here && Remote !in s.final then [Remote] else [])
  }

  function WithRemoteFS(s: System, mode: Mode, key: bool): System {
    if mode.bootstrap then s.(target := s.target + [RemoteFS], final := s.final + if mode.here then [RemoteFS] else [])
    else s.(joinConfig := s.joinConfig + if key then [RemoteFSSource] else [])
  }

  lemma FilteredTwice(s: System, mode: Mode, added: bool, a: seq<Post>, b: seq<Post>)
    ensures WithFiltered(WithFiltered(s, mode, a, added), mode, b, added || a != [])
            == WithFiltered(s, mode, a + b, added)
  {
    assert s.cephDisks + a + b == s.cephDisks + (a + b);
    assert a == [] ==> a + b == b;
  }

  lemma NothingFiltered(s: System, mode: Mode, added: bool)
    ensures WithFiltered(s, mode, [], added) == s
  {
    assert s.cephDisks + [] == s.cephDisks;
  }

  // ---- The phases on one system -----------------------------------------------------------------------------------

  /** Hands one disk to MicroCeph; there should only be one Ceph pool per system. */
  method AddDisk(post: Post, s: System, mode: Mode, added: bool) returns (ok: bool, s': System)
    ensures ok ==> s' == WithFiltered(s, mode, [post], added)
  {
    s' := s.(cephDisks := s.cephDisks + [post]);
    ok := true;
    if !added && mode.bootstrap {
      ok := *;                    // LXD is asked for its extensions
      if !ok { return; }
      s' := s'.(target := s'.target + [Remote]);
      if mode.here {
        ok := *;
        if !ok { return; }
        s' := s'.(final := s'.final + [Remote]);
      }
    }
  }

  lemma OneMorePost(f: Filter, matched: seq<Disk>, j: nat)
    requires j < |matched|
    ensures Posts(f, matched[..j + 1]) == Posts(f, matched[..j]) + [Post(FormatDiskPath(matched[j]), f.wipe, f.encrypt)]
  {
  }

  /** Hands the disks that one filter matched to MicroCeph and counts them. */
  method AddMatched(f: Filter, matched: seq<Disk>, s: System, mode: Mode, added: bool, counts: map<string, nat>,
                    ghost log: seq<string>) returns (ok: bool, s': System, added': bool, counts': map<string, nat>)
    requires counts == Tally(log)
    ensures ok ==> s' == WithFiltered(s, mode, Posts(f, matched), added) && added' == (added || matched != [])
    ensures ok ==> counts' == Tally(log + Repeat(f.find, |matched|))
  {
    s', added', counts' := s, added, counts;
    NothingFiltered(s, mode, added);
    assert log + [] == log;
    for j := 0 to |matched|
      invariant s' == WithFiltered(s, mode, Posts(f, matched[..j]), added)
      invariant added' == (added || j > 0)
      invariant counts' == Tally(log + Repeat(f.find, j))
    {
      var post := Post(FormatDiskPath(matched[j]), f.wipe, f.encrypt);
      OneMorePost(f, matched, j);
      FilteredTwice(s, mode, added, Posts(f, matched[..j]), [post]);
      ok, s' := AddDisk(post, s', mode, added');
      if !ok { return; }
      added' := true;
      TallyAppend(log + Repeat(f.find, j), f.find);
      assert log + Repeat(f.find, j) + [f.find] == log + Repeat(f.find, j + 1);
      counts' := Bump(counts', f.find);
    }
    assert matched[..|matched|] == matched;
    ok := true;
  }

  /** Applies the Ceph filters, one after the other, to what the earlier ones left of a system's disks. */
  method ApplyCephFilters(m: Matcher, filters: seq<Filter>, all: seq<Disk>, s: System, mode: Mode,
                          counts: map<string, nat>, ghost log: seq<string>)
    returns (ok: bool, s': System, counts': map<string, nat>)
    requires counts == Tally(log)
    ensures ok ==> s' == WithFiltered(s, mode, FilterPosts(m, filters, |filters|, Unpartitioned(all)), false)
    ensures ok ==> counts' == Tally(log + FilterFinds(m, filters, |filters|, Unpartitioned(all)))
  {
    var disks := WithoutPartitions(all);
    ghost var start := disks;
    var added := false;
    s', counts' := s, counts;
    NothingFiltered(s, mode, false);
    assert log + [] == log;
    for k := 0 to |filters|
      invariant disks == Left(m, filters, k, start)
      invariant s' == WithFiltered(s, mode, FilterPosts(m, filters, k, start), false)
      invariant added == (FilterPosts(m, filters, k, start) != [])
      invariant counts' == Tally(log + FilterFinds(m, filters, k, start))
    {
      var matched;
      ok, matched := Match(m, filters[k], disks);
      if !ok { return; }
      FilteredTwice(s, mode, false, FilterPosts(m, filters, k, start), Posts(filters[k], matched));
      ghost var sofar := log + FilterFinds(m, filters, k, start);
      ok, s', added, counts' := AddMatched(filters[k], matched, s', mode, added, counts', sofar);
      if !ok { return; }
      OneMoreFilter(m, filters, k, start, log);
      if |matched| > 0 {
        disks := RemoveMatched(disks, matched);
      } else {
        NothingRemoved(disks);
      }
    }
    ok := true;
  }

  lemma OneMoreFilter(m: Matcher, filters: seq<Filter>, k: nat, disks: seq<Disk>, log: seq<string>)
    requires k < |filters|
    ensures log + FilterFinds(m, filters, k + 1, disks) ==
            log + FilterFinds(m, filters, k, disks) + Repeat(filters[k].find, |ChosenBy(m, filters, k, disks)|)
  {
    var now := Repeat(filters[k].find, |ChosenBy(m, filters, k, disks)|);
    assert FilterFinds(m, filters, k + 1, disks) == FilterFinds(m, filters, k, disks) + now;
  }

  lemma NothingRemoved(disks: seq<Disk>)
    ensures Without(disks, []) == disks
  {
    KeepSame(d => !SharesId(d, []), d => true, disks);
    KeepAll(disks);
  }

  /** The expressions of those of the first `k` filters that match some disk: what one system's local counters count. */
  function LocalFinds(m: Matcher, filters: seq<Filter>, k: nat, disks: seq<Disk>): seq<string>
    requires k <= |filters|
  {
    if k == 0 then []
    else LocalFinds(m, filters, k - 1, disks)
         + if Matching(m, filters[k - 1], disks) != [] then [filters[k - 1].find] else []
  }

  lemma OneMoreFind(m: Matcher, filters: seq<Filter>, k: nat, disks: seq<Disk>, log: seq<string>)
    requires k < |filters|
    ensures var before := log + LocalFinds(m, filters, k, disks);
            Tally(log + LocalFinds(m, filters, k + 1, disks)) ==
            if Matching(m, filters[k], disks) != [] then Bump(Tally(before), filters[k].find) else Tally(before)
  {
    var before := log + LocalFinds(m, filters, k, disks);
    if Matching(m, filters[k], disks) != [] {
      TallyAppend(before, filters[k].find);
      assert log + LocalFinds(m, filters, k + 1, disks) == before + [filters[k].find];
    } else {
      assert log + LocalFinds(m, filters, k + 1, disks) == before;
    }
  }

  // What the local filters have done to one system, the set of systems with a disk, and the counters.
  datatype LocalState = LocalState(system: System, machines: set<string>, counts: map<string, nat>)

  /** One filter gives the system at most one disk. */
  function LocalStep(l: LocalState, mode: Mode, m: Matcher, f: Filter, disks: seq<Disk>, peer: string): LocalState {
    var matched := Matching(m, f, disks);
    if matched == [] then l
    else LocalState(WithLocalDisk(l.system, mode, f.wipe, FormatDiskPath(matched[0])),
                    l.machines + {peer}, Bump(l.counts, f.find))
  }

  /** The state after the first `k` filters. */
  ghost predicate LocalAfter(start: LocalState, mode: Mode, m: Matcher, filters: seq<Filter>, k: nat, disks: seq<Disk>,
                             peer: string, log: seq<string>, l: LocalState)
    requires k <= |filters|
  {
    && l.system == WithLocalFilters(start.system, mode, m, filters, k, disks)
    && l.machines == (if SomeMatch(m, filters, k, disks) then start.machines + {peer} else start.machines)
    && l.counts == Tally(log + LocalFinds(m, filters, k, disks))
  }

  lemma LocalStepAfter(start: LocalState, mode: Mode, m: Matcher, filters: seq<Filter>, k: nat, disks: seq<Disk>,
                       peer: string, log: seq<string>, l: LocalState)
    requires k < |filters| && LocalAfter(start, mode, m, filters, k, disks, peer, log, l)
    ensures LocalAfter(start, mode, m, filters, k + 1, disks, peer, log, LocalStep(l, mode, m, filters[k], disks, peer))
  {
    OneMoreFind(m, filters, k, disks, log);
  }

  /** Applies one local filter. */
  method ApplyLocalFilter(m: Matcher, f: Filter, disks: seq<Disk>, l: LocalState, mode: Mode, peer: string)
    returns (ok: bool, l': LocalState)
    ensures ok ==> l' == LocalStep(l, mode, m, f, disks, peer)
  {
    var matched;
    l' := l;
    ok, matched := Match(m, f, disks);
    if ok && |matched| > 0 {
      l' := LocalState(WithLocalDisk(l.system, mode, f.wipe, FormatDiskPath(matched[0])),
                       l.machines + {peer}, Bump(l.counts, f.find));
    }
  }

  /** Applies the local filters until every system has a local disk; all filters see the same disks. */
  method ApplyLocalFilters(m: Matcher, filters: seq<Filter>, all: seq<Disk>, start: LocalState, mode: Mode,
                           peer: string, systems: nat, ghost log: seq<string>) returns (ok: bool, l: LocalState, k: nat)
    requires start.counts == Tally(log)
    ensures ok ==> k <= |filters| && LocalAfter(start, mode, m, filters, k, Unpartitioned(all), peer, log, l)
    ensures ok ==> k == |filters| || |l.machines| == systems
  {
    var disks := WithoutPartitions(all);
    l, k := start, 0;
    assert log + [] == log;
    while k < |filters|
      invariant 0 <= k <= |filters| && LocalAfter(start, mode, m, filters, k, disks, peer, log, l)
    {
      if |l.machines| == systems { break; }
      LocalStepAfter(start, mode, m, filters, k, disks, peer, log, l);
      ok, l := ApplyLocalFilter(m, filters[k], disks, l, mode, peer);
      if !ok { return; }
      k := k + 1;
    }
    ok := true;
  }

  /** Whether every filter found at least `findMin` and, if `findMax` is positive, at most `findMax` matches. */
  predicate WithinBounds(filters: seq<Filter>, counts: map<string, nat>) {
    forall i :: 0 <= i < |filters| ==>
      && filters[i].findMin <= Get(counts, filters[i].find)
      && (filters[i].findMax > 0 ==> Get(counts, filters[i].find) <= filters[i].findMax)
  }

  method CheckBounds(filters: seq<Filter>, counts: map<string, nat>) returns (ok: bool)
    ensures ok == WithinBounds(filters, counts)
  {
    for i := 0 to |filters|
      invariant WithinBounds(filters[..i], counts)
    {
      assert filters[..i + 1][i] == filters[i];
      if Get(counts, filters[i].find) < filters[i].findMin { return false; }
      if Get(counts, filters[i].find) > filters[i].findMax && filters[i].findMax > 0 { return false; }
    }
    assert filters[..|filters|] == filters;
    ok := true;
  }
}
