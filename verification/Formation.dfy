/**
 Cluster formation: `setupCluster`, `addPeers` and `waitForJoin` for one local node, over clusters that may exist in
 part before the run.

 Map iteration and goroutine order are arbitrary picks (`:|`), answers of remote services are arbitrary values (`*`).
 A join request runs the goroutine machine of `JoinRequest`.
 */
module Formation {
  import opened Services
  import opened FiniteSets
  import JoinRequest

  // The members that a system reports for one service, with their addresses.
  type Record = map<string, string>

  // What every system reports for every service; an absent record is a nil one.
  type Records = map<string, map<Service, Record>>

  predicate Reports(r: Records, p: string, s: Service) {
    p in r && s in r[p]
  }

  function WithRecord(r: Records, p: string, s: Service, record: Record): Records {
    r[p := (if p in r then r[p] else map[])[s := record]]
  }

  // The members of each service's cluster, and the systems that called its Join, once per call.
  type Clusters = PerService<set<string>>
  type Calls = PerService<multiset<string>>

  /** What a run changes outside its own process; `added` holds each system's AddDisk requests in order. */
  datatype World = World(members: Clusters, joins: Calls, added: map<string, seq<Post>>)

  /** What a run starts from: the handler's services, the clusters, and every system with its configured disks. */
  datatype Plan = Plan(services: set<Service>, init: Clusters, disks: map<string, seq<Post>>) {
    /** `p` is to join the service during the run. */
    ghost predicate Owes(p: string, s: Service) {
      s in services && p !in init.Of(s)
    }

    ghost function Missing(p: string): set<Service> {
      set s | s in services && p !in init.Of(s)
    }

    /** `p`'s join request cannot lose disks: it does not join MicroOVN beside MicroCeph, or has no disks. */
    ghost predicate Safe(p: string)
      requires p in disks
    {
      !Owes(p, MicroCeph) || !Owes(p, MicroOVN) || disks[p] == []
    }

    /**
     What `p` has requested by the time it joined: nothing if it does not join MicroCeph, else a prefix of its disks
     that is all of them when `p` is `Safe`.
     */
    ghost predicate Requested(p: string, sent: seq<Post>)
      requires p in disks
    {
      if !Owes(p, MicroCeph) then sent == []
      else sent <= disks[p] && (Safe(p) ==> sent == disks[p])
    }
  }

  /** `Safe` is exact: every other system has a join request that leaves disks out and yet reports success. */
  lemma SafeIff(plan: Plan, p: string)
    requires p in plan.disks
    ensures plan.Safe(p) <==>
            !exists r :: JoinRequest.LeavesDisksOut(plan.Missing(p) - {MicroCloud}, |plan.disks[p]|, r)
  {
    JoinRequest.DisksLeftOutIff(plan.Missing(p) - {MicroCloud}, |plan.disks[p]|);
  }

  function Plus(m: set<string>, grows: bool, p: string): set<string> {
    if grows then m + {p} else m
  }

  function PlusCall(c: multiset<string>, called: bool, p: string): multiset<string> {
    if called then c + multiset{p} else c
  }

  /** The effects of `p`'s join request. */
  function AfterRun(w: World, p: string, disks: seq<Post>, run: JoinRequest.Run): World
    requires p in w.added && run.requested <= |disks|
  {
    var (m, c) := (w.members, w.joins);
    World(
      PerService(Plus(m.cloud, MicroCloud in run.joined, p), Plus(m.ceph, MicroCeph in run.joined, p),
                 Plus(m.ovn, MicroOVN in run.joined, p), Plus(m.lxd, LXD in run.joined, p)),
      PerService(PlusCall(c.cloud, MicroCloud in run.attempted, p), PlusCall(c.ceph, MicroCeph in run.attempted, p),
                 PlusCall(c.ovn, MicroOVN in run.attempted, p), PlusCall(c.lxd, LXD in run.attempted, p)),
      w.added[p := w.added[p] + disks[..run.requested]])
  }

  lemma {:induction false} AfterRunOf(w: World, p: string, disks: seq<Post>, run: JoinRequest.Run, s: Service)
    requires p in w.added && run.requested <= |disks|
    ensures var w' := AfterRun(w, p, disks, run);
            && w'.members.Of(s) == Plus(w.members.Of(s), s in run.joined, p)
            && w'.joins.Of(s) == PlusCall(w.joins.Of(s), s in run.attempted, p)
  {
    match s
    case MicroCloud =>
    case MicroCeph =>
    case MicroOVN =>
    case LXD =>
  }

  /** A record that is not nil names exactly the cluster's members, each with an address; no cluster is unrecorded. */
  ghost predicate RecordsAgree(services: set<Service>, systems: set<string>, r: Records, members: Clusters) {
    && (forall p, s :: p in systems && s in services && Reports(r, p, s) ==>
          r[p][s] != map[] && r[p][s].Keys == members.Of(s) && "" !in r[p][s].Values)
    && (forall s :: s in services && members.Of(s) != {} ==> exists p :: p in systems && Reports(r, p, s))
  }

  lemma BootstrapAgrees(services: set<Service>, systems: set<string>, r: Records, members: Clusters,
                        name: string, address: string, s: Service)
    requires RecordsAgree(services, systems, r, members) && s in services && members.Of(s) == {}
    requires name in systems && address != ""
    ensures RecordsAgree(services, systems, WithRecord(r, name, s, map[name := address]), members.With(s, {name}))
  {
    var r', members' := WithRecord(r, name, s, map[name := address]), members.With(s, {name});
    forall p, t | p in systems && t in services && Reports(r', p, t)
      ensures r'[p][t] != map[] && r'[p][t].Keys == members'.Of(t) && "" !in r'[p][t].Values
    {
      if p == name && t == s {
        assert name in r'[p][t];
      } else {
        assert Reports(r, p, t) && r'[p][t] == r[p][t];
      }
    }
    forall t | t in services && members'.Of(t) != {} ensures exists p :: p in systems && Reports(r', p, t) {
      if t == s {
        assert Reports(r', name, s);
      } else {
        var p :| p in systems && Reports(r, p, t);
        assert Reports(r', p, t);
      }
    }
  }

  /** The services in `done` have been bootstrapped on the local node where no cluster existed before. */
  ghost predicate Initialized(name: string, done: set<Service>, before: World, was: Records, w: World, r: Records) {
    && w.joins == before.joins && w.added == before.added
    && (forall s :: w.members.Of(s) == if s in done && before.members.Of(s) == {} then {name} else before.members.Of(s))
    && (forall p, s :: Reports(was, p, s) ==> Reports(r, p, s))
    && (forall s :: s in done && before.members.Of(s) == {} ==> Reports(r, name, s))
  }

  lemma InitializedOneMore(name: string, address: string, done: set<Service>, before: World, was: Records, w: World,
                           r: Records, s: Service)
    requires Initialized(name, done, before, was, w, r) && s !in done
    ensures if before.members.Of(s) != {} then Initialized(name, done + {s}, before, was, w, r)
            else Initialized(name, done + {s}, before, was, w.(members := w.members.With(s, {name})),
                             WithRecord(r, name, s, map[name := address]))
  {
    var r' := WithRecord(r, name, s, map[name := address]);
    assert forall p, t :: Reports(r, p, t) ==> Reports(r', p, t);
    assert Reports(r', name, s);
  }

  /** The services that are initialized between MicroCloud and LXD. */
  function Middle(services: set<Service>): set<Service> {
    services - {MicroCloud, LXD}
  }

  lemma AllStages(services: set<Service>)
    requires MicroCloud in services && LXD in services
    ensures {MicroCloud} + Middle(services) + {LXD} == services && LXD !in {MicroCloud} + Middle(services)
  {
  }

  /** The clusters once every missing one has been bootstrapped on the local node. */
  function Booted(m: Clusters, services: set<Service>, name: string): (r: Clusters)
    ensures forall s :: r.Of(s) == if s in services && m.Of(s) == {} then {name} else m.Of(s)
  {
    PerService(if MicroCloud in services && m.cloud == {} then {name} else m.cloud,
               if MicroCeph in services && m.ceph == {} then {name} else m.ceph,
               if MicroOVN in services && m.ovn == {} then {name} else m.ovn,
               if LXD in services && m.lxd == {} then {name} else m.lxd)
  }

  lemma SamePerService<T>(a: PerService<T>, b: PerService<T>)
    requires forall s :: a.Of(s) == b.Of(s)
    ensures a == b
  {
    assert a.Of(MicroCloud) == b.Of(MicroCloud) && a.Of(MicroCeph) == b.Of(MicroCeph);
    assert a.Of(MicroOVN) == b.Of(MicroOVN) && a.Of(LXD) == b.Of(LXD);
  }

  // ---- How far a run has come -------------------------------------------------------------------------------------

  /** One cluster has grown by exactly the systems `arrived`; exactly the missing ones called Join, once each. */
  ghost predicate GrownBy(init: set<string>, arrived: set<string>, members: set<string>, joins: multiset<string>) {
    members == init + arrived && forall p :: joins[p] == if p in arrived && p !in init then 1 else 0
  }

  function Arrived(s: Service, cloud: set<string>, rest: set<string>): set<string> {
    if s == MicroCloud then cloud else rest
  }

  /** The systems in `cloud` have joined MicroCloud, and those in `rest` all other services, requesting their disks. */
  ghost predicate Progress(plan: Plan, cloud: set<string>, rest: set<string>, w: World) {
    && cloud <= plan.disks.Keys == w.added.Keys && rest <= plan.disks.Keys
    && (forall s :: s in plan.services ==>
         GrownBy(plan.init.Of(s), Arrived(s, cloud, rest), w.members.Of(s), w.joins.Of(s)))
    && DisksAsked(plan, rest, w.added)
  }

  ghost predicate DisksAsked(plan: Plan, rest: set<string>, added: map<string, seq<Post>>)
    requires rest <= plan.disks.Keys == added.Keys
  {
    && (forall p :: p in rest ==> plan.Requested(p, added[p]))
    && (forall p :: p in added && p !in rest ==> added[p] == [])
  }

  /** No system called this service's Join without owing it, or twice. */
  ghost predicate Once(init: set<string>, all: set<string>, joins: multiset<string>) {
    forall p :: joins[p] <= if p in all && p !in init then 1 else 0
  }

  ghost predicate AtMostOnce(plan: Plan, w: World) {
    forall s :: s in plan.services ==> Once(plan.init.Of(s), plan.disks.Keys, w.joins.Of(s))
  }

  lemma GrowByOne(init: set<string>, arrived: set<string>, members: set<string>, joins: multiset<string>, p: string,
                  owes: bool)
    requires GrownBy(init, arrived, members, joins) && p !in arrived && owes == (p !in init)
    ensures GrownBy(init, arrived + {p}, Plus(members, owes, p), PlusCall(joins, owes, p))
  {
  }

  lemma ProgressIsOnce(plan: Plan, cloud: set<string>, rest: set<string>, w: World)
    requires Progress(plan, cloud, rest, w)
    ensures AtMostOnce(plan, w)
  {
    forall s | s in plan.services ensures Once(plan.init.Of(s), plan.disks.Keys, w.joins.Of(s)) {
      assert GrownBy(plan.init.Of(s), Arrived(s, cloud, rest), w.members.Of(s), w.joins.Of(s));
    }
  }

  /** The next system joins what it owes: MicroCloud first, everything else later. */
  ghost predicate NextStep(plan: Plan, cloud: set<string>, rest: set<string>, p: string, tokens: set<Service>,
                           cloud': set<string>, rest': set<string>)
  {
    && p in plan.disks
    && if p !in cloud then cloud' == cloud + {p} && rest' == rest && tokens == plan.Missing(p) * {MicroCloud}
       else p !in rest && cloud' == cloud && rest' == rest + {p} && tokens == plan.Missing(p) - {MicroCloud}
  }

  /** Cut off anywhere, the request has called every Join at most once. */
  lemma CutOff(plan: Plan, cloud: set<string>, rest: set<string>, w: World, p: string, tokens: set<Service>,
               cloud': set<string>, rest': set<string>, run: JoinRequest.Run)
    requires Progress(plan, cloud, rest, w) && NextStep(plan, cloud, rest, p, tokens, cloud', rest')
    requires run.attempted <= tokens && run.requested <= |plan.disks[p]|
    ensures AtMostOnce(plan, AfterRun(w, p, plan.disks[p], run))
  {
    var w' := AfterRun(w, p, plan.disks[p], run);
    forall s | s in plan.services ensures Once(plan.init.Of(s), plan.disks.Keys, w'.joins.Of(s)) {
      AfterRunOf(w, p, plan.disks[p], run, s);
      assert GrownBy(plan.init.Of(s), Arrived(s, cloud, rest), w.members.Of(s), w.joins.Of(s));
    }
  }

  /** Seen through to the end, it takes the run one step further. */
  lemma StepForward(plan: Plan, cloud: set<string>, rest: set<string>, w: World, p: string, tokens: set<Service>,
                    cloud': set<string>, rest': set<string>, run: JoinRequest.Run)
    requires Progress(plan, cloud, rest, w) && NextStep(plan, cloud, rest, p, tokens, cloud', rest')
    requires run.attempted == run.joined == tokens && run.requested <= |plan.disks[p]|
    requires if p in rest' && p !in rest then plan.Requested(p, plan.disks[p][..run.requested]) else run.requested == 0
    ensures Progress(plan, cloud', rest', AfterRun(w, p, plan.disks[p], run))
  {
    forall s | s in plan.services
      ensures var w' := AfterRun(w, p, plan.disks[p], run);
              GrownBy(plan.init.Of(s), Arrived(s, cloud', rest'), w'.members.Of(s), w'.joins.Of(s))
    {
      ClusterForward(plan, cloud, rest, w, p, tokens, cloud', rest', run, s);
    }
    DisksForward(plan, rest, rest', w.added, p, run.requested);
  }

  lemma DisksForward(plan: Plan, rest: set<string>, rest': set<string>, added: map<string, seq<Post>>, p: string,
                     n: nat)
    requires rest <= plan.disks.Keys == added.Keys && DisksAsked(plan, rest, added)
    requires p in plan.disks && n <= |plan.disks[p]| && (rest' == rest || (p !in rest && rest' == rest + {p}))
    requires if p in rest' && p !in rest then plan.Requested(p, plan.disks[p][..n]) else n == 0
    ensures DisksAsked(plan, rest', added[p := added[p] + plan.disks[p][..n]])
  {
    assert added[p] + plan.disks[p][..0] == added[p];
    assert p !in rest ==> added[p] + plan.disks[p][..n] == plan.disks[p][..n];
  }

  lemma ClusterForward(plan: Plan, cloud: set<string>, rest: set<string>, w: World, p: string, tokens: set<Service>,
                       cloud': set<string>, rest': set<string>, run: JoinRequest.Run, s: Service)
    requires Progress(plan, cloud, rest, w) && NextStep(plan, cloud, rest, p, tokens, cloud', rest')
    requires run.attempted == run.joined == tokens && run.requested <= |plan.disks[p]| && s in plan.services
    ensures var w' := AfterRun(w, p, plan.disks[p], run);
            GrownBy(plan.init.Of(s), Arrived(s, cloud', rest'), w'.members.Of(s), w'.joins.Of(s))
  {
    AfterRunOf(w, p, plan.disks[p], run, s);
    if Arrived(s, cloud', rest') != Arrived(s, cloud, rest) {
      GrowByOne(plan.init.Of(s), Arrived(s, cloud, rest), w.members.Of(s), w.joins.Of(s), p, s in tokens);
    }
  }

  /** The next system is outside the services it owes, and the local node, if it is another one, inside. */
  lemma StillOutside(plan: Plan, cloud: set<string>, rest: set<string>, w: World, p: string, tokens: set<Service>,
                     cloud': set<string>, rest': set<string>, name: string)
    requires Progress(plan, cloud, rest, w) && NextStep(plan, cloud, rest, p, tokens, cloud', rest')
    requires p != name ==> forall s :: s in tokens ==> name in plan.init.Of(s) + Arrived(s, cloud, rest)
    ensures forall s :: s in tokens ==> p !in w.members.Of(s) && (p != name ==> name in w.members.Of(s))
  {
    forall s | s in tokens ensures p !in w.members.Of(s) && (p != name ==> name in w.members.Of(s)) {
      assert GrownBy(plan.init.Of(s), Arrived(s, cloud, rest), w.members.Of(s), w.joins.Of(s));
    }
  }

  /** A join request that brought its system into all services requested the disks that the plan asks for. */
  lemma AllRequested(plan: Plan, cloud: set<string>, rest: set<string>, p: string, tokens: set<Service>,
                     cloud': set<string>, rest': set<string>, run: JoinRequest.Run)
    requires NextStep(plan, cloud, rest, p, tokens, cloud', rest')
    requires JoinRequest.Outcome(tokens, |plan.disks[p]|, run, true) && run.joined == tokens
    ensures if p in rest' && p !in rest then plan.Requested(p, plan.disks[p][..run.requested]) else run.requested == 0
  {
  }

  lemma NothingOwed(plan: Plan, cloud: set<string>, rest: set<string>, w: World, p: string,
                    cloud': set<string>, rest': set<string>)
    requires Progress(plan, cloud, rest, w) && NextStep(plan, cloud, rest, p, {}, cloud', rest')
    ensures Progress(plan, cloud', rest', w)
  {
    var idle := JoinRequest.Start({});
    assert plan.Owes(p, MicroCeph) ==> MicroCeph in plan.Missing(p);
    StepForward(plan, cloud, rest, w, p, {}, cloud', rest', idle);
    assert w.added[p] + plan.disks[p][..0] == w.added[p];
    assert AfterRun(w, p, plan.disks[p], idle) == w;
  }

  /** No Join has been called and no disk requested. */
  ghost predicate Untouched(services: set<Service>, disks: map<string, seq<Post>>, w: World) {
    && w.added.Keys == disks.Keys && (forall p :: p in disks ==> w.added[p] == [])
    && (forall s :: s in services ==> w.joins.Of(s) == multiset{})
  }

  lemma StartsUntouched(plan: Plan, w: World)
    requires Untouched(plan.services, plan.disks, w)
    ensures AtMostOnce(plan, w)
    ensures w.members == plan.init ==> Progress(plan, {}, {}, w)
  {
  }

  /** Every system is in every service by exactly the joins it owed, and has requested its disks. */
  ghost predicate Formed(plan: Plan, w: World) {
    && (forall s :: s in plan.services ==> GrownBy(plan.init.Of(s), plan.disks.Keys, w.members.Of(s), w.joins.Of(s)))
    && w.added.Keys == plan.disks.Keys
    && (forall p :: p in plan.disks ==>
         if MicroCeph !in plan.services then w.added[p] == []
         else w.added[p] <= plan.disks[p] && (plan.Safe(p) ==> w.added[p] == plan.disks[p]))
  }

  lemma FormedAtLast(plan: Plan, w: World, recorded: set<string>, w': World)
    requires Progress(plan, plan.disks.Keys, plan.disks.Keys, w)
    requires recorded == if MicroCeph in plan.services then plan.init.ceph else {}
    requires w'.members == w.members && w'.joins == w.joins && w'.added.Keys == plan.disks.Keys
    requires forall p :: p in plan.disks ==> w'.added[p] == w.added[p] + if p in recorded then plan.disks[p] else []
    ensures Formed(plan, w')
  {
    forall s | s in plan.services
      ensures GrownBy(plan.init.Of(s), plan.disks.Keys, w'.members.Of(s), w'.joins.Of(s))
    {
      assert Arrived(s, plan.disks.Keys, plan.disks.Keys) == plan.disks.Keys;
    }
    forall p | p in plan.disks ensures plan.Requested(p, w.added[p]) { }
  }

  /** The counters of `tokens` outside `clustered` are up to date, all others are as in `was`. */
  ghost predicate Counted(peer: string, tokens: set<Service>, clustered: set<Service>, before: Clusters,
                          after: Clusters, was: PerService<int>, now: PerService<int>)
  {
    && clustered <= tokens
    && (forall s :: s in tokens && s !in clustered ==> after.Of(s) == before.Of(s) + {peer})
    && (forall s :: now.Of(s) == if s in tokens && s !in clustered then |after.Of(s)| else was.Of(s))
  }

  lemma OneMoreCounted(peer: string, tokens: set<Service>, clustered: set<Service>, before: Clusters, after: Clusters,
                       was: PerService<int>, now: PerService<int>, s: Service)
    requires Counted(peer, tokens, clustered, before, after, was, now)
    requires s in clustered && after.Of(s) == before.Of(s) + {peer}
    ensures Counted(peer, tokens, clustered - {s}, before, after, was, now.With(s, |after.Of(s)|))
  {
  }

  predicate NoDuplicates(tokens: seq<Service>) {
    forall i, j :: 0 <= i < j < |tokens| ==> tokens[i] != tokens[j]
  }

  function Elements(tokens: seq<Service>): set<Service> {
    set s | s in tokens
  }

  class Setup {
    const name: string                          // the local node
    const address: string
    const services: set<Service>                // the handler's services
    const disks: map<string, seq<Post>>         // every system of the run and its MicroCeph disks

    var existing: Records   // what each system reports; an absent entry is a nil record
    var clusterSize: PerService<int>
    var world: World
    ghost var blindPolls: nat                   // polls for a remote join while the local node is no member

    /** What a run starts from: nothing has been joined or requested, and nobody has been polled. */
    constructor (name: string, address: string, services: set<Service>, disks: map<string, seq<Post>>, existing: Records,
                 members: Clusters)
      ensures this.name == name && this.address == address && this.services == services && this.disks == disks
      ensures this.existing == existing && world.members == members && Untouched(services, disks, world)
              && blindPolls == 0
    {
      this.name, this.address, this.services, this.disks, this.existing := name, address, services, disks, existing;
      var none: multiset<string> := multiset{};
      world := World(members, PerService(none, none, none, none), map p | p in disks :: []);
      clusterSize := PerService(0, 0, 0, 0);
      blindPolls := 0;
    }

    /** All counters are true member counts. */
    ghost predicate Synced()
      reads this`world, this`clusterSize
    {
      forall s :: s in services ==> clusterSize.Of(s) == |world.members.Of(s)|
    }

    /** Sends the join request and returns its report; the caller may give up on the request anywhere in its run. */
    method RequestJoin(peer: string, tokens: set<Service>) returns (ok: bool, ghost run: JoinRequest.Run)
      requires peer in disks && peer in world.added
      modifies this`world
      ensures JoinRequest.Outcome(tokens, |disks[peer]|, run, ok)
      ensures world == AfterRun(old(world), peer, disks[peer], run)
    {
      var r;
      ok, r := JoinRequest.SomeRun(tokens, |disks[peer]|);
      run := r;
      world := AfterRun(world, peer, disks[peer], r);
    }

    /** Asks the local node for a service's members; the answer may be stale. */
    method ClusterMembers(s: Service, ghost peer: string) returns (answer: Option<set<string>>)
      modifies this`blindPolls
      ensures answer.Some? ==> answer.value <= world.members.Of(s)
      ensures blindPolls == old(blindPolls) + if peer != name && name !in world.members.Of(s) then 1 else 0
    {
      var members := world.members.Of(s);
      if name !in members {
        if peer != name { blindPolls := blindPolls + 1; }
        return None;
      }
      var reachable: bool := *;
      var view: set<string> := *;
      answer := if reachable then Some(view * members) else None;
    }

    /** Polls one service; a view one member larger than the counter moves the counter. */
    method PollOnce(s: Service, peer: string, ghost before: set<string>) returns (ok: bool, seen: bool)
      requires before <= world.members.Of(s) <= before + {peer} && clusterSize.Of(s) == |before| && peer !in before
      requires peer != name ==> name in world.members.Of(s)
      modifies this`clusterSize, this`blindPolls
      ensures blindPolls == old(blindPolls)
      ensures ok && seen ==>
                world.members.Of(s) == before + {peer} && clusterSize == old(clusterSize).With(s, |world.members.Of(s)|)
      ensures !(ok && seen) ==> clusterSize == old(clusterSize)
    {
      var systems := ClusterMembers(s, peer);
      if systems == None { return false, false; }
      if |systems.value| != clusterSize.Of(s) + 1 { return true, false; }
      SubsetSize(systems.value, world.members.Of(s));
      SubsetSize(world.members.Of(s), before + {peer});
      clusterSize := clusterSize.With(s, clusterSize.Of(s) + 1);
      return true, true;
    }

    /** Polls the clusters until each shows one member more than its counter, or gives up. */
    method PollGrowth(peer: string, tokens: set<Service>, ghost before: Clusters) returns (ok: bool)
      requires forall s :: s in tokens ==>
                 && before.Of(s) <= world.members.Of(s) <= before.Of(s) + {peer}
                 && peer !in before.Of(s) && clusterSize.Of(s) == |before.Of(s)|
      requires peer != name ==> forall s :: s in tokens ==> name in world.members.Of(s)
      modifies this`clusterSize, this`blindPolls
      ensures blindPolls == old(blindPolls)
      ensures ok ==> Counted(peer, tokens, {}, before, world.members, old(clusterSize), clusterSize)
    {
      var clustered := tokens;
      var rounds: nat := *;
      while clustered != {}
        invariant blindPolls == old(blindPolls)
                  && Counted(peer, tokens, clustered, before, world.members, old(clusterSize), clusterSize)
        decreases rounds
      {
        if rounds == 0 { return false; }
        rounds := rounds - 1;
        var todo := clustered;
        while todo != {}
          invariant todo <= clustered
          invariant blindPolls == old(blindPolls)
                    && Counted(peer, tokens, clustered, before, world.members, old(clusterSize), clusterSize)
        {
          var s :| s in todo;
          todo := todo - {s};
          ghost var counted := clusterSize;
          var reached, seen := PollOnce(s, peer, before.Of(s));
          if !reached { return false; }
          if seen {
            OneMoreCounted(peer, tokens, clustered, before, world.members, old(clusterSize), counted, s);
            clustered := clustered - {s};
          }
        }
      }
      return true;
    }

    /** Once polling succeeds, every service of the request was joined and all counters are true again. */
    method AwaitGrowth(peer: string, tokens: set<Service>, ghost before: Clusters, ghost joined: set<Service>)
      returns (ok: bool)
      requires joined <= tokens <= services
      requires forall s :: world.members.Of(s) == before.Of(s) + if s in joined then {peer} else {}
      requires forall s :: s in services ==> clusterSize.Of(s) == |before.Of(s)|
      requires forall s :: s in tokens ==> peer !in before.Of(s) && (peer != name ==> name in before.Of(s))
      modifies this`clusterSize, this`blindPolls
      ensures blindPolls == old(blindPolls)
      ensures ok ==> Synced() && joined == tokens
    {
      ok := PollGrowth(peer, tokens, before);
      if ok {
        forall s | s in tokens ensures s in joined { assert peer in world.members.Of(s); }
      }
    }

    /** Requests the join and waits until the clusters have grown; `run` is what the joiner did. */
    method WaitForJoin(peer: string, tokens: set<Service>) returns (ok: bool, ghost run: JoinRequest.Run)
      requires Synced() && peer in disks && peer in world.added && tokens <= services
      requires forall s :: s in tokens ==> peer !in world.members.Of(s) && (peer != name ==> name in world.members.Of(s))
      modifies this`world, this`clusterSize, this`blindPolls
      ensures blindPolls == old(blindPolls)
      ensures JoinRequest.Outcome(tokens, |disks[peer]|, run, ok)
              && world == AfterRun(old(world), peer, disks[peer], run)
      ensures ok ==> Synced() && run.joined == tokens
    {
      ok, run := RequestJoin(peer, tokens);
      if !ok { return; }
      forall s ensures world.members.Of(s) == old(world).members.Of(s) + if s in run.joined then {peer} else {} {
        AfterRunOf(old(world), peer, disks[peer], run, s);
      }
      ok := AwaitGrowth(peer, tokens, old(world).members, run.joined);
    }

    /** One system takes its next step of the plan, if it owes one. */
    method Advance(p: string, tokens: set<Service>, ghost plan: Plan, ghost cloud: set<string>, ghost rest: set<string>,
                   ghost cloud': set<string>, ghost rest': set<string>) returns (ok: bool)
      requires plan.services == services && plan.disks == disks
      requires Synced() && Progress(plan, cloud, rest, world) && NextStep(plan, cloud, rest, p, tokens, cloud', rest')
      requires p != name ==> forall s :: s in tokens ==> name in plan.init.Of(s) + Arrived(s, cloud, rest)
      modifies this`world, this`clusterSize, this`blindPolls
      ensures blindPolls == old(blindPolls) && AtMostOnce(plan, world)
      ensures ok ==> Synced() && Progress(plan, cloud', rest', world)
    {
      StillOutside(plan, cloud, rest, world, p, tokens, cloud', rest', name);
      ghost var run;
      ok, run := WaitForJoin(p, tokens);
      CutOff(plan, cloud, rest, old(world), p, tokens, cloud', rest', run);
      if ok {
        AllRequested(plan, cloud, rest, p, tokens, cloud', rest', run);
        StepForward(plan, cloud, rest, old(world), p, tokens, cloud', rest', run);
      }
    }

    method JoinCloudOnce(p: string, cloud: Record, ghost plan: Plan, ghost done: set<string>) returns (ok: bool)
      requires plan.services == services && plan.disks == disks && MicroCloud in services && p in disks
      requires Synced() && Progress(plan, done, {}, world) && p !in done
      requires cloud.Keys == plan.init.cloud && "" !in cloud.Values && name in cloud
      modifies this`world, this`clusterSize, this`blindPolls
      ensures blindPolls == old(blindPolls) && AtMostOnce(plan, world)
      ensures ok ==> Synced() && Progress(plan, done + {p}, {}, world)
    {
      ProgressIsOnce(plan, done, {}, world);
      if p == name || (p in cloud && cloud[p] != "") {
        NothingOwed(plan, done, {}, world, p, done + {p}, {});
        return true;
      }
      var issued: bool := *;
      if !issued { return false; }
      ok := Advance(p, {MicroCloud}, plan, done, {}, done + {p}, {});
    }

    /** First every system outside MicroCloud joins it, one after the other. */
    method JoinCloud(cloud: Record, ghost plan: Plan) returns (ok: bool)
      requires plan.services == services && plan.disks == disks && MicroCloud in services
      requires Synced() && Progress(plan, {}, {}, world)
      requires cloud.Keys == plan.init.cloud && "" !in cloud.Values && name in cloud
      modifies this`world, this`clusterSize, this`blindPolls
      ensures blindPolls == old(blindPolls) && AtMostOnce(plan, world)
      ensures ok ==> Synced() && Progress(plan, disks.Keys, {}, world)
    {
      ProgressIsOnce(plan, {}, {}, world);
      var done: set<string> := {};
      while done != disks.Keys
        invariant blindPolls == old(blindPolls) && AtMostOnce(plan, world)
        invariant Synced() && Progress(plan, done, {}, world)
        decreases disks.Keys - done
      {
        var p :| p in disks && p !in done;
        ok := JoinCloudOnce(p, cloud, plan, done);
        if !ok { return; }
        done := done + {p};
      }
      return true;
    }

    /** Issues `p`'s tokens, one goroutine per service; each appends its token under the mutex. */
    method IssueTokens(p: string, records: PerService<Record>,
                       ghost plan: Plan) returns (ok: bool, tokens: seq<Service>)
      requires plan.services == services
      requires forall s :: s in services ==> records.Of(s).Keys == plan.init.Of(s) && "" !in records.Of(s).Values
      ensures ok ==> NoDuplicates(tokens) && Elements(tokens) == plan.Missing(p) - {MicroCloud}
    {
      tokens, ok := [], true;
      var todo := services;
      while todo != {}
        invariant todo <= services && NoDuplicates(tokens) && Elements(tokens) <= services - todo
        invariant ok ==> forall s :: s in services - todo ==> (s in tokens <==> s != MicroCloud && p !in plan.init.Of(s))
      {
        var s :| s in todo;
        todo := todo - {s};
        var record := records.Of(s);
        if s != MicroCloud && (p !in record || record[p] == "") {
          var issued: bool := *;
          if issued {
            assert s !in Elements(tokens) && Elements(tokens + [s]) == Elements(tokens) + {s};
            tokens := tokens + [s];
          } else {
            ok := false;
          }
        }
      }
    }

    /** Then the local node joins the rest, so that it can watch, and after it every other system. */
    method JoinRest(joinConfig: map<string, seq<Service>>, ghost plan: Plan) returns (ok: bool)
      requires plan.services == services && plan.disks == disks && name in disks
      requires Synced() && Progress(plan, disks.Keys, {}, world)
      requires joinConfig.Keys == disks.Keys
      requires forall p :: p in disks ==> Elements(joinConfig[p]) == plan.Missing(p) - {MicroCloud}
      modifies this`world, this`clusterSize, this`blindPolls
      ensures blindPolls == old(blindPolls) && AtMostOnce(plan, world)
      ensures ok ==> Synced() && Progress(plan, disks.Keys, disks.Keys, world)
    {
      ok := JoinRestOnce(name, Elements(joinConfig[name]), plan, {});
      if !ok { return; }
      var done := {} + {name};
      while done != disks.Keys
        invariant name in done && blindPolls == old(blindPolls) && AtMostOnce(plan, world)
        invariant Synced() && Progress(plan, disks.Keys, done, world)
        decreases disks.Keys - done
      {
        var p :| p in disks && p !in done;
        ok := JoinRestOnce(p, Elements(joinConfig[p]), plan, done);
        if !ok { return; }
        done := done + {p};
      }
      return true;
    }

    method JoinRestOnce(p: string, tokens: set<Service>, ghost plan: Plan, ghost done: set<string>) returns (ok: bool)
      requires plan.services == services && plan.disks == disks && p in disks
      requires Synced() && Progress(plan, disks.Keys, done, world)
      requires tokens == plan.Missing(p) - {MicroCloud} && p !in done && (p != name ==> name in done)
      modifies this`world, this`clusterSize, this`blindPolls
      ensures blindPolls == old(blindPolls) && AtMostOnce(plan, world)
      ensures ok ==> Synced() && Progress(plan, disks.Keys, done + {p}, world)
    {
      if tokens == {} {
        NothingOwed(plan, disks.Keys, done, world, p, disks.Keys, done + {p});
        ProgressIsOnce(plan, disks.Keys, done + {p}, world);
        return true;
      }
      ok := Advance(p, tokens, plan, disks.Keys, done, disks.Keys, done + {p});
    }

    /** Picks, for each service, some system that reports a cluster for it, with the cluster it reports. */
    method PickRecords() returns (holder: map<Service, string>, records: PerService<Record>)
      ensures forall s :: s in holder ==>
                s in services && holder[s] in disks && Reports(existing, holder[s], s)
                && records.Of(s) == existing[holder[s]][s]
      ensures forall s, p :: s in services && s !in holder && p in disks ==> !Reports(existing, p, s)
    {
      holder, records := map[], PerService(map[], map[], map[], map[]);
      var todo := services;
      while todo != {}
        invariant todo <= services
        invariant forall s :: s in holder ==>
                    && s in services - todo && holder[s] in disks && Reports(existing, holder[s], s)
                    && records.Of(s) == existing[holder[s]][s]
        invariant forall s, p :: s in services - todo && s !in holder && p in disks ==> !Reports(existing, p, s)
      {
        var s :| s in todo;
        todo := todo - {s};
        var peers := disks.Keys;
        while peers != {}
          invariant peers <= disks.Keys
          invariant forall p :: p in disks.Keys - peers ==> !Reports(existing, p, s)
        {
          var p :| p in peers;
          peers := peers - {p};
          if Reports(existing, p, s) {
            holder := holder[s := p];
            records := records.With(s, existing[p][s]);
            break;
          }
        }
      }
    }

    /** Sets the counters to the sizes of the existing clusters. */
    method CountMembers(records: PerService<Record>)
      requires forall s :: s in services ==> records.Of(s).Keys == world.members.Of(s)
      modifies this`clusterSize
      ensures Synced()
    {
      var todo := services;
      while todo != {}
        invariant todo <= services
        invariant forall s :: s in services - todo ==> clusterSize.Of(s) == |world.members.Of(s)|
      {
        var s :| s in todo;
        todo := todo - {s};
        assert |records.Of(s)| == |records.Of(s).Keys|;
        clusterSize := clusterSize.With(s, |records.Of(s)|);
      }
    }

    /** Reads the existing clusters off the records. */
    method CollectRecords() returns (records: PerService<Record>)
      requires RecordsAgree(services, disks.Keys, existing, world.members)
      requires forall s :: s in services ==> world.members.Of(s) != {}
      modifies this`clusterSize
      ensures forall s :: s in services ==> records.Of(s).Keys == world.members.Of(s) && "" !in records.Of(s).Values
      ensures Synced()
    {
      var holder;
      holder, records := PickRecords();
      forall s | s in services ensures s in holder {
        var p :| p in disks && Reports(existing, p, s);
      }
      CountMembers(records);
    }

    /** Issues the tokens of every system, one system after the other. */
    method PlanTokens(records: PerService<Record>,
                      ghost plan: Plan) returns (ok: bool, joinConfig: map<string, seq<Service>>)
      requires plan.services == services
      requires forall s :: s in services ==> records.Of(s).Keys == plan.init.Of(s) && "" !in records.Of(s).Values
      ensures ok ==> joinConfig.Keys == disks.Keys
      ensures ok ==> forall p :: p in disks ==> Elements(joinConfig[p]) == plan.Missing(p) - {MicroCloud}
    {
      joinConfig := map[];
      while joinConfig.Keys != disks.Keys
        invariant joinConfig.Keys <= disks.Keys
        invariant forall p :: p in joinConfig ==> Elements(joinConfig[p]) == plan.Missing(p) - {MicroCloud}
        decreases disks.Keys - joinConfig.Keys
      {
        var p :| p in disks && p !in joinConfig;
        var tokens;
        ok, tokens := IssueTokens(p, records, plan);
        if !ok { return; }
        assert joinConfig[p := tokens].Keys == joinConfig.Keys + {p};
        joinConfig := joinConfig[p := tokens];
      }
      ok := true;
    }

    /** Lets every system join the services it is not a member of. */
    method AddPeers(ghost plan: Plan) returns (ok: bool)
      requires plan == Plan(services, world.members, disks) && Progress(plan, {}, {}, world)
      requires RecordsAgree(services, disks.Keys, existing, world.members)
      requires MicroCloud in services && name in disks && name in world.members.cloud
      requires forall s :: s in services ==> world.members.Of(s) != {}
      modifies this`world, this`clusterSize, this`blindPolls
      ensures blindPolls == old(blindPolls) && AtMostOnce(plan, world)
      ensures ok ==> Synced() && Progress(plan, disks.Keys, disks.Keys, world)
    {
      var records := CollectRecords();
      assert records.Of(MicroCloud).Keys == plan.init.Of(MicroCloud);
      ok := JoinCloud(records.cloud, plan);
      if !ok { return; }
      var joinConfig;
      ok, joinConfig := PlanTokens(records, plan);
      if !ok { return; }
      ok := JoinRest(joinConfig, plan);
    }

    /**
     Bootstraps one service on the local node unless some system already reports a cluster. A failure, which may have
     taken effect, leaves the records as they are; `sound` tells whether nothing has failed before.
     */
    method BootstrapOne(s: Service, holder: map<Service, string>, ghost sound: bool, ghost done: set<Service>,
                        ghost before: World, ghost was: Records) returns (ok: bool)
      requires sound ==> RecordsAgree(services, disks.Keys, existing, world.members)
      requires sound ==> Initialized(name, done, before, was, world, existing)
      requires s in services && s !in done && name in disks && address != ""
               && (s in holder <==> before.members.Of(s) != {})
      modifies this`world, this`existing
      ensures world.joins == old(world).joins && world.added == old(world).added
      ensures !ok ==> existing == old(existing)
      ensures sound && ok ==> RecordsAgree(services, disks.Keys, existing, world.members)
      ensures sound && ok ==> Initialized(name, done + {s}, before, was, world, existing)
    {
      if sound { InitializedOneMore(name, address, done, before, was, world, existing, s); }
      if s in holder { return true; }
      var answer: Answer := *;
      ok := answer.Succeeds?;
      if sound && ok { BootstrapAgrees(services, disks.Keys, existing, world.members, name, address, s); }
      if answer.TakesEffect() { world := world.(members := world.members.With(s, {name})); }
      if ok { existing := WithRecord(existing, name, s, map[name := address]); }
    }

    /** The services between MicroCloud and LXD are bootstrapped in any order; one failure does not stop the others. */
    method InitMiddle(holder: map<Service, string>, ghost before: World, ghost was: Records) returns (ok: bool)
      requires RecordsAgree(services, disks.Keys, existing, world.members) && name in disks && address != ""
      requires Initialized(name, {MicroCloud}, before, was, world, existing)
      requires forall s :: s in services ==> (s in holder <==> before.members.Of(s) != {})
      modifies this`world, this`existing
      ensures world.joins == before.joins && world.added == before.added
      ensures ok ==> RecordsAgree(services, disks.Keys, existing, world.members)
      ensures ok ==> Initialized(name, {MicroCloud} + Middle(services), before, was, world, existing)
    {
      var todo := Middle(services);
      ghost var done := {MicroCloud};
      ok := true;
      while todo != {}
        invariant todo <= Middle(services) && done !! todo
        invariant ok ==> done + todo == {MicroCloud} + Middle(services)
        invariant world.joins == before.joins && world.added == before.added
        invariant ok ==> RecordsAgree(services, disks.Keys, existing, world.members)
        invariant ok ==> Initialized(name, done, before, was, world, existing)
      {
        var s :| s in todo;
        var up := BootstrapOne(s, holder, ok, done, before, was);
        todo := todo - {s};
        done := done + {s};
        if !up { ok := false; }
      }
    }

    /** LXD is bootstrapped after all others. */
    method InitLast(holder: map<Service, string>, ghost before: World, ghost was: Records) returns (ok: bool)
      requires RecordsAgree(services, disks.Keys, existing, world.members) && name in disks && address != ""
      requires Initialized(name, {MicroCloud} + Middle(services), before, was, world, existing)
      requires MicroCloud in services && LXD in services && (LXD in holder <==> before.members.Of(LXD) != {})
      modifies this`world, this`existing
      ensures world.joins == old(world).joins && world.added == old(world).added
      ensures ok ==> RecordsAgree(services, disks.Keys, existing, world.members)
      ensures ok ==> Initialized(name, services, before, was, world, existing)
    {
      AllStages(services);
      ok := BootstrapOne(LXD, holder, true, {MicroCloud} + Middle(services), before, was);
    }

    /** Initializes new services: MicroCloud first, LXD last, the others concurrently in between. */
    method InitServices(holder: map<Service, string>) returns (ok: bool)
      requires RecordsAgree(services, disks.Keys, existing, world.members)
      requires MicroCloud in services && LXD in services && name in disks && address != ""
      requires forall s :: s in services ==> (s in holder <==> world.members.Of(s) != {})
      modifies this`world, this`existing
      ensures world.joins == old(world).joins && world.added == old(world).added
      ensures ok ==> RecordsAgree(services, disks.Keys, existing, world.members)
      ensures ok ==> Initialized(name, services, old(world), old(existing), world, existing)
    {
      ok := BootstrapOne(MicroCloud, holder, true, {}, world, existing);
      if !ok { return; }
      assert {} + {MicroCloud} == {MicroCloud};
      ok := InitMiddle(holder, old(world), old(existing));
      if !ok { return; }
      ok := InitLast(holder, old(world), old(existing));
    }

    /** Requests one system's disks, in order, until a request fails. */
    method AddDisksOf(p: string) returns (ok: bool)
      requires p in disks && p in world.added
      modifies this`world
      ensures world.members == old(world).members && world.joins == old(world).joins
      ensures ok ==> world.added == old(world).added[p := old(world).added[p] + disks[p]]
    {
      assert old(world).added[p] + disks[p][..0] == old(world).added[p];
      for i := 0 to |disks[p]|
        invariant world.members == old(world).members && world.joins == old(world).joins
        invariant world.added == old(world).added[p := old(world).added[p] + disks[p][..i]]
      {
        assert old(world).added[p] + disks[p][..i] + [disks[p][i]] == old(world).added[p] + disks[p][..i + 1];
        world := world.(added := world.added[p := world.added[p] + [disks[p][i]]]);
        ok := *;
        if !ok { return; }
      }
      assert disks[p][..|disks[p]|] == disks[p];
      ok := true;
    }

    /** Requests the disks of the recorded cluster members; members outside the run are ignored. */
    method AddMemberDisks(record: Record) returns (ok: bool)
      requires world.added.Keys == disks.Keys
      modifies this`world
      ensures world.members == old(world).members && world.joins == old(world).joins
      ensures ok ==> world.added.Keys == disks.Keys && forall p :: p in disks ==>
                world.added[p] == old(world).added[p] + if p in record then disks[p] else []
    {
      var todo := record.Keys;
      while todo != {}
        invariant todo <= record.Keys
        invariant world.members == old(world).members && world.joins == old(world).joins
                  && world.added.Keys == disks.Keys
        invariant forall p :: p in disks ==>
                    world.added[p] == old(world).added[p] + if p in record.Keys - todo then disks[p] else []
      {
        var p :| p in todo;
        todo := todo - {p};
        if p in disks {
          ok := AddDisksOf(p);
          if !ok { return; }
        }
      }
      ok := true;
    }

    /**
     Initializes the services; on success the clusters are where `plan` starts and the records say so, `peer`'s among
     them.
     */
    method Prepare(ghost plan: Plan) returns (ok: bool, peer: string)
      requires MicroCloud in services && LXD in services && name in disks && address != ""
      requires RecordsAgree(services, disks.Keys, existing, world.members)
      requires plan == Plan(services, Booted(world.members, services, name), disks)
      modifies this`world, this`existing
      ensures world.joins == old(world).joins && world.added == old(world).added
      ensures ok ==> world.members == plan.init && RecordsAgree(services, disks.Keys, existing, world.members)
      ensures ok && MicroCeph in services ==> peer in disks && Reports(existing, peer, MicroCeph)
    {
      var holder := InitializedServices();
      peer := if MicroCeph in holder then holder[MicroCeph] else name;
      ok := InitServices(holder);
      if ok { BootedAfter(old(world), old(existing), plan); }
    }

    /** Which system, if any, reports each service's cluster: some system does exactly when the cluster exists. */
    method InitializedServices() returns (holder: map<Service, string>)
      requires RecordsAgree(services, disks.Keys, existing, world.members)
      ensures forall s :: s in services ==> (s in holder <==> world.members.Of(s) != {})
      ensures forall s :: s in holder ==> s in services && holder[s] in disks && Reports(existing, holder[s], s)
    {
      var records;
      holder, records := PickRecords();
      forall s | s in services ensures s in holder <==> world.members.Of(s) != {} {
        if s in holder { assert Reports(existing, holder[s], s); }
      }
    }

    lemma BootedAfter(before: World, was: Records, plan: Plan)
      requires Initialized(name, services, before, was, world, existing)
      requires plan.init == Booted(before.members, services, name)
      ensures world.members == plan.init
    {
      SamePerService(world.members, plan.init);
    }

    /** Requests the disks of the systems that were MicroCeph members before `addPeers`. */
    method AddExistingDisks(peer: string, ghost plan: Plan) returns (ok: bool)
      requires plan.services == services && plan.disks == disks && Progress(plan, disks.Keys, disks.Keys, world)
      requires RecordsAgree(services, disks.Keys, existing, plan.init)
      requires MicroCeph in services ==> peer in disks && Reports(existing, peer, MicroCeph)
      modifies this`world
      ensures world.members == old(world).members && world.joins == old(world).joins
      ensures AtMostOnce(plan, world)
      ensures ok ==> Formed(plan, world)
      ensures ok ==> forall p :: p in disks ==>
                world.added[p] == old(world).added[p] + if MicroCeph in services && p in plan.init.ceph then disks[p] else []
    {
      var record := map[];
      if MicroCeph in services { record := existing[peer][MicroCeph]; }
      ok := AddMemberDisks(record);
      ProgressIsOnce(plan, disks.Keys, disks.Keys, old(world));
      JoinsDecide(plan, old(world), world);
      if ok { FormedAtLast(plan, old(world), record.Keys, world); }
    }

    /** Grows the initialized clusters and completes the disks of their earlier members. */
    method GrowClusters(peer: string, ghost plan: Plan) returns (ok: bool)
      requires plan == Plan(services, world.members, disks) && Untouched(services, disks, world)
      requires RecordsAgree(services, disks.Keys, existing, world.members)
      requires MicroCloud in services && name in disks && name in world.members.cloud
      requires forall s :: s in services ==> world.members.Of(s) != {}
      requires MicroCeph in services ==> peer in disks && Reports(existing, peer, MicroCeph)
      modifies this`world, this`clusterSize, this`blindPolls
      ensures blindPolls == old(blindPolls) && AtMostOnce(plan, world)
      ensures ok ==> Synced() && Formed(plan, world)
    {
      StartsUntouched(plan, world);
      ok := AddPeers(plan);
      if !ok { return; }
      ok := AddExistingDisks(peer, plan);
    }

    /**
     Sets up the cluster. Each Join is called at most once, by a system that was missing. On success every system is a
     member of every service, the counters are the true member counts, every missing join was called exactly once, and
     the disk requests of each `Safe` system are exactly its configured disks, in order.
     */
    method SetupCluster(ghost plan: Plan) returns (ok: bool)
      requires MicroCloud in services && LXD in services && name in disks && address != ""
      requires RecordsAgree(services, disks.Keys, existing, world.members)
      requires world.members.cloud == {} || name in world.members.cloud
      requires Untouched(services, disks, world)
      requires plan == Plan(services, Booted(world.members, services, name), disks)
      modifies this`world, this`existing, this`clusterSize, this`blindPolls
      ensures blindPolls == old(blindPolls) && AtMostOnce(plan, world)
      ensures ok ==> Synced() && Formed(plan, world)
    {
      var peer;
      StartsUntouched(plan, world);
      ok, peer := Prepare(plan);
      JoinsDecide(plan, old(world), world);
      if !ok { return; }
      ok := GrowClusters(peer, plan);
    }
  }

  lemma JoinsDecide(plan: Plan, w: World, w': World)
    requires AtMostOnce(plan, w) && w'.joins == w.joins
    ensures AtMostOnce(plan, w')
  {
  }

  const NO_CLUSTERS: Clusters := PerService({}, {}, {}, {})

  /** A new cluster, out of systems that are in no cluster yet: on success all of them are in every service. */
  method FormNewCluster(name: string, address: string, services: set<Service>, disks: map<string, seq<Post>>)
    returns (setup: Setup, ok: bool)
    requires MicroCloud in services && LXD in services && name in disks && address != ""
    ensures ok ==> Formed(Plan(services, Booted(NO_CLUSTERS, services, name), disks), setup.world)
    ensures ok ==> forall s :: s in services ==> setup.world.members.Of(s) == disks.Keys
  {
    setup := new Setup(name, address, services, disks, map[], NO_CLUSTERS);
    ghost var plan := Plan(services, Booted(NO_CLUSTERS, services, name), disks);
    ok := setup.SetupCluster(plan);
    if ok {
      forall s | s in services ensures setup.world.members.Of(s) == disks.Keys {
        assert plan.init.Of(s) == {name};
        assert GrownBy(plan.init.Of(s), plan.disks.Keys, setup.world.members.Of(s), setup.world.joins.Of(s));
      }
    }
  }
}
