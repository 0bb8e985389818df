/**
 Removal of a cluster member (`removeClusterMember` over `RunConcurrent`): any number of requests run at once, each
 interleaved with the others at every call to a service, and every call may fail, also after it took effect.

 Members are only removed while requests run, and which services are initialized on a system does not change.
 */
module Removal {
  import opened Services
  import opened Runs
  import opened FiniteSets

  // How far a request got with one service: asked for its members, found the node, resized the pools (MicroCeph), ended.
  datatype Thread = Ready | Found | Sized | Over(ok: bool)

  datatype Result = Removed | NotFound | Failed | Refused

  // `Checking`: the cluster has two members, the node among them; its monitors are yet to be read.
  datatype Phase = Guarding | Checking | First | Middle | Last | Ended(result: Result)

  datatype Effect = Resized | Deleted(service: Service)

  datatype Request = Request(
    name: string,
    services: set<Service>,           // installed on the system that handles the request
    up: set<Service>,                 // those of them that are initialized
    phase: Phase,
    threads: PerService<Thread>,
    memberExists: bool,
    seen: set<string>,                // the MicroCeph members and the monitors that the guard has read
    seenMons: set<string>,
    effects: seq<Effect>              // what the request changed so far
  )

  datatype World = World(members: PerService<set<string>>, mons: set<string>, requests: map<nat, Request>)

  datatype Move =
    | Arrive(name: string, services: set<Service>, up: set<Service>)
    | GuardMembers(reachable: bool)
    | GuardMonitors(reachable: bool)
    | Query(service: Service, reachable: bool)
    | Resize(answer: Answer)
    | Delete(service: Service, answer: Answer)
    | Proceed
    | MonsChange(mons: set<string>)

  const IDLE: PerService<Thread> := PerService(Ready, Ready, Ready, Ready)

  /** LXD goes first, MicroCloud last, the others run concurrently in between. */
  predicate Active(r: Request, s: Service) {
    s in r.services &&
    match r.phase
    case First => s == LXD
    case Middle => s == MicroCeph || s == MicroOVN
    case Last => s == MicroCloud
    case _ => false
  }

  function Next(w: World, id: nat, m: Move): Option<World> {
    match m
    case MonsChange(mons) => Some(w.(mons := mons))
    case Arrive(name, services, up) =>
      if id in w.requests || !(up <= services) || MicroCloud !in services then None
      else Some(w.(requests := w.requests[id := Request(name, services, up, Guarding, IDLE, false, {}, {}, [])]))
    case _ =>
      if id !in w.requests then None
      else match RequestStep(w, w.requests[id], m)
        case None => None
        case Some((r, members)) => Some(w.(members := members, requests := w.requests[id := r]))
  }

  function RequestStep(w: World, r: Request, m: Move): Option<(Request, PerService<set<string>>)> {
    match m
    case GuardMembers(reachable) =>
      if r.phase != Guarding then None else Some((GuardMembersStep(w, r, reachable), w.members))
    case GuardMonitors(reachable) =>
      if r.phase != Checking then None else Some((GuardMonitorsStep(w, r, reachable), w.members))
    case Query(s, reachable) =>
      if !Active(r, s) || r.threads.Of(s) != Ready then None else Some((QueryStep(w, r, s, reachable), w.members))
    case Resize(answer) =>
      if !Active(r, MicroCeph) || r.threads.ceph != Found then None
      else Some((ResizeStep(r, answer), w.members))
    case Delete(s, answer) =>
      if !Active(r, s) || r.threads.Of(s) != (if s == MicroCeph then Sized else Found) then None
      else Some((DeleteStep(r, s, answer),
                 if answer.Fails? then w.members else w.members.With(s, w.members.Of(s) - {r.name})))
    case Proceed => match Onward(r) { case None => None case Some(phase) => Some((r.(phase := phase), w.members)) }
    case _ => None
  }

  /** Only a node of a two-member MicroCeph cluster has to be checked further. */
  function GuardMembersStep(w: World, r: Request, reachable: bool): Request {
    if MicroCeph !in r.services || (reachable && MicroCeph !in r.up) then r.(phase := First)
    else if !reachable then r.(phase := Ended(Failed))
    else r.(phase := if |w.members.ceph| == 2 && r.name in w.members.ceph then Checking else First, seen := w.members.ceph)
  }

  /** If it is a monitor, it is not removed. */
  function GuardMonitorsStep(w: World, r: Request, reachable: bool): Request {
    if !reachable then r.(phase := Ended(Failed))
    else if r.name in w.mons then r.(phase := Ended(Refused))
    else r.(phase := First, seenMons := w.mons)
  }

  function QueryStep(w: World, r: Request, s: Service, reachable: bool): Request {
    if !reachable then r.(threads := r.threads.With(s, Over(false)))
    else if s !in r.up || r.name !in w.members.Of(s) then r.(threads := r.threads.With(s, Over(true)))
    else r.(threads := r.threads.With(s, Found), memberExists := true)
  }

  function ResizeStep(r: Request, answer: Answer): Request {
    r.(threads := r.threads.With(MicroCeph, if answer.Succeeds? then Sized else Over(false)),
       effects := if answer.Fails? then r.effects else r.effects + [Resized])
  }

  function DeleteStep(r: Request, s: Service, answer: Answer): Request {
    r.(threads := r.threads.With(s, Over(answer.Succeeds?)),
       effects := if answer.Fails? then r.effects else r.effects + [Deleted(s)])
  }

  predicate Ends(r: Request, s: Service) {
    s in r.services ==> r.threads.Of(s).Over?
  }

  predicate Fine(r: Request, s: Service) {
    s in r.services ==> r.threads.Of(s) == Over(true)
  }

  function Onward(r: Request): Option<Phase> {
    match r.phase
    case First =>
      if !Ends(r, LXD) then None else Some(if Fine(r, LXD) then Middle else Ended(Failed))
    case Middle =>
      if !Ends(r, MicroCeph) || !Ends(r, MicroOVN) then None
      else Some(if Fine(r, MicroCeph) && Fine(r, MicroOVN) then Last else Ended(Failed))
    case Last =>
      if !Ends(r, MicroCloud) then None
      else Some(Ended(if !Fine(r, MicroCloud) then Failed else if r.memberExists then Removed else NotFound))
    case _ => None
  }

  // ---- Invariant ----------------------------------------------------------------------------------------------------

  ghost predicate Gone(r: Request, members: PerService<set<string>>, s: Service) {
    s in r.up ==> r.name !in members.Of(s)
  }

  /** The phase says which services are finished. */
  ghost predicate Staged(r: Request) {
    match r.phase
    case Guarding => r.threads == IDLE
    case Checking => r.threads == IDLE
    case First => r.threads == IDLE.With(LXD, r.threads.lxd)
    case Middle => Fine(r, LXD) && r.threads.cloud == Ready
    case Last => Fine(r, LXD) && Fine(r, MicroCeph) && Fine(r, MicroOVN)
    case Ended(Refused) => r.threads == IDLE
    case Ended(Failed) => true
    case Ended(_) => Fine(r, LXD) && Fine(r, MicroCeph) && Fine(r, MicroOVN) && Fine(r, MicroCloud)
  }

  /** What a request changed: nothing if it never found the node, and LXD before the others before MicroCloud. */
  ghost predicate Recorded(r: Request) {
    && (!r.memberExists ==> r.effects == [] && forall s :: r.threads.Of(s) != Found && r.threads.Of(s) != Sized)
    && (r.threads == IDLE ==> r.effects == [])
    && Ordered(r.effects)
    && (Deleted(MicroCloud) in r.effects ==> r.phase.Last? || r.phase.Ended?)
    && (r.phase == Ended(NotFound) ==> !r.memberExists)
    && (r.phase.First? ==> forall e :: e in r.effects ==> e == Deleted(LXD))
  }

  function Rank(e: Effect): nat {
    match e
    case Resized => 1
    case Deleted(s) => if s == LXD then 0 else if s == MicroCloud then 2 else 1
  }

  ghost predicate Ordered(effects: seq<Effect>) {
    forall i, j :: 0 <= i < j < |effects| ==> Rank(effects[i]) <= Rank(effects[j])
  }

  predicate PastGuard(r: Request) {
    r.phase.First? || r.phase.Middle? || r.phase.Last?
  }

  ghost predicate Guarded(r: Request) {
    && (r.phase.Checking? ==> MicroCeph in r.up && |r.seen| == 2 && r.name in r.seen)
    && (PastGuard(r) && MicroCeph in r.up && |r.seen| == 2 && r.name in r.seen ==> r.name !in r.seenMons)
  }

  ghost predicate RequestInv(r: Request, members: PerService<set<string>>) {
    && r.up <= r.services && MicroCloud in r.services
    && (forall s :: r.threads.Of(s) == Over(true) ==> Gone(r, members, s))
    && Staged(r) && Recorded(r) && Guarded(r)
  }

  ghost predicate Inv(w: World) {
    forall id :: id in w.requests ==> RequestInv(w.requests[id], w.members)
  }

  lemma QueryKeeps(w: World, r: Request, s: Service, reachable: bool)
    requires RequestInv(r, w.members) && Active(r, s) && r.threads.Of(s) == Ready
    ensures RequestInv(QueryStep(w, r, s, reachable), w.members)
  {
    var r' := QueryStep(w, r, s, reachable);
    assert forall t :: t != s ==> r'.threads.Of(t) == r.threads.Of(t);
    assert r'.phase.First? ==> r'.threads == IDLE.With(LXD, r'.threads.lxd);
    assert r'.threads != IDLE by { assert r'.threads.Of(s) != Ready; assert IDLE.Of(s) == Ready; }
  }

  lemma Append(effects: seq<Effect>, e: Effect)
    requires Ordered(effects) && forall i :: 0 <= i < |effects| ==> Rank(effects[i]) <= Rank(e)
    ensures Ordered(effects + [e])
  {
  }

  lemma ResizeKeeps(r: Request, members: PerService<set<string>>, answer: Answer)
    requires RequestInv(r, members) && Active(r, MicroCeph) && r.threads.ceph == Found
    ensures RequestInv(ResizeStep(r, answer), members)
  {
    var r' := ResizeStep(r, answer);
    assert r.threads.Of(MicroCeph) == Found;
    assert forall t :: t != MicroCeph ==> r'.threads.Of(t) == r.threads.Of(t);
    LowRanks(r);
    Append(r.effects, Resized);
  }

  /** Before the last phase nothing was done to MicroCloud, and before the middle one nothing but LXD was touched. */
  lemma LowRanks(r: Request)
    requires Recorded(r) && (r.phase.First? || r.phase.Middle?)
    ensures forall i :: 0 <= i < |r.effects| ==> Rank(r.effects[i]) <= if r.phase.First? then 0 else 1
  {
    forall i | 0 <= i < |r.effects| ensures Rank(r.effects[i]) <= if r.phase.First? then 0 else 1 {
      assert r.effects[i] in r.effects;
    }
  }

  lemma DeleteKeeps(r: Request, members: PerService<set<string>>, s: Service, answer: Answer)
    requires RequestInv(r, members) && Active(r, s) && r.threads.Of(s) == if s == MicroCeph then Sized else Found
    ensures RequestInv(DeleteStep(r, s, answer),
                       if answer.Fails? then members else members.With(s, members.Of(s) - {r.name}))
  {
    var r' := DeleteStep(r, s, answer);
    assert forall t :: t != s ==> r'.threads.Of(t) == r.threads.Of(t);
    assert r'.phase.First? ==> r'.threads == IDLE.With(LXD, r'.threads.lxd);
    assert r'.threads != IDLE by { assert r'.threads.Of(s) != Ready; assert IDLE.Of(s) == Ready; }
    if !r.phase.Last? { LowRanks(r); }
    Append(r.effects, Deleted(s));
  }

  lemma ProceedKeeps(r: Request, members: PerService<set<string>>)
    requires RequestInv(r, members) && Onward(r).Some?
    ensures RequestInv(r.(phase := Onward(r).value), members)
  {
  }

  lemma ShrinkKeeps(r: Request, members: PerService<set<string>>, members': PerService<set<string>>)
    requires RequestInv(r, members) && forall s :: members'.Of(s) <= members.Of(s)
    ensures RequestInv(r, members')
  {
    forall s | r.threads.Of(s) == Over(true) ensures Gone(r, members', s) {
      assert Gone(r, members, s);
    }
  }

  lemma RequestStepKeeps(w: World, r: Request, m: Move)
    requires RequestInv(r, w.members) && RequestStep(w, r, m).Some?
    ensures var (r', members') := RequestStep(w, r, m).value;
            RequestInv(r', members') && (forall s :: members'.Of(s) <= w.members.Of(s)) && r'.name == r.name && r'.up == r.up
  {
    match m
    case GuardMembers(_) =>
    case GuardMonitors(_) =>
    case Query(s, reachable) => QueryKeeps(w, r, s, reachable);
    case Resize(answer) => ResizeKeeps(r, w.members, answer);
    case Delete(s, answer) => DeleteKeeps(r, w.members, s, answer);
    case Proceed => ProceedKeeps(r, w.members);
  }

  lemma NextKeepsInv(w: World, id: nat, m: Move)
    requires Inv(w) && Next(w, id, m).Some?
    ensures Inv(Next(w, id, m).value)
  {
    if !m.Arrive? && !m.MonsChange? {
      RequestStepKeeps(w, w.requests[id], m);
      var (r', members') := RequestStep(w, w.requests[id], m).value;
      forall k | k in w.requests ensures RequestInv(w.requests[k], members') {
        ShrinkKeeps(w.requests[k], w.members, members');
      }
    }
  }

  // ---- Runs --------------------------------------------------------------------------------------------------------

  /** A move of one request. */
  function Do(w: World, move: (nat, Move)): Option<World> {
    Next(w, move.0, move.1)
  }

  /** A world that removal requests have brought about, starting without any. */
  ghost predicate Reachable(w: World) {
    exists members, mons :: Leads(Do, World(members, mons, map[]), w)
  }

  lemma ReachableInv(w: World)
    requires Reachable(w)
    ensures Inv(w)
  {
    var members, mons :| Leads(Do, World(members, mons, map[]), w);
    forall v: World, move | Inv(v) && Do(v, move).Some? ensures Inv(Do(v, move).value) {
      NextKeepsInv(v, move.0, move.1);
    }
    Kept(Do, v => Inv(v), World(members, mons, map[]), w);
  }

  /** A node leaves MicroCloud only when it is in no other initialized service of the request that removes it. */
  lemma CloudLast(w: World, id: nat, m: Move, name: string)
    requires Reachable(w) && Next(w, id, m).Some?
    requires name in w.members.cloud && name !in Next(w, id, m).value.members.cloud
    ensures id in w.requests && w.requests[id].name == name
    ensures forall s :: s in w.requests[id].up && s != MicroCloud ==> name !in w.members.Of(s)
  {
    ReachableInv(w);
    var r := w.requests[id];
    assert RequestInv(r, w.members);
    assert m.Delete? && m.service == MicroCloud && r.phase == Last by {
      assert w.members.Of(MicroCloud) == w.members.cloud;
      assert Next(w, id, m).value.members.Of(MicroCloud) == Next(w, id, m).value.members.cloud;
    }
    forall s | s in r.up && s != MicroCloud ensures name !in w.members.Of(s) {
      assert Fine(r, s);
      assert Gone(r, w.members, s);
    }
  }

  /** MicroCeph is resized, and MicroCeph or MicroOVN lose a node, only when the node is out of an initialized LXD. */
  lemma LxdFirst(w: World, id: nat, m: Move)
    requires Reachable(w) && Next(w, id, m).Some?
    requires m.Resize? || (m.Delete? && m.service != LXD)
    ensures id in w.requests && (LXD in w.requests[id].up ==> w.requests[id].name !in w.members.lxd)
  {
    ReachableInv(w);
    var r := w.requests[id];
    assert RequestInv(r, w.members);
    assert r.phase == Middle || r.phase == Last;
    assert Fine(r, LXD);
    assert r.threads.Of(LXD) == Over(true) && LXD in r.up ==> Gone(r, w.members, LXD);
  }

  /** What each result of a request says about what it did and about where the node still is. */
  lemma ResultTells(w: World, id: nat)
    requires Reachable(w) && id in w.requests
    ensures var r := w.requests[id];
            && Ordered(r.effects)
            && (r.phase == Ended(Refused) ==> r.effects == [])
            && (r.phase == Ended(NotFound) ==> r.effects == [])
            && (r.phase == Ended(Removed) || r.phase == Ended(NotFound) ==>
                 forall s :: s in r.up ==> r.name !in w.members.Of(s))
  {
    ReachableInv(w);
    var r := w.requests[id];
    assert RequestInv(r, w.members);
    if r.phase == Ended(Removed) || r.phase == Ended(NotFound) {
      forall s | s in r.up ensures r.name !in w.members.Of(s) {
        assert Fine(r, s);
        assert Gone(r, w.members, s);
      }
    }
  }

  // ---- The monitor guard -------------------------------------------------------------------------------------------

  /** Deleting a monitor from a two-member MicroCeph cluster: what the guard is there to prevent. */
  ghost predicate Strands(w: World, id: nat, m: Move) {
    && Next(w, id, m).Some?
    && id in w.requests && m.Delete? && m.service == MicroCeph && MicroCeph in w.requests[id].up
    && |w.members.ceph| == 2 && w.requests[id].name in w.members.ceph && w.requests[id].name in w.mons
  }

  /** The guard holds as long as members and monitors are those that the request saw when it passed. */
  lemma GuardHolds(w: World, id: nat, m: Move)
    requires Reachable(w) && Strands(w, id, m)
    ensures w.members.ceph != w.requests[id].seen || w.mons != w.requests[id].seenMons
  {
    ReachableInv(w);
    assert RequestInv(w.requests[id], w.members);
  }

  // From here on the monitors do not change while requests run.

  function DoCalmly(w: World, move: (nat, Move)): Option<World> {
    if move.1.MonsChange? then None else Do(w, move)
  }

  /** What every request has read lies between the first members and those that are left. */
  ghost predicate ReadAt(start: World, w: World, r: Request) {
    (r.phase.Checking? || PastGuard(r)) && MicroCeph in r.up ==>
      && w.members.ceph <= r.seen <= start.members.ceph
      && (PastGuard(r) && |r.seen| == 2 && r.name in r.seen ==> r.name !in start.mons)
  }

  ghost predicate CalmInv(start: World, w: World) {
    && w.mons == start.mons && w.members.ceph <= start.members.ceph
    && (forall id :: id in w.requests ==> RequestInv(w.requests[id], w.members) && ReadAt(start, w, w.requests[id]))
  }

  lemma ShrinkKeepsRead(start: World, w: World, r: Request, members: PerService<set<string>>)
    requires ReadAt(start, w, r) && members.ceph <= w.members.ceph
    ensures ReadAt(start, w.(members := members), r)
  {
  }

  lemma RequestKeepsRead(start: World, w: World, r: Request, m: Move)
    requires CalmInv(start, w) && RequestInv(r, w.members) && ReadAt(start, w, r) && RequestStep(w, r, m).Some?
    ensures var (r', members') := RequestStep(w, r, m).value; ReadAt(start, w.(members := members'), r')
  {
    RequestStepKeeps(w, r, m);
    var (r', members') := RequestStep(w, r, m).value;
    assert members'.Of(MicroCeph) <= w.members.Of(MicroCeph);
  }

  lemma NextKeepsCalmInv(start: World, w: World, id: nat, m: Move)
    requires CalmInv(start, w) && !m.MonsChange? && Next(w, id, m).Some?
    ensures CalmInv(start, Next(w, id, m).value)
  {
    var w' := Next(w, id, m).value;
    assert Inv(w);
    NextKeepsInv(w, id, m);
    if !m.Arrive? {
      var r := w.requests[id];
      RequestStepKeeps(w, r, m);
      RequestKeepsRead(start, w, r, m);
      var (r', members') := RequestStep(w, r, m).value;
      assert members'.Of(MicroCeph) <= w.members.Of(MicroCeph);
      forall k | k in w.requests ensures ReadAt(start, w', w'.requests[k]) {
        ShrinkKeepsRead(start, w, w.requests[k], members');
      }
    }
  }

  lemma CalmReachable(start: World, w: World)
    requires start.requests == map[] && Leads(DoCalmly, start, w)
    ensures CalmInv(start, w)
  {
    forall v: World, move | CalmInv(start, v) && DoCalmly(v, move).Some? ensures CalmInv(start, DoCalmly(v, move).value) {
      NextKeepsCalmInv(start, v, move.0, move.1);
    }
    Kept(DoCalmly, v => CalmInv(start, v), start, w);
  }

  /** Stranding a monitor takes at least three members to begin with, one of them a monitor. */
  lemma StrandsOnlyIf(start: World, w: World, id: nat, m: Move)
    requires start.requests == map[] && Leads(DoCalmly, start, w) && Strands(w, id, m)
    ensures |start.members.ceph| >= 3 && w.requests[id].name in start.members.ceph * start.mons
  {
    CalmReachable(start, w);
    var r := w.requests[id];
    assert RequestInv(r, w.members) && ReadAt(start, w, r);
    SubsetSize(w.members.ceph, start.members.ceph);
    SubsetSize(w.members.ceph, r.seen);
    SubsetSize(r.seen, start.members.ceph);
  }

  const BOTH := {MicroCloud, MicroCeph}

  /** A request that passed the guard of a larger cluster `ceph`, at a stage of its work on MicroCeph. */
  function Passed(name: string, ceph: set<string>, thread: Thread): Request {
    Request(name, BOTH, BOTH, Middle, IDLE.With(MicroCeph, thread), thread != Ready, ceph, {},
            if thread == Sized then [Resized] else [])
  }

  lemma PassGuard(start: World, w: World, id: nat, name: string) returns (w': World)
    requires Leads(DoCalmly, start, w) && id !in w.requests && |w.members.ceph| >= 3
    ensures Leads(DoCalmly, start, w') && w' == w.(requests := w.requests[id := Passed(name, w.members.ceph, Ready)])
  {
    w' := Follow(DoCalmly, start, w, (id, Arrive(name, BOTH, BOTH)));
    w' := Follow(DoCalmly, start, w', (id, GuardMembers(true)));
    w' := Follow(DoCalmly, start, w', (id, Proceed));
  }

  lemma PrepareDelete(start: World, w: World, id: nat, name: string, ceph: set<string>) returns (w': World)
    requires Leads(DoCalmly, start, w) && id in w.requests && w.requests[id] == Passed(name, ceph, Ready)
             && name in w.members.ceph
    ensures Leads(DoCalmly, start, w') && w' == w.(requests := w.requests[id := Passed(name, ceph, Sized)])
  {
    w' := Follow(DoCalmly, start, w, (id, Query(MicroCeph, true)));
    assert w'.requests[id] == Passed(name, ceph, Found);
    w' := Follow(DoCalmly, start, w', (id, Resize(Succeeds)));
    assert [] + [Resized] == [Resized];
  }

  /** Another request removes a member as long as there are three. */
  lemma RemoveOne(start: World, w: World, id: nat, name: string) returns (w': World)
    requires Leads(DoCalmly, start, w) && id !in w.requests && |w.members.ceph| >= 3 && name in w.members.ceph
    ensures Leads(DoCalmly, start, w') && w'.members.ceph == w.members.ceph - {name} && w'.mons == w.mons
    ensures w'.requests.Keys == w.requests.Keys + {id} && forall k :: k in w.requests ==> w'.requests[k] == w.requests[k]
  {
    w' := PassGuard(start, w, id, name);
    w' := PrepareDelete(start, w', id, name, w.members.ceph);
    w' := Follow(DoCalmly, start, w', (id, Delete(MicroCeph, Succeeds)));
  }

  /** Request 0 waits behind the guard while others bring the cluster down to two members. */
  lemma {:induction false} BringDown(start: World, w: World, n: nat, name: string) returns (w': World)
    requires Leads(DoCalmly, start, w) && (forall id :: id in w.requests ==> id < n) && 0 in w.requests
    requires |w.members.ceph| >= 2 && name in w.members.ceph
    ensures Leads(DoCalmly, start, w') && |w'.members.ceph| == 2 && name in w'.members.ceph && w'.mons == w.mons
    ensures 0 in w'.requests && w'.requests[0] == w.requests[0]
    decreases |w.members.ceph|
  {
    w' := w;
    if |w.members.ceph| > 2 {
      var others := w.members.ceph - {name};
      assert |others| == |w.members.ceph| - 1;
      var other :| other in others;
      w' := RemoveOne(start, w, n, other);
      assert |w'.members.ceph| == |w.members.ceph| - 1;
      w' := BringDown(start, w', n + 1, name);
    }
  }

  ghost predicate CanStrand(start: World) {
    exists w, id, m :: Leads(DoCalmly, start, w) && Strands(w, id, m)
  }

  /** Requests that run at once can strand a monitor exactly if the cluster has three members or more, one a monitor. */
  lemma StrandsIff(members: PerService<set<string>>, mons: set<string>)
    ensures CanStrand(World(members, mons, map[])) <==> |members.ceph| >= 3 && members.ceph * mons != {}
  {
    var start := World(members, mons, map[]);
    if |members.ceph| >= 3 && members.ceph * mons != {} {
      var name :| name in members.ceph * mons;
      Here(DoCalmly, start);
      var w := PassGuard(start, start, 0, name);
      w := BringDown(start, w, 1, name);
      w := PrepareDelete(start, w, 0, name, members.ceph);
      assert Strands(w, 0, Delete(MicroCeph, Succeeds));
    }
    if CanStrand(start) {
      var w, id, m :| Leads(DoCalmly, start, w) && Strands(w, id, m);
      StrandsOnlyIf(start, w, id, m);
    }
  }

  // One request at a time.

  /** A request comes only after the last one ended. */
  function DoOneByOne(w: World, move: (nat, Move)): Option<World> {
    if move.1.Arrive? && exists id :: id in w.requests && !w.requests[id].phase.Ended? then None else DoCalmly(w, move)
  }

  /** As long as the request has not come to delete its node, the members are those it has read. */
  ghost predicate UpToDate(w: World, r: Request) {
    (r.phase.Checking? || PastGuard(r)) && MicroCeph in r.up && !r.threads.ceph.Over? ==> r.seen == w.members.ceph
  }

  ghost predicate Alone(w: World) {
    && (forall a, b :: a in w.requests && b in w.requests && a != b ==>
         w.requests[a].phase.Ended? || w.requests[b].phase.Ended?)
    && (forall id :: id in w.requests ==> UpToDate(w, w.requests[id]))
  }

  lemma RequestKeepsUpToDate(w: World, r: Request, m: Move)
    requires RequestInv(r, w.members) && UpToDate(w, r) && RequestStep(w, r, m).Some?
    ensures !r.phase.Ended?
    ensures var (r', members') := RequestStep(w, r, m).value; UpToDate(w.(members := members'), r')
  {
    assert r.threads.ceph == r.threads.Of(MicroCeph);
    var (r', members') := RequestStep(w, r, m).value;
    assert r'.threads.ceph == r'.threads.Of(MicroCeph) && members'.ceph == members'.Of(MicroCeph);
  }

  lemma NextKeepsAlone(w: World, id: nat, m: Move)
    requires Inv(w) && Alone(w) && !m.MonsChange? && Next(w, id, m).Some?
    requires m.Arrive? ==> forall k :: k in w.requests ==> w.requests[k].phase.Ended?
    ensures Alone(Next(w, id, m).value)
  {
    if !m.Arrive? {
      var r := w.requests[id];
      assert RequestInv(r, w.members);
      RequestKeepsUpToDate(w, r, m);
    }
  }

  lemma AloneStrandsNothing(start: World, w: World, id: nat, m: Move)
    requires CalmInv(start, w) && Alone(w)
    ensures !Strands(w, id, m)
  {
    if id in w.requests {
      var r := w.requests[id];
      assert RequestInv(r, w.members) && ReadAt(start, w, r) && UpToDate(w, r);
      assert r.threads.ceph == r.threads.Of(MicroCeph);
    }
  }

  /** From any clusters: if each request comes only after the last one ended, no monitor is ever stranded. */
  lemma OneAtATime(members: PerService<set<string>>, mons: set<string>, w: World, id: nat, m: Move)
    requires Leads(DoOneByOne, World(members, mons, map[]), w)
    ensures !Strands(w, id, m)
  {
    var start := World(members, mons, map[]);
    forall v: World, move | CalmInv(start, v) && Alone(v) && DoOneByOne(v, move).Some?
      ensures CalmInv(start, DoOneByOne(v, move).value) && Alone(DoOneByOne(v, move).value)
    {
      assert Inv(v);
      NextKeepsCalmInv(start, v, move.0, move.1);
      NextKeepsAlone(v, move.0, move.1);
    }
    Kept(DoOneByOne, v => CalmInv(start, v) && Alone(v), start, w);
    AloneStrandsNothing(start, w, id, m);
  }
}
