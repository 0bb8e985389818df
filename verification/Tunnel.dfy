/**
 The reverse tunnel: any number of `openTunnel` and `ensureTunnelClosed` routines around one lock and one stored
 connection. Every instruction that touches the lock, the stored connection or a connection is a step of its own.
 */
module Tunnel {
  import opened Services
  import opened Runs

  // Where a routine is. `O...` opens a tunnel, `C...` closes the stored one; a routine whose tunnel broke closes first the
  // stored tunnel (`own` is the one it still has to close itself) and then its own.
  datatype Place =
    | OWants | OLocked | OChecked | ODialed(conn: nat) | OStored(conn: nat) | Serving(conn: nat)
    | CWants(own: Option<nat>) | CLocked(own: Option<nat>) | CClosed(own: Option<nat>) | CCleared(own: Option<nat>)
    | Closing(conn: nat) | Done
  {
    predicate Holds() {
      OLocked? || OChecked? || ODialed? || OStored? || CLocked? || CClosed? || CCleared?
    }
  }

  datatype World = World(
    lock: Option<nat>,              // the routine that holds the lock
    wsConn: Option<nat>,            // the stored connection
    live: set<nat>,                 // connections that have not been closed
    dialed: nat,                    // connections made so far; they are numbered
    places: map<nat, Place>
  )

  // `Step(ok)`: the next instruction; where it is a call, or the tunnel is in service, `ok` is how that goes.
  datatype Move = SpawnOpener | SpawnCloser | Step(ok: bool)

  const START := World(None, None, {}, 0, map[])

  function At(w: World, t: nat, p: Place): World {
    w.(places := w.places[t := p])
  }

  /** After the stored connection is dealt with, a routine of a broken tunnel still closes its own. */
  function AfterClose(own: Option<nat>): Place {
    if own.Some? then Closing(own.value) else Done
  }

  function Next(w: World, t: nat, m: Move): Option<World> {
    if !m.Step? then
      if t in w.places then None else Some(At(w, t, if m.SpawnOpener? then OWants else CWants(None)))
    else if t !in w.places then None
    else match w.places[t]
      case OWants => if w.lock.Some? then None else Some(At(w, t, OLocked).(lock := Some(t)))
      case OLocked => Some(if w.wsConn.Some? then At(w, t, Done).(lock := None) else At(w, t, OChecked))
      case OChecked =>
        if m.ok then Some(At(w, t, ODialed(w.dialed)).(live := w.live + {w.dialed}, dialed := w.dialed + 1))
        else Some(At(w, t, Done).(lock := None))
      case ODialed(c) => Some(At(w, t, OStored(c)).(wsConn := Some(c)))
      case OStored(c) => Some(At(w, t, Serving(c)).(lock := None))
      // LXD cannot be reached, or the tunnel breaks.
      case Serving(c) => Some(At(w, t, if m.ok then CWants(Some(c)) else Closing(c)))
      case Closing(c) => Some(At(w, t, Done).(live := w.live - {c}))
      case CWants(own) => if w.lock.Some? then None else Some(At(w, t, CLocked(own)).(lock := Some(t)))
      case CLocked(own) =>
        if w.wsConn == None then Some(At(w, t, AfterClose(own)).(lock := None))
        else Some(At(w, t, CClosed(own)).(live := w.live - {w.wsConn.value}))
      case CClosed(own) => Some(At(w, t, CCleared(own)).(wsConn := None))
      case CCleared(own) => Some(At(w, t, AfterClose(own)).(lock := None))
      case Done => None
  }

  // ---- Safety ------------------------------------------------------------------------------------------------------

  ghost predicate Locked(w: World) {
    forall t :: t in w.places ==> (w.places[t].Holds() <==> w.lock == Some(t))
  }

  ghost predicate PlaceInv(w: World, t: nat)
    requires t in w.places
  {
    match w.places[t]
    case OChecked => w.wsConn == None
    case ODialed(c) => w.wsConn == None
    case OStored(c) => w.wsConn == Some(c)
    case CClosed(_) => w.wsConn.Some? && w.wsConn.value !in w.live
    case CCleared(_) => w.wsConn == None
    case _ => true
  }

  /** A live connection is the stored one, or the lock is held by the routine that is about to store it. */
  ghost predicate Accounted(w: World, c: nat) {
    w.wsConn == Some(c) || (w.lock.Some? && w.lock.value in w.places && w.places[w.lock.value] == ODialed(c))
  }

  ghost predicate Inv(w: World) {
    && Locked(w) && (w.lock.Some? ==> w.lock.value in w.places)
    && (forall t :: t in w.places ==> PlaceInv(w, t))
    && (forall c :: c in w.live ==> Accounted(w, c))
  }

  lemma NextKeepsInv(w: World, t: nat, m: Move)
    requires Inv(w) && Next(w, t, m).Some?
    ensures Inv(Next(w, t, m).value)
  {
    var w' := Next(w, t, m).value;
    if t in w.places { assert PlaceInv(w, t); }
    assert Locked(w');
    forall u | u in w'.places ensures PlaceInv(w', u) {
      if u != t { assert PlaceInv(w, u); }
    }
    forall c | c in w'.live ensures Accounted(w', c) {
      if c in w.live { assert Accounted(w, c); }
    }
  }

  /** A move of one routine. */
  function Do(w: World, move: (nat, Move)): Option<World> {
    Next(w, move.0, move.1)
  }

  ghost predicate Reachable(w: World) {
    Leads(Do, START, w)
  }

  lemma ReachableInv(w: World)
    requires Reachable(w)
    ensures Inv(w)
  {
    forall v: World, move | Inv(v) && Do(v, move).Some? ensures Inv(Do(v, move).value) {
      NextKeepsInv(v, move.0, move.1);
    }
    Kept(Do, v => Inv(v), START, w);
  }

  /** At most one tunnel is live; whenever the lock is free, a live tunnel is the stored one. */
  lemma OneTunnel(w: World, c: nat)
    requires Reachable(w) && c in w.live
    ensures w.live == {c}
    ensures w.lock == None ==> w.wsConn == Some(c)
  {
    ReachableInv(w);
    assert Accounted(w, c);
    forall d | d in w.live ensures d == c {
      assert Accounted(w, d);
      if w.lock.Some? { assert PlaceInv(w, w.lock.value); }
    }
  }

  // ---- When the stored tunnel is live ------------------------------------------------------------------------------

  /** The routine gives up on its tunnel because LXD cannot be reached. */
  predicate LxdFails(w: World, t: nat, m: Move) {
    m == Step(false) && t in w.places && w.places[t].Serving?
  }

  /** A move of one routine while LXD can always be reached. */
  function DoHealthy(w: World, move: (nat, Move)): Option<World> {
    if LxdFails(w, move.0, move.1) then None else Do(w, move)
  }

  /** The connection that a routine has made and not closed yet. */
  function Own(p: Place): Option<nat> {
    match p
    case ODialed(c) => Some(c)
    case OStored(c) => Some(c)
    case Serving(c) => Some(c)
    case Closing(c) => Some(c)
    case CWants(own) => own
    case CLocked(own) => own
    case CClosed(own) => own
    case CCleared(own) => own
    case _ => None
  }

  /** Connections are numbered afresh, and no two routines own the same one. */
  ghost predicate Numbered(w: World) {
    && (forall t :: t in w.places && Own(w.places[t]).Some? ==> Own(w.places[t]).value < w.dialed)
    && (forall t, u :: t in w.places && u in w.places && t != u && Own(w.places[t]).Some? ==>
         Own(w.places[t]) != Own(w.places[u]))
  }

  /** What a routine knows as long as LXD can always be reached. */
  ghost predicate HealthyAt(w: World, t: nat)
    requires t in w.places
  {
    match w.places[t]
    case ODialed(c) => c in w.live
    case Closing(c) => w.wsConn != Some(c)
    case _ => true
  }

  /** The stored connection is live, or its closer is about to clear it. */
  ghost predicate Healthy(w: World) {
    && Numbered(w)
    && (forall t :: t in w.places ==> HealthyAt(w, t))
    && (w.wsConn.Some? && w.wsConn.value !in w.live ==>
         w.lock.Some? && w.lock.value in w.places && w.places[w.lock.value].CClosed?)
  }

  /** A step moves one routine, which keeps its connection, drops it, or makes the next one. */
  lemma OwnStep(w: World, t: nat, m: Move)
    requires Next(w, t, m).Some?
    ensures var w' := Next(w, t, m).value;
            && t in w'.places && w'.places == w.places[t := w'.places[t]] && w.dialed <= w'.dialed
            && (Own(w'.places[t]) == None || (t in w.places && Own(w'.places[t]) == Own(w.places[t]))
                || (Own(w'.places[t]) == Some(w.dialed) && w'.dialed == w.dialed + 1))
  {
  }

  lemma NextKeepsNumbered(w: World, t: nat, m: Move)
    requires Numbered(w) && Next(w, t, m).Some?
    ensures Numbered(Next(w, t, m).value)
  {
    OwnStep(w, t, m);
  }

  lemma NextKeepsHealthyAt(w: World, t: nat, m: Move, u: nat)
    requires Inv(w) && Healthy(w) && Next(w, t, m).Some? && !LxdFails(w, t, m) && u in Next(w, t, m).value.places
    ensures HealthyAt(Next(w, t, m).value, u)
  {
    if u in w.places { assert HealthyAt(w, u) && PlaceInv(w, u); }
    if t in w.places {
      assert HealthyAt(w, t) && PlaceInv(w, t);
      if u != t && u in w.places && Own(w.places[u]).Some? { assert Own(w.places[u]) != Own(w.places[t]); }
    }
  }

  lemma NextKeepsHealthy(w: World, t: nat, m: Move)
    requires Inv(w) && Healthy(w) && Next(w, t, m).Some? && !LxdFails(w, t, m)
    ensures Healthy(Next(w, t, m).value)
  {
    var w' := Next(w, t, m).value;
    NextKeepsNumbered(w, t, m);
    forall u | u in w'.places ensures HealthyAt(w', u) {
      NextKeepsHealthyAt(w, t, m, u);
    }
    if t in w.places { assert HealthyAt(w, t) && PlaceInv(w, t); }
  }

  /** As long as LXD can be reached, the stored connection is live whenever the lock is free. */
  lemma StoredIsLive(w: World)
    requires Leads(DoHealthy, START, w) && w.lock == None && w.wsConn.Some?
    ensures w.live == {w.wsConn.value}
  {
    forall v: World, move | Inv(v) && Healthy(v) && DoHealthy(v, move).Some?
      ensures Inv(DoHealthy(v, move).value) && Healthy(DoHealthy(v, move).value)
    {
      NextKeepsInv(v, move.0, move.1);
      NextKeepsHealthy(v, move.0, move.1);
    }
    Kept(DoHealthy, v => Inv(v) && Healthy(v), START, w);
    LeadsWithin(DoHealthy, Do, START, w);
    OneTunnel(w, w.wsConn.value);
  }

  /** The stored connection has been closed, and nobody is about to clear it. */
  ghost predicate Stale(w: World) {
    w.lock == None && w.wsConn.Some? && w.live == {}
  }

  /** An opener that finds neither the lock nor a connection taken gets as far as dialing. */
  lemma Dial(start: World, w: World, t: nat) returns (w': World)
    requires Leads(Do, start, w) && t !in w.places && w.lock == None && w.wsConn == None
    ensures Leads(Do, start, w')
    ensures w' == World(Some(t), None, w.live + {w.dialed}, w.dialed + 1, w.places[t := ODialed(w.dialed)])
  {
    w' := Follow(Do, start, w, (t, SpawnOpener));
    w' := Follow(Do, start, w', (t, Step(true)));
    w' := Follow(Do, start, w', (t, Step(true)));
    w' := Follow(Do, start, w', (t, Step(true)));
  }

  /** If it then cannot reach LXD, it closes its connection without clearing the stored one. */
  lemma FailOnLxd(start: World, w: World, t: nat, c: nat) returns (w': World)
    requires Leads(Do, start, w) && t in w.places && w.places[t] == ODialed(c)
    ensures Leads(Do, start, w') && w' == World(None, Some(c), w.live - {c}, w.dialed, w.places[t := Done])
  {
    w' := Follow(Do, start, w, (t, Step(true)));
    w' := Follow(Do, start, w', (t, Step(true)));
    w' := Follow(Do, start, w', (t, Step(false)));
    w' := Follow(Do, start, w', (t, Step(true)));
  }

  /** Wherever no tunnel is stored, an opener that dials and then cannot reach LXD leaves a stale one. */
  lemma LxdFailureLeavesStale(w: World, t: nat)
    requires Reachable(w) && w.lock == None && w.wsConn == None && t !in w.places
    ensures exists w' :: Leads(Do, w, w') && Stale(w')
  {
    if w.live != {} {
      var c :| c in w.live;
      OneTunnel(w, c);
    }
    Here(Do, w);
    var w' := Dial(w, w, t);
    w' := FailOnLxd(w, w', t, w.dialed);
    assert Stale(w');
  }

  /** So a stale tunnel can come about exactly if LXD can fail. */
  lemma StaleIff(lxdCanFail: bool)
    ensures (exists w :: Leads(if lxdCanFail then Do else DoHealthy, START, w) && Stale(w)) <==> lxdCanFail
  {
    if lxdCanFail {
      Here(Do, START);
      LxdFailureLeavesStale(START, 0);
    } else {
      forall w | Leads(DoHealthy, START, w) ensures !Stale(w) {
        if w.lock == None && w.wsConn.Some? { StoredIsLive(w); }
      }
    }
  }

  /** A move of one routine while no closer comes. */
  function DoOpening(w: World, move: (nat, Move)): Option<World> {
    if move.1.SpawnCloser? then None else Do(w, move)
  }

  /** While only openers come, a stale tunnel stays: none of them dials. */
  lemma OpenersLeaveStale(w: World, w': World)
    requires w.wsConn.Some? && w.live == {} && OnlyIdle(w) && Leads(DoOpening, w, w')
    ensures w'.wsConn == w.wsConn && w'.live == {}
  {
    Kept(DoOpening, (v: World) => v.wsConn == w.wsConn && v.live == {} && OnlyIdle(v), w, w');
  }

  ghost predicate OnlyIdle(w: World) {
    forall t :: t in w.places ==> w.places[t] == Done || w.places[t] == OWants || w.places[t] == OLocked
  }
}
