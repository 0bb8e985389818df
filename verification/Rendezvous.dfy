/**
 Confirming joiners: the initiator allows the certificate of every confirmed intent and sends its own intent to every
 joiner at the same time. Every joiner is a handler with sessions of its own, in which anything can happen meanwhile; a
 confirmation is a join request there.
 */
module Rendezvous {
  import opened Services
  import opened Runs
  import Sessions
  import S = SessionRuns

  datatype Joiner = Joiner(name: string, address: string, certificate: string)

  // The confirmed joiners, the initiator's own intent, and the service versions on the system at each address.
  datatype Setting = Setting(joiners: seq<Joiner>, own: Sessions.Intent, local: string -> map<Service, Option<string>>)

  // One confirmation: not due yet, due, sent as a request of the joiner's handler, accepted by it, or failed.
  datatype Call = Unsent | Due | Sent(id: nat) | Accepted(id: nat) | Failed

  datatype Outcome = Running | Confirmed | Aborted

  datatype World = World(
    next: nat,                          // joiners the loop has handled
    calls: seq<Call>,
    trustStore: map<string, string>,
    reset: bool,                        // the initiator's own session was stopped meanwhile
    handlers: map<string, S.World>,     // what happened at each address
    outcome: Outcome
  )

  datatype Move =
    | Allow(parses: bool) | Confirm(i: nat, id: nat, authentic: bool) | Reply(i: nat) | GiveUp(i: nat)
    | AtJoiner(address: string, id: nat, move: S.Move) | StopInitiator | Finish

  function Start(g: Setting): World {
    World(0, seq(|g.joiners|, i => Unsent), map[], false, map[], Running)
  }

  function HandlerAt(w: World, address: string): S.World {
    if address in w.handlers then w.handlers[address] else S.START
  }

  /** The trust store after the first `k` joiners: a later certificate replaces an earlier one of the same name. */
  function Allowed(joiners: seq<Joiner>, k: nat): map<string, string>
    requires k <= |joiners|
  {
    if k == 0 then map[] else Allowed(joiners, k - 1)[joiners[k - 1].name := joiners[k - 1].certificate]
  }

  function WithCall(w: World, i: nat, c: Call): World
    requires i < |w.calls|
  {
    w.(calls := w.calls[i := c])
  }

  function WithHandler(w: World, address: string, h: S.World): World {
    w.(handlers := w.handlers[address := h])
  }

  function Next(g: Setting, w: World, m: Move): Option<World>
    requires |w.calls| == |g.joiners|
  {
    match m
    case Allow(parses) =>
      if w.outcome != Running || w.next >= |g.joiners| then None
      else if !parses then Some(w.(outcome := Aborted))
      else var joiner := g.joiners[w.next];
           Some(w.(trustStore := w.trustStore[joiner.name := joiner.certificate],
                   calls := w.calls[w.next := Due], next := w.next + 1))
    case Confirm(i, id, authentic) =>
      if i >= |w.calls| || w.calls[i] != Due then None
      else
        var address := g.joiners[i].address;
        match S.Next(g.local(address), HandlerAt(w, address), id, S.Arrive(g.own, authentic)) {
          case None => None
          case Some(h) => Some(WithCall(WithHandler(w, address, h), i, Sent(id)))
        }
    case Reply(i) =>
      if i >= |w.calls| || !w.calls[i].Sent? then None
      else
        var (id, h) := (w.calls[i].id, HandlerAt(w, g.joiners[i].address));
        if id !in h.requests then None
        else if h.requests[id].stage.Accepted? then Some(WithCall(w, i, Accepted(id)))
        else if h.requests[id].stage.Finished? then Some(WithCall(w, i, Failed))
        else None
    case GiveUp(i) =>
      if i >= |w.calls| || !(w.calls[i].Due? || w.calls[i].Sent?) then None else Some(WithCall(w, i, Failed))
    case AtJoiner(address, id, move) =>
      match S.Next(g.local(address), HandlerAt(w, address), id, move) {
        case None => None
        case Some(h) => Some(WithHandler(w, address, h))
      }
    case StopInitiator => Some(w.(trustStore := map[], reset := true))
    case Finish =>
      if w.outcome != Running || w.next < |g.joiners| || exists i :: 0 <= i < |w.calls| && !Answered(w.calls[i]) then None
      else Some(w.(outcome := if forall i :: 0 <= i < |w.calls| ==> w.calls[i].Accepted? then Confirmed else Aborted))
  }

  predicate Answered(c: Call) {
    c.Accepted? || c.Failed?
  }

  // ---- Invariant ---------------------------------------------------------------------------------------------------

  /** A call that was sent is the request of the joiner's handler that carries the initiator's intent. */
  ghost predicate CallInv(g: Setting, w: World, i: nat)
    requires i < |w.calls| == |g.joiners|
  {
    var h := HandlerAt(w, g.joiners[i].address);
    match w.calls[i]
    case Sent(id) => id in h.requests && h.requests[id].intent == g.own
    case Accepted(id) => id in h.requests && h.requests[id].intent == g.own && h.requests[id].stage.Accepted?
    case _ => true
  }

  ghost predicate HandlersInv(g: Setting, w: World) {
    forall a :: a in w.handlers ==> S.Reachable(g.local(a), w.handlers[a])
  }

  ghost predicate Inv(g: Setting, w: World) {
    && w.next <= |g.joiners| == |w.calls|
    && (!w.reset ==> w.trustStore == Allowed(g.joiners, w.next))
    && (forall i :: 0 <= i < |w.calls| ==> CallInv(g, w, i))
    && HandlersInv(g, w)
    && (w.outcome == Confirmed ==> w.next == |g.joiners| && forall i :: 0 <= i < |w.calls| ==> w.calls[i].Accepted?)
  }

  lemma HandlerIsReachable(g: Setting, w: World, address: string)
    requires HandlersInv(g, w)
    ensures S.Reachable(g.local(address), HandlerAt(w, address))
  {
    if address !in w.handlers { Here(S.Do(g.local(address)), S.START); }
  }

  /** What happens at one joiner does not undo any call. */
  lemma HandlerKeepsInv(g: Setting, w: World, address: string, id: nat, m: S.Move)
    requires Inv(g, w) && S.Next(g.local(address), HandlerAt(w, address), id, m).Some?
    ensures Inv(g, WithHandler(w, address, S.Next(g.local(address), HandlerAt(w, address), id, m).value))
  {
    var (h, local) := (HandlerAt(w, address), g.local(address));
    var w' := WithHandler(w, address, S.Next(local, h, id, m).value);
    HandlerIsReachable(g, w, address);
    S.ReachableNext(local, h, id, m);
    forall i | 0 <= i < |w.calls| ensures CallInv(g, w', i) {
      assert CallInv(g, w, i);
      if g.joiners[i].address == address && (w.calls[i].Sent? || w.calls[i].Accepted?) {
        S.RequestRemains(local, h, id, m, w.calls[i].id);
      }
    }
  }

  lemma CallKeepsInv(g: Setting, w: World, i: nat, c: Call)
    requires Inv(g, w) && i < |w.calls| && !w.calls[i].Accepted? && CallInv(g, WithCall(w, i, c), i)
    ensures Inv(g, WithCall(w, i, c))
  {
    forall j | 0 <= j < |w.calls| ensures CallInv(g, WithCall(w, i, c), j) {
      assert CallInv(g, w, j);
    }
  }

  lemma ConfirmKeepsInv(g: Setting, w: World, i: nat, id: nat, authentic: bool)
    requires Inv(g, w) && Next(g, w, Confirm(i, id, authentic)).Some?
    ensures Inv(g, Next(g, w, Confirm(i, id, authentic)).value)
  {
    var (address, m) := (g.joiners[i].address, S.Arrive(g.own, authentic));
    HandlerKeepsInv(g, w, address, id, m);
    CallKeepsInv(g, WithHandler(w, address, S.Next(g.local(address), HandlerAt(w, address), id, m).value), i, Sent(id));
  }

  lemma AllowKeepsInv(g: Setting, w: World, parses: bool)
    requires Inv(g, w) && Next(g, w, Allow(parses)).Some?
    ensures Inv(g, Next(g, w, Allow(parses)).value)
  {
    var w' := Next(g, w, Allow(parses)).value;
    forall i | 0 <= i < |w.calls| ensures CallInv(g, w', i) { assert CallInv(g, w, i); }
  }

  /** What the initiator does on its own leaves the calls alone. */
  lemma OtherwiseKeepsInv(g: Setting, w: World, m: Move)
    requires Inv(g, w) && (m.StopInitiator? || m.Finish?) && Next(g, w, m).Some?
    ensures Inv(g, Next(g, w, m).value)
  {
    var w' := Next(g, w, m).value;
    forall i | 0 <= i < |w.calls| ensures CallInv(g, w', i) { assert CallInv(g, w, i); }
  }

  lemma NextKeepsInv(g: Setting, w: World, m: Move)
    requires Inv(g, w) && Next(g, w, m).Some?
    ensures Inv(g, Next(g, w, m).value)
  {
    match m
    case Confirm(i, id, authentic) => ConfirmKeepsInv(g, w, i, id, authentic);
    case Reply(i) =>
      assert CallInv(g, w, i);
      CallKeepsInv(g, w, i, Next(g, w, m).value.calls[i]);
    case GiveUp(i) => CallKeepsInv(g, w, i, Failed);
    case AtJoiner(address, id, move) => HandlerKeepsInv(g, w, address, id, move);
    case Allow(parses) => AllowKeepsInv(g, w, parses);
    case StopInitiator => OtherwiseKeepsInv(g, w, m);
    case Finish => OtherwiseKeepsInv(g, w, m);
  }

  function Do(g: Setting): (World, Move) -> Option<World> {
    (w: World, m: Move) => if |w.calls| == |g.joiners| then Next(g, w, m) else None
  }

  ghost predicate Reachable(g: Setting, w: World) {
    Leads(Do(g), Start(g), w)
  }

  lemma ReachableInv(g: Setting, w: World)
    requires Reachable(g, w)
    ensures Inv(g, w)
  {
    forall v: World, m | Inv(g, v) && Do(g)(v, m).Some? ensures Inv(g, Do(g)(v, m).value) {
      NextKeepsInv(g, v, m);
    }
    Kept(Do(g), v => Inv(g, v), Start(g), w);
  }

  // ---- Confirmation ------------------------------------------------------------------------------------------------

  /** The session that accepted the call has handed the initiator's intent to its consumer. */
  ghost predicate Received(g: Setting, w: World, i: nat)
    requires i < |g.joiners|
  {
    var h := HandlerAt(w, g.joiners[i].address);
    && i < |w.calls| && w.calls[i].Accepted? && w.calls[i].id in h.requests && h.requests[w.calls[i].id].stage.Accepted?
    && var k := h.requests[w.calls[i].id].stage.session; k < |h.entries| && ReceivedIn(h.entries[k], g.own)
  }

  ghost predicate ReceivedIn(e: S.Entry, intent: Sessions.Intent) {
    intent in e.history.delivered || intent in e.history.late
  }

  /**
   When the initiator reports success, every confirmed joiner has received the initiator's intent in the very session
   that accepted it, or somebody asked that joiner to stop a session.
   */
  lemma EveryoneConfirmed(g: Setting, w: World, i: nat)
    requires Reachable(g, w) && w.outcome == Confirmed && i < |g.joiners|
    ensures Received(g, w, i) || S.SomeStop(HandlerAt(w, g.joiners[i].address))
  {
    ReachableInv(g, w);
    var (a, h) := (g.joiners[i].address, HandlerAt(w, g.joiners[i].address));
    assert CallInv(g, w, i) && w.calls[i].Accepted?;
    HandlerIsReachable(g, w, a);
    var k := h.requests[w.calls[i].id].stage.session;
    S.AcceptedWasTaken(g.local(a), h, w.calls[i].id);
    if !S.SomeStop(h) { S.NothingDrained(g.local(a), h, k); }
  }

  // ---- Trust -------------------------------------------------------------------------------------------------------

  ghost predicate Trusts(store: map<string, string>, joiner: Joiner) {
    joiner.name in store && store[joiner.name] == joiner.certificate
  }

  /** Joiners of the same name carry the same certificate. */
  ghost predicate Consistent(joiners: seq<Joiner>) {
    forall i, j :: 0 <= i < |joiners| && 0 <= j < |joiners| && joiners[i].name == joiners[j].name ==>
      joiners[i].certificate == joiners[j].certificate
  }

  lemma {:induction false} AllowedIsLast(joiners: seq<Joiner>, k: nat, i: nat) returns (last: nat)
    requires i < k <= |joiners|
    ensures i <= last < k && joiners[last].name == joiners[i].name && Trusts(Allowed(joiners, k), joiners[last])
  {
    if joiners[k - 1].name == joiners[i].name {
      last := k - 1;
    } else {
      last := AllowedIsLast(joiners, k - 1, i);
    }
  }

  lemma {:induction false} AllowedNames(joiners: seq<Joiner>, k: nat, name: string)
    requires k <= |joiners|
    ensures name in Allowed(joiners, k) <==> exists i :: 0 <= i < k && joiners[i].name == name
  {
    if k > 0 {
      AllowedNames(joiners, k - 1, name);
      if joiners[k - 1].name == name { assert name in Allowed(joiners, k); }
    }
  }

  /**
   When the initiator reports success, its trust store names exactly the confirmed joiners, and holds every confirmed
   certificate exactly if no two joiners of one name carry different certificates.
   */
  lemma EveryoneTrustedIff(g: Setting, w: World)
    requires Reachable(g, w) && w.outcome == Confirmed && !w.reset
    ensures forall name :: name in w.trustStore <==> exists i :: 0 <= i < |g.joiners| && g.joiners[i].name == name
    ensures (forall i :: 0 <= i < |g.joiners| ==> Trusts(w.trustStore, g.joiners[i])) <==> Consistent(g.joiners)
  {
    ReachableInv(g, w);
    var joiners := g.joiners;
    forall name ensures name in w.trustStore <==> exists i :: 0 <= i < |joiners| && joiners[i].name == name {
      AllowedNames(joiners, |joiners|, name);
    }
    if Consistent(joiners) {
      forall i | 0 <= i < |joiners| ensures Trusts(w.trustStore, joiners[i]) {
        var last := AllowedIsLast(joiners, |joiners|, i);
        assert joiners[last].certificate == joiners[i].certificate;
      }
    }
    if forall i :: 0 <= i < |joiners| ==> Trusts(w.trustStore, joiners[i]) {
      forall i, j | 0 <= i < |joiners| && 0 <= j < |joiners| && joiners[i].name == joiners[j].name
        ensures joiners[i].certificate == joiners[j].certificate
      {
        assert Trusts(w.trustStore, joiners[i]) && Trusts(w.trustStore, joiners[j]);
      }
    }
  }

  // ---- When a confirmation can be swallowed ------------------------------------------------------------------------

  /** Whatever can happen at a joiner can happen to it in the course of a rendezvous. */
  lemma FollowAt(g: Setting, w: World, a: string, h: S.World) returns (w': World)
    requires Reachable(g, w) && |w.calls| == |g.joiners| && a in w.handlers
    requires Leads(S.Do(g.local(a)), w.handlers[a], h)
    ensures Reachable(g, w') && w' == WithHandler(w, a, h)
  {
    w' := WithHandler(w, a, h);
    forall v: S.World, move | Reachable(g, WithHandler(w, a, v)) && S.Do(g.local(a))(v, move).Some?
      ensures Reachable(g, WithHandler(w, a, S.Do(g.local(a))(v, move).value))
    {
      StepAt(g, w, a, v, move);
    }
    assert WithHandler(w, a, w.handlers[a]) == w by { assert w.handlers[a := w.handlers[a]] == w.handlers; }
    Kept(S.Do(g.local(a)), v => Reachable(g, WithHandler(w, a, v)), w.handlers[a], h);
  }

  lemma StepAt(g: Setting, w: World, a: string, v: S.World, move: (nat, S.Move))
    requires Reachable(g, WithHandler(w, a, v)) && |w.calls| == |g.joiners| && S.Do(g.local(a))(v, move).Some?
    ensures Reachable(g, WithHandler(w, a, S.Do(g.local(a))(v, move).value))
  {
    var w' := Follow(Do(g), Start(g), WithHandler(w, a, v), AtJoiner(a, move.0, move.1));
    assert w'.handlers == w.handlers[a := S.Do(g.local(a))(v, move).value];
  }

  /** Stop requests have come at most to the addresses in `stoppable`. */
  ghost predicate StopsOnlyAt(w: World, stoppable: set<string>) {
    forall a :: S.SomeStop(HandlerAt(w, a)) ==> a in stoppable
  }

  ghost predicate NothingReceived(h: S.World) {
    forall k :: 0 <= k < |h.entries| ==> h.entries[k].history.delivered == [] && h.entries[k].history.late == []
  }

  /** Between two calls a handler is at rest; requests are numbered below `n`. */
  ghost predicate AtRest(h: S.World, n: nat, stoppable: bool) {
    && S.NoReader(h) && (forall id :: id in h.requests ==> id < n)
    && (if stoppable then NothingReceived(h) else !S.SomeStop(h))
  }

  /**
   The first `j` calls were accepted: at a stoppable address without the intent being received, elsewhere without a
   stop.
   */
  ghost predicate Progress(g: Setting, w: World, stoppable: set<string>, j: nat) {
    && Reachable(g, w) && w.next == j <= |g.joiners| == |w.calls| && w.outcome == Running
    && (forall i :: 0 <= i < j ==> w.calls[i].Accepted?)
    && (forall a :: a in stoppable ==> AtRest(HandlerAt(w, a), 2 * j, true))
    && (forall a :: a !in stoppable ==> AtRest(HandlerAt(w, a), 2 * j, false))
  }

  /** A new session and the request in it. */
  lemma Visit(g: Setting, w: World, j: nat) returns (w': World)
    requires Reachable(g, w) && w.next == j < |g.joiners| == |w.calls| && w.outcome == Running
    requires S.NoReader(HandlerAt(w, g.joiners[j].address)) && 2 * j !in HandlerAt(w, g.joiners[j].address).requests
    ensures Reachable(g, w') && w'.next == j + 1 && w'.outcome == Running && w'.calls == w.calls[j := Sent(2 * j)]
    ensures var (a, h) := (g.joiners[j].address, HandlerAt(w, g.joiners[j].address));
            w'.handlers == w.handlers[a := S.World(h.entries + [S.Entry(Sessions.Started(Sessions.Joining, "p"), S.FRESH)],
                                                   h.requests[2 * j := S.Request(g.own, true, false, S.Arrived)])]
  {
    var a := g.joiners[j].address;
    w' := Follow(Do(g), Start(g), w, Allow(true));
    w' := Follow(Do(g), Start(g), w', AtJoiner(a, 0, S.Start(Sessions.Joining, "p")));
    w' := Follow(Do(g), Start(g), w', Confirm(j, 2 * j, true));
    assert w.calls[j := Due][j := Sent(2 * j)] == w.calls[j := Sent(2 * j)];
  }

  /** What a visit leaves behind at a handler. */
  ghost predicate Visited(h': S.World, id: nat, stoppable: bool) {
    && id in h'.requests && h'.requests[id].stage.Accepted?
    && AtRest(h', id + 2, stoppable)
  }

  /** The intent is received, or swallowed by a stop. */
  lemma Serve(local: map<Service, Option<string>>, own: Sessions.Intent, h: S.World, id: nat, stoppable: bool)
    returns (h': S.World)
    requires AtRest(h, id, stoppable) && own.fingerprint.Some?
    ensures var h1 := S.World(h.entries + [S.Entry(Sessions.Started(Sessions.Joining, "p"), S.FRESH)],
                              h.requests[id := S.Request(own, true, false, S.Arrived)]);
            Leads(S.Do(local), h1, h') && Visited(h', id, stoppable)
  {
    var h1 := S.World(h.entries + [S.Entry(Sessions.Started(Sessions.Joining, "p"), S.FRESH)],
                      h.requests[id := S.Request(own, true, false, S.Arrived)]);
    var h2 := S.Await(local, h1, id, "p");
    if stoppable {
      h' := S.Swallow(local, h1, h2, id, id + 1);
    } else {
      h' := S.Deliver(local, h1, h2, id, |h.entries|);
    }
  }

  lemma OneMore(g: Setting, w: World, stoppable: set<string>, j: nat) returns (w': World)
    requires Progress(g, w, stoppable, j) && j < |g.joiners| && g.own.fingerprint.Some?
    ensures Progress(g, w', stoppable, j + 1)
  {
    var a := g.joiners[j].address;
    var h := HandlerAt(w, a);
    var h' := Serve(g.local(a), g.own, h, 2 * j, a in stoppable);
    var w1 := Visit(g, w, j);
    var w2 := FollowAt(g, w1, a, h');
    w' := Follow(Do(g), Start(g), w2, Reply(j));
  }

  lemma {:induction false} All(g: Setting, w: World, stoppable: set<string>, j: nat) returns (w': World)
    requires Progress(g, w, stoppable, j) && g.own.fingerprint.Some?
    ensures Progress(g, w', stoppable, |g.joiners|)
    decreases |g.joiners| - j
  {
    w' := w;
    if j < |g.joiners| {
      w' := OneMore(g, w, stoppable, j);
      w' := All(g, w', stoppable, j + 1);
    }
  }

  ghost predicate CanSwallow(g: Setting, stoppable: set<string>, i: nat)
    requires i < |g.joiners|
  {
    exists w :: Reachable(g, w) && w.outcome == Confirmed && StopsOnlyAt(w, stoppable) && !Received(g, w, i)
  }

  /**
   If stop requests come to the addresses in `stoppable` only, a joiner can be left without the initiator's intent behind
   a successful report exactly if its address is among them.
   */
  lemma SwallowedIff(g: Setting, stoppable: set<string>, i: nat)
    requires i < |g.joiners| && g.own.fingerprint.Some?
    ensures CanSwallow(g, stoppable, i) <==> g.joiners[i].address in stoppable
  {
    if g.joiners[i].address in stoppable {
      Here(Do(g), Start(g));
      var w := All(g, Start(g), stoppable, 0);
      w := Follow(Do(g), Start(g), w, Finish);
      assert AtRest(HandlerAt(w, g.joiners[i].address), 2 * |g.joiners|, true);
      assert !Received(g, w, i);
      assert StopsOnlyAt(w, stoppable);
    }
    if CanSwallow(g, stoppable, i) {
      var w :| Reachable(g, w) && w.outcome == Confirmed && StopsOnlyAt(w, stoppable) && !Received(g, w, i);
      EveryoneConfirmed(g, w, i);
    }
  }
}
