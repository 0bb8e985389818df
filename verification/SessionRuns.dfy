/**
 Everything that can happen to a handler's sessions at once: join requests at any stage, stop requests, sessions that
 are started and stopped, and a consumer that takes intents off the channel.

 `SessionTransaction` holds the handler's lock: the HMAC check alone, join and stop transactions beside each other.
 Exclusive sections are single steps that need all others to be out; shared ones are split at every point where another
 request can get in between.
 */
module SessionRuns {
  import opened Services
  import opened Sessions
  import opened Runs

  // Where a request is; the number is the session of the transaction it is in. A join request registers its
  // fingerprint, waits for somebody to take its intent off the channel, and is then accepted.
  datatype Stage =
    | Arrived | Authenticated | Inside(session: nat) | Checked(session: nat) | Enrolled(session: nat) | Waiting(session: nat)
    | StopArrived | StopInside(session: nat) | Accepted(session: nat) | Finished(ok: bool)
  {
    /** The request holds the handler's lock, shared with others. */
    predicate Reading() {
      Inside? || Checked? || Pending() || StopInside?
    }

    /** Its fingerprint is registered, and its intent not yet taken. */
    predicate Pending() {
      Enrolled? || Waiting?
    }
  }

  // `stops`: it asks to stop the session instead of joining.
  datatype Request = Request(intent: Intent, authentic: bool, stops: bool, stage: Stage)

  // What happened in a session: failed checks, the stops they asked for, the intents its consumer received before and
  // after it stopped, and those that a stop took off the channel.
  datatype History = History(stopped: bool, failures: nat, stopCalls: nat, delivered: seq<Intent>, late: seq<Intent>,
                             drained: seq<Intent>)

  datatype Entry = Entry(state: State, history: History)

  // The last entry is the handler's session.
  datatype World = World(entries: seq<Entry>, requests: map<nat, Request>)

  datatype Move =
    | Arrive(intent: Intent, authentic: bool) | ArriveStop | Check(stops: bool) | Begin | Validate(known: bool) | Register
    | Send | Receive | Timeout | Crash | Stop(ok: bool, drained: nat)
    | Start(role: Role, passphrase: string) | StopCurrent(ok: bool) | Allow(session: nat, name: string, cert: string)

  const FRESH := History(false, 0, 0, [], [], [])

  const STOP_REQUEST := Request(Intent("", "", None, map[]), false, true, StopArrived)

  predicate NoReader(w: World) {
    forall id :: id in w.requests ==> !w.requests[id].stage.Reading()
  }

  predicate HasActive(w: World) {
    w.entries != [] && w.entries[|w.entries| - 1].state.Active()
  }

  function MoveTo(w: World, id: nat, stage: Stage): World
    requires id in w.requests
  {
    w.(requests := w.requests[id := w.requests[id].(stage := stage)])
  }

  function WithEntry(w: World, k: nat, e: Entry): World
    requires k < |w.entries|
  {
    w.(entries := w.entries[k := e])
  }

  function StoppedEntry(e: Entry, pending: bool): Entry {
    Entry(Stopped(e.state, pending), e.history.(stopped := true))
  }

  /** A stop that takes an intent off the channel instead of closing it. */
  function DrainedEntry(e: Entry, intent: Intent): Entry {
    var stopped := StoppedEntry(e, true);
    stopped.(history := stopped.history.(drained := e.history.drained + [intent]))
  }

  predicate SomeWaiting(w: World, k: nat) {
    exists id :: id in w.requests && w.requests[id].stage == Waiting(k)
  }

  function Next(local: map<Service, Option<string>>, w: World, id: nat, m: Move): Option<World> {
    match m
    case Start(role, passphrase) =>
      if !NoReader(w) || passphrase == "" then None
      else Some(w.(entries := w.entries + [Entry(Started(role, passphrase), FRESH)]))
    case StopCurrent(ok) =>
      if !NoReader(w) then None
      else if w.entries == [] || !ok then Some(w)
      else Some(WithEntry(w, |w.entries| - 1, StoppedEntry(w.entries[|w.entries| - 1], false)))
    case Allow(k, name, cert) =>
      if k >= |w.entries| then None
      else var e := w.entries[k];
           Some(WithEntry(w, k, e.(state := e.state.(trustStore := e.state.trustStore[name := cert]))))
    case Arrive(intent, authentic) =>
      if id in w.requests then None
      else Some(w.(requests := w.requests[id := Request(intent, authentic, false, Arrived)]))
    case ArriveStop =>
      if id in w.requests then None
      else Some(w.(requests := w.requests[id := STOP_REQUEST]))
    case _ => if id in w.requests then RequestStep(local, w, id, m) else None
  }

  function RequestStep(local: map<Service, Option<string>>, w: World, id: nat, m: Move): Option<World>
    requires id in w.requests
  {
    var r := w.requests[id];
    match (m, r.stage)
    case (Check(stops), Arrived) => if NoReader(w) then Some(CheckStep(w, id, stops)) else None
    case (Begin, Authenticated) => Some(MoveTo(w, id, if HasActive(w) then Inside(|w.entries| - 1) else Finished(false)))
    case (Begin, StopArrived) => Some(MoveTo(w, id, if HasActive(w) then StopInside(|w.entries| - 1) else Finished(false)))
    case (Validate(known), Inside(k)) =>
      if k < |w.entries| then Some(MoveTo(w, id, ValidateStage(local, w, r, k, known))) else None
    case (Register, Checked(k)) => if k < |w.entries| then Some(RegisterStep(w, id, k)) else None
    case (Send, Enrolled(k)) =>
      if k < |w.entries| && w.entries[k].state.intentsOpen then Some(MoveTo(w, id, Waiting(k))) else None
    case (Receive, Waiting(k)) =>
      if k < |w.entries| && w.entries[k].state.intentsOpen then Some(ReceiveStep(w, id, k)) else None
    case (Timeout, _) => if r.stage.Pending() then Some(MoveTo(w, id, Finished(false))) else None
    case (Crash, _) =>
      // Sending on a closed channel ends the request.
      if r.stage.Pending() && r.stage.session < |w.entries| && !w.entries[r.stage.session].state.intentsOpen
      then Some(MoveTo(w, id, Finished(false)))
      else None
    case (Stop(ok, drained), StopInside(k)) => if k < |w.entries| then StopStep(w, id, k, ok, drained) else None
    case _ => None
  }

  /** A check that fails is counted, or asks the session to stop. */
  function FailedCheck(e: Entry, stops: bool): Entry {
    var (s, verdict) := AfterCheck(e.state, false, stops, false);
    Entry(s, e.history.(failures := e.history.failures + 1,
                        stopCalls := e.history.stopCalls + if verdict.Counted? then 0 else 1,
                        stopped := verdict.StopDone? || e.history.stopped))
  }

  /** The HMAC check, alone in the handler. */
  function CheckStep(w: World, id: nat, stops: bool): World
    requires id in w.requests
  {
    if !HasActive(w) then MoveTo(w, id, Finished(false))
    else
      var k := |w.entries| - 1;
      var e := w.entries[k];
      if w.requests[id].authentic then MoveTo(w, id, Authenticated)
      else MoveTo(WithEntry(w, k, FailedCheck(e, stops)), id, Finished(false))
  }

  /** The initiator insists on its own services and versions; a certificate without a fingerprint is no good. */
  function ValidateStage(local: map<Service, Option<string>>, w: World, r: Request, k: nat, known: bool): Stage
    requires k < |w.entries|
  {
    if w.entries[k].state.role == Initiating && (!known || !Matches(local, r.intent)) then Finished(false)
    else if r.intent.fingerprint == None then Finished(false)
    else Checked(k)
  }

  function RegisterStep(w: World, id: nat, k: nat): World
    requires id in w.requests && k < |w.entries|
  {
    var (r, e) := (w.requests[id], w.entries[k]);
    if r.intent.fingerprint == None || r.intent.fingerprint.value in e.state.fingerprints then MoveTo(w, id, Finished(false))
    else MoveTo(WithEntry(w, k, e.(state := Registered(e.state, r.intent.fingerprint.value))), id, Enrolled(k))
  }

  function ReceiveStep(w: World, id: nat, k: nat): World
    requires id in w.requests && k < |w.entries|
  {
    var (r, e) := (w.requests[id], w.entries[k]);
    var h := if e.history.stopped then e.history.(late := e.history.late + [r.intent])
             else e.history.(delivered := e.history.delivered + [r.intent]);
    MoveTo(WithEntry(w, k, e.(history := h)), id, Accepted(k))
  }

  /** The intent of a waiting request is swallowed. */
  function Drained(w: World, k: nat, drained: nat): World
    requires drained in w.requests && k < |w.entries|
  {
    MoveTo(WithEntry(w, k, DrainedEntry(w.entries[k], w.requests[drained].intent)), drained, Accepted(k))
  }

  /** Stopping swallows the intent of one waiting request, if there is any, instead of closing the channel. */
  function StopStep(w: World, id: nat, k: nat, ok: bool, drained: nat): Option<World>
    requires id in w.requests && k < |w.entries|
  {
    if !ok then Some(MoveTo(w, id, Finished(false)))
    else if w.entries[k].state.intentsOpen && SomeWaiting(w, k) then
      if drained in w.requests && w.requests[drained].stage == Waiting(k)
      then Some(MoveTo(Drained(w, k, drained), id, Finished(true)))
      else None
    else Some(MoveTo(WithEntry(w, k, StoppedEntry(w.entries[k], false)), id, Finished(true)))
  }

  // ---- Invariant ---------------------------------------------------------------------------------------------------

  /** Counter and history agree: the first fifty failures are counted, every later one asks for a stop. */
  ghost predicate Counts(e: Entry) {
    && e.state.Valid()
    && (e.history.stopped <==> !e.state.Active())
    && (!e.state.intentsOpen ==> e.history.stopped)
    && e.history.stopCalls == (if e.history.failures > 50 then e.history.failures - 50 else 0)
    && (!e.history.stopped ==> e.state.failedAttempts as int == e.history.failures - e.history.stopCalls)
  }

  /** No fingerprint has been delivered twice, and every delivered one stays registered until the session stops. */
  ghost predicate DeliveredOnce(e: Entry) {
    && (forall i :: 0 <= i < |e.history.delivered| ==> e.history.delivered[i].fingerprint.Some?)
    && (forall i, j :: 0 <= i < j < |e.history.delivered| ==>
         e.history.delivered[i].fingerprint != e.history.delivered[j].fingerprint)
    && (!e.history.stopped ==> forall i :: 0 <= i < |e.history.delivered| ==>
         e.history.delivered[i].fingerprint.value in e.state.fingerprints)
  }

  ghost predicate VersionsMatch(local: map<Service, Option<string>>, e: Entry) {
    e.state.role == Initiating ==>
      && (forall i :: 0 <= i < |e.history.delivered| ==> Matches(local, e.history.delivered[i]))
      && (forall i :: 0 <= i < |e.history.late| ==> Matches(local, e.history.late[i]))
  }

  ghost predicate EntryInv(local: map<Service, Option<string>>, e: Entry) {
    Counts(e) && DeliveredOnce(e) && VersionsMatch(local, e)
  }

  ghost predicate RequestInv(local: map<Service, Option<string>>, entries: seq<Entry>, r: Request) {
    && (r.stage.StopArrived? || r.stage.StopInside? ==> r.stops)
    && (r.stage.Reading() || r.stage.Accepted? ==> r.stage.session < |entries|)
    && (r.stage.Checked? || r.stage.Pending() ==>
         r.intent.fingerprint.Some? && (entries[r.stage.session].state.role == Initiating ==> Matches(local, r.intent)))
    && (r.stage.Pending() && !entries[r.stage.session].history.stopped ==>
         && r.intent.fingerprint.value in entries[r.stage.session].state.fingerprints
         && Undelivered(entries[r.stage.session], r.intent.fingerprint))
  }

  ghost predicate Undelivered(e: Entry, fingerprint: Option<string>) {
    forall i :: 0 <= i < |e.history.delivered| ==> e.history.delivered[i].fingerprint != fingerprint
  }

  /** Until the session stops, no two requests are pending with the same fingerprint. */
  ghost predicate Apart(entries: seq<Entry>, a: Request, b: Request) {
    && a.stage.Pending() && b.stage.Pending() && a.stage.session == b.stage.session
    && a.stage.session < |entries| && !entries[a.stage.session].history.stopped ==>
      a.intent.fingerprint != b.intent.fingerprint
  }

  /** Intents are swallowed only if some request asked to stop the session. */
  ghost predicate DrainedByStop(w: World) {
    forall k :: 0 <= k < |w.entries| && w.entries[k].history.drained != [] ==> SomeStop(w)
  }

  predicate SomeStop(w: World) {
    exists id :: id in w.requests && w.requests[id].stops
  }

  ghost predicate Inv(local: map<Service, Option<string>>, w: World) {
    && DrainedByStop(w)
    && (forall k :: 0 <= k < |w.entries| ==> EntryInv(local, w.entries[k]))
    && (forall id :: id in w.requests ==> RequestInv(local, w.entries, w.requests[id]))
    && (forall a, b :: a in w.requests && b in w.requests && a != b ==> Apart(w.entries, w.requests[a], w.requests[b]))
  }

  lemma StopRemains(w: World, id: nat, stage: Stage)
    requires id in w.requests && SomeStop(w)
    ensures SomeStop(MoveTo(w, id, stage))
  {
    var k :| k in w.requests && w.requests[k].stops;
    assert MoveTo(w, id, stage).requests[k].stops;
  }

  lemma MoveKeeps(local: map<Service, Option<string>>, w: World, id: nat, stage: Stage)
    requires Inv(local, w) && id in w.requests
    requires stage.Pending() ==> w.requests[id].stage.Pending() && w.requests[id].stage.session == stage.session
    requires RequestInv(local, w.entries, w.requests[id].(stage := stage))
    ensures Inv(local, MoveTo(w, id, stage))
  {
    var w' := MoveTo(w, id, stage);
    if SomeStop(w) { StopRemains(w, id, stage); }
    forall a, b | a in w.requests && b in w.requests && a != b ensures Apart(w'.entries, w'.requests[a], w'.requests[b]) {
      assert Apart(w.entries, w.requests[a], w.requests[b]);
    }
  }

  /** A session only changes in ways that its requests can live with. */
  ghost predicate Tolerable(e: Entry, e': Entry) {
    && e'.state.role == e.state.role
    && (e.history.stopped ==> e'.history.stopped)
    && e.history.delivered <= e'.history.delivered && e.history.late <= e'.history.late
    && e.history.drained <= e'.history.drained
    && (!e'.history.stopped ==> e'.history.delivered == e.history.delivered && e.state.fingerprints <= e'.state.fingerprints)
  }

  lemma EntryKeeps(local: map<Service, Option<string>>, w: World, k: nat, e': Entry)
    requires Inv(local, w) && k < |w.entries| && EntryInv(local, e') && Tolerable(w.entries[k], e')
    requires e'.history.drained != [] ==> SomeStop(w)
    ensures Inv(local, WithEntry(w, k, e'))
  {
    var w' := WithEntry(w, k, e');
    assert SomeStop(w) ==> SomeStop(w');
    forall id | id in w.requests ensures RequestInv(local, w'.entries, w'.requests[id]) {
      var r := w.requests[id];
      assert RequestInv(local, w.entries, r);
    }
    forall a, b | a in w.requests && b in w.requests && a != b ensures Apart(w'.entries, w'.requests[a], w'.requests[b]) {
      assert Apart(w.entries, w.requests[a], w.requests[b]);
    }
  }

  lemma StoppedKeeps(local: map<Service, Option<string>>, w: World, k: nat, pending: bool)
    requires Inv(local, w) && k < |w.entries|
    ensures Inv(local, WithEntry(w, k, StoppedEntry(w.entries[k], pending)))
  {
    assert EntryInv(local, w.entries[k]);
    EntryKeeps(local, w, k, StoppedEntry(w.entries[k], pending));
  }

  lemma FailedCheckKeeps(local: map<Service, Option<string>>, e: Entry, stops: bool)
    requires EntryInv(local, e) && e.state.Active()
    ensures EntryInv(local, FailedCheck(e, stops)) && Tolerable(e, FailedCheck(e, stops))
    ensures FailedCheck(e, stops).history.drained == e.history.drained
  {
  }

  lemma CheckKeeps(local: map<Service, Option<string>>, w: World, id: nat, stops: bool)
    requires Inv(local, w) && id in w.requests
    ensures Inv(local, CheckStep(w, id, stops))
  {
    if HasActive(w) {
      var k := |w.entries| - 1;
      var e := w.entries[k];
      if w.requests[id].authentic {
        MoveKeeps(local, w, id, Authenticated);
      } else {
        FailedCheckKeeps(local, e, stops);
        EntryKeeps(local, w, k, FailedCheck(e, stops));
        MoveKeeps(local, WithEntry(w, k, FailedCheck(e, stops)), id, Finished(false));
      }
    } else {
      MoveKeeps(local, w, id, Finished(false));
    }
  }

  lemma RegisterKeeps(local: map<Service, Option<string>>, w: World, id: nat, k: nat)
    requires Inv(local, w) && id in w.requests && k < |w.entries| && w.requests[id].stage == Checked(k)
    ensures Inv(local, RegisterStep(w, id, k))
  {
    var (r, e) := (w.requests[id], w.entries[k]);
    assert RequestInv(local, w.entries, r) && EntryInv(local, e);
    var f := r.intent.fingerprint.value;
    if f in e.state.fingerprints {
      MoveKeeps(local, w, id, Finished(false));
    } else {
      var e' := e.(state := Registered(e.state, f));
      EntryKeeps(local, w, k, e');
      EnrollKeeps(local, WithEntry(w, k, e'), w, id, k, f);
    }
  }

  /** A newly registered fingerprint is nobody else's. */
  lemma EnrollKeeps(local: map<Service, Option<string>>, w: World, was: World, id: nat, k: nat, f: string)
    requires Inv(local, w) && Inv(local, was) && id in was.requests && k < |was.entries|
    requires was.requests[id].stage == Checked(k) && was.requests[id].intent.fingerprint == Some(f)
    requires f !in was.entries[k].state.fingerprints
    requires w == WithEntry(was, k, was.entries[k].(state := Registered(was.entries[k].state, f)))
    ensures Inv(local, MoveTo(w, id, Enrolled(k)))
  {
    var r := w.requests[id];
    var r' := r.(stage := Enrolled(k));
    assert RequestInv(local, was.entries, r) && EntryInv(local, was.entries[k]);
    assert w.entries[k].state.fingerprints == was.entries[k].state.fingerprints + [f];
    assert RequestInv(local, w.entries, r');
    if SomeStop(w) { StopRemains(w, id, Enrolled(k)); }
    forall b | b in w.requests && b != id
      ensures Apart(w.entries, r', w.requests[b]) && Apart(w.entries, w.requests[b], r')
    {
      assert RequestInv(local, was.entries, w.requests[b]);
    }
  }

  lemma ReceiveLateKeeps(local: map<Service, Option<string>>, w: World, id: nat, k: nat)
    requires Inv(local, w) && id in w.requests && k < |w.entries| && w.requests[id].stage == Waiting(k)
    requires w.entries[k].history.stopped
    ensures Inv(local, ReceiveStep(w, id, k))
  {
    var (r, e) := (w.requests[id], w.entries[k]);
    assert RequestInv(local, w.entries, r) && EntryInv(local, e);
    var e' := e.(history := e.history.(late := e.history.late + [r.intent]));
    EntryKeeps(local, w, k, e');
    MoveKeeps(local, WithEntry(w, k, e'), id, Accepted(k));
  }

  lemma ReceiveInTimeKeeps(local: map<Service, Option<string>>, w: World, id: nat, k: nat)
    requires Inv(local, w) && id in w.requests && k < |w.entries| && w.requests[id].stage == Waiting(k)
    requires !w.entries[k].history.stopped
    ensures Inv(local, ReceiveStep(w, id, k))
  {
    var (r, e) := (w.requests[id], w.entries[k]);
    assert RequestInv(local, w.entries, r) && EntryInv(local, e);
    var e' := e.(history := e.history.(delivered := e.history.delivered + [r.intent]));
    assert EntryInv(local, e');
    MoveKeeps(local, w, id, Accepted(k));
    DeliverKeeps(local, w, MoveTo(w, id, Accepted(k)), id, k, e');
  }

  lemma ReceiveKeeps(local: map<Service, Option<string>>, w: World, id: nat, k: nat)
    requires Inv(local, w) && id in w.requests && k < |w.entries| && w.requests[id].stage == Waiting(k)
    ensures Inv(local, ReceiveStep(w, id, k))
  {
    if w.entries[k].history.stopped {
      ReceiveLateKeeps(local, w, id, k);
    } else {
      ReceiveInTimeKeeps(local, w, id, k);
    }
  }

  lemma DeliverKeeps(local: map<Service, Option<string>>, was: World, w: World, id: nat, k: nat, e': Entry)
    requires Inv(local, was) && id in was.requests && k < |was.entries| && was.requests[id].stage == Waiting(k)
    requires w == MoveTo(was, id, Accepted(k)) && Inv(local, w) && !was.entries[k].history.stopped
             && EntryInv(local, e')
    requires var (e, r) := (was.entries[k], was.requests[id]);
             e' == e.(history := e.history.(delivered := e.history.delivered + [r.intent]))
    ensures Inv(local, WithEntry(w, k, e'))
  {
    var w' := WithEntry(w, k, e');
    assert SomeStop(w) ==> SomeStop(w');
    forall b | b in w.requests ensures RequestInv(local, w'.entries, w'.requests[b]) {
      assert RequestInv(local, w.entries, w.requests[b]);
      if b != id && w.requests[b].stage.Pending() && w.requests[b].stage.session == k {
        assert Apart(was.entries, was.requests[id], was.requests[b]);
      }
    }
    forall a, b | a in w.requests && b in w.requests && a != b ensures Apart(w'.entries, w'.requests[a], w'.requests[b]) {
      assert Apart(w.entries, w.requests[a], w.requests[b]);
    }
  }

  lemma DrainKeeps(local: map<Service, Option<string>>, w: World, id: nat, k: nat, drained: nat)
    requires Inv(local, w) && id in w.requests && w.requests[id].stage == StopInside(k) && k < |w.entries|
    requires drained in w.requests && w.requests[drained].stage == Waiting(k)
    ensures Inv(local, Drained(w, k, drained))
  {
    var e' := DrainedEntry(w.entries[k], w.requests[drained].intent);
    assert RequestInv(local, w.entries, w.requests[id]) && SomeStop(w);
    assert EntryInv(local, w.entries[k]);
    EntryKeeps(local, w, k, e');
    MoveKeeps(local, WithEntry(w, k, e'), drained, Accepted(k));
  }

  lemma StopKeeps(local: map<Service, Option<string>>, w: World, id: nat, k: nat, ok: bool, drained: nat)
    requires Inv(local, w) && id in w.requests && w.requests[id].stage == StopInside(k) && k < |w.entries|
    requires StopStep(w, id, k, ok, drained).Some?
    ensures Inv(local, StopStep(w, id, k, ok, drained).value)
  {
    if !ok {
      MoveKeeps(local, w, id, Finished(false));
    } else if w.entries[k].state.intentsOpen && SomeWaiting(w, k) {
      DrainKeeps(local, w, id, k, drained);
      MoveKeeps(local, Drained(w, k, drained), id, Finished(true));
    } else {
      StoppedKeeps(local, w, k, false);
      MoveKeeps(local, WithEntry(w, k, StoppedEntry(w.entries[k], false)), id, Finished(true));
    }
  }

  lemma PlainMoveKeeps(local: map<Service, Option<string>>, w: World, id: nat, m: Move)
    requires Inv(local, w) && id in w.requests && RequestStep(local, w, id, m).Some?
    requires m.Begin? || m.Validate? || m.Send? || m.Timeout? || m.Crash?
    ensures Inv(local, RequestStep(local, w, id, m).value)
  {
    var r := w.requests[id];
    assert RequestInv(local, w.entries, r);
    MoveKeeps(local, w, id, RequestStep(local, w, id, m).value.requests[id].stage);
  }

  lemma RequestStepKeeps(local: map<Service, Option<string>>, w: World, id: nat, m: Move)
    requires Inv(local, w) && id in w.requests && RequestStep(local, w, id, m).Some?
    ensures Inv(local, RequestStep(local, w, id, m).value)
  {
    var r := w.requests[id];
    assert RequestInv(local, w.entries, r);
    match (m, r.stage)
    case (Check(stops), Arrived) => CheckKeeps(local, w, id, stops);
    case (Register, Checked(k)) => RegisterKeeps(local, w, id, k);
    case (Receive, Waiting(k)) => ReceiveKeeps(local, w, id, k);
    case (Stop(ok, drained), StopInside(k)) => StopKeeps(local, w, id, k, ok, drained);
    case _ => PlainMoveKeeps(local, w, id, m);
  }

  lemma StartKeeps(local: map<Service, Option<string>>, w: World, role: Role, passphrase: string)
    requires Inv(local, w) && passphrase != ""
    ensures Inv(local, w.(entries := w.entries + [Entry(Started(role, passphrase), FRESH)]))
  {
    var e := Entry(Started(role, passphrase), FRESH);
    var w' := w.(entries := w.entries + [e]);
    assert EntryInv(local, e);
    forall id | id in w.requests ensures RequestInv(local, w'.entries, w'.requests[id]) {
      assert RequestInv(local, w.entries, w.requests[id]);
    }
    forall a, b | a in w.requests && b in w.requests && a != b ensures Apart(w'.entries, w'.requests[a], w'.requests[b]) {
      assert Apart(w.entries, w.requests[a], w.requests[b]);
      assert RequestInv(local, w.entries, w.requests[a]);
    }
  }

  lemma ArriveKeeps(local: map<Service, Option<string>>, w: World, id: nat, r: Request)
    requires Inv(local, w) && id !in w.requests && (r.stage == Arrived || r == STOP_REQUEST)
    ensures Inv(local, w.(requests := w.requests[id := r]))
  {
    if SomeStop(w) {
      var k :| k in w.requests && w.requests[k].stops;
      assert w.requests[id := r][k].stops;
    }
  }

  lemma NextKeepsInv(local: map<Service, Option<string>>, w: World, id: nat, m: Move)
    requires Inv(local, w) && Next(local, w, id, m).Some?
    ensures Inv(local, Next(local, w, id, m).value)
  {
    match m
    case Start(role, passphrase) => StartKeeps(local, w, role, passphrase);
    case StopCurrent(ok) => if w.entries != [] && ok { StoppedKeeps(local, w, |w.entries| - 1, false); }
    case Allow(k, name, cert) =>
      var e := w.entries[k];
      assert EntryInv(local, e);
      EntryKeeps(local, w, k, e.(state := e.state.(trustStore := e.state.trustStore[name := cert])));
    case Arrive(intent, authentic) => ArriveKeeps(local, w, id, Request(intent, authentic, false, Arrived));
    case ArriveStop => ArriveKeeps(local, w, id, STOP_REQUEST);
    case _ => RequestStepKeeps(local, w, id, m);
  }

  // ---- Whole runs --------------------------------------------------------------------------------------------------

  /** A move of one request, or of the handler. */
  function Do(local: map<Service, Option<string>>): (World, (nat, Move)) -> Option<World> {
    (w: World, move: (nat, Move)) => Next(local, w, move.0, move.1)
  }

  const START := World([], map[])

  /** Whatever a handler can come to, starting without a session and without requests. */
  ghost predicate Reachable(local: map<Service, Option<string>>, w: World) {
    Leads(Do(local), START, w)
  }

  lemma LeadsKeepsInv(local: map<Service, Option<string>>, w: World, w': World)
    requires Inv(local, w) && Leads(Do(local), w, w')
    ensures Inv(local, w')
  {
    forall v: World, move | Inv(local, v) && Do(local)(v, move).Some? ensures Inv(local, Do(local)(v, move).value) {
      NextKeepsInv(local, v, move.0, move.1);
    }
    Kept(Do(local), v => Inv(local, v), w, w');
  }

  lemma ReachableInv(local: map<Service, Option<string>>, w: World)
    requires Reachable(local, w)
    ensures Inv(local, w)
  {
    LeadsKeepsInv(local, START, w);
  }

  /** Between start and stop, no two intents with the same certificate fingerprint are delivered. */
  lemma NoIntentTwice(local: map<Service, Option<string>>, w: World, k: nat, i: nat, j: nat)
    requires Reachable(local, w) && k < |w.entries| && i < j < |w.entries[k].history.delivered|
    ensures w.entries[k].history.delivered[i].fingerprint.Some?
    ensures w.entries[k].history.delivered[i].fingerprint != w.entries[k].history.delivered[j].fingerprint
  {
    ReachableInv(local, w);
    assert EntryInv(local, w.entries[k]);
  }

  // Every intent taken is that of one accepted request.

  ghost function Acceptors(requests: map<nat, Request>, k: nat, intent: Intent): set<nat> {
    set id | id in requests && requests[id].stage == Accepted(k) && requests[id].intent == intent
  }

  /** What was taken off a session's channel, by its consumer or by stops. */
  function Taken(e: Entry): seq<Intent> {
    e.history.delivered + e.history.late + e.history.drained
  }

  /** An intent was taken off a session's channel as often as there are requests accepted there that carry it. */
  ghost predicate Conserved(w: World, k: nat, intent: Intent) {
    k < |w.entries| ==> multiset(Taken(w.entries[k]))[intent] == |Acceptors(w.requests, k, intent)|
  }

  lemma Updated(requests: map<nat, Request>, id: nat, r: Request, j: nat, intent: Intent)
    requires id in requests ==> !requests[id].stage.Accepted?
    ensures Acceptors(requests[id := r], j, intent)
            == Acceptors(requests, j, intent) + if r.stage == Accepted(j) && r.intent == intent then {id} else {}
    ensures id !in Acceptors(requests, j, intent)
  {
  }

  lemma OneAccepted(w: World, w': World, id: nat, k: nat, j: nat, intent: Intent)
    requires Conserved(w, j, intent) && k < |w.entries| == |w'.entries| && id in w.requests
             && !w.requests[id].stage.Accepted?
    requires w'.requests == w.requests[id := w.requests[id].(stage := Accepted(k))]
    requires multiset(Taken(w'.entries[k])) == multiset(Taken(w.entries[k])) + multiset{w.requests[id].intent}
    requires j != k && j < |w.entries| ==> Taken(w'.entries[j]) == Taken(w.entries[j])
    ensures Conserved(w', j, intent)
  {
    Updated(w.requests, id, w.requests[id].(stage := Accepted(k)), j, intent);
  }

  lemma ReceiveConserves(w: World, id: nat, k: nat, j: nat, intent: Intent)
    requires Conserved(w, j, intent) && id in w.requests && k < |w.entries| && w.requests[id].stage == Waiting(k)
    ensures Conserved(ReceiveStep(w, id, k), j, intent)
  {
    OneAccepted(w, ReceiveStep(w, id, k), id, k, j, intent);
  }

  /** No intent is taken, and no request accepted. */
  ghost predicate Quiet(w: World, w': World, id: nat) {
    && |w'.entries| == |w.entries|
    && (forall k :: 0 <= k < |w.entries| ==> Taken(w'.entries[k]) == Taken(w.entries[k]))
    && (w'.requests == w.requests || QuietRequest(w, w', id))
  }

  ghost predicate QuietRequest(w: World, w': World, id: nat) {
    && id in w'.requests && w'.requests == w.requests[id := w'.requests[id]]
    && !w'.requests[id].stage.Accepted? && (id in w.requests ==> !w.requests[id].stage.Accepted?)
  }

  lemma RequestQuiet(local: map<Service, Option<string>>, w: World, id: nat, m: Move)
    requires id in w.requests && !m.Receive? && !m.Stop? && RequestStep(local, w, id, m).Some?
    ensures Quiet(w, RequestStep(local, w, id, m).value, id)
  {
    var w' := RequestStep(local, w, id, m).value;
    assert w'.requests == w.requests[id := w'.requests[id]];
  }

  lemma HandlerQuiet(local: map<Service, Option<string>>, w: World, id: nat, m: Move)
    requires (m.StopCurrent? || m.Allow? || m.Arrive? || m.ArriveStop?) && Next(local, w, id, m).Some?
    ensures Quiet(w, Next(local, w, id, m).value, id)
  {
  }

  lemma QuietConserves(w: World, w': World, id: nat, j: nat, intent: Intent)
    requires Quiet(w, w', id) && Conserved(w, j, intent)
    ensures Conserved(w', j, intent)
  {
    if w'.requests != w.requests { Updated(w.requests, id, w'.requests[id], j, intent); }
  }

  lemma DrainConserves(w: World, k: nat, drained: nat, j: nat, intent: Intent)
    requires Conserved(w, j, intent) && k < |w.entries| && drained in w.requests
             && w.requests[drained].stage == Waiting(k)
    ensures Conserved(Drained(w, k, drained), j, intent)
  {
    OneAccepted(w, Drained(w, k, drained), drained, k, j, intent);
  }

  lemma StopConserves(w: World, id: nat, k: nat, ok: bool, drained: nat, j: nat, intent: Intent)
    requires Conserved(w, j, intent) && id in w.requests && k < |w.entries| && w.requests[id].stage == StopInside(k)
    requires StopStep(w, id, k, ok, drained).Some?
    ensures Conserved(StopStep(w, id, k, ok, drained).value, j, intent)
  {
    var w' := StopStep(w, id, k, ok, drained).value;
    if ok && w.entries[k].state.intentsOpen && SomeWaiting(w, k) {
      DrainConserves(w, k, drained, j, intent);
      QuietConserves(Drained(w, k, drained), w', id, j, intent);
    } else {
      QuietConserves(w, w', id, j, intent);
    }
  }

  lemma StartConserves(local: map<Service, Option<string>>, w: World, e: Entry, j: nat, intent: Intent)
    requires Inv(local, w) && Conserved(w, j, intent) && Taken(e) == []
    ensures Conserved(w.(entries := w.entries + [e]), j, intent)
  {
    if j == |w.entries| {
      forall b | b in w.requests ensures b !in Acceptors(w.requests, j, intent) {
        assert RequestInv(local, w.entries, w.requests[b]);
      }
      assert Acceptors(w.requests, j, intent) == {};
    }
  }

  lemma RequestConserves(local: map<Service, Option<string>>, w: World, id: nat, m: Move, j: nat, intent: Intent)
    requires Conserved(w, j, intent) && id in w.requests && RequestStep(local, w, id, m).Some?
    ensures Conserved(RequestStep(local, w, id, m).value, j, intent)
  {
    if m.Receive? {
      ReceiveConserves(w, id, w.requests[id].stage.session, j, intent);
    } else if m.Stop? {
      StopConserves(w, id, w.requests[id].stage.session, m.ok, m.drained, j, intent);
    } else {
      RequestQuiet(local, w, id, m);
      QuietConserves(w, RequestStep(local, w, id, m).value, id, j, intent);
    }
  }

  lemma NextConserves(local: map<Service, Option<string>>, w: World, id: nat, m: Move, j: nat, intent: Intent)
    requires Inv(local, w) && Conserved(w, j, intent) && Next(local, w, id, m).Some?
    ensures Conserved(Next(local, w, id, m).value, j, intent)
  {
    if m.Start? {
      StartConserves(local, w, Entry(Started(m.role, m.passphrase), FRESH), j, intent);
    } else if m.StopCurrent? || m.Allow? || m.Arrive? || m.ArriveStop? {
      HandlerQuiet(local, w, id, m);
      QuietConserves(w, Next(local, w, id, m).value, id, j, intent);
    } else {
      RequestConserves(local, w, id, m, j, intent);
    }
  }

  /**
   Every intent taken off a session's channel is that of one request accepted there, and every such request's intent
   was taken: by the session's consumer, before or after the session stopped, or by a stop.
   */
  lemma AcceptedIsTaken(local: map<Service, Option<string>>, w: World, k: nat, intent: Intent)
    requires Reachable(local, w) && k < |w.entries|
    ensures multiset(Taken(w.entries[k]))[intent] == |Acceptors(w.requests, k, intent)|
  {
    forall v: World, move | Inv(local, v) && Conserved(v, k, intent) && Do(local)(v, move).Some?
      ensures var v' := Do(local)(v, move).value; Inv(local, v') && Conserved(v', k, intent)
    {
      NextKeepsInv(local, v, move.0, move.1);
      NextConserves(local, v, move.0, move.1, k, intent);
    }
    Kept(Do(local), v => Inv(local, v) && Conserved(v, k, intent), START, w);
  }

  /** So an accepted request's intent is among those taken. */
  lemma AcceptedWasTaken(local: map<Service, Option<string>>, w: World, id: nat)
    requires Reachable(local, w) && id in w.requests && w.requests[id].stage.Accepted?
    ensures var k := w.requests[id].stage.session; k < |w.entries| && w.requests[id].intent in Taken(w.entries[k])
  {
    var (k, intent) := (w.requests[id].stage.session, w.requests[id].intent);
    ReachableInv(local, w);
    assert RequestInv(local, w.entries, w.requests[id]);
    AcceptedIsTaken(local, w, k, intent);
    assert id in Acceptors(w.requests, k, intent);
  }

  /** Only a stop request in its transaction swallows an intent, and only one at a time. */
  lemma DrainedOnlyByStop(local: map<Service, Option<string>>, w: World, id: nat, m: Move, k: nat)
    requires Next(local, w, id, m).Some? && k < |w.entries|
    ensures var (h, h') := (w.entries[k].history, Next(local, w, id, m).value.entries[k].history);
            h'.drained == h.drained
            || (m.Stop? && id in w.requests && w.requests[id].stage == StopInside(k) && m.drained in w.requests
                && w.requests[m.drained].stage == Waiting(k) && h'.drained == h.drained + [w.requests[m.drained].intent])
  {
  }

  /** As long as nobody has asked to stop a session, nothing has been swallowed. */
  lemma NothingDrained(local: map<Service, Option<string>>, w: World, k: nat)
    requires Reachable(local, w) && k < |w.entries| && !SomeStop(w)
    ensures w.entries[k].history.drained == []
  {
    ReachableInv(local, w);
  }

  /** As long as a request waits in a session, the session's channel is open. */
  ghost predicate OpenFor(w: World, id: nat) {
    id in w.requests && w.requests[id].stage.Waiting? && w.requests[id].stage.session < |w.entries| ==>
      w.entries[w.requests[id].stage.session].state.intentsOpen
  }

  lemma RequestKeepsOpen(local: map<Service, Option<string>>, w: World, id: nat, m: Move, b: nat)
    requires OpenFor(w, b) && id in w.requests && RequestStep(local, w, id, m).Some?
    ensures OpenFor(RequestStep(local, w, id, m).value, b)
  {
    if b in w.requests && w.requests[b].stage.Waiting? { assert SomeWaiting(w, w.requests[b].stage.session); }
  }

  lemma NextKeepsOpen(local: map<Service, Option<string>>, w: World, id: nat, m: Move, b: nat)
    requires Inv(local, w) && OpenFor(w, b) && Next(local, w, id, m).Some?
    ensures OpenFor(Next(local, w, id, m).value, b)
  {
    if b in w.requests { assert RequestInv(local, w.entries, w.requests[b]); }
    if id in w.requests && !m.Start? && !m.StopCurrent? && !m.Allow? { RequestKeepsOpen(local, w, id, m, b); }
  }

  /** A stop never closes the channel on a waiting request: only one that has not come to send yet can crash. */
  lemma CrashesBeforeSending(local: map<Service, Option<string>>, w: World, id: nat)
    requires Reachable(local, w) && Next(local, w, id, Crash).Some?
    ensures w.requests[id].stage.Enrolled? && w.entries[w.requests[id].stage.session].history.stopped
  {
    forall v: World, move | Inv(local, v) && OpenFor(v, id) && Do(local)(v, move).Some?
      ensures var v' := Do(local)(v, move).value; Inv(local, v') && OpenFor(v', id)
    {
      NextKeepsInv(local, v, move.0, move.1);
      NextKeepsOpen(local, v, move.0, move.1, id);
    }
    Kept(Do(local), v => Inv(local, v) && OpenFor(v, id), START, w);
    assert EntryInv(local, w.entries[w.requests[id].stage.session]);
  }

  /** Every intent delivered on an initiating session names each local service in exactly the local version. */
  lemma ExactVersions(local: map<Service, Option<string>>, w: World, k: nat, intent: Intent, s: Service)
    requires Reachable(local, w) && k < |w.entries| && w.entries[k].state.role == Initiating && s in local
    requires intent in w.entries[k].history.delivered || intent in w.entries[k].history.late
    ensures s in intent.services && local[s] == Some(intent.services[s])
  {
    ReachableInv(local, w);
    assert EntryInv(local, w.entries[k]);
    assert Matches(local, intent);
  }

  /** The counter stays within its limit; the first fifty failures count up, each later one asks the session to stop. */
  lemma FailureLimit(local: map<Service, Option<string>>, w: World, id: nat, stops: bool)
    requires Reachable(local, w) && id in w.requests && w.requests[id].stage == Arrived && NoReader(w)
    requires HasActive(w) && !w.requests[id].authentic
    ensures Next(local, w, id, Check(stops)).Some?
    ensures var (e, e') := (w.entries[|w.entries| - 1], CheckStep(w, id, stops).entries[|w.entries| - 1]);
            && e.state.failedAttempts <= 50 && e'.state.failedAttempts <= 50
            && e'.history.failures == e.history.failures + 1
            && (e'.history.failures <= 50 ==>
                 e'.state.failedAttempts as int == e'.history.failures && e'.history.stopCalls == 0)
            && (e'.history.failures > 50 ==> e'.history.stopCalls == e.history.stopCalls + 1)
            && (e'.history.failures > 50 && stops ==> e'.history.stopped && !e'.state.Active())
  {
    ReachableInv(local, w);
    assert EntryInv(local, w.entries[|w.entries| - 1]);
  }

  ghost predicate InSession(r: Request, k: nat) {
    r.stage.Reading() && r.stage.session == k
  }

  ghost predicate StoppedAt(w: World, k: nat) {
    k < |w.entries| && w.entries[k].history.stopped
  }

  lemma StopStays(local: map<Service, Option<string>>, w: World, id: nat, m: Move, k: nat)
    requires Next(local, w, id, m).Some? && StoppedAt(w, k)
    ensures StoppedAt(Next(local, w, id, m).value, k)
  {
  }

  /** A request enters no session but the last, and that only while it is active. */
  lemma EntersActive(local: map<Service, Option<string>>, w: World, id: nat, m: Move, k: nat, b: nat)
    requires Next(local, w, id, m).Some? && b in Next(local, w, id, m).value.requests
    requires HasActive(w) ==> k < |w.entries| - 1
    requires InSession(Next(local, w, id, m).value.requests[b], k)
    ensures b in w.requests && InSession(w.requests[b], k)
  {
    if id in w.requests && !m.Start? && !m.StopCurrent? && !m.Allow? && !m.Arrive? && !m.ArriveStop? {
      RequestEnters(local, w, id, m, k, b);
    }
  }

  lemma RequestEnters(local: map<Service, Option<string>>, w: World, id: nat, m: Move, k: nat, b: nat)
    requires id in w.requests && RequestStep(local, w, id, m).Some? && b in RequestStep(local, w, id, m).value.requests
    requires HasActive(w) ==> k < |w.entries| - 1
    requires InSession(RequestStep(local, w, id, m).value.requests[b], k)
    ensures b in w.requests && InSession(w.requests[b], k)
  {
  }

  /** Nobody is in the session who was not in it at `w`. */
  ghost predicate NobodyNew(w: World, w': World, k: nat) {
    forall b :: b in w'.requests && InSession(w'.requests[b], k) ==> b in w.requests && InSession(w.requests[b], k)
  }

  lemma StoppedStep(local: map<Service, Option<string>>, w: World, id: nat, m: Move, k: nat)
    requires Inv(local, w) && Next(local, w, id, m).Some? && StoppedAt(w, k)
    ensures var w' := Next(local, w, id, m).value;
            StoppedAt(w', k) && NobodyNew(w, w', k)
  {
    assert EntryInv(local, w.entries[k]);
    assert HasActive(w) ==> k < |w.entries| - 1;
    StopStays(local, w, id, m, k);
    var w' := Next(local, w, id, m).value;
    forall b | b in w'.requests && InSession(w'.requests[b], k) ensures b in w.requests && InSession(w.requests[b], k) {
      EntersActive(local, w, id, m, k, b);
    }
  }

  /** Once a session has stopped it stays so, and no transaction begins in it any more. */
  lemma StoppedForGood(local: map<Service, Option<string>>, w: World, w': World, k: nat)
    requires Inv(local, w) && Leads(Do(local), w, w') && StoppedAt(w, k)
    ensures StoppedAt(w', k) && NobodyNew(w, w', k)
  {
    forall v: World, move | Inv(local, v) && StoppedAt(v, k) && NobodyNew(w, v, k) && Do(local)(v, move).Some?
      ensures var v' := Do(local)(v, move).value; Inv(local, v') && StoppedAt(v', k) && NobodyNew(w, v', k)
    {
      NextKeepsInv(local, v, move.0, move.1);
      StoppedStep(local, v, move.0, move.1, k);
    }
    Kept(Do(local), v => Inv(local, v) && StoppedAt(v, k) && NobodyNew(w, v, k), w, w');
  }

  /** The certificates that the handler shows. */
  function TemporaryTrustStore(w: World): map<string, string> {
    if HasActive(w) then w.entries[|w.entries| - 1].state.trustStore else map[]
  }

  /** After a stop the handler shows no certificate, not even one allowed later, until another session starts. */
  lemma NoTrustAfterStop(local: map<Service, Option<string>>, w: World, w': World)
    requires Reachable(local, w) && w.entries != [] && StoppedAt(w, |w.entries| - 1) && Leads(Do(local), w, w')
    ensures |w'.entries| > |w.entries| || TemporaryTrustStore(w') == map[]
  {
    ReachableInv(local, w);
    StoppedForGood(local, w, w', |w.entries| - 1);
    LeadsKeepsInv(local, w, w');
    assert EntryInv(local, w'.entries[|w.entries| - 1]);
  }

  // ---- Single requests ---------------------------------------------------------------------------------------------

  lemma ReachableNext(local: map<Service, Option<string>>, w: World, id: nat, m: Move)
    requires Reachable(local, w) && Next(local, w, id, m).Some?
    ensures Reachable(local, Next(local, w, id, m).value)
  {
    var w' := Follow(Do(local), START, w, (id, m));
  }

  /** A request stays what it is, and one that was accepted stays accepted. */
  lemma RequestRemains(local: map<Service, Option<string>>, w: World, id: nat, m: Move, b: nat)
    requires Next(local, w, id, m).Some? && b in w.requests
    ensures var w' := Next(local, w, id, m).value;
            && b in w'.requests && w'.requests[b].intent == w.requests[b].intent
            && (w.requests[b].stage.Accepted? ==> w'.requests[b] == w.requests[b])
  {
    if id in w.requests && !m.Start? && !m.StopCurrent? && !m.Allow? && !m.Arrive? && !m.ArriveStop? {
      StepRemains(local, w, id, m, b);
    }
  }

  lemma StepRemains(local: map<Service, Option<string>>, w: World, id: nat, m: Move, b: nat)
    requires id in w.requests && RequestStep(local, w, id, m).Some? && b in w.requests
    ensures var w' := RequestStep(local, w, id, m).value;
            && b in w'.requests && w'.requests[b].intent == w.requests[b].intent
            && (w.requests[b].stage.Accepted? ==> w'.requests[b] == w.requests[b])
  {
  }

  /** A join request that has just arrived, alone, at a joiner whose last session has just started. */
  ghost predicate JustArrived(w: World, id: nat, passphrase: string) {
    && NoReader(w) && w.entries != [] && w.entries[|w.entries| - 1] == Entry(Started(Joining, passphrase), FRESH)
    && passphrase != "" && id in w.requests && w.requests[id].stage == Arrived && w.requests[id].authentic
    && w.requests[id].intent.fingerprint.Some?
  }

  function RegisteredEntry(passphrase: string, fingerprint: string): Entry {
    Entry(Registered(Started(Joining, passphrase), fingerprint), FRESH)
  }

  lemma GetIn(local: map<Service, Option<string>>, w: World, id: nat, passphrase: string) returns (w': World)
    requires JustArrived(w, id, passphrase)
    ensures Leads(Do(local), w, w') && w' == MoveTo(w, id, Inside(|w.entries| - 1))
  {
    Here(Do(local), w);
    w' := Follow(Do(local), w, w, (id, Check(false)));
    assert w' == MoveTo(w, id, Authenticated);
    w' := Follow(Do(local), w, w', (id, Begin));
  }

  /** It registers the certificate's fingerprint. */
  lemma Enroll(local: map<Service, Option<string>>, w: World, id: nat, passphrase: string) returns (w': World)
    requires JustArrived(w, id, passphrase)
    ensures Leads(Do(local), w, w') && w' == EnrolledWorld(w, id, passphrase)
  {
    w' := GetIn(local, w, id, passphrase);
    w' := Follow(Do(local), w, w', (id, Validate(true)));
    assert w' == MoveTo(w, id, Checked(|w.entries| - 1));
    w' := Follow(Do(local), w, w', (id, Register));
  }

  ghost function EnrolledWorld(w: World, id: nat, passphrase: string): World
    requires JustArrived(w, id, passphrase)
  {
    var k := |w.entries| - 1;
    MoveTo(WithEntry(w, k, RegisteredEntry(passphrase, w.requests[id].intent.fingerprint.value)), id, Enrolled(k))
  }

  /** And gets as far as waiting for the session's consumer. */
  lemma Await(local: map<Service, Option<string>>, w: World, id: nat, passphrase: string) returns (w': World)
    requires JustArrived(w, id, passphrase)
    ensures Leads(Do(local), w, w') && w' == MoveTo(EnrolledWorld(w, id, passphrase), id, Waiting(|w.entries| - 1))
  {
    w' := Enroll(local, w, id, passphrase);
    w' := Follow(Do(local), w, w', (id, Send));
  }

  /** The consumer receives the intent. */
  lemma Deliver(local: map<Service, Option<string>>, start: World, w: World, id: nat, k: nat) returns (w': World)
    requires Leads(Do(local), start, w) && k < |w.entries| && w.entries[k].state.intentsOpen
             && !w.entries[k].history.stopped
    requires id in w.requests && w.requests[id].stage == Waiting(k)
    ensures Leads(Do(local), start, w') && w' == ReceiveStep(w, id, k)
  {
    w' := Follow(Do(local), start, w, (id, Receive));
  }

  /** A stop request enters the session. */
  lemma EnterToStop(local: map<Service, Option<string>>, start: World, w: World, stop: nat) returns (w': World)
    requires Leads(Do(local), start, w) && HasActive(w) && stop !in w.requests
    ensures Leads(Do(local), start, w')
    ensures w' == w.(requests := w.requests[stop := STOP_REQUEST.(stage := StopInside(|w.entries| - 1))])
  {
    w' := Follow(Do(local), start, w, (stop, ArriveStop));
    w' := Follow(Do(local), start, w', (stop, Begin));
  }

  lemma StopSwallows(local: map<Service, Option<string>>, start: World, w: World, id: nat, stop: nat, k: nat)
    returns (w': World)
    requires Leads(Do(local), start, w) && k < |w.entries| && w.entries[k].state.intentsOpen && id != stop
    requires id in w.requests && w.requests[id].stage == Waiting(k) && stop in w.requests
             && w.requests[stop].stage == StopInside(k)
    ensures Leads(Do(local), start, w')
    ensures w' == MoveTo(Drained(w, k, id), stop, Finished(true))
  {
    assert SomeWaiting(w, k);
    w' := Follow(Do(local), start, w, (stop, Stop(true, id)));
  }

  /** And swallows the waiting intent. */
  lemma Swallow(local: map<Service, Option<string>>, start: World, w: World, id: nat, stop: nat) returns (w': World)
    requires Leads(Do(local), start, w) && HasActive(w) && stop !in w.requests
             && w.entries[|w.entries| - 1].state.intentsOpen
    requires id in w.requests && w.requests[id].stage == Waiting(|w.entries| - 1)
    ensures Leads(Do(local), start, w')
    ensures var k := |w.entries| - 1;
            && w'.entries == w.entries[k := DrainedEntry(w.entries[k], w.requests[id].intent)]
            && w'.requests == w.requests[id := w.requests[id].(stage := Accepted(k))]
                                        [stop := STOP_REQUEST.(stage := Finished(true))]
  {
    w' := EnterToStop(local, start, w, stop);
    w' := StopSwallows(local, start, w', id, stop, |w.entries| - 1);
  }
}
