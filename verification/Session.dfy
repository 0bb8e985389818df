/**
 A trust establishment session and the handler that owns it. The HMAC of a request is a Boolean: it was made with the
 session's passphrase or not. A session is active as long as it has a passphrase.
 */
module Sessions {
  import opened Services

  newtype uint8 = x: int | 0 <= x < 256

  const ALLOWED_FAILED_JOIN_ATTEMPTS: uint8 := 50

  datatype Role = Initiating | Joining

  // `fingerprint` is that of the certificate; None if the certificate does not parse.
  datatype Intent = Intent(name: string, certificate: string, fingerprint: Option<string>, services: map<Service, string>)

  datatype State = State(
    role: Role,
    passphrase: string,
    trustStore: map<string, string>,      // certificates by system name
    failedAttempts: uint8,
    fingerprints: seq<string>,            // of the intents registered so far
    intentsOpen: bool,                    // whether the channel of join intents is open
    exitOpen: bool
  ) {
    predicate Active() {
      passphrase != ""
    }

    predicate Valid() {
      failedAttempts <= ALLOWED_FAILED_JOIN_ATTEMPTS
    }
  }

  function Started(role: Role, passphrase: string): State {
    State(role, passphrase, map[], 0, [], true, true)
  }

  /** The state once a stop has gone through; a pending intent is drained instead of closing its channel. */
  function Stopped(s: State, pending: bool): State {
    s.(passphrase := "", trustStore := map[], failedAttempts := 0, fingerprints := [],
       intentsOpen := s.intentsOpen && pending, exitOpen := false)
  }

  function Registered(s: State, fingerprint: string): State {
    s.(fingerprints := s.fingerprints + [fingerprint])
  }

  // What a failed HMAC check leads to: it is counted, or the session is told to stop, which may fail.
  datatype Verdict = Authentic | Counted | StopFailed | StopDone

  function AfterCheck(s: State, authentic: bool, stops: bool, pending: bool): (r: (State, Verdict))
    ensures s.Valid() ==> r.0.Valid()
    ensures s.Valid() ==>
              (r.1.StopFailed? || r.1.StopDone? <==> !authentic && s.failedAttempts == ALLOWED_FAILED_JOIN_ATTEMPTS)
    ensures r.1.StopDone? ==> !r.0.Active() && r.0.trustStore == map[]
  {
    if authentic then (s, Authentic)
    else if s.failedAttempts < ALLOWED_FAILED_JOIN_ATTEMPTS then (s.(failedAttempts := s.failedAttempts + 1), Counted)
    else if stops then (Stopped(s, pending), StopDone)
    else (s, StopFailed)
  }

  /** The intent names every service of the handler in the handler's own version; None is a version nobody can tell. */
  predicate Matches(local: map<Service, Option<string>>, intent: Intent) {
    forall s :: s in local ==> s in intent.services && local[s] == Some(intent.services[s])
  }

  /** Asks every local service for its version, in any order. */
  method ValidateIntent(local: map<Service, Option<string>>, intent: Intent) returns (ok: bool)
    ensures ok == Matches(local, intent)
  {
    var todo := local.Keys;
    while todo != {}
      invariant todo <= local.Keys
      invariant forall s :: s in local && s !in todo ==> s in intent.services && local[s] == Some(intent.services[s])
    {
      var s :| s in todo;
      todo := todo - {s};
      if s !in intent.services { return false; }
      if local[s] == None { return false; }
      if intent.services[s] != local[s].value { return false; }
    }
    ok := true;
  }

  class Session {
    var passphrase: string
    var trustStore: map<string, string>
    var failedAttempts: uint8
    const role: Role
    var joinIntentFingerprints: seq<string>
    var joinIntentsOpen: bool
    var exitOpen: bool

    function Value(): State
      reads this
    {
      State(role, passphrase, trustStore, failedAttempts, joinIntentFingerprints, joinIntentsOpen, exitOpen)
    }

    constructor (role: Role, passphrase: string)
      ensures Value() == Started(role, passphrase)
    {
      this.role := role;
      this.passphrase := passphrase;
      trustStore, failedAttempts, joinIntentFingerprints := map[], 0, [];
      joinIntentsOpen, exitOpen := true, true;
    }

    method Allow(name: string, cert: string)
      modifies this`trustStore
      ensures Value() == old(Value()).(trustStore := old(trustStore)[name := cert])
    {
      trustStore := trustStore[name := cert];
    }

    /** A fingerprint is accepted once. */
    method RegisterIntent(fingerprint: string) returns (ok: bool)
      modifies this`joinIntentFingerprints
      ensures ok <==> fingerprint !in old(joinIntentFingerprints)
      ensures Value() == if ok then Registered(old(Value()), fingerprint) else old(Value())
    {
      for i := 0 to |joinIntentFingerprints|
        invariant fingerprint !in joinIntentFingerprints[..i]
        modifies {}
      {
        if joinIntentFingerprints[i] == fingerprint { return false; }
      }
      assert joinIntentFingerprints[..|joinIntentFingerprints|] == joinIntentFingerprints;
      joinIntentFingerprints := joinIntentFingerprints + [fingerprint];
      ok := true;
    }

    /** Counts up to the limit; the counter never wraps around. */
    method RegisterFailedAttempt() returns (ok: bool)
      requires Value().Valid()
      modifies this`failedAttempts
      ensures ok <==> old(failedAttempts) < ALLOWED_FAILED_JOIN_ATTEMPTS
      ensures Value() == old(Value()).(failedAttempts := if ok then old(failedAttempts) + 1 else old(failedAttempts))
    {
      if failedAttempts == ALLOWED_FAILED_JOIN_ATTEMPTS { return false; }
      failedAttempts := failedAttempts + 1;
      ok := true;
    }

    /**
     `pending`: some request is waiting to hand over its intent. A cause goes to the websocket first, which may fail.
     */
    method Stop(cause: bool, pending: bool) returns (ok: bool)
      modifies this
      ensures Value() == if ok then Stopped(old(Value()), pending) else old(Value())
    {
      if cause {
        ok := *;
        if !ok { return; }
      }
      ok := *;                              // stopping the multicast responder
      if !ok { return; }
      passphrase := "";
      trustStore := map[];
      joinIntentFingerprints := [];
      failedAttempts := 0;
      if joinIntentsOpen && !pending { joinIntentsOpen := false; }
      if exitOpen { exitOpen := false; }
    }
  }

  class Handler {
    var session: Session?

    /** The session, if there is one that has not been stopped. */
    method ActiveSession() returns (active: bool)
      ensures active <==> session != null && session.Value().Active()
    {
      active := session != null && session.passphrase != "";
    }

    method StartSession(role: Role, passphrase: string) returns (ok: bool)
      modifies this
      ensures ok ==>
                && session != null && fresh(session) && session.role == role
                && session.Value().Active() && session.Value().Valid()
      ensures ok && passphrase != "" ==> session.Value() == Started(role, passphrase)
      ensures !ok ==> session == old(session)
    {
      var words := passphrase;
      if passphrase == "" {
        var generated: string := *;         // four random words
        if generated == "" { return false; }
        words := generated;
      }
      session := new Session(role, words);
      ok := true;
    }

    /** Stopping without a session does nothing. */
    method StopSession(cause: bool, pending: bool) returns (ok: bool)
      modifies session
      ensures session == null ==> ok
      ensures session != null ==>
                session.Value() == if ok then Stopped(old(session.Value()), pending) else old(session.Value())
    {
      ok := true;
      if session != null { ok := session.Stop(cause, pending); }
    }

    /** The HMAC check that every join request has to pass first. */
    method Authenticate(authentic: bool, pending: bool) returns (ok: bool, ghost stops: bool)
      requires session != null ==> session.Value().Valid()
      modifies session
      ensures session == null || !old(session.Value()).Active() ==>
                !ok && (session != null ==> session.Value() == old(session.Value()))
      ensures session != null && old(session.Value()).Active() ==>
                var (s, verdict) := AfterCheck(old(session.Value()), authentic, stops, pending);
                session.Value() == s && (ok <==> verdict == Authentic)
    {
      stops := false;
      var active := ActiveSession();
      if !active { return false, stops; }
      if !authentic {
        var counted := session.RegisterFailedAttempt();
        if !counted {
          var stopped := session.Stop(true, pending);
          stops := stopped;
        }
        return false, stops;
      }
      ok := true;
    }

    /** What a join request does to the session before its intent is handed over. */
    method RegisterJoin(local: map<Service, Option<string>>, intent: Intent) returns (ok: bool)
      modifies session
      ensures ok <==> && session != null && old(session.Value()).Active()
                      && (session.role == Initiating ==> Matches(local, intent))
                      && intent.fingerprint.Some? && intent.fingerprint.value !in old(session.joinIntentFingerprints)
      ensures session != null ==>
                session.Value() == if ok then Registered(old(session.Value()), intent.fingerprint.value)
                                   else old(session.Value())
    {
      var active := ActiveSession();
      if !active { return false; }
      if session.role == Initiating {
        var valid := ValidateIntent(local, intent);
        if !valid { return false; }
      }
      if intent.fingerprint == None { return false; }
      ok := session.RegisterIntent(intent.fingerprint.value);
    }

    /** Only an active session shows its certificates. */
    method TemporaryTrustStore() returns (store: map<string, string>)
      ensures store == if session != null && session.Value().Active() then session.trustStore else map[]
    {
      var active := ActiveSession();
      store := map[];
      if active { store := session.trustStore; }
    }
  }
}
