/**
 The join request that a system executes for itself (`servicesPut`), at the granularity of its goroutines.

 MicroCloud joins first and LXD last, each alone. Between them MicroCeph and MicroOVN join concurrently, and both
 goroutines store their result in one `err` variable that belongs to the enclosing handler: the value a goroutine
 tests may be the one its sibling stored. A call that fails may have taken effect. A run is a list of moves; every
 interleaving and every failure is some list.
 */
module JoinRequest {
  import opened Services
  import Runs

  // `own` is the result that the goroutine's own Join returned.
  datatype CephThread =
    | CephAbsent | CephJoin | CephDisk(next: nat) | CephStore(own: bool) | CephCheck(own: bool) | CephDone(own: bool)
  datatype OvnThread =
    | OvnAbsent | OvnJoin | OvnStore(own: bool) | OvnCheck(own: bool) | OvnDone(own: bool)
  datatype Phase = First | Middle | Last | Finished(ok: bool)

  datatype Run = Run(
    phase: Phase,
    err: bool,                  // the shared variable: true when it holds an error
    failed: bool,               // RunConcurrent collected an error
    ceph: CephThread,
    ovn: OvnThread,
    attempted: set<Service>,    // services whose Join was called
    joined: set<Service>,       // services the system became a member of
    requested: nat              // AddDisk requests sent by MicroCeph's Join
  )

  datatype Move =
    | FirstMove(answer: Answer) | CephMove(answer: Answer) | OvnMove(answer: Answer) | Barrier | LastMove(answer: Answer)

  function Start(tokens: set<Service>): Run {
    Run(First, false, false,
        if MicroCeph in tokens then CephJoin else CephAbsent,
        if MicroOVN in tokens then OvnJoin else OvnAbsent, {}, {}, 0)
  }

  /** One atomic step; `answer` is that of the service the step calls, if it calls one. */
  function Next(tokens: set<Service>, disks: nat, r: Run, m: Move): Option<Run> {
    match m
    case FirstMove(answer) => if r.phase != First then None else Some(FirstStep(tokens, r, answer))
    case CephMove(answer) => if r.phase != Middle then None else CephStep(disks, r, answer)
    case OvnMove(answer) => if r.phase != Middle then None else OvnStep(r, answer)
    case Barrier =>
      if r.phase == Middle && (r.ceph.CephDone? || r.ceph.CephAbsent?) && (r.ovn.OvnDone? || r.ovn.OvnAbsent?)
      then Some(r.(phase := if r.failed then Finished(false) else Last))
      else None
    case LastMove(answer) => if r.phase != Last then None else Some(LastStep(tokens, r, answer))
  }

  /** A call of a service's Join. */
  function Called(r: Run, s: Service, answer: Answer): Run {
    r.(attempted := r.attempted + {s}, joined := if answer.TakesEffect() then r.joined + {s} else r.joined)
  }

  function FirstStep(tokens: set<Service>, r: Run, answer: Answer): Run {
    if MicroCloud !in tokens then r.(phase := Middle)
    else if answer.Succeeds? then Called(r, MicroCloud, answer).(phase := Middle)
    else Called(r, MicroCloud, answer).(phase := Finished(false), err := true)
  }

  function CephStep(disks: nat, r: Run, answer: Answer): Option<Run> {
    match r.ceph
    case CephJoin => Some(Called(r, MicroCeph, answer).(ceph := if answer.Succeeds? then CephDisk(0) else CephStore(true)))
    case CephDisk(i) =>
      if i == disks then Some(r.(ceph := CephStore(false)))
      else Some(r.(requested := r.requested + 1, ceph := if answer.Succeeds? then CephDisk(i + 1) else CephStore(true)))
    case CephStore(own) => Some(r.(err := own, ceph := CephCheck(own)))
    case CephCheck(own) => Some(r.(failed := r.failed || r.err, ceph := CephDone(own)))
    case _ => None
  }

  function OvnStep(r: Run, answer: Answer): Option<Run> {
    match r.ovn
    case OvnJoin => Some(Called(r, MicroOVN, answer).(ovn := OvnStore(!answer.Succeeds?)))
    case OvnStore(own) => Some(r.(err := own, ovn := OvnCheck(own)))
    case OvnCheck(own) => Some(r.(failed := r.failed || r.err, ovn := OvnDone(own)))
    case _ => None
  }

  function LastStep(tokens: set<Service>, r: Run, answer: Answer): Run {
    if LXD !in tokens then r.(phase := Finished(true))
    else if answer.Succeeds? then Called(r, LXD, answer).(phase := Finished(true))
    else Called(r, LXD, answer).(phase := Finished(false), err := true)
  }

  function Does(tokens: set<Service>, disks: nat): (Run, Move) -> Option<Run> {
    (r, m) => Next(tokens, disks, r, m)
  }

  /** Some interleaving, with some failures, leads here. */
  ghost predicate Reached(tokens: set<Service>, disks: nat, r: Run) {
    Runs.Leads(Does(tokens, disks), Start(tokens), r)
  }

  // ---- What a finished request can have done -------------------------------------------------------------------

  /**
   Everything a caller may rely on once it stops waiting for a request; `ok` is the report it got. A joined MicroCeph of
   which all disks were requested, or a joined MicroOVN, is one whose own Join succeeded.
   */
  ghost predicate Outcome(tokens: set<Service>, disks: nat, run: Run, ok: bool) {
    && run.joined <= run.attempted <= tokens
    && run.requested <= disks
    && (MicroCeph !in run.joined ==> run.requested == 0)
    && (ok ==>
      && run.attempted == tokens
      && tokens - {MicroCeph, MicroOVN} <= run.joined
      && (MicroCeph in tokens ==> (MicroCeph in run.joined && run.requested == disks) || MicroOVN in run.joined)
      && (MicroOVN in tokens ==> MicroOVN in run.joined || (MicroCeph in run.joined && run.requested == disks)))
  }

  ghost predicate CephStoredOk(r: Run) { r.ceph == CephCheck(false) || r.ceph == CephDone(false) }
  ghost predicate CephStoredErr(r: Run) { r.ceph == CephCheck(true) || r.ceph == CephDone(true) }
  ghost predicate OvnStoredOk(r: Run) { r.ovn == OvnCheck(false) || r.ovn == OvnDone(false) }
  ghost predicate OvnStoredErr(r: Run) { r.ovn == OvnCheck(true) || r.ovn == OvnDone(true) }

  ghost predicate CephInv(tokens: set<Service>, disks: nat, r: Run) {
    && (r.ceph.CephAbsent? <==> MicroCeph !in tokens)
    && (MicroCeph in r.attempted <==> !r.ceph.CephAbsent? && !r.ceph.CephJoin?)
    && (MicroCeph in r.joined ==> MicroCeph in r.attempted)
    && (MicroCeph !in r.joined ==> r.requested == 0)
    && r.requested <= disks
    && (r.ceph.CephDisk? ==> MicroCeph in r.joined && r.requested == r.ceph.next)
    && (r.ceph == CephStore(false) || CephStoredOk(r) ==> MicroCeph in r.joined && r.requested == disks)
  }

  ghost predicate OvnInv(tokens: set<Service>, r: Run) {
    && (r.ovn.OvnAbsent? <==> MicroOVN !in tokens)
    && (MicroOVN in r.attempted <==> !r.ovn.OvnAbsent? && !r.ovn.OvnJoin?)
    && (MicroOVN in r.joined ==> MicroOVN in r.attempted)
    && (r.ovn == OvnStore(false) || OvnStoredOk(r) ==> MicroOVN in r.joined)
  }

  /** The shared variable: an error can only disappear once a sibling has stored success. */
  ghost predicate ErrInv(r: Run) {
    && (CephStoredErr(r) && !OvnStoredOk(r) ==> r.err)
    && (OvnStoredErr(r) && !CephStoredOk(r) ==> r.err)
    && (r.ceph == CephDone(true) && !OvnStoredOk(r) ==> r.failed)
    && (r.ovn == OvnDone(true) && !CephStoredOk(r) ==> r.failed)
  }

  ghost predicate PhaseInv(tokens: set<Service>, r: Run) {
    && r.joined <= r.attempted <= tokens
    && (r.phase == First ==> r.ceph.CephAbsent? || r.ceph.CephJoin?)
    && (r.phase != First && MicroCloud in tokens ==> MicroCloud in r.attempted)
    && ((r.phase == Middle || r.phase == Last || r.phase == Finished(true)) && MicroCloud in tokens ==>
      MicroCloud in r.joined)
    && (!r.phase.Finished? ==> LXD !in r.attempted)
    && ((r.phase == Last || r.phase == Finished(true)) ==>
      && (r.ceph.CephDone? || r.ceph.CephAbsent?) && (r.ovn.OvnDone? || r.ovn.OvnAbsent?) && !r.failed)
    && (r.phase == Finished(true) && LXD in tokens ==> LXD in r.joined)
  }

  ghost predicate Inv(tokens: set<Service>, disks: nat, r: Run) {
    CephInv(tokens, disks, r) && OvnInv(tokens, r) && ErrInv(r) && PhaseInv(tokens, r)
  }

  lemma CephCallsKeepInv(tokens: set<Service>, disks: nat, r: Run, answer: Answer)
    requires Inv(tokens, disks, r) && r.phase == Middle && (r.ceph.CephJoin? || r.ceph.CephDisk?)
    ensures Inv(tokens, disks, CephStep(disks, r, answer).value)
  {
    var r' := CephStep(disks, r, answer).value;
    assert OvnInv(tokens, r');
    assert PhaseInv(tokens, r');
  }

  lemma CephStoresKeepInv(tokens: set<Service>, disks: nat, r: Run, answer: Answer)
    requires Inv(tokens, disks, r) && r.phase == Middle && (r.ceph.CephStore? || r.ceph.CephCheck?)
    ensures Inv(tokens, disks, CephStep(disks, r, answer).value)
  {
    var r' := CephStep(disks, r, answer).value;
    assert ErrInv(r');
  }

  lemma OvnJoinKeepsInv(tokens: set<Service>, disks: nat, r: Run, answer: Answer)
    requires Inv(tokens, disks, r) && r.phase == Middle && r.ovn.OvnJoin?
    ensures Inv(tokens, disks, OvnStep(r, answer).value)
  {
    var r' := OvnStep(r, answer).value;
    assert CephInv(tokens, disks, r');
    assert PhaseInv(tokens, r');
  }

  lemma OvnStoresKeepInv(tokens: set<Service>, disks: nat, r: Run, answer: Answer)
    requires Inv(tokens, disks, r) && r.phase == Middle && (r.ovn.OvnStore? || r.ovn.OvnCheck?)
    ensures Inv(tokens, disks, OvnStep(r, answer).value)
  {
    var r' := OvnStep(r, answer).value;
    assert ErrInv(r');
  }

  lemma FirstKeepsInv(tokens: set<Service>, disks: nat, r: Run, answer: Answer)
    requires Inv(tokens, disks, r) && r.phase == First
    ensures Inv(tokens, disks, FirstStep(tokens, r, answer))
  {
    var r' := FirstStep(tokens, r, answer);
    assert CephInv(tokens, disks, r') && OvnInv(tokens, r');
  }

  lemma BarrierKeepsInv(tokens: set<Service>, disks: nat, r: Run)
    requires Inv(tokens, disks, r) && Next(tokens, disks, r, Barrier).Some?
    ensures Inv(tokens, disks, Next(tokens, disks, r, Barrier).value)
  {
  }

  lemma LastKeepsInv(tokens: set<Service>, disks: nat, r: Run, answer: Answer)
    requires Inv(tokens, disks, r) && r.phase == Last
    ensures Inv(tokens, disks, LastStep(tokens, r, answer))
  {
    var r' := LastStep(tokens, r, answer);
    assert CephInv(tokens, disks, r') && OvnInv(tokens, r');
  }

  lemma NextKeepsInv(tokens: set<Service>, disks: nat, r: Run, m: Move)
    requires Inv(tokens, disks, r) && Next(tokens, disks, r, m).Some?
    ensures Inv(tokens, disks, Next(tokens, disks, r, m).value)
  {
    match m
    case CephMove(answer) =>
      if r.ceph.CephJoin? || r.ceph.CephDisk? {
        CephCallsKeepInv(tokens, disks, r, answer);
      } else {
        CephStoresKeepInv(tokens, disks, r, answer);
      }
    case OvnMove(answer) =>
      if r.ovn.OvnJoin? {
        OvnJoinKeepsInv(tokens, disks, r, answer);
      } else {
        OvnStoresKeepInv(tokens, disks, r, answer);
      }
    case FirstMove(answer) => FirstKeepsInv(tokens, disks, r, answer);
    case Barrier => BarrierKeepsInv(tokens, disks, r);
    case LastMove(answer) => LastKeepsInv(tokens, disks, r, answer);
  }

  lemma ReachedInv(tokens: set<Service>, disks: nat, r: Run)
    requires Reached(tokens, disks, r)
    ensures Inv(tokens, disks, r)
  {
    var step := Does(tokens, disks);
    forall q: Run, m | Inv(tokens, disks, q) && step(q, m).Some? ensures Inv(tokens, disks, step(q, m).value) {
      NextKeepsInv(tokens, disks, q, m);
    }
    Runs.Kept(step, q => Inv(tokens, disks, q), Start(tokens), r);
  }

  /** Every interleaving and every failure, cut off anywhere, is an `Outcome`. */
  lemma OutcomeOfRun(tokens: set<Service>, disks: nat, r: Run)
    requires Reached(tokens, disks, r)
    ensures Outcome(tokens, disks, r, r.phase == Finished(true))
  {
    ReachedInv(tokens, disks, r);
    if r.phase == Finished(true) {
      forall s | s in tokens ensures s in r.attempted && (s != MicroCeph && s != MicroOVN ==> s in r.joined) {
        match s
        case MicroCloud =>
        case MicroCeph =>
        case MicroOVN =>
        case LXD =>
      }
    }
  }

  /** Any run of the request, followed by its caller up to any point; `ok` is the report the caller has by then. */
  method SomeRun(tokens: set<Service>, disks: nat) returns (ok: bool, run: Run)
    ensures Outcome(tokens, disks, run, ok)
  {
    var moves: seq<Move> := *;
    var end := Runs.Run(Does(tokens, disks), Start(tokens), moves);
    if end == None {
      Runs.Here(Does(tokens, disks), Start(tokens));
      run := Start(tokens);
    } else {
      run := end.value;
      Runs.RunLeads(Does(tokens, disks), Start(tokens), moves);
    }
    OutcomeOfRun(tokens, disks, run);
    ok := run.phase == Finished(true);
  }

  // ---- When the report can be trusted ---------------------------------------------------------------------------

  /** The request reports success although some service it had a token for was not joined. */
  ghost predicate HidesFailedJoin(tokens: set<Service>, disks: nat, r: Run) {
    Reached(tokens, disks, r) && r.phase == Finished(true) && r.joined != tokens
  }

  /** The request reports success and MicroCeph was joined, but not every configured disk was requested. */
  ghost predicate LeavesDisksOut(tokens: set<Service>, disks: nat, r: Run) {
    Reached(tokens, disks, r) && r.phase == Finished(true) && MicroCeph in r.joined && r.requested != disks
  }

  lemma Follow(tokens: set<Service>, disks: nat, r: Run, m: Move) returns (r': Run)
    requires Reached(tokens, disks, r) && Next(tokens, disks, r, m).Some?
    ensures Reached(tokens, disks, r') && r' == Next(tokens, disks, r, m).value
  {
    r' := Runs.Follow(Does(tokens, disks), Start(tokens), r, m);
  }

  /** MicroCeph's Join fails, with or without effect, and is about to store its error. */
  lemma FailOnCeph(tokens: set<Service>, disks: nat, answer: Answer) returns (r: Run)
    requires MicroCeph in tokens && MicroOVN in tokens && !answer.Succeeds?
    ensures Reached(tokens, disks, r) && r.phase == Middle && !r.failed && r.ceph == CephStore(true) && r.ovn == OvnJoin
    ensures r.requested == 0 && (MicroCeph in r.joined <==> answer.FailsLate?)
  {
    r := Start(tokens);
    Runs.Here(Does(tokens, disks), r);
    r := Follow(tokens, disks, r, FirstMove(Succeeds));
    r := Follow(tokens, disks, r, CephMove(answer));
  }

  /** MicroCeph stores its error, and MicroOVN joins and overwrites it before either is tested. */
  lemma Overwrite(tokens: set<Service>, disks: nat, r: Run) returns (r': Run)
    requires Reached(tokens, disks, r) && r.phase == Middle && !r.failed && r.ceph == CephStore(true)
             && r.ovn == OvnJoin
    ensures Reached(tokens, disks, r') && r'.phase == Middle && !r'.failed && !r'.err
    ensures r'.ceph == CephCheck(true) && r'.ovn == OvnCheck(false) && r'.requested == r.requested
    ensures MicroCeph in r'.joined <==> MicroCeph in r.joined
  {
    r' := Follow(tokens, disks, r, CephMove(Succeeds));
    r' := Follow(tokens, disks, r', OvnMove(Succeeds));
    r' := Follow(tokens, disks, r', OvnMove(Succeeds));
  }

  /** Then the request ends in success. */
  lemma LoseTheError(tokens: set<Service>, disks: nat, r: Run) returns (r': Run)
    requires Reached(tokens, disks, r) && r.phase == Middle && !r.failed && !r.err
    requires r.ceph == CephCheck(true) && r.ovn == OvnCheck(false)
    ensures Reached(tokens, disks, r') && r'.phase == Finished(true) && r'.requested == r.requested
    ensures MicroCeph in r'.joined <==> MicroCeph in r.joined
  {
    r' := Follow(tokens, disks, r, OvnMove(Succeeds));
    r' := Follow(tokens, disks, r', CephMove(Succeeds));
    r' := Follow(tokens, disks, r', Barrier);
    r' := Follow(tokens, disks, r', LastMove(Succeeds));
  }

  /** MicroCeph's failure, with or without effect, can end up as a successful report. */
  lemma HidingRun(tokens: set<Service>, disks: nat, answer: Answer) returns (r: Run)
    requires MicroCeph in tokens && MicroOVN in tokens && !answer.Succeeds?
    ensures answer.Fails? ==> HidesFailedJoin(tokens, disks, r)
    ensures answer.FailsLate? && disks > 0 ==> LeavesDisksOut(tokens, disks, r)
  {
    r := FailOnCeph(tokens, disks, answer);
    r := Overwrite(tokens, disks, r);
    r := LoseTheError(tokens, disks, r);
  }

  /** A successful report can hide a failed join exactly when MicroCeph and MicroOVN join concurrently. */
  lemma HiddenJoinIff(tokens: set<Service>, disks: nat)
    ensures (exists r :: HidesFailedJoin(tokens, disks, r)) <==> {MicroCeph, MicroOVN} <= tokens
  {
    if {MicroCeph, MicroOVN} <= tokens {
      var r := HidingRun(tokens, disks, Fails);
    }
    forall r | HidesFailedJoin(tokens, disks, r) ensures {MicroCeph, MicroOVN} <= tokens {
      OutcomeOfRun(tokens, disks, r);
    }
  }

  /** A successful report can hide unrequested disks exactly when, moreover, a disk is configured. */
  lemma DisksLeftOutIff(tokens: set<Service>, disks: nat)
    ensures (exists r :: LeavesDisksOut(tokens, disks, r)) <==> {MicroCeph, MicroOVN} <= tokens && disks > 0
  {
    if {MicroCeph, MicroOVN} <= tokens && disks > 0 {
      var r := HidingRun(tokens, disks, FailsLate);
    }
    forall r | LeavesDisksOut(tokens, disks, r) ensures {MicroCeph, MicroOVN} <= tokens && disks > 0 {
      OutcomeOfRun(tokens, disks, r);
    }
  }

  /** Waiting for the clusters to grow does not reveal it: behind such a report every service was joined. */
  lemma LeftOutUnnoticed(tokens: set<Service>, disks: nat, r: Run)
    requires LeavesDisksOut(tokens, disks, r)
    ensures r.joined == tokens
  {
    OutcomeOfRun(tokens, disks, r);
  }
}
