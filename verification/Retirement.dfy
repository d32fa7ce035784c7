/**
  Retiring an epoch (daemon/manager.py): sessions are admitted, restarted, ended, reaped and certified
  by threads that share one lock, but the thread that persists a terminal checks for certification
  before it takes that lock.

  Every step is one region under the manager's lock, one store transaction, or one such check.  The
  store is abstract: a session's terminal gets a number at most once, and only while the session's row
  exists.

  Claim: the epoch is certified only when every session it admitted has its terminal numbered or has no
  row left to end; the recorded high water covers every number; and nothing is admitted or numbered
  afterwards, even by a thread that passed the check before.  It holds in every run in which no terminal
  reaches the store before its session's row is made.  The program lets an orphan reap do that: the
  store then knows no such session, the error is swallowed, and the obligation is discharged although
  the row is still to come.  `NumberedAfterCertification` is the run that shows it.
*/
module Retirement {
  import opened Prelude

  type Sid = nat

  datatype RetirementState = Open | Quiescing | Certified

  // Where the thread that starts a session is: registered, its row made, running, or rolling back.
  datatype Spawn = Registered | RowMade | Running | Failing | RowsDeleted | GivenUp

  // Where a thread that persists a terminal is: past the certification check, or past the store.
  datatype Persist = Checked(sid: Sid) | Stored(sid: Sid) | Finished(sid: Sid)

  datatype State = State(
    // under the manager's lock
    obligations: set<Sid>, sessions: set<Sid>, pendingAcquire: set<Sid>, reserved: nat, terminalPending: set<Sid>,
    // the store
    retirement: RetirementState, finalHigh: Option<nat>, rows: set<Sid>, numbered: map<Sid, nat>, next: nat,
    // threads
    spawns: map<Sid, Spawn>, persists: seq<Persist>)

  const START := State({}, {}, {}, 0, {}, Open, None, {}, map[], 1, map[], [])

  datatype Step =
    | MarkAcquiring(sid: Sid)
    | UnmarkAcquiring(sid: Sid)
    | ReserveForRestart(sid: Sid)
    | ReserveForTurn
    | ReleaseReservation
    | Admit(sid: Sid, reserve: bool)
    | MakeRow(sid: Sid)
    | StartMonitor(sid: Sid)
    | FailStart(sid: Sid)
    | DeleteRows(sid: Sid)
    | Unregister(sid: Sid)
    | CheckPersist(sid: Sid)
    | StoreTerminal(thread: nat, same: bool)
    | Discharge(thread: nat)
    | FreeSlot(sid: Sid, snapshot: bool, same: bool)
    | RemoveReaped(sid: Sid)
    | BeginQuiescence
    | Certify

  predicate Monitored(s: State, sid: Sid) {
    sid in s.spawns && s.spawns[sid] == Running
  }

  predicate Can(s: State, step: Step) {
    match step
    case MarkAcquiring(sid) => sid !in s.pendingAcquire
    case UnmarkAcquiring(sid) => sid in s.pendingAcquire
    case ReserveForRestart(sid) => sid in s.sessions
    case ReserveForTurn => true
    case ReleaseReservation => s.reserved > 0
    case Admit(sid, reserve) => sid !in s.spawns && (reserve ==> s.reserved > 0)
    case MakeRow(sid) => sid in s.spawns && s.spawns[sid] == Registered
    case StartMonitor(sid) => sid in s.spawns && s.spawns[sid] == RowMade
    case FailStart(sid) => sid in s.spawns && (s.spawns[sid] == Registered || s.spawns[sid] == RowMade)
    case DeleteRows(sid) => sid in s.spawns && s.spawns[sid] == Failing
    case Unregister(sid) => sid in s.spawns && s.spawns[sid] == RowsDeleted
    case CheckPersist(sid) => sid in s.sessions || Monitored(s, sid)   // the reaper, or its own monitor
    case StoreTerminal(t, _) => t < |s.persists| && s.persists[t].Checked?
    case Discharge(t) => t < |s.persists| && s.persists[t].Stored?
    case FreeSlot(sid, _, _) => Monitored(s, sid)
    case RemoveReaped(sid) => sid in s.terminalPending
    case BeginQuiescence => true
    case Certify => true
  }

  predicate Tops(values: set<nat>, h: nat) {
    h in values && forall v :: v in values ==> v <= h
  }

  function Highest(values: set<nat>): (h: nat)
    ensures forall v :: v in values ==> v <= h
    ensures if values == {} then h == 0 else h in values
  {
    if values == {} then 0
    else
      MaxExists(values);
      var h: nat :| Tops(values, h);
      h
  }

  lemma {:induction false} MaxExists(values: set<nat>)
    requires values != {}
    ensures exists h :: Tops(values, h)
    decreases values
  {
    var x :| x in values;
    var above := set v | v in values && v > x;
    if above == {} {
      assert forall v :: v in values && v > x ==> v in above;
      assert Tops(values, x);
    } else {
      assert x !in above;
      MaxExists(above);
      var h: nat :| Tops(above, h);
      assert forall v :: v in values && v > x ==> v in above;
      assert Tops(values, h);
    }
  }

  // The store's put_terminal: no row, already numbered with this or another result, or numbered now.
  datatype Put = NoRow | AlreadySame | Conflict | Numbered

  function PutOf(s: State, sid: Sid, same: bool): Put {
    if sid !in s.rows then NoRow
    else if sid in s.numbered then (if same then AlreadySame else Conflict)
    else Numbered
  }

  function AfterPut(s: State, sid: Sid, same: bool): State {
    if PutOf(s, sid, same) == Numbered then s.(numbered := s.numbered[sid := s.next], next := s.next + 1) else s
  }

  predicate BarrierMet(s: State) {
    s.obligations == {} && s.sessions == {} && s.pendingAcquire == {} && s.reserved == 0
  }

  function Do(s: State, step: Step): State
    requires Can(s, step)
  {
    match step
    case MarkAcquiring(sid) => s.(pendingAcquire := s.pendingAcquire + {sid})
    case UnmarkAcquiring(sid) => s.(pendingAcquire := s.pendingAcquire - {sid})
    case ReserveForRestart(sid) => s.(sessions := s.sessions - {sid}, reserved := s.reserved + 1)
    case ReserveForTurn => s.(reserved := s.reserved + 1)
    case ReleaseReservation => s.(reserved := s.reserved - 1)
    case Admit(sid, reserve) =>
      if s.retirement != Open then s
      else s.(obligations := s.obligations + {sid}, sessions := s.sessions + {sid},
              reserved := if reserve then s.reserved - 1 else s.reserved, spawns := s.spawns[sid := Registered])
    case MakeRow(sid) => s.(rows := s.rows + {sid}, spawns := s.spawns[sid := RowMade])
    case StartMonitor(sid) => s.(spawns := s.spawns[sid := Running])
    case FailStart(sid) => s.(spawns := s.spawns[sid := Failing])
    case DeleteRows(sid) =>
      s.(rows := s.rows - {sid}, numbered := s.numbered - {sid}, spawns := s.spawns[sid := RowsDeleted])
    case Unregister(sid) =>
      s.(sessions := s.sessions - {sid}, obligations := s.obligations - {sid}, spawns := s.spawns[sid := GivenUp])
    case CheckPersist(sid) => if s.retirement == Certified then s else s.(persists := s.persists + [Checked(sid)])
    case StoreTerminal(t, same) =>
      var sid := s.persists[t].sid;
      var after := if PutOf(s, sid, same) == Conflict then Finished(sid) else Stored(sid);
      AfterPut(s, sid, same).(persists := s.persists[t := after])
    case Discharge(t) =>
      var sid := s.persists[t].sid;
      s.(obligations := s.obligations - {sid}, terminalPending := s.terminalPending + {sid},
         persists := s.persists[t := Finished(sid)])
    case FreeSlot(sid, snapshot, same) =>
      if snapshot && sid in s.sessions && sid !in s.terminalPending && s.retirement != Certified then
        if PutOf(s, sid, same) == Conflict then s
        else AfterPut(s, sid, same).(sessions := s.sessions - {sid})
      else s.(sessions := s.sessions - {sid})
    case RemoveReaped(sid) => s.(sessions := s.sessions - {sid})
    case BeginQuiescence => s.(retirement := Quiescing)
    case Certify =>
      if BarrierMet(s) then s.(retirement := Certified, finalHigh := Some(Highest(s.numbered.Values))) else s
  }

  // ---- the invariant --------------------------------------------------------------------------------

  // The session has ended for good: its terminal is numbered, or it has no row and will get none.
  predicate Settled(s: State, sid: Sid) {
    sid in s.numbered || (sid !in s.rows && sid in s.spawns && s.spawns[sid] != Registered)
  }

  predicate Consistent(s: State) {
    && s.obligations <= s.spawns.Keys && s.sessions <= s.spawns.Keys && s.rows <= s.spawns.Keys
    && s.numbered.Keys <= s.rows && 0 < s.next && (forall sid :: sid in s.numbered ==> s.numbered[sid] < s.next)
    && (s.retirement == Certified ==> s.finalHigh.Some?)
    && (forall sid :: sid in s.spawns ==>
          && (s.spawns[sid] == Registered ==> sid !in s.rows)
          && (s.spawns[sid] == RowMade || s.spawns[sid] == Running ==> sid in s.rows)
          && (s.spawns[sid] == RowsDeleted || s.spawns[sid] == GivenUp ==> sid !in s.rows)
          && (s.spawns[sid] == GivenUp ==> sid !in s.obligations + s.sessions))
    && (forall t :: 0 <= t < |s.persists| ==> s.persists[t].sid in s.spawns)
  }

  // Every admitted session is owed a terminal, or has ended.
  ghost predicate Covered(s: State) {
    forall sid :: sid in s.spawns ==> sid in s.obligations || Settled(s, sid)
  }

  // A thread that has been to the store leaves an ended session behind.
  ghost predicate StoredSettled(s: State) {
    forall t :: 0 <= t < |s.persists| && s.persists[t].Stored? ==> Settled(s, s.persists[t].sid)
  }

  // Once certified, everything admitted has ended, and the recorded high water covers every number.
  ghost predicate Sealed(s: State) {
    s.finalHigh.Some? ==>
      && s.retirement != Open
      && (forall sid :: sid in s.spawns ==> Settled(s, sid))
      && (forall sid :: sid in s.numbered ==> s.numbered[sid] <= s.finalHigh.value)
  }

  ghost predicate Inv(s: State) {
    Consistent(s) && Covered(s) && StoredSettled(s) && Sealed(s)
  }

  // A terminal reaches the store while the session is registered and its row not yet made.
  predicate Early(s: State, step: Step) {
    && step.StoreTerminal? && step.thread < |s.persists|
    && s.persists[step.thread].sid in s.spawns && s.spawns[s.persists[step.thread].sid] == Registered
  }

  lemma StepKeepsConsistent(s: State, step: Step)
    requires Consistent(s) && Can(s, step)
    ensures Consistent(Do(s, step))
  {
  }

  // Nothing brings a session back that has ended.
  lemma SettledStays(s: State, step: Step, sid: Sid)
    requires Consistent(s) && Can(s, step) && Settled(s, sid)
    ensures Settled(Do(s, step), sid)
  {
  }

  lemma StepKeepsCovered(s: State, step: Step)
    requires Inv(s) && Can(s, step)
    ensures Covered(Do(s, step))
  {
    hide Sealed;
  }

  lemma StepKeepsStored(s: State, step: Step)
    requires Inv(s) && Can(s, step) && !Early(s, step)
    ensures StoredSettled(Do(s, step))
  {
    hide Covered, Sealed, Settled;
    var s' := Do(s, step);
    forall t | 0 <= t < |s'.persists| && s'.persists[t].Stored? ensures Settled(s', s'.persists[t].sid) {
      if t < |s.persists| && s.persists[t].Stored? {
        SettledStays(s, step, s.persists[t].sid);
      } else {
        StoreSettles(s, t, step);
      }
    }
  }

  lemma StoreSettles(s: State, t: nat, step: Step)
    requires Consistent(s) && Can(s, step) && !Early(s, step)
    requires t < |Do(s, step).persists| && Do(s, step).persists[t].Stored?
    requires t < |s.persists| ==> !s.persists[t].Stored?
    ensures Settled(Do(s, step), Do(s, step).persists[t].sid)
  {
  }

  lemma StepKeepsSealed(s: State, step: Step)
    requires Inv(s) && Can(s, step)
    ensures Sealed(Do(s, step))
  {
    var s' := Do(s, step);
    hide StoredSettled;
    if step == Certify && BarrierMet(s) {
      assert forall sid :: sid in s.numbered ==> s.numbered[sid] in s.numbered.Values;
    }
  }

  lemma StepKeeps(s: State, step: Step)
    requires Inv(s) && Can(s, step) && !Early(s, step)
    ensures Inv(Do(s, step))
  {
    hide Consistent, Covered, StoredSettled, Sealed;
    StepKeepsConsistent(s, step);
    StepKeepsCovered(s, step);
    StepKeepsStored(s, step);
    StepKeepsSealed(s, step);
  }

  // ---- every run ------------------------------------------------------------------------------------

  predicate Legal(s: State, steps: seq<Step>)
    decreases |steps|
  {
    steps != [] ==> Can(s, steps[0]) && Legal(Do(s, steps[0]), steps[1..])
  }

  function Run(s: State, steps: seq<Step>): State
    requires Legal(s, steps)
    decreases |steps|
  {
    if steps == [] then s else Run(Do(s, steps[0]), steps[1..])
  }

  // No terminal reaches the store before its session's row is made.
  predicate NoneEarly(s: State, steps: seq<Step>)
    requires Legal(s, steps)
    decreases |steps|
  {
    steps != [] ==> !Early(s, steps[0]) && NoneEarly(Do(s, steps[0]), steps[1..])
  }

  lemma {:induction false} RunKeeps(s: State, steps: seq<Step>)
    requires Inv(s) && Legal(s, steps) && NoneEarly(s, steps)
    ensures Inv(Run(s, steps))
    decreases |steps|
  {
    hide Inv, Do, Early;
    if steps != [] {
      StepKeeps(s, steps[0]);
      RunKeeps(Do(s, steps[0]), steps[1..]);
    }
  }

  lemma StartOk()
    ensures Inv(START)
  {
  }

  // Certification succeeds only over a barrier at which every admitted session has ended, and records a
  // high water that covers every numbered terminal.
  lemma CertifiesOnlyTheEnded(steps: seq<Step>)
    requires Legal(START, steps) && NoneEarly(START, steps) && BarrierMet(Run(START, steps))
    ensures var s := Run(START, steps);
      && (forall sid :: sid in s.spawns ==> Settled(s, sid))
      && Do(s, Certify).finalHigh.Some?
      && forall sid :: sid in s.numbered ==> s.numbered[sid] <= Do(s, Certify).finalHigh.value
  {
    hide Run, Legal, NoneEarly;
    StartOk();
    RunKeeps(START, steps);
    var s := Run(START, steps);
    StepKeepsSealed(s, Certify);
    assert forall sid :: sid in s.spawns ==> sid in s.obligations || Settled(s, sid);
  }

  lemma SealedStep(s: State, step: Step)
    requires Consistent(s) && Sealed(s) && s.finalHigh.Some? && Can(s, step)
    ensures var s' := Do(s, step);
      && Consistent(s') && Sealed(s') && s'.finalHigh.Some?
      && s'.spawns.Keys == s.spawns.Keys
      && (forall sid :: sid in s'.numbered ==> sid in s.numbered && s'.numbered[sid] == s.numbered[sid])
  {
    StepKeepsConsistent(s, step);
    if step == Certify && BarrierMet(s) {
      assert forall sid :: sid in s.numbered ==> s.numbered[sid] in s.numbered.Values;
    }
  }

  lemma {:induction false} SealedRun(s: State, steps: seq<Step>)
    requires Consistent(s) && Sealed(s) && s.finalHigh.Some? && Legal(s, steps)
    ensures var s' := Run(s, steps);
      && s'.finalHigh.Some? && Sealed(s') && s'.spawns.Keys == s.spawns.Keys
      && (forall sid :: sid in s'.numbered ==> sid in s.numbered && s'.numbered[sid] == s.numbered[sid])
    decreases |steps|
  {
    hide Consistent, Sealed, Do;
    if steps != [] {
      SealedStep(s, steps[0]);
      SealedRun(Do(s, steps[0]), steps[1..]);
    }
  }

  // After certification no session is admitted and no terminal is numbered, whatever any thread does
  // from then on, including those that passed the certification check before.
  lemma NothingAfterCertification(steps: seq<Step>, more: seq<Step>)
    requires Legal(START, steps) && NoneEarly(START, steps)
    requires Run(START, steps).finalHigh.Some? && Legal(Run(START, steps), more)
    ensures var s, s' := Run(START, steps), Run(Run(START, steps), more);
      && s'.spawns.Keys == s.spawns.Keys
      && (forall sid :: sid in s'.numbered ==> sid in s.numbered && s'.numbered[sid] == s.numbered[sid])
      && (forall sid :: sid in s.numbered ==> s.numbered[sid] <= s.finalHigh.value)
  {
    hide Run, Legal, NoneEarly;
    StartOk();
    RunKeeps(START, steps);
    SealedRun(Run(START, steps), more);
  }

  // ---- the exception ----------------------------------------------------------------------------------

  ghost predicate Reaches(s: State, s': State) {
    exists steps :: Legal(s, steps) && NoneEarly(s, steps) && Run(s, steps) == s'
  }

  ghost predicate HighWaterHolds(s: State) {
    s.finalHigh.Some? ==> forall sid :: sid in s.numbered ==> s.numbered[sid] <= s.finalHigh.value
  }

  lemma ReachOne(s: State, step: Step)
    requires Can(s, step) && !Early(s, step)
    ensures Reaches(s, Do(s, step))
  {
    hide Do, Can, Early;
    assert Legal(Do(s, step), []) && NoneEarly(Do(s, step), []);
    RunPrepend(s, step, []);
    assert ([step] + [])[1..] == [];
    assert NoneEarly(s, [step] + []);
  }

  lemma Stay(s: State)
    ensures Reaches(s, s)
  {
    assert Legal(s, []) && NoneEarly(s, []) && Run(s, []) == s;
  }

  lemma ReachTrans(a: State, b: State, c: State)
    requires Reaches(a, b) && Reaches(b, c)
    ensures Reaches(a, c)
  {
    hide Do, Can, Early;
    var s :| Legal(a, s) && NoneEarly(a, s) && Run(a, s) == b;
    var t :| Legal(b, t) && NoneEarly(b, t) && Run(b, t) == c;
    RunSplit(a, s, t);
    NoneEarlySplit(a, s, t);
  }

  lemma {:induction false} NoneEarlySplit(s: State, first: seq<Step>, rest: seq<Step>)
    requires Legal(s, first) && Legal(Run(s, first), rest)
    requires NoneEarly(s, first) && NoneEarly(Run(s, first), rest)
    ensures Legal(s, first + rest) && NoneEarly(s, first + rest)
    decreases |first|
  {
    hide Do, Can, Early;
    RunSplit(s, first, rest);
    if first == [] {
      assert first + rest == rest;
    } else {
      NoneEarlySplit(Do(s, first[0]), first[1..], rest);
      assert (first + rest)[1..] == first[1..] + rest;
    }
  }

  // A running session whose obligation is gone although its terminal is still to come: thread k has
  // passed the certification check for it.
  ghost predicate Forgotten(s: State, sid: Sid, k: nat) {
    && Consistent(s) && s.finalHigh == None
    && sid in s.spawns && s.spawns[sid] == Running && sid !in s.numbered
    && sid !in s.obligations + s.sessions
    && k < |s.persists| && s.persists[k] == Checked(sid)
  }

  // Everything that holds the barrier open for session x, whatever x is doing, can be brought to an end.
  lemma EndOne(s: State, sid: Sid, k: nat, x: Sid) returns (s': State)
    requires Forgotten(s, sid, k) && x in s.obligations + s.sessions
    ensures Reaches(s, s') && Forgotten(s', sid, k)
    ensures s'.obligations + s'.sessions == (s.obligations + s.sessions) - {x}
  {
    if s.spawns[x] == Running {
      s' := EndRunning(s, sid, k, x);
    } else {
      s' := EndStarting(s, sid, k, x);
    }
  }

  lemma EndRunning(s: State, sid: Sid, k: nat, x: Sid) returns (s': State)
    requires Forgotten(s, sid, k) && x in s.obligations + s.sessions && s.spawns[x] == Running
    ensures Reaches(s, s') && Forgotten(s', sid, k)
    ensures s'.obligations + s'.sessions == (s.obligations + s.sessions) - {x}
  {
    hide Reaches;
    var s1 := PersistRunning(s, sid, k, x);
    s' := Do(s1, FreeSlot(x, false, true));
    ReachOne(s1, FreeSlot(x, false, true));
    ReachTrans(s, s1, s');
  }

  lemma PersistRunning(s: State, sid: Sid, k: nat, x: Sid) returns (s': State)
    requires Forgotten(s, sid, k) && x != sid && x in s.spawns && s.spawns[x] == Running
    ensures Reaches(s, s') && Forgotten(s', sid, k) && s'.spawns == s.spawns
    ensures s'.obligations == s.obligations - {x} && s'.sessions == s.sessions
  {
    hide Reaches;
    var n := |s.persists|;
    var s1 := Do(s, CheckPersist(x));
    ReachOne(s, CheckPersist(x));
    var s2 := Do(s1, StoreTerminal(n, true));
    ReachOne(s1, StoreTerminal(n, true));
    s' := Do(s2, Discharge(n));
    ReachOne(s2, Discharge(n));
    ReachTrans(s, s1, s2);
    ReachTrans(s, s2, s');
  }

  // How much of a rollback is still to come.
  function Stage(p: Spawn): nat {
    match p
    case RowsDeleted => 0
    case Failing => 1
    case _ => 2
  }

  // A start that has not come to run is rolled back, one step at a time.
  lemma {:induction false} EndStarting(s: State, sid: Sid, k: nat, x: Sid) returns (s': State)
    requires Forgotten(s, sid, k) && x in s.obligations + s.sessions && s.spawns[x] != Running
    ensures Reaches(s, s') && Forgotten(s', sid, k)
    ensures s'.obligations + s'.sessions == (s.obligations + s.sessions) - {x}
    decreases Stage(s.spawns[x])
  {
    hide Reaches;
    var step := match s.spawns[x]
                case RowsDeleted => Unregister(x)
                case Failing => DeleteRows(x)
                case _ => FailStart(x);
    var s1 := Do(s, step);
    ReachOne(s, step);
    if step.Unregister? {
      s' := s1;
    } else {
      s' := EndStarting(s1, sid, k, x);
      ReachTrans(s, s1, s');
    }
  }

  lemma EndAll(s: State, sid: Sid, k: nat) returns (s': State)
    requires Forgotten(s, sid, k)
    ensures Reaches(s, s') && Forgotten(s', sid, k) && s'.obligations + s'.sessions == {}
    decreases s.obligations + s.sessions
  {
    hide Reaches, Forgotten;
    if s.obligations + s.sessions == {} {
      Stay(s);
      s' := s;
    } else {
      var x :| x in s.obligations + s.sessions;
      var s1 := EndOne(s, sid, k, x);
      s' := EndAll(s1, sid, k);
      ReachTrans(s, s1, s');
    }
  }

  lemma EndAcquires(s: State, sid: Sid, k: nat) returns (s': State)
    requires Forgotten(s, sid, k) && s.obligations + s.sessions == {}
    ensures Reaches(s, s') && Forgotten(s', sid, k) && s'.obligations + s'.sessions == {} && s'.pendingAcquire == {}
    decreases s.pendingAcquire
  {
    hide Reaches;
    if s.pendingAcquire == {} {
      Stay(s);
      s' := s;
    } else {
      var x :| x in s.pendingAcquire;
      var s1 := Do(s, UnmarkAcquiring(x));
      ReachOne(s, UnmarkAcquiring(x));
      s' := EndAcquires(s1, sid, k);
      ReachTrans(s, s1, s');
    }
  }

  lemma EndReservations(s: State, sid: Sid, k: nat) returns (s': State)
    requires Forgotten(s, sid, k) && s.obligations + s.sessions == {} && s.pendingAcquire == {}
    ensures Reaches(s, s') && Forgotten(s', sid, k) && BarrierMet(s')
    decreases s.reserved
  {
    hide Reaches;
    if s.reserved == 0 {
      Stay(s);
      s' := s;
    } else {
      var s1 := Do(s, ReleaseReservation);
      ReachOne(s, ReleaseReservation);
      s' := EndReservations(s1, sid, k);
      ReachTrans(s, s1, s');
    }
  }

  // So the epoch is certified over the forgotten session, and its thread then numbers its terminal above
  // the recorded high water.
  lemma ForgottenIsNumbered(s: State, sid: Sid, k: nat) returns (s': State)
    requires Forgotten(s, sid, k)
    ensures Reaches(s, s') && !HighWaterHolds(s') && s'.retirement == Certified
  {
    hide Reaches;
    var s1 := EndAll(s, sid, k);
    var s2 := EndAcquires(s1, sid, k);
    var s3 := EndReservations(s2, sid, k);
    var s4 := Do(s3, Certify);
    ReachOne(s3, Certify);
    assert s4.finalHigh.value < s3.next by {
      assert forall v :: v in s3.numbered.Values ==> exists x :: x in s3.numbered && s3.numbered[x] == v;
    }
    s' := Do(s4, StoreTerminal(k, true));
    ReachOne(s4, StoreTerminal(k, true));
    assert sid in s'.numbered && s'.numbered[sid] == s3.next;
    ReachTrans(s, s1, s2);
    ReachTrans(s, s2, s3);
    ReachTrans(s, s3, s4);
    ReachTrans(s, s4, s');
  }

  // After an early terminal the session is registered and owes nothing.
  lemma EarlyOwesNothing(s: State, t: nat, same: bool)
    requires Inv(s) && Can(s, StoreTerminal(t, same)) && Early(s, StoreTerminal(t, same))
    ensures var sid := s.persists[t].sid;
      var d := Do(Do(s, StoreTerminal(t, same)), Discharge(t));
      && Consistent(d) && d.finalHigh == None && sid in d.spawns && d.spawns[sid] == Registered
      && sid in d.terminalPending && sid !in d.obligations
  {
    hide StoredSettled, Covered;
    var sid := s.persists[t].sid;
    assert !Settled(s, sid) && s.finalHigh == None;
    StepKeepsConsistent(s, StoreTerminal(t, same));
    StepKeepsConsistent(Do(s, StoreTerminal(t, same)), Discharge(t));
  }

  // Its start goes on, a thread passes the check for it, and the reaper takes it out of the registry.
  lemma StartsAllTheSame(d: State, sid: Sid) returns (s': State)
    requires Consistent(d) && d.finalHigh == None && sid in d.spawns && d.spawns[sid] == Registered
    requires sid in d.terminalPending && sid !in d.obligations
    ensures Reaches(d, s') && Forgotten(s', sid, |d.persists|)
  {
    hide Reaches;
    var s1 := Do(d, MakeRow(sid));
    ReachOne(d, MakeRow(sid));
    var s2 := Do(s1, StartMonitor(sid));
    ReachOne(s1, StartMonitor(sid));
    var s3 := Do(s2, CheckPersist(sid));
    ReachOne(s2, CheckPersist(sid));
    s' := Do(s3, RemoveReaped(sid));
    ReachOne(s3, RemoveReaped(sid));
    ReachTrans(d, s1, s2);
    ReachTrans(d, s2, s3);
    ReachTrans(d, s3, s');
  }

  // A terminal that goes to the store and is then discharged leaves every later certification right, and
  // every later number under its high water, exactly when it did not come before its session's row.
  lemma DischargeIsSafeExactlyWhenNotEarly(s: State, t: nat, same: bool)
    requires Inv(s) && Can(s, StoreTerminal(t, same)) && PutOf(s, s.persists[t].sid, same) != Conflict
    ensures var d := Do(Do(s, StoreTerminal(t, same)), Discharge(t));
      && (!Early(s, StoreTerminal(t, same)) <==> forall s' :: Reaches(d, s') ==> Sealed(s'))
      && (!Early(s, StoreTerminal(t, same)) <==> forall s' :: Reaches(d, s') ==> HighWaterHolds(s'))
  {
    var step := StoreTerminal(t, same);
    var stored := Do(s, step);
    var d := Do(stored, Discharge(t));
    if Early(s, step) {
      EarlyOwesNothing(s, t, same);
      hide Reaches;
      var s1 := StartsAllTheSame(d, s.persists[t].sid);
      var s' := ForgottenIsNumbered(s1, s.persists[t].sid, |d.persists|);
      ReachTrans(d, s1, s');
      assert !HighWaterHolds(s') && !Sealed(s');
    } else {
      StepKeeps(s, step);
      StepKeeps(stored, Discharge(t));
      forall s' | Reaches(d, s') ensures Sealed(s') && HighWaterHolds(s') {
        var steps :| Legal(d, steps) && NoneEarly(d, steps) && Run(d, steps) == s';
        RunKeeps(d, steps);
      }
    }
  }

  // A session reaped between its registration and its row: its start goes on, and its monitor has
  // passed the certification check.
  const REAPED_EARLY := State({}, {}, {}, 0, {0}, Open, None, {0}, map[], 1, map[0 := Running],
                              [Finished(0), Checked(0)])

  const REAP := [Admit(0, false), CheckPersist(0), StoreTerminal(0, false), MakeRow(0), StartMonitor(0),
                 CheckPersist(0), Discharge(0), RemoveReaped(0)]

  lemma ReapingReaches() returns (steps: seq<Step>)
    ensures steps == REAP && Legal(START, steps) && Run(START, steps) == REAPED_EARLY
  {
    var s1 := Do(START, Admit(0, false));
    var s2 := Do(s1, CheckPersist(0));
    var s3 := Do(s2, StoreTerminal(0, false));
    var s4 := Do(s3, MakeRow(0));
    var s5 := Do(s4, StartMonitor(0));
    var s6 := Do(s5, CheckPersist(0));
    var s7 := Do(s6, Discharge(0));
    assert Do(s7, RemoveReaped(0)) == REAPED_EARLY;
    hide Do, Can;
    steps := [RemoveReaped(0)];
    RunPrepend(s6, Discharge(0), steps);
    steps := [Discharge(0)] + steps;
    RunPrepend(s5, CheckPersist(0), steps);
    steps := [CheckPersist(0)] + steps;
    RunPrepend(s4, StartMonitor(0), steps);
    steps := [StartMonitor(0)] + steps;
    RunPrepend(s3, MakeRow(0), steps);
    steps := [MakeRow(0)] + steps;
    RunPrepend(s2, StoreTerminal(0, false), steps);
    steps := [StoreTerminal(0, false)] + steps;
    RunPrepend(s1, CheckPersist(0), steps);
    steps := [CheckPersist(0)] + steps;
    RunPrepend(START, Admit(0, false), steps);
    steps := [Admit(0, false)] + steps;
  }

  // Its obligation is gone, so the epoch is certified; its monitor then numbers a terminal above the
  // recorded high water.
  lemma NumberedAfterCertification() returns (steps: seq<Step>, certified: State)
    ensures Legal(START, steps) && Run(START, steps) == certified
    ensures certified.retirement == Certified && certified.finalHigh == Some(0) && certified.numbered == map[]
    ensures Can(certified, StoreTerminal(1, false))
    ensures Do(certified, StoreTerminal(1, false)).numbered == map[0 := 1]
  {
    var reap := ReapingReaches();
    certified := CertifyReaped();
    hide Do, Can;
    steps := reap + [Certify];
    RunPrepend(REAPED_EARLY, Certify, []);
    assert [Certify] + [] == [Certify];
    RunSplit(START, reap, [Certify]);
  }

  lemma CertifyReaped() returns (certified: State)
    ensures Can(REAPED_EARLY, Certify) && certified == Do(REAPED_EARLY, Certify)
    ensures certified.retirement == Certified && certified.finalHigh == Some(0) && certified.numbered == map[]
    ensures Can(certified, StoreTerminal(1, false))
    ensures Do(certified, StoreTerminal(1, false)).numbered == map[0 := 1]
  {
    assert REAPED_EARLY.numbered.Values == {};
    certified := Do(REAPED_EARLY, Certify);
  }

  lemma {:induction false} RunSplit(s: State, first: seq<Step>, rest: seq<Step>)
    requires Legal(s, first) && Legal(Run(s, first), rest)
    ensures Legal(s, first + rest) && Run(s, first + rest) == Run(Run(s, first), rest)
    decreases |first|
  {
    hide Do, Can;
    if first == [] {
      assert first + rest == rest;
    } else {
      RunSplit(Do(s, first[0]), first[1..], rest);
      assert (first + rest)[1..] == first[1..] + rest;
    }
  }

  lemma RunPrepend(s: State, step: Step, steps: seq<Step>)
    requires Can(s, step) && Legal(Do(s, step), steps)
    ensures Legal(s, [step] + steps) && Run(s, [step] + steps) == Run(Do(s, step), steps)
  {
    hide Do, Can;
    assert ([step] + steps)[1..] == steps;
  }

  // The barrier is no lock-out: a session's ordinary life ends with its terminal numbered and the epoch
  // certified at that number.
  function Living(sid: Sid): seq<Step> {
    [Admit(sid, false)]
        + ([MakeRow(sid)] + ([StartMonitor(sid)] + ([CheckPersist(sid)] + ([StoreTerminal(0, false)] + []))))
  }

  function Leaving(sid: Sid): seq<Step> {
    [Discharge(0)] + ([FreeSlot(sid, true, false)] + ([Certify] + []))
  }

  function Lived(sid: Sid): State {
    State({sid}, {sid}, {}, 0, {}, Open, None, {sid}, map[sid := 1], 2, map[sid := Running], [Stored(sid)])
  }

  lemma OrdinaryLifeIsCertified(sid: Sid)
    ensures Legal(START, Living(sid) + Leaving(sid))
    ensures var s := Run(START, Living(sid) + Leaving(sid));
      s.retirement == Certified && s.numbered == map[sid := 1] && s.finalHigh == Some(1)
  {
    LivesSo(sid);
    LeavesSo(sid);
    hide Legal, Run, Living, Leaving;
    RunSplit(START, Living(sid), Leaving(sid));
  }

  lemma LivesSo(sid: Sid)
    ensures Legal(START, Living(sid)) && Run(START, Living(sid)) == Lived(sid)
  {
    var s1 := Do(START, Admit(sid, false));
    var s2 := Do(s1, MakeRow(sid));
    var s3 := Do(s2, StartMonitor(sid));
    var s4 := Do(s3, CheckPersist(sid));
    assert Do(s4, StoreTerminal(0, false)) == Lived(sid);
    hide Do, Can;
    RunPrepend(s4, StoreTerminal(0, false), []);
    var steps := [StoreTerminal(0, false)] + [];
    RunPrepend(s3, CheckPersist(sid), steps);
    steps := [CheckPersist(sid)] + steps;
    RunPrepend(s2, StartMonitor(sid), steps);
    steps := [StartMonitor(sid)] + steps;
    RunPrepend(s1, MakeRow(sid), steps);
    steps := [MakeRow(sid)] + steps;
    RunPrepend(START, Admit(sid, false), steps);
  }

  lemma LeavesSo(sid: Sid)
    ensures Legal(Lived(sid), Leaving(sid))
    ensures var s := Run(Lived(sid), Leaving(sid));
      s.retirement == Certified && s.numbered == map[sid := 1] && s.finalHigh == Some(1)
  {
    var s1 := Do(Lived(sid), Discharge(0));
    var s2 := Do(s1, FreeSlot(sid, true, false));
    assert s2.numbered == map[sid := 1] && BarrierMet(s2);
    assert s2.numbered.Values == {1};
    var s3 := Do(s2, Certify);
    assert Highest({1}) == 1;
    hide Do, Can, Highest;
    RunPrepend(s2, Certify, []);
    RunPrepend(s1, FreeSlot(sid, true, false), [Certify] + []);
    RunPrepend(Lived(sid), Discharge(0), [FreeSlot(sid, true, false)] + ([Certify] + []));
  }

  // ---- numbers ----------------------------------------------------------------------------------------

  // Whoever frees the slot of a session nobody has persisted persists it first: the session's terminal is
  // numbered, with the next number unless it had one, and the slot stays taken only over a terminal of
  // another kind.
  lemma FreeingPersistsFirst(s: State, sid: Sid, same: bool)
    requires Consistent(s) && Monitored(s, sid)
    requires sid in s.sessions && sid !in s.terminalPending && s.retirement != Certified
    ensures var s' := Do(s, FreeSlot(sid, true, same));
      && sid in s'.numbered && (sid in s'.sessions <==> sid in s.numbered && !same)
      && s'.numbered[sid] == (if sid in s.numbered then s.numbered[sid] else s.next)
      && s'.numbered.Keys == s.numbered.Keys + {sid} && s'.sessions + {sid} == s.sessions
  {
  }

  ghost predicate NumbersOk(s: State) {
    && (forall sid :: sid in s.numbered ==> s.numbered[sid] < s.next)
    && (forall a, b :: a in s.numbered && b in s.numbered && s.numbered[a] == s.numbered[b] ==> a == b)
  }

  // The numbers after a step: at most one is new, the next, and none has changed.
  ghost predicate NumbersGrow(was: map<Sid, nat>, next: nat, now: map<Sid, nat>, next': nat) {
    && next <= next' <= next + 1
    && (forall sid :: sid in now ==> now[sid] == if sid in was then was[sid] else next)
    && (forall sid :: sid in now && sid !in was ==> next' == next + 1 && now.Keys <= was.Keys + {sid})
  }

  lemma PutNumbers(s: State, sid: Sid, same: bool)
    ensures var s' := AfterPut(s, sid, same); NumbersGrow(s.numbered, s.next, s'.numbered, s'.next)
  {
  }

  lemma StepNumbers(s: State, step: Step)
    requires Can(s, step)
    ensures var s' := Do(s, step); NumbersGrow(s.numbered, s.next, s'.numbered, s'.next)
  {
    match step
    case StoreTerminal(t, same) =>
      PutNumbers(s, s.persists[t].sid, same);
      hide AfterPut;
    case FreeSlot(sid, snapshot, same) =>
      PutNumbers(s, sid, same);
      hide AfterPut;
    case _ =>
  }

  lemma GrownOk(s: State, s': State)
    requires NumbersOk(s) && NumbersGrow(s.numbered, s.next, s'.numbered, s'.next)
    ensures NumbersOk(s')
  {
    forall a, b | a in s'.numbered && b in s'.numbered && s'.numbered[a] == s'.numbered[b] ensures a == b {
      if a !in s.numbered {
        assert b in s.numbered.Keys + {a};
      }
    }
  }

  // No number is given twice, in any run.
  lemma {:induction false} NumbersAreDistinct(s: State, steps: seq<Step>)
    requires Legal(s, steps) && NumbersOk(s)
    ensures NumbersOk(Run(s, steps)) && s.next <= Run(s, steps).next
    ensures forall sid :: sid in s.numbered && sid in Run(s, steps).numbered && NeverUndone(s, steps, sid) ==>
              Run(s, steps).numbered[sid] == s.numbered[sid]
    decreases |steps|
  {
    hide Do, NumbersOk;
    if steps != [] {
      StepNumbers(s, steps[0]);
      GrownOk(s, Do(s, steps[0]));
      NumbersAreDistinct(Do(s, steps[0]), steps[1..]);
      forall sid | sid in s.numbered && steps[0] != DeleteRows(sid) ensures sid in Do(s, steps[0]).numbered {
        StillNumbered(s, steps[0], sid);
      }
    }
  }

  // The rows of the session are not deleted on the way.
  predicate NeverUndone(s: State, steps: seq<Step>, sid: Sid) {
    DeleteRows(sid) !in steps
  }

  lemma StillNumbered(s: State, step: Step, sid: Sid)
    requires Can(s, step) && sid in s.numbered && step != DeleteRows(sid)
    ensures sid in Do(s, step).numbered
  {
  }
}
