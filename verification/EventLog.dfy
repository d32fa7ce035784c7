/**
  What the event queue means (daemon/events.py): an unbounded log of everything ever published, and
  the bounded ring that stands in for it.

  A publish runs a callback between reserving the event and indexing it, and the callback may publish
  and resolve in turn, so one publish is not one step.  A run is a sequence of smaller steps: `Begin`
  and `End` bracket a publish, and whatever its callback does stands between them.

  `Ring` says which events are retained; its indexes are in `EventQueues`.
*/
module EventLog {
  import opened Prelude

  type Id = nat

  datatype Reason = Answered | Withdrawn | Superseded

  datatype Draft = Draft(sid: Id, owner: Option<Id>, respondable: bool, decision: Option<Id>, content: Id)

  datatype Event = Event(num: nat, draft: Draft)

  // Whose events a cursor is about: everybody's, one session's, or those of a set of sessions.
  datatype Scope = Global | One(sid: Id) | Among(sids: set<Id>)

  datatype Wake = CursorExpired | Nothing | Next(event: Event)

  datatype Step =
    | Begin(draft: Draft)
    | End
    | Supersede                              // a callback gives up the event being published
    | Resolve(decision: Id, reason: Reason)
    | Mark(num: nat)                         // mark one event answered
    | Forget(sid: Id)

  predicate InScope(e: Event, scope: Scope) {
    match scope
    case Global => true
    case One(sid) => e.draft.sid == sid
    case Among(sids) => e.draft.sid in sids
  }

  // What may happen with `depth` publishes on the stack, each with its callback running.
  predicate Can(depth: nat, step: Step) {
    match step
    case End => depth > 0
    case Supersede => depth > 0
    case Forget(_) => depth == 0
    case _ => true
  }

  function Depth(depth: nat, step: Step): nat
    requires Can(depth, step)
  {
    match step
    case Begin(_) => depth + 1
    case End => depth - 1
    case _ => depth
  }

  predicate Legal(depth: nat, steps: seq<Step>)
    decreases |steps|
  {
    steps != [] ==> Can(depth, steps[0]) && Legal(Depth(depth, steps[0]), steps[1..])
  }

  // ---- the unbounded log --------------------------------------------------------------------------

  datatype Log = Log(all: seq<Event>, reason: map<nat, Reason>, open: seq<nat>)

  function All(all: seq<Event>): set<Event> {
    set e | e in all
  }

  // The published, unresolved decisions among `events`.
  function Undecided(events: set<Event>, reason: map<nat, Reason>, open: seq<nat>): set<Event> {
    set e | e in events && e.draft.respondable && e.num !in reason && e.num !in open
  }

  function OfDecision(events: set<Event>, did: Id): set<Event> {
    set e | e in events && e.draft.decision == Some(did)
  }

  function Nums(events: set<Event>): set<nat> {
    set e | e in events :: e.num
  }

  function ResolveAll(reason: map<nat, Reason>, events: set<Event>, why: Reason): map<nat, Reason> {
    reason + map s | s in Nums(events) :: why
  }

  // The answer is the newest of `events`, or nothing when there is none.
  ghost predicate Newest(events: set<Event>, answer: Option<Event>) {
    match answer
    case None => events == {}
    case Some(e) => e in events && forall f :: f in events ==> f.num <= e.num
  }

  ghost predicate NewestSeq(events: set<Event>, answer: Option<nat>) {
    match answer
    case None => events == {}
    case Some(s) => (exists e :: e in events && e.num == s) && forall f :: f in events ==> f.num <= s
  }

  // The answer is the earliest of `events` in scope after the cursor, or nothing when there is none.
  ghost predicate Earliest(events: set<Event>, after: int, scope: Scope, w: Wake) {
    match w
    case CursorExpired => false
    case Nothing => forall e :: e in events && InScope(e, scope) ==> e.num <= after
    case Next(e) =>
      && e in events && InScope(e, scope) && e.num > after
      && forall f :: f in events && InScope(f, scope) && f.num > after ==> e.num <= f.num
  }

  function LogStep(l: Log, step: Step): Log
    requires Can(|l.open|, step)
  {
    match step
    case Begin(d) => l.(all := l.all + [Event(|l.all| + 1, d)], open := l.open + [|l.all| + 1])
    case End => l.(open := l.open[..|l.open| - 1])
    case Supersede => l.(reason := l.reason[l.open[|l.open| - 1] := Superseded])
    case Resolve(did, why) =>
      l.(reason := ResolveAll(l.reason, OfDecision(Undecided(All(l.all), l.reason, l.open), did), why))
    case Mark(s) => if 1 <= s <= |l.all| then l.(reason := l.reason[s := Answered]) else l
    case Forget(_) => l
  }

  // ---- the ring -----------------------------------------------------------------------------------

  datatype Ring = Ring(bound: nat, floor: nat, all: seq<Event>, kept: set<Event>, reason: map<nat, Reason>,
                       open: seq<nat>, evictedHigh: nat, evictedHighOf: map<Id, nat>,
                       lastOf: map<Id, nat>, forgotten: set<Id>)

  function Start(bound: nat, floor: nat): Ring {
    Ring(bound, floor, [], {}, map[], [], 0, map[], map[], {})
  }

  function Pinned(r: Ring): set<Event> {
    Undecided(r.kept, r.reason, r.open)
  }

  // Indexed and not pinned.
  predicate Spare(r: Ring, e: Event) {
    e in r.kept && e.num !in r.open && (e.draft.respondable ==> e.num in r.reason)
  }

  function Evictable(r: Ring): set<Event> {
    set e | e in r.kept && Spare(r, e)
  }

  function Bucket(r: Ring, owner: Option<Id>): set<Event> {
    set e | e in r.kept && Spare(r, e) && e.draft.owner == owner
  }

  predicate AboveFloor(r: Ring, e: Event) {
    Spare(r, e) && |Bucket(r, e.draft.owner)| > r.floor
  }

  ghost predicate IsVictim(r: Ring, e: Event) {
    AboveFloor(r, e) && forall f :: f in r.kept && AboveFloor(r, f) ==> e.num <= f.num
  }

  function Seen(m: map<Id, nat>, sid: Id): nat {
    if sid in m then m[sid] else 0
  }

  function Drop(r: Ring, e: Event): Ring {
    var sid := e.draft.sid;
    r.(kept := r.kept - {e}, evictedHigh := Max(r.evictedHigh, e.num),
       evictedHighOf := r.evictedHighOf[sid := Max(Seen(r.evictedHighOf, sid), e.num)])
  }

  lemma EvictableShrinks(r: Ring, e: Event)
    requires Spare(r, e)
    ensures Evictable(Drop(r, e)) == Evictable(r) - {e}
    ensures |Evictable(Drop(r, e))| < |Evictable(r)|
  {
    assert Evictable(Drop(r, e)) == Evictable(r) - {e};
  }

  // Drop the oldest evictable event of an owner above its floor, until the bound is met or every
  // owner is down to its floor.
  ghost function Evict(r: Ring): Ring
    decreases |Evictable(r)|
  {
    if |Evictable(r)| <= r.bound || !(exists e :: IsVictim(r, e)) then r
    else
      var e :| IsVictim(r, e);
      EvictableShrinks(r, e);
      Evict(Drop(r, e))
  }

  function Without(events: set<Event>, sid: Id): set<Event> {
    set e | e in events && e.draft.sid != sid
  }

  // Reserved, but not yet indexed.
  function Opened(r: Ring, d: Draft): Ring {
    var e := Event(|r.all| + 1, d);
    r.(all := r.all + [e], kept := r.kept + {e}, open := r.open + [e.num], lastOf := r.lastOf[d.sid := e.num])
  }

  function Closed(r: Ring): Ring
    requires r.open != []
  {
    r.(open := r.open[..|r.open| - 1])
  }

  function Forgot(r: Ring, sid: Id): Ring {
    r.(kept := Without(r.kept, sid), lastOf := r.lastOf - {sid},
       evictedHighOf := r.evictedHighOf - {sid}, forgotten := r.forgotten + {sid})
  }

  ghost function RingStep(r: Ring, step: Step): Ring
    requires Can(|r.open|, step)
  {
    match step
    case Begin(d) => Opened(r, d)
    case End => Evict(Closed(r))
    case Supersede => r.(reason := r.reason[r.open[|r.open| - 1] := Superseded])
    case Resolve(did, why) =>
      var d := OfDecision(Pinned(r), did);
      if d == {} then r else Evict(r.(reason := ResolveAll(r.reason, d, why)))
    case Mark(s) =>
      if !(exists e :: e in r.kept && e.num == s) then r
      else
        var r1 := r.(reason := r.reason[s := Answered]);
        if exists e :: e in Pinned(r) && e.num == s then Evict(r1) else r1
    case Forget(sid) => Forgot(r, sid)
  }

  // What resolving a decision, or marking an event, answers.
  ghost predicate Answers(r: Ring, step: Step, answer: Option<nat>)
  {
    match step
    case Resolve(did, _) => NewestSeq(OfDecision(Pinned(r), did), answer)
    case Mark(s) => answer == if exists e :: e in r.kept && e.num == s then Some(s) else None
    case _ => true
  }

  // The point before which events in scope may be missing.
  ghost predicate IsHighWater(r: Ring, scope: Scope, high: nat) {
    match scope
    case Global => high == r.evictedHigh
    case One(sid) => high == Seen(r.evictedHighOf, sid)
    case Among(sids) =>
      && (forall sid :: sid in sids ==> Seen(r.evictedHighOf, sid) <= high)
      && (high == 0 || exists sid :: sid in sids && high == Seen(r.evictedHighOf, sid))
  }

  ghost predicate LatestAfter(r: Ring, after: int, scope: Scope, w: Wake) {
    exists high :: IsHighWater(r, scope, high) &&
      if after < high then w == CursorExpired else Earliest(r.kept, after, scope, w)
  }

  function OfSession(events: set<Event>, scope: Scope): set<Event> {
    set e | e in events && InScope(e, scope)
  }

  ghost predicate Pending(r: Ring, scope: Scope, answer: Option<Event>) {
    Newest(OfSession(Pinned(r), scope), answer)
  }

  // ---- runs ---------------------------------------------------------------------------------------

  lemma {:induction false} EvictKeepsOpen(r: Ring)
    ensures var v := Evict(r);
      && v.open == r.open && v.all == r.all && v.reason == r.reason && v.forgotten == r.forgotten
      && v.lastOf == r.lastOf && v.bound == r.bound && v.floor == r.floor && v.kept <= r.kept
    decreases |Evictable(r)|
  {
    if |Evictable(r)| > r.bound && exists e :: IsVictim(r, e) {
      var e :| IsVictim(r, e) && Evict(r) == Evict(Drop(r, e));
      EvictableShrinks(r, e);
      EvictKeepsOpen(Drop(r, e));
    }
  }

  lemma StepDepth(r: Ring, step: Step)
    requires Can(|r.open|, step)
    ensures |RingStep(r, step).open| == Depth(|r.open|, step)
  {
    hide Evict;
    match step {
      case End => EvictKeepsOpen(Closed(r));
      case Resolve(did, why) => EvictKeepsOpen(r.(reason := ResolveAll(r.reason, OfDecision(Pinned(r), did), why)));
      case Mark(s) => EvictKeepsOpen(r.(reason := r.reason[s := Answered]));
      case _ =>
    }
  }

  ghost function Run(r: Ring, steps: seq<Step>): Ring
    requires Legal(|r.open|, steps)
    decreases |steps|
  {
    if steps == [] then r
    else
      StepDepth(r, steps[0]);
      Run(RingStep(r, steps[0]), steps[1..])
  }

  function LogRun(l: Log, steps: seq<Step>): Log
    requires Legal(|l.open|, steps)
    decreases |steps|
  {
    if steps == [] then l else LogRun(LogStep(l, steps[0]), steps[1..])
  }

  // ---- what every run keeps -----------------------------------------------------------------------

  ghost predicate Shape(r: Ring) {
    && (forall i :: 0 <= i < |r.all| ==> r.all[i].num == i + 1)
    && (forall e :: e in r.kept ==> e in r.all)
    && (forall i :: 0 <= i < |r.open| ==> 1 <= r.open[i] <= |r.all| && r.all[r.open[i] - 1] in r.kept)
    && (forall i, j :: 0 <= i < j < |r.open| ==> r.open[i] != r.open[j])
  }

  // An event that is gone was evicted, and the watermarks say so, unless its session was forgotten.
  ghost predicate Watermarks(r: Ring) {
    && r.evictedHigh <= |r.all|
    && (forall e :: e in r.all && e !in r.kept && e.draft.sid !in r.forgotten ==>
          e.num <= r.evictedHigh && e.num <= Seen(r.evictedHighOf, e.draft.sid))
    && (forall e :: e in r.kept ==> e.num <= Seen(r.lastOf, e.draft.sid))
    && (forall sid :: sid in r.evictedHighOf ==> r.evictedHighOf[sid] <= Seen(r.lastOf, sid))
    && (forall sid :: sid in r.lastOf ==> r.lastOf[sid] <= |r.all|)
  }

  ghost predicate Latest(r: Ring) {
    && (forall e :: e in r.all && e.draft.sid !in r.forgotten ==> e.num <= Seen(r.lastOf, e.draft.sid))
    && (forall sid :: sid in r.lastOf ==>
          1 <= r.lastOf[sid] <= |r.all| && r.all[r.lastOf[sid] - 1].draft.sid == sid)
  }

  // A watermark is the number of an event that is really gone.
  ghost predicate HighsAreGone(r: Ring) {
    && (r.evictedHigh > 0 ==> r.evictedHigh <= |r.all| && r.all[r.evictedHigh - 1] !in r.kept)
    && (forall sid :: sid in r.evictedHighOf ==> Gone(r, sid, r.evictedHighOf[sid]))
  }

  ghost predicate Gone(r: Ring, sid: Id, s: nat) {
    1 <= s <= |r.all| && r.all[s - 1].draft.sid == sid && r.all[s - 1] !in r.kept
  }

  // No unresolved decision, and nothing still being published, is ever dropped.
  ghost predicate NothingOwedIsGone(r: Ring) {
    forall e :: e in r.all && e.draft.sid !in r.forgotten && e !in r.kept ==>
      e.num !in r.open && (e.draft.respondable ==> e.num in r.reason)
  }

  function NewerThan(events: set<Event>, s: nat): set<Event> {
    set e | e in events && e.num > s
  }

  // None of the owner's sessions was forgotten.
  predicate Whole(r: Ring, owner: Option<Id>) {
    forall f :: f in r.all && f.draft.owner == owner ==> f.draft.sid !in r.forgotten
  }

  // An evicted event leaves at least the floor of newer events of its owner behind it.
  ghost predicate FloorHolds(r: Ring) {
    forall e :: e in r.all && e !in r.kept && Whole(r, e.draft.owner) ==>
      |NewerThan(Bucket(r, e.draft.owner), e.num)| >= r.floor
  }

  ghost predicate Settled(r: Ring) {
    |Evictable(r)| <= r.bound || forall owner :: |Bucket(r, owner)| <= r.floor
  }

  ghost predicate RingOk(r: Ring) {
    CoreOk(r) && Settled(r)
  }

  ghost predicate CoreOk(r: Ring) {
    Shape(r) && Watermarks(r) && Latest(r) && HighsAreGone(r) && NothingOwedIsGone(r) && FloorHolds(r)
  }

  lemma StartOk(bound: nat, floor: nat)
    ensures RingOk(Start(bound, floor))
  {
    assert Evictable(Start(bound, floor)) == {};
  }

  lemma {:induction false} OldestExists(events: set<Event>)
    requires events != {}
    ensures exists e :: e in events && forall f :: f in events ==> e.num <= f.num
    decreases |events|
  {
    var e :| e in events;
    if events - {e} != {} {
      OldestExists(events - {e});
      var d :| d in events - {e} && forall f :: f in events - {e} ==> d.num <= f.num;
      var least := if d.num <= e.num then d else e;
      assert forall f :: f in events ==> f == e || f in events - {e};
      assert least in events && forall f :: f in events ==> least.num <= f.num;
    } else {
      assert events == {e};
    }
  }

  lemma SomeVictim(r: Ring, owner: Option<Id>)
    requires |Bucket(r, owner)| > r.floor
    ensures exists e :: IsVictim(r, e)
  {
    var candidates := set e | e in r.kept && AboveFloor(r, e);
    var e :| e in Bucket(r, owner);
    assert e in candidates;
    OldestExists(candidates);
    var v :| v in candidates && forall f :: f in candidates ==> v.num <= f.num;
    assert IsVictim(r, v);
  }

  // The victim is the oldest indexed event of its owner.
  lemma VictimIsOwnersOldest(r: Ring, e: Event, f: Event)
    requires IsVictim(r, e) && f in Bucket(r, e.draft.owner)
    ensures e.num <= f.num
  {
    assert AboveFloor(r, f);
  }

  lemma DropBucket(r: Ring, e: Event, owner: Option<Id>)
    requires Spare(r, e)
    ensures Bucket(Drop(r, e), owner) == Bucket(r, owner) - (if owner == e.draft.owner then {e} else {})
  {
  }

  lemma DropKeepsFloor(r: Ring, e: Event)
    requires Shape(r) && FloorHolds(r) && IsVictim(r, e)
    ensures FloorHolds(Drop(r, e))
  {
    var d := Drop(r, e);
    forall g | g in r.all && g !in d.kept && Whole(d, g.draft.owner)
      ensures |NewerThan(Bucket(d, g.draft.owner), g.num)| >= r.floor
    {
      var o := g.draft.owner;
      DropBucket(r, e, o);
      if o == e.draft.owner {
        if g == e || g.num < e.num {
          assert NewerThan(Bucket(d, o), g.num) == Bucket(r, o) - {e} by {
            forall f | f in Bucket(r, o) && f != e ensures f.num > g.num {
              VictimIsOwnersOldest(r, e, f);
              assert f in r.all && e in r.all;
            }
          }
        } else {
          assert NewerThan(Bucket(d, o), g.num) == NewerThan(Bucket(r, o), g.num);
        }
      } else {
        assert Bucket(d, o) == Bucket(r, o);
      }
    }
  }

  lemma DropKeepsShape(r: Ring, e: Event)
    requires Shape(r) && Spare(r, e)
    ensures Shape(Drop(r, e))
  {
    forall i | 0 <= i < |r.open| ensures r.all[r.open[i] - 1] in r.kept - {e} {
      assert r.all[r.open[i] - 1].num == r.open[i];
      assert r.open[i] in r.open;
    }
  }

  lemma DropKeepsMarks(r: Ring, e: Event)
    requires Watermarks(r) && Latest(r) && NothingOwedIsGone(r) && Spare(r, e) && e in r.all && e.num <= |r.all|
    ensures Watermarks(Drop(r, e))
  {
  }

  lemma DropKeepsLatest(r: Ring, e: Event)
    requires Latest(r) && NothingOwedIsGone(r) && Spare(r, e) && e in r.all && e.num <= |r.all|
    ensures Latest(Drop(r, e)) && NothingOwedIsGone(Drop(r, e))
  {
  }

  lemma DropKeepsHighs(r: Ring, e: Event)
    requires Shape(r) && HighsAreGone(r) && e in r.kept
    ensures HighsAreGone(Drop(r, e))
  {
    assert e in r.all && r.all[e.num - 1] == e;
  }

  lemma DropKeeps(r: Ring, e: Event)
    requires CoreOk(r) && IsVictim(r, e)
    ensures CoreOk(Drop(r, e))
  {
    hide FloorHolds, IsVictim, Watermarks, Latest, HighsAreGone, NothingOwedIsGone, Drop;
    VictimSpare(r, e);
    DropKeepsHighs(r, e);
    DropKeepsFloor(r, e);
    DropKeepsShape(r, e);
    assert e in r.all;
    DropKeepsMarks(r, e);
    DropKeepsLatest(r, e);
  }

  lemma VictimSpare(r: Ring, e: Event)
    requires IsVictim(r, e)
    ensures Spare(r, e) && AboveFloor(r, e)
  {
  }

  lemma {:induction false} EvictKeeps(r: Ring)
    requires CoreOk(r)
    ensures RingOk(Evict(r))
    decreases |Evictable(r)|
  {
    hide Shape, Watermarks, Latest, HighsAreGone, NothingOwedIsGone, FloorHolds, IsVictim, Evictable, Bucket, Drop;
    if |Evictable(r)| > r.bound {
      if exists e :: IsVictim(r, e) {
        var e :| IsVictim(r, e) && Evict(r) == Evict(Drop(r, e));
        VictimSpare(r, e);
        EvictableShrinks(r, e);
        DropKeeps(r, e);
        EvictKeeps(Drop(r, e));
      } else {
        forall owner ensures |Bucket(r, owner)| <= r.floor {
          if |Bucket(r, owner)| > r.floor {
            SomeVictim(r, owner);
          }
        }
      }
    }
  }

  // ---- every step keeps it ------------------------------------------------------------------------

  lemma BucketGrows(r: Ring, r1: Ring, e: Event)
    requires r1.kept == r.kept && forall f :: f in r.kept && Spare(r, f) ==> Spare(r1, f)
    ensures |NewerThan(Bucket(r, e.draft.owner), e.num)| <= |NewerThan(Bucket(r1, e.draft.owner), e.num)|
  {
    SubsetSize(NewerThan(Bucket(r, e.draft.owner), e.num), NewerThan(Bucket(r1, e.draft.owner), e.num));
  }

  lemma LoosenFloor(r: Ring, r1: Ring)
    requires FloorHolds(r)
    requires r1.all == r.all && r1.kept == r.kept && r1.floor == r.floor && r1.forgotten == r.forgotten
    requires forall f :: f in r.kept && Spare(r, f) ==> Spare(r1, f)
    ensures FloorHolds(r1)
  {
    hide Bucket, NewerThan, Spare;
    forall e | e in r.all && e !in r.kept && Whole(r1, e.draft.owner)
      ensures |NewerThan(Bucket(r1, e.draft.owner), e.num)| >= r.floor
    {
      BucketGrows(r, r1, e);
    }
  }

  lemma SameSettled(r: Ring, r1: Ring)
    requires Settled(r) && r1.bound == r.bound && r1.floor == r.floor
    requires forall f :: f in r1.kept && Spare(r1, f) ==> f in r.kept && Spare(r, f)
    ensures Settled(r1)
  {
    SubsetSize(Evictable(r1), Evictable(r));
    forall o ensures |Bucket(r1, o)| <= |Bucket(r, o)| {
      SubsetSize(Bucket(r1, o), Bucket(r, o));
    }
  }

  // More events resolved.
  lemma ResolvingKeepsCore(r: Ring, reason: map<nat, Reason>)
    requires CoreOk(r) && r.reason.Keys <= reason.Keys
    ensures CoreOk(r.(reason := reason))
  {
    hide FloorHolds;
    assert FloorHolds(r.(reason := reason)) by {
      LoosenFloor(r, r.(reason := reason));
    }
  }

  lemma CloseKeepsShape(r: Ring)
    requires Shape(r) && NothingOwedIsGone(r) && r.open != []
    ensures Shape(Closed(r)) && NothingOwedIsGone(Closed(r))
    ensures forall f :: f in r.kept && Spare(r, f) ==> Spare(Closed(r), f)
  {
    assert forall s :: s in Closed(r).open ==> s in r.open;
  }

  lemma CloseKeepsMarks(r: Ring)
    requires Watermarks(r) && Latest(r) && r.open != []
    ensures Watermarks(Closed(r)) && Latest(Closed(r))
  {
  }

  lemma CloseKeepsHighs(r: Ring)
    requires HighsAreGone(r) && r.open != []
    ensures HighsAreGone(Closed(r))
  {
  }

  lemma CloseKeepsCore(r: Ring)
    requires CoreOk(r) && r.open != []
    ensures CoreOk(Closed(r))
  {
    hide Shape, FloorHolds, Watermarks, Latest, HighsAreGone, NothingOwedIsGone, Spare;
    CloseKeepsShape(r);
    CloseKeepsMarks(r);
    CloseKeepsHighs(r);
    LoosenFloor(r, Closed(r));
  }

  lemma BeginMembers(r: Ring, d: Draft)
    requires Shape(r)
    ensures forall e :: e in Opened(r, d).all <==> e in r.all || e == Event(|r.all| + 1, d)
    ensures forall e :: e in r.all ==> 1 <= e.num <= |r.all|
    ensures forall s :: s in Opened(r, d).open <==> s in r.open || s == |r.all| + 1
  {
  }

  lemma BeginKeepsWatermarks(r: Ring, d: Draft)
    requires Shape(r) && Watermarks(r)
    ensures Watermarks(Opened(r, d))
  {
    BeginMembers(r, d);
    hide Shape;
  }

  lemma BeginKeepsLatest(r: Ring, d: Draft)
    requires Shape(r) && Latest(r)
    ensures Latest(Opened(r, d))
  {
    BeginMembers(r, d);
    hide Shape;
  }

  lemma BeginKeepsHighs(r: Ring, d: Draft)
    requires Shape(r) && HighsAreGone(r)
    ensures HighsAreGone(Opened(r, d))
  {
    forall sid, s | Gone(r, sid, s) ensures Gone(Opened(r, d), sid, s) {
      assert r.all[s - 1].num == s;
    }
  }

  lemma BeginDropsNothing(r: Ring, d: Draft)
    requires Shape(r) && NothingOwedIsGone(r)
    ensures NothingOwedIsGone(Opened(r, d))
  {
    BeginMembers(r, d);
    hide Shape;
  }

  lemma BeginKeepsShape(r: Ring, d: Draft)
    requires Shape(r)
    ensures Shape(Opened(r, d))
  {
    BeginMembers(r, d);
  }

  lemma BeginSpare(r: Ring, d: Draft)
    requires Shape(r)
    ensures forall f :: f in Opened(r, d).kept ==> (Spare(Opened(r, d), f) <==> f in r.kept && Spare(r, f))
  {
    BeginMembers(r, d);
    assert forall f :: f in r.kept ==> f in r.all;
    hide Shape;
  }

  lemma BeginKeepsFloor(r: Ring, d: Draft)
    requires Shape(r) && FloorHolds(r)
    ensures FloorHolds(Opened(r, d))
  {
    var b := Opened(r, d);
    BeginSpare(r, d);
    BeginMembers(r, d);
    hide Shape, Spare;
    forall e | e in b.all && e !in b.kept && Whole(b, e.draft.owner)
      ensures |NewerThan(Bucket(b, e.draft.owner), e.num)| >= b.floor
    {
      assert Bucket(b, e.draft.owner) == Bucket(r, e.draft.owner);
    }
  }

  lemma BeginKeeps(r: Ring, d: Draft)
    requires RingOk(r)
    ensures RingOk(Opened(r, d))
  {
    hide Shape, Watermarks, Latest, HighsAreGone, NothingOwedIsGone, FloorHolds, Settled, Spare;
    BeginKeepsShape(r, d);
    BeginKeepsWatermarks(r, d);
    BeginKeepsLatest(r, d);
    BeginDropsNothing(r, d);
    BeginKeepsHighs(r, d);
    BeginKeepsFloor(r, d);
    BeginSpare(r, d);
    SameSettled(r, Opened(r, d));
  }

  lemma SupersedeKeeps(r: Ring)
    requires RingOk(r) && r.open != []
    ensures RingOk(RingStep(r, Supersede))
  {
    hide Shape, Watermarks, Latest, HighsAreGone, NothingOwedIsGone, FloorHolds, Settled;
    var n := r.open[|r.open| - 1];
    assert n in r.open;
    ResolvingKeepsCore(r, r.reason[n := Superseded]);
    SameSettled(r, RingStep(r, Supersede));
  }

  lemma MarkKeeps(r: Ring, s: nat)
    requires RingOk(r)
    ensures RingOk(RingStep(r, Mark(s)))
  {
    hide Shape, Watermarks, Latest, HighsAreGone, NothingOwedIsGone, FloorHolds, Settled;
    if exists e :: e in r.kept && e.num == s {
      var r1 := r.(reason := r.reason[s := Answered]);
      ResolvingKeepsCore(r, r1.reason);
      if exists e :: e in Pinned(r) && e.num == s {
        EvictKeeps(r1);
      } else {
        forall f | f in r1.kept && Spare(r1, f) ensures Spare(r, f) {
          assert f !in Pinned(r) || f.num != s;
        }
        SameSettled(r, r1);
      }
    }
  }

  lemma ForgetKeepsMarks(r: Ring, sid: Id)
    requires Watermarks(r) && Latest(r)
    ensures Watermarks(Forgot(r, sid))
  {
  }

  lemma ForgetKeepsLatest(r: Ring, sid: Id)
    requires Watermarks(r) && Latest(r)
    ensures Latest(Forgot(r, sid))
  {
  }

  lemma ForgetKeepsHighs(r: Ring, sid: Id)
    requires HighsAreGone(r)
    ensures HighsAreGone(Forgot(r, sid))
  {
  }

  lemma ForgetKeeps(r: Ring, sid: Id)
    requires RingOk(r) && r.open == []
    ensures RingOk(Forgot(r, sid))
  {
    hide Watermarks, Latest, HighsAreGone, Settled;
    ForgetKeepsMarks(r, sid);
    ForgetKeepsLatest(r, sid);
    ForgetKeepsHighs(r, sid);
    ForgetKeepsFloor(r, sid);
    hide FloorHolds;
    SameSettled(r, Forgot(r, sid));
  }

  lemma ForgetKeepsFloor(r: Ring, sid: Id)
    requires Shape(r) && FloorHolds(r)
    ensures FloorHolds(Forgot(r, sid))
  {
    var f := Forgot(r, sid);
    forall e | e in f.all && e !in f.kept && Whole(f, e.draft.owner)
      ensures |NewerThan(Bucket(f, e.draft.owner), e.num)| >= f.floor
    {
      assert Whole(r, e.draft.owner) && e !in r.kept;
      assert Bucket(f, e.draft.owner) == Bucket(r, e.draft.owner);
    }
  }

  lemma StepKeeps(r: Ring, step: Step)
    requires RingOk(r) && Can(|r.open|, step)
    ensures RingOk(RingStep(r, step))
  {
    hide Shape, Watermarks, Latest, HighsAreGone, NothingOwedIsGone, FloorHolds, Settled;
    match step {
      case Begin(d) => BeginKeeps(r, d);
      case End =>
        CloseKeepsCore(r);
        EvictKeeps(Closed(r));
      case Supersede => SupersedeKeeps(r);
      case Resolve(did, why) =>
        var d := OfDecision(Pinned(r), did);
        if d != {} {
          ResolvingKeepsCore(r, ResolveAll(r.reason, d, why));
          EvictKeeps(r.(reason := ResolveAll(r.reason, d, why)));
        }
      case Mark(s) => MarkKeeps(r, s);
      case Forget(sid) => ForgetKeeps(r, sid);
    }
  }

  lemma {:induction false} RunKeeps(r: Ring, steps: seq<Step>)
    requires RingOk(r) && Legal(|r.open|, steps)
    ensures RingOk(Run(r, steps))
    decreases |steps|
  {
    hide RingOk, RingStep;
    if steps != [] {
      StepKeeps(r, steps[0]);
      StepDepth(r, steps[0]);
      RunKeeps(RingStep(r, steps[0]), steps[1..]);
    }
  }

  // ---- the ring stands for the log ----------------------------------------------------------------

  // Same events, same publishes under way, same fate of every retained event; an unresolved decision
  // of the log is in the ring unless its session was forgotten.
  ghost predicate StandsFor(r: Ring, l: Log) {
    && r.all == l.all && r.open == l.open
    && (forall s :: s in r.reason ==> s <= |r.all|)
    && (forall s :: s in l.reason ==> s <= |l.all|)
    && (forall e :: e in r.kept ==> Lookup(r.reason, e.num) == Lookup(l.reason, e.num))
    && (forall e :: e in r.all && e !in r.kept && e.draft.sid !in r.forgotten && e.draft.respondable ==>
          e.num in l.reason)
  }

  lemma EvictStandsFor(r: Ring, l: Log)
    requires StandsFor(r, l) && CoreOk(r)
    ensures StandsFor(Evict(r), l)
  {
    EvictKeepsOpen(r);
    EvictKeeps(r);
    hide Evict, Shape, Watermarks, Latest, FloorHolds, Settled, CoreOk;
    var v := Evict(r);
    forall e | e in v.all && e !in v.kept && e.draft.sid !in v.forgotten && e.draft.respondable
      ensures e.num in l.reason
    {
      assert e.num in v.reason;
      if e in r.kept {
        assert Lookup(r.reason, e.num) == Lookup(l.reason, e.num);
      }
    }
  }

  lemma ResolveStandsFor(r: Ring, l: Log, did: Id, why: Reason)
    requires StandsFor(r, l) && CoreOk(r)
    ensures var d := OfDecision(Pinned(r), did);
      StandsFor(r.(reason := ResolveAll(r.reason, d, why)), LogStep(l, Resolve(did, why)))
  {
    hide Watermarks, Latest, HighsAreGone, FloorHolds;
    var d := OfDecision(Pinned(r), did);
    var dl := OfDecision(Undecided(All(l.all), l.reason, l.open), did);
    var r1 := r.(reason := ResolveAll(r.reason, d, why));
    var l1 := LogStep(l, Resolve(did, why));
    NumsIn(r, d, dl);
    forall e | e in r.kept
      ensures Lookup(r1.reason, e.num) == Lookup(l1.reason, e.num)
    {
      assert Lookup(r.reason, e.num) == Lookup(l.reason, e.num);
      assert e in d <==> e in dl;
    }
  }

  lemma NumsIn(r: Ring, d: set<Event>, dl: set<Event>)
    requires Shape(r) && d <= All(r.all) && dl <= All(r.all)
    ensures forall e :: e in r.all ==> (e.num in Nums(d) <==> e in d) && (e.num in Nums(dl) <==> e in dl)
    ensures forall s :: s in Nums(d) || s in Nums(dl) ==> 1 <= s <= |r.all|
  {
  }

  lemma BeginStandsFor(r: Ring, l: Log, d: Draft)
    requires StandsFor(r, l)
    ensures StandsFor(Opened(r, d), LogStep(l, Begin(d)))
  {
  }

  lemma MarkStandsFor(r: Ring, l: Log, s: nat)
    requires StandsFor(r, l) && CoreOk(r)
    ensures StandsFor(RingStep(r, Mark(s)), LogStep(l, Mark(s)))
  {
    hide Watermarks, Latest, HighsAreGone, FloorHolds, NothingOwedIsGone, Evict;
    var l1 := LogStep(l, Mark(s));
    if exists e :: e in r.kept && e.num == s {
      var r1 := r.(reason := r.reason[s := Answered]);
      assert StandsFor(r1, l1);
      ResolvingKeepsCore(r, r1.reason);
      EvictStandsFor(r1, l1);
    } else {
      assert StandsFor(r, l1);
    }
  }

  lemma StepStandsFor(r: Ring, l: Log, step: Step)
    requires StandsFor(r, l) && RingOk(r) && Can(|r.open|, step)
    ensures StandsFor(RingStep(r, step), LogStep(l, step))
  {
    hide Shape, Watermarks, Latest, HighsAreGone, FloorHolds, NothingOwedIsGone, Settled, Evict;
    match step {
      case Begin(d) => BeginStandsFor(r, l, d);
      case End =>
        CloseKeepsCore(r);
        EvictStandsFor(Closed(r), LogStep(l, End));
      case Supersede => SupersedeStandsFor(r, l);
      case Resolve(did, why) =>
        var d := OfDecision(Pinned(r), did);
        ResolveStandsFor(r, l, did, why);
        ResolvingKeepsCore(r, ResolveAll(r.reason, d, why));
        EvictStandsFor(r.(reason := ResolveAll(r.reason, d, why)), LogStep(l, step));
        if d == {} { ResolveNothing(r, d, why); }
      case Mark(s) => MarkStandsFor(r, l, s);
      case Forget(sid) => ForgetStandsFor(r, l, sid);
    }
  }

  lemma ResolveNothing(r: Ring, d: set<Event>, why: Reason)
    requires d == {}
    ensures r.(reason := ResolveAll(r.reason, d, why)) == r
  {
    assert Nums(d) == {};
    assert ResolveAll(r.reason, d, why) == r.reason;
  }

  lemma SupersedeStandsFor(r: Ring, l: Log)
    requires StandsFor(r, l) && Shape(r) && r.open != []
    ensures StandsFor(RingStep(r, Supersede), LogStep(l, Supersede))
  {
    var n := r.open[|r.open| - 1];
    assert n <= |r.all|;
  }

  lemma ForgetStandsFor(r: Ring, l: Log, sid: Id)
    requires StandsFor(r, l)
    ensures StandsFor(Forgot(r, sid), l)
  {
  }

  lemma {:induction false} RunStandsFor(r: Ring, l: Log, steps: seq<Step>)
    requires StandsFor(r, l) && RingOk(r) && Legal(|r.open|, steps)
    ensures StandsFor(Run(r, steps), LogRun(l, steps))
    decreases |steps|
  {
    hide RingOk, RingStep, LogStep, StandsFor;
    assert r.open == l.open by { SameOpen(r, l); }
    if steps != [] {
      StepStandsFor(r, l, steps[0]);
      StepKeeps(r, steps[0]);
      StepDepth(r, steps[0]);
      SameOpen(RingStep(r, steps[0]), LogStep(l, steps[0]));
      RunStandsFor(RingStep(r, steps[0]), LogStep(l, steps[0]), steps[1..]);
    }
  }

  lemma SameOpen(r: Ring, l: Log)
    requires StandsFor(r, l)
    ensures r.open == l.open && r.all == l.all
  {
  }

  // ---- theorems about every run -------------------------------------------------------------------

  function EmptyLog(): Log {
    Log([], map[], [])
  }

  ghost function Reached(bound: nat, floor: nat, steps: seq<Step>): Ring
    requires Legal(0, steps)
  {
    Run(Start(bound, floor), steps)
  }

  function Logged(steps: seq<Step>): Log
    requires Legal(0, steps)
  {
    LogRun(EmptyLog(), steps)
  }

  lemma ReachedOk(bound: nat, floor: nat, steps: seq<Step>)
    requires Legal(0, steps)
    ensures RingOk(Reached(bound, floor, steps))
    ensures StandsFor(Reached(bound, floor, steps), Logged(steps))
  {
    StartOk(bound, floor);
    RunKeeps(Start(bound, floor), steps);
    RunStandsFor(Start(bound, floor), EmptyLog(), steps);
  }

  predicate Remembers(r: Ring, scope: Scope) {
    match scope
    case Global => r.forgotten == {}
    case One(sid) => sid !in r.forgotten
    case Among(sids) => sids !! r.forgotten
  }

  // An event in scope after the high water is still there.
  lemma AboveHighWaterKept(r: Ring, scope: Scope, high: nat, e: Event)
    requires Watermarks(r) && Remembers(r, scope) && IsHighWater(r, scope, high)
    requires e in r.all && InScope(e, scope) && e.num > high
    ensures e in r.kept
  {
    assert e.draft.sid !in r.forgotten;
  }

  lemma NoGapIn(r: Ring, after: int, scope: Scope, w: Wake)
    requires Shape(r) && Watermarks(r) && Remembers(r, scope)
    requires LatestAfter(r, after, scope, w) && w != CursorExpired
    ensures Earliest(All(r.all), after, scope, w)
  {
    var high :| IsHighWater(r, scope, high) && after >= high && Earliest(r.kept, after, scope, w);
    forall e | e in r.all && InScope(e, scope) && e.num > after ensures e in r.kept {
      AboveHighWaterKept(r, scope, high, e);
    }
  }

  // No silent gap: unless the cursor is declared expired, what a waiter is given is the earliest event
  // ever published in its scope after its cursor, and it is given nothing only when there is none.
  lemma NoSilentGap(bound: nat, floor: nat, steps: seq<Step>, after: int, scope: Scope, w: Wake)
    requires Legal(0, steps)
    requires Remembers(Reached(bound, floor, steps), scope)
    requires LatestAfter(Reached(bound, floor, steps), after, scope, w) && w != CursorExpired
    ensures Earliest(All(Logged(steps).all), after, scope, w)
  {
    hide Reached, Logged, Remembers, LatestAfter, Earliest, Shape, Watermarks;
    ReachedOk(bound, floor, steps);
    NoGapIn(Reached(bound, floor, steps), after, scope, w);
    SameOpen(Reached(bound, floor, steps), Logged(steps));
  }

  // A cursor is declared expired exactly when an event after it, in its scope, is gone; and a negative one,
  // which no event has, always is.
  lemma ExpiredExactlyWhenGone(bound: nat, floor: nat, steps: seq<Step>, after: int, scope: Scope)
    requires Legal(0, steps)
    requires Remembers(Reached(bound, floor, steps), scope)
    ensures var r := Reached(bound, floor, steps);
      LatestAfter(r, after, scope, CursorExpired)
      <==> after < 0 || exists e :: e in Logged(steps).all && e !in r.kept && InScope(e, scope) && e.num > after
  {
    var r := Reached(bound, floor, steps);
    ReachedOk(bound, floor, steps);
    hide Run, LogRun, Shape, Watermarks, HighsAreGone, FloorHolds, Settled, Latest, NothingOwedIsGone, IsHighWater;
    HighWaterExists(r, scope);
    if LatestAfter(r, after, scope, CursorExpired) {
      var high: nat :| IsHighWater(r, scope, high) && after < high;
      if after >= 0 { HighIsGone(r, scope, high); }
    }
    if after < 0 {
      var high: nat :| IsHighWater(r, scope, high);
    }
    forall e | e in r.all && e !in r.kept && InScope(e, scope) && e.num > after
      ensures LatestAfter(r, after, scope, CursorExpired)
    {
      var high: nat :| IsHighWater(r, scope, high);
      if high < e.num {
        AboveHighWaterKept(r, scope, high, e);
      }
    }
  }

  lemma HighIsGone(r: Ring, scope: Scope, high: nat)
    requires Shape(r) && HighsAreGone(r) && IsHighWater(r, scope, high) && high > 0
    ensures exists e :: e in r.all && e.num == high && e !in r.kept && InScope(e, scope)
  {
    var e := r.all[high - 1];
    assert e in r.all && e.num == high && e !in r.kept && InScope(e, scope);
  }

  lemma HighWaterExists(r: Ring, scope: Scope)
    ensures exists high: nat :: IsHighWater(r, scope, high)
  {
    match scope {
      case Global => assert IsHighWater(r, scope, r.evictedHigh);
      case One(sid) => assert IsHighWater(r, scope, Seen(r.evictedHighOf, sid));
      case Among(sids) => HighWaterAmong(r, sids);
    }
  }

  lemma {:induction false} HighWaterAmong(r: Ring, sids: set<Id>)
    ensures exists high: nat :: IsHighWater(r, Among(sids), high)
    decreases |sids|
  {
    if sids == {} {
      assert IsHighWater(r, Among(sids), 0);
    } else {
      var sid :| sid in sids;
      HighWaterAmong(r, sids - {sid});
      var high: nat :| IsHighWater(r, Among(sids - {sid}), high);
      var own: nat := Seen(r.evictedHighOf, sid);
      var top: nat := if high < own then own else high;
      forall x | x in sids ensures Seen(r.evictedHighOf, x) <= top {
        assert x == sid || x in sids - {sid};
      }
      assert IsHighWater(r, Among(sids), top);
    }
  }

  // The cursor that a status call hands out for resynchronising never expires: the newest event ever
  // published, globally or of a session.
  lemma ResyncNeverExpires(bound: nat, floor: nat, steps: seq<Step>, w: Wake, sid: Id)
    requires Legal(0, steps)
    ensures LatestAfter(Reached(bound, floor, steps), |Logged(steps).all|, Global, w) ==> w == Nothing
    ensures LatestAfter(Reached(bound, floor, steps), Seen(Reached(bound, floor, steps).lastOf, sid), One(sid), w)
        ==> w == Nothing
  {
    ReachedOk(bound, floor, steps);
    hide Run, LogRun, FloorHolds, Settled, HighsAreGone, NothingOwedIsGone;
  }

  lemma NewestIn(r: Ring, sid: Id)
    requires Shape(r) && Latest(r) && sid !in r.forgotten
    ensures var own := OfSession(All(r.all), One(sid));
      NewestSeq(own, if own == {} then None else Some(Seen(r.lastOf, sid)))
  {
    var own := OfSession(All(r.all), One(sid));
    if own != {} {
      var e :| e in own;
      var n := Seen(r.lastOf, sid);
      assert e in r.all && 1 <= e.num <= n;
      assert r.all[n - 1] in own && r.all[n - 1].num == n;
    }
  }

  // ... and for a session never forgotten it is the session's newest event.
  lemma ResyncCursorIsNewest(bound: nat, floor: nat, steps: seq<Step>, sid: Id)
    requires Legal(0, steps) && sid !in Reached(bound, floor, steps).forgotten
    ensures var l := Logged(steps);
      var own := OfSession(All(l.all), One(sid));
      NewestSeq(own, if own == {} then None else Some(Seen(Reached(bound, floor, steps).lastOf, sid)))
  {
    hide Reached, Logged, OfSession, NewestSeq, Shape, Latest;
    ReachedOk(bound, floor, steps);
    NewestIn(Reached(bound, floor, steps), sid);
    SameOpen(Reached(bound, floor, steps), Logged(steps));
  }

  lemma SameUndecided(r: Ring, l: Log, e: Event)
    requires RingOk(r) && StandsFor(r, l) && e in r.all && e.draft.sid !in r.forgotten
    ensures e in Pinned(r) <==> e in Undecided(All(l.all), l.reason, l.open)
  {
    hide FloorHolds, Settled, Watermarks, Latest, HighsAreGone;
    if e in r.kept {
      assert Lookup(r.reason, e.num) == Lookup(l.reason, e.num);
    }
  }

  // The pending decision is the one the whole log has pending.
  lemma PendingAsOnTheLog(bound: nat, floor: nat, steps: seq<Step>, scope: Scope, answer: Option<Event>)
    requires Legal(0, steps) && Remembers(Reached(bound, floor, steps), scope)
    ensures var l := Logged(steps);
      Pending(Reached(bound, floor, steps), scope, answer)
      <==> Newest(OfSession(Undecided(All(l.all), l.reason, l.open), scope), answer)
  {
    var r, l := Reached(bound, floor, steps), Logged(steps);
    ReachedOk(bound, floor, steps);
    hide Run, LogRun, FloorHolds, Settled, Watermarks, Latest, HighsAreGone, NothingOwedIsGone;
    var u := Undecided(All(l.all), l.reason, l.open);
    forall e | e in r.all && InScope(e, scope) ensures e in Pinned(r) <==> e in u {
      SameUndecided(r, l, e);
    }
    assert OfSession(Pinned(r), scope) == OfSession(u, scope);
  }

  lemma ResolveIn(r: Ring, l: Log, did: Id, why: Reason, answer: Option<nat>)
    requires RingOk(r) && StandsFor(r, l)
    requires forall e :: e in r.all && e.draft.decision == Some(did) ==> e.draft.sid !in r.forgotten
    ensures var d := OfDecision(Undecided(All(l.all), l.reason, l.open), did);
      && (Answers(r, Resolve(did, why), answer) <==> NewestSeq(d, answer))
      && ReasonsGiven(RingStep(r, Resolve(did, why)), l, d, why)
  {
    hide FloorHolds, Settled, Watermarks, Latest, HighsAreGone, NothingOwedIsGone, Evict;
    var u := Undecided(All(l.all), l.reason, l.open);
    var d := OfDecision(Pinned(r), did);
    forall e | e in r.all && e.draft.decision == Some(did) ensures e in Pinned(r) <==> e in u {
      SameUndecided(r, l, e);
    }
    assert d == OfDecision(u, did);
    EvictKeepsOpen(r.(reason := ResolveAll(r.reason, d, why)));
    NumsIn(r, d, d);
  }

  // Of the retained events those in `d` carry the reason now, the others what they carried on the log.
  ghost predicate ReasonsGiven(r: Ring, l: Log, d: set<Event>, why: Reason) {
    forall e :: e in r.kept ==> Lookup(r.reason, e.num) == if e in d then Some(why) else Lookup(l.reason, e.num)
  }

  // Resolving a decision resolves, and answers, what it would on the whole log.
  lemma ResolveAsOnTheLog(bound: nat, floor: nat, steps: seq<Step>, did: Id, why: Reason, answer: Option<nat>)
    requires Legal(0, steps)
    requires forall e :: e in Logged(steps).all && e.draft.decision == Some(did) ==>
               e.draft.sid !in Reached(bound, floor, steps).forgotten
    ensures var r, l := Reached(bound, floor, steps), Logged(steps);
      var d := OfDecision(Undecided(All(l.all), l.reason, l.open), did);
      && (Answers(r, Resolve(did, why), answer) <==> NewestSeq(d, answer))
      && ReasonsGiven(RingStep(r, Resolve(did, why)), l, d, why)
  {
    hide Reached, Logged, RingStep, ReasonsGiven, NewestSeq, Answers, OfDecision, Undecided, RingOk;
    ReachedOk(bound, floor, steps);
    SameOpen(Reached(bound, floor, steps), Logged(steps));
    ResolveIn(Reached(bound, floor, steps), Logged(steps), did, why, answer);
  }

  // Eviction, over every run: what is owed stays, and an owner none of whose sessions was forgotten keeps
  // its floor of newer events.
  lemma EvictionIsFair(bound: nat, floor: nat, steps: seq<Step>, e: Event)
    requires Legal(0, steps)
    requires var r := Reached(bound, floor, steps);
      e in Logged(steps).all && e !in r.kept && Whole(r, e.draft.owner)
    ensures var r, l := Reached(bound, floor, steps), Logged(steps);
      && e !in Undecided(All(l.all), l.reason, l.open) && e.num !in l.open
      && |NewerThan(Bucket(r, e.draft.owner), e.num)| >= floor
  {
    var r, l := Reached(bound, floor, steps), Logged(steps);
    ReachedOk(bound, floor, steps);
    RunBounds(Start(bound, floor), steps);
    hide Run, LogRun, Settled, Watermarks, Latest, HighsAreGone;
    SameUndecided(r, l, e);
  }

  lemma {:induction false} RunBounds(r: Ring, steps: seq<Step>)
    requires Legal(|r.open|, steps)
    ensures Run(r, steps).bound == r.bound && Run(r, steps).floor == r.floor
    decreases |steps|
  {
    if steps != [] {
      StepBounds(r, steps[0]);
      StepDepth(r, steps[0]);
      RunBounds(RingStep(r, steps[0]), steps[1..]);
    }
  }

  lemma StepBounds(r: Ring, step: Step)
    requires Can(|r.open|, step)
    ensures RingStep(r, step).bound == r.bound && RingStep(r, step).floor == r.floor
  {
    hide Evict;
    match step {
      case End => EvictKeepsOpen(Closed(r));
      case Resolve(did, why) => EvictKeepsOpen(r.(reason := ResolveAll(r.reason, OfDecision(Pinned(r), did), why)));
      case Mark(s) => EvictKeepsOpen(r.(reason := r.reason[s := Answered]));
      case _ =>
    }
  }

  // What a step evicts is older than every indexed event its owner has left.
  lemma EvictionTakesOldest(bound: nat, floor: nat, steps: seq<Step>, step: Step, e: Event, f: Event)
    requires Legal(0, steps) && Can(|Reached(bound, floor, steps).open|, step) && !step.Forget?
    requires var r := Reached(bound, floor, steps);
      e in r.kept && e !in RingStep(r, step).kept && f in Bucket(RingStep(r, step), e.draft.owner)
    ensures e.num <= f.num
  {
    var r := Reached(bound, floor, steps);
    hide Evict, Run;
    match step {
      case End => EvictTakesOldest(Closed(r), e, f);
      case Resolve(did, why) =>
        EvictTakesOldest(r.(reason := ResolveAll(r.reason, OfDecision(Pinned(r), did), why)), e, f);
      case Mark(s) => EvictTakesOldest(r.(reason := r.reason[s := Answered]), e, f);
      case _ =>
    }
  }

  lemma {:induction false} EvictTakesOldest(r: Ring, e: Event, f: Event)
    requires e in r.kept && e !in Evict(r).kept && f in Bucket(Evict(r), e.draft.owner)
    ensures e.num <= f.num
    decreases |Evictable(r)|
  {
    hide IsVictim, Evictable;
    var v :| IsVictim(r, v) && Evict(r) == Evict(Drop(r, v));
    VictimSpare(r, v);
    EvictableShrinks(r, v);
    if v == e {
      EvictKeepsOpen(Drop(r, v));
      assert f in Bucket(r, e.draft.owner);
      VictimIsOwnersOldest(r, e, f);
    } else {
      EvictTakesOldest(Drop(r, v), e, f);
    }
  }

  // After any step the history is within its bound, or no owner has more than its floor.
  lemma BoundedAfterEveryStep(bound: nat, floor: nat, steps: seq<Step>)
    requires Legal(0, steps)
    ensures var r := Reached(bound, floor, steps);
      |Evictable(r)| <= bound || forall owner :: |Bucket(r, owner)| <= floor
  {
    ReachedOk(bound, floor, steps);
    RunBounds(Start(bound, floor), steps);
  }

  // ---- nothing is evicted without need -----------------------------------------------------------------

  lemma {:induction false} EvictStopsAtBound(r: Ring)
    requires |Evictable(r)| >= r.bound
    ensures |Evictable(Evict(r))| >= r.bound
    decreases |Evictable(r)|
  {
    hide IsVictim, Evictable;
    if Evict(r) != r {
      var v :| IsVictim(r, v) && Evict(r) == Evict(Drop(r, v));
      VictimSpare(r, v);
      EvictableShrinks(r, v);
      OneLess(r, v);
      EvictStopsAtBound(Drop(r, v));
    }
  }

  lemma OneLess(r: Ring, e: Event)
    requires Spare(r, e)
    ensures |Evictable(Drop(r, e))| == |Evictable(r)| - 1
  {
    EvictableShrinks(r, e);
    assert e in Evictable(r);
  }

  // A step other than forgetting drops an event only from a full history: it leaves no fewer evictable
  // events than the bound allows.
  lemma EvictsOnlyWhenFull(bound: nat, floor: nat, steps: seq<Step>, step: Step, e: Event)
    requires Legal(0, steps) && Can(|Reached(bound, floor, steps).open|, step) && !step.Forget?
    requires var r := Reached(bound, floor, steps); e in r.kept && e !in RingStep(r, step).kept
    ensures |Evictable(RingStep(Reached(bound, floor, steps), step))| >= bound
  {
    RunBounds(Start(bound, floor), steps);
    hide Run;
    StepEvictsOnlyWhenFull(Reached(bound, floor, steps), step, e);
  }

  lemma StepEvictsOnlyWhenFull(r: Ring, step: Step, e: Event)
    requires Can(|r.open|, step) && !step.Forget? && e in r.kept && e !in RingStep(r, step).kept
    ensures |Evictable(RingStep(r, step))| >= r.bound
  {
    match step {
      case End => EvictStopsFull(Closed(r), e);
      case Resolve(did, why) => EvictStopsFull(r.(reason := ResolveAll(r.reason, OfDecision(Pinned(r), did), why)), e);
      case Mark(s) => EvictStopsFull(r.(reason := r.reason[s := Answered]), e);
      case _ =>
    }
  }

  lemma EvictStopsFull(r: Ring, e: Event)
    requires e in r.kept
    ensures e !in Evict(r).kept ==> |Evictable(Evict(r))| >= r.bound
  {
    if |Evictable(r)| >= r.bound {
      EvictStopsAtBound(r);
    }
  }

  lemma {:induction false} AllSize(all: seq<Event>)
    ensures |All(all)| <= |all|
    decreases |all|
  {
    if all == [] {
      assert All(all) == {};
    } else {
      var n := |all| - 1;
      AllSize(all[..n]);
      assert All(all) == All(all[..n]) + {all[n]} by {
        assert forall e :: e in all <==> e in all[..n] || e == all[n];
      }
    }
  }

  // Steps only add to the history and to what is forgotten.
  lemma StepGrows(r: Ring, step: Step)
    requires Can(|r.open|, step)
    ensures |r.all| <= |RingStep(r, step).all| && r.forgotten <= RingStep(r, step).forgotten
    ensures forall e :: e in RingStep(r, step).all && e !in r.all ==> e in RingStep(r, step).kept
  {
    hide Evict;
    match step {
      case End => EvictKeepsOpen(Closed(r));
      case Resolve(did, why) => EvictKeepsOpen(r.(reason := ResolveAll(r.reason, OfDecision(Pinned(r), did), why)));
      case Mark(s) => EvictKeepsOpen(r.(reason := r.reason[s := Answered]));
      case _ =>
    }
  }

  lemma {:induction false} RunGrows(r: Ring, steps: seq<Step>)
    requires Legal(|r.open|, steps)
    ensures |r.all| <= |Run(r, steps).all| && r.forgotten <= Run(r, steps).forgotten
    decreases |steps|
  {
    if steps != [] {
      StepGrows(r, steps[0]);
      StepDepth(r, steps[0]);
      hide RingStep;
      RunGrows(RingStep(r, steps[0]), steps[1..]);
    }
  }

  lemma GoneMeansMore(n: Ring, e: Event)
    requires Shape(n) && e in n.all && e !in n.kept
    ensures |Evictable(n)| < |n.all|
  {
    assert Evictable(n) <= All(n.all) - {e};
    SubsetSize(Evictable(n), All(n.all) - {e});
    AllSize(n.all);
    assert e in All(n.all);
  }

  lemma LostMeansMore(r: Ring, step: Step, e: Event)
    requires RingOk(r) && Can(|r.open|, step) && e in r.all && e in r.kept
    requires RingStep(r, step).forgotten == {} && e !in RingStep(r, step).kept
    ensures |RingStep(r, step).all| > r.bound
  {
    StepKeeps(r, step);
    StepGrowsBy(r, step, e);
    hide RingStep, Watermarks, Latest, HighsAreGone, NothingOwedIsGone, FloorHolds, Settled, Shape, Evictable;
    StepEvictsOnlyWhenFull(r, step, e);
    GoneMeansMore(RingStep(r, step), e);
  }

  lemma StepGrowsBy(r: Ring, step: Step, e: Event)
    requires Can(|r.open|, step) && e in r.all
    ensures e in RingStep(r, step).all && (step.Forget? ==> RingStep(r, step).forgotten != {})
  {
    hide Evict;
    match step {
      case End => EvictKeepsOpen(Closed(r));
      case Resolve(did, why) => EvictKeepsOpen(r.(reason := ResolveAll(r.reason, OfDecision(Pinned(r), did), why)));
      case Mark(s) => EvictKeepsOpen(r.(reason := r.reason[s := Answered]));
      case Forget(sid) => assert sid in RingStep(r, step).forgotten;
      case _ =>
    }
  }

  lemma StepKeepsEverything(r: Ring, step: Step)
    requires RingOk(r) && Can(|r.open|, step) && All(r.all) <= r.kept
    requires var n := RingStep(r, step); n.forgotten == {} && |n.all| <= r.bound
    ensures All(RingStep(r, step).all) <= RingStep(r, step).kept
  {
    var n := RingStep(r, step);
    StepGrows(r, step);
    hide RingStep, RingOk;
    forall e | e in n.all ensures e in n.kept {
      if e in r.all {
        assert e in All(r.all);
        if e !in n.kept { LostMeansMore(r, step, e); }
      }
    }
  }

  lemma {:induction false} RunKeepsEverything(r: Ring, steps: seq<Step>)
    requires RingOk(r) && Legal(|r.open|, steps) && All(r.all) <= r.kept
    requires Run(r, steps).forgotten == {} && |Run(r, steps).all| <= r.bound
    ensures All(Run(r, steps).all) <= Run(r, steps).kept
    decreases |steps|
  {
    if steps != [] {
      var n := RingStep(r, steps[0]);
      StepDepth(r, steps[0]);
      StepBounds(r, steps[0]);
      StepKeeps(r, steps[0]);
      RunGrows(n, steps[1..]);
      StepKeepsEverything(r, steps[0]);
      hide RingStep, RingOk;
      RunKeepsEverything(n, steps[1..]);
    }
  }

  // A queue that has seen no more events than its bound, and forgotten no session, has lost none.
  lemma NothingLostWithinBound(bound: nat, floor: nat, steps: seq<Step>)
    requires Legal(0, steps) && |Logged(steps).all| <= bound && Reached(bound, floor, steps).forgotten == {}
    ensures forall e :: e in Logged(steps).all ==> e in Reached(bound, floor, steps).kept
  {
    ReachedOk(bound, floor, steps);
    SameOpen(Reached(bound, floor, steps), Logged(steps));
    StartOk(bound, floor);
    RunKeepsEverything(Start(bound, floor), steps);
    hide Run, LogRun;
    var r := Reached(bound, floor, steps);
    assert forall e :: e in r.all ==> e in All(r.all);
  }

  // Between owners the older event goes first: one older than an evicted event is left only when its
  // owner is down to the floor.
  lemma EvictionPrefersOlder(r: Ring, step: Step, e: Event, f: Event)
    requires Can(|r.open|, step) && !step.Forget? && e in r.kept && e !in RingStep(r, step).kept
    requires f in Evictable(RingStep(r, step)) && f.num < e.num
    ensures |Bucket(RingStep(r, step), f.draft.owner)| <= r.floor
  {
    hide Evict;
    match step {
      case End => EvictPrefersOlder(Closed(r), e, f);
      case Resolve(did, why) =>
        EvictPrefersOlder(r.(reason := ResolveAll(r.reason, OfDecision(Pinned(r), did), why)), e, f);
      case Mark(s) => EvictPrefersOlder(r.(reason := r.reason[s := Answered]), e, f);
      case _ =>
    }
  }

  lemma {:induction false} EvictPrefersOlder(r: Ring, e: Event, f: Event)
    requires e in r.kept && e !in Evict(r).kept && f in Evictable(Evict(r)) && f.num < e.num
    ensures |Bucket(Evict(r), f.draft.owner)| <= r.floor
    decreases |Evictable(r)|
  {
    var v :| IsVictim(r, v) && Evict(r) == Evict(Drop(r, v));
    VictimSpare(r, v);
    EvictableShrinks(r, v);
    if v == e {
      EvictKeepsOpen(Drop(r, v));
      hide Evict;
      assert f in Evictable(r) && !AboveFloor(r, f);
      SubsetSize(Bucket(Evict(r), f.draft.owner), Bucket(r, f.draft.owner));
    } else {
      hide IsVictim, Evictable, Bucket;
      EvictPrefersOlder(Drop(r, v), e, f);
    }
  }

  // Forgetting takes the session's events and no other, and whatever it owed with them.
  lemma ForgetTakesTheSession(bound: nat, floor: nat, steps: seq<Step>, sid: Id)
    requires Legal(0, steps) && Can(|Reached(bound, floor, steps).open|, Forget(sid))
    ensures var r := Reached(bound, floor, steps);
      var n := RingStep(r, Forget(sid));
      && (forall e :: e in n.kept <==> e in r.kept && e.draft.sid != sid)
      && n.all == r.all && n.reason == r.reason && Seen(n.lastOf, sid) == 0
      && (forall other :: other != sid ==> Seen(n.lastOf, other) == Seen(r.lastOf, other))
      && (forall high :: IsHighWater(n, One(sid), high) ==> high == 0)
  {
    hide Run;
  }
}
