/**
  What a certified epoch looks like from outside (daemon/manager.py): told from what happened on the way,
  not from the manager's own sets and counters.

  Sessions enter and leave the registry, reservations are taken and given back, acquires begin and end,
  and each session's terminal is owed until it is discharged or its start undone.  The epoch is certified
  exactly when, as the history has it, nobody is inside, nothing is reserved or being acquired, and no
  terminal is owed.
*/
module Barrier {
  import opened Prelude
  import opened Retirement

  datatype Happening =
    | Entered(sid: Sid)
    | Left(sid: Sid)
    | TookSlot
    | GaveSlot
    | Began(sid: Sid)
    | Ended(sid: Sid)
    | Discharged(sid: Sid)

  // Freeing the slot stops at a terminal of another kind that the store already has.
  predicate Conflicts(s: State, sid: Sid, snapshot: bool, same: bool) {
    && snapshot && sid in s.sessions && sid !in s.terminalPending && s.retirement != Certified
    && sid in s.rows && sid in s.numbered && !same
  }

  // What one step brings about.
  function Happens(s: State, step: Step): seq<Happening>
    requires Can(s, step)
  {
    match step
    case MarkAcquiring(sid) => [Began(sid)]
    case UnmarkAcquiring(sid) => [Ended(sid)]
    case ReserveForRestart(sid) => [Left(sid), TookSlot]
    case ReserveForTurn => [TookSlot]
    case ReleaseReservation => [GaveSlot]
    case Admit(sid, reserve) =>
      if s.retirement != Open then [] else if reserve then [Entered(sid), GaveSlot] else [Entered(sid)]
    case Unregister(sid) => [Left(sid), Discharged(sid)]
    case Discharge(t) => [Discharged(s.persists[t].sid)]
    case FreeSlot(sid, snapshot, same) => if Conflicts(s, sid, snapshot, same) then [] else [Left(sid)]
    case RemoveReaped(sid) => [Left(sid)]
    case _ => []
  }

  function History(s: State, steps: seq<Step>): seq<Happening>
    requires Legal(s, steps)
    decreases |steps|
  {
    if steps == [] then [] else Happens(s, steps[0]) + History(Do(s, steps[0]), steps[1..])
  }

  // ---- what a history says --------------------------------------------------------------------------

  // What `opens` opened and `closes` has not closed since.
  predicate IsOpen(h: seq<Happening>, opens: Happening, closes: Happening) {
    exists i :: 0 <= i < |h| && h[i] == opens && closes !in h[i..]
  }

  // How often x happened.
  function Times(h: seq<Happening>, x: Happening): nat {
    multiset(h)[x]
  }

  // Everybody admitted has left, every slot taken was given back, every acquire begun has ended, and no
  // terminal is owed any more.
  ghost predicate AllDone(h: seq<Happening>) {
    && (forall sid :: !IsOpen(h, Entered(sid), Left(sid)))
    && Times(h, TookSlot) == Times(h, GaveSlot)
    && (forall sid :: !IsOpen(h, Began(sid), Ended(sid)))
    && NothingOwed(h)
  }

  ghost predicate NothingOwed(h: seq<Happening>) {
    forall sid :: !IsOpen(h, Entered(sid), Discharged(sid))
  }

  // ---- one happening more ---------------------------------------------------------------------------

  lemma OpenMore(h: seq<Happening>, x: Happening, opens: Happening, closes: Happening)
    requires opens != closes
    ensures IsOpen(h + [x], opens, closes) <==> x == opens || (x != closes && IsOpen(h, opens, closes))
  {
    var all := h + [x];
    if x == opens {
      assert all[|h|] == opens && all[|h|..] == [x];
    }
    if x != closes && IsOpen(h, opens, closes) {
      var i :| 0 <= i < |h| && h[i] == opens && closes !in h[i..];
      assert all[i..] == h[i..] + [x] && all[i] == opens;
    }
    if x != opens && IsOpen(all, opens, closes) {
      var i :| 0 <= i < |all| && all[i] == opens && closes !in all[i..];
      assert i < |h| && all[i..] == h[i..] + [x] && h[i] == opens;
      assert x in all[i..] && forall y :: y in h[i..] ==> y in all[i..];
    }
  }

  // What is open after a history.
  datatype Tally = Tally(inside: set<Sid>, owing: set<Sid>, acquiring: set<Sid>, net: int)

  ghost predicate IsTally(t: Tally, h: seq<Happening>) {
    && (forall sid :: sid in t.inside <==> IsOpen(h, Entered(sid), Left(sid)))
    && (forall sid :: sid in t.owing <==> IsOpen(h, Entered(sid), Discharged(sid)))
    && (forall sid :: sid in t.acquiring <==> IsOpen(h, Began(sid), Ended(sid)))
    && t.net == Times(h, TookSlot) - Times(h, GaveSlot)
  }

  function Count(t: Tally, x: Happening): Tally {
    match x
    case Entered(sid) => t.(inside := t.inside + {sid}, owing := t.owing + {sid})
    case Left(sid) => t.(inside := t.inside - {sid})
    case Discharged(sid) => t.(owing := t.owing - {sid})
    case Began(sid) => t.(acquiring := t.acquiring + {sid})
    case Ended(sid) => t.(acquiring := t.acquiring - {sid})
    case TookSlot => t.(net := t.net + 1)
    case GaveSlot => t.(net := t.net - 1)
  }

  lemma CountIs(t: Tally, h: seq<Happening>, x: Happening)
    requires IsTally(t, h)
    ensures IsTally(Count(t, x), h + [x])
  {
    forall sid ensures sid in Count(t, x).inside <==> IsOpen(h + [x], Entered(sid), Left(sid)) {
      OpenMore(h, x, Entered(sid), Left(sid));
    }
    forall sid ensures sid in Count(t, x).owing <==> IsOpen(h + [x], Entered(sid), Discharged(sid)) {
      OpenMore(h, x, Entered(sid), Discharged(sid));
    }
    forall sid ensures sid in Count(t, x).acquiring <==> IsOpen(h + [x], Began(sid), Ended(sid)) {
      OpenMore(h, x, Began(sid), Ended(sid));
    }
    assert multiset(h + [x]) == multiset(h) + multiset{x};
  }

  function CountAll(t: Tally, xs: seq<Happening>): Tally
    decreases |xs|
  {
    if xs == [] then t else CountAll(Count(t, xs[0]), xs[1..])
  }

  lemma {:induction false} CountAllIs(t: Tally, h: seq<Happening>, xs: seq<Happening>)
    requires IsTally(t, h)
    ensures IsTally(CountAll(t, xs), h + xs)
    decreases |xs|
  {
    hide IsTally, Count;
    if xs == [] {
      assert h + xs == h;
    } else {
      CountIs(t, h, xs[0]);
      CountAllIs(Count(t, xs[0]), h + [xs[0]], xs[1..]);
      assert h + [xs[0]] + xs[1..] == h + xs;
    }
  }

  // ---- the manager's books are the history's --------------------------------------------------------

  function BooksOf(s: State): Tally {
    Tally(s.sessions, s.obligations, s.pendingAcquire, s.reserved)
  }

  lemma StepCounts(s: State, step: Step)
    requires Can(s, step)
    ensures CountAll(BooksOf(s), Happens(s, step)) == BooksOf(Do(s, step))
  {
    var xs := Happens(s, step);
    FewCounts(BooksOf(s), xs);
    hide CountAll;
  }

  lemma FewCounts(t: Tally, xs: seq<Happening>)
    requires |xs| <= 2
    ensures CountAll(t, xs) == if xs == [] then t
                               else if |xs| == 1 then Count(t, xs[0]) else Count(Count(t, xs[0]), xs[1])
  {
    if |xs| == 2 {
      var u, rest := Count(t, xs[0]), xs[1..];
      assert rest[0] == xs[1] && rest[1..] == [];
      assert CountAll(u, rest) == CountAll(Count(u, rest[0]), rest[1..]);
    }
  }

  lemma {:induction false} RunCounts(s: State, h: seq<Happening>, steps: seq<Step>)
    requires Legal(s, steps) && IsTally(BooksOf(s), h)
    ensures IsTally(BooksOf(Run(s, steps)), h + History(s, steps))
    decreases |steps|
  {
    hide IsTally, BooksOf, Do, Can, Happens;
    if steps == [] {
      assert h + [] == h;
    } else {
      StepCounts(s, steps[0]);
      CountAllIs(BooksOf(s), h, Happens(s, steps[0]));
      RunCounts(Do(s, steps[0]), h + Happens(s, steps[0]), steps[1..]);
      assert h + Happens(s, steps[0]) + History(Do(s, steps[0]), steps[1..]) == h + History(s, steps);
    }
  }

  lemma StartCounts()
    ensures IsTally(BooksOf(START), [])
  {
  }

  // In every run, certification is granted exactly when everything that began in it is over.
  lemma CertifiedExactlyWhenAllDone(steps: seq<Step>)
    requires Legal(START, steps) && Run(START, steps).retirement != Certified
    ensures var s := Run(START, steps);
      && Can(s, Certify)
      && (Do(s, Certify).retirement == Certified <==> AllDone(History(START, steps)))
      && (Do(s, Certify).retirement != Certified ==> Do(s, Certify) == s)
  {
    StartCounts();
    RunCounts(START, [], steps);
    hide Run, Legal, History, IsOpen, Times;
    var h := History(START, steps);
    assert [] + h == h;
    BarrierIsAllDone(Run(START, steps), h);
    CertifyIs(Run(START, steps));
    hide Do, BarrierMet, AllDone, BooksOf;
  }

  lemma CertifyIs(s: State)
    ensures Can(s, Certify)
    ensures if BarrierMet(s) then Do(s, Certify).retirement == Certified else Do(s, Certify) == s
  {
  }

  lemma BarrierIsAllDone(s: State, h: seq<Happening>)
    requires IsTally(BooksOf(s), h)
    ensures BarrierMet(s) <==> AllDone(h)
  {
    hide IsOpen, Times;
  }
}
