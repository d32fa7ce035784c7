/**
  The event queue as the program keeps it (daemon/events.py): one ordered list of retained events and
  four overlapping indexes of it, updated in place.  Each method moves the ring exactly as `EventLog`
  says, whatever the callback of a publish does in the middle of it.

  Every method runs under the queue's one reentrant lock, so it is atomic to other threads.  Event
  objects are values here: `reasons` holds what the program writes into an event's resolved_reason.
*/
module EventQueues {
  import opened Prelude
  import opened EventLog

  type ById = map<nat, Event>
  type History = map<Option<Id>, seq<Event>>

  predicate Ascending(events: seq<Event>) {
    forall i, j :: 0 <= i < j < |events| ==> events[i].num < events[j].num
  }

  ghost predicate Lists(events: seq<Event>, s: set<Event>) {
    Ascending(events) && All(events) == s
  }

  // `m` holds exactly the events of `s`, each under its number.
  ghost predicate Keys(m: ById, s: set<Event>) {
    && (forall n :: n in m ==> m[n].num == n && m[n] in s)
    && (forall e :: e in s ==> e.num in m && m[e.num] == e)
  }

  ghost predicate Groups(groups: map<Id, ById>, pinned: set<Event>) {
    && (forall d :: d in groups ==> groups[d] != map[] && Keys(groups[d], OfDecision(pinned, d)))
    && (forall e :: e in pinned && e.draft.decision.Some? ==> e.draft.decision.value in groups)
  }

  function OfOwner(s: set<Event>, owner: Option<Id>): set<Event> {
    set e | e in s && e.draft.owner == owner
  }

  ghost predicate Histories(h: History, s: set<Event>) {
    && (forall o :: o in h ==> h[o] != [] && Lists(h[o], OfOwner(s, o)))
    && (forall e :: e in s ==> e.draft.owner in h)
  }

  // ---- ordered lists ------------------------------------------------------------------------------

  // Where the bisection puts a new number: after everything not larger.
  method Bisect(events: seq<Event>, num: nat) returns (lo: nat)
    requires Ascending(events)
    ensures lo <= |events|
    ensures forall i :: 0 <= i < lo ==> events[i].num <= num
    ensures forall i :: lo <= i < |events| ==> num < events[i].num
  {
    lo := 0;
    var hi := |events|;
    while lo < hi
      invariant lo <= hi <= |events|
      invariant forall i :: 0 <= i < lo ==> events[i].num <= num
      invariant forall i :: hi <= i < |events| ==> num < events[i].num
    {
      var mid := (lo + hi) / 2;
      if num < events[mid].num {
        hi := mid;
      } else {
        lo := mid + 1;
      }
    }
  }

  // Enter an event into an ascending list.
  method Insort(events: seq<Event>, e: Event) returns (r: seq<Event>)
    requires Ascending(events) && forall f :: f in events ==> f.num != e.num
    ensures Lists(r, All(events) + {e}) && r != []
  {
    if |events| > 0 && e.num > events[|events| - 1].num {
      r := events + [e];
    } else {
      var at := Bisect(events, e.num);
      assert forall i :: 0 <= i < at ==> events[i].num < e.num;
      r := events[..at] + [e] + events[at..];
    }
    assert forall f :: f in r <==> f in events || f == e;
  }

  // Take an event out of an ascending list that has it.
  method Remove(events: seq<Event>, e: Event) returns (r: seq<Event>)
    requires Ascending(events) && e in events
    ensures Lists(r, All(events) - {e})
  {
    var i := 0;
    while events[i] != e
      invariant 0 <= i < |events| && e in events[i..]
      decreases |events| - i
    {
      assert events[i..] == [events[i]] + events[i + 1..];
      i := i + 1;
    }
    r := events[..i] + events[i + 1..];
    assert forall f :: f in r <==> f in events && f != e by {
      forall f | f in events && f != e ensures f in r {
        var j :| 0 <= j < |events| && events[j] == f;
        assert j < i ==> r[j] == f;
        assert j > i ==> r[j - 1] == f;
      }
    }
  }

  // ---- how the indexes follow the sets they index ---------------------------------------------------

  lemma KeysAdd(m: ById, s: set<Event>, e: Event)
    requires Keys(m, s) && forall f :: f in s ==> f.num != e.num
    ensures Keys(m[e.num := e], s + {e})
  {
  }

  lemma KeysRemove(m: ById, s: set<Event>, e: Event)
    requires Keys(m, s) && e in s
    ensures Keys(m - {e.num}, s - {e})
  {
  }

  function GroupOf(groups: map<Id, ById>, d: Id): ById {
    if d in groups then groups[d] else map[]
  }

  function GroupAdded(groups: map<Id, ById>, e: Event): map<Id, ById> {
    if e.draft.decision.Some? then
      groups[e.draft.decision.value := GroupOf(groups, e.draft.decision.value)[e.num := e]]
    else groups
  }

  lemma GroupKeys(groups: map<Id, ById>, pinned: set<Event>, d: Id)
    requires Groups(groups, pinned)
    ensures Keys(GroupOf(groups, d), OfDecision(pinned, d))
  {
  }

  lemma GroupsAdd(groups: map<Id, ById>, pinned: set<Event>, e: Event)
    requires Groups(groups, pinned) && forall f :: f in pinned ==> f.num != e.num
    ensures Groups(GroupAdded(groups, e), pinned + {e})
  {
    hide Keys;
    var g := GroupAdded(groups, e);
    forall d | d in g ensures g[d] != map[] && Keys(g[d], OfDecision(pinned + {e}, d)) {
      GroupKeys(groups, pinned, d);
      if e.draft.decision == Some(d) {
        KeysAdd(GroupOf(groups, d), OfDecision(pinned, d), e);
        assert OfDecision(pinned + {e}, d) == OfDecision(pinned, d) + {e};
        assert e.num in g[d];
      } else {
        assert OfDecision(pinned + {e}, d) == OfDecision(pinned, d);
      }
    }
  }

  function GroupRemoved(groups: map<Id, ById>, e: Event): map<Id, ById> {
    if e.draft.decision.Some? && e.draft.decision.value in groups then
      var d := e.draft.decision.value;
      var left := groups[d] - {e.num};
      if left == map[] then groups - {d} else groups[d := left]
    else groups
  }

  lemma GroupsRemove(groups: map<Id, ById>, pinned: set<Event>, e: Event)
    requires Groups(groups, pinned) && e in pinned
    ensures Groups(GroupRemoved(groups, e), pinned - {e})
  {
    var g := GroupRemoved(groups, e);
    forall d | d in g ensures g[d] != map[] && Keys(g[d], OfDecision(pinned - {e}, d)) {
      if e.draft.decision == Some(d) {
        KeysRemove(groups[d], OfDecision(pinned, d), e);
        assert OfDecision(pinned - {e}, d) == OfDecision(pinned, d) - {e};
      } else {
        assert OfDecision(pinned - {e}, d) == OfDecision(pinned, d);
      }
    }
    forall f | f in pinned - {e} && f.draft.decision.Some? ensures f.draft.decision.value in g {
      var d := f.draft.decision.value;
      if e.draft.decision == Some(d) {
        assert f in OfDecision(pinned, d) && f.num in groups[d] && f.num in groups[d] - {e.num};
      }
    }
  }

  lemma HistoriesAdd(h: History, s: set<Event>, e: Event, list: seq<Event>)
    requires Histories(h, s)
    requires Lists(list, OfOwner(s, e.draft.owner) + {e}) && list != []
    ensures Histories(h[e.draft.owner := list], s + {e})
  {
    hide Ascending, All;
    forall o | o in h || o == e.draft.owner
      ensures OfOwner(s + {e}, o) == if o == e.draft.owner then OfOwner(s, o) + {e} else OfOwner(s, o)
    {
    }
  }

  lemma HistoriesRemove(h: History, s: set<Event>, e: Event, list: seq<Event>)
    requires Histories(h, s) && e in s
    requires Lists(list, OfOwner(s, e.draft.owner) - {e})
    ensures Histories(if list == [] then h - {e.draft.owner} else h[e.draft.owner := list], s - {e})
  {
    hide Ascending;
    forall o | o in h ensures OfOwner(s - {e}, o) == if o == e.draft.owner then OfOwner(s, o) - {e} else OfOwner(s, o) {
    }
    if list == [] {
      forall f | f in s - {e} ensures f.draft.owner != e.draft.owner {
        assert f.draft.owner == e.draft.owner ==> f in All(list);
      }
    }
  }

  lemma ListSize(events: seq<Event>, s: set<Event>)
    requires Lists(events, s)
    ensures |events| == |s|
    decreases |events|
  {
    if events == [] {
      assert s == {};
    } else {
      var n := |events| - 1;
      var e := events[n];
      assert e in s;
      assert All(events[..n]) == s - {e} by {
        forall f | f in s - {e} ensures f in events[..n] {
          var i :| 0 <= i < |events| && events[i] == f;
        }
        forall f | f in events[..n] ensures f != e {
          var i :| 0 <= i < n && events[i] == f;
        }
      }
      ListSize(events[..n], s - {e});
    }
  }

  lemma BucketIs(r: Ring, owner: Option<Id>)
    ensures Bucket(r, owner) == OfOwner(Evictable(r), owner)
  {
  }

  // ---- what each step does to the pinned and the evictable events -------------------------------------

  lemma KeptUnique(r: Ring, e: Event, f: Event)
    requires Shape(r) && e in r.kept && f in r.kept && e.num == f.num
    ensures e == f
  {
    assert e in r.all && f in r.all;
  }

  lemma OpenedSets(r: Ring, d: Draft)
    requires Shape(r)
    ensures Pinned(Opened(r, d)) == Pinned(r) && Evictable(Opened(r, d)) == Evictable(r)
    ensures forall f :: f in r.kept ==> f.num <= |r.all|
  {
    BeginMembers(r, d);
    assert forall f :: f in r.kept ==> f in r.all;
    hide Shape;
  }

  // The event on top of the stack of publishes.
  ghost function Top(r: Ring): Event
    requires CoreOk(r) && r.open != []
  {
    r.all[r.open[|r.open| - 1] - 1]
  }

  lemma ClosedSets(r: Ring)
    requires CoreOk(r) && r.open != []
    ensures var e := Top(r);
      && e in r.kept && e !in Pinned(r) && e !in Evictable(r)
      && (if e.draft.respondable && e.num !in r.reason then
            Pinned(Closed(r)) == Pinned(r) + {e} && Evictable(Closed(r)) == Evictable(r)
          else
            Pinned(Closed(r)) == Pinned(r) && Evictable(Closed(r)) == Evictable(r) + {e})
  {
    hide Watermarks, Latest, HighsAreGone, NothingOwedIsGone, FloorHolds;
    var e, c := Top(r), Closed(r);
    assert e.num == r.open[|r.open| - 1] && e.num in r.open && e.num !in c.open;
    forall f | f in r.kept && f != e ensures f.num in r.open <==> f.num in c.open {
      if f.num == e.num { KeptUnique(r, e, f); }
      if f.num in r.open {
        var i :| 0 <= i < |r.open| && r.open[i] == f.num;
        assert c.open[i] == f.num;
      }
    }
  }

  lemma ResolvedSets(r: Ring, e: Event, why: Reason)
    requires CoreOk(r) && e in Pinned(r)
    ensures var r1 := r.(reason := r.reason[e.num := why]);
      Pinned(r1) == Pinned(r) - {e} && Evictable(r1) == Evictable(r) + {e} && e !in Evictable(r)
  {
    hide Watermarks, Latest, HighsAreGone, NothingOwedIsGone, FloorHolds;
    forall f | f in r.kept && f.num == e.num ensures f == e {
      KeptUnique(r, e, f);
    }
    hide Shape;
  }

  lemma OthersSets(r: Ring, num: nat, why: Reason)
    requires forall e :: e in Pinned(r) ==> e.num != num
    ensures var r1 := r.(reason := r.reason[num := why]);
      Pinned(r1) == Pinned(r) && Evictable(r1) == Evictable(r)
  {
    var r1 := r.(reason := r.reason[num := why]);
    forall e | e in r.kept ensures Spare(r1, e) <==> Spare(r, e) {
      assert e in Pinned(r) <==> e.draft.respondable && e.num !in r.reason && e.num !in r.open;
    }
  }

  lemma DroppedSets(r: Ring, v: Event)
    requires Spare(r, v)
    ensures Pinned(Drop(r, v)) == Pinned(r) && Evictable(Drop(r, v)) == Evictable(r) - {v} && v in Evictable(r)
  {
  }

  // The victim is determined, so evicting it is what the ring does next.
  lemma EvictVictim(r: Ring, v: Event)
    requires Shape(r) && IsVictim(r, v) && |Evictable(r)| > r.bound
    ensures Evict(r) == Evict(Drop(r, v))
  {
    var e :| IsVictim(r, e) && Evict(r) == Evict(Drop(r, e));
    VictimSpare(r, e);
    VictimSpare(r, v);
    assert e.num == v.num;
    KeptUnique(r, e, v);
  }

  // ---- a publish and its callback as a run of steps ---------------------------------------------------

  // What a callback does, in order.  A callback that raises stops after some of it.
  datatype Hook = Quiet | Then(op: HookOp, rest: Hook)

  datatype HookOp =
    | Publishing(draft: Draft, hook: Hook)
    | Resolving(decision: Id, reason: Reason)
    | Marking(num: nat)
    | Superseding

  function StepsOf(hook: Hook): seq<Step>
    decreases hook, 0
  {
    match hook
    case Quiet => []
    case Then(op, rest) => StepsOfOp(op) + StepsOf(rest)
  }

  function StepsOfOp(op: HookOp): seq<Step>
    decreases op
  {
    match op
    case Publishing(d, hook) => PublishSteps(d, hook)
    case Resolving(did, why) => [Resolve(did, why)]
    case Marking(num) => [Mark(num)]
    case Superseding => [Supersede]
  }

  function PublishSteps(d: Draft, hook: Hook): seq<Step>
    decreases hook, 1
  {
    [Begin(d)] + StepsOf(hook) + [End]
  }

  lemma {:induction false} RunSplit(r: Ring, s: seq<Step>, t: seq<Step>)
    requires Legal(|r.open|, s) && Legal(|Run(r, s).open|, t)
    ensures Legal(|r.open|, s + t) && Run(r, s + t) == Run(Run(r, s), t)
    decreases |s|
  {
    hide RingStep;
    if s == [] {
      assert s + t == t;
    } else {
      StepDepth(r, s[0]);
      RunSplit(RingStep(r, s[0]), s[1..], t);
      assert (s + t)[1..] == s[1..] + t;
    }
  }

  lemma RunOne(r: Ring, step: Step)
    requires Can(|r.open|, step)
    ensures Legal(|r.open|, [step]) && Run(r, [step]) == RingStep(r, step)
  {
    hide RingStep;
    assert [step][1..] == [];
    StepDepth(r, step);
    assert Run(RingStep(r, step), []) == RingStep(r, step);
  }

  // A callback leaves the stack of publishes as it found it, and only adds events.
  ghost predicate Returns(r: Ring, steps: seq<Step>) {
    Legal(|r.open|, steps) && Run(r, steps).open == r.open && r.all <= Run(r, steps).all
  }

  lemma {:induction false} HookReturns(r: Ring, hook: Hook)
    requires r.open != []
    ensures Returns(r, StepsOf(hook))
    decreases hook, 2
  {
    hide RingStep;
    match hook
    case Quiet =>
    case Then(op, rest) =>
      OpReturns(r, op);
      var r1 := Run(r, StepsOfOp(op));
      HookReturns(r1, rest);
      RunSplit(r, StepsOfOp(op), StepsOf(rest));
  }

  lemma {:induction false} OpReturns(r: Ring, op: HookOp)
    requires r.open != []
    ensures Returns(r, StepsOfOp(op))
    decreases op, 2
  {
    hide Evict, Run, Legal;
    match op
    case Publishing(d, hook) => PublishReturns(r, d, hook);
    case Resolving(did, why) =>
      RunOne(r, Resolve(did, why));
      EvictKeepsOpen(r.(reason := ResolveAll(r.reason, OfDecision(Pinned(r), did), why)));
    case Marking(num) =>
      RunOne(r, Mark(num));
      EvictKeepsOpen(r.(reason := r.reason[num := Answered]));
    case Superseding => RunOne(r, Supersede);
  }

  // A publish: reserve, run the callback, then index and evict.
  lemma {:induction false} PublishReturns(r: Ring, d: Draft, hook: Hook)
    ensures Returns(r, PublishSteps(d, hook))
    ensures var o := Opened(r, d);
      && Returns(o, StepsOf(hook))
      && Run(r, PublishSteps(d, hook)) == Evict(Closed(Run(o, StepsOf(hook))))
    decreases hook, 3
  {
    hide Evict, Run, Legal, StepsOf;
    var o := Opened(r, d);
    RunOne(r, Begin(d));
    HookReturns(o, hook);
    RunSplit(r, [Begin(d)], StepsOf(hook));
    var h := Run(o, StepsOf(hook));
    RunOne(h, End);
    RunSplit(r, [Begin(d)] + StepsOf(hook), [End]);
    EvictKeepsOpen(Closed(h));
    assert o.all == r.all + [Event(|r.all| + 1, d)];
  }

  // ---- the queue --------------------------------------------------------------------------------------

  datatype WaitError = NoSession | NoSessions

  class EventQueue {
    const bound: nat
    const floor: nat
    var events: seq<Event>                     // retained, ascending
    var byId: ById                             // every retained event
    var pinned: ById                           // unresolved decisions, never evicted
    var byDecision: map<Id, ById>              // the same, by decision
    var ownerHist: History                     // evictable events of each owner, ascending
    var evictableCount: int
    var reasons: map<nat, Reason>
    var lastSeq: nat
    var lastSeqBySession: map<Id, nat>
    var evictedHigh: nat
    var evictedHighBySession: map<Id, nat>
    ghost var ring: Ring

    // The plain fields say what the ring says.
    ghost predicate Fits(r: Ring)
      reads this
    {
      && r.bound == bound && r.floor == floor && r.reason == reasons
      && lastSeq == |r.all| && lastSeqBySession == r.lastOf
      && evictedHigh == r.evictedHigh && evictedHighBySession == r.evictedHighOf
    }

    ghost predicate Indexes()
      reads this
    {
      && Lists(events, ring.kept)
      && Keys(byId, ring.kept)
      && Keys(pinned, Pinned(ring))
      && Groups(byDecision, Pinned(ring))
      && Histories(ownerHist, Evictable(ring))
      && evictableCount == |Evictable(ring)|
    }

    // What holds between the steps of one call ...
    ghost predicate Inner()
      reads this
    {
      CoreOk(ring) && Fits(ring) && Indexes()
    }

    // ... and between calls.
    ghost predicate Valid()
      reads this
    {
      Inner() && Settled(ring)
    }

    constructor (maxHistory: nat, ownerFloor: nat)
      ensures Valid() && ring == Start(maxHistory, ownerFloor)
    {
      bound, floor := maxHistory, ownerFloor;
      events, byId, pinned, byDecision, ownerHist := [], map[], map[], map[], map[];
      evictableCount, reasons := 0, map[];
      lastSeq, lastSeqBySession, evictedHigh, evictedHighBySession := 0, map[], 0, map[];
      ring := Start(maxHistory, ownerFloor);
      new;
      StartOk(maxHistory, ownerFloor);
      assert Evictable(ring) == {} && Pinned(ring) == {};
    }

    // Put an event into its owner's history.
    method IndexEvictable(e: Event, ghost s: set<Event>)
      requires Histories(ownerHist, s) && evictableCount == |s|
      requires e !in s && forall f :: f in s ==> f.num != e.num
      modifies this`ownerHist, this`evictableCount
      ensures Histories(ownerHist, s + {e}) && evictableCount == |s + {e}|
    {
      hide Histories, Lists, OfOwner;
      var owner := e.draft.owner;
      var hist := if owner in ownerHist then ownerHist[owner] else [];
      HistoryOf(ownerHist, s, owner);
      ListParts(hist, s, owner);
      var entered := Insort(hist, e);
      HistoriesAdd(ownerHist, s, e, entered);
      ownerHist := ownerHist[owner := entered];
      evictableCount := evictableCount + 1;
    }

    // Take an event out of its owner's history.
    method Unindex(e: Event, ghost s: set<Event>)
      requires Histories(ownerHist, s) && evictableCount == |s| && e in s
      modifies this`ownerHist, this`evictableCount
      ensures Histories(ownerHist, s - {e}) && evictableCount == |s - {e}|
    {
      hide Histories, Lists, OfOwner;
      var owner := e.draft.owner;
      HistoryHas(ownerHist, s, e);
      var hist := Remove(ownerHist[owner], e);
      HistoriesRemove(ownerHist, s, e, hist);
      ownerHist := if hist == [] then ownerHist - {owner} else ownerHist[owner := hist];
      evictableCount := evictableCount - 1;
    }

    // File a published event by its final state.
    method IndexNew(e: Event)
      requires Inner() && ring.open != [] && e == Top(ring)
      modifies this`ownerHist, this`evictableCount, this`ring, this`pinned, this`byDecision
      ensures ring == Closed(old(ring)) && Inner()
    {
      hide CoreOk, Keys, Groups, Histories, Lists, Pinned, Evictable, Top;
      ghost var next := Closed(ring);
      ClosedSets(ring);
      CloseKeepsCore(ring);
      TopApart(ring);
      NumsApart(ring, e);
      if e.draft.respondable && e.num !in reasons {
        KeysAdd(pinned, Pinned(ring), e);
        GroupsAdd(byDecision, Pinned(ring), e);
        pinned := pinned[e.num := e];
        if e.draft.decision.Some? {
          var d := e.draft.decision.value;
          byDecision := byDecision[d := GroupOf(byDecision, d)[e.num := e]];
        }
      } else {
        IndexEvictable(e, Evictable(ring));
      }
      ring := next;
    }

    // Take an event out of the index of unresolved decisions.
    method RemovePin(e: Event, ghost p: set<Event>)
      requires Keys(pinned, p) && Groups(byDecision, p) && e in p
      modifies this`pinned, this`byDecision
      ensures Keys(pinned, p - {e}) && Groups(byDecision, p - {e})
    {
      hide Keys, Groups;
      KeysRemove(pinned, p, e);
      GroupsRemove(byDecision, p, e);
      pinned := pinned - {e.num};
      if e.draft.decision.Some? && e.draft.decision.value in byDecision {
        var d := e.draft.decision.value;
        var left := byDecision[d] - {e.num};
        byDecision := if left == map[] then byDecision - {d} else byDecision[d := left];
      }
    }

    // Take an event out of the ordered list and the index by id.
    method Discard(v: Event, ghost kept: set<Event>)
      requires Lists(events, kept) && Keys(byId, kept) && v in kept
      modifies this`events, this`byId
      ensures Lists(events, kept - {v}) && Keys(byId, kept - {v})
    {
      hide Lists, Keys;
      KeysRemove(byId, kept, v);
      ListHas(events, kept, v);
      events := Remove(events, v);
      byId := byId - {v.num};
    }

    // Write a reason into a pinned event and move it to the evictable history.
    method Unpin(e: Event, why: Reason)
      requires Inner() && e in Pinned(ring)
      modifies this`ownerHist, this`evictableCount, this`ring, this`pinned, this`byDecision, this`reasons
      ensures ring == old(ring).(reason := old(ring).reason[e.num := why]) && Inner()
      ensures Pinned(ring) == Pinned(old(ring)) - {e}
    {
      hide CoreOk, Keys, Groups, Histories, Lists, Pinned, Evictable;
      ghost var next := ring.(reason := ring.reason[e.num := why]);
      ResolvedSets(ring, e, why);
      ResolvingKeepsCore(ring, next.reason);
      PinnedKept(ring, e);
      NumsApart(ring, e);
      reasons := reasons[e.num := why];
      RemovePin(e, Pinned(ring));
      IndexEvictable(e, Evictable(ring));
      ring := next;
    }

    lemma AboveFloorIs(e: Event)
      requires Inner() && e in ring.kept
      ensures AboveFloor(ring, e) <==>
        && e.num !in pinned
        && e.draft.owner in ownerHist && |ownerHist[e.draft.owner]| > floor && e in ownerHist[e.draft.owner]
    {
      AboveFloorBy(ring, pinned, ownerHist, e);
    }

    // The oldest indexed evictable event of an owner above its floor.
    method PickVictim() returns (v: Option<Event>)
      requires Inner()
      ensures v.Some? ==> IsVictim(ring, v.value)
      ensures v.None? ==> forall e :: e in ring.kept ==> !AboveFloor(ring, e)
    {
      hide CoreOk, Keys, Groups, Histories, AboveFloor;
      for i := 0 to |events|
        invariant forall j :: 0 <= j < i ==> !AboveFloor(ring, events[j])
      {
        var e := events[i];
        assert e in All(events);
        AboveFloorIs(e);
        if e.num in pinned { continue; }
        if e.draft.owner in ownerHist {
          var hist := ownerHist[e.draft.owner];
          if |hist| > floor && e in hist {
            forall f | f in ring.kept && AboveFloor(ring, f) ensures e.num <= f.num {
              assert f in All(events);
              var j :| 0 <= j < |events| && events[j] == f;
              assert j >= i;
            }
            return Some(e);
          }
        }
      }
      forall e | e in ring.kept ensures !AboveFloor(ring, e) {
        assert e in All(events);
      }
      return None;
    }

    method NoteEvicted(v: Event)
      modifies this`evictedHigh, this`evictedHighBySession
      ensures evictedHigh == Max(old(evictedHigh), v.num)
      ensures evictedHighBySession
           == old(evictedHighBySession)[v.draft.sid := Max(Seen(old(evictedHighBySession), v.draft.sid), v.num)]
    {
      if evictedHigh < v.num {
        evictedHigh := v.num;
      }
      var seen := Seen(evictedHighBySession, v.draft.sid);
      evictedHighBySession := evictedHighBySession[v.draft.sid := if seen < v.num then v.num else seen];
    }

    method DropVictim(v: Event)
      requires Inner() && IsVictim(ring, v)
      modifies this`events, this`byId, this`ownerHist, this`evictableCount, this`evictedHigh,
               this`evictedHighBySession, this`ring
      ensures ring == Drop(old(ring), v) && Inner()
    {
      hide CoreOk, Keys, Groups, Pinned, Evictable, IsVictim, Histories, Lists;
      VictimSets(ring, v);
      Discard(v, ring.kept);
      Unindex(v, Evictable(ring));
      NoteEvicted(v);
      ring := Drop(ring, v);
    }

    method EvictIfNeeded()
      requires Inner()
      modifies this`events, this`byId, this`ownerHist, this`evictableCount, this`evictedHigh,
               this`evictedHighBySession, this`ring
      ensures ring == Evict(old(ring)) && Valid()
    {
      EvictKeeps(ring);
      hide CoreOk, Indexes, Fits, Drop, Evictable, IsVictim, Bucket;
      while evictableCount > bound
        invariant Inner() && Evict(ring) == Evict(old(ring))
        decreases |Evictable(ring)|
      {
        CountIs();
        var v := PickVictim();
        if v == None {
          assert Evict(ring) == ring by { NoVictim(ring); }
          return;
        }
        EvictVictim(ring, v.value);
        VictimSpare(ring, v.value);
        EvictableShrinks(ring, v.value);
        DropVictim(v.value);
      }
      CountIs();
    }

    lemma CountIs()
      requires Inner()
      ensures evictableCount == |Evictable(ring)| && ring.bound == bound && Shape(ring)
    {
    }

    // Reserve the next number for an event; its callback has yet to run.
    method Begin(draft: Draft) returns (e: Event)
      requires Valid()
      modifies this
      ensures Valid() && ring == Opened(old(ring), draft) && e == Event(|old(ring).all| + 1, draft)
    {
      hide CoreOk, Keys, Groups, Pinned, Evictable, Histories, Lists, Settled;
      BeginKeeps(ring, draft);
      BeginSets(ring, draft);
      e := Event(lastSeq + 1, draft);
      BeginLists(events, ring.kept, e);
      KeysAdd(byId, ring.kept, e);
      events := events + [e];
      byId := byId[e.num := e];
      lastSeq := e.num;
      lastSeqBySession := lastSeqBySession[draft.sid := e.num];
      ring := Opened(ring, draft);
    }

    // Publish an event whose callback does what `hook` says.
    method Publish(draft: Draft, hook: Hook) returns (e: Event)
      requires Valid()
      modifies this
      ensures Valid() && Legal(|old(ring).open|, PublishSteps(draft, hook))
      ensures ring == Run(old(ring), PublishSteps(draft, hook))
      ensures e == Event(|old(ring).all| + 1, draft)
      decreases hook, 3
    {
      hide CoreOk, Indexes, Settled, Run, Legal, Evict, StepsOf, StepsOfOp, PublishSteps;
      PublishReturns(ring, draft, hook);
      e := Begin(draft);
      ghost var o := ring;
      RunHook(e, hook);
      TopIs(o, ring, e);
      IndexNew(e);
      EvictIfNeeded();
    }

    // The callback is given its event.
    method RunHook(e: Event, hook: Hook)
      requires Valid() && IsTop(ring, e)
      modifies this
      ensures Valid() && Returns(old(ring), StepsOf(hook))
      ensures ring == Run(old(ring), StepsOf(hook))
      decreases hook, 2
    {
      hide CoreOk, Indexes, Settled, RingStep, StepsOfOp;
      HookReturns(ring, hook);
      match hook {
        case Quiet =>
        case Then(op, rest) =>
          OpReturns(ring, op);
          RunOp(e, op);
          HookReturns(ring, rest);
          RunSplit(old(ring), StepsOfOp(op), StepsOf(rest));
          RunHook(e, rest);
      }
    }

    method RunOp(e: Event, op: HookOp)
      requires Valid() && IsTop(ring, e)
      modifies this
      ensures Valid() && Returns(old(ring), StepsOfOp(op))
      ensures ring == Run(old(ring), StepsOfOp(op))
      decreases op, 2
    {
      hide CoreOk, Indexes, Settled, RingStep, Run, Legal, PublishSteps;
      OpReturns(ring, op);
      match op {
        case Publishing(d, h) =>
          var nested := Publish(d, h);
        case Resolving(did, why) =>
          RunOne(ring, Resolve(did, why));
          var answer := ResolveDecision(did, why);
        case Marking(num) =>
          RunOne(ring, Mark(num));
          var answer := MarkAnswered(num);
        case Superseding =>
          RunOne(ring, Supersede);
          GiveUp(e);
      }
    }

    // A callback writes "superseded" into the event it is called for.
    method GiveUp(e: Event)
      requires Valid() && IsTop(ring, e)
      modifies this
      ensures Valid() && ring == RingStep(old(ring), Supersede)
    {
      hide CoreOk, Keys, Groups, Pinned, Evictable, Histories, Lists, Settled, RingStep;
      GiveUpIs(ring, e);
      reasons := reasons[e.num := Superseded];
      ring := ring.(reason := ring.reason[e.num := Superseded]);
    }

    // Resolve every unresolved event of a decision, and answer the newest of them.
    method ResolveDecision(did: Id, why: Reason) returns (answer: Option<nat>)
      requires Valid()
      modifies this
      ensures Valid() && ring == RingStep(old(ring), Resolve(did, why))
      ensures Answers(old(ring), Resolve(did, why), answer)
    {
      hide CoreOk, Indexes, Settled, Evict, RingStep, ResolveAll, Pinned, OfDecision, NewestSeq;
      ResolveIs(ring, did, why);
      DecisionIn(did);
      if did !in byDecision {
        return None;
      }
      var d := byDecision[did];
      answer := ResolveEach(d, did, why);
      EvictIfNeeded();
    }

    method ResolveEach(d: ById, ghost did: Id, why: Reason) returns (answer: Option<nat>)
      requires Inner() && Keys(d, OfDecision(Pinned(ring), did))
      modifies this
      ensures Inner()
          && ring == old(ring).(reason := ResolveAll(old(ring).reason, OfDecision(Pinned(old(ring)), did), why))
      ensures NewestSeq(OfDecision(Pinned(old(ring)), did), answer)
    {
      hide CoreOk, Indexes, Fits, ResolveAll, Pinned;
      ghost var all := OfDecision(Pinned(ring), did);
      ghost var done: set<Event> := {};
      ResolveNothing(ring, done, why);
      answer := None;
      var todo := d.Keys;
      while todo != {}
        invariant Inner() && done <= all && todo <= d.Keys
        invariant ring == old(ring).(reason := ResolveAll(old(ring).reason, done, why))
        invariant Pinned(ring) == Pinned(old(ring)) - done
        invariant forall n :: n in todo ==> d[n] !in done
        invariant forall e :: e in all ==> e in done || e.num in todo
        invariant NewestSeq(done, answer)
        decreases todo
      {
        var n :| n in todo;
        var e := d[n];
        assert e in all && e.num == n;
        ResolveOneMore(old(ring).reason, done, e, why);
        NewestOneMore(done, answer, e);
        answer := if answer == None || e.num > answer.value then Some(e.num) else answer;
        Unpin(e, why);
        done := done + {e};
        todo := todo - {n};
      }
      assert done == all;
    }

    lemma DecisionIn(did: Id)
      requires Inner()
      ensures did in byDecision <==> OfDecision(Pinned(ring), did) != {}
      ensures did in byDecision ==> Keys(byDecision[did], OfDecision(Pinned(ring), did))
    {
      hide CoreOk, Pinned;
      if did in byDecision {
        SomeKey(byDecision[did], byDecision, Pinned(ring), did);
      } else {
        GroupKeys(byDecision, Pinned(ring), did);
      }
    }

    method MarkAnswered(num: nat) returns (answer: Option<nat>)
      requires Valid()
      modifies this
      ensures Valid() && ring == RingStep(old(ring), Mark(num))
      ensures Answers(old(ring), Mark(num), answer)
    {
      hide CoreOk, Keys, Groups, Pinned, Evictable, Histories, Lists, Settled, Evict, RingStep;
      KeysIn(byId, ring.kept, num);
      KeysIn(pinned, Pinned(ring), num);
      MarkIs(ring, num);
      if num !in byId {
        return None;
      }
      var e := byId[num];
      if num in pinned {
        Unpin(pinned[num], Answered);
        EvictIfNeeded();
      } else {
        reasons := reasons[num := Answered];
        ring := ring.(reason := ring.reason[num := Answered]);
      }
      return Some(e.num);
    }

    // ---- queries ----

    // The point before which events in scope may be missing.
    method HighWater(scope: Scope) returns (high: nat)
      requires Valid()
      ensures IsHighWater(ring, scope, high)
    {
      hide CoreOk, Indexes, Settled;
      match scope {
        case Global => return evictedHigh;
        case One(sid) => return Seen(evictedHighBySession, sid);
        case Among(sids) =>
          high := 0;
          var rest := sids;
          while rest != {}
            invariant rest <= sids
            invariant forall s :: s in sids - rest ==> Seen(evictedHighBySession, s) <= high
            invariant high == 0 || exists s :: s in sids && high == Seen(evictedHighBySession, s)
            decreases rest
          {
            var s :| s in rest;
            var seen := Seen(evictedHighBySession, s);
            assert s in sids;
            if seen > high {
              high := seen;
            }
            rest := rest - {s};
          }
          assert sids - rest == sids;
      }
    }

    // Expiry first, then the first retained event after the cursor.
    method LatestAfter(after: int, scope: Scope) returns (w: Wake)
      requires Valid()
      ensures EventLog.LatestAfter(ring, after, scope, w)
    {
      var high := HighWater(scope);
      if after < high {
        return CursorExpired;
      }
      w := FirstAfter(after, scope);
    }

    method FirstAfter(after: int, scope: Scope) returns (w: Wake)
      requires Valid()
      ensures Earliest(ring.kept, after, scope, w)
    {
      hide CoreOk, Settled, Keys, Groups, Histories;
      for i := 0 to |events|
        invariant forall j :: 0 <= j < i && InScope(events[j], scope) ==> events[j].num <= after
      {
        var e := events[i];
        if e.num > after && InScope(e, scope) {
          assert e in All(events);
          forall f | f in ring.kept && InScope(f, scope) && f.num > after ensures e.num <= f.num {
            assert f in All(events);
            var j :| 0 <= j < |events| && events[j] == f;
            assert j >= i;
          }
          return Next(e);
        }
      }
      forall f | f in ring.kept && InScope(f, scope) ensures f.num <= after {
        assert f in All(events);
      }
      return Nothing;
    }

    // A wait names its sessions: without one it would deliver another session's event.
    method WaitEvent(after: int, sid: Option<Id>) returns (r: Result<Wake, WaitError>)
      requires Valid()
      ensures sid == None ==> r == Err(NoSession)
      ensures sid.Some? ==> r.Ok? && EventLog.LatestAfter(ring, after, One(sid.value), r.value)
    {
      if sid == None {
        return Err(NoSession);
      }
      var w := LatestAfter(after, One(sid.value));
      return Ok(w);
    }

    method WaitEventAny(after: int, sids: set<Id>) returns (r: Result<Wake, WaitError>)
      requires Valid()
      ensures sids == {} ==> r == Err(NoSessions)
      ensures sids != {} ==> r.Ok? && EventLog.LatestAfter(ring, after, Among(sids), r.value)
    {
      if sids == {} {
        return Err(NoSessions);
      }
      var w := LatestAfter(after, Among(sids));
      return Ok(w);
    }

    method LatestSeq(sid: Option<Id>) returns (s: nat)
      requires Valid()
      ensures s == if sid == None then |ring.all| else Seen(ring.lastOf, sid.value)
    {
      s := if sid == None then lastSeq else Seen(lastSeqBySession, sid.value);
    }

    // The newest unresolved decision of a session, or of any.
    method Pending(sid: Option<Id>) returns (best: Option<Event>)
      requires Valid()
      ensures EventLog.Pending(ring, if sid == None then Global else One(sid.value), best)
    {
      hide CoreOk, Settled, Lists, Groups, Histories, EventLog.Pinned;
      ghost var scope := if sid == None then Global else One(sid.value);
      best := None;
      var rest := pinned.Keys;
      ghost var seen: set<Event> := {};
      while rest != {}
        invariant rest <= pinned.Keys
        invariant seen <= EventLog.Pinned(ring)
        invariant forall e :: e in EventLog.Pinned(ring) ==> e in seen || e.num in rest
        invariant Newest(OfSession(seen, scope), best)
        decreases rest
      {
        var n :| n in rest;
        var e := pinned[n];
        if sid == None || e.draft.sid == sid.value {
          if best == None || e.num > best.value.num {
            best := Some(e);
          }
        }
        seen := seen + {e};
        rest := rest - {n};
      }
      assert seen == EventLog.Pinned(ring);
    }

    // ---- forgetting a session ----

    // Take one event out of whichever index has it.
    method Withdraw(e: Event, ghost g: Ring)
      requires CoreOk(ring) && ring.open == [] && g == ring.(kept := g.kept) && g.kept <= ring.kept && e in g.kept
      requires Keys(byId, g.kept) && Keys(pinned, Pinned(g)) && Groups(byDecision, Pinned(g))
      requires Histories(ownerHist, Evictable(g)) && evictableCount == |Evictable(g)|
      modifies this`byId, this`pinned, this`byDecision, this`ownerHist, this`evictableCount
      ensures var g1 := g.(kept := g.kept - {e});
        && Keys(byId, g1.kept) && Keys(pinned, Pinned(g1)) && Groups(byDecision, Pinned(g1))
        && Histories(ownerHist, Evictable(g1)) && evictableCount == |Evictable(g1)|
    {
      hide CoreOk, Keys, Groups, Pinned, Evictable, Histories;
      WithdrawSets(ring, g, e, pinned);
      KeysRemove(byId, g.kept, e);
      byId := byId - {e.num};
      if e.num in pinned {
        RemovePin(e, Pinned(g));
      } else {
        HistoryHas(ownerHist, Evictable(g), e);
        if e.draft.owner in ownerHist && e in ownerHist[e.draft.owner] {
          Unindex(e, Evictable(g));
        }
      }
    }

    // Take every event of a session out of the indexes; the ordered list is filtered afterwards.
    method WithdrawAll(listed: seq<Event>, sid: Id)
      requires CoreOk(ring) && ring.open == [] && Lists(listed, ring.kept)
      requires Keys(byId, ring.kept) && Keys(pinned, Pinned(ring)) && Groups(byDecision, Pinned(ring))
      requires Histories(ownerHist, Evictable(ring)) && evictableCount == |Evictable(ring)|
      modifies this`byId, this`pinned, this`byDecision, this`ownerHist, this`evictableCount
      ensures var g := Forgot(ring, sid);
        && Keys(byId, g.kept) && Keys(pinned, Pinned(g)) && Groups(byDecision, Pinned(g))
        && Histories(ownerHist, Evictable(g)) && evictableCount == |Evictable(g)|
    {
      hide CoreOk, Keys, Groups, Pinned, Evictable, Histories, Lists;
      ghost var g := ring;
      ListParts3(listed, ring.kept);
      for i := 0 to |listed|
        invariant g == ring.(kept := g.kept) && g.kept <= ring.kept
        invariant forall e :: e in ring.kept ==> (e in g.kept <==> !(e.draft.sid == sid && e in listed[..i]))
        invariant Keys(byId, g.kept) && Keys(pinned, Pinned(g)) && Groups(byDecision, Pinned(g))
        invariant Histories(ownerHist, Evictable(g)) && evictableCount == |Evictable(g)|
      {
        var e := listed[i];
        assert listed[..i + 1] == listed[..i] + [e];
        NotBefore(listed, i);
        if e.draft.sid != sid { continue; }
        Withdraw(e, g);
        g := g.(kept := g.kept - {e});
      }
      assert listed[..|listed|] == listed;
      assert g.kept == Without(ring.kept, sid);
      ForgetSets(ring, g, sid);
    }

    method ForgetSession(sid: Id)
      requires Valid() && ring.open == []
      modifies this
      ensures Valid() && ring == RingStep(old(ring), Forget(sid))
    {
      hide CoreOk, Keys, Groups, Pinned, Evictable, Histories, Lists, Settled, RingStep;
      ForgetIs(ring, sid);
      WithdrawAll(events, sid);
      events := ExceptSession(events, ring.kept, sid);
      lastSeqBySession := lastSeqBySession - {sid};
      evictedHighBySession := evictedHighBySession - {sid};
      ring := Forgot(ring, sid);
    }
  }

  // The events of an ascending list that are not of the session.
  method ExceptSession(events: seq<Event>, ghost s: set<Event>, sid: Id) returns (r: seq<Event>)
    requires Lists(events, s)
    ensures Lists(r, Without(s, sid))
  {
    r := [];
    for i := 0 to |events|
      invariant Ascending(r)
      invariant forall e :: e in r <==> e in events[..i] && e.draft.sid != sid
    {
      assert events[..i + 1] == events[..i] + [events[i]];
      if events[i].draft.sid != sid {
        r := r + [events[i]];
      }
    }
    assert events[..|events|] == events;
    assert forall e :: e in All(events) <==> e in events;
  }

  lemma ForgetIs(r: Ring, sid: Id)
    requires RingOk(r) && r.open == []
    ensures RingStep(r, Forget(sid)) == Forgot(r, sid) && RingOk(Forgot(r, sid))
  {
    hide CoreOk, Settled;
    ForgetKeeps(r, sid);
  }

  lemma ForgetSets(r: Ring, g: Ring, sid: Id)
    requires g == r.(kept := Without(r.kept, sid))
    ensures Pinned(Forgot(r, sid)) == Pinned(g) && Evictable(Forgot(r, sid)) == Evictable(g)
  {
  }

  lemma ListParts3(list: seq<Event>, s: set<Event>)
    requires Lists(list, s)
    ensures Ascending(list) && (forall f :: f in list <==> f in s)
  {
    assert forall f :: f in list <==> f in All(list);
  }

  lemma NotBefore(list: seq<Event>, i: nat)
    requires Ascending(list) && i < |list|
    ensures list[i] !in list[..i]
  {
  }

  lemma WithdrawSets(r: Ring, g: Ring, e: Event, pinned: ById)
    requires CoreOk(r) && r.open == [] && g == r.(kept := g.kept) && g.kept <= r.kept && e in g.kept
    requires Keys(pinned, Pinned(g))
    ensures e.num in pinned <==> e in Pinned(g)
    ensures e !in Pinned(g) ==> e in Evictable(g)
    ensures var g1 := g.(kept := g.kept - {e});
      if e in Pinned(g) then Pinned(g1) == Pinned(g) - {e} && Evictable(g1) == Evictable(g)
      else Pinned(g1) == Pinned(g) && Evictable(g1) == Evictable(g) - {e}
  {
    hide Watermarks, Latest, HighsAreGone, NothingOwedIsGone, FloorHolds;
    if e.num in pinned {
      KeptUnique(r, e, pinned[e.num]);
    }
  }

  lemma GiveUpIs(r: Ring, e: Event)
    requires RingOk(r) && IsTop(r, e)
    ensures var r1 := r.(reason := r.reason[e.num := Superseded]);
      && RingStep(r, Supersede) == r1 && RingOk(r1)
      && Pinned(r1) == Pinned(r) && Evictable(r1) == Evictable(r)
  {
    SupersedeKeeps(r);
    TopOpen(r, e);
    OthersSets(r, e.num, Superseded);
  }

  lemma MarkIs(r: Ring, num: nat)
    requires RingOk(r)
    ensures var r1 := r.(reason := r.reason[num := Answered]);
      if !(exists e :: e in r.kept && e.num == num) then RingStep(r, Mark(num)) == r
      else if exists e :: e in Pinned(r) && e.num == num then RingStep(r, Mark(num)) == Evict(r1)
      else
        && RingStep(r, Mark(num)) == r1 && RingOk(r1)
        && Pinned(r1) == Pinned(r) && Evictable(r1) == Evictable(r)
  {
    hide CoreOk, Settled;
    MarkKeeps(r, num);
    if !(exists e :: e in Pinned(r) && e.num == num) {
      OthersSets(r, num, Answered);
    }
  }

  lemma ResolveIs(r: Ring, did: Id, why: Reason)
    ensures var d := OfDecision(Pinned(r), did);
      && RingStep(r, Resolve(did, why)) == (if d == {} then r else Evict(r.(reason := ResolveAll(r.reason, d, why))))
      && forall answer :: Answers(r, Resolve(did, why), answer) <==> NewestSeq(d, answer)
    ensures NewestSeq({}, None)
  {
  }

  lemma NewestOneMore(done: set<Event>, answer: Option<nat>, e: Event)
    requires NewestSeq(done, answer)
    ensures NewestSeq(done + {e}, if answer == None || e.num > answer.value then Some(e.num) else answer)
  {
    var next := if answer == None || e.num > answer.value then e.num else answer.value;
    if next == e.num {
      assert e in done + {e};
    } else {
      var f :| f in done && f.num == next;
      assert f in done + {e};
    }
  }

  lemma NumsApart(r: Ring, e: Event)
    requires CoreOk(r) && e in r.kept && e !in Evictable(r)
    ensures forall f :: f in Evictable(r) ==> f.num != e.num
  {
    hide Watermarks, Latest, HighsAreGone, NothingOwedIsGone, FloorHolds;
    forall f | f in Evictable(r) ensures f.num != e.num {
      if f.num == e.num { KeptUnique(r, e, f); }
    }
  }

  lemma TopApart(r: Ring)
    requires CoreOk(r) && r.open != []
    ensures forall f :: f in Pinned(r) ==> f.num != Top(r).num
  {
    hide Watermarks, Latest, HighsAreGone, NothingOwedIsGone, FloorHolds;
    forall f | f in Pinned(r) ensures f.num != Top(r).num {
      assert Top(r).num == r.open[|r.open| - 1];
      assert Top(r).num in r.open;
    }
  }

  lemma HistoryOf(h: History, s: set<Event>, owner: Option<Id>)
    requires Histories(h, s)
    ensures Lists(if owner in h then h[owner] else [], OfOwner(s, owner))
  {
    if owner !in h {
      assert OfOwner(s, owner) == {};
    }
  }

  lemma NoVictim(r: Ring)
    requires forall e :: e in r.kept ==> !AboveFloor(r, e)
    ensures Evict(r) == r
  {
    forall e ensures !IsVictim(r, e) {
      if IsVictim(r, e) { VictimSpare(r, e); }
    }
  }

  lemma PinnedKept(r: Ring, e: Event)
    requires e in Pinned(r)
    ensures e in r.kept
  {
  }

  lemma VictimSets(r: Ring, v: Event)
    requires CoreOk(r) && IsVictim(r, v)
    ensures CoreOk(Drop(r, v)) && v in r.kept && v in Evictable(r)
    ensures Pinned(Drop(r, v)) == Pinned(r) && Evictable(Drop(r, v)) == Evictable(r) - {v}
  {
    VictimSpare(r, v);
    DropKeeps(r, v);
    hide CoreOk, IsVictim;
    DroppedSets(r, v);
  }

  lemma ListParts(list: seq<Event>, s: set<Event>, owner: Option<Id>)
    requires Lists(list, OfOwner(s, owner))
    ensures Ascending(list) && All(list) == OfOwner(s, owner) && forall f :: f in list ==> f in s
  {
    assert forall f :: f in list ==> f in All(list);
  }

  lemma ListHas(list: seq<Event>, s: set<Event>, e: Event)
    requires Lists(list, s) && e in s
    ensures Ascending(list) && All(list) == s && e in list
  {
    assert e in All(list);
  }

  lemma HistoryHas(h: History, s: set<Event>, e: Event)
    requires Histories(h, s) && e in s
    ensures e.draft.owner in h && Ascending(h[e.draft.owner]) && e in h[e.draft.owner]
    ensures All(h[e.draft.owner]) == OfOwner(s, e.draft.owner)
  {
    assert e in All(h[e.draft.owner]);
  }

  // How the scan for a victim recognises one.
  lemma AboveFloorBy(r: Ring, pinned: ById, h: History, e: Event)
    requires CoreOk(r) && Keys(pinned, Pinned(r)) && Histories(h, Evictable(r)) && e in r.kept
    ensures AboveFloor(r, e) <==>
      && e.num !in pinned
      && e.draft.owner in h && |h[e.draft.owner]| > r.floor && e in h[e.draft.owner]
  {
    var o := e.draft.owner;
    BucketIs(r, o);
    if e.num in pinned {
      assert e in Pinned(r) by { PinnedHere(r, pinned, e); }
      hide CoreOk, Keys, Histories;
    } else {
      hide CoreOk;
      assert e !in Pinned(r);
      if o in h {
        ListSize(h[o], OfOwner(Evictable(r), o));
        hide Ascending;
        assert e in All(h[o]) <==> e in Evictable(r);
      }
    }
  }

  lemma PinnedHere(r: Ring, pinned: ById, e: Event)
    requires CoreOk(r) && Keys(pinned, Pinned(r)) && e in r.kept && e.num in pinned
    ensures e in Pinned(r)
  {
    hide Watermarks, Latest, HighsAreGone, NothingOwedIsGone, FloorHolds;
    KeptUnique(r, e, pinned[e.num]);
  }

  lemma BeginSets(r: Ring, d: Draft)
    requires CoreOk(r)
    ensures Pinned(Opened(r, d)) == Pinned(r) && Evictable(Opened(r, d)) == Evictable(r)
    ensures forall f :: f in r.kept ==> f.num <= |r.all|
  {
    hide Watermarks, Latest, HighsAreGone, NothingOwedIsGone, FloorHolds;
    OpenedSets(r, d);
  }

  lemma BeginLists(events: seq<Event>, kept: set<Event>, e: Event)
    requires Lists(events, kept) && forall f :: f in kept ==> f.num < e.num
    ensures Lists(events + [e], kept + {e})
  {
    assert forall f :: f in events ==> f in All(events);
  }

  ghost predicate IsTop(r: Ring, e: Event) {
    r.open != [] && e.num == r.open[|r.open| - 1]
  }

  lemma TopIs(o: Ring, r: Ring, e: Event)
    requires CoreOk(o) && CoreOk(r) && IsTop(o, e) && e in o.all && r.open == o.open && o.all <= r.all
    ensures IsTop(r, e) && Top(r) == e
  {
    hide Watermarks, Latest, HighsAreGone, NothingOwedIsGone, FloorHolds;
    assert o.all[e.num - 1] == e;
  }

  lemma TopOpen(r: Ring, e: Event)
    requires IsTop(r, e)
    ensures forall f :: f in Pinned(r) ==> f.num != e.num
  {
    assert e.num in r.open;
  }

  lemma SomeKey(d: ById, groups: map<Id, ById>, p: set<Event>, did: Id)
    requires Groups(groups, p) && did in groups && d == groups[did]
    ensures OfDecision(p, did) != {}
  {
    assert d != map[];
    var n :| n in d;
    assert d[n] in OfDecision(p, did);
  }

  lemma ResolveOneMore(reason: map<nat, Reason>, done: set<Event>, e: Event, why: Reason)
    ensures ResolveAll(reason, done, why)[e.num := why] == ResolveAll(reason, done + {e}, why)
  {
    assert Nums(done + {e}) == Nums(done) + {e.num};
  }

  lemma KeysIn(m: ById, s: set<Event>, num: nat)
    requires Keys(m, s)
    ensures num in m <==> exists e :: e in s && e.num == num
    ensures num in m ==> m[num] in s && m[num].num == num
    ensures num !in m ==> forall e :: e in s ==> e.num != num
  {
  }
}
