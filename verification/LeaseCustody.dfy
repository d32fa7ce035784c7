/**
  Who answers for a token the manager was granted (daemon/manager.py, daemon/lease_client.py), over every run
  of the lease protocol, guarded or not: once the manager has taken a new token in or rolled it back, the
  token is in its maps, or its release is queued, in flight or acknowledged.  None is lost to the router.
*/
module LeaseCustody {
  import opened Prelude
  import opened Leases
  import opened LeaseProtocol
  import opened LeaseHandshakes

  // A new token that an acquire was answered with, and that the manager has committed or rolled back.
  predicate Settled(c: Call, k: Kind) {
    && k in c.settled
    && c.reply.Some? && c.reply.value.body.Acquired? && c.reply.value.body.grants.Ok?
    && k in c.reply.value.body.grants.value && c.reply.value.body.grants.value[k].isNew
  }

  function TokenOf(c: Call, k: Kind): TokenId
    requires Settled(c, k)
  {
    c.reply.value.body.grants.value[k].tokenId
  }

  predicate IsHeld(w: World, t: TokenId) {
    exists slot :: slot in w.held && w.held[slot].token == t
  }

  ghost predicate Kept(w: World) {
    forall c, k :: c in w.calls && Settled(c, k) ==> IsHeld(w, TokenOf(c, k)) || TokenOf(c, k) in w.requested
  }

  // Only an answered acquire has been settled.
  ghost predicate InOrder(w: World) {
    forall c :: c in w.calls ==> (c.delivered ==> c.reply.Some?) && (c.settled != {} ==> c.delivered)
  }

  ghost predicate Custody(w: World) {
    InOrder(w) && Kept(w) && forall t :: t in w.requested ==> Remembered(w, t)
  }

  // What the manager holds or releases only grows into releases.
  predicate Hands(w: World, w': World) {
    && w.requested <= w'.requested
    && forall slot :: slot in w.held ==>
         (slot in w'.held && w'.held[slot] == w.held[slot]) || w.held[slot].token in w'.requested
  }

  lemma StillKept(w: World, w': World, t: TokenId)
    requires Hands(w, w') && (IsHeld(w, t) || t in w.requested)
    ensures IsHeld(w', t) || t in w'.requested
  {
    if IsHeld(w, t) {
      var slot :| slot in w.held && w.held[slot].token == t;
      assert slot in w'.held && w'.held[slot] == w.held[slot] ==> IsHeld(w', t);
    }
  }

  lemma HandsOver(w: World, a: Act)
    requires Can(w, a)
    ensures Hands(w, Do(w, a))
  {
    hide Can;
  }

  // The calls of a step: all as before but one, or one more that is not settled.
  lemma SameKept(w: World, w': World)
    requires Kept(w) && InOrder(w) && Hands(w, w')
    requires forall c :: c in w'.calls ==>
               || c.settled == {}
               || exists b :: b in w.calls && b.settled == c.settled && b.reply == c.reply
    ensures Kept(w')
  {
    hide Hands, IsHeld;
    forall c, k | c in w'.calls && Settled(c, k) ensures IsHeld(w', TokenOf(c, k)) || TokenOf(c, k) in w'.requested {
      var b :| b in w.calls && b.settled == c.settled && b.reply == c.reply;
      assert Settled(b, k);
      StillKept(w, w', TokenOf(b, k));
    }
  }

  lemma SentKept(w: World, a: Act)
    requires Custody(w) && Can(w, a) && (a.SendAcquire? || a.SendRelease? || a.SendSnapshot?)
    ensures Kept(Do(w, a)) && InOrder(Do(w, a))
  {
    HandsOver(w, a);
    var w' := Do(w, a);
    Appended(w.calls, w'.calls[|w.calls|]);
    assert w'.calls == w.calls + [w'.calls[|w.calls|]];
    hide Hands, Kept, Can, Do, Remembered;
    SameKept(w, w');
  }

  // A call answered, delivered or given up: nothing is settled by that.
  lemma CarriedKept(w: World, a: Act)
    requires Custody(w) && Can(w, a) && (a.Process? || a.Deliver? || a.GiveUp?)
    ensures Kept(Do(w, a)) && InOrder(Do(w, a))
  {
    HandsOver(w, a);
    var i, w' := a.call, Do(w, a);
    Replaced(w.calls, i, w'.calls[i]);
    assert w'.calls == w.calls[i := w'.calls[i]];
    assert w'.calls[i].settled == w.calls[i].settled;
    assert w'.calls[i].settled != {} ==> w'.calls[i].reply == w.calls[i].reply;
    assert (w'.calls[i].delivered ==> w'.calls[i].reply.Some?) && (w'.calls[i].settled != {} ==> w'.calls[i].delivered);
    hide Hands, Kept, Can, Do, Remembered;
    SameKept(w, w');
  }

  // What is committed is held; what is rolled back and was new is released.
  lemma SettledKept(w: World, a: Act)
    requires Custody(w) && Can(w, a) && (a.Commit? || a.Rollback?)
    ensures Kept(Do(w, a)) && InOrder(Do(w, a))
  {
    HandsOver(w, a);
    var i, w' := a.call, Do(w, a);
    var was, now := w.calls[i], w'.calls[i];
    Replaced(w.calls, i, now);
    assert w'.calls == w.calls[i := now] && now == was.(settled := was.settled + {a.kind});
    var slot := Slot(was.req.base.session, a.kind);
    var t := GrantAt(w, i, a.kind).tokenId;
    assert a.Commit? ==> slot in w'.held && w'.held[slot].token == t;
    assert a.Rollback? && GrantAt(w, i, a.kind).isNew ==> t in w'.requested;
    hide Hands, Can, Do, Remembered;
    forall c, k | c in w'.calls && Settled(c, k) ensures IsHeld(w', TokenOf(c, k)) || TokenOf(c, k) in w'.requested {
      if c in w.calls {
        StillKept(w, w', TokenOf(c, k));
      } else if k == a.kind {
        assert TokenOf(c, k) == t;
      } else {
        assert Settled(was, k);
        StillKept(w, w', TokenOf(was, k));
      }
    }
  }

  lemma StepKept(w: World, a: Act)
    requires Custody(w) && Can(w, a)
    ensures Kept(Do(w, a)) && InOrder(Do(w, a))
  {
    if a.SendAcquire? || a.SendRelease? || a.SendSnapshot? {
      SentKept(w, a);
    } else if a.Process? || a.Deliver? || a.GiveUp? {
      CarriedKept(w, a);
    } else if a.Commit? || a.Rollback? {
      SettledKept(w, a);
    } else {
      HandsOver(w, a);
      assert Do(w, a).calls == w.calls;
      hide Hands, Kept, Can, Do, Remembered;
      SameKept(w, Do(w, a));
    }
  }

  lemma StepRemembers(w: World, a: Act, t: TokenId)
    requires Can(w, a) && (t in w.requested ==> Remembered(w, t)) && t in Do(w, a).requested
    ensures Remembered(Do(w, a), t)
  {
    var w' := Do(w, a);
    if t in w.requested && t !in w.acked + w.outbox + w.toSend {
      var c :| c in w.calls && c.waiting && c.req.ReleaseReq? && c.req.token == t;
      var i :| 0 <= i < |w.calls| && w.calls[i] == c;
      hide Can;
      assert i < |w'.calls| && w'.calls[i].req == c.req;
      assert w'.calls[i].waiting ==> w'.calls[i] in w'.calls;
    } else if a.SendRelease? && a.token == t {
      assert w'.calls[|w.calls|] in w'.calls;
    }
  }

  lemma {:induction false} RunCustody(w: World, acts: seq<Act>)
    requires Custody(w) && Legal(w, acts)
    ensures Custody(LeaseHandshakes.Run(w, acts))
    decreases |acts|
  {
    if acts != [] {
      hide Kept, InOrder, Can, Do, Remembered;
      StepKept(w, acts[0]);
      forall t | t in Do(w, acts[0]).requested ensures Remembered(Do(w, acts[0]), t) {
        StepRemembers(w, acts[0], t);
      }
      RunCustody(Do(w, acts[0]), acts[1..]);
    }
  }

  // In every run, with any delay, loss and restart, a new token the manager has settled is in its maps, or its
  // release is acknowledged, queued, or in flight.
  lemma NoGrantIsLost(lim: Limits, ek: EpochKey, acts: seq<Act>, c: Call, k: Kind)
    requires Legal(Start(lim, ek), acts)
    requires c in LeaseHandshakes.Run(Start(lim, ek), acts).calls && Settled(c, k)
    ensures var w := LeaseHandshakes.Run(Start(lim, ek), acts); IsHeld(w, TokenOf(c, k)) || Remembered(w, TokenOf(c, k))
  {
    RunCustody(Start(lim, ek), acts);
    hide Legal, LeaseHandshakes.Run, Remembered, IsHeld;
  }
}
