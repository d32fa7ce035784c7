/**
  The handshake of a daemon with a restarted router, and a round of the release outbox
  (daemon/manager.py, daemon/lease_client.py), over every run of the lease protocol.

  The manager registers a snapshot under the router's id as it knew it when it took the snapshot, and
  marks that very id as handshaken once the router has accepted it, however much later.  A handshake is due
  when the id last heard is not the one marked.  Nothing here needs the guard on commits: the theorems are
  about all runs of the program.
*/
module LeaseHandshakes {
  import opened Prelude
  import opened Leases
  import opened LeaseProtocol

  predicate Due(known: Option<Rid>, handshook: Option<Rid>) {
    known.Some? && handshook != known
  }

  ghost predicate Legal(w: World, acts: seq<Act>)
    decreases |acts|
  {
    acts != [] ==> Can(w, acts[0]) && Legal(Do(w, acts[0]), acts[1..])
  }

  ghost function Run(w: World, acts: seq<Act>): World
    requires Legal(w, acts)
    decreases |acts|
  {
    if acts == [] then w else Run(Do(w, acts[0]), acts[1..])
  }

  // ---- a marked id is a registration ---------------------------------------------------------------

  // Under the router's present id, an accepted registration and a marked one have registered the epoch.
  ghost predicate HandshakeOk(w: World) {
    && RidsOk(w)
    && (forall c :: c in w.calls && Accepted(c) && c.req.snapRid == w.ledger.rid ==> Reconciled(w.ledger, w.ek))
    && (w.handshook.Some? ==> w.handshook.value < w.nextRid)
    && (w.handshook == Some(w.ledger.rid) ==> Reconciled(w.ledger, w.ek))
  }

  lemma StartHandshake(lim: Limits, ek: EpochKey)
    ensures HandshakeOk(Start(lim, ek))
  {
  }

  lemma AnsweredHandshake(w: World, i: nat)
    requires HandshakeOk(w) && Can(w, Process(i))
    ensures HandshakeOk(Do(w, Process(i)))
  {
    var c := w.calls[i];
    var w' := Do(w, Process(i));
    AnswerLeases(w, c);
    BodyMatches(w, c.req);
    if c.req.RegisterReq? {
      RegisterAnswers(w.ledger, w.lim, w.ek, c.req.snapRid, c.req.active, c.req.live);
    }
    hide EpochLeases, Reconciled, Register, Acquire, Release;
    Replaced(w.calls, i, w'.calls[i]);
  }

  lemma SentHandshake(w: World, req: Req)
    requires HandshakeOk(w) && (req.RegisterReq? ==> req.snapRid < w.nextRid)
    ensures HandshakeOk(w.(calls := w.calls + [Open(req)]))
  {
    Appended(w.calls, Open(req));
  }

  lemma StepHandshake(w: World, a: Act)
    requires HandshakeOk(w) && Can(w, a)
    ensures HandshakeOk(Do(w, a))
  {
    match a
    case SendAcquire(base, kinds) => SentHandshake(w, AcquireReq(base, kinds, w.clientRid));
    case SendRelease(t, rid) => SentHandshake(w, ReleaseReq(t, rid));
    case SendSnapshot(active, live, rid) => SentHandshake(w, RegisterReq(active, live, rid));
    case Process(i) => AnsweredHandshake(w, i);
    case Deliver(i) => SettledHandshake(w, a, i);
    case GiveUp(i) => SettledHandshake(w, a, i);
    case Commit(i, k) => SettledHandshake(w, a, i);
    case Rollback(i, k) => SettledHandshake(w, a, i);
    case OtherDaemon(op) => OtherLeavesEpoch(w.ledger, w.lim, op, w.ek);
    case _ =>
  }

  // What the client does with a call leaves its request and its reply as they are.
  ghost predicate Settles(w: World, w': World, i: nat) {
    && i < |w.calls| == |w'.calls| && w'.calls == w.calls[i := w'.calls[i]]
    && w'.calls[i].req == w.calls[i].req && w'.calls[i].reply == w.calls[i].reply
    && w'.ledger == w.ledger && w'.nextRid == w.nextRid && w'.ek == w.ek && w'.handshook == w.handshook
    && (w'.learned == w.learned || (w.calls[i].reply.Some? && w'.learned == w.learned + {w.calls[i].reply.value.rid}))
  }

  lemma ClientSettles(w: World, a: Act, i: nat)
    requires Can(w, a)
    requires a == Deliver(i) || a == GiveUp(i) || (a.Commit? && a.call == i) || (a.Rollback? && a.call == i)
    ensures Settles(w, Do(w, a), i)
  {
  }

  lemma SettledHandshake(w: World, a: Act, i: nat)
    requires HandshakeOk(w) && Can(w, a)
    requires a == Deliver(i) || a == GiveUp(i) || (a.Commit? && a.call == i) || (a.Rollback? && a.call == i)
    ensures HandshakeOk(Do(w, a))
  {
    ClientSettles(w, a, i);
    hide Do, Can, Reconciled;
    Replaced(w.calls, i, Do(w, a).calls[i]);
  }

  lemma {:induction false} RunHandshake(w: World, acts: seq<Act>)
    requires HandshakeOk(w) && Legal(w, acts)
    ensures HandshakeOk(Run(w, acts))
    decreases |acts|
  {
    hide HandshakeOk, Do, Can;
    if acts != [] {
      StepHandshake(w, acts[0]);
      RunHandshake(Do(w, acts[0]), acts[1..]);
    }
  }

  // In every run of the program, an id marked as handshaken that is still the router's is one under which
  // the epoch is registered.
  lemma HandshookIsRegistered(lim: Limits, ek: EpochKey, acts: seq<Act>)
    requires Legal(Start(lim, ek), acts)
    ensures var w := Run(Start(lim, ek), acts);
      w.handshook == Some(w.ledger.rid) ==> Reconciled(w.ledger, w.ek)
  {
    StartHandshake(lim, ek);
    RunHandshake(Start(lim, ek), acts);
  }

  // So a daemon that knows the router's id and is not registered knows that a handshake is due; and when
  // none is due, the router refuses it nothing for lack of a registration.
  lemma UnregisteredIsDue(lim: Limits, ek: EpochKey, acts: seq<Act>, t: TokenId, base: BaseKey, kinds: set<Kind>)
    requires Legal(Start(lim, ek), acts) && EpochKey(base.gen, base.epoch) == ek
    requires var w := Run(Start(lim, ek), acts); w.clientRid == Some(w.ledger.rid)
    ensures var w := Run(Start(lim, ek), acts);
      && (!Reconciled(w.ledger, w.ek) ==> Due(w.clientRid, w.handshook))
      && (!Due(w.clientRid, w.handshook) ==>
            && Answer(w, ReleaseReq(t, w.clientRid)).1.freed.Ok?
            && Answer(w, AcquireReq(base, kinds, w.clientRid)).1.grants
                 !in {Err(Rebuilding), Err(StaleReconciliationId)})
  {
    HandshookIsRegistered(lim, ek, acts);
    SameDaemon(Start(lim, ek), acts);
  }

  lemma {:induction false} SameDaemon(w: World, acts: seq<Act>)
    requires Legal(w, acts)
    ensures Run(w, acts).ek == w.ek && Run(w, acts).lim == w.lim
    decreases |acts|
  {
    if acts != [] {
      SameDaemonStep(w, acts[0]);
      hide Do, Can;
      SameDaemon(Do(w, acts[0]), acts[1..]);
    }
  }

  lemma SameDaemonStep(w: World, a: Act)
    requires Can(w, a)
    ensures Do(w, a).ek == w.ek && Do(w, a).lim == w.lim
  {
  }

  // The call of a registration sent now, once its reply is taken.
  lemma RegistrationTaken(w: World, active: seq<Snap>, live: seq<Snap>)
    requires Can(w, SendSnapshot(active, live, w.ledger.rid))
    ensures var n, req := |w.calls|, RegisterReq(active, live, w.ledger.rid);
      var w1 := Do(w, SendSnapshot(active, live, w.ledger.rid));
      && Can(w1, Process(n)) && Can(Do(w1, Process(n)), Deliver(n))
      && var d := Do(Do(w1, Process(n)), Deliver(n));
         && n < |d.calls| && d.calls[n].delivered && d.calls[n].req == req
         && d.calls[n].reply == Some(Reply(Answer(w, req).1, w.ledger.rid))
         && d.ledger == Answer(w, req).0 && d.ek == w.ek && d.clientRid == Some(w.ledger.rid)
  {
    hide Register, Reconciled, Lists;
    var req := RegisterReq(active, live, w.ledger.rid);
    AnswerSame(w, Do(w, SendSnapshot(active, live, w.ledger.rid)), req);
    AnswerLeases(w, Open(req));
  }

  // A handshake under the router's present id settles the matter exactly when its snapshot is accepted.
  lemma HandshakeSettles(w: World, active: seq<Snap>, live: seq<Snap>)
    requires Can(w, SendSnapshot(active, live, w.ledger.rid))
    ensures var n := |w.calls|;
      var w1 := Do(w, SendSnapshot(active, live, w.ledger.rid));
      && Can(w1, Process(n)) && Can(Do(w1, Process(n)), Deliver(n))
      && var d := Do(Do(w1, Process(n)), Deliver(n));
         && (Can(d, MarkHandshook(n)) <==> Answer(w, RegisterReq(active, live, w.ledger.rid)).1.registered.Ok?)
         && (Can(d, MarkHandshook(n)) ==>
               && Reconciled(d.ledger, d.ek)
               && !Due(Do(d, MarkHandshook(n)).clientRid, Do(d, MarkHandshook(n)).handshook))
  {
    RegistrationTaken(w, active, live);
    var d := Do(Do(Do(w, SendSnapshot(active, live, w.ledger.rid)), Process(|w.calls|)), Deliver(|w.calls|));
    hide Lists, Register, Reconciled;
    RegisterAnswers(w.ledger, w.lim, w.ek, w.ledger.rid, active, live);
    MarkIs(d, |w.calls|);
    hide Do, Can;
  }

  lemma MarkIs(d: World, n: nat)
    requires n < |d.calls| && d.calls[n].delivered
    ensures Can(d, MarkHandshook(n)) <==> Accepted(d.calls[n])
    ensures Can(d, MarkHandshook(n)) ==> Do(d, MarkHandshook(n)) == d.(handshook := Some(d.calls[n].req.snapRid))
  {
  }

  // ---- a round of the outbox -------------------------------------------------------------------------

  // One retry: the release is sent, other things happen, and its reply is taken or it is given up.
  datatype Attempt = Attempt(token: TokenId, between: seq<Act>, answered: bool)

  predicate SettlesRelease(w: World, a: Act) {
    (a.Deliver? || a.GiveUp?) && a.call < |w.calls| && w.calls[a.call].req.ReleaseReq?
  }

  // No other release is settled.
  ghost predicate Quiet(w: World, acts: seq<Act>)
    requires Legal(w, acts)
    decreases |acts|
  {
    acts != [] ==> !SettlesRelease(w, acts[0]) && Quiet(Do(w, acts[0]), acts[1..])
  }

  ghost predicate CanTry(w: World, rid: Option<Rid>, a: Attempt) {
    && Can(w, SendRelease(a.token, rid))
    && var sent := Do(w, SendRelease(a.token, rid));
       && Legal(sent, a.between) && Quiet(sent, a.between)
       && Can(Run(sent, a.between), Settling(|w.calls|, a.answered))
  }

  function Settling(i: nat, answered: bool): Act {
    if answered then Deliver(i) else GiveUp(i)
  }

  // Just before the retry is settled, and after.
  ghost function Tried(w: World, rid: Option<Rid>, a: Attempt): World
    requires CanTry(w, rid, a)
  {
    Run(Do(w, SendRelease(a.token, rid)), a.between)
  }

  ghost function Try(w: World, rid: Option<Rid>, a: Attempt): World
    requires CanTry(w, rid, a)
  {
    Do(Tried(w, rid, a), Settling(|w.calls|, a.answered))
  }

  // A round retries one token after the other, all under one id.
  ghost predicate IsRound(w: World, rid: Option<Rid>, attempts: seq<Attempt>)
    decreases |attempts|
  {
    attempts != [] ==> CanTry(w, rid, attempts[0]) && IsRound(Try(w, rid, attempts[0]), rid, attempts[1..])
  }

  ghost function RoundEnd(w: World, rid: Option<Rid>, attempts: seq<Attempt>): World
    requires IsRound(w, rid, attempts)
    decreases |attempts|
  {
    if attempts == [] then w else RoundEnd(Try(w, rid, attempts[0]), rid, attempts[1..])
  }

  lemma QuietStep(w: World, a: Act)
    requires Can(w, a) && !SettlesRelease(w, a)
    ensures Do(w, a).outbox == w.outbox
    ensures |w.calls| <= |Do(w, a).calls|
    ensures forall i :: 0 <= i < |w.calls| ==> Do(w, a).calls[i].req == w.calls[i].req
  {
  }

  lemma {:induction false} QuietRun(w: World, acts: seq<Act>)
    requires Legal(w, acts) && Quiet(w, acts)
    ensures Run(w, acts).outbox == w.outbox
    ensures |w.calls| <= |Run(w, acts).calls|
    ensures forall i :: 0 <= i < |w.calls| ==> Run(w, acts).calls[i].req == w.calls[i].req
    decreases |acts|
  {
    if acts != [] {
      QuietStep(w, acts[0]);
      hide Do, Can;
      QuietRun(Do(w, acts[0]), acts[1..]);
    }
  }

  // When a retry is settled its own release is still the request it was, and the outbox what it was.
  lemma TriedIs(w: World, rid: Option<Rid>, a: Attempt)
    requires CanTry(w, rid, a)
    ensures var t := Tried(w, rid, a);
      && t.outbox == w.outbox && |w.calls| < |t.calls| && t.calls[|w.calls|].req == ReleaseReq(a.token, rid)
  {
    var sent := Do(w, SendRelease(a.token, rid));
    assert sent.calls[|w.calls|] == Open(ReleaseReq(a.token, rid)) && sent.outbox == w.outbox;
    hide Do, Can;
    QuietRun(sent, a.between);
  }
}
