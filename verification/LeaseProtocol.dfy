/**
  One daemon's lease client and manager against the router's lease service, over a network that
  delays, loses and never repeats (router/leases.py, daemon/lease_client.py, daemon/manager.py).

  Every HTTP call is an entry of `calls`: the router may process it at any later time, even after the
  client has given up on it, and the client takes the reply at most once or not at all.  The router
  may restart at any time with a fresh reconciliation id and nothing in memory.

  Claim: a token whose release the router has acknowledged never again counts against capacity,
  whatever is in flight.  It holds exactly when the manager never takes into its maps a token whose
  release has already begun; the program does not check that, and `AcknowledgedTokenComesBack` is the
  run that shows it.
*/
module LeaseProtocol {
  import opened Prelude
  import opened Leases

  datatype Req =
    | AcquireReq(base: BaseKey, kinds: set<Kind>, rid: Option<Rid>)
    | ReleaseReq(token: TokenId, rid: Option<Rid>)
    | RegisterReq(active: seq<Snap>, live: seq<Snap>, snapRid: Rid)

  datatype Body =
    | Acquired(grants: Result<Grants, LeaseError>)
    | Released(freed: Result<bool, LeaseError>)
    | Registered(registered: Result<Rid, LeaseError>)

  // Every reply carries the router's current reconciliation id.
  datatype Reply = Reply(body: Body, rid: Rid)

  datatype Call = Call(req: Req, reply: Option<Reply>, waiting: bool, delivered: bool, settled: set<Kind>)

  // A place in the manager's token maps: one active and one live token per session.
  datatype Slot = Slot(session: Id, kind: Kind)

  datatype Held = Held(token: TokenId, activation: Id)

  datatype World = World(
    lim: Limits, ek: EpochKey,
    // router
    ledger: Ledger, nextToken: nat, nextRid: nat,
    // lease client
    clientRid: Option<Rid>, handshook: Option<Rid>, outbox: set<TokenId>, toSend: set<TokenId>,
    // manager
    held: map<Slot, Held>,
    // network
    calls: seq<Call>,
    // history
    minted: map<TokenId, Key>, learned: set<Rid>,
    requested: set<TokenId>, freed: set<TokenId>, acked: set<TokenId>)

  datatype Act =
    | SendAcquire(base: BaseKey, kinds: set<Kind>)
    | SendRelease(token: TokenId, rid: Option<Rid>)
    | SendSnapshot(active: seq<Snap>, live: seq<Snap>, snapRid: Rid)
    | Process(call: nat)
    | Deliver(call: nat)
    | GiveUp(call: nat)
    | MarkHandshook(call: nat)
    | Commit(call: nat, kind: Kind)
    | Rollback(call: nat, kind: Kind)
    | Drop(slot: Slot)
    | RestartRouter
    | OperatorReleasesEpoch(ofEpoch: EpochKey)
    | OtherDaemon(op: Op)

  function Start(lim: Limits, ek: EpochKey): World {
    World(lim, ek, Ledger(0, {}, map[], map[]), 0, 1, None, None, {}, {}, map[], [], map[], {}, {}, {}, {})
  }

  // ---- what each step may do ------------------------------------------------------------------

  // `entries` lists exactly the held tokens of kind k, each under the key it was acquired with.
  ghost predicate Lists(w: World, entries: seq<Snap>, k: Kind) {
    && (forall s :: s in entries ==> exists session :: SnapFor(w, Slot(session, k)) == Some(s))
    && (forall slot :: slot in w.held && slot.kind == k ==> SnapFor(w, slot).value in entries)
  }

  function SnapFor(w: World, slot: Slot): (r: Option<Snap>)
    ensures r.Some? <==> slot in w.held
  {
    if slot !in w.held then None
    else
      var h := w.held[slot];
      Some(Snap(Some(h.token),
                Some(RawKey(w.ek.gen, w.ek.epoch, slot.session, Some(h.activation), Some(slot.kind)))))
  }

  predicate OfOther(op: Op, ek: EpochKey) {
    match op
    case OpAcquire(base, _, _, _) => EpochKey(base.gen, base.epoch) != ek
    case OpRelease(e, _, _) => e != ek
    case OpReleaseEpoch(e) => e != ek
    case OpRegister(e, _, _, _) => e != ek
    case OpSetReconciliationId(_) => false
  }

  predicate Granted(w: World, i: nat, k: Kind) {
    i < |w.calls| && w.calls[i].req.AcquireReq? && w.calls[i].delivered && Unsettled(w.calls[i], k)
  }

  function GrantAt(w: World, i: nat, k: Kind): Grant
    requires Granted(w, i, k)
  {
    w.calls[i].reply.value.body.grants.value[k]
  }

  // An acquire the manager has not finished with: awaited, or answered with tokens it has yet to
  // commit or roll back.
  predicate InHand(c: Call) {
    && c.req.AcquireReq?
    && (c.waiting || (c.delivered && exists k: Kind :: Unsettled(c, k)))
  }

  predicate Unsettled(c: Call, k: Kind) {
    && k !in c.settled
    && c.reply.Some? && c.reply.value.body.Acquired? && c.reply.value.body.grants.Ok?
    && k in c.reply.value.body.grants.value
  }

  // A registration that the router took.
  predicate Accepted(c: Call) {
    c.req.RegisterReq? && c.reply.Some? && c.reply.value.body.Registered? && c.reply.value.body.registered.Ok?
  }

  ghost predicate Can(w: World, a: Act) {
    match a
    case SendAcquire(base, kinds) =>
      // one acquire at a time for a session (the manager's pending-acquire marker)
      && EpochKey(base.gen, base.epoch) == w.ek
      && forall c :: c in w.calls && InHand(c) ==> c.req.base.session != base.session
    case SendRelease(t, rid) => t in w.toSend + w.outbox && (rid == None || rid.value in w.learned)
    case SendSnapshot(active, live, rid) => rid in w.learned && Lists(w, active, Active) && Lists(w, live, Live)
    case Process(i) => i < |w.calls| && w.calls[i].reply == None
    case Deliver(i) => i < |w.calls| && w.calls[i].waiting && w.calls[i].reply.Some?
    case GiveUp(i) => i < |w.calls| && w.calls[i].waiting
    case MarkHandshook(i) => i < |w.calls| && w.calls[i].delivered && Accepted(w.calls[i])
    case Commit(i, k) => Granted(w, i, k)
    case Rollback(i, k) => Granted(w, i, k)
    case Drop(slot) => slot in w.held
    case RestartRouter => true
    case OperatorReleasesEpoch(e) => true
    case OtherDaemon(op) => OfOther(op, w.ek)
  }

  function Answer(w: World, req: Req): (Ledger, Body) {
    match req
    case AcquireReq(base, kinds, rid) =>
      var (l, r) := Acquire(w.ledger, w.lim, base, kinds, rid, NewTokens(w.nextToken, w.nextToken + 1));
      (l, Acquired(r))
    case ReleaseReq(t, rid) =>
      var (l, r) := Release(w.ledger, w.ek, t, rid);
      (l, Released(r))
    case RegisterReq(active, live, rid) =>
      var (l, r) := Register(w.ledger, w.lim, w.ek, rid, active, live);
      (l, Registered(r))
  }

  function Open(req: Req): Call {
    Call(req, None, true, false, {})
  }

  ghost function Do(w: World, a: Act): World
    requires Can(w, a)
  {
    match a
    case SendAcquire(base, kinds) =>
      w.(calls := w.calls + [Open(AcquireReq(base, kinds, w.clientRid))])
    case SendRelease(t, rid) =>
      w.(calls := w.calls + [Open(ReleaseReq(t, rid))], toSend := w.toSend - {t})
    case SendSnapshot(active, live, rid) =>
      w.(calls := w.calls + [Open(RegisterReq(active, live, rid))])
    case Process(i) =>
      var c := w.calls[i];
      var (l, body) := Answer(w, c.req);
      w.(ledger := l, nextToken := w.nextToken + 2,
         calls := w.calls[i := c.(reply := Some(Reply(body, l.rid)))],
         minted := if c.req.AcquireReq? then
                     w.minted[w.nextToken := KeyFor(c.req.base, Active)][w.nextToken + 1 := KeyFor(c.req.base, Live)]
                   else w.minted,
         freed := if body.Released? && body.freed.Ok? then w.freed + {c.req.token} else w.freed)
    case Deliver(i) =>
      var c := w.calls[i];
      var w1 := w.(calls := w.calls[i := c.(waiting := false, delivered := true)],
                   clientRid := Some(c.reply.value.rid), learned := w.learned + {c.reply.value.rid});
      if !c.req.ReleaseReq? then w1
      else if c.reply.value.body.Released? && c.reply.value.body.freed.Ok? then
        w1.(outbox := w.outbox - {c.req.token}, acked := w.acked + {c.req.token})
      else w1.(outbox := w.outbox + {c.req.token})
    case GiveUp(i) =>
      var c := w.calls[i];
      var w1 := w.(calls := w.calls[i := c.(waiting := false)]);
      if c.req.ReleaseReq? then w1.(outbox := w.outbox + {c.req.token}) else w1
    case MarkHandshook(i) =>
      w.(handshook := Some(w.calls[i].req.snapRid))
    case Commit(i, k) =>
      var c := w.calls[i];
      var slot := Slot(c.req.base.session, k);
      var replaced := if slot in w.held then {w.held[slot].token} else {};
      w.(calls := w.calls[i := c.(settled := c.settled + {k})],
         held := w.held[slot := Held(GrantAt(w, i, k).tokenId, c.req.base.activation)],
         requested := w.requested + replaced, toSend := w.toSend + replaced)
    case Rollback(i, k) =>
      var c := w.calls[i];
      var g := GrantAt(w, i, k);
      var undone := if g.isNew then {g.tokenId} else {};
      w.(calls := w.calls[i := c.(settled := c.settled + {k})],
         requested := w.requested + undone, toSend := w.toSend + undone)
    case Drop(slot) =>
      w.(held := w.held - {slot},
         requested := w.requested + {w.held[slot].token}, toSend := w.toSend + {w.held[slot].token})
    case RestartRouter =>
      w.(ledger := Ledger(w.nextRid, {}, map[], map[]), nextRid := w.nextRid + 1)
    case OperatorReleasesEpoch(e) =>
      w.(ledger := ReleaseEpoch(w.ledger, e))
    case OtherDaemon(op) =>
      w.(ledger := Apply(w.ledger, w.lim, op))
  }

  // The token is on its way out: its release has begun, or committing it would begin it because the
  // slot it goes to still holds that same token as the one to replace.
  predicate OnItsWayOut(w: World, i: nat, k: Kind)
    requires Granted(w, i, k)
  {
    var t, slot := GrantAt(w, i, k).tokenId, Slot(w.calls[i].req.base.session, k);
    t in w.requested || (slot in w.held && w.held[slot].token == t)
  }

  // The check the program leaves out: a token on its way out is not taken into the maps.
  ghost predicate Guarded(w: World, a: Act) {
    Can(w, a) && (a.Commit? ==> !OnItsWayOut(w, a.call, a.kind))
  }

  // ---- the invariant ----------------------------------------------------------------------------

  predicate Mentions(entries: seq<Snap>, t: TokenId) {
    exists s :: s in entries && s.Snap? && s.tokenId == Some(t)
  }

  // An unprocessed registration that could still put t back into the router's memory.
  predicate CouldReload(rid: Rid, reconciled: bool, c: Call, t: TokenId) {
    && c.reply == None && c.req.RegisterReq?
    && c.req.snapRid == rid && !reconciled
    && Mentions(c.req.active + c.req.live, t)
  }

  ghost predicate RidsOk(w: World) {
    && w.ledger.rid < w.nextRid
    && (forall r :: r in w.learned ==> r < w.nextRid)
    && (forall c :: c in w.calls && c.req.RegisterReq? ==> c.req.snapRid < w.nextRid)
    && (forall c :: c in w.calls && c.reply.Some? ==> c.reply.value.rid < w.nextRid)
  }

  // Every entry gives a token under the key it was minted for.
  predicate SnapsTrue(entries: seq<Snap>, minted: map<TokenId, Key>) {
    forall s :: s in entries && s.Snap? && s.tokenId.Some? ==>
      && s.tokenId.value in minted
      && var key := minted[s.tokenId.value];
         s.key == Some(RawKey(key.gen, key.epoch, key.session, Some(key.activation), Some(key.kind)))
  }

  predicate GrantsTrue(c: Call, minted: map<TokenId, Key>) {
    c.reply.Some? && c.reply.value.body.Acquired? && c.reply.value.body.grants.Ok? ==>
      && c.req.AcquireReq?
      && forall k :: k in c.reply.value.body.grants.value ==>
           && c.reply.value.body.grants.value[k].tokenId in minted
           && minted[c.reply.value.body.grants.value[k].tokenId] == KeyFor(c.req.base, k)
  }

  predicate CallTrue(c: Call, minted: map<TokenId, Key>, ek: EpochKey) {
    && (c.req.RegisterReq? ==> SnapsTrue(c.req.active, minted) && SnapsTrue(c.req.live, minted))
    && (c.req.AcquireReq? ==> EpochKey(c.req.base.gen, c.req.base.epoch) == ek)
    && GrantsTrue(c, minted)
  }

  ghost predicate TokensOk(w: World) {
    && (forall t :: t in w.minted ==> t < w.nextToken)
    && w.requested <= w.minted.Keys
    && (forall key :: key in w.ledger.leases && EpochOf(key) == w.ek ==>
          w.ledger.leases[key] in w.minted && w.minted[w.ledger.leases[key]] == key)
    && (forall slot :: slot in w.held ==>
          && w.held[slot].token in w.minted
          && w.minted[w.held[slot].token]
             == Key(w.ek.gen, w.ek.epoch, slot.session, w.held[slot].activation, slot.kind))
    && (forall c :: c in w.calls ==> CallTrue(c, w.minted, w.ek))
  }

  ghost predicate FreedStaysFree(w: World) {
    && w.acked <= w.freed <= w.requested
    && (forall key :: key in w.ledger.leases && EpochOf(key) == w.ek ==> w.ledger.leases[key] !in w.freed)
    && (forall c, t :: c in w.calls && t in w.freed ==> !CouldReload(w.ledger.rid, Reconciled(w.ledger, w.ek), c, t))
  }

  ghost predicate Fenced(w: World) {
    forall slot :: slot in w.held ==> w.held[slot].token !in w.requested
  }

  ghost predicate OneLivePerSession(calls: seq<Call>) {
    forall i, j ::
      (&& 0 <= i < |calls| && 0 <= j < |calls| && InHand(calls[i]) && InHand(calls[j])
       && calls[i].req.base.session == calls[j].req.base.session)
      ==> i == j
  }

  // The new tokens of a live acquire are in no map yet, so rolling back is safe.
  ghost predicate NewNotHeld(w: World, c: Call) {
    forall k :: Unsettled(c, k) && c.reply.value.body.grants.value[k].isNew ==>
      forall slot :: slot in w.held ==> w.held[slot].token != c.reply.value.body.grants.value[k].tokenId
  }

  // A release that has begun is acknowledged, or waiting to be sent, sent again or answered.
  ghost predicate Remembered(w: World, t: TokenId) {
    || t in w.acked || t in w.outbox || t in w.toSend
    || exists c :: c in w.calls && c.waiting && c.req.ReleaseReq? && c.req.token == t
  }

  ghost predicate ReleasesOk(w: World) {
    && w.outbox + w.toSend <= w.requested
    && (forall c :: c in w.calls && c.req.ReleaseReq? ==> c.req.token in w.requested)
    && (forall c :: c in w.calls && c.reply.Some? && c.req.ReleaseReq? ==>
          c.reply.value.body.Released? && (c.reply.value.body.freed.Ok? ==> c.req.token in w.freed))
    && (forall t :: t in w.requested ==> Remembered(w, t))
  }

  ghost predicate AcquiresOk(w: World) {
    && OneLivePerSession(w.calls)
    && (forall c :: c in w.calls && InHand(c) ==> NewNotHeld(w, c))
    && (forall c :: c in w.calls && c.delivered ==> !c.waiting && c.reply.Some? && c.reply.value.rid in w.learned)
  }

  ghost predicate Inv(w: World) {
    && RidsOk(w) && TokensOk(w) && FreedStaysFree(w) && Fenced(w) && ReleasesOk(w) && AcquiresOk(w)
  }

  // ---- every step keeps it -----------------------------------------------------------------------

  lemma StartOk(lim: Limits, ek: EpochKey)
    ensures Inv(Start(lim, ek))
  {
  }

  // Appending a call, or replacing one, as seen by a quantifier over calls.
  lemma Appended(calls: seq<Call>, c: Call)
    ensures forall x :: x in calls + [c] <==> x in calls || x == c
  {
  }

  lemma Replaced(calls: seq<Call>, i: nat, c: Call)
    requires i < |calls|
    ensures calls[i] in calls && c in calls[i := c]
    ensures forall x :: x in calls[i := c] ==> x in calls || x == c
    ensures forall x :: x in calls ==> x in calls[i := c] || x == calls[i]
  {
    forall x | x in calls[i := c] ensures x in calls || x == c {
      var j :| 0 <= j < |calls| && calls[i := c][j] == x;
      assert j != i ==> calls[j] == x;
    }
    forall x | x in calls ensures x in calls[i := c] || x == calls[i] {
      var j :| 0 <= j < |calls| && calls[j] == x;
      assert j != i ==> calls[i := c][j] == x;
    }
    assert calls[i := c][i] == c;
  }

  lemma SendAcquireKeeps(w: World, base: BaseKey, kinds: set<Kind>)
    requires Inv(w) && Can(w, SendAcquire(base, kinds))
    ensures Inv(Do(w, SendAcquire(base, kinds)))
  {
    hide RidsOk, TokensOk, FreedStaysFree, Fenced, ReleasesOk, AcquiresOk;
    SendAcquireKeepsTokens(w, base, kinds);
    SendAcquireKeepsRest(w, base, kinds);
  }

  lemma SendAcquireKeepsTokens(w: World, base: BaseKey, kinds: set<Kind>)
    requires Inv(w) && Can(w, SendAcquire(base, kinds))
    ensures RidsOk(Do(w, SendAcquire(base, kinds))) && TokensOk(Do(w, SendAcquire(base, kinds)))
        && Fenced(Do(w, SendAcquire(base, kinds)))
  {
    hide FreedStaysFree, ReleasesOk, AcquiresOk;
    Appended(w.calls, Open(AcquireReq(base, kinds, w.clientRid)));
  }

  lemma SendAcquireKeepsRest(w: World, base: BaseKey, kinds: set<Kind>)
    requires Inv(w) && Can(w, SendAcquire(base, kinds))
    ensures FreedStaysFree(Do(w, SendAcquire(base, kinds))) && ReleasesOk(Do(w, SendAcquire(base, kinds)))
        && AcquiresOk(Do(w, SendAcquire(base, kinds)))
  {
    hide RidsOk, TokensOk;
    Appended(w.calls, Open(AcquireReq(base, kinds, w.clientRid)));
  }

  lemma SendReleaseKeeps(w: World, t: TokenId, rid: Option<Rid>)
    requires Inv(w) && Can(w, SendRelease(t, rid))
    ensures Inv(Do(w, SendRelease(t, rid)))
  {
    hide RidsOk, TokensOk, FreedStaysFree, Fenced, ReleasesOk, AcquiresOk;
    SendReleaseKeepsTokens(w, t, rid);
    SendReleaseKeepsRest(w, t, rid);
  }

  lemma SendReleaseKeepsTokens(w: World, t: TokenId, rid: Option<Rid>)
    requires Inv(w) && Can(w, SendRelease(t, rid))
    ensures RidsOk(Do(w, SendRelease(t, rid))) && TokensOk(Do(w, SendRelease(t, rid)))
        && Fenced(Do(w, SendRelease(t, rid)))
  {
    hide FreedStaysFree, ReleasesOk, AcquiresOk;
    Appended(w.calls, Open(ReleaseReq(t, rid)));
  }

  lemma SendReleaseKeepsRest(w: World, t: TokenId, rid: Option<Rid>)
    requires Inv(w) && Can(w, SendRelease(t, rid))
    ensures FreedStaysFree(Do(w, SendRelease(t, rid))) && ReleasesOk(Do(w, SendRelease(t, rid)))
        && AcquiresOk(Do(w, SendRelease(t, rid)))
  {
    hide RidsOk, TokensOk;
    Appended(w.calls, Open(ReleaseReq(t, rid)));
  }

  lemma SendSnapshotKeeps(w: World, active: seq<Snap>, live: seq<Snap>, rid: Rid)
    requires Inv(w) && Can(w, SendSnapshot(active, live, rid))
    ensures Inv(Do(w, SendSnapshot(active, live, rid)))
  {
    SnapshotNamesHeld(w, active, live);
    hide Lists, Mentions;
    Appended(w.calls, Open(RegisterReq(active, live, rid)));
  }

  lemma SnapshotNamesHeld(w: World, active: seq<Snap>, live: seq<Snap>)
    requires Lists(w, active, Active) && Lists(w, live, Live) && TokensOk(w) && Fenced(w)
    ensures SnapsTrue(active, w.minted) && SnapsTrue(live, w.minted)
    ensures forall t :: t in w.requested ==> !Mentions(active + live, t)
  {
  }

  lemma DropKeeps(w: World, slot: Slot)
    requires Inv(w) && slot in w.held
    ensures Inv(Do(w, Drop(slot)))
  {
  }

  lemma CommitKeeps(w: World, i: nat, k: Kind)
    requires Inv(w) && Granted(w, i, k) && !OnItsWayOut(w, i, k)
    ensures Inv(Do(w, Commit(i, k)))
  {
    hide RidsOk, TokensOk, FreedStaysFree, Fenced, ReleasesOk, AcquiresOk;
    CommitKeepsTokens(w, i, k);
    CommitKeepsRest(w, i, k);
  }

  lemma CommitKeepsTokens(w: World, i: nat, k: Kind)
    requires Inv(w) && Granted(w, i, k) && !OnItsWayOut(w, i, k)
    ensures var w' := Do(w, Commit(i, k)); RidsOk(w') && TokensOk(w') && Fenced(w')
  {
    hide FreedStaysFree, ReleasesOk, AcquiresOk;
    var c := w.calls[i];
    Replaced(w.calls, i, c.(settled := c.settled + {k}));
    assert CallTrue(c, w.minted, w.ek);
  }

  lemma CommitKeepsRest(w: World, i: nat, k: Kind)
    requires Inv(w) && Granted(w, i, k) && !OnItsWayOut(w, i, k)
    ensures var w' := Do(w, Commit(i, k)); FreedStaysFree(w') && ReleasesOk(w') && AcquiresOk(w')
  {
    hide RidsOk, Fenced;
    var c := w.calls[i];
    var c' := c.(settled := c.settled + {k});
    var w' := Do(w, Commit(i, k));
    Replaced(w.calls, i, c');
    assert CallTrue(c, w.minted, w.ek);
    assert InHand(c);
    RememberedAfterSettling(w, i, c', w');
    forall x | x in w'.calls && InHand(x)
      ensures NewNotHeld(w', x)
    {
      assert CallTrue(if x == c' then c else x, w.minted, w.ek);
      var j :| 0 <= j < |w'.calls| && w'.calls[j] == x;
      assert j != i ==> w.calls[j] == x;
    }
  }

  lemma RollbackKeeps(w: World, i: nat, k: Kind)
    requires Inv(w) && Granted(w, i, k)
    ensures Inv(Do(w, Rollback(i, k)))
  {
    var c := w.calls[i];
    var c' := c.(settled := c.settled + {k});
    Replaced(w.calls, i, c');
    assert CallTrue(c, w.minted, w.ek);
    assert InHand(c);
    RememberedAfterSettling(w, i, c', Do(w, Rollback(i, k)));
  }

  // Settling an acquire does not touch any release call.
  lemma RememberedAfterSettling(w: World, i: nat, c': Call, w': World)
    requires forall t :: t in w.requested ==> Remembered(w, t)
    requires i < |w.calls| && w.calls[i].req.AcquireReq?
    requires w'.calls == w.calls[i := c'] && c'.req == w.calls[i].req
    requires w'.acked == w.acked && w'.outbox == w.outbox && w.toSend <= w'.toSend
    ensures forall t :: t in w.requested ==> Remembered(w', t)
  {
    Replaced(w.calls, i, c');
    forall t | t in w.requested ensures Remembered(w', t) {
      assert Remembered(w, t);
      if !(t in w.acked || t in w.outbox || t in w.toSend) {
        var c :| c in w.calls && c.waiting && c.req.ReleaseReq? && c.req.token == t;
        assert c in w'.calls;
      }
    }
  }

  lemma GiveUpKeeps(w: World, i: nat)
    requires Inv(w) && Can(w, GiveUp(i))
    ensures Inv(Do(w, GiveUp(i)))
  {
    hide RidsOk, TokensOk, FreedStaysFree, Fenced, ReleasesOk, AcquiresOk;
    GiveUpKeepsTokens(w, i);
    GiveUpKeepsRest(w, i);
  }

  lemma GiveUpKeepsTokens(w: World, i: nat)
    requires Inv(w) && Can(w, GiveUp(i))
    ensures RidsOk(Do(w, GiveUp(i))) && TokensOk(Do(w, GiveUp(i))) && Fenced(Do(w, GiveUp(i)))
  {
    hide FreedStaysFree, ReleasesOk, AcquiresOk;
    Replaced(w.calls, i, w.calls[i].(waiting := false));
  }

  lemma GiveUpKeepsRest(w: World, i: nat)
    requires Inv(w) && Can(w, GiveUp(i))
    ensures FreedStaysFree(Do(w, GiveUp(i))) && ReleasesOk(Do(w, GiveUp(i))) && AcquiresOk(Do(w, GiveUp(i)))
  {
    hide RidsOk, TokensOk;
    var c' := w.calls[i].(waiting := false);
    Replaced(w.calls, i, c');
    RememberedAfterClosing(w, i, c', Do(w, GiveUp(i)));
  }

  lemma DeliverKeeps(w: World, i: nat)
    requires Inv(w) && Can(w, Deliver(i))
    ensures Inv(Do(w, Deliver(i)))
  {
    hide RidsOk, TokensOk, FreedStaysFree, Fenced, ReleasesOk, AcquiresOk;
    DeliverKeepsTokens(w, i);
    DeliverKeepsRest(w, i);
  }

  lemma DeliverKeepsTokens(w: World, i: nat)
    requires Inv(w) && Can(w, Deliver(i))
    ensures RidsOk(Do(w, Deliver(i))) && TokensOk(Do(w, Deliver(i))) && Fenced(Do(w, Deliver(i)))
  {
    hide FreedStaysFree, ReleasesOk, AcquiresOk;
    var c := w.calls[i];
    Replaced(w.calls, i, c.(waiting := false, delivered := true));
  }

  lemma DeliverKeepsRest(w: World, i: nat)
    requires Inv(w) && Can(w, Deliver(i))
    ensures FreedStaysFree(Do(w, Deliver(i))) && ReleasesOk(Do(w, Deliver(i))) && AcquiresOk(Do(w, Deliver(i)))
  {
    hide RidsOk, TokensOk;
    var c := w.calls[i];
    var c' := c.(waiting := false, delivered := true);
    Replaced(w.calls, i, c');
    RememberedAfterClosing(w, i, c', Do(w, Deliver(i)));
  }

  lemma RememberedAfterClosing(w: World, i: nat, c': Call, w': World)
    requires forall t :: t in w.requested ==> Remembered(w, t)
    requires i < |w.calls| && w'.calls == w.calls[i := c'] && c'.req == w.calls[i].req
    requires w.acked <= w'.acked && w.toSend == w'.toSend && w.outbox <= w'.outbox + w'.acked
    requires c'.req.ReleaseReq? ==> c'.req.token in w'.outbox + w'.acked
    ensures forall t :: t in w.requested ==> Remembered(w', t)
  {
    Replaced(w.calls, i, c');
    forall t | t in w.requested ensures Remembered(w', t) {
      assert Remembered(w, t);
      if !(t in w.acked || t in w.outbox || t in w.toSend) {
        var c :| c in w.calls && c.waiting && c.req.ReleaseReq? && c.req.token == t;
        if c != w.calls[i] { assert c in w'.calls; }
      }
    }
  }

  lemma RestartKeeps(w: World)
    requires Inv(w)
    ensures Inv(Do(w, RestartRouter))
  {
  }

  lemma OperatorKeeps(w: World, e: EpochKey)
    requires Inv(w)
    ensures Inv(Do(w, OperatorReleasesEpoch(e)))
  {
  }

  ghost predicate EpochKept(l: Ledger, l': Ledger, ek: EpochKey) {
    && l'.rid == l.rid
    && (Reconciled(l', ek) <==> Reconciled(l, ek))
    && (forall key :: key in l'.leases && EpochOf(key) == ek ==> key in l.leases && l'.leases[key] == l.leases[key])
  }

  lemma SnapshotInEpoch(active: seq<Snap>, live: seq<Snap>, e: EpochKey)
    requires SnapshotOk(active, live, e)
    ensures forall key :: key in Snapshot(active, live, e) ==> EpochOf(key) == e
  {
    SnapshotLoads(active, live, e);
  }

  lemma OtherRegisters(l: Ledger, lim: Limits, e: EpochKey, rid: Rid, active: seq<Snap>, live: seq<Snap>, ek: EpochKey)
    requires e != ek
    ensures EpochKept(l, Register(l, lim, e, rid, active, live).0, ek)
  {
    hide BatchOk, Distinct, Snapshot, OfKind;
    if SnapshotOk(active, live, e) {
      SnapshotInEpoch(active, live, e);
    }
  }

  lemma OtherLeavesEpoch(l: Ledger, lim: Limits, op: Op, ek: EpochKey)
    requires OfOther(op, ek)
    ensures EpochKept(l, Apply(l, lim, op), ek)
  {
    match op
    case OpRegister(e, rid, active, live) =>
      hide Register;
      OtherRegisters(l, lim, e, rid, active, live, ek);
    case _ =>
      hide Register;
  }

  lemma OtherKeeps(w: World, op: Op)
    requires Inv(w) && OfOther(op, w.ek)
    ensures Inv(Do(w, OtherDaemon(op)))
  {
    hide Apply, OfOther;
    OtherLeavesEpoch(w.ledger, w.lim, op, w.ek);
  }

  // ---- the router answers a call ----

  // What answering can do to the ledger, as seen from the daemon's epoch.
  ghost predicate EpochLeases(w: World, c: Call, l: Ledger) {
    forall key :: key in l.leases && EpochOf(key) == w.ek ==>
      || (key in w.ledger.leases && l.leases[key] == w.ledger.leases[key])
      || (c.req.AcquireReq? && key == KeyFor(c.req.base, key.kind)
          && l.leases[key] == NewTokens(w.nextToken, w.nextToken + 1).Of(key.kind))
      || (c.req.RegisterReq? && c.req.snapRid == w.ledger.rid && !Reconciled(w.ledger, w.ek)
          && ListedIn(c.req.active + c.req.live, key, l.leases[key]))
  }

  lemma AnswerLeases(w: World, c: Call)
    ensures var (l, body) := Answer(w, c.req);
      && EpochLeases(w, c, l)
      && l.rid == w.ledger.rid
      && (Reconciled(w.ledger, w.ek) ==> Reconciled(l, w.ek))
  {
    match c.req
    case AcquireReq(base, kinds, rid) =>
    case ReleaseReq(t, rid) =>
    case RegisterReq(active, live, rid) => RegisterLeases(w, c);
  }

  lemma RegisterLeases(w: World, c: Call)
    requires c.req.RegisterReq?
    ensures EpochLeases(w, c, Register(w.ledger, w.lim, w.ek, c.req.snapRid, c.req.active, c.req.live).0)
  {
    hide BatchOk, Distinct, Snapshot, ListedIn, OneKeyPerToken, OfKind;
    if SnapshotOk(c.req.active, c.req.live, w.ek) {
      SnapshotLoads(c.req.active, c.req.live, w.ek);
    }
  }

  lemma ReleaseAnswer(w: World, c: Call)
    requires c.req.ReleaseReq?
    ensures var (l, body) := Answer(w, c.req);
      && body.Released?
      && (body.freed.Ok? ==>
            && Reconciled(w.ledger, w.ek) && HeldBy(l.leases, w.ek, c.req.token) == {}
            && (forall key :: key in l.leases ==> key in w.ledger.leases && l.leases[key] == w.ledger.leases[key]))
  {
  }

  lemma AcquireAnswer(w: World, c: Call)
    requires c.req.AcquireReq?
    ensures var body := Answer(w, c.req).1;
      && body.Acquired?
      && (body.grants.Ok? ==> forall k :: k in body.grants.value ==>
            var g := body.grants.value[k];
            if g.isNew then g.tokenId == NewTokens(w.nextToken, w.nextToken + 1).Of(k)
            else KeyFor(c.req.base, k) in w.ledger.leases && g.tokenId == w.ledger.leases[KeyFor(c.req.base, k)])
  {
  }

  function Answered(w: World, i: nat): Call
    requires i < |w.calls|
  {
    w.calls[i].(reply := Some(Reply(Answer(w, w.calls[i].req).1, Answer(w, w.calls[i].req).0.rid)))
  }

  lemma ListedTrue(active: seq<Snap>, live: seq<Snap>, minted: map<TokenId, Key>, key: Key, t: TokenId)
    requires SnapsTrue(active, minted) && SnapsTrue(live, minted) && ListedIn(active + live, key, t)
    ensures t in minted && minted[t] == key && Mentions(active + live, t)
  {
  }

  // Every lease of the epoch after the router answers is an old one, a new one or one the snapshot lists.
  lemma AnswerMinted(w: World, c: Call, key: Key)
    requires TokensOk(w) && c in w.calls
    requires var l := Answer(w, c.req).0; EpochLeases(w, c, l) && key in l.leases && EpochOf(key) == w.ek
    ensures var t := Answer(w, c.req).0.leases[key];
      if t in w.minted then w.minted[t] == key
      else
        && c.req.AcquireReq? && key == KeyFor(c.req.base, key.kind)
        && t == NewTokens(w.nextToken, w.nextToken + 1).Of(key.kind)
    ensures var t := Answer(w, c.req).0.leases[key];
      || (key in w.ledger.leases && t == w.ledger.leases[key]) || t !in w.minted
      || (c.req.RegisterReq? && c.req.snapRid == w.ledger.rid && !Reconciled(w.ledger, w.ek)
          && Mentions(c.req.active + c.req.live, t))
  {
    hide Answer, SnapsTrue, Mentions, ListedIn;
    var t := Answer(w, c.req).0.leases[key];
    assert CallTrue(c, w.minted, w.ek);
    if c.req.RegisterReq? && ListedIn(c.req.active + c.req.live, key, t) {
      ListedTrue(c.req.active, c.req.live, w.minted, key, t);
    }
  }

  lemma MintedGrows(calls: seq<Call>, minted: map<TokenId, Key>, minted': map<TokenId, Key>, ek: EpochKey)
    requires forall t :: t in minted ==> t in minted' && minted'[t] == minted[t]
    requires forall c :: c in calls ==> CallTrue(c, minted, ek)
    ensures forall c :: c in calls ==> CallTrue(c, minted', ek)
  {
    forall c | c in calls
      ensures CallTrue(c, minted', ek)
    {
      assert CallTrue(c, minted, ek);
    }
  }

  lemma AnsweredTrue(w: World, i: nat)
    requires TokensOk(w) && Can(w, Process(i))
    ensures CallTrue(Answered(w, i), Do(w, Process(i)).minted, w.ek)
  {
    hide Answer;
    var c, w' := w.calls[i], Do(w, Process(i));
    assert CallTrue(c, w.minted, w.ek);
    assert c in w.calls;
    MintedGrows(w.calls, w.minted, w'.minted, w.ek);
    BodyMatches(w, c.req);
    if c.req.AcquireReq? { AcquireAnswer(w, c); }
  }

  lemma ProcessTokens(w: World, i: nat)
    requires Inv(w) && Can(w, Process(i))
    ensures RidsOk(Do(w, Process(i))) && TokensOk(Do(w, Process(i))) && Fenced(Do(w, Process(i)))
  {
    hide Answer, FreedStaysFree, ReleasesOk, AcquiresOk, EpochLeases, CallTrue;
    var c := w.calls[i];
    Replaced(w.calls, i, Answered(w, i));
    AnswerLeases(w, c);
    var l, w' := Answer(w, c.req).0, Do(w, Process(i));
    forall key | key in l.leases && EpochOf(key) == w.ek
      ensures l.leases[key] in w'.minted && w'.minted[l.leases[key]] == key
    {
      AnswerMinted(w, c, key);
    }
    MintedGrows(w.calls, w.minted, w'.minted, w.ek);
    AnsweredTrue(w, i);
  }

  lemma BodyMatches(w: World, req: Req)
    ensures var body := Answer(w, req).1;
      && (body.Acquired? <==> req.AcquireReq?) && (body.Released? <==> req.ReleaseReq?)
  {
  }

  lemma ProcessFreed(w: World, i: nat)
    requires Inv(w) && Can(w, Process(i))
    ensures FreedStaysFree(Do(w, Process(i)))
  {
    hide Answer, RidsOk, AcquiresOk, Fenced, EpochLeases, SnapsTrue, Mentions, CallTrue;
    var c := w.calls[i];
    Replaced(w.calls, i, Answered(w, i));
    AnswerLeases(w, c);
    var l, w' := Answer(w, c.req).0, Do(w, Process(i));
    forall key | key in l.leases && EpochOf(key) == w.ek
      ensures l.leases[key] !in w.freed
    {
      AnswerMinted(w, c, key);
      assert !CouldReload(w.ledger.rid, Reconciled(w.ledger, w.ek), c, l.leases[key]) || l.leases[key] !in w.freed;
    }
    BodyMatches(w, c.req);
    if c.req.ReleaseReq? {
      ReleaseAnswer(w, c);
      assert forall key :: key in l.leases && EpochOf(key) == w.ek && l.leases[key] == c.req.token ==>
        key in HeldBy(l.leases, w.ek, c.req.token);
    }
  }

  lemma ProcessReleases(w: World, i: nat)
    requires Inv(w) && Can(w, Process(i))
    ensures ReleasesOk(Do(w, Process(i))) && AcquiresOk(Do(w, Process(i)))
  {
    hide Answer, RidsOk, FreedStaysFree, Fenced;
    var c := w.calls[i];
    Replaced(w.calls, i, Answered(w, i));
    if c.req.AcquireReq? { AcquireAnswer(w, c); }
    if c.req.ReleaseReq? { ReleaseAnswer(w, c); }
    BodyMatches(w, c.req);
  }

  lemma StepKeeps(w: World, a: Act)
    requires Inv(w) && Guarded(w, a)
    ensures Inv(Do(w, a))
  {
    hide Inv, Do;
    match a
    case SendAcquire(base, kinds) => SendAcquireKeeps(w, base, kinds);
    case SendRelease(t, rid) => SendReleaseKeeps(w, t, rid);
    case SendSnapshot(active, live, rid) => SendSnapshotKeeps(w, active, live, rid);
    case Process(i) => ProcessKeeps(w, i);
    case Deliver(i) => DeliverKeeps(w, i);
    case GiveUp(i) => GiveUpKeeps(w, i);
    case MarkHandshook(i) => MarkKeeps(w, i);
    case Commit(i, k) => CommitKeeps(w, i, k);
    case Rollback(i, k) => RollbackKeeps(w, i, k);
    case Drop(slot) => DropKeeps(w, slot);
    case RestartRouter => RestartKeeps(w);
    case OperatorReleasesEpoch(e) => OperatorKeeps(w, e);
    case OtherDaemon(op) => OtherKeeps(w, op);
  }

  lemma MarkKeeps(w: World, i: nat)
    requires Inv(w) && Can(w, MarkHandshook(i))
    ensures Inv(Do(w, MarkHandshook(i)))
  {
  }

  lemma ProcessKeeps(w: World, i: nat)
    requires Inv(w) && Can(w, Process(i))
    ensures Inv(Do(w, Process(i)))
  {
    hide Do, RidsOk, TokensOk, FreedStaysFree, Fenced, ReleasesOk, AcquiresOk;
    ProcessTokens(w, i);
    ProcessFreed(w, i);
    ProcessReleases(w, i);
  }

  // ---- whole runs --------------------------------------------------------------------------------

  ghost predicate GuardedRun(w: World, acts: seq<Act>)
    decreases |acts|
  {
    acts != [] ==> Guarded(w, acts[0]) && GuardedRun(Do(w, acts[0]), acts[1..])
  }

  ghost function After(w: World, acts: seq<Act>): World
    requires GuardedRun(w, acts)
    decreases |acts|
  {
    if acts == [] then w else After(Do(w, acts[0]), acts[1..])
  }

  ghost predicate Reaches(w: World, w': World) {
    exists acts :: GuardedRun(w, acts) && After(w, acts) == w'
  }

  // Token t counts against the service's capacity.
  ghost predicate Counts(w: World, t: TokenId) {
    exists key :: key in w.ledger.leases && EpochOf(key) == w.ek && w.ledger.leases[key] == t
  }

  ghost predicate Safe(w: World) {
    forall t :: t in w.acked ==> !Counts(w, t)
  }

  lemma {:induction false} RunKeeps(w: World, acts: seq<Act>)
    requires Inv(w) && GuardedRun(w, acts)
    ensures Inv(After(w, acts))
    decreases |acts|
  {
    hide Inv, Do, Can;
    if acts != [] {
      StepKeeps(w, acts[0]);
      RunKeeps(Do(w, acts[0]), acts[1..]);
    }
  }

  // However calls are delayed, lost or retried, however often the router restarts: a token whose
  // release was acknowledged counts no more, and a release once begun is never forgotten.
  lemma AcknowledgedNeverCountsAgain(lim: Limits, ek: EpochKey, acts: seq<Act>)
    requires GuardedRun(Start(lim, ek), acts)
    ensures var w := After(Start(lim, ek), acts);
      && (forall t :: t in w.acked ==> !Counts(w, t))
      && (forall t :: t in w.requested ==> Remembered(w, t))
  {
    StartOk(lim, ek);
    RunKeeps(Start(lim, ek), acts);
  }

  // ---- the guard is exactly what is needed --------------------------------------------------------

  lemma ReachOne(w: World, a: Act)
    requires Guarded(w, a)
    ensures Reaches(w, Do(w, a))
  {
    hide Can, Do;
    assert [a][1..] == [];
    assert GuardedRun(Do(w, a), []);
    assert GuardedRun(w, [a]) && After(w, [a]) == Do(w, a);
  }

  lemma {:induction false} RunAppend(w: World, s: seq<Act>, t: seq<Act>)
    requires GuardedRun(w, s) && GuardedRun(After(w, s), t)
    ensures GuardedRun(w, s + t) && After(w, s + t) == After(After(w, s), t)
    decreases |s|
  {
    hide Can, Do;
    if s == [] {
      assert s + t == t;
    } else {
      RunAppend(Do(w, s[0]), s[1..], t);
      assert (s + t)[1..] == s[1..] + t;
    }
  }

  lemma ReachTrans(a: World, b: World, c: World)
    requires Reaches(a, b) && Reaches(b, c)
    ensures Reaches(a, c)
  {
    hide Can, Do;
    var s :| GuardedRun(a, s) && After(a, s) == b;
    var t :| GuardedRun(b, t) && After(b, t) == c;
    RunAppend(a, s, t);
  }

  lemma DropOthers(w: World, slot: Slot) returns (w': World)
    requires slot in w.held
    ensures Reaches(w, w')
    ensures w.requested <= w'.requested && w.toSend <= w'.toSend
    ensures w' == w.(held := map[slot := w.held[slot]], requested := w'.requested, toSend := w'.toSend)
    decreases |w.held|
  {
    if other :| other in w.held && other != slot {
      var w1 := Do(w, Drop(other));
      ReachOne(w, Drop(other));
      assert w.held.Keys - {other} == w1.held.Keys;
      w' := DropOthers(w1, slot);
      ReachTrans(w, w1, w');
    } else {
      w' := w;
      assert GuardedRun(w, []) && After(w, []) == w;
      assert w.held == map[slot := w.held[slot]];
    }
  }

  function Key5(w: World, slot: Slot, h: Held): Key {
    Key(w.ek.gen, w.ek.epoch, slot.session, h.activation, slot.kind)
  }

  // The one-entry snapshot of a manager that holds only this slot.
  function OnlyActive(w: World, slot: Slot): seq<Snap>
    requires slot in w.held
  {
    if slot.kind == Active then [SnapFor(w, slot).value] else []
  }

  function OnlyLive(w: World, slot: Slot): seq<Snap>
    requires slot in w.held
  {
    if slot.kind == Live then [SnapFor(w, slot).value] else []
  }

  // Send the snapshot under `rid` and let the router process it.
  lemma Register1(w: World, slot: Slot, rid: Rid) returns (w': World)
    requires w.held.Keys == {slot} && rid in w.learned
    ensures Reaches(w, w')
    ensures var req := RegisterReq(OnlyActive(w, slot), OnlyLive(w, slot), rid);
      var (l, body) := Answer(w, req);
      w' == w.(ledger := l, nextToken := w.nextToken + 2,
               calls := w.calls + [Open(req).(reply := Some(Reply(body, l.rid)))])
  {
    hide Answer;
    var a, v := OnlyActive(w, slot), OnlyLive(w, slot);
    assert Lists(w, a, Active) && Lists(w, v, Live) by {
      assert forall s :: s in a ==> SnapFor(w, Slot(slot.session, Active)) == Some(s);
      assert forall s :: s in v ==> SnapFor(w, Slot(slot.session, Live)) == Some(s);
    }
    var w1 := Do(w, SendSnapshot(a, v, rid));
    ReachOne(w, SendSnapshot(a, v, rid));
    w' := Do(w1, Process(|w.calls|));
    ReachOne(w1, Process(|w.calls|));
    ReachTrans(w, w1, w');
    BodyMatches(w, w1.calls[|w.calls|].req);
    AnswerSame(w, w1, w1.calls[|w.calls|].req);
  }

  lemma AnswerSame(w: World, w1: World, req: Req)
    requires w.ledger == w1.ledger && w.lim == w1.lim && w.ek == w1.ek && w.nextToken == w1.nextToken
    ensures Answer(w, req) == Answer(w1, req)
  {
  }

  lemma StaleAnswer(w: World, active: seq<Snap>, live: seq<Snap>, rid: Rid)
    requires rid != w.ledger.rid
    ensures Answer(w, RegisterReq(active, live, rid)) == (w.ledger, Registered(Err(StaleReconciliationId)))
  {
  }

  // A router with nothing in memory accepts the one-entry snapshot and counts its token.
  lemma FreshAnswer(w: World, slot: Slot)
    requires w.held.Keys == {slot} && 1 <= w.lim.Of(slot.kind)
    requires w.ledger.leases == map[] && w.ledger.reconciled == map[]
    ensures var l := Answer(w, RegisterReq(OnlyActive(w, slot), OnlyLive(w, slot), w.ledger.rid)).0;
      && l.rid == w.ledger.rid && Reconciled(l, w.ek)
      && l.leases == map[Key5(w, slot, w.held[slot]) := w.held[slot].token]
  {
    hide BatchOk, Distinct, Snapshot, OfKind, InEpoch, SnapshotOk;
    var a, v := OnlyActive(w, slot), OnlyLive(w, slot);
    OneEntrySnapshot(w, slot);
    var none: LeaseMap := map[];
    NothingCounted(w.ek);
    assert none - InEpoch(none, w.ek) == none;
    assert none + Snapshot(a, v, w.ek) == Snapshot(a, v, w.ek);
  }

  lemma NothingCounted(ek: EpochKey)
    ensures OfKind(map[], Active) == {} && OfKind(map[], Live) == {}
  {
  }

  lemma OneEntrySnapshot(w: World, slot: Slot)
    requires w.held.Keys == {slot}
    ensures var a, v := OnlyActive(w, slot), OnlyLive(w, slot);
      && SnapshotOk(a, v, w.ek) && BatchOk(a, Active, w.ek) && BatchOk(v, Live, w.ek)
      && Snapshot(a, v, w.ek) == map[Key5(w, slot, w.held[slot]) := w.held[slot].token]
  {
    var a, v := OnlyActive(w, slot), OnlyLive(w, slot);
    var s := SnapFor(w, slot).value;
    assert a + v == [s];
    assert SnapOk(s, slot.kind, w.ek) && StoredKey(s) == Key5(w, slot, w.held[slot]);
    LoadOne(s, slot.kind, w.ek);
    hide StoredKey, SnapFor;
    var none: LeaseMap := map[];
    var one := Loaded([s], slot.kind, w.ek);
    assert one + none == one && none + one == one;
  }

  lemma LoadOne(s: Snap, k: Kind, ek: EpochKey)
    requires SnapOk(s, k, ek)
    ensures BatchOk([s], k, ek) && Loaded([s], k, ek) == map[StoredKey(s) := s.tokenId.value]
    ensures Loaded([], Active, ek) == map[] && Loaded([], Live, ek) == map[]
  {
    hide StoredKey;
    assert [s][..0] == [];
    var none: LeaseMap := map[];
    assert none[StoredKey(s) := s.tokenId.value] == map[StoredKey(s) := s.tokenId.value];
  }

  ghost predicate Reloaded(w: World, w': World, slot: Slot)
    requires slot in w.held
  {
    && Reaches(w, w')
    && w' == w.(ledger := w'.ledger, nextToken := w'.nextToken, nextRid := w'.nextRid, calls := w'.calls,
                clientRid := w'.clientRid, learned := w'.learned)
    && w.learned <= w'.learned && w.nextRid <= w'.nextRid
    && |w.calls| <= |w'.calls| && w'.calls[..|w.calls|] == w.calls
    && w'.ledger.rid in w'.learned && Reconciled(w'.ledger, w.ek)
    && Key5(w, slot, w.held[slot]) in w'.ledger.leases
    && w'.ledger.leases[Key5(w, slot, w.held[slot])] == w.held[slot].token
  }

  // The router restarts, the client learns its new id from a refused registration, and registers.
  lemma Reload(w: World, slot: Slot, known: Rid) returns (w': World)
    requires w.held.Keys == {slot} && 1 <= w.lim.Of(slot.kind)
    requires known in w.learned && known < w.nextRid
    ensures Reloaded(w, w', slot)
  {
    hide Answer, Reaches, Reconciled, Lists;
    var n := |w.calls|;
    var w1 := Do(w, RestartRouter);
    ReachOne(w, RestartRouter);
    var w2 := Register1(w1, slot, known);
    StaleAnswer(w1, OnlyActive(w1, slot), OnlyLive(w1, slot), known);
    var w3 := Do(w2, Deliver(n));
    ReachOne(w2, Deliver(n));
    assert w3.learned == w.learned + {w1.ledger.rid};
    w' := Register1(w3, slot, w1.ledger.rid);
    FreshAnswer(w3, slot);
    ReachTrans(w, w1, w2);
    ReachTrans(w, w2, w3);
    ReachTrans(w, w3, w');
  }

  // A release that is still remembered can be brought to its acknowledgement by a registered router.
  lemma Acknowledge(w: World, t: TokenId) returns (w': World)
    requires w.ledger.rid in w.learned && Reconciled(w.ledger, w.ek) && Remembered(w, t)
    ensures Reaches(w, w') && t in w'.acked
    ensures w'.held == w.held && w'.lim == w.lim && w'.ek == w.ek
    ensures w.learned <= w'.learned && w'.nextRid == w.nextRid
  {
    if t in w.acked {
      assert GuardedRun(w, []) && After(w, []) == w;
      return w;
    }
    hide Reaches, Lists;
    var w1 := w;
    if t !in w.outbox + w.toSend {
      var c :| c in w.calls && c.waiting && c.req.ReleaseReq? && c.req.token == t;
      var j :| 0 <= j < |w.calls| && w.calls[j] == c;
      w1 := Do(w, GiveUp(j));
      ReachOne(w, GiveUp(j));
    } else {
      Stay(w);
    }
    w' := SendAndAcknowledge(w1, t);
    ReachTrans(w, w1, w');
  }

  lemma SendAndAcknowledge(w: World, t: TokenId) returns (w': World)
    requires w.ledger.rid in w.learned && Reconciled(w.ledger, w.ek) && t in w.outbox + w.toSend
    ensures Reaches(w, w') && t in w'.acked
    ensures w'.held == w.held && w'.lim == w.lim && w'.ek == w.ek
    ensures w.learned <= w'.learned && w'.nextRid == w.nextRid
  {
    hide Reaches, Lists;
    var n := |w.calls|;
    var send := SendRelease(t, Some(w.ledger.rid));
    var w2 := Do(w, send);
    ReachOne(w, send);
    var w3 := Do(w2, Process(n));
    ReachOne(w2, Process(n));
    w' := Do(w3, Deliver(n));
    ReachOne(w3, Deliver(n));
    ReachTrans(w, w2, w3);
    ReachTrans(w, w3, w');
  }

  lemma Stay(w: World)
    ensures Reaches(w, w)
  {
    assert GuardedRun(w, []) && After(w, []) == w;
  }

  // Once a token on its way out sits in the maps, two restarts bring it back after its
  // acknowledgement.
  lemma HeldOnItsWayOutComesBack(w: World, slot: Slot, known: Rid) returns (w': World)
    requires slot in w.held && 1 <= w.lim.Of(slot.kind)
    requires Remembered(w, w.held[slot].token) && known in w.learned && known < w.nextRid
    ensures Reaches(w, w') && !Safe(w')
  {
    hide Reaches;
    var t := w.held[slot].token;
    var w1 := DropOthers(w, slot);
    var w2 := Reload(w1, slot, known);
    assert Remembered(w2, t) by {
      if !(t in w1.acked || t in w1.outbox || t in w1.toSend) {
        var c :| c in w1.calls && c.waiting && c.req.ReleaseReq? && c.req.token == t;
        assert c in w2.calls[..|w1.calls|];
      }
    }
    var w3 := Acknowledge(w2, t);
    w' := Reload(w3, slot, known);
    ReachTrans(w, w1, w2);
    ReachTrans(w, w2, w3);
    ReachTrans(w, w3, w');
    assert Counts(w', t);
  }

  // Committing a granted token keeps every later run safe exactly when the token is not on its way out.
  lemma CommitIsSafeExactlyWhenNotOnItsWayOut(w: World, i: nat, k: Kind)
    requires Inv(w) && Granted(w, i, k) && 1 <= w.lim.Of(k)
    ensures !OnItsWayOut(w, i, k) <==>
            forall w' :: Reaches(Do(w, Commit(i, k)), w') ==> Safe(w')
  {
    var w1 := Do(w, Commit(i, k));
    if !OnItsWayOut(w, i, k) {
      CommitKeeps(w, i, k);
      forall w' | Reaches(w1, w')
        ensures Safe(w')
      {
        var acts :| GuardedRun(w1, acts) && After(w1, acts) == w';
        RunKeeps(w1, acts);
      }
    } else {
      var c := w.calls[i];
      var slot := Slot(c.req.base.session, k);
      RememberedAfterSettling(w, i, c.(settled := c.settled + {k}), w1);
      assert Remembered(w1, w1.held[slot].token);
      var w' := HeldOnItsWayOutComesBack(w1, slot, c.reply.value.rid);
    }
  }

  // ---- the program can get there -------------------------------------------------------------------

  // A new token is rolled back, its release is lost, and the same key is asked for again: the router
  // hands out the token that is waiting in the outbox.
  lemma ReachesOutboxToken(lim: Limits, ek: EpochKey) returns (w: World)
    requires 1 <= lim.active
    ensures Reaches(Start(lim, ek), w)
    ensures Granted(w, 4, Active) && OnItsWayOut(w, 4, Active) && w.lim == lim
  {
    hide Reaches;
    var base := BaseKey(ek.gen, ek.epoch, 0, 0);
    var w0 := Start(lim, ek);
    // a refused acquire tells the client the router's id
    var w1 := Do(w0, SendAcquire(base, {Active}));
    ReachOne(w0, SendAcquire(base, {Active}));
    var w2 := Do(w1, Process(0));
    ReachOne(w1, Process(0));
    var w3 := Do(w2, Deliver(0));
    ReachOne(w2, Deliver(0));
    ReachTrans(w0, w1, w2);
    ReachTrans(w0, w2, w3);
    assert w3.calls == [Call(AcquireReq(base, {Active}, None),
                             Some(Reply(Acquired(Err(StaleReconciliationId)), 0)), false, true, {})];
    assert w3 == w0.(calls := w3.calls, nextToken := 2, minted := w3.minted, clientRid := Some(0), learned := {0});
    var w5 := RegisterNothing(w3);
    ReachTrans(w0, w3, w5);
    var w10 := LoseRelease(w5, base);
    ReachTrans(w0, w5, w10);
    w := AskAgain(w10, base);
    ReachTrans(w0, w10, w);
  }

  ghost predicate Idle(w: World) {
    forall c :: c in w.calls ==> !InHand(c)
  }

  lemma RegisterNothing(w: World) returns (w': World)
    requires w.held == map[] && w.ledger == Ledger(0, {}, map[], map[]) && w.learned == {0} && |w.calls| == 1 && Idle(w)
    ensures Reaches(w, w') && Reconciled(w'.ledger, w.ek) && w'.ledger.rid == 0 && w'.ledger.leases == map[]
    ensures w' == w.(ledger := w'.ledger, nextToken := w.nextToken + 2, calls := w'.calls)
    ensures |w'.calls| == 2 && Idle(w')
  {
    hide Reaches;
    var w1 := Do(w, SendSnapshot([], [], 0));
    ReachOne(w, SendSnapshot([], [], 0));
    w' := Do(w1, Process(1));
    ReachOne(w1, Process(1));
    ReachTrans(w, w1, w');
    EmptyRegisters(w);
  }

  lemma EmptyRegisters(w: World)
    requires w.ledger == Ledger(0, {}, map[], map[])
    ensures var l := Answer(w, RegisterReq([], [], 0)).0;
      l.rid == 0 && Reconciled(l, w.ek) && l.leases == map[]
  {
    var none: LeaseMap := map[];
    assert none - InEpoch(none, w.ek) == none;
    assert OfKind(none, Active) == {} && OfKind(none, Live) == {};
    assert SnapshotOk([], [], w.ek);
    assert Loaded([], Active, w.ek) == map[] && Loaded([], Live, w.ek) == map[];
  }

  lemma GrantNew(w: World, base: BaseKey) returns (w': World)
    requires EpochKey(base.gen, base.epoch) == w.ek && 1 <= w.lim.active
    requires w.ledger.rid == 0 && Reconciled(w.ledger, w.ek) && w.ledger.leases == map[] && w.clientRid == Some(0)
    requires |w.calls| == 2 && Idle(w) && w.learned == {0}
    ensures Reaches(w, w') && w'.lim == w.lim && w'.ek == w.ek && w'.clientRid == Some(0) && w'.learned == {0}
    ensures w'.ledger.rid == 0 && Reconciled(w'.ledger, w.ek)
    ensures w'.ledger.leases == map[KeyFor(base, Active) := w.nextToken]
    ensures |w'.calls| == 3 && w'.calls[..2] == w.calls && !w'.calls[2].waiting
    ensures Granted(w', 2, Active) && GrantAt(w', 2, Active) == Grant(w.nextToken, true)
    ensures w'.calls[2].reply.value.body.grants.value.Keys == {Active}
  {
    hide Reaches;
    var send := SendAcquire(base, {Active});
    var w1 := Do(w, send);
    ReachOne(w, send);
    assert OfKind(w.ledger.leases, Active) == {};
    var w2 := Do(w1, Process(2));
    ReachOne(w1, Process(2));
    w' := Do(w2, Deliver(2));
    ReachOne(w2, Deliver(2));
    ReachTrans(w, w1, w2);
    ReachTrans(w, w2, w');
  }

  lemma LoseRelease(w: World, base: BaseKey) returns (w': World)
    requires EpochKey(base.gen, base.epoch) == w.ek && 1 <= w.lim.active
    requires w.ledger.rid == 0 && Reconciled(w.ledger, w.ek) && w.ledger.leases == map[] && w.clientRid == Some(0)
    requires |w.calls| == 2 && Idle(w) && w.learned == {0}
    ensures Reaches(w, w') && |w'.calls| == 4 && Idle(w')
    ensures w'.ledger.rid == 0 && Reconciled(w'.ledger, w.ek) && w'.clientRid == Some(0)
    ensures w'.ek == w.ek && w'.lim == w.lim
    ensures var key := KeyFor(base, Active);
      key in w'.ledger.leases && w'.ledger.leases[key] in w'.requested
  {
    hide Reaches, Remembered;
    var w3 := GrantNew(w, base);
    var t := w.nextToken;
    var w4 := Do(w3, Rollback(2, Active));
    ReachOne(w3, Rollback(2, Active));
    var w5 := Do(w4, SendRelease(t, Some(0)));
    ReachOne(w4, SendRelease(t, Some(0)));
    w' := Do(w5, GiveUp(3));
    ReachOne(w5, GiveUp(3));
    ReachTrans(w, w3, w4);
    ReachTrans(w, w4, w5);
    ReachTrans(w, w5, w');
    forall c | c in w'.calls
      ensures !InHand(c)
    {
      var j :| 0 <= j < 4 && w'.calls[j] == c;
      if j < 2 {
        assert w.calls[j] == w3.calls[..2][j];
        assert c == w3.calls[j];
        assert w.calls[j] in w.calls;
      } else if j == 2 {
        assert c == w3.calls[2].(settled := w3.calls[2].settled + {Active});
        assert forall k :: k in c.reply.value.body.grants.value ==> k in c.reply.value.body.grants.value.Keys;
      }
    }
  }

  lemma AskAgain(w: World, base: BaseKey) returns (w': World)
    requires EpochKey(base.gen, base.epoch) == w.ek && |w.calls| == 4 && Idle(w)
    requires w.ledger.rid == 0 && Reconciled(w.ledger, w.ek) && w.clientRid == Some(0)
    requires KeyFor(base, Active) in w.ledger.leases && w.ledger.leases[KeyFor(base, Active)] in w.requested
    ensures Reaches(w, w') && Granted(w', 4, Active) && OnItsWayOut(w', 4, Active) && w'.lim == w.lim
  {
    hide Reaches;
    var send := SendAcquire(base, {Active});
    var w1 := Do(w, send);
    ReachOne(w, send);
    var w2 := Do(w1, Process(4));
    ReachOne(w1, Process(4));
    w' := Do(w2, Deliver(4));
    ReachOne(w2, Deliver(4));
    ReachTrans(w, w1, w2);
    ReachTrans(w, w2, w');
  }

  // So the unguarded program has a run after which an acknowledged token counts again.
  lemma AcknowledgedTokenComesBack(lim: Limits, ek: EpochKey) returns (w: World, w': World)
    requires 1 <= lim.active
    ensures Reaches(Start(lim, ek), w) && Can(w, Commit(4, Active))
    ensures Reaches(Do(w, Commit(4, Active)), w') && !Safe(w')
  {
    w := ReachesOutboxToken(lim, ek);
    var acts :| GuardedRun(Start(lim, ek), acts) && After(Start(lim, ek), acts) == w;
    StartOk(lim, ek);
    RunKeeps(Start(lim, ek), acts);
    CommitIsSafeExactlyWhenNotOnItsWayOut(w, 4, Active);
    w' :| Reaches(Do(w, Commit(4, Active)), w') && !Safe(w');
  }
}
