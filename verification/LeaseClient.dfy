/**
  The daemon's lease client as the program keeps it (daemon/lease_client.py): the router's id as last
  heard, the outbox of releases that are not yet acknowledged, and the id last registered under.

  What the network brings back for each call is a parameter.  The lemmas say that these methods are the
  client's part of `LeaseProtocol` and `LeaseHandshakes`.
*/
module LeaseClients {
  import opened Prelude
  import opened Leases
  import opened LeaseProtocol
  import opened LeaseHandshakes

  // An answer to a release: none at all, or a status with what it carries.
  datatype Outcome =
    | Unreachable
    | Acknowledged(released: bool, rid: Option<Rid>)
    | Refused(retryable: bool, rid: Option<Rid>)

  function Heard(known: Option<Rid>, o: Outcome): Option<Rid> {
    if o.Unreachable? || o.rid == None then known else o.rid
  }

  // The outbox keeps exactly what is not known to be released.
  function Kept(outbox: set<TokenId>, t: TokenId, o: Outcome): set<TokenId> {
    match o
    case Unreachable => outbox + {t}
    case Acknowledged(_, _) => outbox - {t}
    case Refused(retryable, _) => if retryable then outbox + {t} else outbox
  }

  // The tokens of a round that stay: those whose retry was not acknowledged.
  function Unacknowledged(outbox: set<TokenId>, outcomes: map<TokenId, Outcome>): set<TokenId> {
    set t | t in outbox && !(t in outcomes && outcomes[t].Acknowledged?)
  }

  function OutcomeFor(outcomes: map<TokenId, Outcome>, t: TokenId): Outcome {
    if t in outcomes then outcomes[t] else Unreachable
  }

  // The id last heard after trying these tokens in order.
  function HeardAll(known: Option<Rid>, order: seq<TokenId>, outcomes: map<TokenId, Outcome>): Option<Rid> {
    if order == [] then known
    else Heard(HeardAll(known, order[..|order| - 1], outcomes), OutcomeFor(outcomes, order[|order| - 1]))
  }

  // The releases of a round, all under one id.
  function Requests(order: seq<TokenId>, rid: Option<Rid>): seq<Req> {
    seq(|order|, i requires 0 <= i < |order| => ReleaseReq(order[i], rid))
  }

  predicate NoneTwice(order: seq<TokenId>) {
    forall i, j :: 0 <= i < j < |order| ==> order[i] != order[j]
  }

  class LeaseClient {
    var reconciliationId: Option<Rid>
    var releaseOutbox: set<TokenId>
    var handshookRid: Option<Rid>

    constructor ()
      ensures reconciliationId == None && releaseOutbox == {} && handshookRid == None
    {
      reconciliationId, releaseOutbox, handshookRid := None, {}, None;
    }

    // Any answer may carry the router's id.
    method UpdateFromResponse(o: Outcome)
      modifies this`reconciliationId
      ensures reconciliationId == Heard(old(reconciliationId), o)
    {
      if !o.Unreachable? && o.rid.Some? {
        reconciliationId := o.rid;
      }
    }

    // The client of this world.
    ghost predicate Shows(w: World)
      reads this
    {
      w.clientRid == reconciliationId && w.outbox == releaseOutbox && w.handshook == handshookRid
    }

    // Wherever the protocol can be with this client, an epoch the router does not know under the id last
    // heard is one that needs a handshake.
    method NeedsHandshake() returns (r: bool)
      ensures r <==> Due(reconciliationId, handshookRid)
      ensures forall w :: (Shows(w) && HandshakeOk(w) && reconciliationId == Some(w.ledger.rid)
                           && !Reconciled(w.ledger, w.ek)) ==> r
    {
      return reconciliationId.Some? && handshookRid != reconciliationId;
    }

    method MarkHandshook(rid: Rid)
      modifies this`handshookRid
      ensures handshookRid == Some(rid)
    {
      handshookRid := Some(rid);
    }

    // Register a snapshot under the id known now, when one is due; mark that very id, whatever is heard
    // meanwhile; and retry the outbox.
    method EnsureHandshake(reply: Outcome, outcomes: map<TokenId, Outcome>)
      returns (done: bool, target: Option<Rid>)
      modifies this
      ensures target == if old(Due(reconciliationId, handshookRid)) then old(reconciliationId) else None
      ensures done <==> target.Some? && reply.Acknowledged?
      ensures handshookRid == if done then target else old(handshookRid)
      ensures releaseOutbox == if done then Unacknowledged(old(releaseOutbox), outcomes) else old(releaseOutbox)
      ensures !done ==> reconciliationId == if target.Some? then Heard(target, reply) else old(reconciliationId)
    {
      var due := NeedsHandshake();
      if !due {
        return false, None;
      }
      target := reconciliationId;
      UpdateFromResponse(reply);
      if !reply.Acknowledged? {
        return false, target;
      }
      MarkHandshook(target.value);
      var pending, order, sent := RetryOutbox(outcomes);
      return true, target;
    }

    // Release a token.  A refusal that is not retryable is an error, and the token is not kept.
    method Release(t: TokenId, o: Outcome) returns (r: Result<bool, ()>)
      modifies this`reconciliationId, this`releaseOutbox
      ensures releaseOutbox == Kept(old(releaseOutbox), t, o)
      ensures reconciliationId == Heard(old(reconciliationId), o)
      ensures r == if o.Refused? && !o.retryable then Err(()) else Ok(o.Acknowledged? && o.released)
    {
      if o.Unreachable? {
        releaseOutbox := releaseOutbox + {t};
        return Ok(false);
      }
      UpdateFromResponse(o);
      if o.Acknowledged? {
        releaseOutbox := releaseOutbox - {t};
        return Ok(o.released);
      }
      if o.retryable {
        releaseOutbox := releaseOutbox + {t};
        return Ok(false);
      }
      return Err(());
    }

    // Try every release of the outbox once more, each with the id known at the start of the round.
    method RetryOutbox(outcomes: map<TokenId, Outcome>)
      returns (pending: set<TokenId>, order: seq<TokenId>, sent: seq<Req>)
      modifies this`reconciliationId, this`releaseOutbox
      ensures pending == Unacknowledged(old(releaseOutbox), outcomes) && releaseOutbox == pending
      ensures NoneTwice(order) && forall t :: t in order <==> t in old(releaseOutbox)
      ensures sent == Requests(order, old(reconciliationId))
      ensures reconciliationId == HeardAll(old(reconciliationId), order, outcomes)
    {
      pending, order, sent := {}, [], [];
      var rid := reconciliationId;
      var todo := releaseOutbox;
      while todo != {}
        invariant todo <= old(releaseOutbox) && releaseOutbox == pending + todo && pending !! todo
        invariant pending == Unacknowledged(old(releaseOutbox) - todo, outcomes)
        invariant NoneTwice(order) && forall t :: t in order <==> t in old(releaseOutbox) - todo
        invariant sent == Requests(order, rid)
        invariant reconciliationId == HeardAll(rid, order, outcomes)
        decreases todo
      {
        var t :| t in todo;
        assert old(releaseOutbox) - (todo - {t}) == (old(releaseOutbox) - todo) + {t};
        assert (order + [t])[..|order|] == order;
        order, sent := order + [t], sent + [ReleaseReq(t, rid)];
        var o := OutcomeFor(outcomes, t);
        UpdateFromResponse(o);
        if o.Acknowledged? {
          releaseOutbox := releaseOutbox - {t};
        } else {
          pending := pending + {t};
        }
        todo := todo - {t};
      }
      assert old(releaseOutbox) - todo == old(releaseOutbox);
    }
  }

  // What a reply of the router is to the client: every answer carries its id, and the two refusals a
  // release can meet are retryable.
  function OutcomeOf(reply: Option<Reply>): Outcome {
    match reply
    case None => Unreachable
    case Some(r) =>
      if r.body.Released? && r.body.freed.Ok? then Acknowledged(r.body.freed.value, Some(r.rid))
      else Refused(true, Some(r.rid))
  }

  // Taking a release's reply, or giving up on it, is what the client does with that outcome.
  lemma DeliverIsClientStep(w: World, i: nat)
    requires Can(w, Deliver(i)) && w.calls[i].req.ReleaseReq?
    ensures var t, o := w.calls[i].req.token, OutcomeOf(w.calls[i].reply);
      && Do(w, Deliver(i)).outbox == Kept(w.outbox, t, o)
      && Do(w, Deliver(i)).clientRid == Heard(w.clientRid, o)
      && (t in Do(w, Deliver(i)).acked <==> t in w.acked || o.Acknowledged?)
  {
  }

  lemma GiveUpIsClientStep(w: World, i: nat)
    requires Can(w, GiveUp(i)) && w.calls[i].req.ReleaseReq?
    ensures var t := w.calls[i].req.token;
      && Do(w, GiveUp(i)).outbox == Kept(w.outbox, t, Unreachable)
      && Do(w, GiveUp(i)).clientRid == Heard(w.clientRid, Unreachable)
  {
  }

  // Taking the reply to a registration is hearing its id; marking it is marking the id it was sent under.
  lemma RegistrationIsClientStep(w: World, i: nat)
    requires Can(w, Deliver(i)) && w.calls[i].req.RegisterReq?
    ensures var d := Do(w, Deliver(i));
      && d.clientRid == Heard(w.clientRid, OutcomeOf(w.calls[i].reply))
      && d.outbox == w.outbox && d.handshook == w.handshook
      && (Can(d, MarkHandshook(i)) <==> Accepted(w.calls[i]))
      && (Accepted(w.calls[i]) ==>
            Do(d, MarkHandshook(i)) == d.(handshook := Some(w.calls[i].req.snapRid)))
  {
  }

  // ---- a round is a round of the protocol --------------------------------------------------------------

  // What each retry of a round brought back.
  ghost function RoundOutcomes(w: World, rid: Option<Rid>, attempts: seq<Attempt>): map<TokenId, Outcome>
    requires IsRound(w, rid, attempts)
    decreases |attempts|
  {
    if attempts == [] then map[]
    else
      var a := attempts[0];
      RoundOutcomes(Try(w, rid, a), rid, attempts[1..])[a.token := TryOutcome(w, rid, a)]
  }

  ghost function TryOutcome(w: World, rid: Option<Rid>, a: Attempt): Outcome
    requires CanTry(w, rid, a)
  {
    TriedIs(w, rid, a);
    OutcomeOf(if a.answered then Tried(w, rid, a).calls[|w.calls|].reply else None)
  }

  function Tokens(attempts: seq<Attempt>): seq<TokenId> {
    seq(|attempts|, i requires 0 <= i < |attempts| => attempts[i].token)
  }

  lemma TryKeeps(w: World, rid: Option<Rid>, a: Attempt)
    requires CanTry(w, rid, a)
    ensures Try(w, rid, a).outbox == Kept(w.outbox, a.token, TryOutcome(w, rid, a))
  {
    TriedIs(w, rid, a);
    var t := Tried(w, rid, a);
    if a.answered {
      DeliverIsClientStep(t, |w.calls|);
    } else {
      GiveUpIsClientStep(t, |w.calls|);
    }
  }

  // Whatever else the daemon, the network and the router do during a round, it leaves in the outbox just
  // the tokens whose retry was not acknowledged.
  lemma {:induction false} RoundKeepsUnacknowledged(w: World, rid: Option<Rid>, attempts: seq<Attempt>)
    requires IsRound(w, rid, attempts) && NoneTwice(Tokens(attempts))
    requires forall t :: t in Tokens(attempts) ==> t in w.outbox
    ensures RoundEnd(w, rid, attempts).outbox == Unacknowledged(w.outbox, RoundOutcomes(w, rid, attempts))
    decreases |attempts|
  {
    if attempts != [] {
      var a, rest := attempts[0], attempts[1..];
      TryKeeps(w, rid, a);
      RestOf(attempts);
      hide CanTry, Try, TryOutcome;
      RoundKeepsUnacknowledged(Try(w, rid, a), rid, rest);
      OnlyTried(Try(w, rid, a), rid, rest);
    }
  }

  lemma RestOf(attempts: seq<Attempt>)
    requires attempts != [] && NoneTwice(Tokens(attempts))
    ensures NoneTwice(Tokens(attempts[1..])) && attempts[0].token !in Tokens(attempts[1..])
    ensures forall t :: t in Tokens(attempts) <==> t == attempts[0].token || t in Tokens(attempts[1..])
  {
    var all, rest := Tokens(attempts), Tokens(attempts[1..]);
    assert all == [all[0]] + rest;
    assert forall i :: 0 <= i < |rest| ==> rest[i] == all[i + 1];
  }

  lemma {:induction false} OnlyTried(w: World, rid: Option<Rid>, attempts: seq<Attempt>)
    requires IsRound(w, rid, attempts) && NoneTwice(Tokens(attempts))
    ensures forall t :: t in RoundOutcomes(w, rid, attempts) <==> t in Tokens(attempts)
    decreases |attempts|
  {
    if attempts != [] {
      RestOf(attempts);
      hide CanTry, Try, TryOutcome;
      OnlyTried(Try(w, rid, attempts[0]), rid, attempts[1..]);
    }
  }
}
