/**
  What the belief engine owes its hooks (daemon/belief.py): the converses of the laws in `Belief`, which
  say what it may do.  A turn that ends publishes its idle, a pause leaves with notice, and a pause is
  taken for answered only because it was.
*/
module BeliefDuties {
  import opened Prelude
  import opened Hooks
  import opened Belief

  // ---- every turn that ends publishes its idle -----------------------------------------------------------

  predicate EndsTurn(e: Engine, f: Engine) {
    !TurnClosed(e.turn) && TurnClosed(f.turn)
  }

  lemma TurnEndsExactlyWithItsIdle(e: Engine, c: Config, i: Input)
    requires EngineOk(e)
    ensures var (f, acts) := Step(e, c, i); EndsTurn(e, f) <==> Publishes(acts, IdleKey(e.turn.epoch))
  {
    match i
    case HookIn(o, now) => HookEndsTurn(e, c, o, now);
    case SubmitIn(now) =>
    case ExpectIn(now) =>
    case TickIn(s, alive, now) =>
      TickActs(e, c, s, alive, now);
      hide Tick;
  }

  lemma HookEndsTurn(e: Engine, c: Config, o: Observation, now: Time)
    requires EngineOk(e)
    ensures var (f, acts) := OnHook(e, c, o, now);
      && (EndsTurn(e, f) <==> Publishes(acts, IdleKey(e.turn.epoch)))
      && (EndsTurn(e, f) <==> !TurnClosed(e.turn) && o.closesTurn && !o.opensTurn)
      && (EndsTurn(e, f) ==>
            && Publish(IdleKey(e.turn.epoch), Idle(o.interrupted, false)) in acts
            && f.control == AtIdle && f.turn.epoch == e.turn.epoch
            && (e.turn.pending.Some? ==> Withdraw(e.turn.pending.value, SupersededByHook) in acts))
  {
    var (e1, first) := HookArrives(e, c, now);
    var (t, k, more) := HookMeans(e1.turn, e1.control, o);
    assert OnHook(e, c, o, now).1 == first + more;
    if !TurnClosed(e.turn) && o.closesTurn && !o.opensTurn {
      var idle := Publish(IdleKey(e.turn.epoch), Idle(o.interrupted, false));
      assert more[|more| - 1] == idle && idle in more;
      assert e.turn.pending.Some? ==> more[0] == Withdraw(e.turn.pending.value, SupersededByHook);
      assert forall a :: a in more ==> a in first + more;
    }
  }

  // A closing hook ends every open turn: the idle it publishes tells whether the hook was an interrupt, and
  // a pending pause is withdrawn first.
  lemma ClosingHookEndsTheTurn(e: Engine, c: Config, o: Observation, now: Time)
    requires EngineOk(e) && o.closesTurn && !o.opensTurn && !TurnClosed(e.turn)
    ensures var (f, acts) := OnHook(e, c, o, now);
      && TurnClosed(f.turn) && f.turn.epoch == e.turn.epoch && f.control == AtIdle
      && Publish(IdleKey(e.turn.epoch), Idle(o.interrupted, false)) in acts
      && (e.turn.pending.Some? ==> Withdraw(e.turn.pending.value, SupersededByHook) in acts)
  {
    HookEndsTurn(e, c, o, now);
  }

  predicate At(t: Turn, n: nat) {
    t.epoch == n && TurnClosed(t)
  }

  // At some point of the run turn n stood closed.
  ghost predicate Ended(c: Config, run: seq<Input>, n: nat) {
    exists k: nat :: k <= |run| && At(After(NEW_ENGINE, c, run[..k]).turn, n)
  }

  lemma EndedMore(c: Config, run: seq<Input>, i: Input, n: nat)
    ensures Ended(c, run + [i], n) <==> Ended(c, run, n) || At(After(NEW_ENGINE, c, run + [i]).turn, n)
  {
    hide After, At;
    var all := run + [i];
    assert all[..|all|] == all;
    forall k: nat | k <= |run| ensures all[..k] == run[..k] { }
    if Ended(c, run, n) {
      var k: nat :| k <= |run| && At(After(NEW_ENGINE, c, run[..k]).turn, n);
      assert At(After(NEW_ENGINE, c, all[..k]).turn, n);
    }
    if Ended(c, all, n) {
      var k: nat :| k <= |all| && At(After(NEW_ENGINE, c, all[..k]).turn, n);
      assert k == |all| || At(After(NEW_ENGINE, c, run[..k]).turn, n);
    }
  }

  lemma {:induction false} EmitsSnoc(e: Engine, c: Config, run: seq<Input>, i: Input)
    ensures Emits(e, c, run + [i]) == Emits(e, c, run) + Step(After(e, c, run), c, i).1
    decreases |run|
  {
    hide Step;
    if run == [] {
      assert run + [i] == [i] && [i][1..] == [];
    } else {
      EmitsSnoc(Step(e, c, run[0]).0, c, run[1..], i);
      assert (run + [i])[1..] == run[1..] + [i];
    }
  }

  // A step publishes one idle for turn n if it ends that turn, and none otherwise.
  lemma StepIdlesExactly(e: Engine, c: Config, i: Input, n: nat)
    requires EngineOk(e)
    ensures var (f, acts) := Step(e, c, i); Idles(acts, n) == if e.turn.epoch == n && EndsTurn(e, f) then 1 else 0
  {
    var (f, acts) := Step(e, c, i);
    TurnEndsExactlyWithItsIdle(e, c, i);
    StepIdles(e, c, i, n);
    PublishedIsCounted(acts, n);
    if Publishes(acts, IdleKey(n)) {
      IdleEndsTurn(e, c, i, n);
    }
    hide Step;
  }

  lemma {:induction false} PublishedIsCounted(acts: seq<Action>, n: nat)
    ensures Publishes(acts, IdleKey(n)) <==> Idles(acts, n) > 0
    decreases |acts|
  {
    if acts != [] {
      PublishedIsCounted(acts[1..], n);
    }
  }

  // Turns go forward, and one that has ended stays so until the next.
  lemma StepAt(e: Engine, c: Config, i: Input, n: nat)
    requires EngineOk(e)
    ensures var f := Step(e, c, i).0;
      && e.turn.epoch <= f.turn.epoch
      && (At(e.turn, n) ==> f.turn.epoch > n || At(f.turn, n))
      && (At(f.turn, n) ==> e.turn.epoch == n)
      && (EndsTurn(e, f) ==> f.turn.epoch == e.turn.epoch)
  {
    match i
    case TickIn(s, alive, now) =>
      TickActs(e, c, s, alive, now);
      hide Tick;
    case HookIn(o, now) =>
      var (e1, first) := HookArrives(e, c, now);
      assert e1.turn == e.turn && Step(e, c, i).0.turn == HookMeans(e.turn, e.control, o).0;
      assert e.turn.idleEpoch.Some? ==> e.turn.idleEpoch.value <= e.turn.epoch;
    case _ =>
  }

  lemma {:induction false} RunIdlesExactly(c: Config, run: seq<Input>, n: nat)
    ensures var e := After(NEW_ENGINE, c, run);
      && EngineOk(e)
      && Idles(Emits(NEW_ENGINE, c, run), n) == (if Ended(c, run, n) then 1 else 0)
      && (Ended(c, run, n) ==> e.turn.epoch > n || At(e.turn, n))
    decreases |run|
  {
    if run == [] {
      assert forall k: nat :: k <= |run| ==> run[..k] == [];
    } else {
      var m := |run| - 1;
      var before, i := run[..m], run[m];
      assert run == before + [i];
      RunIdlesExactly(c, before, n);
      AfterSnoc(NEW_ENGINE, c, before, i);
      EmitsSnoc(NEW_ENGINE, c, before, i);
      EndedMore(c, before, i, n);
      var e := After(NEW_ENGINE, c, before);
      StepKeeps(e, c, i);
      StepIdlesExactly(e, c, i, n);
      StepAt(e, c, i, n);
      assert before[..|before|] == before;
      assert At(e.turn, n) ==> Ended(c, before, n);
      IdlesAppend(Emits(NEW_ENGINE, c, before), Step(e, c, i).1, n);
      hide Step, After, Emits, Ended, EngineOk;
    }
  }

  // Over every run, the turns that ended are exactly those an idle was published for, and it was one.
  lemma IdlesAreTheEndedTurns(c: Config, run: seq<Input>, n: nat)
    ensures Idles(Emits(NEW_ENGINE, c, run), n) == if Ended(c, run, n) then 1 else 0
  {
    RunIdlesExactly(c, run, n);
  }

  // ---- a pause leaves with notice --------------------------------------------------------------------------

  predicate Withdraws(acts: seq<Action>, key: Key) {
    exists a :: a in acts && a.Withdraw? && a.key == key
  }

  // The pending pause goes when it is answered, when a new turn drops it, when it is withdrawn, or when
  // another pause is published in its place.
  lemma PendingLeavesWithNotice(e: Engine, c: Config, i: Input, key: Key)
    requires EngineOk(e) && e.turn.pending == Some(key)
    ensures var (f, acts) := Step(e, c, i);
      f.turn.pending != Some(key) ==>
        || i.SubmitIn?
        || (i.HookIn? && i.obs.opensTurn)
        || Withdraws(acts, key)
        || (f.turn.pending.Some? && Publishes(acts, f.turn.pending.value))
  {
    match i
    case HookIn(o, now) => HookDropsPending(e, c, o, now, key);
    case TickIn(s, alive, now) =>
      TickActs(e, c, s, alive, now);
      TickLeavesPending(e, c, s, alive, now);
      hide Tick;
    case _ =>
  }

  lemma TickLeavesPending(e: Engine, c: Config, s: Screen, alive: bool, now: Time)
    requires EngineOk(e)
    ensures Tick(e, c, s, alive, now).0.turn.pending == e.turn.pending
  {
    TickActs(e, c, s, alive, now);
    hide Tick;
  }

  lemma HookDropsPending(e: Engine, c: Config, o: Observation, now: Time, key: Key)
    requires EngineOk(e) && e.turn.pending == Some(key)
    ensures var (f, acts) := OnHook(e, c, o, now);
      f.turn.pending != Some(key) ==>
        || o.opensTurn || Withdraws(acts, key) || (f.turn.pending.Some? && Publishes(acts, f.turn.pending.value))
  {
    var (e1, first) := HookArrives(e, c, now);
    var (t, k, more) := HookMeans(e1.turn, e1.control, o);
    assert OnHook(e, c, o, now).1 == first + more;
    assert forall a :: a in more ==> a in first + more;
    if t.pending != Some(key) && !o.opensTurn {
      assert more != [] && (more[0] == Withdraw(key, SupersededByHook) || more[0] == Withdraw(key, PromptLeft)
                            || (t.pending.Some? && more[0].Publish? && more[0].key == t.pending.value));
      assert more[0] in more;
    }
  }

  // After a hook in a turn that is not over, the engine waits for the user exactly when that hook's own pause
  // is pending, and is idle exactly when the hook ended the turn.
  lemma HookSetsControl(e: Engine, c: Config, o: Observation, now: Time)
    requires EngineOk(e) && !TurnClosed(e.turn)
    requires o.opensTurn || o.closesTurn || o.clearsPending || o.kind == WaitingForUser || e.turn.open
    ensures var f := OnHook(e, c, o, now).0;
      && (f.control == AtIdle <==> TurnClosed(f.turn))
      && (f.control == AwaitingUser <==>
            && !o.opensTurn && !o.closesTurn && !o.clearsPending && o.kind == WaitingForUser
            && f.turn.pending == Some(PauseKeyOf(e.turn, o)))
      && f.control in {Busy, AwaitingUser, AtIdle}
      && (f.turn.open <==> f.control != AtIdle)
  {
  }

  // A pause is taken for answered only because a submit found it pending in this turn.
  lemma {:induction false} AnsweredOnlyBySubmit(c: Config, run: seq<Input>, key: Key)
    requires key in After(NEW_ENGINE, c, run).turn.answered
    ensures exists j: nat :: AnsweredAt(c, run, key, j)
    decreases |run|
  {
    if run != [] {
      var m := |run| - 1;
      var before, i := run[..m], run[m];
      assert run == before + [i];
      AfterSnoc(NEW_ENGINE, c, before, i);
      var e := After(NEW_ENGINE, c, before);
      NewEngineOk();
      RunKeeps(NEW_ENGINE, c, before);
      AnsweredGrows(e, c, i, key);
      hide After, Step, EngineOk;
      if i.SubmitIn? && e.turn.pending == Some(key) {
        assert AnsweredAt(c, run, key, m);
      } else {
        AnsweredOnlyBySubmit(c, before, key);
        var j: nat :| AnsweredAt(c, before, key, j);
        assert run[..j] == before[..j];
        assert AnsweredAt(c, run, key, j);
      }
    }
  }

  ghost predicate AnsweredAt(c: Config, run: seq<Input>, key: Key, j: nat) {
    && j < |run| && run[j].SubmitIn? && After(NEW_ENGINE, c, run[..j]).turn.pending == Some(key)
    && forall k :: j < k < |run| ==> !OpensTurn(run[k])
  }

  lemma AnsweredGrows(e: Engine, c: Config, i: Input, key: Key)
    requires EngineOk(e) && key in Step(e, c, i).0.turn.answered
    ensures !OpensTurn(i)
    ensures (i.SubmitIn? && e.turn.pending == Some(key)) || key in e.turn.answered
  {
    match i
    case TickIn(s, alive, now) =>
      TickActs(e, c, s, alive, now);
      hide Tick;
    case HookIn(o, now) =>
      assert Step(e, c, i).0.turn == HookMeans(e.turn, e.control, o).0;
    case _ =>
  }

  // A new turn starts afresh: whatever was answered before, a pause of it is published.
  lemma NewTurnAsksAgain(e: Engine, c: Config, opens: Observation, ask: Observation, t1: Time, t2: Time)
    requires EngineOk(e) && opens.opensTurn
    requires ask.kind == WaitingForUser && !ask.opensTurn && !ask.closesTurn && !ask.clearsPending
    ensures var f := OnHook(e, c, opens, t1).0;
      && Publishes(OnHook(f, c, ask, t2).1, PauseKeyOf(f.turn, ask))
      && OnHook(f, c, ask, t2).0.turn.pendingKind == ask.promptKind
  {
    HookKeeps(e, c, opens, t1);
    var f := OnHook(e, c, opens, t1).0;
    assert f.turn.answered == {} && f.turn.pending == None && f.turn.pendingKind == None && !TurnClosed(f.turn);
    PausePublishesExactlyWhen(f, c, ask, t2);
  }

  // The two hooks of one question, in either order, leave it pending as a choice to be made on the screen.
  lemma QuestionIsAChoice(e: Engine, c: Config, gate: Gate, t1: Time, t2: Time, modalFirst: bool)
    requires EngineOk(e) && !TurnClosed(e.turn) && e.turn.pending == None && GateKey(gate) !in e.turn.answered
    ensures var first, second := if modalFirst then ModalChoice else PermissionChoice,
                                 if modalFirst then PermissionChoice else ModalChoice;
      var f := OnHook(e, c, Pause(first, Some(gate)), t1).0;
      var (g, acts) := OnHook(f, c, Pause(second, Some(gate)), t2);
      && g.turn.pending == Some(GateKey(gate)) && g.turn.pendingKind == Some(ModalChoice) && g.control == AwaitingUser
      && (Publishes(acts, GateKey(gate)) <==> !modalFirst)
  {
    var first, second := if modalFirst then ModalChoice else PermissionChoice,
                         if modalFirst then PermissionChoice else ModalChoice;
    var f := OnHook(e, c, Pause(first, Some(gate)), t1).0;
    HookKeeps(e, c, Pause(first, Some(gate)), t1);
    assert f.turn.pending == Some(GateKey(gate)) && f.turn.pendingKind == Some(first) && !TurnClosed(f.turn);
    PausePublishesExactlyWhen(f, c, Pause(second, Some(gate)), t2);
  }

  // A pause that is published is pending, and told with the kind then known of it: a choice on the screen if
  // either hook of the gate said so.
  lemma PauseNamesItsKind(e: Engine, c: Config, o: Observation, now: Time)
    requires EngineOk(e) && o.kind == WaitingForUser && !o.opensTurn && !o.closesTurn && !o.clearsPending
    ensures var key := PauseKeyOf(e.turn, o);
      var (f, acts) := OnHook(e, c, o, now);
      Publishes(acts, key) ==>
        && f.turn.pending == Some(key) && Publish(key, Waiting(f.turn.pendingKind)) in acts
        && (f.turn.pendingKind == Some(ModalChoice) <==>
              e.turn.pendingKind == Some(ModalChoice) || o.promptKind == Some(ModalChoice))
        && (e.turn.pendingKind == None ==> f.turn.pendingKind == o.promptKind)
  {
    var key := PauseKeyOf(e.turn, o);
    var (e1, first) := HookArrives(e, c, now);
    var (t, k, more) := HookMeans(e1.turn, e1.control, o);
    assert OnHook(e, c, o, now).1 == first + more;
    assert forall a :: a in first + more <==> a in first || a in more;
    if more != [] {
      assert more[0] in more;
    }
  }

  // The hook that reports a question answered withdraws the pending pause and lets the turn go on.
  lemma AnsweredQuestionIsWithdrawn(e: Engine, c: Config, o: Observation, now: Time)
    requires EngineOk(e) && o.clearsPending && !o.opensTurn && !o.closesTurn && !TurnClosed(e.turn)
    ensures var (f, acts) := OnHook(e, c, o, now);
      && f.turn == e.turn.(open := true, pending := None, pendingKind := None) && f.control == Busy && Silent(acts)
      && (e.turn.pending.Some? ==> Withdraw(e.turn.pending.value, PromptLeft) in acts)
  {
    var (e1, first) := HookArrives(e, c, now);
    var (t, k, more) := HookMeans(e1.turn, e1.control, o);
    assert OnHook(e, c, o, now).1 == first + more;
    if e.turn.pending.Some? {
      assert more[0] == Withdraw(e.turn.pending.value, PromptLeft) && more[0] in more;
    }
  }

  // An opening hook starts the next turn, with nothing pending and nothing answered.
  lemma OpeningHookStartsTheNextTurn(e: Engine, c: Config, o: Observation, now: Time)
    requires EngineOk(e) && o.opensTurn
    ensures var (f, acts) := OnHook(e, c, o, now);
      && f.turn.epoch == e.turn.epoch + 1 && f.turn.open && !TurnClosed(f.turn)
      && f.turn.pending == None && f.turn.answered == {} && f.control == Busy && Silent(acts)
  {
  }

  // The first hook takes over from the screen: a decision read off the screen is withdrawn.
  lemma FirstHookTakesOver(e: Engine, c: Config, o: Observation, now: Time)
    requires EngineOk(e)
    ensures var (f, acts) := OnHook(e, c, o, now);
      && f.mode == HooksActive && f.prompting.published == None
      && (e.prompting.published.Some? ==> Withdraw(e.prompting.published.value, SupersededByHook) in acts)
  {
    var (e1, first) := HookArrives(e, c, now);
    var more := HookMeans(e1.turn, e1.control, o).2;
    assert OnHook(e, c, o, now).1 == first + more;
    if e.prompting.published.Some? {
      assert first[0] == Withdraw(e.prompting.published.value, SupersededByHook) && first[0] in first;
    }
    hide HookMeans;
  }

  // Any other hook at work leaves the pending pause alone; in an open turn it lifts the tombstone of the gate
  // it invokes.
  lemma WorkLeavesThePause(e: Engine, c: Config, o: Observation, now: Time)
    requires EngineOk(e) && IsPlainWork(o)
    ensures var (f, acts) := OnHook(e, c, o, now);
      && Silent(acts) && f.turn.pending == e.turn.pending && f.turn.epoch == e.turn.epoch
      && f.turn.idleEpoch == e.turn.idleEpoch && f.turn.open == e.turn.open
      && (forall key :: key in f.turn.answered <==>
            key in e.turn.answered && !(e.turn.open && o.gate.Some? && key == GateKey(o.gate.value)))
  {
  }

  // A hook that comes late, after its turn was closed or before any was open, changes no turn and publishes
  // nothing.
  lemma StragglersChangeNothing(e: Engine, c: Config, o: Observation, now: Time)
    requires EngineOk(e) && !o.opensTurn && (TurnClosed(e.turn) || (IsPlainWork(o) && !e.turn.open))
    ensures var (f, acts) := OnHook(e, c, o, now); f.turn == e.turn && f.control == e.control && Silent(acts)
  {
  }
}
