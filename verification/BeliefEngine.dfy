/**
  The belief engine as the program keeps it (daemon/belief.py): one object whose methods update its
  fields in place and append to a list of actions.  Each method takes the engine's memory where the
  function of the same name in `Belief` says, so the theorems there are about these methods.

  The clock is read by the caller: every method is given the time.  Diagnostic notes and the fields
  that only feed status displays are left out.
*/
module BeliefEngines {
  import opened Prelude
  import opened Hooks
  import opened Belief

  class BeliefEngine {
    const cfg: Config
    var semanticFp: Option<Fp>
    var semanticChangeTs: Option<Time>
    var heartbeatFp: Option<Fp>
    var heartbeatChangedTs: Option<Time>
    var candidateFp: Option<Fp>
    var candidateSince: Option<Time>
    var publishedKey: Option<Key>
    var publishedPromptFp: Option<Fp>
    var publishedSemanticFp: Option<Fp>
    var lastWithdrawnFp: Option<Fp>
    var withdrawnCooldownUntil: Option<Time>
    var interventionActive: bool
    var escalationCount: nat
    var nextNagAt: Option<Time>
    var postSubmitActive: bool
    var postSubmitGraceUntil: Option<Time>
    var postSubmitContentFp: Option<Fp>
    var echoSince: Option<Time>
    var hookMode: Mode
    var turnEpoch: nat
    var turnOpen: bool
    var hookPendingKey: Option<Key>
    var hookPendingKind: Option<PromptKind>
    var hookAnsweredIds: set<Key>
    var idlePublishedEpoch: Option<nat>
    var lastHookAt: Option<Time>
    var hookStartupAt: Option<Time>
    var hookProgressFp: Option<Fp>
    var hookProgressAt: Option<Time>
    var reconcileFp: Option<Fp>
    var reconcileSince: Option<Time>
    var controlState: Control

    function SenseNow(): Sense
      reads this`semanticFp, this`semanticChangeTs, this`heartbeatFp, this`heartbeatChangedTs
    {
      Sense(semanticFp, semanticChangeTs, heartbeatFp, heartbeatChangedTs)
    }

    function PromptingNow(): Prompting
      reads this`candidateFp, this`candidateSince, this`publishedKey, this`publishedPromptFp,
          this`publishedSemanticFp, this`lastWithdrawnFp, this`withdrawnCooldownUntil
    {
      Prompting(candidateFp, candidateSince, publishedKey, publishedPromptFp, publishedSemanticFp,
                lastWithdrawnFp, withdrawnCooldownUntil)
    }

    function NaggingNow(): Nagging
      reads this`interventionActive, this`escalationCount, this`nextNagAt
    {
      Nagging(interventionActive, escalationCount, nextNagAt)
    }

    function SubmittedNow(): Submitted
      reads this`postSubmitActive, this`postSubmitGraceUntil, this`postSubmitContentFp, this`echoSince
    {
      Submitted(postSubmitActive, postSubmitGraceUntil, postSubmitContentFp, echoSince)
    }

    function TurnNow(): Turn
      reads this`turnEpoch, this`turnOpen, this`hookPendingKey, this`hookPendingKind, this`hookAnsweredIds,
          this`idlePublishedEpoch
    {
      Turn(turnEpoch, turnOpen, hookPendingKey, hookPendingKind, hookAnsweredIds, idlePublishedEpoch)
    }

    function LostNow(): Lost
      reads this`lastHookAt, this`hookProgressFp, this`hookProgressAt, this`reconcileFp, this`reconcileSince
    {
      Lost(lastHookAt, hookProgressFp, hookProgressAt, reconcileFp, reconcileSince)
    }

    // The engine's whole memory.
    function Memory(): Engine
      reads this
    {
      Engine(SenseNow(), PromptingNow(), NaggingNow(), SubmittedNow(), hookMode, hookStartupAt, TurnNow(), LostNow(),
             controlState)
    }

    constructor (config: Config)
      ensures cfg == config && Memory() == NEW_ENGINE && EngineOk(Memory())
    {
      cfg := config;
      semanticFp, semanticChangeTs, heartbeatFp, heartbeatChangedTs := None, None, None, None;
      candidateFp, candidateSince, publishedKey, publishedPromptFp, publishedSemanticFp := None, None, None, None, None;
      lastWithdrawnFp, withdrawnCooldownUntil := None, None;
      interventionActive, escalationCount, nextNagAt := false, 0, None;
      postSubmitActive, postSubmitGraceUntil, postSubmitContentFp, echoSince := false, None, None, None;
      hookMode, hookStartupAt := HooksUnknown, None;
      turnEpoch, turnOpen, hookPendingKey, hookPendingKind, hookAnsweredIds, idlePublishedEpoch :=
        0, false, None, None, {}, None;
      lastHookAt, hookProgressFp, hookProgressAt, reconcileFp, reconcileSince := None, None, None, None, None;
      controlState := Busy;
    }

    method ExpectHooks(now: Time)
      modifies this`hookStartupAt
      ensures Memory() == Belief.ExpectHooks(old(Memory()), now)
      ensures EngineOk(old(Memory())) ==> EngineOk(Memory())
    {
      if hookMode == HooksUnknown {
        hookStartupAt := Some(now);
      }
    }

    method OnSubmit(now: Time)
      modifies this
      ensures Memory() == Belief.OnSubmit(old(Memory()), cfg, now)
      ensures EngineOk(old(Memory())) ==> EngineOk(Memory())
    {
      hide SenseNow, NaggingNow, TurnNow, LostNow, PromptingNow, SubmittedNow, Answered, EngineOk;
      if EngineOk(Memory()) { SubmitKeeps(Memory(), cfg, now); }
      AnswerPending();
      ForgetPrompt();
      ArmGrace(now);
    }

    method ArmGrace(now: Time)
      modifies this`postSubmitActive, this`postSubmitGraceUntil, this`postSubmitContentFp, this`echoSince
      ensures SubmittedNow() == Submitted(true, Some(now + cfg.postSubmitGrace), None, None)
    {
      postSubmitActive := true;
      postSubmitGraceUntil := Some(now + cfg.postSubmitGrace);
      postSubmitContentFp, echoSince := None, None;
    }

    // The pending hook pause is answered: free its slot and remember its key.
    method AnswerPending()
      modifies this`hookAnsweredIds, this`hookPendingKey, this`hookPendingKind
      ensures TurnNow() == Answered(old(TurnNow()))
    {
      if hookPendingKey.Some? {
        hookAnsweredIds := hookAnsweredIds + {hookPendingKey.value};
      }
      hookPendingKey, hookPendingKind := None, None;
    }

    method ForgetPrompt()
      modifies this`publishedKey, this`publishedPromptFp, this`publishedSemanticFp, this`candidateFp,
               this`candidateSince, this`lastWithdrawnFp, this`withdrawnCooldownUntil
      ensures PromptingNow() == NO_PROMPT
    {
      publishedKey, publishedPromptFp, publishedSemanticFp := None, None, None;
      candidateFp, candidateSince := None, None;
      lastWithdrawnFp, withdrawnCooldownUntil := None, None;
    }

    // ---- hooks ----

    method OnHook(o: Observation, now: Time) returns (actions: seq<Action>)
      modifies this
      ensures (Memory(), actions) == Belief.OnHook(old(Memory()), cfg, o, now)
      ensures EngineOk(old(Memory())) ==> EngineOk(Memory())
    {
      hide HookMeans, HookArrives, SenseNow, PromptingNow, NaggingNow, SubmittedNow, TurnNow, LostNow, EngineOk;
      if EngineOk(Memory()) { HookKeeps(Memory(), cfg, o, now); }
      actions := HearHook(now);
      var more := FoldHook(o);
      actions := actions + more;
    }

    // The first hook withdraws a decision read off the screen; every hook restarts the clocks.
    method HearHook(now: Time) returns (actions: seq<Action>)
      modifies this
      ensures (Memory(), actions) == HookArrives(old(Memory()), cfg, now)
    {
      hide WithdrawPublished, SenseNow, NaggingNow, SubmittedNow, TurnNow, LostNow;
      actions := [];
      if hookMode != HooksActive && publishedKey.Some? {
        actions := WithdrawDecision(SupersededByHook, now);
      }
      hookMode := HooksActive;
      RestartClocks(now);
    }

    method RestartClocks(now: Time)
      modifies this`lastHookAt, this`hookProgressFp, this`hookProgressAt, this`reconcileFp, this`reconcileSince
      ensures LostNow() == Lost(Some(now), None, None, None, None)
    {
      lastHookAt := Some(now);
      hookProgressFp, hookProgressAt, reconcileFp, reconcileSince := None, None, None, None;
    }

    method FoldHook(o: Observation) returns (actions: seq<Action>)
      modifies this`turnEpoch, this`turnOpen, this`hookPendingKey, this`hookPendingKind, this`hookAnsweredIds,
               this`idlePublishedEpoch, this`controlState
      ensures (TurnNow(), controlState, actions) == HookMeans(old(TurnNow()), old(controlState), o)
    {
      actions := [];
      if o.opensTurn {
        turnEpoch := turnEpoch + 1;
        turnOpen := true;
        hookPendingKey, hookPendingKind := None, None;
        hookAnsweredIds := {};
        controlState := Busy;
        return;
      }
      if o.closesTurn {
        if idlePublishedEpoch == Some(turnEpoch) { return; }
        turnOpen := false;
        idlePublishedEpoch := Some(turnEpoch);
        hookAnsweredIds := {};
        if hookPendingKey.Some? {
          actions := [Withdraw(hookPendingKey.value, SupersededByHook)];
          hookPendingKey, hookPendingKind := None, None;
        }
        controlState := AtIdle;
        actions := actions + [Publish(IdleKey(turnEpoch), Idle(o.interrupted, false))];
        return;
      }
      if o.clearsPending {
        if idlePublishedEpoch == Some(turnEpoch) { return; }
        if hookPendingKey.Some? {
          actions := [Withdraw(hookPendingKey.value, PromptLeft)];
          hookPendingKey, hookPendingKind := None, None;
        }
        turnOpen := true;
        controlState := Busy;
        return;
      }
      if o.kind == WaitingForUser {
        if idlePublishedEpoch == Some(turnEpoch) { return; }
        actions := FoldPause(o);
        return;
      }
      if turnOpen {
        if o.gate.Some? {
          hookAnsweredIds := hookAnsweredIds - {GateKey(o.gate.value)};
        }
        controlState := Busy;
      }
    }

    method FoldPause(o: Observation) returns (actions: seq<Action>)
      modifies this`turnOpen, this`hookPendingKey, this`hookPendingKind, this`controlState
      ensures (TurnNow(), controlState, actions) == Pauses(old(TurnNow()), o)
    {
      actions := [];
      var decisionKey := if o.gate.Some? then GateKey(o.gate.value) else PauseKey(turnEpoch);
      var effectiveKind := Preferred(hookPendingKind, o.promptKind);
      turnOpen := true;
      if hookPendingKey == Some(decisionKey) {
        if effectiveKind != hookPendingKind {
          hookPendingKind := effectiveKind;
          actions := [Publish(decisionKey, Waiting(effectiveKind))];
        }
        controlState := AwaitingUser;
        return;
      }
      if decisionKey in hookAnsweredIds {
        controlState := Busy;
        return;
      }
      hookPendingKey := Some(decisionKey);
      hookPendingKind := effectiveKind;
      controlState := AwaitingUser;
      actions := [Publish(decisionKey, Waiting(effectiveKind))];
    }

    // ---- ticks ----

    method WithdrawDecision(why: Why, now: Time) returns (actions: seq<Action>)
      requires publishedKey.Some?
      modifies this`lastWithdrawnFp, this`withdrawnCooldownUntil, this`publishedKey, this`publishedPromptFp,
               this`publishedSemanticFp
      ensures (PromptingNow(), actions) == WithdrawPublished(old(PromptingNow()), cfg, why, now)
    {
      actions := [Withdraw(publishedKey.value, why)];
      lastWithdrawnFp := publishedSemanticFp;
      withdrawnCooldownUntil := Some(now + cfg.withdrawnCooldown);
      publishedKey, publishedPromptFp, publishedSemanticFp := None, None, None;
    }

    method PublishDecision(s: Screen, kind: PromptKind) returns (actions: seq<Action>)
      modifies this`publishedKey, this`publishedPromptFp, this`publishedSemanticFp
      ensures (PromptingNow(), actions) == PublishScreen(old(PromptingNow()), s, kind)
    {
      var decisionKey := ScreenKey(kind, s.semantic);
      publishedKey := Some(decisionKey);
      publishedPromptFp := s.promptFp;
      publishedSemanticFp := Some(s.semantic);
      actions := [Publish(decisionKey, Waiting(Some(kind)))];
    }

    // A change of meaning ends the stuck episode.
    method TrackSemantic(s: Screen, now: Time)
      modifies this`semanticFp, this`semanticChangeTs, this`interventionActive, this`escalationCount, this`nextNagAt
      ensures Memory() == Belief.TrackSemantic(old(Memory()), s, now)
    {
      if Some(s.semantic) != semanticFp {
        semanticFp := Some(s.semantic);
        semanticChangeTs := Some(now);
        interventionActive, escalationCount, nextNagAt := false, 0, None;
      }
    }

    method TrackHeartbeat(s: Screen, now: Time)
      modifies this`heartbeatFp, this`heartbeatChangedTs
      ensures Memory() == Belief.TrackHeartbeat(old(Memory()), s, now)
    {
      if !s.heartbeat.present { return; }
      if Some(s.heartbeat.fp) != heartbeatFp {
        heartbeatFp := Some(s.heartbeat.fp);
        heartbeatChangedTs := Some(now);
      }
    }

    // The shared end of the three escalators.
    method Escalate(s: Screen, now: Time, hint: Hint) returns (actions: seq<Action>)
      modifies this`interventionActive, this`escalationCount, this`nextNagAt
      ensures (NaggingNow(), actions) == Remind(old(NaggingNow()), BudgetNow(SenseNow(), cfg, s, now), now, hint)
    {
      actions := [];
      interventionActive := true;
      var budget := Budget(cfg, LivenessOf(SenseNow(), cfg, s, now), s.longRunning);
      if nextNagAt == None || now >= nextNagAt.value {
        escalationCount := escalationCount + 1;
        nextNagAt := Some(now + budget);
        actions := [Publish(AdvisoryKey(escalationCount), Advisory(escalationCount, hint))];
      }
    }

    method Watchdog(s: Screen, now: Time) returns (actions: seq<Action>)
      modifies this`interventionActive, this`escalationCount, this`nextNagAt
      ensures (NaggingNow(), actions) == Belief.Watchdog(SenseNow(), old(NaggingNow()), cfg, s, now)
    {
      var quiet := if semanticChangeTs == None then 0.0 else now - semanticChangeTs.value;
      var budget := Budget(cfg, LivenessOf(SenseNow(), cfg, s, now), s.longRunning);
      if quiet < budget {
        interventionActive := false;
        return [];
      }
      actions := Escalate(s, now, SuspectedHung);
    }

    method Tick(s: Screen, alive: bool, now: Time) returns (actions: seq<Action>)
      modifies this
      ensures (Memory(), actions) == Belief.Tick(old(Memory()), cfg, s, alive, now)
      ensures EngineOk(old(Memory())) ==> EngineOk(Memory())
    {
      hide Belief.TickUnderHooks, Belief.TickOnScreen, Belief.TrackSemantic, Belief.TrackHeartbeat;
      hide SenseNow, PromptingNow, NaggingNow, SubmittedNow, TurnNow, LostNow, EngineOk;
      if EngineOk(Memory()) { TickKeeps(Memory(), cfg, s, alive, now); }
      TrackSemantic(s, now);
      TrackHeartbeat(s, now);
      if !alive || s.prompt == Crash || s.prompt == Exit {
        controlState := Terminal;
        return [Finalize];
      }
      if hookStartupAt.Some? && hookMode == HooksUnknown && now - hookStartupAt.value >= cfg.hookStartupGrace {
        hookMode := HooksUnavailable;
      }
      if hookMode == HooksActive {
        actions := TickUnderHooks(s, now);
      } else {
        actions := TickOnScreen(s, now);
      }
    }

    method TickUnderHooks(s: Screen, now: Time) returns (actions: seq<Action>)
      modifies this
      ensures (Memory(), actions) == Belief.TickUnderHooks(old(Memory()), cfg, s, now)
    {
      hide Belief.WatchUnderHooks, Remind, BudgetNow, StopWasLost, LostStopStuck, WatchPrompt, TrackProgress;
      hide SenseNow, PromptingNow, NaggingNow, SubmittedNow, TurnNow, LostNow;
      actions := [];
      if controlState != Busy && controlState != InterventionRequired {
        return;
      }
      if s.prompt == Shows(FreeText) {
        actions := ReconcileLostStopIdle(s, now);
        if actions != [] {
          return;
        }
      } else {
        StopWatchingPrompt();
        TrackHookProgress(s, now);
        if LostStopStuck(LostNow(), cfg, now) {
          actions := Escalate(s, now, LostStop);
          if actions != [] {
            controlState := InterventionRequired;
          }
          return;
        }
      }
      actions := WatchUnderHooks(s, now);
    }

    method WatchUnderHooks(s: Screen, now: Time) returns (actions: seq<Action>)
      modifies this`interventionActive, this`escalationCount, this`nextNagAt, this`controlState
      ensures (Memory(), actions) == Belief.WatchUnderHooks(old(Memory()), cfg, s, now)
    {
      hide Belief.Watchdog, SenseNow, PromptingNow, SubmittedNow, TurnNow, LostNow;
      actions := Watchdog(s, now);
      controlState := if interventionActive then InterventionRequired else Busy;
    }

    method StopWatchingPrompt()
      modifies this`reconcileFp, this`reconcileSince
      ensures LostNow() == old(LostNow()).(reconcileFp := None, reconcileSince := None)
    {
      reconcileFp, reconcileSince := None, None;
    }

    method ReconcileLostStopIdle(s: Screen, now: Time) returns (actions: seq<Action>)
      modifies this`reconcileFp, this`reconcileSince, this`turnOpen, this`idlePublishedEpoch, this`controlState
      ensures var l := WatchPrompt(old(LostNow()), s, now);
        if StopWasLost(l, cfg, now) then
          && LostNow() == l.(reconcileFp := None, reconcileSince := None) && controlState == AtIdle
          && TurnNow() == old(TurnNow()).(open := false, idleEpoch := Some(old(TurnNow()).epoch))
          && actions == [Publish(IdleKey(old(TurnNow()).epoch), Idle(false, true))]
        else
          LostNow() == l && controlState == old(controlState) && TurnNow() == old(TurnNow()) && actions == []
    {
      var key := PromptKeyOf(s);
      if reconcileFp != Some(key) {
        reconcileFp := Some(key);
        reconcileSince := Some(now);
      }
      var stable := Elapsed(now, reconcileSince) >= cfg.hookTurnGrace;
      var sinceHook := lastHookAt == None || now - lastHookAt.value >= cfg.hookTurnGrace;
      if !(stable && sinceHook) {
        return [];
      }
      turnOpen := false;
      idlePublishedEpoch := Some(turnEpoch);
      reconcileFp, reconcileSince := None, None;
      controlState := AtIdle;
      return [Publish(IdleKey(turnEpoch), Idle(false, true))];
    }

    method TrackHookProgress(s: Screen, now: Time)
      modifies this`hookProgressFp, this`hookProgressAt
      ensures LostNow() == TrackProgress(old(LostNow()), s, now)
    {
      if hookProgressFp == None {
        hookProgressFp := Some(s.semantic);
        hookProgressAt := if lastHookAt.Some? then lastHookAt else Some(now);
      } else if Some(s.semantic) != hookProgressFp {
        hookProgressFp := Some(s.semantic);
        hookProgressAt := Some(now);
      }
    }

    method TickOnScreen(s: Screen, now: Time) returns (actions: seq<Action>)
      modifies this
      ensures (Memory(), actions) == Belief.TickOnScreen(old(Memory()), cfg, s, now)
    {
      hide Belief.OnPrompt, Belief.OnBusy, Belief.UpdatePostSubmit, SenseNow, TurnNow, LostNow, SubmittedNow;
      UpdatePostSubmit(s, now);
      if s.prompt.Shows? {
        actions := OnPrompt(s, now, s.prompt.kind);
      } else {
        actions := OnBusy(s, now);
      }
      controlState := if publishedKey.Some? then AwaitingUser
                      else if interventionActive then InterventionRequired else Busy;
    }

    method UpdatePostSubmit(s: Screen, now: Time)
      modifies this`postSubmitActive, this`postSubmitContentFp
      ensures SubmittedNow() == Belief.UpdatePostSubmit(old(SubmittedNow()), SenseNow(), cfg, s, now)
    {
      if !postSubmitActive { return; }
      if postSubmitContentFp == None {
        postSubmitContentFp := Some(s.content);
      }
      if !Before(now, postSubmitGraceUntil) {
        postSubmitActive := false;
        return;
      }
      if s.prompt == NoPrompt && LivenessOf(SenseNow(), cfg, s, now) == Live {
        postSubmitActive := false;
        return;
      }
      if !s.echo && Some(s.content) != postSubmitContentFp {
        postSubmitActive := false;
        return;
      }
    }

    method OnBusy(s: Screen, now: Time) returns (actions: seq<Action>)
      modifies this
      ensures (Memory(), actions) == Belief.OnBusy(old(Memory()), cfg, s, now)
    {
      hide Belief.Watchdog, WithdrawPublished, SenseNow, TurnNow, LostNow, NaggingNow, SubmittedNow;
      actions := [];
      if publishedKey.Some? {
        actions := WithdrawDecision(TurnResumed, now);
      }
      ForgetCandidate();
      var more := Watchdog(s, now);
      actions := actions + more;
    }

    method ForgetCandidate()
      modifies this`candidateFp, this`candidateSince, this`echoSince
      ensures PromptingNow() == old(PromptingNow()).(candidateFp := None, candidateSince := None)
      ensures SubmittedNow() == old(SubmittedNow()).(echoSince := None)
    {
      candidateFp, candidateSince := None, None;
      echoSince := None;
    }

    method OnPrompt(s: Screen, now: Time, kind: PromptKind) returns (actions: seq<Action>)
      modifies this
      ensures (Memory(), actions) == Belief.OnPrompt(old(Memory()), cfg, s, now, kind)
    {
      hide Belief.Candidate, WithdrawPublished, SenseNow, SubmittedNow, TurnNow, LostNow;
      actions := [];
      interventionActive := false;
      if publishedKey.Some? && s.promptFp != publishedPromptFp {
        actions := WithdrawDecision(PromptChanged, now);
      }
      if publishedKey.Some? {
        return;
      }
      var more := Candidate(s, now, kind);
      actions := actions + more;
    }

    method Candidate(s: Screen, now: Time, kind: PromptKind) returns (actions: seq<Action>)
      requires publishedKey == None
      modifies this
      ensures (Memory(), actions) == Belief.Candidate(old(Memory()), cfg, s, now, kind)
    {
      hide Remind, BudgetNow, PublishScreen, Belief.Settle, SenseNow, PromptingNow, TurnNow, LostNow, NaggingNow;
      WatchCandidate(s, now);
      actions := [];
      if kind != FreeText {
        actions := PublishDecision(s, kind);
        return;
      }
      if hookStartupAt.Some? && hookMode == HooksUnknown && now - hookStartupAt.value < cfg.hookStartupGrace {
        return;
      }
      if s.echo {
        if echoSince == None {
          echoSince := Some(now);
        }
        if now - echoSince.value < cfg.echoStuckAfter {
          return;
        }
        actions := Escalate(s, now, SubmitUnconfirmed);
        return;
      }
      echoSince := None;
      actions := Settle(s, now);
    }

    method WatchCandidate(s: Screen, now: Time)
      modifies this`candidateFp, this`candidateSince
      ensures PromptingNow() == Belief.WatchCandidate(old(PromptingNow()), s, now)
    {
      var key := PromptKeyOf(s);
      if Some(key) != candidateFp {
        candidateFp := Some(key);
        candidateSince := Some(now);
      }
    }

    method Settle(s: Screen, now: Time) returns (actions: seq<Action>)
      modifies this`publishedKey, this`publishedPromptFp, this`publishedSemanticFp
      ensures (PromptingNow(), actions) == Belief.Settle(old(PromptingNow()), SubmittedNow(), cfg, s, now)
    {
      if postSubmitActive && Before(now, postSubmitGraceUntil) {
        return [];
      }
      if Some(s.semantic) == lastWithdrawnFp && Before(now, withdrawnCooldownUntil) {
        return [];
      }
      if Elapsed(now, candidateSince) < cfg.idleConfirmWindow {
        return [];
      }
      actions := PublishDecision(s, FreeText);
    }
  }
}
