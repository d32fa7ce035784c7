/**
  What the belief engine must have seen before it acts on a guess (daemon/belief.py): before it calls the
  agent hung, before it decides that a hook was lost, before it complains that a submit did not land, and
  before it takes a prompt for idle after a submit.

  Each theorem is about the whole run before the action: the engine's clocks and fingerprints are the
  evidence they stand for.
*/
module BeliefEvidence {
  import opened Prelude
  import opened Hooks
  import opened Belief

  predicate Advises(acts: seq<Action>, hint: Hint) {
    exists a :: a in acts && a.Publish? && a.what.Advisory? && a.what.hint == hint
  }

  predicate LiveTick(i: Input) {
    i.TickIn? && !Dead(i.screen, i.alive)
  }

  // What a tick has noticed before it judges the screen.
  function Sensed(e: Engine, c: Config, s: Screen, now: Time): Engine {
    ExpireStartupGrace(TrackHeartbeat(TrackSemantic(e, s, now), s, now), c, now)
  }

  lemma OnScreenSense(e: Engine, c: Config, s: Screen, now: Time)
    ensures TickOnScreen(e, c, s, now).0.sense == e.sense
  {
    hide Watchdog, Remind, UpdatePostSubmit, BudgetNow, Settle, PublishScreen, WatchCandidate;
  }

  lemma UnderHooksSense(e: Engine, c: Config, s: Screen, now: Time)
    ensures TickUnderHooks(e, c, s, now).0.sense == e.sense
  {
    hide Watchdog, Remind, BudgetNow, StopWasLost, LostStopStuck, WatchPrompt, TrackProgress;
  }

  // ---- calling the agent hung ------------------------------------------------------------------------

  predicate Means(i: Input, meaning: Fp) {
    i.TickIn? ==> i.screen.semantic == meaning
  }

  // Since the tick at `since` every screen had this meaning.
  ghost predicate MeantSince(run: seq<Input>, meaning: Fp, since: Time) {
    exists j: nat :: j < |run| && IsTickAt(run[j], since) && forall k :: j <= k < |run| ==> Means(run[k], meaning)
  }

  predicate IsTickAt(i: Input, at: Time) {
    i.TickIn? && i.at == at
  }

  ghost predicate SenseTrue(s: Sense, run: seq<Input>) {
    s.semanticFp.Some? ==> s.semanticAt.Some? && MeantSince(run, s.semanticFp.value, s.semanticAt.value)
  }

  lemma StillMeant(run: seq<Input>, i: Input, meaning: Fp, since: Time)
    requires MeantSince(run, meaning, since) && Means(i, meaning)
    ensures MeantSince(run + [i], meaning, since)
  {
    var j: nat :| j < |run| && IsTickAt(run[j], since) && forall k :: j <= k < |run| ==> Means(run[k], meaning);
    assert IsTickAt((run + [i])[j], since);
  }

  lemma NewlyMeant(run: seq<Input>, i: Input)
    requires i.TickIn?
    ensures MeantSince(run + [i], i.screen.semantic, i.at)
  {
    assert IsTickAt((run + [i])[|run|], i.at);
  }

  lemma TrackedSense(e: Engine, c: Config, i: Input, run: seq<Input>)
    requires i.TickIn? && SenseTrue(e.sense, run)
    ensures SenseTrue(Sensed(e, c, i.screen, i.at).sense, run + [i])
    ensures Sensed(e, c, i.screen, i.at).sense.semanticFp == Some(i.screen.semantic)
  {
    hide MeantSince;
    if e.sense.semanticFp == Some(i.screen.semantic) {
      StillMeant(run, i, i.screen.semantic, e.sense.semanticAt.value);
    } else {
      NewlyMeant(run, i);
    }
  }

  lemma StepSense(e: Engine, c: Config, i: Input, run: seq<Input>)
    requires SenseTrue(e.sense, run)
    ensures SenseTrue(Step(e, c, i).0.sense, run + [i])
  {
    hide TickOnScreen, TickUnderHooks, MeantSince, HookMeans;
    match i
    case TickIn(s, alive, now) =>
      TrackedSense(e, c, i, run);
      OnScreenSense(Sensed(e, c, s, now), c, s, now);
      UnderHooksSense(Sensed(e, c, s, now), c, s, now);
    case _ =>
      if e.sense.semanticFp.Some? {
        StillMeant(run, i, e.sense.semanticFp.value, e.sense.semanticAt.value);
      }
  }

  lemma {:induction false} RunSense(c: Config, run: seq<Input>)
    ensures SenseTrue(After(NEW_ENGINE, c, run).sense, run)
    decreases |run|
  {
    if run != [] {
      var n := |run| - 1;
      assert run == run[..n] + [run[n]];
      RunSense(c, run[..n]);
      AfterSnoc(NEW_ENGINE, c, run[..n], run[n]);
      hide After, SenseTrue;
      StepSense(After(NEW_ENGINE, c, run[..n]), c, run[n], run[..n]);
    }
  }

  lemma WatchdogAdvises(sense: Sense, n: Nagging, c: Config, s: Screen, now: Time, b: Time)
    requires BudgetsAtLeast(c, b)
    ensures Advises(Watchdog(sense, n, c, s, now).1, SuspectedHung) ==> Elapsed(now, sense.semanticAt) >= b
  {
    hide Elapsed;
  }

  lemma CandidateAdvises(e: Engine, c: Config, s: Screen, now: Time, kind: PromptKind)
    ensures !Advises(Candidate(e, c, s, now, kind).1, SuspectedHung)
  {
    hide BudgetNow, Elapsed, Before, InStartupGrace, WatchCandidate;
  }

  lemma OnScreenAdvises(e: Engine, c: Config, s: Screen, now: Time, b: Time)
    requires BudgetsAtLeast(c, b)
    ensures Advises(TickOnScreen(e, c, s, now).1, SuspectedHung) ==> Elapsed(now, e.sense.semanticAt) >= b
  {
    hide Watchdog, Candidate, UpdatePostSubmit, Elapsed;
    var e1 := e.(submitted := UpdatePostSubmit(e.submitted, e.sense, c, s, now));
    if s.prompt.Shows? {
      var p := e1.prompting;
      var p1 :=
        if p.published.Some? && s.promptFp != p.publishedPromptFp then WithdrawPublished(p, c, PromptChanged, now).0
        else p;
      CandidateAdvises(e1.(prompting := p1, nagging := e1.nagging.(intervening := false)), c, s, now, s.prompt.kind);
    } else {
      WatchdogAdvises(e1.sense, e1.nagging, c, s, now, b);
    }
  }

  lemma WatchdogHint(sense: Sense, n: Nagging, c: Config, s: Screen, now: Time)
    ensures forall a :: a in Watchdog(sense, n, c, s, now).1 ==>
              a.Publish? && a.what.Advisory? && a.what.hint == SuspectedHung
  {
    hide Elapsed, BudgetNow;
  }

  lemma UnderHooksAdvises(e: Engine, c: Config, s: Screen, now: Time, b: Time)
    requires BudgetsAtLeast(c, b)
    ensures Advises(TickUnderHooks(e, c, s, now).1, SuspectedHung) ==> Elapsed(now, e.sense.semanticAt) >= b
  {
    hide Watchdog, Elapsed, BudgetNow, StopWasLost, LostStopStuck, WatchPrompt, TrackProgress;
    WatchdogAdvises(e.sense, e.nagging, c, s, now, b);
  }

  lemma HookAdvises(e: Engine, c: Config, o: Observation, now: Time, hint: Hint)
    ensures !Advises(OnHook(e, c, o, now).1, hint)
  {
  }

  // The agent is called hung only when the screen has meant the same, on every tick, for the smallest
  // budget at least.
  lemma HungOnlyWhenUnchanged(c: Config, run: seq<Input>, i: Input, b: Time)
    requires BudgetsAtLeast(c, b)
    requires Advises(Step(After(NEW_ENGINE, c, run), c, i).1, SuspectedHung)
    ensures i.TickIn?
    ensures exists since :: MeantSince(run + [i], i.screen.semantic, since) && i.at - since >= b
  {
    var e := After(NEW_ENGINE, c, run);
    RunSense(c, run);
    hide After, MeantSince, TickOnScreen, TickUnderHooks, OnHook;
    match i
    case HookIn(o, now) => HookAdvises(e, c, o, now, SuspectedHung);
    case SubmitIn(now) =>
    case ExpectIn(now) =>
    case TickIn(s, alive, now) =>
      var e1 := Sensed(e, c, s, now);
      TrackedSense(e, c, i, run);
      OnScreenAdvises(e1, c, s, now, b);
      UnderHooksAdvises(e1, c, s, now, b);
      assert MeantSince(run + [i], s.semantic, e1.sense.semanticAt.value);
  }

  // ---- deciding that a hook was lost -------------------------------------------------------------------

  predicate IsHookAt(i: Input, at: Time) {
    i.HookIn? && i.at == at
  }

  // The last hook of the run came at this time.
  ghost predicate LastHook(run: seq<Input>, at: Time) {
    exists j: nat :: j < |run| && IsHookAt(run[j], at) && forall k :: j < k < |run| ==> !run[k].HookIn?
  }

  predicate WaitsAt(i: Input, fp: Fp) {
    && !i.HookIn?
    && (i.TickIn? ==> LiveTick(i) && i.screen.prompt == Shows(FreeText) && PromptKeyOf(i.screen) == fp)
  }

  // Since the tick at `since` there was no hook, and every screen showed this free-text prompt.
  ghost predicate WaitedSince(run: seq<Input>, fp: Fp, since: Time) {
    exists j: nat :: j < |run| && IsTickAt(run[j], since) && forall k :: j <= k < |run| ==> WaitsAt(run[k], fp)
  }

  // No hook, and no screen that showed progress beyond fp; a free-text prompt shows none.
  predicate Stalls(i: Input, fp: Option<Fp>) {
    && !i.HookIn?
    && (i.TickIn? ==> LiveTick(i) && (i.screen.prompt == Shows(FreeText) || fp == Some(i.screen.semantic)))
  }

  // A hook, or a screen that showed fp itself.
  predicate StallsFrom(i: Input, fp: Option<Fp>, since: Time) {
    || IsHookAt(i, since)
    || (LiveTick(i) && i.screen.prompt != Shows(FreeText) && fp == Some(i.screen.semantic) && i.at == since)
  }

  // Since that hook or screen at `since`.
  ghost predicate StalledSince(run: seq<Input>, fp: Option<Fp>, since: Time) {
    exists j: nat :: j < |run| && StallsFrom(run[j], fp, since) && forall k :: j < k < |run| ==> Stalls(run[k], fp)
  }

  predicate Underway(k: Control) {
    k == Busy || k == InterventionRequired
  }

  ghost predicate ClocksTrue(l: Lost, run: seq<Input>)
    requires l.lastHookAt.Some?
  {
    && (l.reconcileFp.Some? ==> l.reconcileSince.Some? && WaitedSince(run, l.reconcileFp.value, l.reconcileSince.value))
    && (match l.progressFp
        case None => StalledSince(run, None, l.lastHookAt.value)
        case Some(_) => l.progressAt.Some? && StalledSince(run, l.progressFp, l.progressAt.value))
  }

  ghost predicate LostTrue(e: Engine, run: seq<Input>) {
    e.mode == HooksActive ==>
      && e.lost.lastHookAt.Some? && LastHook(run, e.lost.lastHookAt.value)
      && (Underway(e.control) ==> ClocksTrue(e.lost, run))
  }

  lemma StillLastHook(run: seq<Input>, i: Input, at: Time)
    requires LastHook(run, at) && !i.HookIn?
    ensures LastHook(run + [i], at)
  {
    var j: nat :| j < |run| && IsHookAt(run[j], at) && forall k :: j < k < |run| ==> !run[k].HookIn?;
    assert IsHookAt((run + [i])[j], at);
  }

  lemma StillWaited(run: seq<Input>, i: Input, fp: Fp, since: Time)
    requires WaitedSince(run, fp, since) && WaitsAt(i, fp)
    ensures WaitedSince(run + [i], fp, since)
  {
    var j: nat :| j < |run| && IsTickAt(run[j], since) && forall k :: j <= k < |run| ==> WaitsAt(run[k], fp);
    assert IsTickAt((run + [i])[j], since);
  }

  lemma NewlyWaited(run: seq<Input>, i: Input, fp: Fp)
    requires i.TickIn? && WaitsAt(i, fp)
    ensures WaitedSince(run + [i], fp, i.at)
  {
    assert IsTickAt((run + [i])[|run|], i.at);
  }

  lemma StillStalled(run: seq<Input>, i: Input, was: Option<Fp>, fp: Option<Fp>, since: Time)
    requires StalledSince(run, was, since) && Stalls(i, fp) && (was == None || was == fp)
    ensures StalledSince(run + [i], fp, since)
  {
    var j: nat :| j < |run| && StallsFrom(run[j], was, since) && forall k :: j < k < |run| ==> Stalls(run[k], was);
    assert (run + [i])[j] == run[j];
    forall k | j < k < |run + [i]| ensures Stalls((run + [i])[k], fp) {
      if k < |run| { assert Stalls(run[k], was); }
    }
  }

  lemma NewlyStalled(run: seq<Input>, i: Input, fp: Option<Fp>)
    requires StallsFrom(i, fp, i.at)
    ensures StalledSince(run + [i], fp, i.at)
  {
    assert (run + [i])[|run|] == i;
  }

  // The clock of a free-text prompt, at a tick that shows one.
  lemma WatchedTrue(l: Lost, run: seq<Input>, i: Input)
    requires l.lastHookAt.Some? && ClocksTrue(l, run)
    requires LiveTick(i) && i.screen.prompt == Shows(FreeText)
    ensures var w := WatchPrompt(l, i.screen, i.at);
      ClocksTrue(w, run + [i]) && w.reconcileFp == Some(PromptKeyOf(i.screen))
  {
    hide WaitedSince, StalledSince;
    if l.reconcileFp == Some(PromptKeyOf(i.screen)) {
      StillWaited(run, i, l.reconcileFp.value, l.reconcileSince.value);
    } else {
      NewlyWaited(run, i, PromptKeyOf(i.screen));
    }
    StillStalled(run, i, l.progressFp, l.progressFp,
                 if l.progressFp == None then l.lastHookAt.value else l.progressAt.value);
  }

  // The progress clock, at a tick that shows anything else.
  lemma ProgressTrue(l: Lost, run: seq<Input>, i: Input)
    requires l.lastHookAt.Some? && ClocksTrue(l, run)
    requires LiveTick(i) && i.screen.prompt != Shows(FreeText)
    ensures var p := TrackProgress(l.(reconcileFp := None, reconcileSince := None), i.screen, i.at);
      ClocksTrue(p, run + [i]) && p.progressFp == Some(i.screen.semantic)
  {
    hide WaitedSince, StalledSince;
    var fp := Some(i.screen.semantic);
    if l.progressFp == None {
      StillStalled(run, i, None, fp, l.lastHookAt.value);
    } else if l.progressFp == fp {
      StillStalled(run, i, fp, fp, l.progressAt.value);
    } else {
      NewlyStalled(run, i, fp);
    }
  }

  lemma UnderHooksClocks(e: Engine, c: Config, run: seq<Input>, i: Input)
    requires LostTrue(e, run) && e.mode == HooksActive && LiveTick(i)
    ensures LostTrue(TickUnderHooks(e, c, i.screen, i.at).0, run + [i])
  {
    hide LastHook, ClocksTrue, WatchPrompt, TrackProgress, StopWasLost, LostStopStuck, Remind, Watchdog, BudgetNow;
    StillLastHook(run, i, e.lost.lastHookAt.value);
    if Underway(e.control) {
      if i.screen.prompt == Shows(FreeText) {
        WatchedTrue(e.lost, run, i);
        SameHook(e.lost, i);
      } else {
        ProgressTrue(e.lost, run, i);
        SameHook(e.lost, i);
      }
    }
  }

  lemma SameHook(l: Lost, i: Input)
    requires i.TickIn?
    ensures WatchPrompt(l, i.screen, i.at).lastHookAt == l.lastHookAt
    ensures TrackProgress(l.(reconcileFp := None, reconcileSince := None), i.screen, i.at).lastHookAt == l.lastHookAt
  {
  }

  lemma HookClocks(e: Engine, c: Config, run: seq<Input>, o: Observation, now: Time)
    ensures LostTrue(OnHook(e, c, o, now).0, run + [HookIn(o, now)])
  {
    hide HookMeans, StalledSince;
    var i := HookIn(o, now);
    NewlyStalled(run, i, None);
    assert IsHookAt((run + [i])[|run|], now);
  }

  lemma QuietClocks(l: Lost, run: seq<Input>, i: Input)
    requires l.lastHookAt.Some? && ClocksTrue(l, run) && (i.SubmitIn? || i.ExpectIn?)
    ensures ClocksTrue(l, run + [i])
  {
    hide WaitedSince, StalledSince;
    if l.reconcileFp.Some? {
      StillWaited(run, i, l.reconcileFp.value, l.reconcileSince.value);
    }
    StillStalled(run, i, l.progressFp, l.progressFp,
                 if l.progressFp == None then l.lastHookAt.value else l.progressAt.value);
  }

  lemma SensedIs(e: Engine, c: Config, s: Screen, now: Time)
    ensures var f := Sensed(e, c, s, now);
      && f.lost == e.lost && f.control == e.control && f.turn == e.turn && f.prompting == e.prompting
      && f.submitted == e.submitted && (f.mode == HooksActive <==> e.mode == HooksActive)
  {
  }

  lemma StepClocks(e: Engine, c: Config, run: seq<Input>, i: Input)
    requires LostTrue(e, run)
    ensures LostTrue(Step(e, c, i).0, run + [i])
  {
    hide OnHook, TickUnderHooks, TickOnScreen, LastHook, ClocksTrue;
    match i
    case HookIn(o, now) => HookClocks(e, c, run, o, now);
    case TickIn(s, alive, now) =>
      var e1 := Sensed(e, c, s, now);
      SensedIs(e, c, s, now);
      hide Sensed;
      if Dead(s, alive) {
        if e.mode == HooksActive { StillLastHook(run, i, e.lost.lastHookAt.value); }
      } else if e1.mode == HooksActive {
        UnderHooksClocks(e1, c, run, i);
      } else {
        OnScreenMode(e1, c, s, now);
      }
    case _ =>
      if e.mode == HooksActive {
        StillLastHook(run, i, e.lost.lastHookAt.value);
        if Underway(e.control) { QuietClocks(e.lost, run, i); }
      }
  }

  lemma {:induction false} RunClocks(c: Config, run: seq<Input>)
    ensures LostTrue(After(NEW_ENGINE, c, run), run)
    decreases |run|
  {
    if run != [] {
      var n := |run| - 1;
      assert run == run[..n] + [run[n]];
      RunClocks(c, run[..n]);
      AfterSnoc(NEW_ENGINE, c, run[..n], run[n]);
      hide After, LostTrue;
      StepClocks(After(NEW_ENGINE, c, run[..n]), c, run[..n], run[n]);
    }
  }

  predicate Reconciles(acts: seq<Action>) {
    exists a :: a in acts && a.Publish? && a.what.Idle? && a.what.reconciled
  }

  lemma UnderHooksReconciles(e: Engine, c: Config, s: Screen, now: Time)
    ensures Reconciles(TickUnderHooks(e, c, s, now).1) ==>
      Underway(e.control) && s.prompt == Shows(FreeText) && StopWasLost(WatchPrompt(e.lost, s, now), c, now)
    ensures Advises(TickUnderHooks(e, c, s, now).1, LostStop) ==>
      && Underway(e.control) && s.prompt != Shows(FreeText)
      && LostStopStuck(TrackProgress(e.lost.(reconcileFp := None, reconcileSince := None), s, now), c, now)
  {
    hide Watchdog, BudgetNow, StopWasLost, LostStopStuck, WatchPrompt, TrackProgress;
    WatchdogHint(e.sense, e.nagging, c, s, now);
  }

  lemma OnScreenReconcilesNot(e: Engine, c: Config, s: Screen, now: Time)
    ensures !Reconciles(TickOnScreen(e, c, s, now).1)
  {
    OnScreenActs(e, c, s, now);
  }

  lemma HookReconcilesNot(e: Engine, c: Config, o: Observation, now: Time)
    ensures !Reconciles(OnHook(e, c, o, now).1)
  {
  }

  // An idle without a Stop hook is published only when the very free-text prompt on the screen stood on
  // every tick for the grace of a turn, and no hook came in that time.
  lemma IdleReconciledOnlyWhenWaiting(c: Config, run: seq<Input>, i: Input)
    requires Reconciles(Step(After(NEW_ENGINE, c, run), c, i).1)
    ensures LiveTick(i) && i.screen.prompt == Shows(FreeText)
    ensures exists since :: WaitedSince(run + [i], PromptKeyOf(i.screen), since) && i.at - since >= c.hookTurnGrace
    ensures exists last :: LastHook(run, last) && i.at - last >= c.hookTurnGrace
  {
    var e := After(NEW_ENGINE, c, run);
    RunClocks(c, run);
    hide After, OnHook, TickUnderHooks, TickOnScreen, LastHook, WaitedSince, StalledSince, WatchPrompt;
    match i
    case HookIn(o, now) => HookReconcilesNot(e, c, o, now);
    case SubmitIn(now) =>
    case ExpectIn(now) =>
    case TickIn(s, alive, now) =>
      var e1 := Sensed(e, c, s, now);
      SensedIs(e, c, s, now);
      OnScreenReconcilesNot(e1, c, s, now);
      UnderHooksReconciles(e1, c, s, now);
      hide Sensed;
      WatchedTrue(e.lost, run, i);
      SameHook(e.lost, i);
      var w := WatchPrompt(e.lost, s, now);
      assert WaitedSince(run + [i], PromptKeyOf(s), w.reconcileSince.value);
      assert LastHook(run, e.lost.lastHookAt.value);
  }

  // A lost Stop is suspected only when neither a hook nor progress on the screen was seen for as long.
  lemma LostStopOnlyWhenStalled(c: Config, run: seq<Input>, i: Input)
    requires Advises(Step(After(NEW_ENGINE, c, run), c, i).1, LostStop)
    ensures LiveTick(i) && i.screen.prompt != Shows(FreeText)
    ensures exists since :: StalledSince(run + [i], Some(i.screen.semantic), since) && i.at - since >= c.lostStopAfter
    ensures exists last :: LastHook(run, last) && i.at - last >= c.lostStopAfter
  {
    var e := After(NEW_ENGINE, c, run);
    RunClocks(c, run);
    hide After, OnHook, TickUnderHooks, TickOnScreen, LastHook, WaitedSince, StalledSince, TrackProgress;
    match i
    case HookIn(o, now) => HookAdvises(e, c, o, now, LostStop);
    case SubmitIn(now) =>
    case ExpectIn(now) =>
    case TickIn(s, alive, now) =>
      var e1 := Sensed(e, c, s, now);
      SensedIs(e, c, s, now);
      OnScreenSuspectsNoStop(e1, c, s, now);
      UnderHooksReconciles(e1, c, s, now);
      hide Sensed;
      ProgressTrue(e.lost, run, i);
      SameHook(e.lost, i);
      var p := TrackProgress(e.lost.(reconcileFp := None, reconcileSince := None), s, now);
      assert StalledSince(run + [i], Some(s.semantic), p.progressAt.value);
      assert LastHook(run, e.lost.lastHookAt.value);
  }

  lemma OnScreenSuspectsNoStop(e: Engine, c: Config, s: Screen, now: Time)
    ensures !Advises(TickOnScreen(e, c, s, now).1, LostStop)
  {
    hide BudgetNow, UpdatePostSubmit, Elapsed, Before;
  }

  // ---- complaining that a submit did not land ----------------------------------------------------------

  predicate ShowsEcho(i: Input) {
    LiveTick(i) && i.screen.prompt == Shows(FreeText) && i.screen.echo
  }

  // Nothing was submitted, and no screen was without a prompt.
  predicate Prompts(i: Input) {
    && !i.SubmitIn?
    && (LiveTick(i) ==> i.screen.prompt.Shows?)
  }

  predicate EchoAt(i: Input, at: Time) {
    ShowsEcho(i) && i.at == at
  }

  // Since the tick at `since`, which showed our own text in the box.
  ghost predicate EchoedSince(run: seq<Input>, since: Time) {
    exists j: nat :: j < |run| && EchoAt(run[j], since) && forall k :: j <= k < |run| ==> Prompts(run[k])
  }

  ghost predicate EchoTrue(e: Engine, run: seq<Input>) {
    e.mode == HooksActive || (e.submitted.echoSince.Some? ==> EchoedSince(run, e.submitted.echoSince.value))
  }

  lemma StillEchoed(run: seq<Input>, i: Input, since: Time)
    requires EchoedSince(run, since) && Prompts(i)
    ensures EchoedSince(run + [i], since)
  {
    var j: nat :| j < |run| && EchoAt(run[j], since) && forall k :: j <= k < |run| ==> Prompts(run[k]);
    assert EchoAt((run + [i])[j], since);
  }

  lemma NewlyEchoed(run: seq<Input>, i: Input)
    requires ShowsEcho(i)
    ensures EchoedSince(run + [i], i.at)
  {
    assert EchoAt((run + [i])[|run|], i.at);
  }

  // What a tick does to the memory of the last submit.
  lemma OnScreenSubmitted(e: Engine, c: Config, s: Screen, now: Time)
    ensures var u, v := UpdatePostSubmit(e.submitted, e.sense, c, s, now), TickOnScreen(e, c, s, now).0.submitted;
      && v == u.(echoSince := v.echoSince)
      && (v.echoSince == None || (s.prompt.Shows? && v.echoSince == e.submitted.echoSince)
          || (s.prompt == Shows(FreeText) && s.echo && v.echoSince == Some(now)))
  {
    hide Watchdog, Remind, BudgetNow, Settle, LivenessOf, Elapsed, InStartupGrace, Before;
  }

  lemma OnScreenComplains(e: Engine, c: Config, s: Screen, now: Time)
    requires Advises(TickOnScreen(e, c, s, now).1, SubmitUnconfirmed)
    ensures var since := TickOnScreen(e, c, s, now).0.submitted.echoSince;
      s.prompt == Shows(FreeText) && s.echo && since.Some? && now - since.value >= c.echoStuckAfter
  {
    hide Watchdog, Candidate, UpdatePostSubmit;
    var e1 := e.(submitted := UpdatePostSubmit(e.submitted, e.sense, c, s, now));
    WatchdogHint(e1.sense, e1.nagging, c, s, now);
    if s.prompt.Shows? {
      var p := e1.prompting;
      var p1 :=
        if p.published.Some? && s.promptFp != p.publishedPromptFp then WithdrawPublished(p, c, PromptChanged, now).0
        else p;
      CandidateComplains(e1.(prompting := p1, nagging := e1.nagging.(intervening := false)), c, s, now, s.prompt.kind);
    }
  }

  lemma CandidateComplains(e: Engine, c: Config, s: Screen, now: Time, kind: PromptKind)
    requires Advises(Candidate(e, c, s, now, kind).1, SubmitUnconfirmed)
    ensures var since := Candidate(e, c, s, now, kind).0.submitted.echoSince;
      kind == FreeText && s.echo && since.Some? && now - since.value >= c.echoStuckAfter
  {
    hide BudgetNow, InStartupGrace, Before, WatchCandidate;
  }

  lemma UnderHooksComplainsNot(e: Engine, c: Config, s: Screen, now: Time)
    ensures !Advises(TickUnderHooks(e, c, s, now).1, SubmitUnconfirmed)
  {
    hide Watchdog, BudgetNow, StopWasLost, LostStopStuck, WatchPrompt, TrackProgress;
    WatchdogHint(e.sense, e.nagging, c, s, now);
  }

  lemma OnScreenEcho(e: Engine, c: Config, run: seq<Input>, i: Input)
    requires EchoTrue(e, run) && e.mode != HooksActive && LiveTick(i)
    ensures EchoTrue(TickOnScreen(e, c, i.screen, i.at).0, run + [i])
  {
    hide EchoedSince, TickOnScreen, UpdatePostSubmit;
    OnScreenSubmitted(e, c, i.screen, i.at);
    var since := TickOnScreen(e, c, i.screen, i.at).0.submitted.echoSince;
    if since.Some? {
      if i.screen.prompt.Shows? && since == e.submitted.echoSince {
        StillEchoed(run, i, since.value);
      } else {
        NewlyEchoed(run, i);
      }
    }
  }

  lemma StepEcho(e: Engine, c: Config, run: seq<Input>, i: Input)
    requires EchoTrue(e, run)
    ensures EchoTrue(Step(e, c, i).0, run + [i])
  {
    hide EchoedSince, TickOnScreen, TickUnderHooks, HookMeans;
    match i
    case HookIn(o, now) =>
    case SubmitIn(now) =>
    case ExpectIn(now) =>
      if e.submitted.echoSince.Some? && e.mode != HooksActive { StillEchoed(run, i, e.submitted.echoSince.value); }
    case TickIn(s, alive, now) =>
      var e1 := Sensed(e, c, s, now);
      SensedIs(e, c, s, now);
      hide Sensed;
      UnderHooksMode(e1, c, s, now);
      if e.mode != HooksActive {
        if Dead(s, alive) {
          if e.submitted.echoSince.Some? { StillEchoed(run, i, e.submitted.echoSince.value); }
        } else {
          OnScreenEcho(e1, c, run, i);
        }
      }
  }

  lemma {:induction false} RunEcho(c: Config, run: seq<Input>)
    ensures EchoTrue(After(NEW_ENGINE, c, run), run)
    decreases |run|
  {
    if run != [] {
      var n := |run| - 1;
      assert run == run[..n] + [run[n]];
      RunEcho(c, run[..n]);
      AfterSnoc(NEW_ENGINE, c, run[..n], run[n]);
      hide After, EchoTrue;
      StepEcho(After(NEW_ENGINE, c, run[..n]), c, run[..n], run[n]);
    }
  }

  // A submit is called unconfirmed only when our own text is in the box and was there so long ago, with
  // nothing submitted and a prompt on every screen since.
  lemma UnconfirmedOnlyWhenEchoed(c: Config, run: seq<Input>, i: Input)
    requires Advises(Step(After(NEW_ENGINE, c, run), c, i).1, SubmitUnconfirmed)
    ensures ShowsEcho(i)
    ensures exists since :: EchoedSince(run + [i], since) && i.at - since >= c.echoStuckAfter
  {
    var e := After(NEW_ENGINE, c, run);
    RunEcho(c, run);
    hide After, OnHook, TickUnderHooks, TickOnScreen, EchoedSince;
    match i
    case HookIn(o, now) => HookAdvises(e, c, o, now, SubmitUnconfirmed);
    case SubmitIn(now) =>
    case ExpectIn(now) =>
    case TickIn(s, alive, now) =>
      var e1 := Sensed(e, c, s, now);
      SensedIs(e, c, s, now);
      UnderHooksComplainsNot(e1, c, s, now);
      OnScreenComplains(e1, c, s, now);
      hide Sensed;
      OnScreenEcho(e1, c, run, i);
      OnScreenMode(e1, c, s, now);
      assert EchoedSince(run + [i], TickOnScreen(e1, c, s, now).0.submitted.echoSince.value);
  }

  // ---- the heartbeat ---------------------------------------------------------------------------------------

  predicate Beats(i: Input) {
    i.TickIn? && i.screen.heartbeat.present
  }

  // The heartbeat changed to fp at tick m: the beat before it, if any, showed another.
  predicate ChangedAt(run: seq<Input>, m: nat, fp: Fp) {
    && m < |run| && Beats(run[m]) && run[m].screen.heartbeat.fp == fp
    && forall p :: 0 <= p < m && Beats(run[p]) && (forall q :: p < q < m ==> !Beats(run[q])) ==>
         run[p].screen.heartbeat.fp != fp
  }

  // It changed to fp at time `since`, and every beat since then showed fp.
  ghost predicate BeatSince(run: seq<Input>, fp: Fp, since: Time) {
    exists m: nat :: ChangedAt(run, m, fp) && run[m].at == since
      && forall k :: m <= k < |run| && Beats(run[k]) ==> run[k].screen.heartbeat.fp == fp
  }

  ghost predicate BeatTrue(s: Sense, run: seq<Input>) {
    match s.heartbeatFp
    case None => forall k :: 0 <= k < |run| ==> !Beats(run[k])
    case Some(fp) => s.heartbeatAt.Some? && BeatSince(run, fp, s.heartbeatAt.value)
  }

  lemma StillChanged(run: seq<Input>, i: Input, m: nat, fp: Fp)
    requires ChangedAt(run, m, fp)
    ensures ChangedAt(run + [i], m, fp)
  {
    var all := run + [i];
    assert all[m] == run[m];
    forall p | 0 <= p < m && Beats(all[p]) && (forall q :: p < q < m ==> !Beats(all[q]))
      ensures all[p].screen.heartbeat.fp != fp
    {
      assert all[p] == run[p] && forall q :: p < q < m ==> all[q] == run[q];
    }
  }

  lemma StillBeats(run: seq<Input>, i: Input, fp: Fp, since: Time)
    requires BeatSince(run, fp, since) && (Beats(i) ==> i.screen.heartbeat.fp == fp)
    ensures BeatSince(run + [i], fp, since)
  {
    var m: nat :| ChangedAt(run, m, fp) && run[m].at == since
      && forall k :: m <= k < |run| && Beats(run[k]) ==> run[k].screen.heartbeat.fp == fp;
    assert m < |run|;
    StillChanged(run, i, m, fp);
    hide ChangedAt;
    assert (run + [i])[m] == run[m];
  }

  lemma NewlyBeats(s: Sense, run: seq<Input>, i: Input)
    requires BeatTrue(s, run) && Beats(i) && s.heartbeatFp != Some(i.screen.heartbeat.fp)
    ensures BeatSince(run + [i], i.screen.heartbeat.fp, i.at)
  {
    var all, fp := run + [i], i.screen.heartbeat.fp;
    forall p | 0 <= p < |run| && Beats(all[p]) && (forall q :: p < q < |run| ==> !Beats(all[q]))
      ensures all[p].screen.heartbeat.fp != fp
    {
      assert all[p] == run[p];
      if s.heartbeatFp.Some? {
        var m: nat :| ChangedAt(run, m, s.heartbeatFp.value)
          && forall k :: m <= k < |run| && Beats(run[k]) ==> run[k].screen.heartbeat.fp == s.heartbeatFp.value;
        assert all[m] == run[m];
      }
    }
    assert ChangedAt(all, |run|, fp);
  }

  lemma TrackedBeat(e: Engine, c: Config, i: Input, run: seq<Input>)
    requires i.TickIn? && BeatTrue(e.sense, run)
    ensures BeatTrue(Sensed(e, c, i.screen, i.at).sense, run + [i])
    ensures Beats(i) ==> Sensed(e, c, i.screen, i.at).sense.heartbeatFp == Some(i.screen.heartbeat.fp)
  {
    hide BeatSince;
    if Beats(i) && e.sense.heartbeatFp != Some(i.screen.heartbeat.fp) {
      NewlyBeats(e.sense, run, i);
    } else if e.sense.heartbeatFp.Some? {
      StillBeats(run, i, e.sense.heartbeatFp.value, e.sense.heartbeatAt.value);
    }
  }

  lemma StepBeat(e: Engine, c: Config, i: Input, run: seq<Input>)
    requires BeatTrue(e.sense, run)
    ensures BeatTrue(Step(e, c, i).0.sense, run + [i])
  {
    hide TickOnScreen, TickUnderHooks, BeatSince, HookMeans;
    match i
    case TickIn(s, alive, now) =>
      TrackedBeat(e, c, i, run);
      OnScreenSense(Sensed(e, c, s, now), c, s, now);
      UnderHooksSense(Sensed(e, c, s, now), c, s, now);
    case _ =>
      if e.sense.heartbeatFp.Some? {
        StillBeats(run, i, e.sense.heartbeatFp.value, e.sense.heartbeatAt.value);
      }
  }

  lemma {:induction false} RunBeat(c: Config, run: seq<Input>)
    ensures BeatTrue(After(NEW_ENGINE, c, run).sense, run)
    decreases |run|
  {
    if run != [] {
      var n := |run| - 1;
      assert run == run[..n] + [run[n]];
      RunBeat(c, run[..n]);
      AfterSnoc(NEW_ENGINE, c, run[..n], run[n]);
      hide After, BeatTrue;
      StepBeat(After(NEW_ENGINE, c, run[..n]), c, run[n], run[..n]);
    }
  }

  // ---- taking a prompt for idle after a submit ---------------------------------------------------------

  predicate LastSubmit(run: seq<Input>, j: nat) {
    j < |run| && run[j].SubmitIn? && forall k :: j < k < |run| ==> !run[k].SubmitIn?
  }

  // The first living tick after input j.
  predicate FirstTick(run: seq<Input>, j: nat, m: nat) {
    j < m < |run| && LiveTick(run[m]) && forall q :: j < q < m ==> !LiveTick(run[q])
  }

  // What that tick showed.
  ghost predicate SeenContent(run: seq<Input>, j: nat, content: Fp) {
    exists m: nat :: FirstTick(run, j, m) && run[m].screen.content == content
  }

  // At tick k the agent is seen at work: no prompt, and a heartbeat that changed a short time ago.
  ghost predicate AtWork(run: seq<Input>, k: nat, c: Config)
    requires k < |run|
  {
    && Beats(run[k]) && run[k].screen.prompt == NoPrompt && run[k].screen.heartbeat.expected
    && exists since :: BeatingSince(run, k, since) && run[k].at - since < c.heartbeatStaleAfter
  }

  // As tick k shows it, the heartbeat last changed at `since`.
  ghost predicate BeatingSince(run: seq<Input>, k: nat, since: Time)
    requires k < |run| && Beats(run[k])
  {
    BeatSince(run[..k + 1], run[k].screen.heartbeat.fp, since)
  }

  // The screen of tick k shows that submit j was taken, or its grace is over.
  ghost predicate Evidence(run: seq<Input>, j: nat, k: nat, c: Config)
    requires j < k < |run|
  {
    && LiveTick(run[k])
    && (|| run[k].at >= run[j].at + c.postSubmitGrace
        || AtWork(run, k, c)
        || (!run[k].screen.echo
            && exists content :: SeenContent(run, j, content) && content != run[k].screen.content))
  }

  // Since submit j, some tick gave that evidence.
  ghost predicate Taken(run: seq<Input>, j: nat, c: Config)
    requires j < |run|
  {
    exists k: nat :: j < k < |run| && Evidence(run, j, k, c)
  }

  ghost predicate GraceTrue(e: Engine, c: Config, run: seq<Input>) {
    e.mode != HooksActive ==> forall j: nat :: LastSubmit(run, j) ==> SubmitTrue(e.submitted, c, run, j)
  }

  ghost predicate SubmitTrue(u: Submitted, c: Config, run: seq<Input>, j: nat)
    requires j < |run|
  {
    && (!u.active ==> Taken(run, j, c))
    && (u.active ==> u.graceUntil == Some(run[j].at + c.postSubmitGrace))
    && (u.active && u.content.Some? ==> SeenContent(run, j, u.content.value))
    && (u.active && u.content == None ==> forall q :: j < q < |run| ==> !LiveTick(run[q]))
  }

  lemma StillSeen(run: seq<Input>, i: Input, j: nat, content: Fp)
    requires SeenContent(run, j, content)
    ensures SeenContent(run + [i], j, content)
  {
    var m: nat :| FirstTick(run, j, m) && run[m].screen.content == content;
    assert forall q :: j < q <= m ==> (run + [i])[q] == run[q];
    assert FirstTick(run + [i], j, m);
  }

  lemma StillTaken(run: seq<Input>, i: Input, j: nat, c: Config)
    requires j < |run| && Taken(run, j, c)
    ensures Taken(run + [i], j, c)
  {
    var k: nat :| j < k < |run| && Evidence(run, j, k, c);
    forall content | SeenContent(run, j, content) ensures SeenContent(run + [i], j, content) {
      StillSeen(run, i, j, content);
    }
    hide SeenContent, BeatSince;
    if AtWork(run, k, c) {
      var since :| BeatingSince(run, k, since) && run[k].at - since < c.heartbeatStaleAfter;
      assert (run + [i])[..k + 1] == run[..k + 1];
      assert BeatingSince(run + [i], k, since);
    }
    assert Evidence(run + [i], j, k, c);
  }

  lemma StillTrue(u: Submitted, c: Config, run: seq<Input>, i: Input, j: nat)
    requires j < |run| && SubmitTrue(u, c, run, j) && (u.active && u.content == None ==> !LiveTick(i))
    ensures SubmitTrue(u, c, run + [i], j)
  {
    hide Taken, SeenContent;
    if !u.active {
      StillTaken(run, i, j, c);
    } else if u.content.Some? {
      StillSeen(run, i, j, u.content.value);
    }
  }

  lemma UpdatedTrue(u: Submitted, sense: Sense, c: Config, run: seq<Input>, i: Input, j: nat)
    requires j < |run| && SubmitTrue(u, c, run, j) && LiveTick(i)
    requires BeatTrue(sense, run + [i]) && (Beats(i) ==> sense.heartbeatFp == Some(i.screen.heartbeat.fp))
    ensures SubmitTrue(UpdatePostSubmit(u, sense, c, i.screen, i.at), c, run + [i], j)
  {
    hide SeenContent, BeatSince;
    if !u.active {
      StillTrue(u, c, run, i, j);
    } else {
      if u.content == None { NowSeen(run, i, j); } else { StillTrue(u, c, run, i, j); }
      var v := UpdatePostSubmit(u, sense, c, i.screen, i.at);
      if !v.active {
        var all, k := run + [i], |run|;
        assert all[k] == i && all[j] == run[j] && all[..k + 1] == all;
        if i.screen.prompt == NoPrompt && LivenessOf(sense, c, i.screen, i.at) == Live {
          assert BeatingSince(all, k, sense.heartbeatAt.value);
          assert AtWork(all, k, c);
        }
        assert Evidence(all, j, k, c);
      }
    }
  }

  lemma NowSeen(run: seq<Input>, i: Input, j: nat)
    requires j < |run| && LiveTick(i) && forall q :: j < q < |run| ==> !LiveTick(run[q])
    ensures SeenContent(run + [i], j, i.screen.content)
  {
    assert forall q :: j < q < |run| ==> (run + [i])[q] == run[q];
    assert FirstTick(run + [i], j, |run|);
  }

  lemma LastSubmitBefore(run: seq<Input>, i: Input, j: nat)
    requires LastSubmit(run + [i], j) && !i.SubmitIn?
    ensures LastSubmit(run, j)
  {
    forall k | j < k < |run| ensures !run[k].SubmitIn? {
      assert (run + [i])[k] == run[k];
    }
  }

  lemma SubmittedTrue(e: Engine, c: Config, run: seq<Input>, now: Time)
    ensures GraceTrue(OnSubmit(e, c, now), c, run + [SubmitIn(now)])
  {
    var all := run + [SubmitIn(now)];
    forall j: nat | LastSubmit(all, j) ensures SubmitTrue(OnSubmit(e, c, now).submitted, c, all, j) {
      assert all[|run|].SubmitIn?;
    }
  }

  lemma SameSubmitted(e: Engine, f: Engine, c: Config, run: seq<Input>, i: Input)
    requires GraceTrue(e, c, run) && !i.SubmitIn? && !LiveTick(i) && f.submitted == e.submitted
    requires f.mode != HooksActive ==> e.mode != HooksActive
    ensures GraceTrue(f, c, run + [i])
  {
    hide SubmitTrue;
    forall j: nat | LastSubmit(run + [i], j) && f.mode != HooksActive ensures SubmitTrue(f.submitted, c, run + [i], j) {
      LastSubmitBefore(run, i, j);
      StillTrue(e.submitted, c, run, i, j);
    }
  }

  // The grace is about our own text, not about the echo of it.
  lemma EchoAside(u: Submitted, since: Option<Time>, c: Config, run: seq<Input>, j: nat)
    requires j < |run| && SubmitTrue(u, c, run, j)
    ensures SubmitTrue(u.(echoSince := since), c, run, j)
  {
  }

  lemma OnScreenGrace(e: Engine, c: Config, run: seq<Input>, i: Input)
    requires GraceTrue(e, c, run) && e.mode != HooksActive && LiveTick(i)
    requires BeatTrue(e.sense, run + [i]) && (Beats(i) ==> e.sense.heartbeatFp == Some(i.screen.heartbeat.fp))
    ensures GraceTrue(TickOnScreen(e, c, i.screen, i.at).0, c, run + [i])
  {
    hide SubmitTrue, TickOnScreen, UpdatePostSubmit, BeatTrue;
    OnScreenSubmitted(e, c, i.screen, i.at);
    var u := UpdatePostSubmit(e.submitted, e.sense, c, i.screen, i.at);
    var v := TickOnScreen(e, c, i.screen, i.at).0.submitted;
    forall j: nat | LastSubmit(run + [i], j) ensures SubmitTrue(v, c, run + [i], j) {
      LastSubmitBefore(run, i, j);
      UpdatedTrue(e.submitted, e.sense, c, run, i, j);
      EchoAside(u, v.echoSince, c, run + [i], j);
    }
  }

  lemma StepGrace(e: Engine, c: Config, run: seq<Input>, i: Input)
    requires GraceTrue(e, c, run) && BeatTrue(e.sense, run)
    ensures GraceTrue(Step(e, c, i).0, c, run + [i])
  {
    hide GraceTrue, TickOnScreen, TickUnderHooks, HookMeans, BeatTrue;
    match i
    case HookIn(o, now) => SameSubmitted(e, OnHook(e, c, o, now).0, c, run, i);
    case SubmitIn(now) => SubmittedTrue(e, c, run, now);
    case ExpectIn(now) => SameSubmitted(e, ExpectHooks(e, now), c, run, i);
    case TickIn(s, alive, now) =>
      var e1 := Sensed(e, c, s, now);
      SensedIs(e, c, s, now);
      TrackedBeat(e, c, i, run);
      hide Sensed;
      GraceSensed(e, e1, c, run);
      if Dead(s, alive) {
        SameSubmitted(e, Tick(e, c, s, alive, now).0, c, run, i);
      } else if e1.mode == HooksActive {
        UnderHooksMode(e1, c, s, now);
        UnderHooksGrace(TickUnderHooks(e1, c, s, now).0, c, run + [i]);
      } else {
        OnScreenGrace(e1, c, run, i);
      }
  }

  lemma GraceSensed(e: Engine, f: Engine, c: Config, run: seq<Input>)
    requires GraceTrue(e, c, run) && f.submitted == e.submitted && (f.mode == HooksActive <==> e.mode == HooksActive)
    ensures GraceTrue(f, c, run)
  {
    hide SubmitTrue, LastSubmit;
  }

  lemma UnderHooksGrace(e: Engine, c: Config, run: seq<Input>)
    requires e.mode == HooksActive
    ensures GraceTrue(e, c, run)
  {
  }

  lemma {:induction false} RunGrace(c: Config, run: seq<Input>)
    ensures GraceTrue(After(NEW_ENGINE, c, run), c, run)
    decreases |run|
  {
    if run != [] {
      var n := |run| - 1;
      assert run == run[..n] + [run[n]];
      RunGrace(c, run[..n]);
      RunBeat(c, run[..n]);
      AfterSnoc(NEW_ENGINE, c, run[..n], run[n]);
      hide After, GraceTrue, BeatTrue;
      StepGrace(After(NEW_ENGINE, c, run[..n]), c, run[..n], run[n]);
    }
  }

  // After a submit a free-text prompt is published only when the grace is over, or some tick since has
  // shown the agent at work or the screen's content changed with our text gone from the box.
  lemma IdleAfterSubmitNeedsEvidence(c: Config, run: seq<Input>, i: Input, j: nat, meaning: Fp)
    requires LastSubmit(run, j)
    requires Publishes(Step(After(NEW_ENGINE, c, run), c, i).1, ScreenKey(FreeText, meaning))
    ensures Taken(run + [i], j, c)
  {
    var e := After(NEW_ENGINE, c, run);
    NewEngineOk();
    RunKeeps(NEW_ENGINE, c, run);
    RunGrace(c, run);
    RunBeat(c, run);
    hide After, OnHook, TickUnderHooks, TickOnScreen, EngineOk, BeatTrue, AtWork;
    match i
    case HookIn(o, now) => HookPublishesNoScreen(e, c, o, now, meaning);
    case SubmitIn(now) =>
    case ExpectIn(now) =>
    case TickIn(s, alive, now) =>
      var e1 := Sensed(e, c, s, now);
      SensedIs(e, c, s, now);
      UnderHooksPublishesNoScreen(e1, c, s, now, meaning);
      OnScreenPublishes(e1, c, s, now, meaning);
      TrackedBeat(e, c, i, run);
      hide Sensed;
      OnScreenMode(e1, c, s, now);
      OnScreenGrace(e1, c, run, i);
      StillLast(run, i, j);
      if TickOnScreen(e1, c, s, now).0.submitted.active {
        assert (run + [i])[|run|] == i && (run + [i])[j] == run[j];
        assert Evidence(run + [i], j, |run|, c);
      }
  }

  lemma StillLast(run: seq<Input>, i: Input, j: nat)
    requires LastSubmit(run, j) && !i.SubmitIn?
    ensures LastSubmit(run + [i], j)
  {
  }
}
