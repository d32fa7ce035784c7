/**
  When exactly the belief engine must speak up (daemon/belief.py): the converses of the laws in
  `BeliefEvidence`.  A screen that does not change for the budget in force is reported, a lost Stop is
  suspected or replaced by an idle, and a submit that stays in the box is complained about; what may hold
  an advisory back is only that the budget of an earlier one still runs.
*/
module BeliefAdvice {
  import opened Prelude
  import opened Hooks
  import opened Belief
  import opened BeliefEvidence
  import opened BeliefPrompts

  // ---- the budget in force, as the run shows it -----------------------------------------------------------

  // At tick k an unchanged meaning may last for b: as long as the heartbeat it shows lets it.
  ghost predicate InForce(c: Config, run: seq<Input>, k: nat, b: Time)
    requires k < |run| && run[k].TickIn?
  {
    var s := run[k].screen;
    if !s.heartbeat.present || !s.heartbeat.expected then
      b == (if s.longRunning then c.liveBudget else c.unknownBudget)
    else
      exists since :: BeatingSince(run, k, since)
        && b == (if run[k].at - since < c.heartbeatStaleAfter then c.liveBudget else c.staleBudget)
  }

  lemma BudgetIsInForce(sense: Sense, c: Config, run: seq<Input>, i: Input, b: Time)
    requires i.TickIn? && BeatTrue(sense, run + [i])
    requires Beats(i) ==> sense.heartbeatFp == Some(i.screen.heartbeat.fp)
    ensures (run + [i])[|run|] == i
    ensures InForce(c, run + [i], |run|, b) <==> b == BudgetNow(sense, c, i.screen, i.at)
  {
    var all, s := run + [i], i.screen;
    assert all[|run|] == i && all[..|run| + 1] == all;
    if s.heartbeat.present && s.heartbeat.expected {
      hide BeatSince;
      assert BeatingSince(all, |run|, sense.heartbeatAt.value);
      forall since | BeatingSince(all, |run|, since) ensures since == sense.heartbeatAt.value {
        OneChange(all, s.heartbeat.fp, since, sense.heartbeatAt.value);
      }
    }
  }

  lemma InForceStays(c: Config, run: seq<Input>, i: Input, k: nat, b: Time)
    requires k < |run| && run[k].TickIn?
    ensures (run + [i])[k] == run[k]
    ensures InForce(c, run + [i], k, b) <==> InForce(c, run, k, b)
  {
    var all := run + [i];
    assert all[k] == run[k] && all[..k + 1] == run[..k + 1];
    hide BeatSince;
    if Beats(run[k]) {
      assert forall since :: BeatingSince(all, k, since) <==> BeatingSince(run, k, since);
    }
  }

  // ---- how long the screen has meant the same ----------------------------------------------------------------

  ghost predicate SenseFirst(s: Sense, run: seq<Input>) {
    forall meaning: Fp, since :: MeantSince(run, meaning, since) ==>
      s.semanticFp == Some(meaning) && s.semanticAt.Some? && s.semanticAt.value <= since
  }

  predicate Until(run: seq<Input>, t: Time) {
    forall i :: i in run ==> i.at <= t
  }

  lemma MeantBefore(run: seq<Input>, i: Input, meaning: Fp, since: Time)
    requires MeantSince(run + [i], meaning, since)
    ensures Means(i, meaning)
    ensures MeantSince(run, meaning, since) || (i.TickIn? && i.at == since)
  {
    var all := run + [i];
    var j: nat :| j < |all| && IsTickAt(all[j], since) && forall k :: j <= k < |all| ==> Means(all[k], meaning);
    assert all[|run|] == i;
    if j < |run| {
      assert IsTickAt(run[j], since);
      forall k | j <= k < |run| ensures Means(run[k], meaning) {
        assert all[k] == run[k];
      }
    }
  }

  lemma MeantUntil(run: seq<Input>, meaning: Fp, since: Time, t: Time)
    requires MeantSince(run, meaning, since) && Until(run, t)
    ensures since <= t
  {
    var j: nat :| j < |run| && IsTickAt(run[j], since) && forall k :: j <= k < |run| ==> Means(run[k], meaning);
    assert run[j] in run;
  }

  lemma TrackedFirst(e: Engine, c: Config, run: seq<Input>, i: Input)
    requires i.TickIn? && SenseTrue(e.sense, run) && SenseFirst(e.sense, run) && Until(run, i.at)
    ensures SenseFirst(Sensed(e, c, i.screen, i.at).sense, run + [i])
  {
    var s := Sensed(e, c, i.screen, i.at).sense;
    hide MeantSince, Until;
    forall meaning: Fp, since | MeantSince(run + [i], meaning, since)
      ensures s.semanticFp == Some(meaning) && s.semanticAt.Some? && s.semanticAt.value <= since
    {
      MeantBefore(run, i, meaning, since);
      if e.sense.semanticFp.Some? {
        MeantUntil(run, e.sense.semanticFp.value, e.sense.semanticAt.value, i.at);
      }
    }
  }

  lemma StepFirst(e: Engine, c: Config, run: seq<Input>, i: Input)
    requires SenseTrue(e.sense, run) && SenseFirst(e.sense, run) && Until(run, i.at)
    ensures SenseFirst(Step(e, c, i).0.sense, run + [i])
  {
    hide TickOnScreen, TickUnderHooks, MeantSince, HookMeans, Until;
    match i
    case TickIn(s, alive, now) =>
      TrackedFirst(e, c, run, i);
      OnScreenSense(Sensed(e, c, s, now), c, s, now);
      UnderHooksSense(Sensed(e, c, s, now), c, s, now);
    case _ =>
      forall meaning: Fp, since | MeantSince(run + [i], meaning, since) ensures MeantSince(run, meaning, since) {
        MeantBefore(run, i, meaning, since);
      }
  }

  lemma TimedBefore(run: seq<Input>, i: Input)
    requires Timed(run + [i])
    ensures Timed(run) && Until(run, i.at)
  {
    var all := run + [i];
    assert forall k :: 0 <= k < |run| ==> all[k] == run[k];
    forall x | x in run ensures x.at <= i.at {
      var k :| 0 <= k < |run| && run[k] == x;
      assert all[k].at <= all[|run|].at;
    }
  }

  lemma {:induction false} RunFirst(c: Config, run: seq<Input>)
    requires Timed(run)
    ensures SenseFirst(After(NEW_ENGINE, c, run).sense, run)
    decreases |run|
  {
    if run != [] {
      var n := |run| - 1;
      assert run == run[..n] + [run[n]];
      TimedBefore(run[..n], run[n]);
      RunFirst(c, run[..n]);
      RunSense(c, run[..n]);
      AfterSnoc(NEW_ENGINE, c, run[..n], run[n]);
      hide After, SenseFirst, SenseTrue, Until;
      StepFirst(After(NEW_ENGINE, c, run[..n]), c, run[..n], run[n]);
    }
  }

  // ---- the advisory that holds others back -----------------------------------------------------------------

  predicate AdvisesAny(acts: seq<Action>) {
    exists a :: a in acts && a.Publish? && a.what.Advisory?
  }

  predicate AdvisedAt(c: Config, run: seq<Input>, k: nat) {
    k < |run| && run[k].TickIn? && AdvisesAny(Step(After(NEW_ENGINE, c, run[..k]), c, run[k]).1)
  }

  predicate MeantFrom(run: seq<Input>, k: nat) {
    k < |run| && run[k].TickIn? && forall m :: k <= m < |run| ==> Means(run[m], run[k].screen.semantic)
  }

  // Tick k advised, the budget then in force was b, and the screen has meant the same since.
  ghost predicate Nagged(c: Config, run: seq<Input>, k: nat, b: Time) {
    MeantFrom(run, k) && AdvisedAt(c, run, k) && InForce(c, run, k, b)
  }

  // The budget of every such advisory is over.
  ghost predicate Free(c: Config, run: seq<Input>, i: Input)
    requires i.TickIn?
  {
    forall k: nat, b :: Nagged(c, run, k, b) && run[k].screen.semantic == i.screen.semantic ==> run[k].at + b <= i.at
  }

  ghost predicate HeldBy(c: Config, run: seq<Input>, k: nat, b: Time, until: Time) {
    Nagged(c, run, k, b) && until == run[k].at + b
  }

  ghost predicate NagTrue(n: Nagging, c: Config, run: seq<Input>) {
    && (n.nextNag.Some? ==> exists k: nat, b :: HeldBy(c, run, k, b, n.nextNag.value))
    && (forall k: nat, b, t :: Nagged(c, run, k, b) && Until(run, t) && !Before(t, n.nextNag) ==> run[k].at + b <= t)
  }

  // Either no advisory and the throttle as it was, or one, which the throttle allowed.
  predicate Nags(n: Nagging, n': Nagging, acts: seq<Action>, now: Time, budget: Time) {
    if AdvisesAny(acts) then !Before(now, n.nextNag) && n'.nextNag == Some(now + budget)
    else n'.nextNag == n.nextNag
  }

  lemma RemindNags(n: Nagging, budget: Time, now: Time, hint: Hint)
    ensures var (n', acts) := Remind(n, budget, now, hint);
      && Nags(n, n', acts, now, budget)
      && (Advises(acts, hint) <==> !Before(now, n.nextNag))
      && (AdvisesAny(acts) <==> !Before(now, n.nextNag))
      && (acts == [] <==> Before(now, n.nextNag))
      && n'.intervening
  {
    var (n', acts) := Remind(n, budget, now, hint);
    if !Before(now, n.nextNag) {
      assert acts[0] in acts && acts[0].what.hint == hint;
    }
  }

  lemma WatchdogNags(sense: Sense, n: Nagging, c: Config, s: Screen, now: Time)
    ensures var (n', acts) := Watchdog(sense, n, c, s, now);
      && Nags(n, n', acts, now, BudgetNow(sense, c, s, now))
      && (Advises(acts, SuspectedHung) <==>
            Elapsed(now, sense.semanticAt) >= BudgetNow(sense, c, s, now) && !Before(now, n.nextNag))
      && (n'.intervening <==> Elapsed(now, sense.semanticAt) >= BudgetNow(sense, c, s, now))
  {
    hide Remind, BudgetNow, Elapsed;
    RemindNags(n, BudgetNow(sense, c, s, now), now, SuspectedHung);
  }

  lemma CandidateNags(e: Engine, c: Config, s: Screen, now: Time, kind: PromptKind)
    ensures var (f, acts) := Candidate(e, c, s, now, kind);
      && Nags(e.nagging, f.nagging, acts, now, BudgetNow(e.sense, c, s, now))
      && (Advises(acts, SubmitUnconfirmed) <==>
            && kind == FreeText && !InStartupGrace(e, c, now) && s.echo && !Before(now, e.nagging.nextNag)
            && Elapsed(now, if e.submitted.echoSince == None then Some(now) else e.submitted.echoSince)
                 >= c.echoStuckAfter)
  {
    hide Remind, BudgetNow, Elapsed, InStartupGrace, WatchCandidate;
    RemindNags(e.nagging, BudgetNow(e.sense, c, s, now), now, SubmitUnconfirmed);
  }

  lemma QuietFirst(first: seq<Action>, rest: seq<Action>)
    requires !AdvisesAny(first)
    ensures AdvisesAny(first + rest) <==> AdvisesAny(rest)
    ensures forall hint :: Advises(first + rest, hint) <==> Advises(rest, hint)
  {
    assert forall a :: a in first + rest <==> a in first || a in rest;
  }

  lemma OnScreenNags(e: Engine, c: Config, s: Screen, now: Time)
    ensures var (f, acts) := TickOnScreen(e, c, s, now);
      && Nags(e.nagging, f.nagging, acts, now, BudgetNow(e.sense, c, s, now))
      && (!s.prompt.Shows? ==>
            (Advises(acts, SuspectedHung) <==>
               Elapsed(now, e.sense.semanticAt) >= BudgetNow(e.sense, c, s, now) && !Before(now, e.nagging.nextNag))
            && f.control == (if Elapsed(now, e.sense.semanticAt) >= BudgetNow(e.sense, c, s, now)
                             then InterventionRequired else Busy))
  {
    hide Watchdog, Candidate, UpdatePostSubmit, Elapsed, Before, BudgetNow, Advises;
    var e1 := e.(submitted := UpdatePostSubmit(e.submitted, e.sense, c, s, now));
    var p := e1.prompting;
    if s.prompt.Shows? {
      var (p1, acts) :=
        if p.published.Some? && s.promptFp != p.publishedPromptFp then WithdrawPublished(p, c, PromptChanged, now)
        else (p, []);
      var e2 := e1.(prompting := p1, nagging := e1.nagging.(intervening := false));
      CandidateNags(e2, c, s, now, s.prompt.kind);
      QuietFirst(acts, Candidate(e2, c, s, now, s.prompt.kind).1);
    } else {
      var acts := if p.published.Some? then WithdrawPublished(p, c, TurnResumed, now).1 else [];
      WatchdogNags(e1.sense, e1.nagging, c, s, now);
      QuietFirst(acts, Watchdog(e1.sense, e1.nagging, c, s, now).1);
    }
  }

  lemma UnderHooksNags(e: Engine, c: Config, s: Screen, now: Time)
    ensures var (f, acts) := TickUnderHooks(e, c, s, now);
      Nags(e.nagging, f.nagging, acts, now, BudgetNow(e.sense, c, s, now))
  {
    hide Remind, Watchdog, BudgetNow, StopWasLost, LostStopStuck, WatchPrompt, TrackProgress, Before;
    RemindNags(e.nagging, BudgetNow(e.sense, c, s, now), now, LostStop);
    WatchdogNags(e.sense, e.nagging, c, s, now);
  }

  lemma AdvisedStays(c: Config, run: seq<Input>, i: Input, k: nat)
    requires k < |run|
    ensures (run + [i])[k] == run[k]
    ensures AdvisedAt(c, run + [i], k) <==> AdvisedAt(c, run, k)
  {
    assert (run + [i])[..k] == run[..k] && (run + [i])[k] == run[k];
    hide Step, After;
  }

  lemma MeantFromStays(run: seq<Input>, i: Input, k: nat)
    requires k < |run|
    ensures MeantFrom(run + [i], k) <==> MeantFrom(run, k) && Means(i, run[k].screen.semantic)
  {
    var all := run + [i];
    assert all[|run|] == i && forall m :: 0 <= m < |run| ==> all[m] == run[m];
    if MeantFrom(all, k) {
      forall m | k <= m < |run| ensures Means(run[m], run[k].screen.semantic) {
        assert Means(all[m], all[k].screen.semantic);
      }
    }
  }

  lemma NaggedStays(c: Config, run: seq<Input>, i: Input, k: nat, b: Time)
    requires k < |run|
    ensures Nagged(c, run + [i], k, b) <==> Nagged(c, run, k, b) && Means(i, run[k].screen.semantic)
  {
    AdvisedStays(c, run, i, k);
    MeantFromStays(run, i, k);
    hide AdvisedAt, InForce;
    if run[k].TickIn? { InForceStays(c, run, i, k, b); }
  }

  lemma MeantFromIsSense(s: Sense, run: seq<Input>, k: nat)
    requires SenseFirst(s, run) && MeantFrom(run, k)
    ensures s.semanticFp == Some(run[k].screen.semantic)
  {
    assert IsTickAt(run[k], run[k].at);
    assert MeantSince(run, run[k].screen.semantic, run[k].at);
  }

  // What the throttle knows when tick i has been compared with the screens before it.
  ghost predicate NagBefore(n: Nagging, c: Config, run: seq<Input>, i: Input) {
    && (n.nextNag.Some? ==>
          exists k: nat, b :: HeldBy(c, run, k, b, n.nextNag.value) && Means(i, run[k].screen.semantic))
    && (forall k: nat, b, t ::
          Nagged(c, run, k, b) && Means(i, run[k].screen.semantic) && Until(run, t) && !Before(t, n.nextNag) ==>
            run[k].at + b <= t)
  }

  lemma NagSensed(e: Engine, c: Config, run: seq<Input>, i: Input)
    requires NagTrue(e.nagging, c, run) && SenseFirst(e.sense, run) && i.TickIn?
    ensures NagBefore(Sensed(e, c, i.screen, i.at).nagging, c, run, i)
  {
    hide InForce, AdvisedAt, SenseFirst, Until;
    forall k: nat, b | Nagged(c, run, k, b)
      ensures MeantFrom(run, k) && e.sense.semanticFp == Some(run[k].screen.semantic)
    {
      MeantFromIsSense(e.sense, run, k);
    }
    var n := Sensed(e, c, i.screen, i.at).nagging;
    if n.nextNag.Some? {
      var k: nat, b :| HeldBy(c, run, k, b, e.nagging.nextNag.value);
      assert Means(i, run[k].screen.semantic);
    }
  }

  lemma UntilMore(run: seq<Input>, i: Input, t: Time)
    ensures Until(run + [i], t) <==> Until(run, t) && i.at <= t
  {
    assert forall x :: x in run + [i] <==> x in run || x == i;
  }

  lemma StillNags(n: Nagging, n': Nagging, c: Config, run: seq<Input>, i: Input)
    requires NagBefore(n, c, run, i) && !AdvisedAt(c, run + [i], |run|) && n'.nextNag == n.nextNag
    ensures NagTrue(n', c, run + [i])
  {
    hide InForce, AdvisedAt, Until, Means;
    var all := run + [i];
    if n.nextNag.Some? {
      var k: nat, b :| HeldBy(c, run, k, b, n.nextNag.value) && Means(i, run[k].screen.semantic);
      NaggedIndex(c, run, k, b);
      NaggedStays(c, run, i, k, b);
      assert HeldBy(c, all, k, b, n.nextNag.value);
    }
    forall k: nat, b, t | Nagged(c, all, k, b) && Until(all, t) && !Before(t, n.nextNag) ensures all[k].at + b <= t {
      NaggedIndex(c, all, k, b);
      assert k < |run|;
      NaggedStays(c, run, i, k, b);
      UntilMore(run, i, t);
    }
  }

  lemma NaggedIndex(c: Config, run: seq<Input>, k: nat, b: Time)
    requires Nagged(c, run, k, b)
    ensures k < |run| && run[k].TickIn? && AdvisedAt(c, run, k) && MeantFrom(run, k) && InForce(c, run, k, b)
  {
  }

  lemma NewNag(n: Nagging, n': Nagging, c: Config, run: seq<Input>, i: Input, budget: Time)
    requires NagBefore(n, c, run, i) && i.TickIn? && Until(run, i.at)
    requires (run + [i])[|run|] == i && AdvisedAt(c, run + [i], |run|)
    requires forall b :: InForce(c, run + [i], |run|, b) <==> b == budget
    requires !Before(i.at, n.nextNag) && n'.nextNag == Some(i.at + budget)
    ensures NagTrue(n', c, run + [i])
  {
    var all := run + [i];
    assert MeantFrom(all, |run|);
    assert HeldBy(c, all, |run|, budget, i.at + budget);
    hide InForce, AdvisedAt, Until, Means;
    forall k: nat, b, t | Nagged(c, all, k, b) && Until(all, t) && !Before(t, n'.nextNag) ensures all[k].at + b <= t {
      NaggedIndex(c, all, k, b);
      UntilMore(run, i, t);
      if k < |run| {
        NaggedStays(c, run, i, k, b);
        assert run[k].at + b <= i.at;
      }
    }
  }

  // The throttle lets an advisory through exactly when no earlier one's budget runs.
  lemma FreeExactly(n: Nagging, c: Config, run: seq<Input>, i: Input)
    requires NagBefore(n, c, run, i) && Until(run, i.at) && i.TickIn?
    ensures Free(c, run, i) <==> !Before(i.at, n.nextNag)
  {
    hide InForce, AdvisedAt, Until;
    if Free(c, run, i) && n.nextNag.Some? {
      var k: nat, b :| HeldBy(c, run, k, b, n.nextNag.value) && Means(i, run[k].screen.semantic);
    }
  }

  lemma StepNag(c: Config, run: seq<Input>, i: Input)
    requires var e := After(NEW_ENGINE, c, run);
      NagTrue(e.nagging, c, run) && SenseFirst(e.sense, run) && BeatTrue(e.sense, run)
    requires Until(run, i.at)
    ensures NagTrue(Step(After(NEW_ENGINE, c, run), c, i).0.nagging, c, run + [i])
  {
    var e := After(NEW_ENGINE, c, run);
    var all := run + [i];
    assert all[..|run|] == run && all[|run|] == i;
    var (f, acts) := Step(e, c, i);
    assert AdvisedAt(c, all, |run|) <==> i.TickIn? && AdvisesAny(acts);
    hide After, NagTrue, NagBefore, SenseFirst, BeatTrue, AdvisedAt, Until;
    match i
    case TickIn(s, alive, now) =>
      TickNag(e, c, run, i);
    case _ =>
      NagQuiet(e.nagging, c, run, i);
      hide HookMeans;
      StillNags(e.nagging, f.nagging, c, run, i);
  }

  lemma NagQuiet(n: Nagging, c: Config, run: seq<Input>, i: Input)
    requires NagTrue(n, c, run) && !i.TickIn?
    ensures NagBefore(n, c, run, i)
  {
    hide InForce, AdvisedAt, Until;
    if n.nextNag.Some? {
      var k: nat, b :| HeldBy(c, run, k, b, n.nextNag.value);
      NaggedIndex(c, run, k, b);
      assert Means(i, run[k].screen.semantic);
    }
  }

  lemma TickNags(e: Engine, c: Config, s: Screen, alive: bool, now: Time)
    ensures var e1 := Sensed(e, c, s, now);
      var (f, acts) := Tick(e, c, s, alive, now);
      Nags(e1.nagging, f.nagging, acts, now, BudgetNow(e1.sense, c, s, now))
  {
    var e1 := Sensed(e, c, s, now);
    OnScreenNags(e1, c, s, now);
    UnderHooksNags(e1, c, s, now);
    hide TickOnScreen, TickUnderHooks, BudgetNow, Before;
  }

  lemma TickNag(e: Engine, c: Config, run: seq<Input>, i: Input)
    requires NagTrue(e.nagging, c, run) && SenseFirst(e.sense, run) && BeatTrue(e.sense, run)
    requires Until(run, i.at) && i.TickIn?
    requires (run + [i])[|run|] == i
    requires AdvisedAt(c, run + [i], |run|) <==> AdvisesAny(Tick(e, c, i.screen, i.alive, i.at).1)
    ensures NagTrue(Tick(e, c, i.screen, i.alive, i.at).0.nagging, c, run + [i])
  {
    hide Tick, Sensed, NagTrue, NagBefore, SenseFirst, BeatTrue, AdvisedAt, Until, BudgetNow, Before, InForce;
    hide AdvisesAny;
    var s, now := i.screen, i.at;
    var e1 := Sensed(e, c, s, now);
    NagSensed(e, c, run, i);
    TrackedBeat(e, c, i, run);
    TickNags(e, c, s, i.alive, now);
    var (f, acts) := Tick(e, c, s, i.alive, now);
    if AdvisesAny(acts) {
      forall b ensures InForce(c, run + [i], |run|, b) <==> b == BudgetNow(e1.sense, c, s, now) {
        BudgetIsInForce(e1.sense, c, run, i, b);
      }
      NewNag(e1.nagging, f.nagging, c, run, i, BudgetNow(e1.sense, c, s, now));
    } else {
      StillNags(e1.nagging, f.nagging, c, run, i);
    }
  }

  lemma {:induction false} RunNag(c: Config, run: seq<Input>)
    requires Timed(run)
    ensures NagTrue(After(NEW_ENGINE, c, run).nagging, c, run)
    decreases |run|
  {
    if run != [] {
      var n := |run| - 1;
      assert run == run[..n] + [run[n]];
      TimedBefore(run[..n], run[n]);
      RunNag(c, run[..n]);
      RunFirst(c, run[..n]);
      RunBeat(c, run[..n]);
      AfterSnoc(NEW_ENGINE, c, run[..n], run[n]);
      hide After, SenseFirst, BeatTrue, NagTrue, Until, Step;
      StepNag(c, run[..n], run[n]);
    }
  }

  // ---- calling the agent hung -------------------------------------------------------------------------------

  // The screen has meant the same for b.
  ghost predicate Unchanged(run: seq<Input>, meaning: Fp, now: Time, b: Time) {
    exists since :: MeantSince(run, meaning, since) && now - since >= b
  }

  // What the run says about the engine that judges tick i.
  lemma Judged(c: Config, run: seq<Input>, i: Input, b: Time)
    requires Timed(run + [i]) && i.TickIn?
    ensures var e1 := Sensed(After(NEW_ENGINE, c, run), c, i.screen, i.at);
      && (run + [i])[|run|] == i
      && (Free(c, run, i) <==> !Before(i.at, e1.nagging.nextNag))
      && (InForce(c, run + [i], |run|, b) <==> b == BudgetNow(e1.sense, c, i.screen, i.at))
      && (Unchanged(run + [i], i.screen.semantic, i.at, b) <==> Elapsed(i.at, e1.sense.semanticAt) >= b)
  {
    var e := After(NEW_ENGINE, c, run);
    var e1 := Sensed(e, c, i.screen, i.at);
    TimedBefore(run, i);
    RunNag(c, run);
    RunFirst(c, run);
    RunSense(c, run);
    RunBeat(c, run);
    NagSensed(e, c, run, i);
    FreeExactly(e1.nagging, c, run, i);
    TrackedBeat(e, c, i, run);
    BudgetIsInForce(e1.sense, c, run, i, b);
    TrackedSense(e, c, i, run);
    TrackedFirst(e, c, run, i);
    hide After, Sensed, NagTrue, NagBefore, BeatTrue, Until, InForce, Free, MeantSince, BudgetNow;
    var meaning := i.screen.semantic;
    assert MeantSince(run + [i], meaning, e1.sense.semanticAt.value);
  }

  // Without hooks, on a screen without a prompt: the agent is called hung exactly when the screen has meant
  // the same for the budget in force and no earlier advisory's budget runs; it asks for help meanwhile.
  lemma HungExactlyWhen(c: Config, run: seq<Input>, i: Input, b: Time)
    requires NoHooks(run) && Timed(run + [i]) && LiveTick(i) && !i.screen.prompt.Shows?
    requires InForce(c, run + [i], |run|, b)
    ensures var (f, acts) := Step(After(NEW_ENGINE, c, run), c, i);
      var frozen := Unchanged(run + [i], i.screen.semantic, i.at, b);
      && (Advises(acts, SuspectedHung) <==> frozen && Free(c, run, i))
      && f.control == (if frozen then InterventionRequired else Busy)
  {
    var e := After(NEW_ENGINE, c, run);
    NoHooksMode(c, run);
    Judged(c, run, i, b);
    var e1 := Sensed(e, c, i.screen, i.at);
    SensedIs(e, c, i.screen, i.at);
    OnScreenNags(e1, c, i.screen, i.at);
    hide TickOnScreen, After, Free, InForce, Unchanged, Timed, NoHooks, Before, BudgetNow, Elapsed;
  }

  // ---- a hook that was lost -----------------------------------------------------------------------------------

  ghost predicate WaitedFirst(l: Lost, run: seq<Input>) {
    forall fp: Fp, since :: WaitedSince(run, fp, since) ==>
      l.reconcileFp == Some(fp) && l.reconcileSince.Some? && l.reconcileSince.value <= since
  }

  ghost predicate StalledFirst(l: Lost, run: seq<Input>) {
    forall fp: Option<Fp>, since :: StalledSince(run, fp, since) && fp.Some? ==>
      || (l.progressFp == None && l.lastHookAt == Some(since))
      || (l.progressFp == fp && l.progressAt.Some? && l.progressAt.value <= since)
  }

  ghost predicate LostFirst(e: Engine, run: seq<Input>) {
    e.mode == HooksActive && Underway(e.control) ==> WaitedFirst(e.lost, run) && StalledFirst(e.lost, run)
  }

  lemma WaitedBefore(run: seq<Input>, i: Input, fp: Fp, since: Time)
    requires WaitedSince(run + [i], fp, since)
    ensures WaitsAt(i, fp)
    ensures WaitedSince(run, fp, since) || (i.TickIn? && i.at == since)
  {
    var all := run + [i];
    var j: nat :| j < |all| && IsTickAt(all[j], since) && forall k :: j <= k < |all| ==> WaitsAt(all[k], fp);
    assert all[|run|] == i;
    if j < |run| {
      assert IsTickAt(run[j], since);
      forall k | j <= k < |run| ensures WaitsAt(run[k], fp) {
        assert all[k] == run[k];
      }
    }
  }

  lemma StalledBefore(run: seq<Input>, i: Input, fp: Option<Fp>, since: Time)
    requires StalledSince(run + [i], fp, since)
    ensures StallsFrom(i, fp, since) || (Stalls(i, fp) && StalledSince(run, fp, since))
  {
    var all := run + [i];
    var j: nat :| j < |all| && StallsFrom(all[j], fp, since) && forall k :: j < k < |all| ==> Stalls(all[k], fp);
    assert all[|run|] == i;
    if j < |run| {
      assert StallsFrom(run[j], fp, since);
      forall k | j < k < |run| ensures Stalls(run[k], fp) {
        assert all[k] == run[k];
      }
    }
  }

  lemma WaitedUntil(run: seq<Input>, fp: Fp, since: Time, t: Time)
    requires WaitedSince(run, fp, since) && Until(run, t)
    ensures since <= t
  {
    var j: nat :| j < |run| && IsTickAt(run[j], since) && forall k :: j <= k < |run| ==> WaitsAt(run[k], fp);
    assert run[j] in run;
  }

  lemma StalledUntil(run: seq<Input>, fp: Option<Fp>, since: Time, t: Time)
    requires StalledSince(run, fp, since) && Until(run, t)
    ensures since <= t
  {
    var j: nat :| j < |run| && StallsFrom(run[j], fp, since) && forall k :: j < k < |run| ==> Stalls(run[k], fp);
    assert run[j] in run;
  }

  lemma HookFirst(e: Engine, c: Config, run: seq<Input>, o: Observation, now: Time)
    ensures LostFirst(OnHook(e, c, o, now).0, run + [HookIn(o, now)])
  {
    hide HookMeans, WaitedSince, StalledSince;
    var i := HookIn(o, now);
    forall fp: Fp, since | WaitedSince(run + [i], fp, since) ensures false {
      WaitedBefore(run, i, fp, since);
    }
    forall fp: Option<Fp>, since | StalledSince(run + [i], fp, since) && fp.Some? ensures since == now {
      StalledBefore(run, i, fp, since);
    }
  }

  lemma WatchFirst(l: Lost, run: seq<Input>, i: Input)
    requires l.lastHookAt.Some? && ClocksTrue(l, run) && WaitedFirst(l, run) && StalledFirst(l, run)
    requires LiveTick(i) && i.screen.prompt == Shows(FreeText) && Until(run, i.at)
    ensures var w := WatchPrompt(l, i.screen, i.at); WaitedFirst(w, run + [i]) && StalledFirst(w, run + [i])
  {
    hide WaitedSince, StalledSince, Until;
    var w := WatchPrompt(l, i.screen, i.at);
    forall fp: Fp, since | WaitedSince(run + [i], fp, since)
      ensures w.reconcileFp == Some(fp) && w.reconcileSince.Some? && w.reconcileSince.value <= since
    {
      WaitedBefore(run, i, fp, since);
      if l.reconcileFp.Some? { WaitedUntil(run, l.reconcileFp.value, l.reconcileSince.value, i.at); }
    }
    forall fp: Option<Fp>, since | StalledSince(run + [i], fp, since) && fp.Some?
      ensures || (w.progressFp == None && w.lastHookAt == Some(since))
              || (w.progressFp == fp && w.progressAt.Some? && w.progressAt.value <= since)
    {
      StalledBefore(run, i, fp, since);
    }
  }

  lemma ProgressFirst(l: Lost, run: seq<Input>, i: Input)
    requires l.lastHookAt.Some? && ClocksTrue(l, run) && StalledFirst(l, run)
    requires LiveTick(i) && i.screen.prompt != Shows(FreeText) && Until(run, i.at)
    ensures var p := TrackProgress(l.(reconcileFp := None, reconcileSince := None), i.screen, i.at);
      WaitedFirst(p, run + [i]) && StalledFirst(p, run + [i])
  {
    hide WaitedSince, StalledSince, Until;
    var p := TrackProgress(l.(reconcileFp := None, reconcileSince := None), i.screen, i.at);
    forall fp: Fp, since | WaitedSince(run + [i], fp, since) ensures false {
      WaitedBefore(run, i, fp, since);
    }
    StalledUntil(run, l.progressFp, if l.progressFp == None then l.lastHookAt.value else l.progressAt.value, i.at);
    forall fp: Option<Fp>, since | StalledSince(run + [i], fp, since) && fp.Some?
      ensures p.progressFp == fp && p.progressAt.Some? && p.progressAt.value <= since
    {
      StalledBefore(run, i, fp, since);
    }
  }

  lemma QuietFirstClocks(l: Lost, run: seq<Input>, i: Input)
    requires WaitedFirst(l, run) && StalledFirst(l, run) && (i.SubmitIn? || i.ExpectIn?)
    ensures WaitedFirst(l, run + [i]) && StalledFirst(l, run + [i])
  {
    hide WaitedSince, StalledSince;
    forall fp: Fp, since | WaitedSince(run + [i], fp, since) ensures WaitedSince(run, fp, since) {
      WaitedBefore(run, i, fp, since);
    }
    forall fp: Option<Fp>, since | StalledSince(run + [i], fp, since) && fp.Some? ensures StalledSince(run, fp, since) {
      StalledBefore(run, i, fp, since);
    }
  }

  lemma UnderHooksFirst(e: Engine, c: Config, run: seq<Input>, i: Input)
    requires LostTrue(e, run) && LostFirst(e, run) && e.mode == HooksActive && LiveTick(i) && Until(run, i.at)
    ensures LostFirst(TickUnderHooks(e, c, i.screen, i.at).0, run + [i])
  {
    hide LastHook, ClocksTrue, WatchPrompt, TrackProgress, StopWasLost, LostStopStuck, Remind, Watchdog, BudgetNow;
    hide WaitedFirst, StalledFirst, Until;
    if Underway(e.control) {
      if i.screen.prompt == Shows(FreeText) {
        WatchFirst(e.lost, run, i);
      } else {
        ProgressFirst(e.lost, run, i);
      }
    }
  }

  lemma StepLostFirst(e: Engine, c: Config, run: seq<Input>, i: Input)
    requires LostTrue(e, run) && LostFirst(e, run) && Until(run, i.at)
    ensures LostFirst(Step(e, c, i).0, run + [i])
  {
    hide OnHook, TickUnderHooks, TickOnScreen, LostTrue, WaitedFirst, StalledFirst, Until;
    match i
    case HookIn(o, now) => HookFirst(e, c, run, o, now);
    case TickIn(s, alive, now) =>
      var e1 := Sensed(e, c, s, now);
      SensedIs(e, c, s, now);
      hide Sensed;
      SensedLost(e, e1, run);
      if !Dead(s, alive) {
        if e1.mode == HooksActive {
          UnderHooksFirst(e1, c, run, i);
        } else {
          OnScreenMode(e1, c, s, now);
        }
      }
    case _ =>
      if e.mode == HooksActive && Underway(e.control) { QuietFirstClocks(e.lost, run, i); }
  }

  lemma SensedLost(e: Engine, f: Engine, run: seq<Input>)
    requires LostTrue(e, run) && LostFirst(e, run)
    requires f.lost == e.lost && f.control == e.control && (f.mode == HooksActive <==> e.mode == HooksActive)
    ensures LostTrue(f, run) && LostFirst(f, run)
  {
    hide WaitedFirst, StalledFirst, ClocksTrue, LastHook;
  }

  lemma {:induction false} RunLostFirst(c: Config, run: seq<Input>)
    requires Timed(run)
    ensures LostFirst(After(NEW_ENGINE, c, run), run)
    decreases |run|
  {
    if run != [] {
      var n := |run| - 1;
      assert run == run[..n] + [run[n]];
      TimedBefore(run[..n], run[n]);
      RunLostFirst(c, run[..n]);
      RunClocks(c, run[..n]);
      AfterSnoc(NEW_ENGINE, c, run[..n], run[n]);
      hide After, LostFirst, LostTrue, Until;
      StepLostFirst(After(NEW_ENGINE, c, run[..n]), c, run[..n], run[n]);
    }
  }

  lemma {:induction false} HookedMode(c: Config, run: seq<Input>, j: nat)
    requires j < |run| && run[j].HookIn?
    ensures After(NEW_ENGINE, c, run).mode == HooksActive
    decreases |run|
  {
    var n := |run| - 1;
    assert run == run[..n] + [run[n]];
    AfterSnoc(NEW_ENGINE, c, run[..n], run[n]);
    if j < n { HookedMode(c, run[..n], j); }
    hide After;
    match run[n]
    case TickIn(s, alive, now) => TickMode(After(NEW_ENGINE, c, run[..n]), c, s, alive, now); hide Tick;
    case HookIn(o, now) => hide HookMeans;
    case _ =>
  }

  lemma OneLastHook(run: seq<Input>, a: Time, b: Time)
    requires LastHook(run, a) && LastHook(run, b)
    ensures a == b
  {
    var j: nat :| j < |run| && IsHookAt(run[j], a) && forall k :: j < k < |run| ==> !run[k].HookIn?;
    var k: nat :| k < |run| && IsHookAt(run[k], b) && forall m :: k < m < |run| ==> !run[m].HookIn?;
    assert j == k;
  }

  // What a tick says while hooks are in charge and the agent is at work.
  lemma UnderHooksSays(e: Engine, c: Config, s: Screen, now: Time)
    requires Underway(e.control)
    ensures var (f, acts) := TickUnderHooks(e, c, s, now);
      var waited := s.prompt == Shows(FreeText) && StopWasLost(WatchPrompt(e.lost, s, now), c, now);
      var lost := s.prompt != Shows(FreeText)
        && LostStopStuck(TrackProgress(e.lost.(reconcileFp := None, reconcileSince := None), s, now), c, now);
      && (Reconciles(acts) <==> waited)
      && (Advises(acts, LostStop) <==> lost && !Before(now, e.nagging.nextNag))
      && (Advises(acts, SuspectedHung) <==>
            && !waited && !lost && !Before(now, e.nagging.nextNag)
            && Elapsed(now, e.sense.semanticAt) >= BudgetNow(e.sense, c, s, now))
      && (waited ==> f.control == AtIdle)
      && (lost ==> f.control == (if Before(now, e.nagging.nextNag) then e.control else InterventionRequired))
      && (!waited && !lost ==> f.control == (if Elapsed(now, e.sense.semanticAt) >= BudgetNow(e.sense, c, s, now)
                                             then InterventionRequired else Busy))
  {
    hide Watchdog, Remind, BudgetNow, StopWasLost, LostStopStuck, WatchPrompt, TrackProgress, Elapsed, Before;
    WatchdogHint(e.sense, e.nagging, c, s, now);
    WatchdogNags(e.sense, e.nagging, c, s, now);
    RemindNags(e.nagging, BudgetNow(e.sense, c, s, now), now, LostStop);
    RemindHint(e.nagging, BudgetNow(e.sense, c, s, now), now, LostStop);
    var idle := Publish(IdleKey(e.turn.epoch), Idle(false, true));
    assert idle in [idle];
  }

  lemma RemindHint(n: Nagging, budget: Time, now: Time, hint: Hint)
    ensures forall a :: a in Remind(n, budget, now, hint).1 ==> a.Publish? && a.what.Advisory? && a.what.hint == hint
  {
  }

  // The free-text prompt has stood for the grace of a turn, and the last hook is as long ago.
  ghost predicate WaitsTooLong(c: Config, run: seq<Input>, i: Input, last: Time)
    requires i.TickIn?
  {
    && i.screen.prompt == Shows(FreeText) && i.at - last >= c.hookTurnGrace
    && exists since :: WaitedSince(run + [i], PromptKeyOf(i.screen), since) && i.at - since >= c.hookTurnGrace
  }

  // Neither a hook nor progress on the screen for the limit.
  ghost predicate StallsTooLong(c: Config, run: seq<Input>, i: Input, last: Time)
    requires i.TickIn?
  {
    && i.screen.prompt != Shows(FreeText) && i.at - last >= c.lostStopAfter
    && exists since :: StalledSince(run + [i], Some(i.screen.semantic), since) && i.at - since >= c.lostStopAfter
  }

  lemma WaitsExactly(e: Engine, c: Config, run: seq<Input>, i: Input, last: Time)
    requires e.mode == HooksActive && Underway(e.control) && LostTrue(e, run) && LostFirst(e, run) && Until(run, i.at)
    requires LiveTick(i) && i.screen.prompt == Shows(FreeText) && LastHook(run, last)
    ensures StopWasLost(WatchPrompt(e.lost, i.screen, i.at), c, i.at) <==> WaitsTooLong(c, run, i, last)
  {
    hide LastHook, WaitedSince, StalledSince, Until;
    OneLastHook(run, last, e.lost.lastHookAt.value);
    WatchedTrue(e.lost, run, i);
    WatchFirst(e.lost, run, i);
    SameHook(e.lost, i);
  }

  lemma StallsExactly(e: Engine, c: Config, run: seq<Input>, i: Input, last: Time)
    requires e.mode == HooksActive && Underway(e.control) && LostTrue(e, run) && LostFirst(e, run) && Until(run, i.at)
    requires LiveTick(i) && i.screen.prompt != Shows(FreeText) && LastHook(run, last)
    ensures LostStopStuck(TrackProgress(e.lost.(reconcileFp := None, reconcileSince := None), i.screen, i.at), c, i.at)
      <==> StallsTooLong(c, run, i, last)
  {
    hide LastHook, WaitedSince, StalledSince, Until;
    OneLastHook(run, last, e.lost.lastHookAt.value);
    ProgressTrue(e.lost, run, i);
    ProgressFirst(e.lost, run, i);
    SameHook(e.lost, i);
  }

  // Once a hook has come, while the agent is at work: an idle without a Stop is published exactly when the
  // free-text prompt waits too long; a lost Stop is suspected exactly when the screen stalls too long; and
  // otherwise the agent is called hung exactly when the screen has meant the same for the budget in force.
  // Advice is held back only while the budget of an earlier one runs.  What the engine reports to be doing
  // follows.
  lemma UnderHooksExactlyWhen(c: Config, run: seq<Input>, i: Input, last: Time, b: Time)
    requires Timed(run + [i]) && LastHook(run, last) && LiveTick(i) && InForce(c, run + [i], |run|, b)
    requires Underway(After(NEW_ENGINE, c, run).control)
    ensures var e := After(NEW_ENGINE, c, run);
      var (f, acts) := Step(e, c, i);
      var waits, stalls := WaitsTooLong(c, run, i, last), StallsTooLong(c, run, i, last);
      var frozen := Unchanged(run + [i], i.screen.semantic, i.at, b);
      && (Reconciles(acts) <==> waits)
      && (Advises(acts, LostStop) <==> stalls && Free(c, run, i))
      && (Advises(acts, SuspectedHung) <==> !waits && !stalls && frozen && Free(c, run, i))
      && f.control == (if waits then AtIdle
                       else if stalls then if Free(c, run, i) then InterventionRequired else e.control
                       else if frozen then InterventionRequired else Busy)
  {
    hide After, TickUnderHooks, TickOnScreen, Sensed, LostTrue, LostFirst, Until, Timed, Free, InForce, Unchanged;
    hide WaitsTooLong, StallsTooLong, StopWasLost, LostStopStuck, WatchPrompt, TrackProgress;
    hide Before, Elapsed, BudgetNow;
    var e := After(NEW_ENGINE, c, run);
    var s := i.screen;
    var e1 := Sensed(e, c, s, i.at);
    TimedBefore(run, i);
    HookedRun(c, run, last);
    RunClocks(c, run);
    RunLostFirst(c, run);
    SensedIs(e, c, s, i.at);
    SensedLost(e, e1, run);
    Judged(c, run, i, b);
    UnderHooksSays(e1, c, s, i.at);
    if s.prompt == Shows(FreeText) {
      WaitsExactly(e1, c, run, i, last);
      OnlyThere(c, run, i, last);
    } else {
      StallsExactly(e1, c, run, i, last);
      OnlyThere(c, run, i, last);
    }
    HookedStep(e, c, i);
  }

  // In every other state a tick under hooks changes nothing it reports and publishes nothing.
  lemma QuietUnlessUnderway(c: Config, run: seq<Input>, i: Input, last: Time)
    requires LastHook(run, last) && LiveTick(i) && !Underway(After(NEW_ENGINE, c, run).control)
    ensures var e := After(NEW_ENGINE, c, run);
      var (f, acts) := Step(e, c, i);
      acts == [] && f.control == e.control && f.turn == e.turn
  {
    var e := After(NEW_ENGINE, c, run);
    HookedRun(c, run, last);
    HookedStep(e, c, i);
    SensedIs(e, c, i.screen, i.at);
    hide After, Sensed;
  }

  lemma OnlyThere(c: Config, run: seq<Input>, i: Input, last: Time)
    requires i.TickIn?
    ensures i.screen.prompt == Shows(FreeText) ==> !StallsTooLong(c, run, i, last)
    ensures i.screen.prompt != Shows(FreeText) ==> !WaitsTooLong(c, run, i, last)
  {
  }

  lemma HookedStep(e: Engine, c: Config, i: Input)
    requires e.mode == HooksActive && LiveTick(i)
    ensures Step(e, c, i) == TickUnderHooks(Sensed(e, c, i.screen, i.at), c, i.screen, i.at)
  {
    hide TickUnderHooks, TickOnScreen;
  }

  lemma HookedRun(c: Config, run: seq<Input>, last: Time)
    requires LastHook(run, last)
    ensures After(NEW_ENGINE, c, run).mode == HooksActive
  {
    var j: nat :| j < |run| && IsHookAt(run[j], last) && forall k :: j < k < |run| ==> !run[k].HookIn?;
    HookedMode(c, run, j);
  }

  // ---- a submit that stays in the box -----------------------------------------------------------------------

  // From the tick at index j on our own text stood in the box, and nothing was submitted.
  predicate EchoStood(run: seq<Input>, j: nat) {
    && j < |run| && ShowsEcho(run[j])
    && forall k :: j <= k < |run| ==> !run[k].SubmitIn? && (LiveTick(run[k]) ==> ShowsEcho(run[k]))
  }

  // From tick j on no hook was waited for.
  ghost predicate NotAwaitedFrom(c: Config, run: seq<Input>, j: nat) {
    forall m :: j < m <= |run| ==> !Awaited(c, run[..m])
  }

  // The clock of a submit in the box, at a tick that shows it with no decision out.
  lemma OnScreenEchoes(e: Engine, c: Config, s: Screen, now: Time)
    requires s.prompt == Shows(FreeText) && s.echo && !InStartupGrace(e, c, now)
    ensures var (f, acts) := TickOnScreen(e, c, s, now);
      && (e.prompting.published == None ==> f.prompting.published == None)
      && (f.prompting.published == None ==>
            && f.submitted.echoSince == (if e.submitted.echoSince == None then Some(now) else e.submitted.echoSince)
            && (Advises(acts, SubmitUnconfirmed) <==>
                  Elapsed(now, f.submitted.echoSince) >= c.echoStuckAfter && !Before(now, e.nagging.nextNag)))
  {
    hide Remind, Watchdog, BudgetNow, Settle, PublishScreen, WatchCandidate, Elapsed, Before;
    hide LivenessOf, Advises;
    var e1 := e.(submitted := UpdatePostSubmit(e.submitted, e.sense, c, s, now));
    var p := e1.prompting;
    var (p1, acts) :=
      if p.published.Some? && s.promptFp != p.publishedPromptFp then WithdrawPublished(p, c, PromptChanged, now)
      else (p, []);
    var e2 := e1.(prompting := p1, nagging := e1.nagging.(intervening := false));
    if p1.published == None {
      CandidateNags(e2, c, s, now, FreeText);
      CandidateWatches(e2, c, s, now);
      hide Candidate;
      QuietFirst(acts, Candidate(e2, c, s, now, FreeText).1);
    }
  }

  lemma CandidateWatches(e: Engine, c: Config, s: Screen, now: Time)
    requires s.echo && !InStartupGrace(e, c, now) && e.prompting.published == None
    ensures var f := Candidate(e, c, s, now, FreeText).0;
      && f.prompting.published == None
      && f.submitted.echoSince == (if e.submitted.echoSince == None then Some(now) else e.submitted.echoSince)
  {
    hide Remind, BudgetNow, Elapsed, InStartupGrace;
  }

  lemma EchoUntil(run: seq<Input>, since: Time, t: Time)
    requires EchoedSince(run, since) && Until(run, t)
    ensures since <= t
  {
    var j: nat :| j < |run| && EchoAt(run[j], since) && forall k :: j <= k < |run| ==> Prompts(run[k]);
    assert run[j] in run;
  }

  // No decision is out, and the clock of the submit in the box was started by `at`.
  predicate EchoClock(e: Engine, at: Time) {
    e.prompting.published == None && e.submitted.echoSince.Some? && e.submitted.echoSince.value <= at
  }

  lemma StepEchoClock(e: Engine, c: Config, run: seq<Input>, i: Input, at: Time)
    requires e.mode != HooksActive && StartupTrue(e, c, run) && i.TickIn? && LiveTick(i) && ShowsEcho(i)
    requires !Awaited(c, run + [i])
    requires EchoClock(e, at)
      || (at == i.at && Step(e, c, i).0.prompting.published == None
          && (e.submitted.echoSince.Some? ==> e.submitted.echoSince.value <= at))
    ensures EchoClock(Step(e, c, i).0, at)
  {
    hide TickOnScreen, InStartupGrace, StartupTrue, TickUnderHooks, Awaited;
    var e1 := Sensed(e, c, i.screen, i.at);
    SensedIs(e, c, i.screen, i.at);
    StartsExactly(e, c, run, i);
    OnScreenEchoes(e1, c, i.screen, i.at);
  }

  lemma {:induction false} RunEchoClock(c: Config, run: seq<Input>, j: nat)
    requires NoHooks(run) && Timed(run) && EchoStood(run, j) && NotAwaitedFrom(c, run, j)
    requires After(NEW_ENGINE, c, run[..j + 1]).prompting.published == None
    ensures EchoClock(After(NEW_ENGINE, c, run), run[j].at)
    decreases |run|
  {
    var n := |run| - 1;
    var before, i := run[..n], run[n];
    assert run == before + [i] && run[..|run|] == run;
    assert NoHooks(before);
    AfterSnoc(NEW_ENGINE, c, before, i);
    NoHooksMode(c, before);
    TimedBefore(before, i);
    RunStartup(c, before);
    var e := After(NEW_ENGINE, c, before);
    if j < n {
      assert before[j] == run[j];
      StoodEarlier(c, run, j);
      assert before[..j + 1] == run[..j + 1];
      RunEchoClock(c, before, j);
    } else {
      RunEcho(c, before);
      if e.submitted.echoSince.Some? { EchoUntil(before, e.submitted.echoSince.value, i.at); }
    }
    hide After, StartupTrue, EchoedSince, Until, Awaited, NoHooks, Timed;
    if LiveTick(i) {
      StepEchoClock(e, c, before, i, run[j].at);
    }
  }

  lemma StoodEarlier(c: Config, run: seq<Input>, j: nat)
    requires EchoStood(run, j) && NotAwaitedFrom(c, run, j) && j < |run| - 1
    ensures EchoStood(run[..|run| - 1], j) && NotAwaitedFrom(c, run[..|run| - 1], j)
  {
    hide Awaited;
    var before := run[..|run| - 1];
    assert forall k :: 0 <= k < |before| ==> before[k] == run[k];
    assert forall m :: 0 <= m <= |before| ==> before[..m] == run[..m];
  }

  // A submit that stood in the box on every living tick for the limit is complained about, exactly when no
  // earlier advisory's budget runs: given that hooks are not waited for and no decision is out.
  lemma UnconfirmedWhenEchoStands(c: Config, run: seq<Input>, i: Input, j: nat)
    requires NoHooks(run) && Timed(run + [i]) && LiveTick(i)
    requires EchoStood(run + [i], j) && NotAwaitedFrom(c, run + [i], j)
    requires i.at - (run + [i])[j].at >= c.echoStuckAfter
    requires After(NEW_ENGINE, c, (run + [i])[..j + 1]).prompting.published == None
    ensures Advises(Step(After(NEW_ENGINE, c, run), c, i).1, SubmitUnconfirmed) <==> Free(c, run, i)
  {
    var e, all := After(NEW_ENGINE, c, run), run + [i];
    assert all[..|all| - 1] == run && all[|run|] == i && i in all;
    forall x | x in all ensures !x.HookIn? { }
    RunEchoClock(c, all, j);
    AfterSnoc(NEW_ENGINE, c, run, i);
    NoHooksMode(c, run);
    TimedBefore(run, i);
    RunStartup(c, run);
    assert all[..|all|] == all && NoHooks(run);
    Judged(c, run, i, 0.0);
    hide After, Free, InForce, Unchanged, TickOnScreen, InStartupGrace, StartupTrue, Elapsed, Before, TickUnderHooks;
    hide Awaited;
    var e1 := Sensed(e, c, i.screen, i.at);
    SensedIs(e, c, i.screen, i.at);
    StartsExactly(e, c, run, i);
    OnScreenEchoes(e1, c, i.screen, i.at);
    LongEnough(i.at, all[j].at, TickOnScreen(e1, c, i.screen, i.at).0.submitted.echoSince, c.echoStuckAfter);
  }
}
