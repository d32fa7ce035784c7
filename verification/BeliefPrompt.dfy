/**
  When a prompt on the screen must be published (daemon/belief.py), for sessions without hooks: a modal or
  permission prompt on the first tick that shows it, a free-text prompt once it has stood for the confirm
  window and nothing speaks against it.

  What speaks against it is told from the run alone: our text in the box, a submit whose grace is not over,
  hooks still expected, a decision of the same meaning withdrawn a short time ago.
*/
module BeliefPrompts {
  import opened Prelude
  import opened Hooks
  import opened Belief
  import opened BeliefEvidence

  // The clock does not go back.
  predicate Timed(run: seq<Input>) {
    forall i, j :: 0 <= i < j < |run| ==> run[i].at <= run[j].at
  }

  predicate NoHooks(run: seq<Input>) {
    forall i :: i in run ==> !i.HookIn?
  }

  lemma TickMode(e: Engine, c: Config, s: Screen, alive: bool, now: Time)
    ensures Tick(e, c, s, alive, now).0.mode == HooksActive <==> e.mode == HooksActive
  {
    var e1 := Sensed(e, c, s, now);
    OnScreenMode(e1, c, s, now);
    UnderHooksMode(e1, c, s, now);
    hide TickOnScreen, TickUnderHooks;
  }

  lemma {:induction false} NoHooksMode(c: Config, run: seq<Input>)
    requires NoHooks(run)
    ensures After(NEW_ENGINE, c, run).mode != HooksActive
    decreases |run|
  {
    if run != [] {
      var n := |run| - 1;
      assert run == run[..n] + [run[n]] && run[n] in run;
      NoHooksMode(c, run[..n]);
      AfterSnoc(NEW_ENGINE, c, run[..n], run[n]);
      hide After;
      match run[n]
      case TickIn(s, alive, now) => TickMode(After(NEW_ENGINE, c, run[..n]), c, s, alive, now); hide Tick;
      case _ =>
    }
  }

  // ---- the state of the prompt's clocks ----------------------------------------------------------------

  // The candidate's clock was started at a time not after t, and a decision names its own meaning.
  predicate ClockOk(p: Prompting, t: Time) {
    && (p.candidateFp.Some? ==> p.candidateSince.Some? && p.candidateSince.value <= t)
    && (p.published.Some? ==> p.published.value.ScreenKey? && p.publishedSemanticFp == Some(p.published.value.fp))
  }

  lemma OnScreenClock(e: Engine, c: Config, s: Screen, now: Time)
    requires ClockOk(e.prompting, now)
    ensures ClockOk(TickOnScreen(e, c, s, now).0.prompting, now)
  {
    hide Watchdog, Remind, BudgetNow, UpdatePostSubmit, Elapsed, Before, InStartupGrace;
  }

  lemma Later(p: Prompting, t: Time, u: Time)
    requires ClockOk(p, t) && t <= u
    ensures ClockOk(p, u)
  {
  }

  lemma {:induction false} RunClock(c: Config, run: seq<Input>, t: Time)
    requires NoHooks(run) && forall i :: i in run ==> i.at <= t
    requires Timed(run)
    ensures ClockOk(After(NEW_ENGINE, c, run).prompting, t)
    decreases |run|
  {
    if run != [] {
      var n := |run| - 1;
      var before, i := run[..n], run[n];
      assert run == before + [i] && i in run;
      forall x | x in before ensures x.at <= i.at {
        var k :| 0 <= k < n && before[k] == x;
        assert run[k] == x;
      }
      NoHooksMode(c, before);
      RunClock(c, before, i.at);
      AfterSnoc(NEW_ENGINE, c, before, i);
      var e := After(NEW_ENGINE, c, before);
      hide After, ClockOk;
      match i
      case TickIn(s, alive, now) =>
        var e1 := Sensed(e, c, s, now);
        SensedIs(e, c, s, now);
        hide Sensed;
        OnScreenClock(e1, c, s, now);
        hide TickOnScreen;
        Later(Step(e, c, i).0.prompting, i.at, t);
      case SubmitIn(now) => ForgottenClock(t);
      case ExpectIn(now) => Later(e.prompting, i.at, t);
      case HookIn(o, now) =>
    }
  }

  lemma ForgottenClock(t: Time)
    ensures ClockOk(NO_PROMPT, t)
  {
  }

  // ---- a prompt that stands is a candidate, or its decision is out -----------------------------------

  // From the tick at index j on, every living tick showed the prompt identified by fp.
  predicate StoodFrom(run: seq<Input>, fp: Fp, j: nat) {
    j < |run| && LiveTick(run[j]) && forall k :: j <= k < |run| ==> Stands(run[k], fp)
  }

  // Its decision is out, or it has been watched since `since` at the latest.
  predicate Watched(p: Prompting, fp: Fp, promptFp: Option<Fp>, since: Time) {
    if p.published.Some? then p.publishedPromptFp == promptFp
    else p.candidateFp == Some(fp) && p.candidateSince.Some? && p.candidateSince.value <= since
  }

  lemma OnScreenWatches(e: Engine, c: Config, s: Screen, now: Time, since: Time)
    requires s.prompt.Shows? && since <= now && ClockOk(e.prompting, now)
    requires Watched(e.prompting, PromptKeyOf(s), s.promptFp, since) || since == now
    ensures Watched(TickOnScreen(e, c, s, now).0.prompting, PromptKeyOf(s), s.promptFp, since)
  {
    hide Watchdog, Remind, BudgetNow, UpdatePostSubmit, Elapsed, Before, InStartupGrace;
  }

  // Within a stretch in which the prompt stands, its own fingerprint does not change.
  lemma SamePrompt(a: Input, b: Input, blanks: iset<Fp>)
    requires LiveTick(a) && LiveTick(b) && a.screen.prompt.Shows? && b.screen.prompt.Shows?
    requires Apart(a, blanks) && Apart(b, blanks) && PromptKeyOf(a.screen) == PromptKeyOf(b.screen)
    ensures a.screen.promptFp == b.screen.promptFp
  {
  }

  lemma {:induction false} StoodIsWatched(c: Config, run: seq<Input>, fp: Fp, j: nat, blanks: iset<Fp>)
    requires NoHooks(run) && Timed(run) && (forall i :: i in run ==> Apart(i, blanks)) && StoodFrom(run, fp, j)
    ensures Watched(After(NEW_ENGINE, c, run).prompting, fp, run[j].screen.promptFp, run[j].at)
    decreases |run|
  {
    var n := |run| - 1;
    var before, i := run[..n], run[n];
    assert run == before + [i] && i in run;
    AfterSnoc(NEW_ENGINE, c, before, i);
    NoHooksMode(c, before);
    var e := After(NEW_ENGINE, c, before);
    if j < n {
      assert before[j] == run[j] && run[j] in run;
      assert forall k :: j <= k < n ==> before[k] == run[k];
      StoodIsWatched(c, before, fp, j, blanks);
    }
    hide After, Watched, Apart;
    if i.TickIn? {
      var e1 := Sensed(e, c, i.screen, i.at);
      SensedIs(e, c, i.screen, i.at);
      hide Sensed;
      if LiveTick(i) {
        SamePrompt(run[j], i, blanks);
        BeforeClock(c, run);
        OnScreenWatches(e1, c, i.screen, i.at, run[j].at);
      }
      hide TickOnScreen;
    }
  }

  lemma BeforeClock(c: Config, run: seq<Input>)
    requires run != [] && NoHooks(run) && Timed(run)
    ensures ClockOk(After(NEW_ENGINE, c, run[..|run| - 1]).prompting, run[|run| - 1].at)
  {
    var n := |run| - 1;
    forall x | x in run[..n] ensures x.at <= run[n].at && x in run {
      var k :| 0 <= k < n && run[..n][k] == x;
      assert run[k] == x;
    }
    assert Timed(run[..n]) && NoHooks(run[..n]);
    RunClock(c, run[..n], run[n].at);
  }

  // ---- hooks still expected ------------------------------------------------------------------------------

  predicate ExpectsAt(run: seq<Input>, k: nat, at: Time) {
    k < |run| && run[k].ExpectIn? && run[k].at == at
  }

  // At tick m no hook is waited for any more: each time hooks were announced is a startup grace ago.
  ghost predicate GivenUpAt(c: Config, run: seq<Input>, m: nat) {
    && m < |run| && LiveTick(run[m])
    && (exists q: nat, at :: q < m && ExpectsAt(run, q, at))
    && (forall q: nat, at :: q < m && ExpectsAt(run, q, at) ==> run[m].at - at >= c.hookStartupGrace)
  }

  // Hooks were announced and are still waited for.
  ghost predicate Awaited(c: Config, run: seq<Input>) {
    (exists q: nat, at :: ExpectsAt(run, q, at)) && forall m: nat :: !GivenUpAt(c, run, m)
  }

  // Hooks were announced at `at`, and not later.
  ghost predicate LastExpect(run: seq<Input>, at: Time) {
    (exists q: nat :: ExpectsAt(run, q, at)) && forall q: nat, t :: ExpectsAt(run, q, t) ==> t <= at
  }

  ghost predicate StartupTrue(e: Engine, c: Config, run: seq<Input>) {
    && (e.mode == HooksUnavailable ==> exists m: nat :: GivenUpAt(c, run, m))
    && (e.mode == HooksUnknown ==>
          && (forall m: nat :: !GivenUpAt(c, run, m))
          && (e.startupAt == None ==> forall q: nat, at :: !ExpectsAt(run, q, at))
          && (e.startupAt.Some? ==> LastExpect(run, e.startupAt.value)))
  }

  lemma ExpectsStays(run: seq<Input>, i: Input, q: nat, at: Time)
    ensures ExpectsAt(run + [i], q, at) <==> ExpectsAt(run, q, at) || (q == |run| && i.ExpectIn? && i.at == at)
  {
    if q < |run| { assert (run + [i])[q] == run[q]; }
  }

  lemma GivenUpStays(c: Config, run: seq<Input>, i: Input, m: nat)
    requires m < |run|
    ensures GivenUpAt(c, run + [i], m) <==> GivenUpAt(c, run, m)
  {
    assert (run + [i])[m] == run[m];
    forall q: nat, at | q < m ensures ExpectsAt(run + [i], q, at) <==> ExpectsAt(run, q, at) {
      ExpectsStays(run, i, q, at);
    }
    hide ExpectsAt;
  }

  // A living tick gives hooks up exactly when the last announcement is a grace ago.
  lemma GivesUp(c: Config, run: seq<Input>, i: Input, at: Time)
    requires LiveTick(i) && LastExpect(run, at)
    ensures GivenUpAt(c, run + [i], |run|) <==> i.at - at >= c.hookStartupGrace
  {
    assert (run + [i])[|run|] == i;
    forall q: nat, t | q < |run| ensures ExpectsAt(run + [i], q, t) <==> ExpectsAt(run, q, t) {
      ExpectsStays(run, i, q, t);
    }
    var q: nat :| ExpectsAt(run, q, at);
    assert q < |run|;
    hide ExpectsAt;
  }

  lemma NothingToGiveUp(c: Config, run: seq<Input>, i: Input)
    requires !LiveTick(i) || forall q: nat, at :: !ExpectsAt(run, q, at)
    ensures !GivenUpAt(c, run + [i], |run|)
  {
    assert (run + [i])[|run|] == i;
    forall q: nat, at | q < |run| ensures ExpectsAt(run + [i], q, at) <==> ExpectsAt(run, q, at) {
      ExpectsStays(run, i, q, at);
    }
  }

  lemma Announced(run: seq<Input>, i: Input)
    requires i.ExpectIn? && forall x :: x in run ==> x.at <= i.at
    ensures LastExpect(run + [i], i.at)
  {
    var all := run + [i];
    assert ExpectsAt(all, |run|, i.at);
    forall q: nat, t | ExpectsAt(all, q, t) ensures t <= i.at {
      assert q < |run| ==> all[q] == run[q] && run[q] in run;
    }
  }

  lemma StillLastExpect(run: seq<Input>, i: Input, at: Time)
    requires LastExpect(run, at) && !i.ExpectIn?
    ensures LastExpect(run + [i], at)
  {
    var q: nat :| ExpectsAt(run, q, at);
    ExpectsStays(run, i, q, at);
    forall q: nat, t | ExpectsAt(run + [i], q, t) ensures t <= at {
      ExpectsStays(run, i, q, t);
    }
  }

  lemma NoMoreGivenUp(c: Config, run: seq<Input>, i: Input)
    requires (forall m: nat :: !GivenUpAt(c, run, m)) && !GivenUpAt(c, run + [i], |run|)
    ensures forall m: nat :: !GivenUpAt(c, run + [i], m)
  {
    forall m: nat ensures !GivenUpAt(c, run + [i], m) {
      if m < |run| { GivenUpStays(c, run, i, m); }
    }
  }

  // What an input does to the wait for hooks.
  lemma StepStarts(e: Engine, c: Config, i: Input)
    requires e.mode != HooksActive && !i.HookIn?
    ensures var f := Step(e, c, i).0;
      && f.startupAt == (if i.ExpectIn? && e.mode == HooksUnknown then Some(i.at) else e.startupAt)
      && f.mode == (if LiveTick(i) && e.mode == HooksUnknown && Ran(i.at, e.startupAt, c.hookStartupGrace)
                    then HooksUnavailable else e.mode)
  {
    if i.TickIn? {
      var e1 := Sensed(e, c, i.screen, i.at);
      hide TickOnScreen, TickUnderHooks;
      OnScreenStarts(e1, c, i.screen, i.at);
    }
  }

  lemma OnScreenStarts(e: Engine, c: Config, s: Screen, now: Time)
    ensures TickOnScreen(e, c, s, now).0.startupAt == e.startupAt && TickOnScreen(e, c, s, now).0.mode == e.mode
  {
    hide Watchdog, Remind, BudgetNow, UpdatePostSubmit, Settle, PublishScreen, Elapsed, Before, InStartupGrace;
  }

  lemma StepStartup(e: Engine, c: Config, run: seq<Input>, i: Input)
    requires StartupTrue(e, c, run) && e.mode != HooksActive && !i.HookIn? && forall x :: x in run ==> x.at <= i.at
    ensures StartupTrue(Step(e, c, i).0, c, run + [i])
  {
    StepStarts(e, c, i);
    hide Step, GivenUpAt, LastExpect;
    assert forall q: nat, at :: ExpectsAt(run + [i], q, at) <==>
        ExpectsAt(run, q, at) || (q == |run| && i.ExpectIn? && i.at == at) by {
      forall q: nat, at { ExpectsStays(run, i, q, at); }
    }
    if e.mode == HooksUnavailable {
      var m: nat :| GivenUpAt(c, run, m);
      GivenUpIndex(c, run, m);
      GivenUpStays(c, run, i, m);
    } else {
      if LiveTick(i) && e.startupAt.Some? {
        GivesUp(c, run, i, e.startupAt.value);
      } else {
        NothingToGiveUp(c, run, i);
      }
      if i.ExpectIn? {
        Announced(run, i);
      } else if e.startupAt.Some? {
        StillLastExpect(run, i, e.startupAt.value);
      }
      if !GivenUpAt(c, run + [i], |run|) { NoMoreGivenUp(c, run, i); }
    }
  }

  lemma GivenUpIndex(c: Config, run: seq<Input>, m: nat)
    requires GivenUpAt(c, run, m)
    ensures m < |run|
  {
  }

  lemma {:induction false} RunStartup(c: Config, run: seq<Input>)
    requires NoHooks(run) && Timed(run)
    ensures StartupTrue(After(NEW_ENGINE, c, run), c, run)
    decreases |run|
  {
    if run != [] {
      var n := |run| - 1;
      assert run == run[..n] + [run[n]] && run[n] in run;
      RunStartup(c, run[..n]);
      NoHooksMode(c, run[..n]);
      forall x | x in run[..n] ensures x.at <= run[n].at {
        var k :| 0 <= k < n && run[..n][k] == x;
        assert run[k] == x;
      }
      AfterSnoc(NEW_ENGINE, c, run[..n], run[n]);
      hide After, StartupTrue, Step;
      StepStartup(After(NEW_ENGINE, c, run[..n]), c, run[..n], run[n]);
    }
  }

  // The engine holds back for hooks exactly while the run shows that they are waited for.
  lemma StartsExactly(e: Engine, c: Config, run: seq<Input>, i: Input)
    requires StartupTrue(e, c, run) && e.mode != HooksActive && LiveTick(i)
    ensures InStartupGrace(Sensed(e, c, i.screen, i.at), c, i.at) <==> Awaited(c, run + [i])
  {
    var f := Sensed(e, c, i.screen, i.at);
    assert f.startupAt == e.startupAt;
    assert f.mode == if e.mode == HooksUnknown && Ran(i.at, e.startupAt, c.hookStartupGrace) then HooksUnavailable
                     else e.mode;
    hide Sensed, GivenUpAt, LastExpect;
    assert forall q: nat, at :: ExpectsAt(run + [i], q, at) <==> ExpectsAt(run, q, at) by {
      forall q: nat, at { ExpectsStays(run, i, q, at); }
    }
    if e.mode == HooksUnavailable {
      var m: nat :| GivenUpAt(c, run, m);
      GivenUpIndex(c, run, m);
      GivenUpStays(c, run, i, m);
    } else if e.startupAt.Some? {
      GivesUp(c, run, i, e.startupAt.value);
      Announces(run, e.startupAt.value);
      if !GivenUpAt(c, run + [i], |run|) { NoMoreGivenUp(c, run, i); }
    }
  }

  lemma Announces(run: seq<Input>, at: Time)
    requires LastExpect(run, at)
    ensures exists q: nat :: ExpectsAt(run, q, at)
  {
  }

  // ---- the decision withdrawn last ----------------------------------------------------------------------

  predicate WithdrawsMeaning(acts: seq<Action>, meaning: Fp) {
    exists a :: a in acts && a.Withdraw? && a.key.ScreenKey? && a.key.fp == meaning
  }

  // Step k of the run withdrew a screen decision of this meaning.
  predicate WithdrewAt(c: Config, run: seq<Input>, k: nat, meaning: Fp) {
    k < |run| && WithdrawsMeaning(Step(After(NEW_ENGINE, c, run[..k]), c, run[k]).1, meaning)
  }

  // It was the last to withdraw one, and nothing was submitted since.
  ghost predicate WithdrewLast(c: Config, run: seq<Input>, k: nat, meaning: Fp) {
    && WithdrewAt(c, run, k, meaning)
    && (forall m :: k < m < |run| ==> !run[m].SubmitIn?)
    && (forall m: nat, other :: k < m < |run| ==> !WithdrewAt(c, run, m, other))
  }

  ghost predicate WithdrawnTrue(p: Prompting, c: Config, run: seq<Input>) {
    && (p.withdrawnFp.Some? ==>
          exists k: nat :: WithdrewLast(c, run, k, p.withdrawnFp.value)
                           && p.cooldownUntil == Some(run[k].at + c.withdrawnCooldown))
    && (forall k: nat, meaning: Fp :: WithdrewLast(c, run, k, meaning) ==>
          p.withdrawnFp == Some(meaning) && p.cooldownUntil == Some(run[k].at + c.withdrawnCooldown))
  }

  // The one meaning these actions withdraw, and how it is remembered.
  ghost predicate Remembers(p: Prompting, q: Prompting, acts: seq<Action>, c: Config, now: Time) {
    || (q.withdrawnFp == p.withdrawnFp && q.cooldownUntil == p.cooldownUntil
        && forall meaning: Fp :: !WithdrawsMeaning(acts, meaning))
    || (q.withdrawnFp.Some? && q.cooldownUntil == Some(now + c.withdrawnCooldown)
        && forall meaning: Fp :: WithdrawsMeaning(acts, meaning) <==> Some(meaning) == q.withdrawnFp)
  }

  lemma WithdrawsFirst(first: seq<Action>, rest: seq<Action>, meaning: Fp)
    requires forall a :: a in rest ==> !a.Withdraw?
    ensures WithdrawsMeaning(first + rest, meaning) <==> WithdrawsMeaning(first, meaning)
  {
    assert forall a :: a in first + rest <==> a in first || a in rest;
  }

  // What a tick withdraws, and how it is remembered.
  lemma OnScreenWithdraws(e: Engine, c: Config, s: Screen, now: Time)
    requires ClockOk(e.prompting, now)
    ensures var (f, acts) := TickOnScreen(e, c, s, now); Remembers(e.prompting, f.prompting, acts, c, now)
  {
    hide Watchdog, Candidate, UpdatePostSubmit, WithdrawsMeaning;
    var e1 := e.(submitted := UpdatePostSubmit(e.submitted, e.sense, c, s, now));
    var p := e1.prompting;
    if s.prompt.Shows? {
      var (p1, first) :=
        if p.published.Some? && s.promptFp != p.publishedPromptFp then WithdrawPublished(p, c, PromptChanged, now)
        else (p, []);
      var e2 := e1.(prompting := p1, nagging := e1.nagging.(intervening := false));
      RemembersIt(p, c, PromptChanged, now);
      CandidateWithdrawn(e2, c, s, now, s.prompt.kind);
      var more := Candidate(e2, c, s, now, s.prompt.kind).1;
      forall meaning: Fp ensures WithdrawsMeaning(first + more, meaning) <==> WithdrawsMeaning(first, meaning) {
        WithdrawsFirst(first, more, meaning);
      }
    } else {
      var first := if p.published.Some? then WithdrawPublished(p, c, TurnResumed, now).1 else [];
      RemembersIt(p, c, TurnResumed, now);
      WatchdogHint(e1.sense, e1.nagging, c, s, now);
      var more := Watchdog(e1.sense, e1.nagging, c, s, now).1;
      forall meaning: Fp ensures WithdrawsMeaning(first + more, meaning) <==> WithdrawsMeaning(first, meaning) {
        WithdrawsFirst(first, more, meaning);
      }
    }
  }

  lemma RemembersIt(p: Prompting, c: Config, why: Why, now: Time)
    requires ClockOk(p, now)
    ensures forall meaning: Fp :: !WithdrawsMeaning([], meaning)
    ensures p.published.Some? ==> var (q, acts) := WithdrawPublished(p, c, why, now); Remembers(p, q, acts, c, now)
  {
    if p.published.Some? {
      var a := Withdraw(p.published.value, why);
      assert a in [a];
    }
  }

  lemma CandidateWithdrawn(e: Engine, c: Config, s: Screen, now: Time, kind: PromptKind)
    ensures var (f, acts) := Candidate(e, c, s, now, kind);
      && f.prompting.withdrawnFp == e.prompting.withdrawnFp && f.prompting.cooldownUntil == e.prompting.cooldownUntil
      && forall a :: a in acts ==> !a.Withdraw?
  {
    hide BudgetNow, Elapsed, Before, InStartupGrace;
  }

  lemma WithdrewStays(c: Config, run: seq<Input>, i: Input, k: nat, meaning: Fp)
    requires k < |run|
    ensures WithdrewAt(c, run + [i], k, meaning) <==> WithdrewAt(c, run, k, meaning)
  {
    assert (run + [i])[..k] == run[..k] && (run + [i])[k] == run[k];
    hide Step, After;
  }

  lemma WithdrewNow(c: Config, run: seq<Input>, i: Input, meaning: Fp)
    ensures (run + [i])[|run|] == i
    ensures WithdrewAt(c, run + [i], |run|, meaning)
       <==> WithdrawsMeaning(Step(After(NEW_ENGINE, c, run), c, i).1, meaning)
  {
    assert (run + [i])[..|run|] == run && (run + [i])[|run|] == i;
    hide Step, After;
  }

  // Unless the new input withdraws a decision or submits, what was withdrawn last is as before.
  lemma LastStays(c: Config, run: seq<Input>, i: Input, k: nat, meaning: Fp)
    requires forall other :: !WithdrewAt(c, run + [i], |run|, other)
    ensures WithdrewLast(c, run + [i], k, meaning) <==> WithdrewLast(c, run, k, meaning) && !i.SubmitIn?
    ensures k < |run| ==> (run + [i])[k] == run[k]
  {
    var all := run + [i];
    assert all[|run|] == i && forall m :: 0 <= m < |run| ==> all[m] == run[m];
    forall m: nat, other | m < |run| ensures WithdrewAt(c, all, m, other) <==> WithdrewAt(c, run, m, other) {
      WithdrewStays(c, run, i, m, other);
    }
    WithdrewIndex(c, run, k, meaning);
    WithdrewIndex(c, all, k, meaning);
    hide WithdrewAt;
  }

  lemma WithdrewIndex(c: Config, run: seq<Input>, k: nat, meaning: Fp)
    ensures WithdrewAt(c, run, k, meaning) ==> k < |run|
  {
    hide Step, After;
  }

  lemma StillWithdrawn(p: Prompting, q: Prompting, c: Config, run: seq<Input>, i: Input)
    requires WithdrawnTrue(p, c, run) && q.withdrawnFp == p.withdrawnFp && q.cooldownUntil == p.cooldownUntil
    requires !i.SubmitIn? && forall other :: !WithdrewAt(c, run + [i], |run|, other)
    ensures WithdrawnTrue(q, c, run + [i])
  {
    hide WithdrewAt;
    forall k: nat, meaning: Fp
      ensures WithdrewLast(c, run + [i], k, meaning) <==> WithdrewLast(c, run, k, meaning)
      ensures WithdrewLast(c, run, k, meaning) ==> k < |run| && (run + [i])[k] == run[k]
    {
      LastStays(c, run, i, k, meaning);
      WithdrewIndex(c, run, k, meaning);
    }
    hide WithdrewLast;
    if p.withdrawnFp.Some? {
      var k: nat :| WithdrewLast(c, run, k, p.withdrawnFp.value)
                    && p.cooldownUntil == Some(run[k].at + c.withdrawnCooldown);
      assert WithdrewLast(c, run + [i], k, p.withdrawnFp.value);
    }
  }

  lemma NowWithdrawn(p: Prompting, c: Config, run: seq<Input>, i: Input)
    requires p.withdrawnFp.Some? && p.cooldownUntil == Some(i.at + c.withdrawnCooldown)
    requires forall meaning: Fp :: WithdrewAt(c, run + [i], |run|, meaning) <==> Some(meaning) == p.withdrawnFp
    ensures WithdrawnTrue(p, c, run + [i])
  {
    var all := run + [i];
    assert all[|run|] == i;
    var fp := p.withdrawnFp.value;
    assert WithdrewAt(c, all, |run|, fp);
    hide WithdrewAt;
    assert WithdrewLast(c, all, |run|, fp);
    forall k: nat, meaning: Fp | k < |run| ensures !WithdrewLast(c, all, k, meaning) {
    }
    forall k: nat, meaning: Fp ensures WithdrewLast(c, all, k, meaning) ==> k == |run| {
      WithdrewIndex(c, all, k, meaning);
    }
  }

  lemma {:induction false} RunWithdrawn(c: Config, run: seq<Input>)
    requires NoHooks(run) && Timed(run)
    ensures WithdrawnTrue(After(NEW_ENGINE, c, run).prompting, c, run)
    decreases |run|
  {
    if run != [] {
      var n := |run| - 1;
      var before, i := run[..n], run[n];
      assert run == before + [i] && i in run;
      RunWithdrawn(c, before);
      AfterSnoc(NEW_ENGINE, c, before, i);
      NoHooksMode(c, before);
      BeforeClock(c, run);
      StepWithdrawn(c, before, i);
    }
  }

  lemma StepWithdrawn(c: Config, run: seq<Input>, i: Input)
    requires WithdrawnTrue(After(NEW_ENGINE, c, run).prompting, c, run) && !i.HookIn?
    requires After(NEW_ENGINE, c, run).mode != HooksActive
    requires ClockOk(After(NEW_ENGINE, c, run).prompting, i.at)
    ensures WithdrawnTrue(Step(After(NEW_ENGINE, c, run), c, i).0.prompting, c, run + [i])
  {
    var e := After(NEW_ENGINE, c, run);
    hide After, WithdrawnTrue, ClockOk, WithdrawsMeaning, WithdrewAt;
    forall meaning: Fp
      ensures WithdrewAt(c, run + [i], |run|, meaning) <==> WithdrawsMeaning(Step(e, c, i).1, meaning)
    {
      WithdrewNow(c, run, i, meaning);
    }
    QuietWithdrawsNot();
    match i
    case TickIn(s, alive, now) =>
      var e1 := Sensed(e, c, s, now);
      SensedIs(e, c, s, now);
      hide Sensed;
      OnScreenWithdraws(e1, c, s, now);
      hide TickOnScreen;
      var (f, acts) := Step(e, c, i);
      assert Remembers(e.prompting, f.prompting, acts, c, now);
      if forall meaning: Fp :: !WithdrawsMeaning(acts, meaning) {
        StillWithdrawn(e.prompting, f.prompting, c, run, i);
      } else {
        NowWithdrawn(f.prompting, c, run, i);
      }
    case SubmitIn(now) => NoneWithdrawn(c, run, i);
    case ExpectIn(now) => StillWithdrawn(e.prompting, e.prompting, c, run, i);
    case HookIn(o, now) =>
  }

  lemma QuietWithdrawsNot()
    ensures forall meaning: Fp :: !WithdrawsMeaning([], meaning) && !WithdrawsMeaning([Finalize], meaning)
  {
  }

  lemma NoneWithdrawn(c: Config, run: seq<Input>, i: Input)
    requires i.SubmitIn? && forall other :: !WithdrewAt(c, run + [i], |run|, other)
    ensures WithdrawnTrue(NO_PROMPT, c, run + [i])
  {
    forall k: nat, meaning: Fp ensures !WithdrewLast(c, run + [i], k, meaning) {
      LastStays(c, run, i, k, meaning);
    }
  }

  // ---- the grace after a submit is over exactly when the run shows it ------------------------------------

  predicate BeatsOnly(run: seq<Input>, m: nat, fp: Fp) {
    forall k :: m <= k < |run| && Beats(run[k]) ==> run[k].screen.heartbeat.fp == fp
  }

  // The heartbeat changed last at one time only.
  lemma OneChange(run: seq<Input>, fp: Fp, a: Time, b: Time)
    requires BeatSince(run, fp, a) && BeatSince(run, fp, b)
    ensures a == b
  {
    var m: nat :| ChangedAt(run, m, fp) && run[m].at == a
      && forall k :: m <= k < |run| && Beats(run[k]) ==> run[k].screen.heartbeat.fp == fp;
    var n: nat :| ChangedAt(run, n, fp) && run[n].at == b
      && forall k :: n <= k < |run| && Beats(run[k]) ==> run[k].screen.heartbeat.fp == fp;
    assert BeatsOnly(run, m, fp) && BeatsOnly(run, n, fp) && Beats(run[m]) && Beats(run[n]);
    assert m < |run| && n < |run|;
    hide ChangedAt, BeatsOnly, BeatSince;
    if m < n {
      NotChangedLater(run, m, n, fp);
    } else if n < m {
      NotChangedLater(run, n, m, fp);
    }
  }

  // While every beat shows fp the heartbeat does not change to it again.
  lemma NotChangedLater(run: seq<Input>, m: nat, n: nat, fp: Fp)
    requires m < n < |run| && Beats(run[m]) && BeatsOnly(run, m, fp)
    ensures !ChangedAt(run, n, fp)
  {
    var p := LastBeatBefore(run, m, n);
    assert Beats(run[p]) && forall q :: p < q < n ==> !Beats(run[q]);
  }

  lemma LastBeatBefore(run: seq<Input>, m: nat, n: nat) returns (p: nat)
    requires m < n <= |run| && Beats(run[m])
    ensures m <= p < n && Beats(run[p]) && forall q :: p < q < n ==> !Beats(run[q])
    decreases n
  {
    if Beats(run[n - 1]) {
      p := n - 1;
    } else {
      p := LastBeatBefore(run, m, n - 1);
    }
  }

  lemma OneContent(run: seq<Input>, j: nat, a: Fp, b: Fp)
    requires SeenContent(run, j, a) && SeenContent(run, j, b)
    ensures a == b
  {
    var m: nat :| FirstTick(run, j, m) && run[m].screen.content == a;
    var n: nat :| FirstTick(run, j, n) && run[n].screen.content == b;
    assert m == n;
  }

  lemma SeenEarlier(run: seq<Input>, i: Input, j: nat, k: nat, content: Fp)
    requires j < k < |run| && LiveTick(run[k]) && SeenContent(run + [i], j, content)
    ensures SeenContent(run, j, content)
  {
    var all := run + [i];
    var m: nat :| FirstTick(all, j, m) && all[m].screen.content == content;
    assert all[k] == run[k] && m <= k;
    assert forall q :: j < q <= m ==> all[q] == run[q];
    assert FirstTick(run, j, m);
  }

  // Evidence given by an earlier tick was evidence then.
  lemma EvidenceEarlier(run: seq<Input>, i: Input, j: nat, k: nat, c: Config)
    requires j < k < |run| && Evidence(run + [i], j, k, c)
    ensures Taken(run, j, c)
  {
    var all := run + [i];
    assert all[k] == run[k] && all[j] == run[j] && all[..k + 1] == run[..k + 1];
    forall content | SeenContent(all, j, content) ensures SeenContent(run, j, content) {
      SeenEarlier(run, i, j, k, content);
    }
    hide SeenContent, BeatSince;
    if AtWork(all, k, c) {
      var since :| BeatingSince(all, k, since) && all[k].at - since < c.heartbeatStaleAfter;
      assert BeatingSince(run, k, since);
    }
    assert Evidence(run, j, k, c);
  }

  lemma WorkIsLive(sense: Sense, c: Config, run: seq<Input>, k: nat)
    requires k + 1 == |run| && BeatTrue(sense, run) && AtWork(run, k, c)
    requires sense.heartbeatFp == Some(run[k].screen.heartbeat.fp)
    ensures LivenessOf(sense, c, run[k].screen, run[k].at) == Live
  {
    assert run[..k + 1] == run;
    var since :| BeatingSince(run, k, since) && run[k].at - since < c.heartbeatStaleAfter;
    hide BeatSince;
    OneChange(run, run[k].screen.heartbeat.fp, since, sense.heartbeatAt.value);
  }

  lemma EvidenceEnds(u: Submitted, sense: Sense, c: Config, run: seq<Input>, i: Input, j: nat)
    requires j < |run| && u.active && SubmitTrue(u, c, run, j) && LiveTick(i)
    requires BeatTrue(sense, run + [i]) && (Beats(i) ==> sense.heartbeatFp == Some(i.screen.heartbeat.fp))
    requires Evidence(run + [i], j, |run|, c)
    ensures !UpdatePostSubmit(u, sense, c, i.screen, i.at).active
  {
    var all, k := run + [i], |run|;
    assert all[k] == i && all[j] == run[j];
    if AtWork(all, k, c) {
      WorkIsLive(sense, c, all, k);
      assert i.screen.prompt == NoPrompt;
      hide AtWork, LivenessOf, BeatTrue, SeenContent, Taken;
    } else if i.at < run[j].at + c.postSubmitGrace {
      var content :| SeenContent(all, j, content) && content != i.screen.content;
      FirstContent(u, c, run, i, j, content);
      hide AtWork, LivenessOf, BeatTrue, SeenContent, Taken;
    } else {
      hide AtWork, LivenessOf, BeatTrue, SeenContent, Taken;
    }
  }

  lemma FirstContent(u: Submitted, c: Config, run: seq<Input>, i: Input, j: nat, content: Fp)
    requires j < |run| && u.active && SubmitTrue(u, c, run, j) && LiveTick(i)
    requires SeenContent(run + [i], j, content)
    ensures content == if u.content.Some? then u.content.value else i.screen.content
  {
    if u.content.Some? {
      StillSeen(run, i, j, u.content.value);
      OneContent(run + [i], j, u.content.value, content);
    } else {
      NowSeen(run, i, j);
      OneContent(run + [i], j, i.screen.content, content);
    }
  }

  // A grace that runs is that of a submit nothing has shown to be taken.
  ghost predicate GraceRuns(e: Engine, c: Config, run: seq<Input>) {
    e.mode != HooksActive && e.submitted.active ==>
      exists j: nat :: LastSubmit(run, j) && !Taken(run, j, c)
  }

  lemma LastSubmitIsOne(run: seq<Input>, j: nat, k: nat)
    requires LastSubmit(run, j) && LastSubmit(run, k)
    ensures j == k
  {
  }

  lemma StillRuns(e: Engine, f: Engine, c: Config, run: seq<Input>, i: Input)
    requires GraceRuns(e, c, run) && !i.SubmitIn? && f.submitted.active
    requires e.submitted.active && e.mode != HooksActive
    requires forall j: nat :: LastSubmit(run, j) ==> !Evidence(run + [i], j, |run|, c)
    ensures GraceRuns(f, c, run + [i])
  {
    hide Evidence;
    var j: nat :| LastSubmit(run, j) && !Taken(run, j, c);
    StillLast(run, i, j);
    var all := run + [i];
    if Taken(all, j, c) {
      var k: nat :| j < k < |all| && Evidence(all, j, k, c);
      if k < |run| { EvidenceEarlier(run, i, j, k, c); }
    }
  }

  lemma OnScreenRuns(e: Engine, c: Config, run: seq<Input>, i: Input)
    requires GraceRuns(e, c, run) && GraceTrue(e, c, run) && e.mode != HooksActive && LiveTick(i)
    requires BeatTrue(e.sense, run + [i]) && (Beats(i) ==> e.sense.heartbeatFp == Some(i.screen.heartbeat.fp))
    ensures GraceRuns(TickOnScreen(e, c, i.screen, i.at).0, c, run + [i])
  {
    OnScreenSubmitted(e, c, i.screen, i.at);
    var f := TickOnScreen(e, c, i.screen, i.at).0;
    hide TickOnScreen, Evidence, GraceRuns, BeatTrue, SubmitTrue;
    if f.submitted.active {
      assert e.submitted.active;
      forall j: nat | LastSubmit(run, j) ensures !Evidence(run + [i], j, |run|, c) {
        if Evidence(run + [i], j, |run|, c) {
          EvidenceEnds(e.submitted, e.sense, c, run, i, j);
        }
      }
      StillRuns(e, f, c, run, i);
    } else {
      NoGrace(f, c, run + [i]);
    }
  }

  lemma NoGrace(e: Engine, c: Config, run: seq<Input>)
    requires !e.submitted.active || e.mode == HooksActive
    ensures GraceRuns(e, c, run)
  {
  }

  lemma NewGrace(e: Engine, c: Config, run: seq<Input>, now: Time)
    ensures GraceRuns(OnSubmit(e, c, now), c, run + [SubmitIn(now)])
  {
    var all := run + [SubmitIn(now)];
    assert all[|run|] == SubmitIn(now) && LastSubmit(all, |run|);
    assert !Taken(all, |run|, c);
  }

  lemma QuietRuns(e: Engine, c: Config, run: seq<Input>, i: Input)
    requires GraceRuns(e, c, run) && e.mode != HooksActive && !i.SubmitIn? && !LiveTick(i)
    ensures GraceRuns(e, c, run + [i])
  {
    hide GraceRuns;
    if e.submitted.active {
      assert (run + [i])[|run|] == i;
      StillRuns(e, e, c, run, i);
    } else {
      NoGrace(e, c, run + [i]);
    }
  }

  lemma StepRuns(e: Engine, c: Config, run: seq<Input>, i: Input)
    requires GraceRuns(e, c, run) && GraceTrue(e, c, run) && BeatTrue(e.sense, run)
    requires e.mode != HooksActive && !i.HookIn?
    ensures GraceRuns(Step(e, c, i).0, c, run + [i])
  {
    hide GraceTrue, TickOnScreen, TickUnderHooks, BeatTrue;
    match i
    case SubmitIn(now) => NewGrace(e, c, run, now);
    case TickIn(s, alive, now) =>
      var e1 := Sensed(e, c, s, now);
      SensedIs(e, c, s, now);
      TrackedBeat(e, c, i, run);
      GraceSensed(e, e1, c, run);
      if Dead(s, alive) {
        QuietRuns(e, c, run, i);
      } else {
        hide Sensed;
        OnScreenRuns(e1, c, run, i);
      }
    case _ => QuietRuns(e, c, run, i);
  }

  lemma {:induction false} RunRuns(c: Config, run: seq<Input>)
    requires NoHooks(run)
    ensures GraceRuns(After(NEW_ENGINE, c, run), c, run)
    decreases |run|
  {
    if run != [] {
      var n := |run| - 1;
      assert run == run[..n] + [run[n]] && run[n] in run;
      RunRuns(c, run[..n]);
      RunGrace(c, run[..n]);
      RunBeat(c, run[..n]);
      NoHooksMode(c, run[..n]);
      AfterSnoc(NEW_ENGINE, c, run[..n], run[n]);
      hide After, GraceTrue, BeatTrue, GraceRuns;
      StepRuns(After(NEW_ENGINE, c, run[..n]), c, run[..n], run[n]);
    }
  }

  // ---- what must be published -------------------------------------------------------------------------------

  // The decision for the prompt on this screen is out, and the engine waits for the user.
  predicate IsOut(e: Engine, s: Screen) {
    e.prompting.published.Some? && e.prompting.publishedPromptFp == s.promptFp && e.control == AwaitingUser
  }

  // Nothing in the run speaks against publishing the free-text prompt of tick i.
  ghost predicate Unhindered(c: Config, run: seq<Input>, i: Input)
    requires i.TickIn?
  {
    && !i.screen.echo
    && (forall j: nat :: LastSubmit(run, j) ==> Taken(run + [i], j, c))
    && !Awaited(c, run + [i])
    && (forall k: nat :: WithdrewLast(c, run + [i], k, i.screen.semantic) ==>
          i.at - (run + [i])[k].at >= c.withdrawnCooldown)
  }

  lemma GraceOver(e: Engine, c: Config, run: seq<Input>, i: Input)
    requires GraceRuns(e, c, run) && GraceTrue(e, c, run) && BeatTrue(e.sense, run)
    requires e.mode != HooksActive && LiveTick(i)
    requires forall j: nat :: LastSubmit(run, j) ==> Taken(run + [i], j, c)
    ensures !TickOnScreen(Sensed(e, c, i.screen, i.at), c, i.screen, i.at).0.submitted.active
  {
    var e1 := Sensed(e, c, i.screen, i.at);
    SensedIs(e, c, i.screen, i.at);
    TrackedBeat(e, c, i, run);
    GraceSensed(e, e1, c, run);
    OnScreenMode(e1, c, i.screen, i.at);
    hide Sensed, GraceTrue, BeatTrue, TickOnScreen;
    OnScreenRuns(e1, c, run, i);
    var f := TickOnScreen(e1, c, i.screen, i.at).0;
    if f.submitted.active {
      var j: nat :| LastSubmit(run + [i], j) && !Taken(run + [i], j, c);
      LastSubmitBefore(run, i, j);
    }
  }

  // The decision for the prompt on this screen is out already.
  predicate OutFor(p: Prompting, s: Screen) {
    p.published.Some? && p.publishedPromptFp == s.promptFp
  }

  // When a tick publishes the free-text prompt on its screen.
  lemma OnScreenSettles(e: Engine, c: Config, s: Screen, now: Time)
    requires s.prompt == Shows(FreeText) && !OutFor(e.prompting, s)
    ensures var (f, acts) := TickOnScreen(e, c, s, now);
      var p := f.prompting;
      && (Publishes(acts, ScreenKey(FreeText, s.semantic)) <==>
            && !s.echo && !InStartupGrace(e, c, now) && !f.submitted.active
            && !(p.withdrawnFp == Some(s.semantic) && Before(now, p.cooldownUntil))
            && p.candidateFp == Some(PromptKeyOf(s)) && Elapsed(now, p.candidateSince) >= c.idleConfirmWindow)
      && (IsOut(f, s) <==> Publishes(acts, ScreenKey(FreeText, s.semantic)))
  {
    hide Watchdog, Remind, BudgetNow, Before, Elapsed, LivenessOf;
    var e1 := e.(submitted := UpdatePostSubmit(e.submitted, e.sense, c, s, now));
    var p := e1.prompting;
    var (p1, first) :=
      if p.published.Some? then WithdrawPublished(p, c, PromptChanged, now) else (p, []);
    var e2 := e1.(prompting := p1, nagging := e1.nagging.(intervening := false));
    CandidateSettles(e2, c, s, now);
    var more := Candidate(e2, c, s, now, FreeText).1;
    assert forall a :: a in first + more <==> a in first || a in more;
    hide Candidate;
  }

  lemma CandidateSettles(e: Engine, c: Config, s: Screen, now: Time)
    requires e.prompting.published == None && (e.submitted.active ==> Before(now, e.submitted.graceUntil))
    ensures var (f, acts) := Candidate(e, c, s, now, FreeText);
      var p := f.prompting;
      && (Publishes(acts, ScreenKey(FreeText, s.semantic)) <==>
            && !s.echo && !InStartupGrace(e, c, now) && !f.submitted.active
            && !(p.withdrawnFp == Some(s.semantic) && Before(now, p.cooldownUntil))
            && p.candidateFp == Some(PromptKeyOf(s)) && Elapsed(now, p.candidateSince) >= c.idleConfirmWindow)
      && (p.published.Some? <==> Publishes(acts, ScreenKey(FreeText, s.semantic)))
      && (p.published.Some? ==> p.publishedPromptFp == s.promptFp)
  {
    hide BudgetNow, Before, Elapsed, InStartupGrace;
    var out := Publish(ScreenKey(FreeText, s.semantic), Waiting(Some(FreeText)));
    assert out in [out];
  }

  // A prompt watched since `since` with no decision out for it is the candidate, and was by then.
  lemma CandidateKept(e: Engine, c: Config, s: Screen, now: Time, since: Time)
    requires s.prompt.Shows? && since <= now && ClockOk(e.prompting, now) && !OutFor(e.prompting, s)
    requires Watched(e.prompting, PromptKeyOf(s), s.promptFp, since) || since == now
    ensures var p := TickOnScreen(e, c, s, now).0.prompting;
      p.candidateFp == Some(PromptKeyOf(s)) && p.candidateSince.Some? && p.candidateSince.value <= since
  {
    hide Watchdog, Remind, BudgetNow, UpdatePostSubmit, Elapsed, Before, InStartupGrace;
  }

  // The engine's cooldown is that of the decision withdrawn last.
  lemma CooldownExactly(p: Prompting, c: Config, run: seq<Input>, i: Input)
    requires WithdrawnTrue(p, c, run + [i]) && i.TickIn?
    ensures (p.withdrawnFp == Some(i.screen.semantic) && Before(i.at, p.cooldownUntil))
       <==> exists k: nat :: WithdrewLast(c, run + [i], k, i.screen.semantic)
                             && i.at - (run + [i])[k].at < c.withdrawnCooldown
  {
    hide WithdrewAt;
  }

  // The prompt has stood on every living tick for the confirm window.
  ghost predicate StoodLong(c: Config, run: seq<Input>, fp: Fp, now: Time) {
    exists j: nat :: StoodFrom(run, fp, j) && now - run[j].at >= c.idleConfirmWindow
  }

  // On a session without hooks, whose clock does not go back: a tick publishes the free-text prompt on its
  // screen exactly when the prompt has stood for the confirm window, our text is not in the box, the last
  // submit was taken, no hooks are waited for, and the decision withdrawn last, if it had the same meaning,
  // is a cooldown ago.
  lemma FreeTextIsPublishedExactlyWhen(c: Config, run: seq<Input>, i: Input, blanks: iset<Fp>)
    requires NoHooks(run) && Timed(run + [i]) && forall x :: x in run + [i] ==> Apart(x, blanks)
    requires LiveTick(i) && i.screen.prompt == Shows(FreeText)
    requires !OutFor(After(NEW_ENGINE, c, run).prompting, i.screen)
    ensures var (f, acts) := Step(After(NEW_ENGINE, c, run), c, i);
      && (Publishes(acts, ScreenKey(FreeText, i.screen.semantic)) <==>
            Unhindered(c, run, i) && StoodLong(c, run + [i], PromptKeyOf(i.screen), i.at))
      && (IsOut(f, i.screen) <==> Publishes(acts, ScreenKey(FreeText, i.screen.semantic)))
  {
    var e := After(NEW_ENGINE, c, run);
    var s, fp := i.screen, PromptKeyOf(i.screen);
    hide After, Watched, ClockOk, WithdrawnTrue, GraceRuns, GraceTrue, BeatTrue, StartupTrue, Apart, StoodFrom;
    Prepared(c, run, i);
    var e1 := Sensed(e, c, s, i.at);
    SensedIs(e, c, s, i.at);
    StartsExactly(e, c, run, i);
    StepWithdrawn(c, run, i);
    OnScreenStep(e, c, i);
    hide Sensed, InStartupGrace, TickOnScreen, Before, Elapsed, Awaited, WithdrewLast, Taken, LastSubmit, Step;
    hide Publishes, IsOut, OutFor;
    OnScreenSettles(e1, c, s, i.at);
    var f := TickOnScreen(e1, c, s, i.at).0;
    CooldownExactly(f.prompting, c, run, i);
    if Unhindered(c, run, i) && StoodLong(c, run + [i], fp, i.at) {
      GraceOver(e, c, run, i);
      var j: nat :| StoodFrom(run + [i], fp, j) && i.at - (run + [i])[j].at >= c.idleConfirmWindow;
      StoodPrepared(c, run, i, j, blanks);
      CandidateKept(e1, c, s, i.at, (run + [i])[j].at);
      LongEnough(i.at, (run + [i])[j].at, f.prompting.candidateSince, c.idleConfirmWindow);
    }
    if Publishes(Step(e, c, i).1, ScreenKey(FreeText, s.semantic)) {
      PublishedStood(c, run, i, blanks);
      forall j: nat | LastSubmit(run, j) ensures Taken(run + [i], j, c) {
        IdleAfterSubmitNeedsEvidence(c, run, i, j, s.semantic);
      }
    }
  }

  lemma LongEnough(now: Time, at: Time, since: Option<Time>, span: Time)
    requires since.Some? && since.value <= at && now - at >= span
    ensures Elapsed(now, since) >= span
  {
  }

  lemma OnScreenStep(e: Engine, c: Config, i: Input)
    requires e.mode != HooksActive && LiveTick(i)
    ensures Step(e, c, i) == TickOnScreen(Sensed(e, c, i.screen, i.at), c, i.screen, i.at)
  {
    hide TickOnScreen, TickUnderHooks;
  }

  lemma PublishedStood(c: Config, run: seq<Input>, i: Input, blanks: iset<Fp>)
    requires forall x :: x in run + [i] ==> Apart(x, blanks)
    requires LiveTick(i)
    requires Publishes(Step(After(NEW_ENGINE, c, run), c, i).1, ScreenKey(FreeText, i.screen.semantic))
    ensures StoodLong(c, run + [i], PromptKeyOf(i.screen), i.at)
  {
    hide Step, After, Apart, Publishes;
    assert forall x :: x in run ==> x in run + [i];
    assert i == (run + [i])[|run|];
    FreeTextIsPublishedOnlySettled(c, run, i, i.screen.semantic, blanks);
    var fp, all := PromptKeyOf(i.screen), run + [i];
    var since :| Standing(all, fp, since) && i.at - since >= c.idleConfirmWindow;
    var j: nat :| j < |all| && FirstSeen(all[j], since) && forall k :: j <= k < |all| ==> Stands(all[k], fp);
    assert StoodFrom(all, fp, j);
  }

  // So the decision for a free-text prompt that has stood for the window is out after the tick, whenever
  // nothing speaks against it.
  lemma StandingPromptIsPublished(c: Config, run: seq<Input>, i: Input, blanks: iset<Fp>)
    requires NoHooks(run) && Timed(run + [i]) && forall x :: x in run + [i] ==> Apart(x, blanks)
    requires LiveTick(i) && i.screen.prompt == Shows(FreeText)
    requires StoodLong(c, run + [i], PromptKeyOf(i.screen), i.at) && Unhindered(c, run, i)
    ensures IsOut(Step(After(NEW_ENGINE, c, run), c, i).0, i.screen)
  {
    hide After, Unhindered, StoodLong, Apart, Step;
    var p := After(NEW_ENGINE, c, run).prompting;
    if OutFor(p, i.screen) {
      DecisionStaysExactlyWhileShown(c, run, i, p.published.value);
    } else {
      FreeTextIsPublishedExactlyWhen(c, run, i, blanks);
    }
  }

  // What is known of the engine just before that tick.
  lemma Prepared(c: Config, run: seq<Input>, i: Input)
    requires NoHooks(run) && Timed(run + [i])
    ensures var e := After(NEW_ENGINE, c, run);
      && e.mode != HooksActive && ClockOk(e.prompting, i.at) && WithdrawnTrue(e.prompting, c, run)
      && GraceRuns(e, c, run) && GraceTrue(e, c, run) && BeatTrue(e.sense, run) && StartupTrue(e, c, run)
  {
    var all := run + [i];
    assert forall k :: 0 <= k < |run| ==> all[k] == run[k];
    assert Timed(run);
    NoHooksMode(c, run);
    RunWithdrawn(c, run);
    RunRuns(c, run);
    RunGrace(c, run);
    RunBeat(c, run);
    RunStartup(c, run);
    assert forall x :: x in run ==> x.at <= i.at by {
      forall x | x in run ensures x.at <= i.at {
        var k :| 0 <= k < |run| && run[k] == x;
        assert all[k].at <= all[|run|].at;
      }
    }
    RunClock(c, run, i.at);
    hide After, ClockOk, WithdrawnTrue, GraceRuns, GraceTrue, BeatTrue, StartupTrue;
  }

  // A prompt that stands through that tick was watched before it.
  lemma StoodPrepared(c: Config, run: seq<Input>, i: Input, j: nat, blanks: iset<Fp>)
    requires NoHooks(run) && Timed(run + [i]) && forall x :: x in run + [i] ==> Apart(x, blanks)
    requires LiveTick(i) && StoodFrom(run + [i], PromptKeyOf(i.screen), j) && i.screen.prompt.Shows?
    ensures var since := (run + [i])[j].at;
      && since <= i.at
      && (Watched(After(NEW_ENGINE, c, run).prompting, PromptKeyOf(i.screen), i.screen.promptFp, since)
          || since == i.at)
  {
    var all := run + [i];
    assert all[|run|] == i;
    assert forall k :: 0 <= k < |run| ==> all[k] == run[k];
    forall x | x in run ensures x in all { }
    hide After, Watched, Apart;
    if j < |run| {
      assert all[j].at <= all[|run|].at;
      assert Timed(run) && StoodFrom(run, PromptKeyOf(i.screen), j);
      StoodIsWatched(c, run, PromptKeyOf(i.screen), j, blanks);
      assert Stands(all[j], PromptKeyOf(i.screen)) && all[j] in all && i in all;
      SamePrompt(all[j], i, blanks);
    }
  }

  // A modal or permission prompt is out after the first tick that shows it, whatever was submitted, echoed
  // or expected before.
  lemma ChoiceIsPublishedAtOnce(c: Config, run: seq<Input>, i: Input)
    requires NoHooks(run) && LiveTick(i) && i.screen.prompt.Shows? && i.screen.prompt.kind != FreeText
    ensures var e := After(NEW_ENGINE, c, run);
      var (f, acts) := Step(e, c, i);
      && IsOut(f, i.screen)
      && (!OutFor(e.prompting, i.screen) <==> Publishes(acts, ScreenKey(i.screen.prompt.kind, i.screen.semantic)))
  {
    NoHooksMode(c, run);
    var e := After(NEW_ENGINE, c, run);
    var e1 := Sensed(e, c, i.screen, i.at);
    SensedIs(e, c, i.screen, i.at);
    OnScreenStep(e, c, i);
    hide Sensed, After, UpdatePostSubmit, Remind, Watchdog, BudgetNow, Step;
    var acts := TickOnScreen(e1, c, i.screen, i.at).1;
    if !OutFor(e.prompting, i.screen) {
      assert acts[|acts| - 1] == Publish(ScreenKey(i.screen.prompt.kind, i.screen.semantic),
                                         Waiting(Some(i.screen.prompt.kind)));
      assert acts[|acts| - 1] in acts;
    }
  }

  // A decision published off the screen names the kind of the prompt and the meaning it is published from.
  lemma ScreenDecisionNamesItsPrompt(e: Engine, c: Config, i: Input, a: Action)
    requires EngineOk(e) && a in Step(e, c, i).1 && a.Publish? && a.key.ScreenKey?
    ensures LiveTick(i) && i.screen.prompt == Shows(a.key.kind) && a.key.fp == i.screen.semantic
    ensures a.what == Waiting(Some(a.key.kind))
  {
    match i
    case HookIn(o, now) =>
    case TickIn(s, alive, now) =>
      var e1 := Sensed(e, c, s, now);
      hide Sensed;
      OnScreenNames(e1, c, s, now, a);
      UnderHooksNames(e1, c, s, now, a);
      hide TickOnScreen, TickUnderHooks;
    case _ =>
  }

  lemma OnScreenNames(e: Engine, c: Config, s: Screen, now: Time, a: Action)
    ensures a in TickOnScreen(e, c, s, now).1 && a.Publish? && a.key.ScreenKey? ==>
      s.prompt == Shows(a.key.kind) && a.key.fp == s.semantic && a.what == Waiting(Some(a.key.kind))
  {
    hide BudgetNow, UpdatePostSubmit, Elapsed, Before, InStartupGrace;
  }

  lemma UnderHooksNames(e: Engine, c: Config, s: Screen, now: Time, a: Action)
    ensures a in TickUnderHooks(e, c, s, now).1 && a.Publish? ==> !a.key.ScreenKey?
  {
    hide BudgetNow, Elapsed, Before, StopWasLost, LostStopStuck, WatchPrompt, TrackProgress;
  }

  // A decision that is out stays out exactly while its own prompt is on the screen; otherwise the tick
  // withdraws it.
  lemma DecisionStaysExactlyWhileShown(c: Config, run: seq<Input>, i: Input, key: Key)
    requires NoHooks(run) && LiveTick(i) && After(NEW_ENGINE, c, run).prompting.published == Some(key)
    ensures var p := After(NEW_ENGINE, c, run).prompting;
      var (f, acts) := Step(After(NEW_ENGINE, c, run), c, i);
      var shown := i.screen.prompt.Shows? && i.screen.promptFp == p.publishedPromptFp;
      && (shown ==> f.prompting == p && f.control == AwaitingUser)
      && (!shown <==> exists why :: Withdraw(key, why) in acts)
  {
    NoHooksMode(c, run);
    var e := After(NEW_ENGINE, c, run);
    var e1 := Sensed(e, c, i.screen, i.at);
    SensedIs(e, c, i.screen, i.at);
    hide Sensed, After;
    OnScreenWithdrawsIt(e1, c, i.screen, i.at, key);
    hide TickOnScreen;
  }

  lemma OnScreenWithdrawsIt(e: Engine, c: Config, s: Screen, now: Time, key: Key)
    requires e.prompting.published == Some(key)
    ensures var (f, acts) := TickOnScreen(e, c, s, now);
      var shown := s.prompt.Shows? && s.promptFp == e.prompting.publishedPromptFp;
      && (shown ==> f.prompting == e.prompting && f.control == AwaitingUser)
      && (!shown <==> exists why :: Withdraw(key, why) in acts)
  {
    hide UpdatePostSubmit, Watchdog, Candidate;
    var e1 := e.(submitted := UpdatePostSubmit(e.submitted, e.sense, c, s, now));
    var (f, acts) := TickOnScreen(e, c, s, now);
    if s.prompt.Shows? && s.promptFp == e.prompting.publishedPromptFp {
      assert acts == [];
    } else {
      assert acts[0].Withdraw? && acts[0].key == key && acts[0] in acts;
      assert Withdraw(key, acts[0].why) in acts;
    }
  }
}
