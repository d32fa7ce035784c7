/**
  When a typed submit has landed (daemon/session.py), told from the frames the monitor drained for it
  since the write, and from nothing else.

  A frame is evidence when our own text is not in the box, and either the screen has confidently moved on
  or an earlier such frame showed our text there.  The first such frame resolves the submit as submitted;
  without one, the first frame at or past the deadline resolves it as failed; and nothing else the monitor
  sees resolves it.
*/
module Landing {
  import opened Prelude
  import opened HandOff

  predicate MovedOn(seen: Seen) {
    seen.shown in {Modal, Permission, Crashed, Exited} || (seen.shown == NoPrompt && seen.heartbeat)
  }

  predicate Lands(frames: seq<Frame>, k: nat)
    requires k < |frames|
  {
    && !frames[k].seen.echo
    && (MovedOn(frames[k].seen) || exists j :: 0 <= j < k && frames[j].seen.echo)
  }

  // Frame k decides nothing.
  predicate Undecided(frames: seq<Frame>, deadline: Time, k: nat)
    requires k < |frames|
  {
    !Lands(frames, k) && frames[k].at < deadline
  }

  // Of the first n frames, none decides anything.
  predicate Waiting(frames: seq<Frame>, deadline: Time, n: nat)
    requires n <= |frames|
  {
    forall k: nat :: k < n ==> Undecided(frames, deadline, k)
  }

  // What the frames say of a submit resolved so.
  predicate Judged(u: Submit, o: Outcome) {
    match o
    case Submitted =>
      && u.written && u.frames != [] && Waiting(u.frames, u.deadline, |u.frames| - 1) && Lands(u.frames, |u.frames| - 1)
    case RespondFailed =>
      && u.written && u.frames != [] && Waiting(u.frames, u.deadline, |u.frames| - 1)
      && !Lands(u.frames, |u.frames| - 1) && u.frames[|u.frames| - 1].at >= u.deadline
    case Terminal => Waiting(u.frames, u.deadline, |u.frames|)
    case _ => !u.written
  }

  predicate Ordered(u: Submit, tick: nat) {
    && (forall k: nat :: k < |u.frames| ==> u.typedAt < u.frames[k].tick <= tick)
    && (forall j, k :: 0 <= j < k < |u.frames| ==> u.frames[j].tick < u.frames[k].tick)
  }

  predicate FrameOk(u: Submit, work: Work, tick: nat) {
    && (!u.written ==> u.frames == [])
    && Ordered(u, tick)
    && (u.written ==> (u.sawEcho <==> exists j :: 0 <= j < |u.frames| && u.frames[j].seen.echo))
    && (match work
        case Reporting(o) => Judged(u, o)
        case _ => u.outcome == None ==> Waiting(u.frames, u.deadline, |u.frames|))
    && (u.outcome.Some? ==> Judged(u, u.outcome.value))
  }

  ghost predicate FramesOk(s: State) {
    forall i :: 0 <= i < |s.submits| ==> FrameOk(s.submits[i], WorkOnSubmit(s.monitor, i), s.tick)
  }

  // ---- one frame more -------------------------------------------------------------------------------

  lemma LandsStays(frames: seq<Frame>, f: Frame, k: nat)
    requires k < |frames|
    ensures Lands(frames + [f], k) <==> Lands(frames, k)
  {
    assert forall j :: 0 <= j <= k ==> (frames + [f])[j] == frames[j];
  }

  lemma WaitingStays(frames: seq<Frame>, deadline: Time, f: Frame, n: nat)
    requires n <= |frames|
    ensures Waiting(frames + [f], deadline, n) <==> Waiting(frames, deadline, n)
  {
    forall k: nat | k < n ensures Undecided(frames + [f], deadline, k) <==> Undecided(frames, deadline, k) {
      LandsStays(frames, f, k);
    }
    hide Undecided;
    assert forall k: nat :: k < n ==> (Undecided(frames + [f], deadline, k) <==> Undecided(frames, deadline, k));
  }

  // The program's own test agrees with the history.
  lemma LandedIsLands(u: Submit, seen: Seen, f: Frame)
    requires f.seen == seen && (u.sawEcho <==> exists j :: 0 <= j < |u.frames| && u.frames[j].seen.echo)
    ensures Landed(u, seen) <==> Lands(u.frames + [f], |u.frames|)
  {
    assert forall j :: 0 <= j < |u.frames| ==> (u.frames + [f])[j] == u.frames[j];
    assert Moved(seen) <==> MovedOn(seen);
  }

  lemma EchoedStays(u: Submit, f: Frame)
    ensures (exists j :: 0 <= j < |u.frames + [f]| && (u.frames + [f])[j].seen.echo)
       <==> (f.seen.echo || exists j :: 0 <= j < |u.frames| && u.frames[j].seen.echo)
  {
    var all := u.frames + [f];
    assert all[|u.frames|] == f && forall j :: 0 <= j < |u.frames| ==> all[j] == u.frames[j];
  }

  // Frame f drained for u, as the monitor notes it.
  function Noted(u: Submit, f: Frame): Submit {
    u.(sawEcho := u.sawEcho || f.seen.echo, frames := u.frames + [f])
  }

  lemma NotedOk(u: Submit, f: Frame, tick: nat)
    requires FrameOk(u, Free, tick) && u.written && u.outcome == None && f.tick == tick + 1 && u.typedAt <= tick
    ensures var v := Noted(u, f);
      && Ordered(v, f.tick) && Waiting(v.frames, v.deadline, |u.frames|)
      && (v.sawEcho <==> exists j :: 0 <= j < |v.frames| && v.frames[j].seen.echo)
      && (Landed(u, f.seen) <==> Lands(v.frames, |u.frames|))
      && (!Lands(v.frames, |u.frames|) && f.at < u.deadline ==> Waiting(v.frames, v.deadline, |v.frames|))
  {
    WaitingStays(u.frames, u.deadline, f, |u.frames|);
    EchoedStays(u, f);
    LandedIsLands(u, f.seen, f);
    hide Lands, Landed;
    var v := Noted(u, f);
    assert v.frames[|u.frames|] == f;
  }

  // What a drain does to a typed submit is what the frames say.
  lemma DrainedOk(s: State, i: nat, seen: Seen, now: Time)
    requires Inv(s) && FramesOk(s) && s.monitor == At(Looping) && s.submitSlot == Some(i) && s.submits[i].written
    ensures var t := DrainOneSubmit(s, i, seen, now); FrameOk(t.submits[i], WorkOnSubmit(t.monitor, i), t.tick)
  {
    var u := s.submits[i];
    assert FrameOk(u, Free, s.tick) && SubmitOk(u, true, Free, s.tick);
    var f := Frame(s.tick + 1, now, seen);
    NotedOk(u, f, s.tick);
    hide Waiting, Lands, Landed, Ordered, SubmitsOk, AnswersOk, PhaseOk, FramesOk, SubmitOk;
    assert |Noted(u, f).frames| - 1 == |u.frames|;
  }

  // ---- every run -------------------------------------------------------------------------------------

  predicate OnOneSubmit(s: State, step: Step) {
    || step.AbortSubmit? || step.RespondFreeText? || step.ReclaimSubmit? || step.WakeSubmit?
    || (step.Report? && s.monitor.ReportingSubmit?)
  }

  // Steps that leave every submit and the work on it alone.
  lemma IdleStepFrames(s: State, step: Step)
    requires Inv(s) && FramesOk(s) && Can(s, step)
    requires !step.DrainSubmit? && !step.TypeSubmit? && !OnOneSubmit(s, step)
    ensures FramesOk(Do(s, step))
  {
    hide AnswersOk, SubmitsOk, FrameOk, PhaseOk;
    var t := Do(s, step);
    assert t.submits == s.submits && t.tick == s.tick;
    assert forall i :: 0 <= i < |s.submits| ==> WorkOnSubmit(t.monitor, i) == WorkOnSubmit(s.monitor, i);
  }

  // Steps that change one submit: who took it, its outcome or its reply, never its frames.
  lemma OneStepFrames(s: State, step: Step)
    requires Inv(s) && FramesOk(s) && Can(s, step) && OnOneSubmit(s, step)
    ensures FramesOk(Do(s, step))
  {
    hide Inv, FramesOk, Do, Can;
    if step.RespondFreeText? {
      EnqueueFrames(s, step);
    } else if step.AbortSubmit? {
      AbortFrames(s);
    } else {
      ToldFrames(s, step);
    }
  }

  lemma EnqueueFrames(s: State, step: Step)
    requires Inv(s) && FramesOk(s) && Can(s, step) && step.RespondFreeText?
    ensures FramesOk(Do(s, step))
  {
    hide AnswersOk, SubmitsOk, Lands, PhaseOk;
    var t := Do(s, step);
    forall i | 0 <= i < |t.submits| ensures FrameOk(t.submits[i], WorkOnSubmit(t.monitor, i), t.tick) {
      if i < |s.submits| {
        assert FrameOk(s.submits[i], WorkOnSubmit(s.monitor, i), s.tick);
      } else {
        assert t.submits[i].frames == [] && WorkOnSubmit(t.monitor, i) == Free;
      }
    }
  }

  // Its waiter takes it back or wakes, or the monitor reports.
  lemma ToldFrames(s: State, step: Step)
    requires Inv(s) && FramesOk(s) && Can(s, step)
    requires step.ReclaimSubmit? || step.WakeSubmit? || (step.Report? && s.monitor.ReportingSubmit?)
    ensures FramesOk(Do(s, step))
  {
    hide AnswersOk, SubmitsOk, Waiting, Lands, Ordered, PhaseOk;
    var t := Do(s, step);
    forall i | 0 <= i < |t.submits| ensures FrameOk(t.submits[i], WorkOnSubmit(t.monitor, i), t.tick) {
      assert FrameOk(s.submits[i], WorkOnSubmit(s.monitor, i), s.tick);
      OrderedSame(s.submits[i], t.submits[i], s.tick);
    }
  }

  lemma OrderedSame(u: Submit, v: Submit, tick: nat)
    requires Ordered(u, tick) && v.frames == u.frames && v.typedAt == u.typedAt
    ensures Ordered(v, tick)
  {
  }

  lemma AbortFrames(s: State)
    requires Inv(s) && FramesOk(s) && Can(s, AbortSubmit)
    ensures FramesOk(Do(s, AbortSubmit))
  {
    if s.submitSlot.Some? {
      var i := s.submitSlot.value;
      assert s.submits[i].outcome == None by { assert SubmitOk(s.submits[i], true, Free, s.tick); }
      assert FrameOk(s.submits[i], Free, s.tick);
    }
    hide AnswersOk, SubmitsOk, Waiting, Lands, Ordered, PhaseOk;
  }

  lemma TypeStepFrames(s: State, step: Step)
    requires Inv(s) && FramesOk(s) && Can(s, step) && step.TypeSubmit?
    ensures FramesOk(Do(s, step))
  {
    hide AnswersOk, Lands, PhaseOk;
    var i := s.monitor.submit;
    assert SubmitOk(s.submits[i], s.submitSlot == Some(i), Typing, s.tick) && FrameOk(s.submits[i], Typing, s.tick);
  }

  lemma DrainStepFrames(s: State, step: Step)
    requires Inv(s) && FramesOk(s) && Can(s, step) && step.DrainSubmit?
    ensures FramesOk(Do(s, step))
  {
    if s.submitSlot.Some? && s.submits[s.submitSlot.value].written {
      DrainedOk(s, s.submitSlot.value, step.seen, step.now);
    }
    DrainLeavesOthers(s, step);
    hide AnswersOk, SubmitsOk, DrainOneSubmit, Judged, Waiting, Ordered, PhaseOk;
    var t := Do(s, step);
    forall i | 0 <= i < |t.submits| ensures FrameOk(t.submits[i], WorkOnSubmit(t.monitor, i), t.tick) {
      assert FrameOk(s.submits[i], WorkOnSubmit(s.monitor, i), s.tick);
      if t.submits[i].frames == s.submits[i].frames {
        OrderedLater(s.submits[i], t.submits[i], s.tick);
      }
    }
  }

  lemma OrderedLater(u: Submit, v: Submit, tick: nat)
    requires Ordered(u, tick) && v.frames == u.frames && v.typedAt == u.typedAt
    ensures Ordered(v, tick + 1)
  {
  }

  // A drain touches the submit in the slot only, and a queued one keeps its place or becomes stale.
  lemma DrainLeavesOthers(s: State, step: Step)
    requires Inv(s) && Can(s, step) && step.DrainSubmit?
    ensures var t := Do(s, step);
      && |t.submits| == |s.submits| && t.tick == s.tick + 1
      && (forall i :: 0 <= i < |s.submits| && s.submitSlot != Some(i) ==>
            t.submits[i] == s.submits[i] && WorkOnSubmit(t.monitor, i) == WorkOnSubmit(s.monitor, i))
      && (s.submitSlot.Some? && !s.submits[s.submitSlot.value].written ==>
            var i := s.submitSlot.value;
            && t.submits[i] == s.submits[i].(left := t.submits[i].left)
            && WorkOnSubmit(t.monitor, i) in {Typing, Reporting(Stale)})
  {
    hide AnswersOk, SubmitsOk, Landed, PhaseOk;
  }

  lemma {:induction false} RunFrames(s: State, steps: seq<Step>)
    requires Inv(s) && FramesOk(s) && Legal(s, steps)
    ensures Inv(Run(s, steps)) && FramesOk(Run(s, steps))
    decreases |steps|
  {
    if steps != [] {
      hide Inv, Do, FramesOk;
      StepKeeps(s, steps[0]);
      if steps[0].DrainSubmit? {
        DrainStepFrames(s, steps[0]);
      } else if steps[0].TypeSubmit? {
        TypeStepFrames(s, steps[0]);
      } else if OnOneSubmit(s, steps[0]) {
        OneStepFrames(s, steps[0]);
      } else {
        IdleStepFrames(s, steps[0]);
      }
      RunFrames(Do(s, steps[0]), steps[1..]);
    }
  }

  lemma Reached(steps: seq<Step>, i: nat)
    requires Legal(START, steps) && i < |Run(START, steps).submits|
    ensures var s := Run(START, steps);
      && Inv(s) && FramesOk(s)
      && SubmitOk(s.submits[i], s.submitSlot == Some(i), WorkOnSubmit(s.monitor, i), s.tick)
      && FrameOk(s.submits[i], WorkOnSubmit(s.monitor, i), s.tick)
  {
    ReachedOk(steps);
    RunFrames(START, steps);
  }

  // In every run a submit is resolved as submitted exactly when its last frame is the first evidence of
  // landing, drained on a later tick than the write; as failed when there is none and the last frame is the
  // first at or past the deadline.  Its responder is told so.
  lemma SubmittedExactlyOnLanding(steps: seq<Step>, i: nat)
    requires Legal(START, steps) && i < |Run(START, steps).submits|
    requires Run(START, steps).submits[i].outcome.Some? && Run(START, steps).submits[i].written
    ensures var u := Run(START, steps).submits[i];
      var last := |u.frames| - 1;
      && (u.outcome == Some(Submitted) <==>
            u.frames != [] && Lands(u.frames, last) && Waiting(u.frames, u.deadline, last))
      && (u.outcome == Some(RespondFailed) <==>
            && u.frames != [] && !Lands(u.frames, last) && Waiting(u.frames, u.deadline, last)
            && u.frames[last].at >= u.deadline)
      && (forall k: nat :: k < |u.frames| ==> u.typedAt < u.frames[k].tick)
      && (u.reply == Some(Resumed) ==> u.outcome == Some(Submitted))
  {
    Reached(steps, i);
    hide Legal, Run, Lands, Inv, FramesOk;
    var u := Run(START, steps).submits[i];
    if u.outcome == Some(Terminal) && u.frames != [] {
      assert Undecided(u.frames, u.deadline, |u.frames| - 1);
    }
  }

  // The frame of this tick decides a typed submit as its history with that frame says: landing first, then
  // the deadline, else nothing.
  lemma FrameDecides(steps: seq<Step>, seen: Seen, now: Time, i: nat)
    requires Legal(START, steps) && Can(Run(START, steps), DrainSubmit(seen, now))
    requires var s := Run(START, steps); s.submitSlot == Some(i) && s.submits[i].written
    ensures var s := Run(START, steps);
      var t := Do(s, DrainSubmit(seen, now));
      var frames := s.submits[i].frames + [Frame(s.tick + 1, now, seen)];
      && t.submits[i].frames == frames
      && (if Lands(frames, |frames| - 1) then
            t.submitSlot == None && t.monitor == ReportingSubmit(i, Submitted, Looping)
          else if now >= s.submits[i].deadline then
            t.submitSlot == None && t.monitor == ReportingSubmit(i, RespondFailed, Looping)
          else
            t.submitSlot == Some(i) && t.monitor == At(Looping) && t.submits[i].outcome == None)
  {
    Reached(steps, i);
    hide Legal, Run, Lands, Landed, FramesOk;
    var s := Run(START, steps);
    var f := Frame(s.tick + 1, now, seen);
    NotedOk(s.submits[i], f, s.tick);
  }

  // So the first tick at or past the deadline resolves it, whatever the screen shows.
  lemma DeadlineResolves(steps: seq<Step>, seen: Seen, now: Time, i: nat)
    requires Legal(START, steps) && Can(Run(START, steps), DrainSubmit(seen, now))
    requires var s := Run(START, steps);
      s.submitSlot == Some(i) && s.submits[i].written && now >= s.submits[i].deadline
    ensures var s := Run(START, steps);
      var t := Do(s, DrainSubmit(seen, now));
      var frames := s.submits[i].frames + [Frame(s.tick + 1, now, seen)];
      && t.submitSlot == None
      && t.monitor == ReportingSubmit(i, if Lands(frames, |frames| - 1) then Submitted else RespondFailed, Looping)
  {
    FrameDecides(steps, seen, now, i);
  }

  // A typed submit leaves its slot only by such a frame, by its own waiter giving up, or by teardown.
  lemma LeavesOnlyDecided(steps: seq<Step>, step: Step, i: nat)
    requires Legal(START, steps) && Can(Run(START, steps), step)
    requires var s := Run(START, steps); s.submitSlot == Some(i) && s.submits[i].written
    ensures var s := Run(START, steps);
      Do(s, step).submitSlot != Some(i) ==>
        || step == ReclaimSubmit(i) || step == AbortSubmit
        || (step.DrainSubmit?
            && var frames := s.submits[i].frames + [Frame(s.tick + 1, step.now, step.seen)];
               Lands(frames, |frames| - 1) || step.now >= s.submits[i].deadline)
  {
    Reached(steps, i);
    if step.DrainSubmit? {
      FrameDecides(steps, step.seen, step.now, i);
    }
    hide Legal, Run, Lands, Landed, FramesOk, AnswersOk;
  }
}
