/**
  Handing an answer from the RPC thread to the monitor thread (daemon/session.py).

  Two single-slot protocols: a pre-delivery modal answer and a post-delivery free-text submit.  The RPC
  thread only enqueues and waits; the monitor claims, types and reports.  Every step below is what one
  thread does under the session lock, or one thing it does between two such regions, so the runs of
  `Do` are all interleavings of any number of responders with the monitor.

  `left`, `typed` and the fields after them are history: what happened to an answer, kept for the
  theorems.
*/
module HandOff {
  import opened Prelude

  type Id = nat
  type Time = real

  // The semantic identity of a modal: its kind and options, and a fingerprint of its body if it has one.
  datatype Dedup = Dedup(menu: Id, body: Option<Id>)

  datatype Decision = Decision(id: Id, blocked: bool, dedup: Option<Dedup>)

  datatype Delivery = Pending | Delivered | Failed

  datatype Outcome = Submitted | WriteTimeout | Stale | Terminal | RespondFailed

  datatype Reply = Resumed | ReplyWriteTimeout | ReplyStale | ReplyTerminal | ReplyFailed | NoPending

  // Who took an answer out of its slot.
  datatype Party = Drain | Reclaim | DeliveryWon | Teardown

  datatype Answer = Answer(did: Id, target: Option<Dedup>, outcome: Option<Outcome>, reply: Option<Reply>,
                           left: seq<Party>, typed: nat, claimedOn: Option<Dedup>)

  // What the monitor reads off the frame of one tick: the prompt on screen, whether a heartbeat is there,
  // and whether our own text is still in the box.
  datatype Shown = FreeTextBox | Modal | Permission | Crashed | Exited | NoPrompt | Unclear

  datatype Seen = Seen(shown: Shown, heartbeat: bool, echo: bool)

  // A frame drained for a submit, with its tick and the time.
  datatype Frame = Frame(tick: nat, at: Time, seen: Seen)

  datatype Submit = Submit(did: Id, written: bool, sawEcho: bool, deadline: Time, outcome: Option<Outcome>,
                           reply: Option<Reply>,
                           left: seq<Party>, typed: nat, typedAt: nat, landedAt: Option<nat>, frames: seq<Frame>)

  // The monitor's loop, then the steps of its teardown.
  datatype Phase = Looping | Gated | AnswersOut | Ended

  datatype Monitor =
    | At(phase: Phase)
    | TypingAnswer(answer: nat)
    | TypingSubmit(submit: nat)
    | ReportingAnswer(answer: nat, outcome: Outcome, next: Phase)
    | ReportingSubmit(submit: nat, outcome: Outcome, next: Phase)

  datatype State = State(closing: bool, delivery: Delivery,
                         decision: Option<nat>, decisions: seq<Decision>,
                         answerSlot: Option<nat>, answers: seq<Answer>,
                         submitSlot: Option<nat>, submits: seq<Submit>,
                         monitor: Monitor, tick: nat)

  datatype Step =
    // the monitor
    | Install(installed: Decision)
    | Withdraw
    | DrainAnswer(onScreen: Option<Dedup>)
    | TypeAnswer(ok: bool)
    | DeliverTask
    | FailDelivery
    | DrainSubmit(seen: Seen, now: Time)
    | TypeSubmit(ok: bool, now: Time, confirm: Time)
    | Report
    | RaiseGate
    | AbortAnswer
    | AbortSubmit
    // responders
    | RespondBlocked(bound: nat)
    | RespondFreeText(bound: nat)
    | ClaimDirectly(bound: nat)
    | ReclaimAnswer(answer: nat)
    | ReclaimSubmit(submit: nat)
    | WakeAnswer(answer: nat)
    | WakeSubmit(submit: nat)

  const START := State(false, Pending, None, [], None, [], None, [], At(Looping), 0)

  function ReplyFor(o: Outcome): Reply {
    match o
    case Submitted => Resumed
    case WriteTimeout => ReplyWriteTimeout
    case Stale => ReplyStale
    case Terminal => ReplyTerminal
    case RespondFailed => ReplyFailed
  }

  predicate Can(s: State, step: Step) {
    match step
    case Install(_) => s.monitor == At(Looping)
    case Withdraw => s.monitor == At(Looping)
    case DrainAnswer(_) => s.monitor == At(Looping)
    case TypeAnswer(_) => s.monitor.TypingAnswer?
    case DeliverTask => s.monitor == At(Looping) && s.delivery == Pending
    case FailDelivery => s.monitor == At(Looping) && s.delivery == Pending
    case DrainSubmit(_, _) => s.monitor == At(Looping)
    case TypeSubmit(_, _, _) => s.monitor.TypingSubmit?
    case Report => s.monitor.ReportingAnswer? || s.monitor.ReportingSubmit?
    case RaiseGate => s.monitor == At(Looping)
    case AbortAnswer => s.monitor == At(Gated)
    case AbortSubmit => s.monitor == At(AnswersOut)
    case RespondBlocked(d) => d < |s.decisions|
    case RespondFreeText(d) => d < |s.decisions|
    case ClaimDirectly(d) => d < |s.decisions|
    case ReclaimAnswer(i) => i < |s.answers| && s.answers[i].reply == None
    case ReclaimSubmit(i) => i < |s.submits| && s.submits[i].reply == None
    case WakeAnswer(i) => i < |s.answers| && s.answers[i].reply == None && s.answers[i].outcome.Some?
    case WakeSubmit(i) => i < |s.submits| && s.submits[i].reply == None && s.submits[i].outcome.Some?
  }

  // What the enqueueing region of a responder decides; None when it enqueues.
  function BlockedRefusal(s: State, bound: nat): Option<Reply> {
    if s.closing then Some(ReplyTerminal)
    else if s.decision != Some(bound) then Some(NoPending)
    else if s.answerSlot.Some? then Some(NoPending)
    else if s.delivery != Pending then Some(ReplyStale)
    else None
  }

  function FreeTextRefusal(s: State, bound: nat): Option<Reply> {
    if s.closing then Some(ReplyTerminal)
    else if s.decision != Some(bound) then Some(NoPending)
    else if s.submitSlot.Some? then Some(NoPending)
    else None
  }

  // Answer i leaves the slot as `a`.
  function TakeAnswer(s: State, i: nat, a: Answer, who: Party, next: Monitor): State
    requires i < |s.answers|
  {
    s.(answerSlot := None, answers := s.answers[i := a.(left := a.left + [who])], monitor := next)
  }

  function TakeSubmit(s: State, i: nat, u: Submit, who: Party, next: Monitor): State
    requires i < |s.submits|
  {
    s.(submitSlot := None, submits := s.submits[i := u.(left := u.left + [who])], monitor := next)
  }

  // The turn went on: a confident reading, never a blank or unclear one.
  predicate Moved(seen: Seen) {
    match seen.shown
    case NoPrompt => seen.heartbeat
    case FreeTextBox => false
    case Unclear => false
    case _ => true
  }

  // Landing evidence on the frame of this tick.
  predicate Landed(u: Submit, seen: Seen) {
    !seen.echo && (u.sawEcho || Moved(seen))
  }

  function DrainOneSubmit(s: State, i: nat, seen: Seen, now: Time): State
    requires Sized(s) && i < |s.submits|
  {
    var u := s.submits[i];
    var t := s.(tick := s.tick + 1);
    if !u.written then
      if s.decision.Some? && s.decisions[s.decision.value].id == u.did && seen.shown == FreeTextBox then
        t.(decision := None, monitor := TypingSubmit(i))
      else TakeSubmit(t, i, u, Drain, ReportingSubmit(i, Stale, Looping))
    else
      var u1 := u.(sawEcho := u.sawEcho || seen.echo, frames := u.frames + [Frame(t.tick, now, seen)]);
      if Landed(u, seen) then
        TakeSubmit(t, i, u1.(landedAt := Some(t.tick)), Drain, ReportingSubmit(i, Submitted, Looping))
      else if now >= u.deadline then TakeSubmit(t, i, u1, Drain, ReportingSubmit(i, RespondFailed, Looping))
      else t.(submits := t.submits[i := u1])
  }

  // Every reference is to something that exists.
  predicate Sized(s: State) {
    && (s.decision.Some? ==> s.decision.value < |s.decisions|)
    && (s.answerSlot.Some? ==> s.answerSlot.value < |s.answers|)
    && (s.submitSlot.Some? ==> s.submitSlot.value < |s.submits|)
    && (s.monitor.TypingAnswer? || s.monitor.ReportingAnswer? ==> s.monitor.answer < |s.answers|)
    && (s.monitor.TypingSubmit? || s.monitor.ReportingSubmit? ==> s.monitor.submit < |s.submits|)
  }

  function Do(s: State, step: Step): State
    requires Can(s, step) && Sized(s)
  {
    match step
    case Install(d) => s.(decisions := s.decisions + [d], decision := Some(|s.decisions|))
    case Withdraw => s.(decision := None)
    case DrainAnswer(onScreen) =>
      if s.answerSlot == None then s
      else
        var i := s.answerSlot.value;
        var a := s.answers[i].(claimedOn := onScreen);
        if (&& s.decision.Some? && s.decisions[s.decision.value].id == a.did && s.decisions[s.decision.value].blocked
            && s.delivery == Pending
            && onScreen.Some? && onScreen == a.target && onScreen.value.body.Some?) then
          TakeAnswer(s, i, a, Drain, TypingAnswer(i)).(decision := None)
        else TakeAnswer(s, i, a, Drain, ReportingAnswer(i, Stale, Looping))
    case TypeAnswer(ok) =>
      var i := s.monitor.answer;
      s.(answers := s.answers[i := s.answers[i].(typed := s.answers[i].typed + 1)],
         monitor := ReportingAnswer(i, if ok then Submitted else WriteTimeout, Looping))
    case DeliverTask =>
      var t := s.(delivery := Delivered,
                  decision := if s.decision.Some? && s.decisions[s.decision.value].blocked
                              then None else s.decision);
      if s.answerSlot == None then t
      else TakeAnswer(t, s.answerSlot.value, s.answers[s.answerSlot.value], DeliveryWon,
                      ReportingAnswer(s.answerSlot.value, Stale, Looping))
    case FailDelivery => s.(delivery := Failed)
    case DrainSubmit(seen, now) =>
      if s.submitSlot == None then s.(tick := s.tick + 1) else DrainOneSubmit(s, s.submitSlot.value, seen, now)
    case TypeSubmit(ok, now, confirm) =>
      var i := s.monitor.submit;
      var u := s.submits[i].(typed := s.submits[i].typed + 1, typedAt := s.tick);
      if ok then
        s.(submits := s.submits[i := u.(written := true, sawEcho := false, deadline := now + confirm, frames := [])],
           monitor := At(Looping))
      else
        // the slot is emptied whatever it holds
        s.(submits := s.submits[i := u.(left := if s.submitSlot == Some(i) then u.left + [Drain] else u.left)],
           submitSlot := None, monitor := ReportingSubmit(i, WriteTimeout, Looping))
    case Report =>
      if s.monitor.ReportingAnswer? then
        var i := s.monitor.answer;
        s.(answers := s.answers[i := s.answers[i].(outcome := Some(s.monitor.outcome))], monitor := At(s.monitor.next))
      else
        var i := s.monitor.submit;
        s.(submits := s.submits[i := s.submits[i].(outcome := Some(s.monitor.outcome))], monitor := At(s.monitor.next))
    case RaiseGate => s.(closing := true, monitor := At(Gated))
    case AbortAnswer =>
      if s.answerSlot == None then s.(monitor := At(AnswersOut))
      else TakeAnswer(s, s.answerSlot.value, s.answers[s.answerSlot.value], Teardown,
                      ReportingAnswer(s.answerSlot.value, Terminal, AnswersOut))
    case AbortSubmit =>
      if s.submitSlot == None then s.(monitor := At(Ended))
      else TakeSubmit(s, s.submitSlot.value, s.submits[s.submitSlot.value], Teardown,
                      ReportingSubmit(s.submitSlot.value, Terminal, Ended))
    case RespondBlocked(d) =>
      if BlockedRefusal(s, d).Some? then s
      else
        s.(answers := s.answers + [Answer(s.decisions[d].id, s.decisions[d].dedup, None, None, [], 0, None)],
           answerSlot := Some(|s.answers|))
    case RespondFreeText(d) =>
      if FreeTextRefusal(s, d).Some? then s
      else
        s.(submits := s.submits + [Submit(s.decisions[d].id, false, false, 0.0, None, None, [], 0, 0, None, [])],
           submitSlot := Some(|s.submits|))
    case ClaimDirectly(d) => if s.decision == Some(d) then s.(decision := None) else s
    case ReclaimAnswer(i) =>
      if s.answerSlot != Some(i) then s
      else TakeAnswer(s, i, s.answers[i].(reply := Some(ReplyWriteTimeout)), Reclaim, s.monitor)
    case ReclaimSubmit(i) =>
      if s.submitSlot != Some(i) then s
      else TakeSubmit(s, i, s.submits[i].(reply := Some(ReplyFailed)), Reclaim, s.monitor)
    case WakeAnswer(i) =>
      s.(answers := s.answers[i := s.answers[i].(reply := Some(ReplyFor(s.answers[i].outcome.value)))])
    case WakeSubmit(i) =>
      s.(submits := s.submits[i := s.submits[i].(reply := Some(ReplyFor(s.submits[i].outcome.value)))])
  }

  // ---- what every step keeps -------------------------------------------------------------------------

  datatype Work = Free | Typing | Reporting(outcome: Outcome)

  function WorkOnAnswer(m: Monitor, i: nat): Work {
    if m == TypingAnswer(i) then Typing
    else if m.ReportingAnswer? && m.answer == i then Reporting(m.outcome)
    else Free
  }

  function WorkOnSubmit(m: Monitor, i: nat): Work {
    if m == TypingSubmit(i) then Typing
    else if m.ReportingSubmit? && m.submit == i then Reporting(m.outcome)
    else Free
  }

  predicate SameModal(a: Answer) {
    a.claimedOn.Some? && a.claimedOn == a.target && a.claimedOn.value.body.Some?
  }

  // An outcome that says keys were sent, wholly or in part.
  predicate SaysTyped(o: Outcome) {
    o == Submitted || o == WriteTimeout
  }

  // The answer left its slot once, and this is who took it.
  predicate LeftBy(left: seq<Party>, who: Party) {
    |left| == 1 && left[0] == who
  }

  predicate AnswerOk(a: Answer, inSlot: bool, work: Work) {
    && |a.left| <= 1 && (|a.left| == 0 <==> inSlot)
    && a.typed <= 1
    && (a.typed == 1 ==> LeftBy(a.left, Drain) && SameModal(a))
    && (match work
        case Free => a.outcome == None ==> a.typed == 0 && (inSlot || a.reply.Some?)
        case Typing => a.outcome == None && LeftBy(a.left, Drain) && a.typed == 0 && SameModal(a) && a.reply == None
        case Reporting(o) =>
          && a.outcome == None && a.reply == None && |a.left| == 1 && a.left[0] != Reclaim
          && o != RespondFailed && (a.typed == 1 <==> SaysTyped(o)))
    && (a.outcome.Some? ==>
          && |a.left| == 1 && a.left[0] != Reclaim
          && a.outcome.value != RespondFailed && (a.typed == 1 <==> SaysTyped(a.outcome.value)))
    && (a.reply.Some? ==>
          if a.outcome.Some? then a.reply.value == ReplyFor(a.outcome.value)
          else LeftBy(a.left, Reclaim) && a.reply.value == ReplyWriteTimeout && a.typed == 0)
  }

  // The text was typed once, and landing was seen on a later tick's frame.
  predicate LandedLater(u: Submit) {
    u.typed == 1 && u.landedAt.Some? && u.typedAt < u.landedAt.value
  }

  predicate OutcomeTrue(u: Submit, o: Outcome) {
    match o
    case Submitted => LandedLater(u)
    case Stale => u.typed == 0
    case WriteTimeout => u.typed == 1
    case RespondFailed => u.typed == 1
    case Terminal => true
  }

  predicate SubmitOk(u: Submit, inSlot: bool, work: Work, tick: nat) {
    && |u.left| <= 1 && (|u.left| == 0 <==> inSlot)
    && u.typed <= 1 && (u.written ==> u.typed == 1 && u.typedAt <= tick)
    && (inSlot && work == Free ==> (u.typed == 1 <==> u.written) && u.outcome == None && u.reply == None)
    && (match work
        case Free => u.outcome == None ==> inSlot || u.reply.Some?
        case Typing =>
          && u.outcome == None && u.typed == 0 && !u.written
          && (if inSlot then u.reply == None else u.reply.Some?)
        case Reporting(o) => u.outcome == None && |u.left| == 1 && OutcomeTrue(u, o))
    && (u.outcome.Some? ==> OutcomeTrue(u, u.outcome.value))
    && (u.reply.Some? ==>
          || (u.outcome.Some? && u.reply.value == ReplyFor(u.outcome.value))
          || (LeftBy(u.left, Reclaim) && u.reply.value == ReplyFailed))
  }

  function PhaseOf(m: Monitor): Phase {
    match m
    case At(p) => p
    case TypingAnswer(_) => Looping
    case TypingSubmit(_) => Looping
    case ReportingAnswer(_, _, p) => p
    case ReportingSubmit(_, _, p) => p
  }

  predicate PhaseOk(s: State) {
    && (s.closing <==> PhaseOf(s.monitor) != Looping)
    && (PhaseOf(s.monitor) == AnswersOut || PhaseOf(s.monitor) == Ended ==> s.answerSlot == None)
    && (PhaseOf(s.monitor) == Ended ==> s.submitSlot == None)
    && (s.monitor.TypingAnswer? ==> s.decision == None && s.delivery == Pending)
    && (s.monitor.TypingSubmit? ==>
          s.decision == None && (s.submitSlot == None || s.submitSlot == Some(s.monitor.submit)))
  }

  ghost predicate AnswersOk(s: State) {
    forall i :: 0 <= i < |s.answers| ==> AnswerOk(s.answers[i], s.answerSlot == Some(i), WorkOnAnswer(s.monitor, i))
  }

  ghost predicate SubmitsOk(s: State) {
    forall i :: 0 <= i < |s.submits| ==>
      SubmitOk(s.submits[i], s.submitSlot == Some(i), WorkOnSubmit(s.monitor, i), s.tick)
  }

  ghost predicate Inv(s: State) {
    Sized(s) && PhaseOk(s) && AnswersOk(s) && SubmitsOk(s)
  }

  // The steps that touch an answer, those that touch a submit, and the rest.
  predicate OnAnswers(s: State, step: Step) {
    || step.DrainAnswer? || step.TypeAnswer? || step.DeliverTask? || step.AbortAnswer? || step.RespondBlocked?
    || step.ReclaimAnswer? || step.WakeAnswer? || (step.Report? && s.monitor.ReportingAnswer?)
  }

  predicate OnSubmits(s: State, step: Step) {
    || step.DrainSubmit? || step.TypeSubmit? || step.AbortSubmit? || step.RespondFreeText?
    || step.ReclaimSubmit? || step.WakeSubmit? || (step.Report? && s.monitor.ReportingSubmit?)
  }

  lemma AnswerStepKeepsShape(s: State, step: Step)
    requires Inv(s) && Can(s, step) && OnAnswers(s, step)
    ensures Sized(Do(s, step)) && PhaseOk(Do(s, step))
  {
    hide AnswersOk, SubmitsOk;
  }

  lemma AnswerStepKeepsSubmits(s: State, step: Step)
    requires Inv(s) && Can(s, step) && OnAnswers(s, step)
    ensures SubmitsOk(Do(s, step))
  {
    hide AnswersOk, SubmitOk, MaySend, PhaseOk;
  }

  lemma AnswerStepKeepsAnswers(s: State, step: Step)
    requires Inv(s) && Can(s, step) && OnAnswers(s, step)
    ensures AnswersOk(Do(s, step))
  {
    hide SubmitsOk;
    if step.DrainAnswer? || step.TypeAnswer? {
      MonitorStepKeepsAnswers(s, step);
    }
  }

  lemma MonitorStepKeepsAnswers(s: State, step: Step)
    requires Inv(s) && Can(s, step) && (step.DrainAnswer? || step.TypeAnswer?)
    ensures AnswersOk(Do(s, step))
  {
    hide SubmitsOk;
  }

  lemma SubmitStepKeepsShape(s: State, step: Step)
    requires Inv(s) && Can(s, step) && OnSubmits(s, step)
    ensures Sized(Do(s, step)) && PhaseOk(Do(s, step)) && AnswersOk(Do(s, step))
  {
    hide SubmitsOk, AnswerOk;
    if step.DrainSubmit? {
      DrainKeepsShape(s, step.seen, step.now);
    }
  }

  lemma DrainKeepsShape(s: State, seen: Seen, now: Time)
    requires Inv(s) && s.monitor == At(Looping)
    ensures var t := Do(s, DrainSubmit(seen, now)); Sized(t) && PhaseOk(t) && AnswersOk(t)
  {
    hide SubmitsOk, AnswersOk, Landed, Sized, PhaseOk;
    DrainLeavesAnswers(s, seen, now);
    DrainKeepsPhase(s, seen, now);
  }

  lemma DrainKeepsPhase(s: State, seen: Seen, now: Time)
    requires Inv(s) && s.monitor == At(Looping)
    ensures var t := Do(s, DrainSubmit(seen, now)); Sized(t) && PhaseOk(t)
  {
    hide SubmitsOk, AnswersOk, Landed;
  }

  lemma DrainLeavesAnswers(s: State, seen: Seen, now: Time)
    requires Inv(s) && s.monitor == At(Looping)
    ensures AnswersOk(Do(s, DrainSubmit(seen, now)))
  {
    hide SubmitsOk, AnswerOk, Landed, PhaseOk;
    assert Do(s, DrainSubmit(seen, now)).answers == s.answers;
  }

  lemma SubmitStepKeepsSubmits(s: State, step: Step)
    requires Inv(s) && Can(s, step) && OnSubmits(s, step)
    ensures SubmitsOk(Do(s, step))
  {
    hide AnswersOk, SubmitsOk, PhaseOk, Sized, Do;
    if step.DrainSubmit? {
      DrainKeepsSubmits(s, step.seen, step.now);
    } else if step.TypeSubmit? {
      TypeKeepsSubmits(s, step);
    } else if step.AbortSubmit? || step.Report? {
      MonitorKeepsSubmits(s, step);
    } else {
      ResponderKeepsSubmits(s, step);
    }
  }

  lemma MonitorKeepsSubmits(s: State, step: Step)
    requires Inv(s) && Can(s, step) && OnSubmits(s, step) && (step.AbortSubmit? || step.Report?)
    ensures SubmitsOk(Do(s, step))
  {
    hide AnswersOk;
  }

  lemma ResponderKeepsSubmits(s: State, step: Step)
    requires Inv(s) && Can(s, step) && (step.RespondFreeText? || step.ReclaimSubmit? || step.WakeSubmit?)
    ensures SubmitsOk(Do(s, step))
  {
    hide AnswersOk;
  }

  lemma DrainKeepsSubmits(s: State, seen: Seen, now: Time)
    requires Inv(s) && s.monitor == At(Looping)
    ensures SubmitsOk(Do(s, DrainSubmit(seen, now)))
  {
    hide AnswersOk, Landed, DrainOneSubmit;
    if s.submitSlot.Some? {
      if s.submits[s.submitSlot.value].written {
        DrainWritten(s, s.submitSlot.value, seen, now);
      } else {
        DrainQueued(s, s.submitSlot.value, seen, now);
      }
    }
  }

  lemma DrainQueued(s: State, i: nat, seen: Seen, now: Time)
    requires Inv(s) && s.monitor == At(Looping) && s.submitSlot == Some(i) && !s.submits[i].written
    ensures SubmitsOk(DrainOneSubmit(s, i, seen, now))
  {
    hide AnswersOk, PhaseOk;
  }

  lemma DrainWritten(s: State, i: nat, seen: Seen, now: Time)
    requires Inv(s) && s.monitor == At(Looping) && s.submitSlot == Some(i) && s.submits[i].written
    ensures SubmitsOk(DrainOneSubmit(s, i, seen, now))
  {
    hide AnswersOk, PhaseOk;
  }

  lemma TypeKeepsSubmits(s: State, step: Step)
    requires Inv(s) && Can(s, step) && step.TypeSubmit?
    ensures SubmitsOk(Do(s, step))
  {
    hide AnswersOk;
  }

  lemma OtherStepKeeps(s: State, step: Step)
    requires Inv(s) && Can(s, step) && !OnAnswers(s, step) && !OnSubmits(s, step)
    ensures Inv(Do(s, step))
  {
    hide AnswerOk, SubmitOk;
  }

  lemma StepKeeps(s: State, step: Step)
    requires Inv(s) && Can(s, step)
    ensures Inv(Do(s, step))
  {
    hide AnswersOk, SubmitsOk, PhaseOk, Sized, Do;
    if OnAnswers(s, step) {
      AnswerStepKeepsShape(s, step);
      AnswerStepKeepsSubmits(s, step);
      AnswerStepKeepsAnswers(s, step);
    } else if OnSubmits(s, step) {
      SubmitStepKeepsShape(s, step);
      SubmitStepKeepsSubmits(s, step);
    } else {
      OtherStepKeeps(s, step);
    }
  }

  // ---- every run ---------------------------------------------------------------------------------------

  predicate Legal(s: State, steps: seq<Step>)
    decreases |steps|
  {
    Sized(s) && (steps != [] ==> Can(s, steps[0]) && Legal(Do(s, steps[0]), steps[1..]))
  }

  function Run(s: State, steps: seq<Step>): (r: State)
    requires Legal(s, steps)
    ensures Sized(r)
    decreases |steps|
  {
    if steps == [] then s else Run(Do(s, steps[0]), steps[1..])
  }

  lemma {:induction false} RunKeeps(s: State, steps: seq<Step>)
    requires Inv(s) && Legal(s, steps)
    ensures Inv(Run(s, steps))
    decreases |steps|
  {
    if steps != [] {
      hide Inv, Do;
      StepKeeps(s, steps[0]);
      RunKeeps(Do(s, steps[0]), steps[1..]);
    }
  }

  lemma ReachedOk(steps: seq<Step>)
    requires Legal(START, steps)
    ensures Inv(Run(START, steps))
  {
    RunKeeps(START, steps);
  }

  // What a responder is told of a pre-delivery answer, and what became of it.  It leaves the slot once,
  // by one party; its keys are sent at most once, by the monitor's drain and into the very modal it was
  // given for; and no reply claims otherwise.
  lemma AnswerFate(steps: seq<Step>, i: nat)
    requires Legal(START, steps) && i < |Run(START, steps).answers|
    ensures var s := Run(START, steps);
      var a := s.answers[i];
      && |a.left| == (if s.answerSlot == Some(i) then 0 else 1)
      && a.typed <= 1
      && (a.typed == 1
          ==> LeftBy(a.left, Drain) && a.claimedOn == a.target && a.target.Some? && a.target.value.body.Some?)
      && (a.outcome == Some(Stale) || a.outcome == Some(Terminal) ==> a.typed == 0)
      && (a.outcome == Some(Submitted) ==> a.typed == 1)
      && (a.reply == Some(Resumed) ==> a.typed == 1)
      && (a.reply == Some(ReplyStale) || a.reply == Some(ReplyTerminal) ==> a.typed == 0)
      && (a.reply == Some(ReplyWriteTimeout) && LeftBy(a.left, Reclaim) ==> a.typed == 0)
  {
    ReachedOk(steps);
    hide Legal, Run, SubmitsOk;
    assert AnswerOk(Run(START, steps).answers[i], Run(START, steps).answerSlot == Some(i),
                    WorkOnAnswer(Run(START, steps).monitor, i));
  }

  // Keys of a pre-delivery answer are sent only while delivery is pending, into the modal that the
  // monitor saw to be the one answered.
  lemma TypedOnlyIntoTheAnsweredModal(steps: seq<Step>, ok: bool)
    requires Legal(START, steps) && Can(Run(START, steps), TypeAnswer(ok))
    ensures var s := Run(START, steps);
      && s.delivery == Pending && s.monitor.answer < |s.answers|
      && SameModal(s.answers[s.monitor.answer]) && s.answers[s.monitor.answer].typed == 0
  {
    ReachedOk(steps);
    hide Legal, Run, SubmitsOk;
  }

  lemma SubmitFate(steps: seq<Step>, i: nat)
    requires Legal(START, steps) && i < |Run(START, steps).submits|
    ensures var s := Run(START, steps);
      var u := s.submits[i];
      && |u.left| == (if s.submitSlot == Some(i) then 0 else 1)
      && u.typed <= 1
      && (u.outcome == Some(Submitted) ==> LandedLater(u))
      && (u.reply == Some(Resumed) ==> LandedLater(u))
      && (u.outcome == Some(Stale) ==> u.typed == 0)
      && (u.reply == Some(ReplyStale) ==> u.typed == 0)
  {
    ReachedOk(steps);
    hide Legal, Run, AnswersOk;
    assert SubmitOk(Run(START, steps).submits[i], Run(START, steps).submitSlot == Some(i),
                    WorkOnSubmit(Run(START, steps).monitor, i), Run(START, steps).tick);
  }

  // Nothing can be enqueued while the monitor types, so emptying the slot after a write timeout
  // discards at most the submit that timed out.
  lemma NoEnqueueWhileTyping(steps: seq<Step>, bound: nat)
    requires Legal(START, steps)
    requires var s := Run(START, steps); s.monitor.TypingSubmit? || s.monitor.TypingAnswer?
    ensures var s := Run(START, steps);
      && BlockedRefusal(s, bound).Some? && FreeTextRefusal(s, bound).Some?
      && (s.monitor.TypingSubmit? ==> s.submitSlot == None || s.submitSlot == Some(s.monitor.submit))
  {
    ReachedOk(steps);
    hide Legal, Run, SubmitsOk, AnswersOk;
  }

  // Teardown leaves nobody waiting: every responder has an outcome to wake to, or a reply already.
  lemma NobodyIsLeftWaiting(steps: seq<Step>, i: nat)
    requires Legal(START, steps) && Run(START, steps).monitor == At(Ended)
    ensures var s := Run(START, steps);
      && s.answerSlot == None && s.submitSlot == None
      && (i < |s.answers| ==> s.answers[i].outcome.Some? || s.answers[i].reply.Some?)
      && (i < |s.submits| ==> s.submits[i].outcome.Some? || s.submits[i].reply.Some?)
  {
    ReachedOk(steps);
    hide Legal, Run;
    var s := Run(START, steps);
    if i < |s.answers| { assert AnswerOk(s.answers[i], s.answerSlot == Some(i), WorkOnAnswer(s.monitor, i)); }
    if i < |s.submits| { assert SubmitOk(s.submits[i], s.submitSlot == Some(i), WorkOnSubmit(s.monitor, i), s.tick); }
  }

  predicate AnswersAborted(s: State) {
    PhaseOf(s.monitor) == AnswersOut || PhaseOf(s.monitor) == Ended
  }

  // Once teardown has aborted the pending answer, its slot stays empty.
  lemma {:induction false} SlotStaysEmpty(s: State, steps: seq<Step>)
    requires Inv(s) && AnswersAborted(s) && Legal(s, steps)
    ensures Inv(Run(s, steps)) && AnswersAborted(Run(s, steps)) && Run(s, steps).answerSlot == None
    ensures |Run(s, steps).answers| == |s.answers|
    decreases |steps|
  {
    if steps != [] {
      hide Inv, Do, AnswersAborted;
      StepKeeps(s, steps[0]);
      StaysAborted(s, steps[0]);
      SlotStaysEmpty(Do(s, steps[0]), steps[1..]);
    }
    AbortedIsEmpty(Run(s, steps));
  }

  lemma AbortedIsEmpty(s: State)
    requires Inv(s) && AnswersAborted(s)
    ensures s.answerSlot == None
  {
  }

  lemma StaysAborted(s: State, step: Step)
    requires Inv(s) && AnswersAborted(s) && Can(s, step)
    ensures AnswersAborted(Do(s, step)) && |Do(s, step).answers| == |s.answers|
  {
    hide AnswersOk, SubmitsOk;
  }

  // ---- what becomes of an answer when nothing interferes ---------------------------------------------

  lemma RunPrepend(s: State, step: Step, steps: seq<Step>)
    requires Sized(s) && Can(s, step) && Legal(Do(s, step), steps)
    ensures Legal(s, [step] + steps) && Run(s, [step] + steps) == Run(Do(s, step), steps)
  {
    hide Do, Can, Sized;
    assert ([step] + steps)[1..] == steps;
  }

  // An answer may be sent into the very modal it was given for, and nowhere else.
  predicate MaySend(s: State, a: Answer, onScreen: Option<Dedup>)
    requires Sized(s)
  {
    && s.decision.Some? && s.decisions[s.decision.value].id == a.did && s.decisions[s.decision.value].blocked
    && s.delivery == Pending
    && onScreen.Some? && onScreen == a.target && onScreen.value.body.Some?
  }

  // From the drain to the responder's waking: typed and told so exactly when the answer may be sent.
  function AnswerSteps(sends: bool, onScreen: Option<Dedup>, ok: bool, i: nat): seq<Step> {
    [DrainAnswer(onScreen)] + ((if sends then [TypeAnswer(ok)] else []) + ([Report] + ([WakeAnswer(i)] + [])))
  }

  // A record the monitor works on, as it stands after its drain or its typing.
  predicate AnswerAt(s: State, i: nat, m: Monitor, typed: nat) {
    && Sized(s) && i < |s.answers| && s.monitor == m
    && s.answers[i].typed == typed && s.answers[i].outcome == None && s.answers[i].reply == None
  }

  lemma AnswerDrained(s: State, i: nat, onScreen: Option<Dedup>)
    requires Inv(s) && s.monitor == At(Looping) && s.answerSlot == Some(i)
    ensures Can(s, DrainAnswer(onScreen))
    ensures AnswerAt(Do(s, DrainAnswer(onScreen)), i,
                     if MaySend(s, s.answers[i], onScreen) then TypingAnswer(i) else ReportingAnswer(i, Stale, Looping),
                     0)
  {
    hide SubmitsOk;
    assert AnswerOk(s.answers[i], true, Free);
  }

  lemma AnswerTyped(s: State, i: nat, ok: bool)
    requires AnswerAt(s, i, TypingAnswer(i), 0)
    ensures Can(s, TypeAnswer(ok))
    ensures AnswerAt(Do(s, TypeAnswer(ok)), i, ReportingAnswer(i, if ok then Submitted else WriteTimeout, Looping), 1)
  {
  }

  lemma AnswerReported(s: State, i: nat, o: Outcome, typed: nat)
    requires AnswerAt(s, i, ReportingAnswer(i, o, Looping), typed)
    ensures Legal(s, [Report] + ([WakeAnswer(i)] + []))
    ensures var t := Run(s, [Report] + ([WakeAnswer(i)] + []));
      i < |t.answers| && t.answers[i].typed == typed && t.answers[i].reply == Some(ReplyFor(o))
  {
    var s1 := Do(s, Report);
    assert Sized(s1) && Can(s1, WakeAnswer(i));
    var s2 := Do(s1, WakeAnswer(i));
    assert Sized(s2);
    hide Do, Can;
    NoSteps(s2);
    RunPrepend(s1, WakeAnswer(i), []);
    RunPrepend(s, Report, [WakeAnswer(i)] + []);
  }

  lemma AnswerIsServed(s: State, i: nat, onScreen: Option<Dedup>, ok: bool)
    requires Inv(s) && s.monitor == At(Looping) && s.answerSlot == Some(i)
    ensures var sends := MaySend(s, s.answers[i], onScreen);
      var rest := AnswerSteps(sends, onScreen, ok, i);
      && Legal(s, rest)
      && var t := Run(s, rest);
         && i < |t.answers|
         && t.answers[i].typed == (if sends then 1 else 0)
         && t.answers[i].reply == Some(if !sends then ReplyStale else if ok then Resumed else ReplyWriteTimeout)
  {
    AnswerDrained(s, i, onScreen);
    var s1 := Do(s, DrainAnswer(onScreen));
    var last := [Report] + ([WakeAnswer(i)] + []);
    var sends := MaySend(s, s.answers[i], onScreen);
    hide Do, Can, Legal, Run, MaySend;
    if sends {
      AnswerTyped(s1, i, ok);
      AnswerReported(Do(s1, TypeAnswer(ok)), i, if ok then Submitted else WriteTimeout, 1);
      RunPrepend(s1, TypeAnswer(ok), last);
    } else {
      AnswerReported(s1, i, Stale, 0);
      assert [] + last == last;
    }
    RunPrepend(s, DrainAnswer(onScreen), (if sends then [TypeAnswer(ok)] else []) + last);
  }

  lemma NoSteps(s: State)
    requires Sized(s)
    ensures Legal(s, []) && Run(s, []) == s
  {
  }

  // A submit whose prompt is still on screen is typed, and landing seen on the next frame resumes it.
  function SubmitSteps(first: Seen, now: Time, confirm: Time, next: Seen, later: Time, i: nat): seq<Step> {
    [DrainSubmit(first, now)]
        + ([TypeSubmit(true, now, confirm)] + ([DrainSubmit(next, later)] + ([Report] + ([WakeSubmit(i)] + []))))
  }

  lemma SubmitDrained(s: State, i: nat, first: Seen, now: Time, confirm: Time)
    requires Inv(s) && s.monitor == At(Looping) && s.submitSlot == Some(i) && !s.submits[i].written
    requires s.decision.Some? && s.decisions[s.decision.value].id == s.submits[i].did && first.shown == FreeTextBox
    ensures Can(s, DrainSubmit(first, now))
    ensures var t := Do(s, DrainSubmit(first, now));
      && Sized(t) && Can(t, TypeSubmit(true, now, confirm)) && t.monitor == TypingSubmit(i) && t.submitSlot == Some(i)
      && t.submits == s.submits && s.submits[i].typed == 0 && s.submits[i].reply == None && s.submits[i].outcome == None
  {
    hide AnswersOk;
    assert SubmitOk(s.submits[i], true, Free, s.tick);
  }

  lemma SubmitTyped(s: State, i: nat, now: Time, confirm: Time, next: Seen, later: Time)
    requires Sized(s) && s.monitor == TypingSubmit(i) && s.submitSlot == Some(i)
    requires s.submits[i].typed == 0 && s.submits[i].reply == None && s.submits[i].outcome == None
    requires !next.echo
    requires next.shown in {Modal, Permission, Crashed, Exited} || (next.shown == NoPrompt && next.heartbeat)
    ensures var t := Do(s, TypeSubmit(true, now, confirm));
      && Sized(t) && Can(t, DrainSubmit(next, later))
      && var u := Do(t, DrainSubmit(next, later));
         && Sized(u) && i < |u.submits| && u.monitor == ReportingSubmit(i, Submitted, Looping)
         && u.submits[i].typed == 1 && LandedLater(u.submits[i])
         && u.submits[i].reply == None && u.submits[i].outcome == None
  {
  }

  lemma SubmitReported(s: State, i: nat)
    requires Sized(s) && i < |s.submits| && s.monitor == ReportingSubmit(i, Submitted, Looping)
    requires s.submits[i].typed == 1 && LandedLater(s.submits[i]) && s.submits[i].reply == None
    ensures Legal(s, [Report] + ([WakeSubmit(i)] + []))
    ensures var t := Run(s, [Report] + ([WakeSubmit(i)] + []));
      i < |t.submits| && t.submits[i].typed == 1 && LandedLater(t.submits[i]) && t.submits[i].reply == Some(Resumed)
  {
    var s1 := Do(s, Report);
    assert Sized(s1) && Can(s1, WakeSubmit(i));
    var s2 := Do(s1, WakeSubmit(i));
    assert Sized(s2);
    hide Do, Can;
    NoSteps(s2);
    RunPrepend(s1, WakeSubmit(i), []);
    RunPrepend(s, Report, [WakeSubmit(i)] + []);
  }

  lemma SubmitIsServed(s: State, i: nat, first: Seen, now: Time, confirm: Time, next: Seen, later: Time)
    requires Inv(s) && s.monitor == At(Looping) && s.submitSlot == Some(i) && !s.submits[i].written
    requires s.decision.Some? && s.decisions[s.decision.value].id == s.submits[i].did && first.shown == FreeTextBox
    requires !next.echo
    requires next.shown in {Modal, Permission, Crashed, Exited} || (next.shown == NoPrompt && next.heartbeat)
    ensures var rest := SubmitSteps(first, now, confirm, next, later, i);
      && Legal(s, rest)
      && var t := Run(s, rest);
         i < |t.submits| && t.submits[i].typed == 1 && LandedLater(t.submits[i]) && t.submits[i].reply == Some(Resumed)
  {
    SubmitDrained(s, i, first, now, confirm);
    var s1 := Do(s, DrainSubmit(first, now));
    hide Do, Can, Legal, Run, LandedLater;
    SubmitTyped(s1, i, now, confirm, next, later);
    var s2 := Do(s1, TypeSubmit(true, now, confirm));
    var last := [Report] + ([WakeSubmit(i)] + []);
    SubmitReported(Do(s2, DrainSubmit(next, later)), i);
    RunPrepend(s2, DrainSubmit(next, later), last);
    RunPrepend(s1, TypeSubmit(true, now, confirm), [DrainSubmit(next, later)] + last);
    RunPrepend(s, DrainSubmit(first, now), [TypeSubmit(true, now, confirm)] + ([DrainSubmit(next, later)] + last));
  }

  // ---- who is let in, and what delivery does ----------------------------------------------------------

  // A blocked answer is enqueued exactly when the session is open, its decision is the pending one, the slot
  // is free and delivery is pending; it freezes the identity of the decision's modal.  A free-text answer
  // needs no pending delivery.
  lemma EnqueuedExactlyWhen(s: State, bound: nat)
    requires Inv(s) && bound < |s.decisions|
    ensures var t := Do(s, RespondBlocked(bound));
      if !s.closing && s.decision == Some(bound) && s.answerSlot == None && s.delivery == Pending then
        && t.answerSlot == Some(|s.answers|) && |t.answers| == |s.answers| + 1
        && var a := t.answers[|s.answers|];
           a.did == s.decisions[bound].id && a.target == s.decisions[bound].dedup && a.left == [] && a.typed == 0
      else
        && t == s
        && BlockedRefusal(s, bound) == Some(if s.closing then ReplyTerminal
                                            else if s.decision != Some(bound) || s.answerSlot.Some? then NoPending
                                            else ReplyStale)
    ensures var t := Do(s, RespondFreeText(bound));
      if !s.closing && s.decision == Some(bound) && s.submitSlot == None then
        && t.submitSlot == Some(|s.submits|) && |t.submits| == |s.submits| + 1
        && var u := t.submits[|s.submits|];
           u.did == s.decisions[bound].id && !u.written && u.left == [] && u.typed == 0
      else
        && t == s && FreeTextRefusal(s, bound) == Some(if s.closing then ReplyTerminal else NoPending)
  {
    hide SubmitsOk, AnswersOk;
  }

  // Delivery takes a waiting answer out and tells its responder that it is stale; the blocked decision is
  // gone, another one stays.
  lemma DeliveryTakesTheAnswer(s: State)
    requires Inv(s) && Can(s, DeliverTask)
    ensures var t := Do(s, DeliverTask);
      && t.delivery == Delivered && t.answerSlot == None
      && (s.answerSlot.Some? ==> t.monitor == ReportingAnswer(s.answerSlot.value, Stale, Looping))
      && (t.decision == None <==> s.decision == None || s.decisions[s.decision.value].blocked)
      && (t.decision.Some? ==> t.decision == s.decision)
  {
    hide SubmitsOk, AnswersOk;
  }

  // ---- a decision is consumed once --------------------------------------------------------------------

  // A write that succeeds starts the deadline of a submit still waited for; one that times out empties the slot.
  lemma TypingStartsTheDeadline(s: State, ok: bool, now: Time, confirm: Time)
    requires Inv(s) && s.monitor.TypingSubmit?
    ensures var i := s.monitor.submit;
      var t := Do(s, TypeSubmit(ok, now, confirm));
      && t.submits[i].typed == 1
      && (if ok then
            && t.submits[i].written && t.submits[i].deadline == now + confirm && t.submits[i].frames == []
            && t.submitSlot == s.submitSlot && t.monitor == At(Looping)
          else t.submitSlot == None && !t.submits[i].written && t.monitor == ReportingSubmit(i, WriteTimeout, Looping))
  {
    assert SubmitOk(s.submits[s.monitor.submit], s.submitSlot == Some(s.monitor.submit), Typing, s.tick);
    hide SubmitsOk, AnswersOk;
  }

  predicate IsTyping(m: Monitor) {
    m.TypingAnswer? || m.TypingSubmit?
  }

  // Whoever starts to type takes the pending decision, and it is the one the answer was given to.
  lemma TypingConsumesItsDecision(s: State, step: Step)
    requires Inv(s) && Can(s, step) && !IsTyping(s.monitor) && IsTyping(Do(s, step).monitor)
    ensures var t := Do(s, step);
      && s.decision.Some? && t.decision == None
      && (t.monitor.TypingAnswer? ==> t.answers[t.monitor.answer].did == s.decisions[s.decision.value].id)
      && (t.monitor.TypingSubmit? ==> t.submits[t.monitor.submit].did == s.decisions[s.decision.value].id)
  {
    hide SubmitsOk, AnswersOk, PhaseOk, Landed;
  }

  // A decision that is not pending any more never is again, in any run: so it is answered once at most.
  lemma {:induction false} ConsumedStaysConsumed(s: State, steps: seq<Step>, d: nat)
    requires Legal(s, steps) && d < |s.decisions| && s.decision != Some(d)
    ensures Run(s, steps).decision != Some(d)
    decreases |steps|
  {
    if steps != [] {
      StepLeavesConsumed(s, steps[0], d);
      hide Do, Can, Sized;
      ConsumedStaysConsumed(Do(s, steps[0]), steps[1..], d);
    }
  }

  lemma StepLeavesConsumed(s: State, step: Step, d: nat)
    requires Sized(s) && Can(s, step) && d < |s.decisions| && s.decision != Some(d)
    ensures d < |Do(s, step).decisions| && Do(s, step).decision != Some(d)
  {
    hide Landed;
  }
}
