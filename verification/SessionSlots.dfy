/**
  The two answer slots of a session as the program keeps them (daemon/session.py).  Each method is one
  region under the session lock, or one action between two regions, and moves the state exactly as the
  step of `HandOff` it names; so whatever holds over the runs there holds of these fields.

  A slot holds a reference to an answer record that the responder and the monitor share; here the
  records are listed and a slot holds an index.
*/
module SessionSlots {
  import opened Prelude
  import opened HandOff

  class Session {
    var closing: bool
    var taskDelivery: Delivery
    var decision: Option<nat>
    var decisions: seq<Decision>
    var pendingAnswer: Option<nat>
    var answers: seq<Answer>
    var pendingSubmit: Option<nat>
    var submits: seq<Submit>
    var monitor: Monitor        // where the monitor thread is
    var tick: nat

    function Memory(): State
      reads this
    {
      State(closing, taskDelivery, decision, decisions, pendingAnswer, answers, pendingSubmit, submits, monitor, tick)
    }

    ghost predicate Valid()
      reads this
    {
      Inv(Memory())
    }

    constructor ()
      ensures Valid() && Memory() == START
    {
      closing, taskDelivery, decision, decisions := false, Pending, None, [];
      pendingAnswer, answers, pendingSubmit, submits := None, [], None, [];
      monitor, tick := At(Looping), 0;
    }

    // ---- responders ----

    method RespondBlocked(bound: nat) returns (refused: Option<Reply>)
      requires Valid() && bound < |decisions|
      modifies this
      ensures Valid() && Memory() == Do(old(Memory()), Step.RespondBlocked(bound))
      ensures refused == BlockedRefusal(old(Memory()), bound)
    {
      hide Inv;
      StepKeeps(Memory(), Step.RespondBlocked(bound));
      if closing { return Some(ReplyTerminal); }
      if decision != Some(bound) { return Some(NoPending); }
      if pendingAnswer.Some? { return Some(NoPending); }
      if taskDelivery != Pending { return Some(ReplyStale); }
      var pa := Answer(decisions[bound].id, decisions[bound].dedup, None, None, [], 0, None);
      pendingAnswer := Some(|answers|);
      answers := answers + [pa];
      return None;
    }

    method RespondFreeText(bound: nat) returns (refused: Option<Reply>)
      requires Valid() && bound < |decisions|
      modifies this
      ensures Valid() && Memory() == Do(old(Memory()), Step.RespondFreeText(bound))
      ensures refused == FreeTextRefusal(old(Memory()), bound)
    {
      hide Inv;
      StepKeeps(Memory(), Step.RespondFreeText(bound));
      if closing { return Some(ReplyTerminal); }
      if decision != Some(bound) { return Some(NoPending); }
      if pendingSubmit.Some? { return Some(NoPending); }
      var ps := Submit(decisions[bound].id, false, false, 0.0, None, None, [], 0, 0, None, []);
      pendingSubmit := Some(|submits|);
      submits := submits + [ps];
      return None;
    }

    // A waiter whose time is up takes its answer back, if the monitor has not.
    method ReclaimAnswer(i: nat) returns (reclaimed: bool)
      requires Valid() && i < |answers| && answers[i].reply == None
      modifies this
      ensures Valid() && Memory() == Do(old(Memory()), Step.ReclaimAnswer(i))
      ensures reclaimed <==> old(pendingAnswer) == Some(i)
    {
      hide Inv;
      StepKeeps(Memory(), Step.ReclaimAnswer(i));
      reclaimed := pendingAnswer == Some(i);
      if reclaimed {
        pendingAnswer := None;
        answers := answers[i := answers[i].(left := answers[i].left + [Reclaim], reply := Some(ReplyWriteTimeout))];
      }
    }

    method ReclaimSubmit(i: nat) returns (reclaimed: bool)
      requires Valid() && i < |submits| && submits[i].reply == None
      modifies this
      ensures Valid() && Memory() == Do(old(Memory()), Step.ReclaimSubmit(i))
      ensures reclaimed <==> old(pendingSubmit) == Some(i)
    {
      hide Inv;
      StepKeeps(Memory(), Step.ReclaimSubmit(i));
      reclaimed := pendingSubmit == Some(i);
      if reclaimed {
        pendingSubmit := None;
        submits := submits[i := submits[i].(left := submits[i].left + [Reclaim], reply := Some(ReplyFailed))];
      }
    }

    // ---- the monitor ----

    method DrainPendingAnswer(onScreen: Option<Dedup>)
      requires Valid() && monitor == At(Looping)
      modifies this
      ensures Valid() && Memory() == Do(old(Memory()), DrainAnswer(onScreen))
    {
      hide Inv;
      Shaped();
      StepKeeps(Memory(), DrainAnswer(onScreen));
      if pendingAnswer == None { return; }
      var i := pendingAnswer.value;
      var pa := answers[i];
      pendingAnswer := None;
      answers := answers[i := pa.(left := pa.left + [Drain], claimedOn := onScreen)];
      var submit := decision.Some? && decisions[decision.value].id == pa.did && decisions[decision.value].blocked
        && taskDelivery == Pending && onScreen.Some? && onScreen == pa.target && onScreen.value.body.Some?;
      if submit {
        decision := None;
        monitor := TypingAnswer(i);
      } else {
        monitor := ReportingAnswer(i, Stale, Looping);
      }
    }

    method TypeAnswer(ok: bool)
      requires Valid() && monitor.TypingAnswer?
      modifies this
      ensures Valid() && Memory() == Do(old(Memory()), Step.TypeAnswer(ok))
    {
      hide Inv;
      Shaped();
      StepKeeps(Memory(), Step.TypeAnswer(ok));
      var i := monitor.answer;
      answers := answers[i := answers[i].(typed := answers[i].typed + 1)];
      monitor := ReportingAnswer(i, if ok then Submitted else WriteTimeout, Looping);
    }

    method ConfirmDelivery()
      requires Valid() && monitor == At(Looping) && taskDelivery == Pending
      modifies this
      ensures Valid() && Memory() == Do(old(Memory()), DeliverTask)
    {
      hide Inv;
      Shaped();
      StepKeeps(Memory(), DeliverTask);
      taskDelivery := Delivered;
      if decision.Some? && decisions[decision.value].blocked {
        decision := None;
      }
      if pendingAnswer.Some? {
        var i := pendingAnswer.value;
        pendingAnswer := None;
        answers := answers[i := answers[i].(left := answers[i].left + [DeliveryWon])];
        monitor := ReportingAnswer(i, Stale, Looping);
      }
    }

    method DrainPendingSubmit(seen: Seen, now: Time)
      requires Valid() && monitor == At(Looping)
      modifies this
      ensures Valid() && Memory() == Do(old(Memory()), DrainSubmit(seen, now))
    {
      hide Inv;
      Shaped();
      StepKeeps(Memory(), DrainSubmit(seen, now));
      tick := tick + 1;
      if pendingSubmit == None { return; }
      var i := pendingSubmit.value;
      var ps := submits[i];
      if !ps.written {
        var compatible := decision.Some? && decisions[decision.value].id == ps.did && seen.shown == FreeTextBox;
        if compatible {
          decision := None;
          monitor := TypingSubmit(i);
        } else {
          pendingSubmit := None;
          submits := submits[i := ps.(left := ps.left + [Drain])];
          monitor := ReportingSubmit(i, Stale, Looping);
        }
        return;
      }
      JudgeWritten(i, seen, now);
    }

    // A typed submit is judged by the frame of this tick, then by its deadline.
    method JudgeWritten(i: nat, seen: Seen, now: Time)
      requires Sized(Memory()) && pendingSubmit == Some(i) && submits[i].written && tick > 0
      modifies this`submits, this`pendingSubmit, this`monitor
      ensures Memory() == DrainOneSubmit(old(Memory()).(tick := tick - 1), i, seen, now)
    {
      var ps := submits[i].(frames := submits[i].frames + [Frame(tick, now, seen)]);
      var confirmed := false;
      if seen.echo {
        ps := ps.(sawEcho := true);
      } else {
        var moved := (seen.shown == NoPrompt && seen.heartbeat) || seen.shown in {Modal, Permission, Crashed, Exited};
        confirmed := ps.sawEcho || moved;
      }
      if confirmed {
        pendingSubmit := None;
        submits := submits[i := ps.(left := ps.left + [Drain], landedAt := Some(tick))];
        monitor := ReportingSubmit(i, Submitted, Looping);
      } else if now >= ps.deadline {
        pendingSubmit := None;
        submits := submits[i := ps.(left := ps.left + [Drain])];
        monitor := ReportingSubmit(i, RespondFailed, Looping);
      } else {
        submits := submits[i := ps];
      }
    }

    method TypeSubmit(ok: bool, now: Time, confirm: Time)
      requires Valid() && monitor.TypingSubmit?
      modifies this
      ensures Valid() && Memory() == Do(old(Memory()), Step.TypeSubmit(ok, now, confirm))
    {
      hide Inv;
      Shaped();
      StepKeeps(Memory(), Step.TypeSubmit(ok, now, confirm));
      var i := monitor.submit;
      var ps := submits[i].(typed := submits[i].typed + 1, typedAt := tick);
      if ok {
        submits := submits[i := ps.(deadline := now + confirm, sawEcho := false, written := true, frames := [])];
        monitor := At(Looping);
      } else {
        if pendingSubmit == Some(i) {
          ps := ps.(left := ps.left + [Drain]);
        }
        submits := submits[i := ps];
        pendingSubmit := None;
        monitor := ReportingSubmit(i, WriteTimeout, Looping);
      }
    }

    // Set the outcome and wake the waiter.
    method Report()
      requires Valid() && (monitor.ReportingAnswer? || monitor.ReportingSubmit?)
      modifies this
      ensures Valid() && Memory() == Do(old(Memory()), Step.Report)
    {
      hide Inv;
      Shaped();
      StepKeeps(Memory(), Step.Report);
      if monitor.ReportingAnswer? {
        answers := answers[monitor.answer := answers[monitor.answer].(outcome := Some(monitor.outcome))];
      } else {
        submits := submits[monitor.submit := submits[monitor.submit].(outcome := Some(monitor.outcome))];
      }
      monitor := At(monitor.next);
    }

    method RaiseGate()
      requires Valid() && monitor == At(Looping)
      modifies this
      ensures Valid() && Memory() == Do(old(Memory()), Step.RaiseGate)
    {
      hide Inv;
      Shaped();
      StepKeeps(Memory(), Step.RaiseGate);
      closing := true;
      monitor := At(Gated);
    }

    method AbortPendingAnswer()
      requires Valid() && monitor == At(Gated)
      modifies this
      ensures Valid() && Memory() == Do(old(Memory()), AbortAnswer)
    {
      hide Inv;
      Shaped();
      StepKeeps(Memory(), AbortAnswer);
      if pendingAnswer == None {
        monitor := At(AnswersOut);
        return;
      }
      var i := pendingAnswer.value;
      pendingAnswer := None;
      answers := answers[i := answers[i].(left := answers[i].left + [Teardown])];
      monitor := ReportingAnswer(i, Terminal, AnswersOut);
    }

    method AbortPendingSubmit()
      requires Valid() && monitor == At(AnswersOut)
      modifies this
      ensures Valid() && Memory() == Do(old(Memory()), AbortSubmit)
    {
      hide Inv;
      Shaped();
      StepKeeps(Memory(), AbortSubmit);
      if pendingSubmit == None {
        monitor := At(Ended);
        return;
      }
      var i := pendingSubmit.value;
      pendingSubmit := None;
      submits := submits[i := submits[i].(left := submits[i].left + [Teardown])];
      monitor := ReportingSubmit(i, Terminal, Ended);
    }

    lemma Shaped()
      requires Valid()
      ensures Sized(Memory())
    {
    }
  }
}
