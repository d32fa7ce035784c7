/**
  The meaning of one lifecycle hook of the agent (daemon/hooks.py): a pure mapping from the raw event
  to a typed observation, with no clock and no state.
*/
module Hooks {
  import opened Prelude

  type Id = nat

  datatype Tool = NoTool | AskUserQuestion | OtherTool(name: Id)

  // A gate is identified by the call it is about.  The program hashes tool and input; equal
  // fingerprints stand for equal calls.
  datatype Gate = Gate(tool: Tool, input: Id)

  datatype RawKind =
    | Stop | StopFailure | UserPromptSubmit | PermissionRequest | PreToolUse | PostToolUse
    | Notification | OtherEvent

  datatype Note = PermissionNote | IdleNote | OtherNote

  datatype HookEvent = HookEvent(event: RawKind, tool: Tool, input: Option<Id>, isInterrupt: bool, note: Note)

  datatype Meaning = Working | WaitingForUser | IdleNow

  datatype PromptKind = FreeText | ModalChoice | PermissionChoice

  datatype Observation = Observation(kind: Meaning, closesTurn: bool, opensTurn: bool, clearsPending: bool,
                                     interrupted: bool, promptKind: Option<PromptKind>, gate: Option<Gate>)

  function GateOf(tool: Tool, input: Option<Id>): Option<Gate> {
    match input
    case None => None
    case Some(i) => Some(Gate(tool, i))
  }

  function Plain(kind: Meaning, gate: Option<Gate>): Observation {
    Observation(kind, false, false, false, false, None, gate)
  }

  function Pause(prompt: PromptKind, gate: Option<Gate>): Observation {
    Observation(WaitingForUser, false, false, false, false, Some(prompt), gate)
  }

  function Normalize(ev: HookEvent): Observation {
    if ev.event == Stop || ev.event == StopFailure then
      Observation(IdleNow, true, false, false, ev.isInterrupt, None, None)
    else if ev.event == UserPromptSubmit then
      Observation(Working, false, true, false, false, None, None)
    else if ev.event == PermissionRequest then
      Pause(PermissionChoice, GateOf(ev.tool, ev.input))
    else if ev.tool == AskUserQuestion && ev.event == PreToolUse then
      Pause(ModalChoice, GateOf(ev.tool, ev.input))
    else if ev.tool == AskUserQuestion && ev.event == PostToolUse then
      Observation(Working, false, false, true, false, None, None)
    else if ev.event == Notification then
      match ev.note
      case PermissionNote => Pause(PermissionChoice, None)
      case IdleNote => Observation(IdleNow, true, false, false, false, None, None)
      case OtherNote => Plain(Working, None)
    else
      Plain(Working, if ev.event == PreToolUse then GateOf(ev.tool, ev.input) else None)
  }

  // A working hook that only reports work going on.
  predicate IsPlainWork(o: Observation) {
    o.kind == Working && !o.opensTurn && !o.closesTurn && !o.clearsPending
  }

  // A new invocation of a gate: the only hook that may lift its tombstone.
  predicate Invokes(o: Observation, gate: Gate) {
    IsPlainWork(o) && o.gate == Some(gate)
  }

  // Only the PreToolUse of an ordinary tool reports a new invocation, and only of its own call.
  lemma OnlyPreToolUseInvokes(ev: HookEvent, gate: Gate)
    ensures Invokes(Normalize(ev), gate)
       <==> ev.event == PreToolUse && ev.tool != AskUserQuestion && GateOf(ev.tool, ev.input) == Some(gate)
  {
  }

  // Which hook does what, event by event; an observation has one role at most, and a gate identity only
  // when it pauses or invokes.
  lemma OneRole(ev: HookEvent)
    ensures var o := Normalize(ev);
      && (o.opensTurn <==> ev.event == UserPromptSubmit)
      && (o.closesTurn <==> ev.event in {Stop, StopFailure} || (ev.event == Notification && ev.note == IdleNote))
      && (o.clearsPending <==> ev.event == PostToolUse && ev.tool == AskUserQuestion)
      && (o.kind == WaitingForUser <==>
            || ev.event == PermissionRequest || (ev.event == PreToolUse && ev.tool == AskUserQuestion)
            || (ev.event == Notification && ev.note == PermissionNote))
      && (o.kind == IdleNow <==> o.closesTurn)
      && (o.interrupted <==> ev.event in {Stop, StopFailure} && ev.isInterrupt)
      && (o.promptKind.Some? <==> o.kind == WaitingForUser)
      && (o.promptKind == Some(ModalChoice) <==> ev.event == PreToolUse && ev.tool == AskUserQuestion)
      && o.promptKind != Some(FreeText)
      && o.gate == (if ev.event in {PermissionRequest, PreToolUse} then GateOf(ev.tool, ev.input) else None)
  {
  }

  // The two hooks of one question carry one gate, so they are told apart by their prompt kind alone.
  lemma BothHooksOfAGateAgree(pre: HookEvent, ask: HookEvent)
    requires pre.event == PreToolUse && ask.event == PermissionRequest
    requires pre.tool == ask.tool == AskUserQuestion && pre.input == ask.input
    ensures Normalize(pre).gate == Normalize(ask).gate
    ensures Normalize(pre).(promptKind := None) == Normalize(ask).(promptKind := None)
    ensures Normalize(pre).promptKind == Some(ModalChoice) && Normalize(ask).promptKind == Some(PermissionChoice)
  {
  }
}
