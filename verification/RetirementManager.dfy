/**
  The manager's side of retirement as the program keeps it (daemon/manager.py): sets and counters
  updated in place, most of them under one lock.  Each method is one such region, store transaction or
  check, and moves the state exactly as the step of `Retirement` it names.
*/
module RetirementManagers {
  import opened Prelude
  import opened Retirement

  datatype Refusal = NotAdmitting | AlreadyCertified | BarrierOpen

  class Manager {
    var terminalObligations: set<Sid>
    var sessions: set<Sid>
    var pendingAcquire: set<Sid>
    var reserved: nat
    var terminalPending: set<Sid>
    // the store
    var retirementState: RetirementState
    var finalHighWater: Option<nat>
    var rows: set<Sid>
    var terminalSeq: map<Sid, nat>
    var nextTerminalSeq: nat
    // where the other threads are
    var spawns: map<Sid, Spawn>
    var persists: seq<Persist>

    function Memory(): State
      reads this
    {
      State(terminalObligations, sessions, pendingAcquire, reserved, terminalPending, retirementState, finalHighWater,
            rows, terminalSeq, nextTerminalSeq, spawns, persists)
    }

    constructor ()
      ensures Memory() == START && Inv(Memory())
    {
      terminalObligations, sessions, pendingAcquire, reserved, terminalPending := {}, {}, {}, 0, {};
      retirementState, finalHighWater, rows, terminalSeq, nextTerminalSeq := Open, None, {}, map[], 1;
      spawns, persists := map[], [];
    }

    // Register a session, unless the epoch admits none; consume the reservation of a restart.
    method Admit(sid: Sid, reserve: bool) returns (refused: Option<Refusal>)
      requires sid !in spawns && (reserve ==> reserved > 0)
      modifies this
      ensures Memory() == Do(old(Memory()), Step.Admit(sid, reserve))
      ensures refused.Some? <==> retirementState != Open
      ensures old(Inv(Memory())) ==> Inv(Memory())
    {
      if Inv(Memory()) { StepKeeps(Memory(), Step.Admit(sid, reserve)); }
      if retirementState != Open {
        return Some(NotAdmitting);
      }
      terminalObligations := terminalObligations + {sid};
      sessions := sessions + {sid};
      if reserve {
        reserved := reserved - 1;
      }
      spawns := spawns[sid := Registered];
      return None;
    }

    // Take a running session out of the registry and hold its slot for the one that replaces it.
    method ReserveForRestart(sid: Sid) returns (stillActive: bool)
      modifies this
      ensures stillActive <==> sid in old(sessions)
      ensures Memory() == if stillActive then Do(old(Memory()), Step.ReserveForRestart(sid)) else old(Memory())
      ensures old(Inv(Memory())) ==> Inv(Memory())
    {
      if Inv(Memory()) && sid in sessions { StepKeeps(Memory(), Step.ReserveForRestart(sid)); }
      stillActive := sid in sessions;
      if stillActive {
        sessions := sessions - {sid};
        reserved := reserved + 1;
      }
    }

    // A start that failed: its rows go first, then its registration.
    method DeleteRows(sid: Sid)
      requires sid in spawns && spawns[sid] == Failing
      modifies this
      ensures Memory() == Do(old(Memory()), Step.DeleteRows(sid))
      ensures old(Inv(Memory())) ==> Inv(Memory())
    {
      if Inv(Memory()) { StepKeeps(Memory(), Step.DeleteRows(sid)); }
      terminalSeq := terminalSeq - {sid};
      rows := rows - {sid};
      spawns := spawns[sid := RowsDeleted];
    }

    method Unregister(sid: Sid)
      requires sid in spawns && spawns[sid] == RowsDeleted
      modifies this
      ensures Memory() == Do(old(Memory()), Step.Unregister(sid))
      ensures old(Inv(Memory())) ==> Inv(Memory())
    {
      if Inv(Memory()) { StepKeeps(Memory(), Step.Unregister(sid)); }
      sessions := sessions - {sid};
      terminalObligations := terminalObligations - {sid};
      spawns := spawns[sid := GivenUp];
    }

    // The check before persisting, made outside the lock.
    method CheckPersist(sid: Sid) returns (refused: Option<Refusal>)
      requires sid in sessions || Monitored(Memory(), sid)
      modifies this
      ensures Memory() == Do(old(Memory()), Step.CheckPersist(sid))
      ensures refused.Some? <==> retirementState == Certified
      ensures old(Inv(Memory())) ==> Inv(Memory())
    {
      if Inv(Memory()) { StepKeeps(Memory(), Step.CheckPersist(sid)); }
      if retirementState == Certified {
        return Some(AlreadyCertified);
      }
      persists := persists + [Checked(sid)];
      return None;
    }

    // The store's transaction: number the terminal of a session that has a row and none yet.
    method PutTerminal(sid: Sid, same: bool) returns (r: Put)
      modifies this`terminalSeq, this`nextTerminalSeq
      ensures r == PutOf(old(Memory()), sid, same) && Memory() == AfterPut(old(Memory()), sid, same)
    {
      if sid !in rows {
        return NoRow;
      }
      if sid in terminalSeq {
        return if same then AlreadySame else Conflict;
      }
      terminalSeq := terminalSeq[sid := nextTerminalSeq];
      nextTerminalSeq := nextTerminalSeq + 1;
      return Numbered;
    }

    // An unknown session is let pass; a conflicting terminal stops the thread.
    method StoreTerminal(thread: nat, same: bool)
      requires thread < |persists| && persists[thread].Checked?
      modifies this
      ensures Memory() == Do(old(Memory()), Step.StoreTerminal(thread, same))
      ensures old(Inv(Memory()) && !Early(Memory(), Step.StoreTerminal(thread, same))) ==> Inv(Memory())
    {
      if Inv(Memory()) && !Early(Memory(), Step.StoreTerminal(thread, same)) {
        StepKeeps(Memory(), Step.StoreTerminal(thread, same));
      }
      var sid := persists[thread].sid;
      var put := PutTerminal(sid, same);
      persists := persists[thread := if put == Conflict then Finished(sid) else Stored(sid)];
    }

    method Discharge(thread: nat)
      requires thread < |persists| && persists[thread].Stored?
      modifies this
      ensures Memory() == Do(old(Memory()), Step.Discharge(thread))
      ensures old(Inv(Memory())) ==> Inv(Memory())
    {
      if Inv(Memory()) { StepKeeps(Memory(), Step.Discharge(thread)); }
      var sid := persists[thread].sid;
      terminalObligations := terminalObligations - {sid};
      terminalPending := terminalPending + {sid};
      persists := persists[thread := Finished(sid)];
    }

    // Free a session's slot, persisting its terminal first if nothing else has.
    method FreeSlot(sid: Sid, snapshot: bool, same: bool)
      requires Monitored(Memory(), sid)
      modifies this
      ensures Memory() == Do(old(Memory()), Step.FreeSlot(sid, snapshot, same))
      ensures old(Inv(Memory())) ==> Inv(Memory())
    {
      if Inv(Memory()) { StepKeeps(Memory(), Step.FreeSlot(sid, snapshot, same)); }
      if snapshot && sid in sessions && sid !in terminalPending {
        if retirementState != Certified {
          var put := PutTerminal(sid, same);
          if put == Conflict {
            return;
          }
        }
      }
      sessions := sessions - {sid};
    }

    // The highest number any stored terminal has.
    method PersistedHighWater() returns (high: nat)
      ensures high == Highest(terminalSeq.Values)
    {
      high := 0;
      var rest := terminalSeq.Keys;
      while rest != {}
        invariant rest <= terminalSeq.Keys
        invariant forall sid :: sid in terminalSeq.Keys - rest ==> terminalSeq[sid] <= high
        invariant high == 0 || high in terminalSeq.Values
        decreases rest
      {
        var sid :| sid in rest;
        if terminalSeq[sid] > high {
          high := terminalSeq[sid];
        }
        rest := rest - {sid};
      }
      assert terminalSeq.Keys - rest == terminalSeq.Keys;
      assert forall v :: v in terminalSeq.Values ==> v <= high;
    }

    method BeginQuiescence()
      modifies this
      ensures Memory() == Do(old(Memory()), Step.BeginQuiescence)
      ensures old(Inv(Memory())) ==> Inv(Memory())
    {
      if Inv(Memory()) { StepKeeps(Memory(), Step.BeginQuiescence); }
      retirementState := Quiescing;
    }

    // Certify over the full barrier, recording the high water as it then is.
    method CertifyEpoch() returns (r: Result<nat, Refusal>)
      modifies this
      ensures Memory() == Do(old(Memory()), Certify)
      ensures if BarrierMet(old(Memory())) then r.Ok? && finalHighWater == Some(r.value) else r == Err(BarrierOpen)
      ensures old(Inv(Memory())) ==> Inv(Memory())
    {
      if Inv(Memory()) { StepKeeps(Memory(), Certify); }
      if terminalObligations != {} { return Err(BarrierOpen); }
      if sessions != {} { return Err(BarrierOpen); }
      if pendingAcquire != {} { return Err(BarrierOpen); }
      if reserved != 0 { return Err(BarrierOpen); }
      var high := PersistedHighWater();
      retirementState := Certified;
      finalHighWater := Some(high);
      return Ok(high);
    }
  }
}
