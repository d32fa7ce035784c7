/**
  What the belief engine does (daemon/belief.py): the automaton that turns hooks, screen observations
  and submits into decisions to publish and withdraw.

  `Engine` is its memory, and the functions follow the engine's own methods.  The theorems are about
  whole runs of interleaved inputs.  Diagnostic notes and the fields that only feed status displays are
  not part of it.
*/
module Belief {
  import opened Prelude
  import opened Hooks

  type Fp = nat
  type Time = real

  datatype Config = Config(
    idleConfirmWindow: Time, postSubmitGrace: Time, echoStuckAfter: Time, withdrawnCooldown: Time,
    hookStartupGrace: Time, hookTurnGrace: Time, lostStopAfter: Time, heartbeatStaleAfter: Time,
    liveBudget: Time, staleBudget: Time, unknownBudget: Time)

  // The stable identity of a pause.
  datatype Key =
    | GateKey(gate: Gate)                 // a gate of the agent, by what it is about
    | PauseKey(turn: nat)                 // a pause without a gate, by its turn
    | IdleKey(turn: nat)
    | AdvisoryKey(count: nat)
    | ScreenKey(kind: PromptKind, fp: Fp) // a prompt read off the screen, by its meaning

  datatype Hint = LostStop | SuspectedHung | SubmitUnconfirmed

  datatype What =
    | Waiting(promptKind: Option<PromptKind>)
    | Idle(interrupted: bool, reconciled: bool)
    | Advisory(count: nat, hint: Hint)

  datatype Why = TurnResumed | PromptLeft | PromptChanged | SupersededByHook

  datatype Action = Publish(key: Key, what: What) | Withdraw(key: Key, why: Why) | Finalize

  datatype Prompt = Shows(kind: PromptKind) | Crash | Exit | NoPrompt | Unclear

  datatype Heartbeat = Heartbeat(present: bool, fp: Fp, expected: bool)

  // One reading of the screen.  An empty prompt fingerprint is None.
  datatype Screen = Screen(prompt: Prompt, semantic: Fp, promptFp: Option<Fp>, content: Fp,
                           heartbeat: Heartbeat, longRunning: bool, echo: bool)

  datatype Liveness = Live | Stale | Unsure

  datatype Mode = HooksUnknown | HooksActive | HooksUnavailable

  datatype Control = Busy | AwaitingUser | AtIdle | InterventionRequired | Terminal

  // When the screen's meaning and its heartbeat last changed.
  datatype Sense = Sense(semanticFp: Option<Fp>, semanticAt: Option<Time>,
                         heartbeatFp: Option<Fp>, heartbeatAt: Option<Time>)

  // The prompt being watched, the screen decision that is out, and the last one withdrawn.
  datatype Prompting = Prompting(candidateFp: Option<Fp>, candidateSince: Option<Time>,
                                 published: Option<Key>, publishedPromptFp: Option<Fp>,
                                 publishedSemanticFp: Option<Fp>,
                                 withdrawnFp: Option<Fp>, cooldownUntil: Option<Time>)

  // The throttle that all advisories share.
  datatype Nagging = Nagging(intervening: bool, count: nat, nextNag: Option<Time>)

  // What a submit leaves behind until the agent is seen to have taken it.
  datatype Submitted = Submitted(active: bool, graceUntil: Option<Time>, content: Option<Fp>, echoSince: Option<Time>)

  datatype Turn = Turn(epoch: nat, open: bool, pending: Option<Key>, pendingKind: Option<PromptKind>,
                       answered: set<Key>, idleEpoch: Option<nat>)

  // The clocks that look for lost hooks.
  datatype Lost = Lost(lastHookAt: Option<Time>, progressFp: Option<Fp>, progressAt: Option<Time>,
                       reconcileFp: Option<Fp>, reconcileSince: Option<Time>)

  datatype Engine = Engine(sense: Sense, prompting: Prompting, nagging: Nagging, submitted: Submitted,
                           mode: Mode, startupAt: Option<Time>, turn: Turn, lost: Lost, control: Control)

  const NO_PROMPT := Prompting(None, None, None, None, None, None, None)
  const NEW_ENGINE := Engine(
    Sense(None, None, None, None), NO_PROMPT, Nagging(false, 0, None), Submitted(false, None, None, None),
    HooksUnknown, None, Turn(0, false, None, None, {}, None), Lost(None, None, None, None, None), Busy)

  // The time since `since`; a clock not yet started has run for no time.
  function Elapsed(now: Time, since: Option<Time>): Time {
    match since
    case None => 0.0
    case Some(t) => now - t
  }

  // The clock has been started and has run for at least `span`.
  predicate Ran(now: Time, since: Option<Time>, span: Time) {
    since.Some? && now - since.value >= span
  }

  predicate Before(now: Time, until: Option<Time>) {
    until.Some? && now < until.value
  }

  // ---- hooks --------------------------------------------------------------------------------------

  function Preferred(a: Option<PromptKind>, b: Option<PromptKind>): Option<PromptKind> {
    if a == Some(ModalChoice) || b == Some(ModalChoice) then Some(ModalChoice)
    else if a == None then b else a
  }

  predicate TurnClosed(t: Turn) {
    t.idleEpoch == Some(t.epoch)
  }

  function PauseKeyOf(t: Turn, o: Observation): Key {
    match o.gate
    case Some(g) => GateKey(g)
    case None => PauseKey(t.epoch)
  }

  // The first hook takes over from the screen; any hook restarts the clocks that look for lost ones.
  function HookArrives(e: Engine, c: Config, now: Time): (Engine, seq<Action>) {
    var (p, acts) :=
      if e.mode != HooksActive && e.prompting.published.Some? then
        WithdrawPublished(e.prompting, c, SupersededByHook, now)
      else (e.prompting, []);
    (e.(prompting := p, mode := HooksActive, lost := Lost(Some(now), None, None, None, None)), acts)
  }

  function NothingPending(t: Turn): Turn {
    if t.pending.Some? then t.(pending := None, pendingKind := None) else t
  }

  function HookMeans(t: Turn, k: Control, o: Observation): (Turn, Control, seq<Action>) {
    if o.opensTurn then
      (t.(epoch := t.epoch + 1, open := true, pending := None, pendingKind := None, answered := {}), Busy, [])
    else if o.closesTurn then
      if TurnClosed(t) then (t, k, [])
      else
        (NothingPending(t).(open := false, idleEpoch := Some(t.epoch), answered := {}), AtIdle,
         (if t.pending.Some? then [Withdraw(t.pending.value, SupersededByHook)] else [])
         + [Publish(IdleKey(t.epoch), Idle(o.interrupted, false))])
    else if o.clearsPending then
      if TurnClosed(t) then (t, k, [])
      else
        (NothingPending(t).(open := true), Busy,
         if t.pending.Some? then [Withdraw(t.pending.value, PromptLeft)] else [])
    else if o.kind == WaitingForUser then
      if TurnClosed(t) then (t, k, []) else Pauses(t, o)
    else if t.open then
      (t.(answered := if o.gate.Some? then t.answered - {GateKey(o.gate.value)} else t.answered), Busy, [])
    else (t, k, [])
  }

  // A pause already pending is repeated only to refine its kind; one already answered is dropped.
  function Pauses(t: Turn, o: Observation): (Turn, Control, seq<Action>) {
    var key := PauseKeyOf(t, o);
    var kind := Preferred(t.pendingKind, o.promptKind);
    if t.pending == Some(key) then
      (t.(pendingKind := kind, open := true), AwaitingUser,
       if kind != t.pendingKind then [Publish(key, Waiting(kind))] else [])
    else if key in t.answered then
      (t.(open := true), Busy, [])
    else
      (t.(pending := Some(key), pendingKind := kind, open := true), AwaitingUser, [Publish(key, Waiting(kind))])
  }

  function OnHook(e: Engine, c: Config, o: Observation, now: Time): (Engine, seq<Action>) {
    var (e1, acts) := HookArrives(e, c, now);
    var (t, k, more) := HookMeans(e1.turn, e1.control, o);
    (e1.(turn := t, control := k), acts + more)
  }

  function ExpectHooks(e: Engine, now: Time): Engine {
    if e.mode == HooksUnknown then e.(startupAt := Some(now)) else e
  }

  // ---- submits ------------------------------------------------------------------------------------

  function Answered(t: Turn): Turn {
    t.(answered := if t.pending.Some? then t.answered + {t.pending.value} else t.answered,
       pending := None, pendingKind := None)
  }

  // Our text went in: whatever was published or pending is answered.
  function OnSubmit(e: Engine, c: Config, now: Time): Engine {
    e.(prompting := NO_PROMPT, turn := Answered(e.turn),
       submitted := Submitted(true, Some(now + c.postSubmitGrace), None, None))
  }

  // ---- ticks --------------------------------------------------------------------------------------

  function TrackSemantic(e: Engine, s: Screen, now: Time): Engine {
    if Some(s.semantic) != e.sense.semanticFp then
      e.(sense := e.sense.(semanticFp := Some(s.semantic), semanticAt := Some(now)),
         nagging := Nagging(false, 0, None))
    else e
  }

  function TrackHeartbeat(e: Engine, s: Screen, now: Time): Engine {
    if s.heartbeat.present && Some(s.heartbeat.fp) != e.sense.heartbeatFp then
      e.(sense := e.sense.(heartbeatFp := Some(s.heartbeat.fp), heartbeatAt := Some(now)))
    else e
  }

  function LivenessOf(sense: Sense, c: Config, s: Screen, now: Time): Liveness {
    if !s.heartbeat.present || !s.heartbeat.expected then Unsure
    else match sense.heartbeatAt
      case None => Unsure
      case Some(t) => if now - t < c.heartbeatStaleAfter then Live else Stale
  }

  function Budget(c: Config, l: Liveness, longRunning: bool): Time {
    match l
    case Stale => c.staleBudget
    case Live => c.liveBudget
    case Unsure => if longRunning then c.liveBudget else c.unknownBudget
  }

  function BudgetNow(sense: Sense, c: Config, s: Screen, now: Time): Time {
    Budget(c, LivenessOf(sense, c, s, now), s.longRunning)
  }

  // Advise, unless the last advisory's budget has not run out.
  function Remind(n: Nagging, budget: Time, now: Time, hint: Hint): (Nagging, seq<Action>) {
    if Before(now, n.nextNag) then (n.(intervening := true), [])
    else
      (Nagging(true, n.count + 1, Some(now + budget)),
       [Publish(AdvisoryKey(n.count + 1), Advisory(n.count + 1, hint))])
  }

  // Advise when the screen's meaning has not changed for the budget.
  function Watchdog(sense: Sense, n: Nagging, c: Config, s: Screen, now: Time): (Nagging, seq<Action>) {
    var budget := BudgetNow(sense, c, s, now);
    if Elapsed(now, sense.semanticAt) < budget then (n.(intervening := false), [])
    else Remind(n, budget, now, SuspectedHung)
  }

  function ExpireStartupGrace(e: Engine, c: Config, now: Time): Engine {
    if e.mode == HooksUnknown && Ran(now, e.startupAt, c.hookStartupGrace) then e.(mode := HooksUnavailable) else e
  }

  predicate InStartupGrace(e: Engine, c: Config, now: Time) {
    e.mode == HooksUnknown && e.startupAt.Some? && now - e.startupAt.value < c.hookStartupGrace
  }

  function PromptKeyOf(s: Screen): Fp {
    match s.promptFp
    case Some(p) => p
    case None => s.semantic
  }

  function WatchPrompt(l: Lost, s: Screen, now: Time): Lost {
    if l.reconcileFp != Some(PromptKeyOf(s)) then
      l.(reconcileFp := Some(PromptKeyOf(s)), reconcileSince := Some(now))
    else l
  }

  // A free-text prompt has stood long enough after the last hook: the agent finished, its Stop was lost.
  predicate StopWasLost(l: Lost, c: Config, now: Time) {
    Elapsed(now, l.reconcileSince) >= c.hookTurnGrace
    && (l.lastHookAt == None || Ran(now, l.lastHookAt, c.hookTurnGrace))
  }

  function TrackProgress(l: Lost, s: Screen, now: Time): Lost {
    match l.progressFp
    case None =>
      l.(progressFp := Some(s.semantic), progressAt := if l.lastHookAt.Some? then l.lastHookAt else Some(now))
    case Some(fp) => if fp != s.semantic then l.(progressFp := Some(s.semantic), progressAt := Some(now)) else l
  }

  // No hook and no progress for too long.
  predicate LostStopStuck(l: Lost, c: Config, now: Time) {
    Ran(now, l.lastHookAt, c.lostStopAfter) && Ran(now, l.progressAt, c.lostStopAfter)
  }

  function TickUnderHooks(e: Engine, c: Config, s: Screen, now: Time): (Engine, seq<Action>) {
    if e.control != Busy && e.control != InterventionRequired then (e, [])
    else if s.prompt == Shows(FreeText) then
      var l := WatchPrompt(e.lost, s, now);
      if StopWasLost(l, c, now) then
        (e.(lost := l.(reconcileFp := None, reconcileSince := None), control := AtIdle,
            turn := e.turn.(open := false, idleEpoch := Some(e.turn.epoch))),
         [Publish(IdleKey(e.turn.epoch), Idle(false, true))])
      else WatchUnderHooks(e.(lost := l), c, s, now)
    else
      var l := TrackProgress(e.lost.(reconcileFp := None, reconcileSince := None), s, now);
      if LostStopStuck(l, c, now) then
        var (n, acts) := Remind(e.nagging, BudgetNow(e.sense, c, s, now), now, LostStop);
        (e.(lost := l, nagging := n, control := if acts == [] then e.control else InterventionRequired), acts)
      else WatchUnderHooks(e.(lost := l), c, s, now)
  }

  function WatchUnderHooks(e: Engine, c: Config, s: Screen, now: Time): (Engine, seq<Action>) {
    var (n, acts) := Watchdog(e.sense, e.nagging, c, s, now);
    (e.(nagging := n, control := if n.intervening then InterventionRequired else Busy), acts)
  }

  function UpdatePostSubmit(u: Submitted, sense: Sense, c: Config, s: Screen, now: Time): Submitted {
    if !u.active then u
    else
      var u1 := if u.content == None then u.(content := Some(s.content)) else u;
      if !Before(now, u1.graceUntil)
         || (s.prompt == NoPrompt && LivenessOf(sense, c, s, now) == Live)
         || (!s.echo && Some(s.content) != u1.content) then
        u1.(active := false)
      else u1
  }

  function WithdrawPublished(p: Prompting, c: Config, why: Why, now: Time): (Prompting, seq<Action>)
    requires p.published.Some?
  {
    (p.(withdrawnFp := p.publishedSemanticFp, cooldownUntil := Some(now + c.withdrawnCooldown),
        published := None, publishedPromptFp := None, publishedSemanticFp := None),
     [Withdraw(p.published.value, why)])
  }

  function PublishScreen(p: Prompting, s: Screen, kind: PromptKind): (Prompting, seq<Action>) {
    var key := ScreenKey(kind, s.semantic);
    (p.(published := Some(key), publishedPromptFp := s.promptFp, publishedSemanticFp := Some(s.semantic)),
     [Publish(key, Waiting(Some(kind)))])
  }

  // No prompt on the screen: the turn went on.
  function OnBusy(e: Engine, c: Config, s: Screen, now: Time): (Engine, seq<Action>) {
    var (p, acts) :=
      if e.prompting.published.Some? then WithdrawPublished(e.prompting, c, TurnResumed, now) else (e.prompting, []);
    var (n, more) := Watchdog(e.sense, e.nagging, c, s, now);
    (e.(prompting := p.(candidateFp := None, candidateSince := None),
        submitted := e.submitted.(echoSince := None), nagging := n), acts + more)
  }

  function OnPrompt(e: Engine, c: Config, s: Screen, now: Time, kind: PromptKind): (Engine, seq<Action>) {
    var p := e.prompting;
    var (p1, acts) :=
      if p.published.Some? && s.promptFp != p.publishedPromptFp then WithdrawPublished(p, c, PromptChanged, now)
      else (p, []);
    var e1 := e.(prompting := p1, nagging := e.nagging.(intervening := false));
    if p1.published.Some? then (e1, acts)
    else
      var (e2, more) := Candidate(e1, c, s, now, kind);
      (e2, acts + more)
  }

  function WatchCandidate(p: Prompting, s: Screen, now: Time): Prompting {
    if Some(PromptKeyOf(s)) != p.candidateFp then
      p.(candidateFp := Some(PromptKeyOf(s)), candidateSince := Some(now))
    else p
  }

  // A prompt with no decision out for it: note how long it has stood, and publish when it may be.
  function Candidate(e: Engine, c: Config, s: Screen, now: Time, kind: PromptKind): (Engine, seq<Action>) {
    var p := WatchCandidate(e.prompting, s, now);
    if kind != FreeText then
      var (p1, acts) := PublishScreen(p, s, kind);
      (e.(prompting := p1), acts)
    else if InStartupGrace(e, c, now) then (e.(prompting := p), [])
    else if s.echo then
      // our own text is still in the box
      var since := if e.submitted.echoSince == None then Some(now) else e.submitted.echoSince;
      var (n, acts) :=
        if Elapsed(now, since) < c.echoStuckAfter then (e.nagging, [])
        else Remind(e.nagging, BudgetNow(e.sense, c, s, now), now, SubmitUnconfirmed);
      (e.(prompting := p, submitted := e.submitted.(echoSince := since), nagging := n), acts)
    else
      var u := e.submitted.(echoSince := None);
      var (p1, acts) := Settle(p, u, c, s, now);
      (e.(prompting := p1, submitted := u), acts)
  }

  function Settle(p: Prompting, u: Submitted, c: Config, s: Screen, now: Time): (Prompting, seq<Action>) {
    if u.active && Before(now, u.graceUntil) then (p, [])
    else if Some(s.semantic) == p.withdrawnFp && Before(now, p.cooldownUntil) then (p, [])
    else if Elapsed(now, p.candidateSince) < c.idleConfirmWindow then (p, [])
    else PublishScreen(p, s, FreeText)
  }

  function RefreshControl(e: Engine): Engine {
    e.(control := if e.prompting.published.Some? then AwaitingUser
                  else if e.nagging.intervening then InterventionRequired else Busy)
  }

  predicate Dead(s: Screen, alive: bool) {
    !alive || s.prompt == Crash || s.prompt == Exit
  }

  function TickOnScreen(e: Engine, c: Config, s: Screen, now: Time): (Engine, seq<Action>) {
    var e1 := e.(submitted := UpdatePostSubmit(e.submitted, e.sense, c, s, now));
    var (e2, acts) := if s.prompt.Shows? then OnPrompt(e1, c, s, now, s.prompt.kind) else OnBusy(e1, c, s, now);
    (RefreshControl(e2), acts)
  }

  function Tick(e: Engine, c: Config, s: Screen, alive: bool, now: Time): (Engine, seq<Action>) {
    var e1 := TrackHeartbeat(TrackSemantic(e, s, now), s, now);
    if Dead(s, alive) then (e1.(control := Terminal), [Finalize])
    else
      var e2 := ExpireStartupGrace(e1, c, now);
      if e2.mode == HooksActive then TickUnderHooks(e2, c, s, now) else TickOnScreen(e2, c, s, now)
  }

  // ---- runs ---------------------------------------------------------------------------------------

  datatype Input =
    | HookIn(obs: Observation, at: Time)
    | SubmitIn(at: Time)
    | TickIn(screen: Screen, alive: bool, at: Time)
    | ExpectIn(at: Time)

  function Step(e: Engine, c: Config, i: Input): (Engine, seq<Action>) {
    match i
    case HookIn(o, now) => OnHook(e, c, o, now)
    case SubmitIn(now) => (OnSubmit(e, c, now), [])
    case TickIn(s, alive, now) => Tick(e, c, s, alive, now)
    case ExpectIn(now) => (ExpectHooks(e, now), [])
  }

  function After(e: Engine, c: Config, run: seq<Input>): Engine
    decreases |run|
  {
    if run == [] then e else After(Step(e, c, run[0]).0, c, run[1..])
  }

  // Everything a run emits, in order.
  function Emits(e: Engine, c: Config, run: seq<Input>): seq<Action>
    decreases |run|
  {
    if run == [] then [] else Step(e, c, run[0]).1 + Emits(Step(e, c, run[0]).0, c, run[1..])
  }

  // ---- what every input keeps -----------------------------------------------------------------------

  ghost predicate PendingOk(t: Turn) {
    && (t.pending.Some? ==> (t.pending.value.GateKey? || t.pending.value.PauseKey?) && t.pending.value !in t.answered)
    && (t.pending == None ==> t.pendingKind == None)
  }

  // Once a turn has gone idle, only a new turn wakes it.
  ghost predicate ClosedOk(t: Turn, mode: Mode, k: Control) {
    && (t.idleEpoch.Some? ==> t.idleEpoch.value <= t.epoch)
    && (TurnClosed(t) ==> mode == HooksActive && !t.open && (k == AtIdle || k == Terminal))
  }

  ghost predicate PublishedOk(p: Prompting, mode: Mode) {
    p.published.Some? ==> p.published.value.ScreenKey? && mode != HooksActive
  }

  ghost predicate EngineOk(e: Engine) {
    PendingOk(e.turn) && ClosedOk(e.turn, e.mode, e.control) && PublishedOk(e.prompting, e.mode)
  }

  lemma NewEngineOk()
    ensures EngineOk(NEW_ENGINE)
  {
  }

  lemma HookMeansKeeps(t: Turn, k: Control, o: Observation)
    requires PendingOk(t) && ClosedOk(t, HooksActive, k)
    ensures var (t', k', _) := HookMeans(t, k, o); PendingOk(t') && ClosedOk(t', HooksActive, k')
  {
  }

  lemma HookKeeps(e: Engine, c: Config, o: Observation, now: Time)
    requires EngineOk(e)
    ensures EngineOk(OnHook(e, c, o, now).0)
  {
    hide HookMeans;
    HookMeansKeeps(e.turn, e.control, o);
  }

  lemma SubmitKeeps(e: Engine, c: Config, now: Time)
    requires EngineOk(e)
    ensures EngineOk(OnSubmit(e, c, now))
  {
  }

  lemma TickOnScreenKeeps(e: Engine, c: Config, s: Screen, now: Time)
    requires PublishedOk(e.prompting, e.mode) && e.mode != HooksActive
    ensures var f := TickOnScreen(e, c, s, now).0;
      f.turn == e.turn && f.mode == e.mode && PublishedOk(f.prompting, f.mode)
  {
    hide Watchdog, Remind, UpdatePostSubmit;
  }

  lemma TickUnderHooksKeeps(e: Engine, c: Config, s: Screen, now: Time)
    requires EngineOk(e) && e.mode == HooksActive
    ensures EngineOk(TickUnderHooks(e, c, s, now).0)
  {
    hide Watchdog, Remind, WatchPrompt, StopWasLost, TrackProgress, LostStopStuck;
  }

  lemma TickKeeps(e: Engine, c: Config, s: Screen, alive: bool, now: Time)
    requires EngineOk(e)
    ensures EngineOk(Tick(e, c, s, alive, now).0)
  {
    hide TickOnScreen, TickUnderHooks;
    var e1 := TrackHeartbeat(TrackSemantic(e, s, now), s, now);
    assert EngineOk(e1);
    var e2 := ExpireStartupGrace(e1, c, now);
    if e2.mode == HooksActive {
      TickUnderHooksKeeps(e2, c, s, now);
    } else {
      TickOnScreenKeeps(e2, c, s, now);
    }
  }

  lemma StepKeeps(e: Engine, c: Config, i: Input)
    requires EngineOk(e)
    ensures EngineOk(Step(e, c, i).0)
  {
    hide OnHook, Tick;
    match i
    case HookIn(o, now) => HookKeeps(e, c, o, now);
    case SubmitIn(now) =>
    case TickIn(s, alive, now) => TickKeeps(e, c, s, alive, now);
    case ExpectIn(now) =>
  }

  lemma {:induction false} RunKeeps(e: Engine, c: Config, run: seq<Input>)
    requires EngineOk(e)
    ensures EngineOk(After(e, c, run))
    decreases |run|
  {
    hide EngineOk, Step;
    if run != [] {
      StepKeeps(e, c, run[0]);
      RunKeeps(Step(e, c, run[0]).0, c, run[1..]);
    }
  }

  predicate Publishes(acts: seq<Action>, key: Key) {
    exists a :: a in acts && a.Publish? && a.key == key
  }

  predicate Silent(acts: seq<Action>) {
    forall a :: a in acts ==> !a.Publish?
  }

  // ---- an answered gate stays answered ----------------------------------------------------------------

  // The input opens a turn, or reports in an open turn that the gate is invoked anew.
  predicate Reopens(t: Turn, i: Input, key: Key) {
    && i.HookIn?
    && (|| i.obs.opensTurn
        || (t.open && key.GateKey? && !i.obs.closesTurn && !i.obs.clearsPending && i.obs.kind != WaitingForUser
            && i.obs.gate == Some(key.gate)))
  }

  predicate NothingReopens(e: Engine, c: Config, run: seq<Input>, key: Key)
    decreases |run|
  {
    run != [] ==> !Reopens(e.turn, run[0], key) && NothingReopens(Step(e, c, run[0]).0, c, run[1..], key)
  }

  // The pause `key` cannot be published now: it is answered, or the turn is over.
  predicate Spent(t: Turn, key: Key) {
    t.pending != Some(key) && (key in t.answered || TurnClosed(t))
  }

  lemma HookLeavesSpent(t: Turn, k: Control, o: Observation, key: Key)
    requires ClosedOk(t, HooksActive, k) && Spent(t, key) && (key.GateKey? || key.PauseKey?)
    requires !o.opensTurn
    requires key.GateKey? && t.open && !o.closesTurn && !o.clearsPending && o.kind != WaitingForUser
        ==> o.gate != Some(key.gate)
    ensures var (t', _, acts) := HookMeans(t, k, o); Spent(t', key) && !Publishes(acts, key)
  {
  }

  lemma StepLeavesSpent(e: Engine, c: Config, i: Input, key: Key)
    requires EngineOk(e) && Spent(e.turn, key) && (key.GateKey? || key.PauseKey?) && !Reopens(e.turn, i, key)
    ensures Spent(Step(e, c, i).0.turn, key) && !Publishes(Step(e, c, i).1, key)
  {
    match i
    case HookIn(o, now) =>
      hide HookMeans, Publishes;
      HookLeavesSpent(e.turn, e.control, o, key);
      HookActs(e, c, o, now, key);
    case SubmitIn(now) =>
    case TickIn(s, alive, now) =>
      hide Tick;
      TickActs(e, c, s, alive, now);
    case ExpectIn(now) =>
  }

  lemma HookActs(e: Engine, c: Config, o: Observation, now: Time, key: Key)
    requires !Publishes(HookMeans(e.turn, e.control, o).2, key)
    ensures !Publishes(OnHook(e, c, o, now).1, key)
  {
    hide HookMeans;
  }

  predicate ScreenWork(a: Action) {
    a.Publish? ==> a.key.AdvisoryKey? || a.key.ScreenKey?
  }

  lemma OnScreenActs(e: Engine, c: Config, s: Screen, now: Time)
    ensures forall a :: a in TickOnScreen(e, c, s, now).1 ==> ScreenWork(a)
    ensures TickOnScreen(e, c, s, now).0.turn == e.turn
  {
    hide Before, Elapsed, Ran, BudgetNow, UpdatePostSubmit;
  }

  // A tick never publishes a hook's pause.  It ends the turn when, and only when, it publishes an idle.
  lemma TickActs(e: Engine, c: Config, s: Screen, alive: bool, now: Time)
    requires EngineOk(e)
    ensures var (f, acts) := Tick(e, c, s, alive, now);
      if f.turn == e.turn then forall a :: a in acts ==> ScreenWork(a)
      else
        && !TurnClosed(e.turn) && f.turn == e.turn.(open := false, idleEpoch := Some(e.turn.epoch))
            && f.control == AtIdle
        && acts == [Publish(IdleKey(e.turn.epoch), Idle(false, true))]
  {
    hide TickOnScreen, Before, Elapsed, Ran, BudgetNow, StopWasLost, LostStopStuck;
    var e1 := TrackHeartbeat(TrackSemantic(e, s, now), s, now);
    OnScreenActs(ExpireStartupGrace(e1, c, now), c, s, now);
  }

  // Once a pause is answered, nothing publishes it until a turn opens or its gate is invoked anew.
  lemma {:induction false} SpentStaysQuiet(e: Engine, c: Config, run: seq<Input>, key: Key)
    requires EngineOk(e) && Spent(e.turn, key) && (key.GateKey? || key.PauseKey?) && NothingReopens(e, c, run, key)
    ensures !Publishes(Emits(e, c, run), key)
    decreases |run|
  {
    hide EngineOk, Step, Spent, Reopens;
    if run != [] {
      StepLeavesSpent(e, c, run[0], key);
      StepKeeps(e, c, run[0]);
      SpentStaysQuiet(Step(e, c, run[0]).0, c, run[1..], key);
    }
  }

  lemma AnsweredStaysQuiet(c: Config, before: seq<Input>, at: Time, run: seq<Input>, key: Key)
    requires var e := After(NEW_ENGINE, c, before);
      e.turn.pending == Some(key) && NothingReopens(OnSubmit(e, c, at), c, run, key)
    ensures !Publishes(Emits(OnSubmit(After(NEW_ENGINE, c, before), c, at), c, run), key)
  {
    hide After;
    NewEngineOk();
    RunKeeps(NEW_ENGINE, c, before);
    var e := After(NEW_ENGINE, c, before);
    StepKeeps(e, c, SubmitIn(at));
    SpentStaysQuiet(OnSubmit(e, c, at), c, run, key);
  }

  // Never, in any run, is the pending pause among the answered ones.
  lemma PendingIsNotAnswered(c: Config, run: seq<Input>)
    ensures var t := After(NEW_ENGINE, c, run).turn; t.pending.Some? ==> t.pending.value !in t.answered
  {
    NewEngineOk();
    RunKeeps(NEW_ENGINE, c, run);
  }

  // When exactly a pause hook publishes.
  lemma PausePublishesExactlyWhen(e: Engine, c: Config, o: Observation, now: Time)
    requires EngineOk(e) && o.kind == WaitingForUser && !o.opensTurn && !o.closesTurn && !o.clearsPending
    ensures var key := PauseKeyOf(e.turn, o);
      Publishes(OnHook(e, c, o, now).1, key)
      <==> !TurnClosed(e.turn)
           && (if e.turn.pending == Some(key) then Preferred(e.turn.pendingKind, o.promptKind) != e.turn.pendingKind
               else key !in e.turn.answered)
  {
    var key := PauseKeyOf(e.turn, o);
    var (e1, acts) := HookArrives(e, c, now);
    var more := HookMeans(e1.turn, e1.control, o).2;
    assert e1.turn == e.turn && OnHook(e, c, o, now).1 == acts + more;
    assert forall a :: a in acts ==> !a.Publish?;
    assert Publishes(acts + more, key) <==> Publishes(more, key) by {
      forall a | a in more ensures a in acts + more {
      }
    }
    if more != [] {
      assert more[0] in more;
    }
  }

  // The exception is real: after a new invocation the same gate is published again, answered or not.
  lemma InvokedGateIsAskedAgain(e: Engine, c: Config, gate: Gate, kind: PromptKind, t1: Time, t2: Time)
    requires EngineOk(e) && e.turn.open && GateKey(gate) in e.turn.answered
    ensures var work := Plain(Working, Some(gate));
      var ask := Pause(kind, Some(gate));
      Publishes(Emits(e, c, [HookIn(work, t1), HookIn(ask, t2)]), GateKey(gate))
  {
    var work, ask := Plain(Working, Some(gate)), Pause(kind, Some(gate));
    var run := [HookIn(work, t1), HookIn(ask, t2)];
    var (e1, acts) := OnHook(e, c, work, t1);
    StepKeeps(e, c, HookIn(work, t1));
    PausePublishesExactlyWhen(e1, c, ask, t2);
    assert run[1..] == [HookIn(ask, t2)] && run[1..][1..] == [];
    var more := OnHook(e1, c, ask, t2).1;
    assert Emits(e1, c, [HookIn(ask, t2)]) == more + Emits(OnHook(e1, c, ask, t2).0, c, []);
    assert Emits(e, c, run) == acts + more;
    var a :| a in more && a.Publish? && a.key == GateKey(gate);
    assert a in acts + more;
  }

  // From the raw hooks: an answered gate is not asked again until a prompt is submitted by the user or
  // the very same call is invoked by an ordinary tool.
  predicate NoneInvokes(hooks: seq<HookEvent>, key: Key) {
    forall ev :: ev in hooks ==>
      && ev.event != UserPromptSubmit
      && !(ev.event == PreToolUse && ev.tool != AskUserQuestion && GateOf(ev.tool, ev.input).Some?
           && GateKey(GateOf(ev.tool, ev.input).value) == key)
  }

  // The hooks of a run are the meanings of `hooks`, in order.
  predicate FromHooks(run: seq<Input>, hooks: seq<HookEvent>)
    decreases |run|
  {
    if run == [] then hooks == []
    else if run[0].HookIn? then hooks != [] && run[0].obs == Normalize(hooks[0]) && FromHooks(run[1..], hooks[1..])
    else FromHooks(run[1..], hooks)
  }

  lemma {:induction false} RawHooksReopenNothing(e: Engine, c: Config, run: seq<Input>, hooks: seq<HookEvent>, key: Key)
    requires FromHooks(run, hooks) && NoneInvokes(hooks, key)
    ensures NothingReopens(e, c, run, key)
    decreases |run|
  {
    hide Step;
    if run != [] {
      if run[0].HookIn? {
        assert hooks[0] in hooks;
        OneRole(hooks[0]);
        if key.GateKey? { OnlyPreToolUseInvokes(hooks[0], key.gate); }
        RawHooksReopenNothing(Step(e, c, run[0]).0, c, run[1..], hooks[1..], key);
      } else {
        RawHooksReopenNothing(Step(e, c, run[0]).0, c, run[1..], hooks, key);
      }
    }
  }

  lemma AnsweredGateStaysQuiet(c: Config, before: seq<Input>, at: Time, run: seq<Input>, hooks: seq<HookEvent>,
                               key: Key)
    requires After(NEW_ENGINE, c, before).turn.pending == Some(key)
    requires FromHooks(run, hooks) && NoneInvokes(hooks, key)
    ensures !Publishes(Emits(OnSubmit(After(NEW_ENGINE, c, before), c, at), c, run), key)
  {
    RawHooksReopenNothing(OnSubmit(After(NEW_ENGINE, c, before), c, at), c, run, hooks, key);
    AnsweredStaysQuiet(c, before, at, run, key);
  }

  // ---- a turn goes idle once ---------------------------------------------------------------------------

  predicate OpensTurn(i: Input) {
    i.HookIn? && i.obs.opensTurn
  }

  lemma ClosedStepIsSilent(e: Engine, c: Config, i: Input)
    requires EngineOk(e) && TurnClosed(e.turn) && !OpensTurn(i)
    ensures var (f, acts) := Step(e, c, i); Silent(acts) && TurnClosed(f.turn) && f.turn.epoch == e.turn.epoch
  {
    hide Watchdog, Remind;
  }

  // From a turn's idle to the next turn: nothing is published, and the control state is idle or terminal.
  lemma {:induction false} NothingAfterIdle(e: Engine, c: Config, run: seq<Input>)
    requires EngineOk(e) && TurnClosed(e.turn) && forall i :: i in run ==> !OpensTurn(i)
    ensures Silent(Emits(e, c, run))
    ensures var f := After(e, c, run); TurnClosed(f.turn) && (f.control == AtIdle || f.control == Terminal)
    decreases |run|
  {
    if run != [] {
      hide Step;
      assert run[0] in run;
      ClosedStepIsSilent(e, c, run[0]);
      StepKeeps(e, c, run[0]);
      NothingAfterIdle(Step(e, c, run[0]).0, c, run[1..]);
    }
  }

  // An idle is published for the turn that is open, and ends it.
  lemma IdleEndsTurn(e: Engine, c: Config, i: Input, n: nat)
    requires EngineOk(e) && Publishes(Step(e, c, i).1, IdleKey(n))
    ensures n == e.turn.epoch && !TurnClosed(e.turn)
    ensures var f := Step(e, c, i).0; f.turn.epoch == n && TurnClosed(f.turn) && f.control == AtIdle
  {
    hide Watchdog, Remind, Elapsed, Ran, Before, UpdatePostSubmit;
    match i
    case HookIn(o, now) => HookIdle(e, c, o, now, n);
    case SubmitIn(now) =>
    case TickIn(s, alive, now) => TickIdle(e, c, s, alive, now, n);
    case ExpectIn(now) =>
  }

  lemma HookIdle(e: Engine, c: Config, o: Observation, now: Time, n: nat)
    requires EngineOk(e) && Publishes(OnHook(e, c, o, now).1, IdleKey(n))
    ensures n == e.turn.epoch && !TurnClosed(e.turn)
    ensures var f := OnHook(e, c, o, now).0; f.turn.epoch == n && TurnClosed(f.turn) && f.control == AtIdle
  {
  }

  lemma TickIdle(e: Engine, c: Config, s: Screen, alive: bool, now: Time, n: nat)
    requires EngineOk(e) && Publishes(Tick(e, c, s, alive, now).1, IdleKey(n))
    ensures n == e.turn.epoch && !TurnClosed(e.turn)
    ensures var f := Tick(e, c, s, alive, now).0; f.turn.epoch == n && TurnClosed(f.turn) && f.control == AtIdle
  {
    hide Tick;
    TickActs(e, c, s, alive, now);
  }

  function Idles(acts: seq<Action>, n: nat): nat
    decreases |acts|
  {
    if acts == [] then 0
    else (if acts[0].Publish? && acts[0].key == IdleKey(n) then 1 else 0) + Idles(acts[1..], n)
  }

  lemma {:induction false} IdlesAppend(s: seq<Action>, t: seq<Action>, n: nat)
    ensures Idles(s + t, n) == Idles(s, n) + Idles(t, n)
    decreases |s|
  {
    if s == [] {
      assert s + t == t;
    } else {
      IdlesAppend(s[1..], t, n);
      assert (s + t)[1..] == s[1..] + t;
    }
  }

  // How many idles for turn n may still come.
  function IdlesLeft(t: Turn, n: nat): nat {
    if n < t.epoch || (n == t.epoch && TurnClosed(t)) then 0 else 1
  }

  lemma StepIdles(e: Engine, c: Config, i: Input, n: nat)
    requires EngineOk(e)
    ensures var (f, acts) := Step(e, c, i); Idles(acts, n) + IdlesLeft(f.turn, n) <= IdlesLeft(e.turn, n)
  {
    hide Watchdog, Remind, Elapsed, Ran, Before, UpdatePostSubmit;
    match i
    case HookIn(o, now) => HookIdles(e, c, o, now, n);
    case SubmitIn(now) =>
    case TickIn(s, alive, now) => TickIdles(e, c, s, alive, now, n);
    case ExpectIn(now) =>
  }

  lemma HookIdles(e: Engine, c: Config, o: Observation, now: Time, n: nat)
    requires EngineOk(e)
    ensures var (f, acts) := OnHook(e, c, o, now); Idles(acts, n) + IdlesLeft(f.turn, n) <= IdlesLeft(e.turn, n)
  {
    hide HookMeans, IdlesLeft;
    var (e1, acts) := HookArrives(e, c, now);
    IdlesAppend(acts, HookMeans(e1.turn, e1.control, o).2, n);
    MeansIdles(e1.turn, e1.control, o, n);
    assert Idles(acts, n) == 0;
  }

  lemma MeansIdles(t: Turn, k: Control, o: Observation, n: nat)
    requires ClosedOk(t, HooksActive, k)
    ensures var (t', _, acts) := HookMeans(t, k, o); Idles(acts, n) + IdlesLeft(t', n) <= IdlesLeft(t, n)
  {
    var acts := HookMeans(t, k, o).2;
    if acts != [] && acts[|acts| - 1].Publish? {
      IdlesAppend(acts[..|acts| - 1], [acts[|acts| - 1]], n);
      assert acts == acts[..|acts| - 1] + [acts[|acts| - 1]];
    }
  }

  lemma {:induction false} NoIdles(acts: seq<Action>, n: nat)
    requires forall a :: a in acts ==> ScreenWork(a)
    ensures Idles(acts, n) == 0
    decreases |acts|
  {
    if acts != [] {
      assert ScreenWork(acts[0]);
      NoIdles(acts[1..], n);
    }
  }

  lemma TickIdles(e: Engine, c: Config, s: Screen, alive: bool, now: Time, n: nat)
    requires EngineOk(e)
    ensures var (f, acts) := Tick(e, c, s, alive, now); Idles(acts, n) + IdlesLeft(f.turn, n) <= IdlesLeft(e.turn, n)
  {
    hide Tick;
    var (f, acts) := Tick(e, c, s, alive, now);
    TickActs(e, c, s, alive, now);
    if f.turn == e.turn {
      NoIdles(acts, n);
    }
  }

  lemma {:induction false} RunIdles(e: Engine, c: Config, run: seq<Input>, n: nat)
    requires EngineOk(e)
    ensures Idles(Emits(e, c, run), n) <= IdlesLeft(e.turn, n)
    decreases |run|
  {
    if run != [] {
      hide Step, EngineOk, IdlesLeft;
      var (f, acts) := Step(e, c, run[0]);
      StepIdles(e, c, run[0], n);
      StepKeeps(e, c, run[0]);
      RunIdles(f, c, run[1..], n);
      IdlesAppend(acts, Emits(f, c, run[1..]), n);
    }
  }

  // Whatever happens, each turn is reported idle at most once.
  lemma IdleOncePerTurn(c: Config, run: seq<Input>, n: nat)
    ensures Idles(Emits(NEW_ENGINE, c, run), n) <= 1
  {
    NewEngineOk();
    RunIdles(NEW_ENGINE, c, run, n);
  }

  // ---- one screen decision at a time -------------------------------------------------------------------

  // A screen decision is published only when none is out, and the one withdrawn is the one out.
  predicate Fits(out: Option<Key>, a: Action) {
    match a
    case Publish(key, _) => key.ScreenKey? ==> out == None
    case Withdraw(key, _) => key.ScreenKey? ==> out == Some(key)
    case Finalize => true
  }

  function Left(out: Option<Key>, a: Action): Option<Key> {
    match a
    case Publish(key, _) => if key.ScreenKey? then Some(key) else out
    case Withdraw(key, _) => if key.ScreenKey? then None else out
    case Finalize => out
  }

  // What is out after the actions; the first action that does not fit is an error.
  function Follow(out: Option<Key>, acts: seq<Action>): Result<Option<Key>, Action>
    decreases |acts|
  {
    if acts == [] then Ok(out)
    else if !Fits(out, acts[0]) then Err(acts[0])
    else Follow(Left(out, acts[0]), acts[1..])
  }

  // A submit answers whatever is out.
  function FollowRun(e: Engine, c: Config, run: seq<Input>, out: Option<Key>): Result<Option<Key>, Action>
    decreases |run|
  {
    if run == [] then Ok(out)
    else
      match Follow(if run[0].SubmitIn? then None else out, Step(e, c, run[0]).1)
      case Err(a) => Err(a)
      case Ok(left) => FollowRun(Step(e, c, run[0]).0, c, run[1..], left)
  }

  lemma {:induction false} FollowAppend(out: Option<Key>, s: seq<Action>, t: seq<Action>)
    requires Follow(out, s).Ok?
    ensures Follow(out, s + t) == Follow(Follow(out, s).value, t)
    decreases |s|
  {
    if s == [] {
      assert s + t == t;
    } else {
      FollowAppend(Left(out, s[0]), s[1..], t);
      assert (s + t)[1..] == s[1..] + t;
    }
  }

  lemma FollowOne(out: Option<Key>, a: Action)
    requires Fits(out, a)
    ensures Follow(out, [a]) == Ok(Left(out, a))
  {
    assert [a][1..] == [];
  }

  lemma FollowWithdraw(p: Prompting, c: Config, why: Why, now: Time)
    requires p.published.Some? && p.published.value.ScreenKey?
    ensures Follow(p.published, WithdrawPublished(p, c, why, now).1) == Ok(None)
  {
    FollowOne(p.published, Withdraw(p.published.value, why));
  }

  lemma FollowRemind(out: Option<Key>, n: Nagging, budget: Time, now: Time, hint: Hint)
    ensures Follow(out, Remind(n, budget, now, hint).1) == Ok(out)
  {
    FollowOne(out, Publish(AdvisoryKey(n.count + 1), Advisory(n.count + 1, hint)));
  }

  lemma FollowCandidate(e: Engine, c: Config, s: Screen, now: Time, kind: PromptKind)
    requires e.prompting.published == None
    ensures var (f, acts) := Candidate(e, c, s, now, kind); Follow(None, acts) == Ok(f.prompting.published)
  {
    hide Remind, Before, Elapsed, BudgetNow, InStartupGrace;
    FollowOne(None, Publish(ScreenKey(kind, s.semantic), Waiting(Some(kind))));
    FollowRemind(None, e.nagging, BudgetNow(e.sense, c, s, now), now, SubmitUnconfirmed);
  }

  lemma FollowWatchdog(out: Option<Key>, sense: Sense, n: Nagging, c: Config, s: Screen, now: Time)
    ensures Follow(out, Watchdog(sense, n, c, s, now).1) == Ok(out)
  {
    hide Remind;
    FollowRemind(out, n, BudgetNow(sense, c, s, now), now, SuspectedHung);
  }

  lemma FollowOnScreen(e: Engine, c: Config, s: Screen, now: Time)
    requires PublishedOk(e.prompting, e.mode)
    ensures var (f, acts) := TickOnScreen(e, c, s, now);
      Follow(e.prompting.published, acts) == Ok(f.prompting.published)
  {
    hide Candidate, Watchdog, UpdatePostSubmit, Follow, Fits;
    var e1 := e.(submitted := UpdatePostSubmit(e.submitted, e.sense, c, s, now));
    var p := e1.prompting;
    assert Follow(p.published, []) == Ok(p.published) && Follow(None, []) == Ok(None) by {
      FollowNothing(p.published);
      FollowNothing(None);
    }
    if p.published.Some? {
      FollowWithdraw(p, c, TurnResumed, now);
      FollowWithdraw(p, c, PromptChanged, now);
    }
    if s.prompt.Shows? {
      var (p1, acts) :=
        if p.published.Some? && s.promptFp != p.publishedPromptFp then WithdrawPublished(p, c, PromptChanged, now)
        else (p, []);
      if p1.published == None {
        var e2 := e1.(prompting := p1, nagging := e1.nagging.(intervening := false));
        FollowCandidate(e2, c, s, now, s.prompt.kind);
        FollowAppend(p.published, acts, Candidate(e2, c, s, now, s.prompt.kind).1);
      }
    } else {
      var acts := if p.published.Some? then WithdrawPublished(p, c, TurnResumed, now).1 else [];
      FollowWatchdog(None, e1.sense, e1.nagging, c, s, now);
      FollowAppend(p.published, acts, Watchdog(e1.sense, e1.nagging, c, s, now).1);
    }
  }

  lemma FollowNothing(out: Option<Key>)
    ensures Follow(out, []) == Ok(out)
  {
  }

  lemma FollowUnderHooks(out: Option<Key>, e: Engine, c: Config, s: Screen, now: Time)
    ensures var (f, acts) := TickUnderHooks(e, c, s, now);
      Follow(out, acts) == Ok(out) && f.prompting == e.prompting
  {
    hide Remind, Watchdog, BudgetNow;
    FollowRemind(out, e.nagging, BudgetNow(e.sense, c, s, now), now, LostStop);
    FollowOne(out, Publish(IdleKey(e.turn.epoch), Idle(false, true)));
    FollowWatchdog(out, e.sense, e.nagging, c, s, now);
  }

  lemma FollowTick(e: Engine, c: Config, s: Screen, alive: bool, now: Time)
    requires EngineOk(e)
    ensures var (f, acts) := Tick(e, c, s, alive, now);
      Follow(e.prompting.published, acts) == Ok(f.prompting.published)
  {
    hide TickOnScreen, TickUnderHooks;
    var e1 := TrackHeartbeat(TrackSemantic(e, s, now), s, now);
    var e2 := ExpireStartupGrace(e1, c, now);
    FollowOne(e.prompting.published, Finalize);
    FollowOnScreen(e2, c, s, now);
    FollowUnderHooks(e.prompting.published, e2, c, s, now);
  }

  lemma FollowMeans(out: Option<Key>, t: Turn, k: Control, o: Observation)
    requires PendingOk(t)
    ensures Follow(out, HookMeans(t, k, o).2) == Ok(out)
  {
    var acts := HookMeans(t, k, o).2;
    assert forall a :: a in acts ==> Fits(out, a) && Left(out, a) == out;
    FollowNeutral(out, acts);
  }

  lemma {:induction false} FollowNeutral(out: Option<Key>, acts: seq<Action>)
    requires forall a :: a in acts ==> Fits(out, a) && Left(out, a) == out
    ensures Follow(out, acts) == Ok(out)
    decreases |acts|
  {
    if acts != [] {
      FollowNeutral(out, acts[1..]);
    }
  }

  lemma FollowHook(e: Engine, c: Config, o: Observation, now: Time)
    requires EngineOk(e)
    ensures var (f, acts) := OnHook(e, c, o, now);
      Follow(e.prompting.published, acts) == Ok(f.prompting.published)
  {
    hide HookMeans;
    var (e1, acts) := HookArrives(e, c, now);
    if e.mode != HooksActive && e.prompting.published.Some? {
      FollowWithdraw(e.prompting, c, SupersededByHook, now);
    }
    FollowMeans(e1.prompting.published, e1.turn, e1.control, o);
    FollowAppend(e.prompting.published, acts, HookMeans(e1.turn, e1.control, o).2);
  }

  lemma {:induction false} RunFollows(e: Engine, c: Config, run: seq<Input>)
    requires EngineOk(e)
    ensures FollowRun(e, c, run, e.prompting.published) == Ok(After(e, c, run).prompting.published)
    decreases |run|
  {
    if run != [] {
      hide OnHook, Tick, EngineOk;
      match run[0] {
        case HookIn(o, now) => FollowHook(e, c, o, now);
        case SubmitIn(now) =>
        case TickIn(s, alive, now) => FollowTick(e, c, s, alive, now);
        case ExpectIn(now) =>
      }
      StepKeeps(e, c, run[0]);
      RunFollows(Step(e, c, run[0]).0, c, run[1..]);
    }
  }

  // Over every run each screen Withdraw names the one decision that is out, and none is published
  // over it.
  lemma OneScreenDecisionAtATime(c: Config, run: seq<Input>)
    ensures FollowRun(NEW_ENGINE, c, run, None) == Ok(After(NEW_ENGINE, c, run).prompting.published)
  {
    NewEngineOk();
    RunFollows(NEW_ENGINE, c, run);
  }

  // ---- a free-text prompt has stood before it is published ------------------------------------------------

  lemma {:induction false} AfterSnoc(e: Engine, c: Config, run: seq<Input>, i: Input)
    ensures After(e, c, run + [i]) == Step(After(e, c, run), c, i).0
    decreases |run|
  {
    hide Step;
    if run == [] {
      assert run + [i] == [i] && [i][1..] == [];
    } else {
      AfterSnoc(Step(e, c, run[0]).0, c, run[1..], i);
      assert (run + [i])[1..] == run[1..] + [i];
    }
  }

  // A screen read while the agent lived, if it was read at all, showed the prompt identified by fp;
  // nothing was submitted and no hook arrived.
  predicate Stands(i: Input, fp: Fp) {
    match i
    case TickIn(s, alive, _) => Dead(s, alive) || (s.prompt.Shows? && PromptKeyOf(s) == fp)
    case ExpectIn(_) => true
    case _ => false
  }

  predicate FirstSeen(i: Input, since: Time) {
    i.TickIn? && !Dead(i.screen, i.alive) && i.at == since
  }

  // Since the tick at time `since` the prompt has stood on every tick.
  ghost predicate Standing(run: seq<Input>, fp: Fp, since: Time) {
    exists j: nat :: j < |run| && FirstSeen(run[j], since) && forall k :: j <= k < |run| ==> Stands(run[k], fp)
  }

  // A prompt without a fingerprint of its own is identified by the screen's meaning.  `blanks` are the
  // meanings so used; none of them is the fingerprint of another prompt.
  ghost predicate Apart(i: Input, blanks: iset<Fp>) {
    i.TickIn? && i.screen.prompt.Shows? ==>
      match i.screen.promptFp
      case Some(fp) => fp !in blanks
      case None => i.screen.semantic in blanks
  }

  ghost predicate CandidateStood(p: Prompting, run: seq<Input>) {
    p.candidateFp.Some? && p.candidateSince.Some? && Standing(run, p.candidateFp.value, p.candidateSince.value)
  }

  ghost predicate CandidateOk(p: Prompting, run: seq<Input>, blanks: iset<Fp>) {
    if p.published == None then p.candidateFp.Some? ==> CandidateStood(p, run)
    else if p.publishedPromptFp.Some? then
      p.publishedPromptFp == p.candidateFp && p.publishedPromptFp.value !in blanks && CandidateStood(p, run)
    else p.candidateFp.Some? && p.candidateFp.value in blanks
  }

  lemma StillStanding(run: seq<Input>, i: Input, fp: Fp, since: Time)
    requires Standing(run, fp, since) && Stands(i, fp)
    ensures Standing(run + [i], fp, since)
  {
    var j: nat :| j < |run| && FirstSeen(run[j], since) && forall k :: j <= k < |run| ==> Stands(run[k], fp);
    assert FirstSeen((run + [i])[j], since);
  }

  lemma NewlyStanding(run: seq<Input>, i: Input, fp: Fp)
    requires Stands(i, fp) && i.TickIn? && !Dead(i.screen, i.alive)
    ensures Standing(run + [i], fp, i.at)
  {
    assert FirstSeen((run + [i])[|run|], i.at);
  }

  lemma CandidateStands(e: Engine, c: Config, s: Screen, alive: bool, now: Time, run: seq<Input>, blanks: iset<Fp>)
    requires s.prompt.Shows? && Apart(TickIn(s, alive, now), blanks) && !Dead(s, alive)
    requires e.prompting.published == None
    requires e.prompting.candidateFp == Some(PromptKeyOf(s)) ==> CandidateStood(e.prompting, run)
    ensures CandidateOk(Candidate(e, c, s, now, s.prompt.kind).0.prompting, run + [TickIn(s, alive, now)], blanks)
    ensures CandidateStood(Candidate(e, c, s, now, s.prompt.kind).0.prompting, run + [TickIn(s, alive, now)])
    ensures Candidate(e, c, s, now, s.prompt.kind).0.prompting.candidateFp == Some(PromptKeyOf(s))
  {
    hide Remind, Before, Elapsed, InStartupGrace, BudgetNow, Standing;
    var i := TickIn(s, alive, now);
    var p := WatchCandidate(e.prompting, s, now);
    if p == e.prompting {
      StillStanding(run, i, p.candidateFp.value, p.candidateSince.value);
    } else {
      NewlyStanding(run, i, PromptKeyOf(s));
    }
  }

  lemma OnScreenStands(e: Engine, c: Config, s: Screen, alive: bool, now: Time, run: seq<Input>, blanks: iset<Fp>)
    requires CandidateOk(e.prompting, run, blanks) && Apart(TickIn(s, alive, now), blanks) && !Dead(s, alive)
    ensures var p := TickOnScreen(e, c, s, now).0.prompting;
      && CandidateOk(p, run + [TickIn(s, alive, now)], blanks)
      && (TickOnScreen(e, c, s, now).1 != [] && p.published.Some? ==> CandidateStood(p, run + [TickIn(s, alive, now)]))
  {
    hide Watchdog, UpdatePostSubmit, Candidate, Standing;
    var i := TickIn(s, alive, now);
    var e1 := e.(submitted := UpdatePostSubmit(e.submitted, e.sense, c, s, now));
    if s.prompt.Shows? {
      var p := e1.prompting;
      var p1 :=
        if p.published.Some? && s.promptFp != p.publishedPromptFp then WithdrawPublished(p, c, PromptChanged, now).0
        else p;
      if p1.published == None {
        CandidateStands(e1.(prompting := p1, nagging := e1.nagging.(intervening := false)), c, s, alive, now, run,
            blanks);
      } else if p.publishedPromptFp.Some? {
        StillStanding(run, i, p.candidateFp.value, p.candidateSince.value);
      }
    }
  }

  lemma {:induction false} RunStands(c: Config, run: seq<Input>, blanks: iset<Fp>)
    requires forall i :: i in run ==> Apart(i, blanks)
    ensures var e := After(NEW_ENGINE, c, run); e.mode == HooksActive || CandidateOk(e.prompting, run, blanks)
    decreases |run|
  {
    if run != [] {
      var n := |run| - 1;
      var i := run[n];
      assert run == run[..n] + [i] && i in run;
      RunStands(c, run[..n], blanks);
      AfterSnoc(NEW_ENGINE, c, run[..n], i);
      hide After;
      StepStands(After(NEW_ENGINE, c, run[..n]), c, run[..n], i, blanks);
    }
  }

  lemma StepStands(e: Engine, c: Config, run: seq<Input>, i: Input, blanks: iset<Fp>)
    requires e.mode == HooksActive || CandidateOk(e.prompting, run, blanks)
    requires Apart(i, blanks)
    ensures var f := Step(e, c, i).0; f.mode == HooksActive || CandidateOk(f.prompting, run + [i], blanks)
  {
    hide TickOnScreen, TickUnderHooks, Standing, HookMeans;
    match i
    case HookIn(o, now) =>
    case SubmitIn(now) =>
    case ExpectIn(now) =>
      if CandidateStood(e.prompting, run) {
        StillStanding(run, i, e.prompting.candidateFp.value, e.prompting.candidateSince.value);
      }
    case TickIn(s, alive, now) =>
      var e2 := ExpireStartupGrace(TrackHeartbeat(TrackSemantic(e, s, now), s, now), c, now);
      if e.mode != HooksActive {
        if Dead(s, alive) {
          if CandidateStood(e.prompting, run) {
            StillStanding(run, i, e.prompting.candidateFp.value, e.prompting.candidateSince.value);
          }
        } else {
          OnScreenStands(e2, c, s, alive, now, run, blanks);
          OnScreenMode(e2, c, s, now);
        }
      } else {
        UnderHooksMode(e2, c, s, now);
      }
  }

  lemma OnScreenMode(e: Engine, c: Config, s: Screen, now: Time)
    ensures TickOnScreen(e, c, s, now).0.mode == e.mode
  {
    hide Watchdog, Remind, UpdatePostSubmit, BudgetNow;
  }

  lemma UnderHooksMode(e: Engine, c: Config, s: Screen, now: Time)
    ensures TickUnderHooks(e, c, s, now).0.mode == e.mode
  {
    hide Watchdog, Remind, BudgetNow;
  }

  // A free-text prompt is published only from a quiet box that has stood for the whole window.
  ghost predicate Settled(c: Config, run: seq<Input>, i: Input, f: Engine) {
    && i.TickIn? && !Dead(i.screen, i.alive) && i.screen.prompt == Shows(FreeText)
    && !i.screen.echo
    && !(f.submitted.active && Before(i.at, f.submitted.graceUntil))
    && !InStartupGrace(f, c, i.at)
    && exists since :: Standing(run + [i], PromptKeyOf(i.screen), since) && i.at - since >= c.idleConfirmWindow
  }

  lemma OnScreenPublishes(e: Engine, c: Config, s: Screen, now: Time, meaning: Fp)
    requires Publishes(TickOnScreen(e, c, s, now).1, ScreenKey(FreeText, meaning))
    ensures var f := TickOnScreen(e, c, s, now).0;
      && s.prompt == Shows(FreeText) && !s.echo && !(f.submitted.active && Before(now, f.submitted.graceUntil))
      && !InStartupGrace(f, c, now)
      && f.prompting.published.Some?
      && f.prompting.candidateFp == Some(PromptKeyOf(s))
          && Elapsed(now, f.prompting.candidateSince) >= c.idleConfirmWindow
  {
    hide UpdatePostSubmit, BudgetNow, Elapsed, Before;
  }

  lemma FreeTextIsPublishedOnlySettled(c: Config, run: seq<Input>, i: Input, meaning: Fp, blanks: iset<Fp>)
    requires (forall j :: j in run ==> Apart(j, blanks)) && Apart(i, blanks)
    requires Publishes(Step(After(NEW_ENGINE, c, run), c, i).1, ScreenKey(FreeText, meaning))
    ensures Settled(c, run, i, Step(After(NEW_ENGINE, c, run), c, i).0)
  {
    var e := After(NEW_ENGINE, c, run);
    NewEngineOk();
    RunKeeps(NEW_ENGINE, c, run);
    RunStands(c, run, blanks);
    hide After;
    PublishIsSettled(e, c, run, i, meaning, blanks);
  }

  lemma PublishIsSettled(e: Engine, c: Config, run: seq<Input>, i: Input, meaning: Fp, blanks: iset<Fp>)
    requires EngineOk(e) && (e.mode == HooksActive || CandidateOk(e.prompting, run, blanks)) && Apart(i, blanks)
    requires Publishes(Step(e, c, i).1, ScreenKey(FreeText, meaning))
    ensures Settled(c, run, i, Step(e, c, i).0)
  {
    hide TickOnScreen, HookMeans, Standing;
    match i
    case HookIn(o, now) => HookPublishesNoScreen(e, c, o, now, meaning);
    case SubmitIn(now) =>
    case ExpectIn(now) =>
    case TickIn(s, alive, now) =>
      var e2 := ExpireStartupGrace(TrackHeartbeat(TrackSemantic(e, s, now), s, now), c, now);
      if !Dead(s, alive) && e2.mode != HooksActive {
        OnScreenPublishes(e2, c, s, now, meaning);
        OnScreenStands(e2, c, s, alive, now, run, blanks);
        var p := TickOnScreen(e2, c, s, now).0.prompting;
        assert Standing(run + [i], PromptKeyOf(s), p.candidateSince.value);
      } else if !Dead(s, alive) {
        UnderHooksPublishesNoScreen(e2, c, s, now, meaning);
      }
  }

  lemma HookPublishesNoScreen(e: Engine, c: Config, o: Observation, now: Time, meaning: Fp)
    requires EngineOk(e)
    ensures !Publishes(OnHook(e, c, o, now).1, ScreenKey(FreeText, meaning))
  {
  }

  lemma UnderHooksPublishesNoScreen(e: Engine, c: Config, s: Screen, now: Time, meaning: Fp)
    ensures !Publishes(TickUnderHooks(e, c, s, now).1, ScreenKey(FreeText, meaning))
  {
    hide BudgetNow, Elapsed, Before;
  }

  // ---- advisories keep their distance ---------------------------------------------------------------------

  datatype Advice = Advice(at: Time, count: nat)

  function AdviceIn(acts: seq<Action>, at: Time): seq<Advice>
    decreases |acts|
  {
    if acts == [] then []
    else
      (if acts[0].Publish? && acts[0].what.Advisory? then [Advice(at, acts[0].what.count)] else [])
      + AdviceIn(acts[1..], at)
  }

  function Advised(e: Engine, c: Config, run: seq<Input>): seq<Advice>
    decreases |run|
  {
    if run == [] then []
    else AdviceIn(Step(e, c, run[0]).1, run[0].at) + Advised(Step(e, c, run[0]).0, c, run[1..])
  }

  lemma {:induction false} AdviceAppend(s: seq<Action>, t: seq<Action>, at: Time)
    ensures AdviceIn(s + t, at) == AdviceIn(s, at) + AdviceIn(t, at)
    decreases |s|
  {
    if s == [] {
      assert s + t == t;
    } else {
      AdviceAppend(s[1..], t, at);
      assert (s + t)[1..] == s[1..] + t;
      var here := if s[0].Publish? && s[0].what.Advisory? then [Advice(at, s[0].what.count)] else [];
      assert AdviceIn(s, at) == here + AdviceIn(s[1..], at);
      assert AdviceIn(s + t, at) == here + (AdviceIn(s[1..], at) + AdviceIn(t, at));
    }
  }

  lemma {:induction false} NoAdvice(acts: seq<Action>, at: Time)
    requires forall a :: a in acts ==> !(a.Publish? && a.what.Advisory?)
    ensures AdviceIn(acts, at) == []
    decreases |acts|
  {
    if acts != [] {
      NoAdvice(acts[1..], at);
    }
  }

  predicate BudgetsAtLeast(c: Config, b: Time) {
    b <= c.liveBudget && b <= c.staleBudget && b <= c.unknownBudget
  }

  // Either no advice and the throttle as it was, or one with the next count, when the throttle allowed.
  predicate Throttled(n: Nagging, n': Nagging, advice: seq<Advice>, at: Time, b: Time) {
    if advice == [] then n'.count == n.count && n'.nextNag == n.nextNag
    else
      && advice == [Advice(at, n.count + 1)] && n'.count == n.count + 1
      && !Before(at, n.nextNag) && n'.nextNag.Some? && n'.nextNag.value >= at + b
  }

  lemma RemindThrottled(n: Nagging, budget: Time, now: Time, hint: Hint, b: Time)
    requires b <= budget
    ensures var (n', acts) := Remind(n, budget, now, hint); Throttled(n, n', AdviceIn(acts, now), now, b)
  {
    var (n', acts) := Remind(n, budget, now, hint);
    if acts != [] {
      assert acts[1..] == [];
    }
  }

  lemma WatchdogThrottled(sense: Sense, n: Nagging, c: Config, s: Screen, now: Time, b: Time)
    requires BudgetsAtLeast(c, b)
    ensures var (n', acts) := Watchdog(sense, n, c, s, now); Throttled(n, n', AdviceIn(acts, now), now, b)
  {
    hide Remind;
    RemindThrottled(n, BudgetNow(sense, c, s, now), now, SuspectedHung, b);
  }

  lemma CandidateThrottled(e: Engine, c: Config, s: Screen, now: Time, kind: PromptKind, b: Time)
    requires BudgetsAtLeast(c, b)
    ensures var (f, acts) := Candidate(e, c, s, now, kind); Throttled(e.nagging, f.nagging, AdviceIn(acts, now), now, b)
  {
    hide Remind, Before, Elapsed, InStartupGrace, Throttled;
    assert Throttled(e.nagging, e.nagging, [], now, b) by { Unthrottled(e.nagging, e.nagging, now, b); }
    RemindThrottled(e.nagging, BudgetNow(e.sense, c, s, now), now, SubmitUnconfirmed, b);
    NoAdvice([Publish(ScreenKey(kind, s.semantic), Waiting(Some(kind)))], now);
  }

  lemma Unthrottled(n: Nagging, n': Nagging, now: Time, b: Time)
    requires n'.count == n.count && n'.nextNag == n.nextNag
    ensures Throttled(n, n', [], now, b)
  {
  }

  lemma OnScreenThrottled(e: Engine, c: Config, s: Screen, now: Time, b: Time)
    requires BudgetsAtLeast(c, b)
    ensures var (f, acts) := TickOnScreen(e, c, s, now);
      Throttled(e.nagging, f.nagging, AdviceIn(acts, now), now, b) && f.sense == e.sense
  {
    hide Candidate, Watchdog, UpdatePostSubmit;
    var e1 := e.(submitted := UpdatePostSubmit(e.submitted, e.sense, c, s, now));
    var p := e1.prompting;
    if s.prompt.Shows? {
      var (p1, acts) :=
        if p.published.Some? && s.promptFp != p.publishedPromptFp then WithdrawPublished(p, c, PromptChanged, now)
        else (p, []);
      NoAdvice(acts, now);
      if p1.published == None {
        var e2 := e1.(prompting := p1, nagging := e1.nagging.(intervening := false));
        CandidateThrottled(e2, c, s, now, s.prompt.kind, b);
        CandidateSense(e2, c, s, now, s.prompt.kind);
        AdviceAppend(acts, Candidate(e2, c, s, now, s.prompt.kind).1, now);
      }
    } else {
      var acts := if p.published.Some? then WithdrawPublished(p, c, TurnResumed, now).1 else [];
      NoAdvice(acts, now);
      WatchdogThrottled(e1.sense, e1.nagging, c, s, now, b);
      AdviceAppend(acts, Watchdog(e1.sense, e1.nagging, c, s, now).1, now);
    }
  }

  lemma CandidateSense(e: Engine, c: Config, s: Screen, now: Time, kind: PromptKind)
    ensures Candidate(e, c, s, now, kind).0.sense == e.sense
  {
    hide Remind, Before, Elapsed, InStartupGrace;
  }

  lemma UnderHooksThrottled(e: Engine, c: Config, s: Screen, now: Time, b: Time)
    requires BudgetsAtLeast(c, b)
    ensures var (f, acts) := TickUnderHooks(e, c, s, now);
      Throttled(e.nagging, f.nagging, AdviceIn(acts, now), now, b) && f.sense == e.sense
  {
    hide Remind, Watchdog, Throttled, StopWasLost, LostStopStuck, WatchPrompt, TrackProgress;
    Unthrottled(e.nagging, e.nagging, now, b);
    assert AdviceIn([], now) == [];
    RemindThrottled(e.nagging, BudgetNow(e.sense, c, s, now), now, LostStop, b);
    NoAdvice([Publish(IdleKey(e.turn.epoch), Idle(false, true))], now);
    WatchdogThrottled(e.sense, e.nagging, c, s, now, b);
  }

  // The screen keeps this meaning.
  predicate Frozen(i: Input, meaning: Fp) {
    i.TickIn? ==> i.screen.semantic == meaning
  }

  lemma StepThrottled(e: Engine, c: Config, i: Input, b: Time, meaning: Fp)
    requires BudgetsAtLeast(c, b) && e.sense.semanticFp == Some(meaning) && Frozen(i, meaning)
    ensures var (f, acts) := Step(e, c, i);
      && Throttled(e.nagging, f.nagging, AdviceIn(acts, i.at), i.at, b)
      && f.sense.semanticFp == Some(meaning)
  {
    match i
    case HookIn(o, now) =>
      hide HookMeans;
      HookAdvisesNothing(e, c, o, now);
    case SubmitIn(now) =>
    case ExpectIn(now) =>
    case TickIn(s, alive, now) =>
      hide TickOnScreen, TickUnderHooks;
      var e2 := ExpireStartupGrace(TrackHeartbeat(e, s, now), c, now);
      OnScreenThrottled(e2, c, s, now, b);
      UnderHooksThrottled(e2, c, s, now, b);
      NoAdvice([Finalize], now);
  }

  lemma HookAdvisesNothing(e: Engine, c: Config, o: Observation, now: Time)
    ensures AdviceIn(OnHook(e, c, o, now).1, now) == []
  {
    NoAdvice(OnHook(e, c, o, now).1, now);
  }

  // Counts go up by one from n, and each advice comes at least b after the one before.
  ghost predicate Spaced(advice: seq<Advice>, n: nat, b: Time) {
    && (forall k :: 0 <= k < |advice| ==> advice[k].count == n + 1 + k)
    && (forall k :: 0 < k < |advice| ==> advice[k].at >= advice[k - 1].at + b)
  }

  lemma SpacedPrepend(first: Advice, rest: seq<Advice>, n: nat, b: Time)
    requires first.count == n + 1 && Spaced(rest, n + 1, b)
    requires rest != [] ==> rest[0].at >= first.at + b
    ensures Spaced([first] + rest, n, b)
  {
    var all := [first] + rest;
    assert forall k :: 0 < k < |all| ==> all[k] == rest[k - 1];
  }

  lemma {:induction false} FrozenRunSpaced(e: Engine, c: Config, run: seq<Input>, b: Time, meaning: Fp)
    requires BudgetsAtLeast(c, b) && e.sense.semanticFp == Some(meaning)
    requires forall i :: i in run ==> Frozen(i, meaning)
    ensures var advice := Advised(e, c, run);
      && Spaced(advice, e.nagging.count, b)
      && (advice != [] && e.nagging.nextNag.Some? ==> advice[0].at >= e.nagging.nextNag.value)
    decreases |run|
  {
    if run != [] {
      hide Step, Spaced, Frozen, BudgetsAtLeast;
      assert run[0] in run;
      StepThrottled(e, c, run[0], b, meaning);
      var f := Step(e, c, run[0]).0;
      FrozenRunSpaced(f, c, run[1..], b, meaning);
      var now := AdviceIn(Step(e, c, run[0]).1, run[0].at);
      var rest := Advised(f, c, run[1..]);
      if now == [] {
        assert now + rest == rest;
      } else {
        SpacedPrepend(now[0], rest, e.nagging.count, b);
      }
    } else {
      assert Advised(e, c, run) == [];
    }
  }

  // A stretch of time in which the screen's meaning does not change, from the tick that brought it.
  ghost predicate FrozenStretch(e: Engine, run: seq<Input>, meaning: Fp) {
    && run != [] && run[0].TickIn? && e.sense.semanticFp != Some(meaning)
    && forall i :: i in run ==> Frozen(i, meaning)
  }

  lemma TrackOnce(e: Engine, c: Config, i: Input)
    requires i.TickIn?
    ensures Step(TrackSemantic(e, i.screen, i.at), c, i) == Step(e, c, i)
  {
    hide TickOnScreen, TickUnderHooks, TrackHeartbeat, ExpireStartupGrace;
  }

  // Whichever escalators raise them, the advisories of a frozen stretch are counted 1, 2, 3, ... and
  // keep at least the smallest budget apart.
  lemma AdvisoriesOfAFrozenStretch(c: Config, before: seq<Input>, run: seq<Input>, b: Time, meaning: Fp)
    requires BudgetsAtLeast(c, b) && FrozenStretch(After(NEW_ENGINE, c, before), run, meaning)
    ensures Spaced(Advised(After(NEW_ENGINE, c, before), c, run), 0, b)
  {
    hide After;
    var e := After(NEW_ENGINE, c, before);
    assert run[0] in run;
    var e1 := TrackSemantic(e, run[0].screen, run[0].at);
    FrozenRunSpaced(e1, c, run, b, meaning);
    TrackOnce(e, c, run[0]);
    assert Advised(e1, c, run) == Advised(e, c, run) by { hide Step; }
  }

  lemma {:induction false} SpacedTakesTime(advice: seq<Advice>, n: nat, b: Time, k: nat)
    requires Spaced(advice, n, b) && k < |advice|
    ensures advice[k].at - advice[0].at >= (k as real) * b
  {
    if k > 0 {
      SpacedTakesTime(advice, n, b, k - 1);
      assert (k as real) * b == ((k - 1) as real) * b + b;
    }
  }

  lemma {:induction false} AdviceIsTimely(e: Engine, c: Config, run: seq<Input>, first: Time, last: Time)
    requires forall i :: i in run ==> first <= i.at <= last
    ensures forall a :: a in Advised(e, c, run) ==> first <= a.at <= last
    decreases |run|
  {
    if run != [] {
      hide Step;
      assert run[0] in run;
      AdviceStamped(Step(e, c, run[0]).1, run[0].at);
      AdviceIsTimely(Step(e, c, run[0]).0, c, run[1..], first, last);
    }
  }

  lemma {:induction false} AdviceStamped(acts: seq<Action>, at: Time)
    ensures forall a :: a in AdviceIn(acts, at) ==> a.at == at
    decreases |acts|
  {
    if acts != [] {
      AdviceStamped(acts[1..], at);
    }
  }

  // So a frozen stretch that lasts from `first` to `last` holds at most 1 + length / budget of them.
  lemma FewAdvisoriesPerStretch(c: Config, before: seq<Input>, run: seq<Input>, b: Time, meaning: Fp,
                                first: Time, last: Time)
    requires b > 0.0 && BudgetsAtLeast(c, b) && FrozenStretch(After(NEW_ENGINE, c, before), run, meaning)
    requires forall i :: i in run ==> first <= i.at <= last
    ensures |Advised(After(NEW_ENGINE, c, before), c, run)| as real <= 1.0 + (last - first) / b
  {
    hide After, Spaced, Advised, FrozenStretch;
    var e := After(NEW_ENGINE, c, before);
    AdvisoriesOfAFrozenStretch(c, before, run, b, meaning);
    AdviceIsTimely(e, c, run, first, last);
    assert run != [] by { StretchNotEmpty(e, run, meaning); }
    assert run[0] in run;
    SpacedFew(Advised(e, c, run), b, first, last);
  }

  lemma StretchNotEmpty(e: Engine, run: seq<Input>, meaning: Fp)
    requires FrozenStretch(e, run, meaning)
    ensures run != []
  {
  }

  lemma SpacedFew(advice: seq<Advice>, b: Time, first: Time, last: Time)
    requires b > 0.0 && Spaced(advice, 0, b) && first <= last
    requires forall a :: a in advice ==> first <= a.at <= last
    ensures |advice| as real <= 1.0 + (last - first) / b
  {
    if advice != [] {
      var k := |advice| - 1;
      SpacedTakesTime(advice, 0, b, k);
      hide Spaced;
      assert advice[k] in advice && advice[0] in advice;
      AtMost(k as real, b, last - first);
      assert |advice| as real == k as real + 1.0;
    } else {
      AtMost(0.0, b, last - first);
    }
  }

  lemma AtMost(k: real, b: real, length: real)
    requires b > 0.0 && k * b <= length
    ensures k <= length / b
  {
    assert length / b * b == length;
    if k > length / b {
      Larger(k, length / b, b);
    }
  }

  lemma Larger(x: real, y: real, b: real)
    requires x > y && b > 0.0
    ensures x * b > y * b
  {
    assert (x - y) * b > 0.0;
  }
}
