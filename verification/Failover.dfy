/** One side of a call: Nova Sonic, the backup, or the way back from the backup to Nova Sonic.

    Every atomic step of the controller is an event: a public operation, the retry timer firing, the
    handover poll ticking, or `startNova` answering an attempt that was started earlier, possibly long
    after the controller moved on. `Step` says what one event does, `Run` what a whole interleaving does.
    The class `FailoverController`, in `FailoverControl`, is the controller itself, proved against `Step`.
 */
module Failover {
  import opened Wrappers

  datatype Side = Nova | Backup | Returning

  datatype Cause = Failure | Switch | Memory | Language | Resume

  /** What startNova's promise resolves to; a rejection counts as NotStarted. */
  datatype Outcome = Started | Busy | NotStarted

  /** A startNova call that has not answered yet: the generation and the number it was started with. */
  datatype Attempt = Attempt(gen: nat, number: int)

  /** The calls the controller makes on the operations it is given (state-change notifications aside). */
  datatype Call =
    | LeaveNova(reason: string, cause: Cause, from: Side, speakInProgress: bool)
    | StartNova(number: int)
    | AbandonNova
    | AfterHandover
    | NovaHealthy
    | NovaUnhealthy

  datatype State = State(
    side: Side,
    cause: Option<Cause>,
    reason: string,
    attempts: int,
    generation: nat,
    timer: Option<int>,              // the armed retry timer's delay
    inFlight: bool,
    poll: bool,                      // the handover poll is armed
    returningSince: int,
    outstanding: map<nat, Attempt>,  // by the ordinal of the startNova call
    started: nat,                    // startNova calls made so far
    calls: seq<Call>)
  {
    predicate Held() {
      cause == Some(Switch) || cause == Some(Language)
    }

    predicate IsCurrent(id: nat) {
      id in outstanding && outstanding[id].gen == generation
    }
  }

  datatype Event =
    | NovaFails(why: string, speakInProgress: bool, live: bool)
    | StartsOnBackup(why: string, startCause: Cause, speakInProgress: bool)
    | SwitchOn(why: string)
    | SwitchOff
    | LanguageOn(why: string)
    | LanguageOff(switchReason: Option<string>)
    | SessionStarts(now: int)
    | Resets
    | TimerFires(live: bool)
    | Answers(id: nat, outcome: Outcome, now: int)
    | PollTicks(ready: bool)

  const SWITCH_OFF_REASON := "switch turned off"
  const RESUME_REASON := "the language is supported by Nova Sonic again"
  const BUSY_RETRY_MS := 1000

  function BackoffMs(attempt: int): int {
    attempt * 1500
  }

  const INITIAL := State(Nova, None, "", 0, 0, None, false, false, 0, map[], 0, [])

  // ---- What each event does -------------------------------------------------------------------------

  function Called(s: State, c: Call): State {
    s.(calls := s.calls + [c])
  }

  function EnteringBackup(s: State, why: string, newCause: Cause, speak: bool): State {
    Called(s.(side := Backup, cause := Some(newCause), reason := why, poll := false),
           LeaveNova(why, newCause, s.side, speak && s.side.Nova?))
  }

  function BeginningReturn(s: State, now: int): State {
    s.(side := Returning, returningSince := now, poll := true)
  }

  /** The generation moves on and the retry timer is cleared: nothing outstanding counts any more. */
  function Cancelled(s: State): State {
    s.(generation := s.generation + 1, timer := None)
  }

  function OnNovaFails(max: nat, s: State, why: string, speak: bool, live: bool): State {
    if s.side.Backup? || !live then s else
    var b := Called(EnteringBackup(s, why, Failure, speak), NovaUnhealthy);
    if b.attempts < max then b.(timer := Some(BackoffMs(b.attempts + 1))) else b
  }

  function OnStartsOnBackup(s: State, why: string, startCause: Cause, speak: bool): State {
    var b := EnteringBackup(Cancelled(s).(attempts := 0), why, startCause, speak);
    if b.Held() then b else b.(timer := Some(BackoffMs(1)))
  }

  function OnSwitchOn(s: State, why: string): State {
    if s.side.Backup? && s.Held() then s
    else if s.side.Backup? then Cancelled(s).(cause := Some(Switch), reason := why)
    else EnteringBackup(Cancelled(s), why, Switch, true)
  }

  function OnSwitchOff(s: State): State {
    if !s.side.Backup? || s.cause != Some(Switch) then s
    else s.(generation := s.generation + 1, cause := Some(Failure), reason := SWITCH_OFF_REASON, attempts := 0,
            timer := Some(0))
  }

  function OnLanguageOn(s: State, why: string): State {
    if s.side.Backup? && s.cause == Some(Language) then s.(reason := why)
    else if s.side.Backup? then Cancelled(s).(cause := Some(Language), reason := why)
    else EnteringBackup(Cancelled(s), why, Language, false)
  }

  function OnLanguageOff(s: State, switchReason: Option<string>): State {
    if !s.side.Backup? || s.cause != Some(Language) then s
    else if switchReason.Some? && switchReason.value != "" then
      s.(generation := s.generation + 1, cause := Some(Switch), reason := switchReason.value)
    else
      s.(generation := s.generation + 1, cause := Some(Resume), reason := RESUME_REASON, attempts := 0,
         timer := Some(0))
  }

  function OnSessionStarts(s: State, now: int): State {
    if !s.side.Backup? then s
    else if s.Held() then Called(s, AbandonNova)
    else BeginningReturn(Called(Cancelled(s), NovaHealthy), now)
  }

  function OnResets(s: State): State {
    Cancelled(s).(side := Nova, cause := None, reason := "", attempts := 0, inFlight := false, poll := false)
  }

  predicate MayAttempt(max: nat, s: State, live: bool) {
    s.side.Backup? && !s.Held() && !s.inFlight && live && s.attempts < max
  }

  function OnTimerFires(max: nat, s: State, live: bool): State {
    var t := s.(timer := None);
    if !MayAttempt(max, t, live) then t
    else
      var number := s.attempts + 1;
      Called(t.(attempts := number, inFlight := true, started := s.started + 1,
                outstanding := s.outstanding[s.started := Attempt(s.generation, number)]),
             StartNova(number))
  }

  /** The attempt is answered: the part that runs whatever the answer is. */
  function Settled(s: State, id: nat): State {
    s.(outstanding := s.outstanding - {id}, inFlight := false)
  }

  function OnAnswers(max: nat, s: State, id: nat, outcome: Outcome, now: int): State
    requires id in s.outstanding
  {
    var t := Settled(s, id);
    var wanted := s.outstanding[id].gen == s.generation && s.side.Backup? && !s.Held();
    match outcome
    case Busy =>
      if wanted then t.(attempts := s.attempts - 1, timer := Some(BUSY_RETRY_MS)) else t.(attempts := s.attempts - 1)
    case Started =>
      if wanted then BeginningReturn(Called(t, NovaHealthy), now) else Called(t, AbandonNova)
    case NotStarted =>
      if !wanted then t else
      var f := Called(t, NovaUnhealthy).(cause := if s.cause == Some(Resume) then Some(Failure) else s.cause);
      if s.attempts < max then f.(timer := Some(BackoffMs(s.attempts))) else f
  }

  function OnPollTicks(s: State, ready: bool): State {
    if !s.side.Returning? then s.(poll := false)
    else if !ready then s
    else Called(s.(poll := false, side := Nova, cause := None, reason := "", attempts := 0), AfterHandover)
  }

  /** Timers fire only while armed, and an attempt is answered once. */
  predicate Enabled(s: State, e: Event) {
    match e
    case TimerFires(_) => s.timer.Some?
    case Answers(id, _, _) => id in s.outstanding
    case PollTicks(_) => s.poll
    case _ => true
  }

  function Step(max: nat, s: State, e: Event): State {
    if !Enabled(s, e) then s else
    match e
    case NovaFails(why, speak, live) => OnNovaFails(max, s, why, speak, live)
    case StartsOnBackup(why, startCause, speak) => OnStartsOnBackup(s, why, startCause, speak)
    case SwitchOn(why) => OnSwitchOn(s, why)
    case SwitchOff => OnSwitchOff(s)
    case LanguageOn(why) => OnLanguageOn(s, why)
    case LanguageOff(switchReason) => OnLanguageOff(s, switchReason)
    case SessionStarts(now) => OnSessionStarts(s, now)
    case Resets => OnResets(s)
    case TimerFires(live) => OnTimerFires(max, s, live)
    case Answers(id, outcome, now) => OnAnswers(max, s, id, outcome, now)
    case PollTicks(ready) => OnPollTicks(s, ready)
  }

  function Run(max: nat, s: State, es: seq<Event>): State
    decreases |es|
  {
    if es == [] then s else Run(max, Step(max, s, es[0]), es[1..])
  }

  // ---- What every interleaving keeps ------------------------------------------------------------------

  /** How the side, the cause, the timers and the count go together. */
  predicate Shape(max: nat, s: State) {
    && (s.timer.Some? ==> s.side.Backup? && !s.Held())
    && (s.Held() ==> s.side.Backup?)
    && (s.cause.None? <==> s.side.Nova?)
    && (s.poll <==> s.side.Returning?)
    && s.attempts <= max
  }

  ghost predicate Tokens(s: State) {
    && (forall id :: id in s.outstanding ==> id < s.started && s.outstanding[id].gen <= s.generation)
    && (forall id :: s.IsCurrent(id) ==> s.side.Backup? && !s.Held() && s.timer.None?)
    && (forall id, other :: s.IsCurrent(id) && s.IsCurrent(other) ==> id == other)
  }

  ghost predicate Inv(max: nat, s: State) {
    Shape(max, s) && Tokens(s)
  }

  lemma StepKeepsShape(max: nat, s: State, e: Event)
    requires Inv(max, s)
    ensures Shape(max, Step(max, s, e))
  {
    match e
    case Answers(id, _, _) => assert s.IsCurrent(id) ==> s.timer.None?;
    case _ =>
  }

  /** A generation nothing outstanding was started with has no current attempt. */
  lemma BumpHasNoCurrent(s: State, t: State)
    requires Tokens(s) && t.outstanding == s.outstanding
    ensures t.generation == s.generation + 1 ==> forall id :: !t.IsCurrent(id)
    ensures t.generation == s.generation ==> forall id :: t.IsCurrent(id) == s.IsCurrent(id)
  {
    forall id ensures t.generation == s.generation + 1 ==> !t.IsCurrent(id) {
      assert id in s.outstanding ==> s.outstanding[id].gen <= s.generation;
    }
  }

  lemma TimerKeepsTokens(max: nat, s: State, live: bool)
    requires Tokens(s) && s.timer.Some?
    ensures Tokens(OnTimerFires(max, s, live))
  {
    var t := OnTimerFires(max, s, live);
    forall id | t.IsCurrent(id) ensures id == s.started && MayAttempt(max, s.(timer := None), live) {
      assert !s.IsCurrent(id);
    }
  }

  lemma AnswerKeepsTokens(max: nat, s: State, id: nat, outcome: Outcome, now: int)
    requires Tokens(s) && id in s.outstanding
    ensures Tokens(OnAnswers(max, s, id, outcome, now))
  {
    var t := OnAnswers(max, s, id, outcome, now);
    assert t.outstanding == s.outstanding - {id} && t.generation == s.generation && t.started == s.started;
    forall other | t.IsCurrent(other) ensures s.IsCurrent(other) && !s.IsCurrent(id) {
      assert other != id && s.IsCurrent(other);
    }
  }

  lemma StepKeepsInv(max: nat, s: State, e: Event)
    requires Inv(max, s)
    ensures Inv(max, Step(max, s, e))
  {
    StepKeepsShape(max, s, e);
    var t := Step(max, s, e);
    if Enabled(s, e) {
      match e
      case TimerFires(live) => TimerKeepsTokens(max, s, live);
      case Answers(id, outcome, now) => AnswerKeepsTokens(max, s, id, outcome, now);
      case _ => BumpHasNoCurrent(s, t);
    }
  }

  /** In every interleaving the generation is a complete cancellation token: an outstanding attempt of the
      current generation exists at most once, and only on an unheld backup with no retry timer armed. */
  lemma {:induction false} RunKeepsInv(max: nat, s: State, es: seq<Event>)
    requires Inv(max, s)
    ensures Inv(max, Run(max, s, es))
    decreases |es|
  {
    if es != [] {
      StepKeepsInv(max, s, es[0]);
      RunKeepsInv(max, Step(max, s, es[0]), es[1..]);
    }
  }

  lemma ReachedKeepsInv(max: nat, es: seq<Event>)
    ensures Inv(max, Run(max, INITIAL, es))
  {
    RunKeepsInv(max, INITIAL, es);
  }
}
