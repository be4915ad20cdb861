/** What one event makes of a side, told by what can be seen of it: the calls made on the operations, the retry
    timer and the times.
 */
module FailoverMoves {
  import opened Wrappers
  import opened Failover
  import opened FailoverSessions

  // ---- The calls --------------------------------------------------------------------------------------

  /** The side goes to the backup: from elsewhere, or once more at a start. */
  predicate GoesToBackup(s: State, t: State, e: Event) {
    (!s.side.Backup? && t.side.Backup?) || e.StartsOnBackup?
  }

  /** What was under way may be spoken: the switch asks for it, a failure and a start say. */
  predicate AsksToSpeak(e: Event) {
    e.SwitchOn? || (e.NovaFails? && e.speakInProgress) || (e.StartsOnBackup? && e.speakInProgress)
  }

  predicate CurrentAttemptFails(s: State, e: Event) {
    e.Answers? && s.IsCurrent(e.id) && e.outcome.NotStarted?
  }

  /** The calls the move from `s` to `t` takes. */
  function CallsOf(s: State, t: State, e: Event): seq<Call> {
    if GoesToBackup(s, t, e) && t.cause.Some? then
      [LeaveNova(t.reason, t.cause.value, s.side, AsksToSpeak(e) && s.side.Nova?)] +
      (if e.NovaFails? then [NovaUnhealthy] else [])
    else if StopsSession(s, e) then [AbandonNova]
    else if !s.side.Returning? && t.side.Returning? then [NovaHealthy]
    else if CurrentAttemptFails(s, e) then [NovaUnhealthy]
    else if !s.side.Nova? && t.side.Nova? && !e.Resets? then [AfterHandover]
    else if t.started > s.started then [StartNova(t.attempts)]
    else []
  }

  lemma AnswerMakesItsCalls(max: nat, s: State, e: Event)
    requires Inv(max, s) && e.Answers? && e.id in s.outstanding
    ensures Step(max, s, e).calls == s.calls + CallsOf(s, Step(max, s, e), e)
  {
    assert s.IsCurrent(e.id) ==> s.side.Backup? && !s.Held();
    assert Step(max, s, e).started == s.started;
  }

  lemma FailureMakesItsCalls(max: nat, s: State, e: Event)
    requires Shape(max, s) && e.NovaFails?
    ensures Step(max, s, e).calls == s.calls + CallsOf(s, Step(max, s, e), e)
  {
  }

  lemma HoldMakesItsCalls(max: nat, s: State, e: Event)
    requires Shape(max, s) && (e.SwitchOn? || e.LanguageOn?)
    ensures Step(max, s, e).calls == s.calls + CallsOf(s, Step(max, s, e), e)
  {
  }

  lemma BackupStartMakesItsCalls(max: nat, s: State, e: Event)
    requires e.StartsOnBackup?
    ensures Step(max, s, e).calls == s.calls + CallsOf(s, Step(max, s, e), e)
  {
  }

  /** Every event calls exactly what its move takes: leaving Nova Sonic once, with the new reason and cause, on
      the way to the backup; stopping a session that is not wanted; telling that Nova Sonic is well on the way
      back and unwell when it failed; the handover's clean-up; and starting an attempt under its number. */
  lemma CallsTellTheMove(max: nat, s: State, e: Event)
    requires Inv(max, s)
    ensures Step(max, s, e).calls == s.calls + CallsOf(s, Step(max, s, e), e)
  {
    if e.Answers? && e.id in s.outstanding {
      AnswerMakesItsCalls(max, s, e);
    } else if e.NovaFails? {
      FailureMakesItsCalls(max, s, e);
    } else if e.SwitchOn? || e.LanguageOn? {
      HoldMakesItsCalls(max, s, e);
    } else if e.StartsOnBackup? {
      BackupStartMakesItsCalls(max, s, e);
    }
  }

  // ---- Where the side goes ----------------------------------------------------------------------------

  /** Exactly these events take a side off Nova Sonic, or off the way back to it. */
  lemma LeavesExactly(max: nat, s: State, e: Event)
    requires Inv(max, s) && !s.side.Backup?
    ensures Step(max, s, e).side.Backup? <==>
            (e.NovaFails? && e.live) || e.StartsOnBackup? || e.SwitchOn? || e.LanguageOn?
  {
    assert e.Answers? ==> !s.IsCurrent(e.id);
  }

  /** Exactly these events begin the return: a session of a side that nothing holds, and an attempt that counts. */
  lemma ReturnsExactly(max: nat, s: State, e: Event)
    requires Inv(max, s) && s.side.Backup?
    ensures Step(max, s, e).side.Returning? <==>
            (e.SessionStarts? && !s.Held()) || (e.Answers? && s.IsCurrent(e.id) && e.outcome.Started?)
    ensures Step(max, s, e).side.Returning? ==> Step(max, s, e).returningSince == e.now
  {
  }

  /** A side on its way back stays there until it is ready, and keeps the time it began. */
  lemma ReturnGoesOn(max: nat, s: State, e: Event)
    requires Inv(max, s) && s.side.Returning?
    ensures var t := Step(max, s, e);
            && t.returningSince == s.returningSince
            && (t.side.Returning? <==> !Step(max, s, e).side.Backup? && !e.Resets? && e != PollTicks(true))
  {
    assert e.Answers? ==> !s.IsCurrent(e.id);
  }

  /** After a reset the side is as at the start, but for what is still outstanding, which no longer counts. */
  lemma ResetStartsAnew(max: nat, s: State)
    requires Inv(max, s)
    ensures var t := Step(max, s, Resets);
            && t == INITIAL.(generation := t.generation, returningSince := t.returningSince,
                             outstanding := s.outstanding, started := s.started, calls := s.calls)
            && forall id :: !t.IsCurrent(id)
  {
    BumpHasNoCurrent(s, Step(max, s, Resets));
  }

  /** Why the side is where it is after an event, as the user is told. */
  function WhyAfter(s: State, e: Event): (Option<Cause>, string) {
    match e
    case NovaFails(why, _, live) => if live && !s.side.Backup? then (Some(Failure), why) else (s.cause, s.reason)
    case StartsOnBackup(why, cause, _) => (Some(cause), why)
    case SwitchOn(why) => if s.Held() then (s.cause, s.reason) else (Some(Switch), why)
    case SwitchOff => if s.cause == Some(Switch) then (Some(Failure), "switch turned off") else (s.cause, s.reason)
    case LanguageOn(why) => (Some(Language), why)
    case LanguageOff(switchReason) =>
      if s.cause != Some(Language) then (s.cause, s.reason)
      else if switchReason.Some? && switchReason.value != "" then (Some(Switch), switchReason.value)
      else (Some(Resume), "the language is supported by Nova Sonic again")
    case Answers(_, _, _) =>
      if CurrentAttemptFails(s, e) && s.cause == Some(Resume) then (Some(Failure), s.reason) else (s.cause, s.reason)
    case PollTicks(ready) => if ready && s.side.Returning? then (None, "") else (s.cause, s.reason)
    case Resets => (None, "")
    case _ => (s.cause, s.reason)
  }

  lemma WhyIsAsTold(max: nat, s: State, e: Event)
    requires Inv(max, s)
    ensures (Step(max, s, e).cause, Step(max, s, e).reason) == WhyAfter(s, e)
  {
    assert e.Answers? ==> (s.IsCurrent(e.id) ==> s.side.Backup? && !s.Held());
  }

  // ---- The retry timer --------------------------------------------------------------------------------

  /** The delay an event arms the retry timer with, if it arms it: at once when a hold ends, a second later when
      another restart was under way, otherwise longer with every attempt made. */
  function DelayAfter(max: nat, s: State, e: Event): Option<int> {
    match e
    case SwitchOff => if s.cause == Some(Switch) then Some(0) else None
    case LanguageOff(reason) =>
      if s.cause == Some(Language) && (reason.None? || reason.value == "") then Some(0) else None
    case StartsOnBackup(_, cause, _) => if cause == Switch || cause == Language then None else Some(1500)
    case NovaFails(_, _, live) =>
      if live && !s.side.Backup? && s.attempts < max then Some(1500 * (s.attempts + 1)) else None
    case Answers(id, outcome, _) =>
      if !s.IsCurrent(id) || outcome.Started? then None
      else if outcome.Busy? then Some(1000)
      else if s.attempts < max then Some(1500 * s.attempts) else None
    case _ => None
  }

  /** The events that leave a timer as it is. */
  predicate LeavesTimer(s: State, e: Event) {
    match e
    case NovaFails(_, _, _) => s.side.Backup?
    case SwitchOn(_) => s.Held()
    case SwitchOff => true
    case LanguageOn(_) => s.cause == Some(Language)
    case LanguageOff(_) => true
    case SessionStarts(_) => !s.side.Backup? || s.Held()
    case Answers(_, _, _) => true
    case PollTicks(_) => true
    case _ => false
  }

  /** The timer after every event: armed anew with the delay above, kept, or cleared. */
  lemma TimerIsAsTold(max: nat, s: State, e: Event)
    requires Inv(max, s)
    ensures var t := Step(max, s, e);
            t.timer == if DelayAfter(max, s, e).Some? then DelayAfter(max, s, e)
                       else if LeavesTimer(s, e) then s.timer else None
  {
  }

  /** An attempt starts exactly when the timer fires on a live call for a side that is on the backup, not held,
      with no attempt in flight and attempts left; it is the next one and counts. */
  lemma AttemptStartsExactly(max: nat, s: State, e: Event)
    requires Inv(max, s)
    ensures var t := Step(max, s, e);
            && (t.started > s.started <==>
                e == TimerFires(true) && s.timer.Some? && !s.inFlight && s.attempts < max)
            && (t.started > s.started ==>
                t.started == s.started + 1 && t.IsCurrent(s.started) && t.attempts == s.attempts + 1 && t.inFlight)
            && (t.started == s.started ==>
                (t.inFlight <==> s.inFlight && !e.Resets? && !(e.Answers? && e.id in s.outstanding)))
  {
  }
}
