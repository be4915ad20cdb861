/** The failover controller of one side of a call: its methods are the steps of `Failover`. */
module FailoverControl {
  import opened Wrappers
  import opened Failover

  class FailoverController {
    const maxAttempts: nat
    var side: Side
    var cause: Option<Cause>
    var reason: string
    var attempts: int
    var generation: nat
    var attemptTimer: Option<int>
    var attemptInFlight: bool
    var handoverTimer: bool
    var returningSince: int
    // The suspended attempts, and the calls made so far.
    var outstanding: map<nat, Attempt>
    var started: nat
    var calls: seq<Call>

    ghost function View(): State
      reads this
    {
      State(side, cause, reason, attempts, generation, attemptTimer, attemptInFlight, handoverTimer, returningSince,
            outstanding, started, calls)
    }

    constructor (max: nat)
      ensures View() == INITIAL && maxAttempts == max
    {
      maxAttempts := max;
      side, cause, reason, attempts, generation := Nova, None, "", 0, 0;
      attemptTimer, attemptInFlight, handoverTimer, returningSince := None, false, false, 0;
      outstanding, started, calls := map[], 0, [];
    }

    predicate IsHeld()
      reads this
    {
      cause == Some(Switch) || cause == Some(Language)
    }

    method Call(c: Call)
      modifies this`calls
      ensures View() == Called(old(View()), c)
    {
      calls := calls + [c];
    }

    method EnterBackup(newReason: string, newCause: Cause, speakInProgress: bool)
      modifies this
      ensures View() == EnteringBackup(old(View()), newReason, newCause, speakInProgress)
    {
      var from := side;
      handoverTimer := false;
      side := Backup;
      reason := newReason;
      cause := Some(newCause);
      Call(LeaveNova(newReason, newCause, from, speakInProgress && from == Nova));
    }

    method BeginReturning(now: int)
      modifies this
      ensures View() == BeginningReturn(old(View()), now)
    {
      side := Returning;
      returningSince := now;
      handoverTimer := true;
    }

    method NovaFailed(why: string, speakInProgress: bool, callLive: bool) returns (switched: bool)
      modifies this
      ensures View() == OnNovaFails(maxAttempts, old(View()), why, speakInProgress, callLive)
      ensures switched <==> old(side) != Backup && side == Backup
    {
      if side == Backup {
        return false;
      }
      if !callLive {
        return false;
      }
      EnterBackup(why, Failure, speakInProgress);
      Call(NovaUnhealthy);
      if attempts < maxAttempts {
        attemptTimer := Some(BackoffMs(attempts + 1));
      }
      return true;
    }

    method StartOnBackup(why: string, startCause: Cause, speakInProgress: bool)
      modifies this
      ensures View() == OnStartsOnBackup(old(View()), why, startCause, speakInProgress)
    {
      generation := generation + 1;
      attemptTimer := None;
      attempts := 0;
      EnterBackup(why, startCause, speakInProgress);
      if !IsHeld() {
        attemptTimer := Some(BackoffMs(1));
      }
    }

    method SwitchOn(why: string)
      modifies this
      ensures View() == OnSwitchOn(old(View()), why)
    {
      if side == Backup && IsHeld() {
        return;
      }
      generation := generation + 1;
      attemptTimer := None;
      if side == Backup {
        cause := Some(Switch);
        reason := why;
        return;
      }
      EnterBackup(why, Switch, true);
    }

    method SwitchOff()
      modifies this
      ensures View() == OnSwitchOff(old(View()))
    {
      if side != Backup || cause != Some(Switch) {
        return;
      }
      generation := generation + 1;
      cause := Some(Failure);
      reason := SWITCH_OFF_REASON;
      attempts := 0;
      attemptTimer := Some(0);
    }

    method LanguageOn(why: string)
      modifies this
      ensures View() == OnLanguageOn(old(View()), why)
    {
      if side == Backup && cause == Some(Language) {
        if reason != why {
          reason := why;
        }
        return;
      }
      generation := generation + 1;
      attemptTimer := None;
      if side == Backup {
        cause := Some(Language);
        reason := why;
        return;
      }
      EnterBackup(why, Language, false);
    }

    method LanguageOff(switchReason: Option<string>)
      modifies this
      ensures View() == OnLanguageOff(old(View()), switchReason)
    {
      if side != Backup || cause != Some(Language) {
        return;
      }
      generation := generation + 1;
      if switchReason.Some? && switchReason.value != "" {
        cause := Some(Switch);
        reason := switchReason.value;
        return;
      }
      cause := Some(Resume);
      reason := RESUME_REASON;
      attempts := 0;
      attemptTimer := Some(0);
    }

    method NovaSessionStarted(now: int)
      modifies this
      ensures View() == OnSessionStarts(old(View()), now)
    {
      if side == Nova || side == Returning {
        return;
      }
      if IsHeld() {
        Call(AbandonNova);
        return;
      }
      generation := generation + 1;
      attemptTimer := None;
      Call(NovaHealthy);
      BeginReturning(now);
    }

    method Reset()
      modifies this
      ensures View() == OnResets(old(View()))
    {
      generation := generation + 1;
      attemptTimer := None;
      handoverTimer := false;
      side := Nova;
      cause := None;
      reason := "";
      attempts := 0;
      attemptInFlight := false;
    }

    /** The retry timer's callback, up to the point where the attempt waits for startNova. */
    method AttemptTimerFires(callLive: bool)
      requires attemptTimer.Some?
      modifies this
      ensures View() == OnTimerFires(maxAttempts, old(View()), callLive)
    {
      attemptTimer := None;
      if side != Backup || IsHeld() || attemptInFlight {
        return;
      }
      if !callLive {
        return;
      }
      if attempts >= maxAttempts {
        return;
      }
      attempts := attempts + 1;
      attemptInFlight := true;
      outstanding := outstanding[started := Attempt(generation, attempts)];
      started := started + 1;
      Call(StartNova(attempts));
    }

    /** The rest of a suspended attempt, once startNova has answered it. */
    method AttemptAnswered(id: nat, outcome: Outcome, now: int)
      requires id in outstanding
      modifies this
      ensures View() == OnAnswers(maxAttempts, old(View()), id, outcome, now)
    {
      var gen := outstanding[id].gen;
      outstanding := outstanding - {id};
      attemptInFlight := false;
      if outcome == Busy {
        attempts := attempts - 1;
        if gen == generation && side == Backup && !IsHeld() {
          attemptTimer := Some(BUSY_RETRY_MS);
        }
        return;
      }
      if gen != generation || side != Backup || IsHeld() {
        if outcome == Started {
          Call(AbandonNova);
        }
        return;
      }
      if outcome == Started {
        Call(NovaHealthy);
        BeginReturning(now);
        return;
      }
      Call(NovaUnhealthy);
      if cause == Some(Resume) {
        cause := Some(Failure);
      }
      if attempts < maxAttempts {
        attemptTimer := Some(BackoffMs(attempts));
      }
    }

    method HandoverPollTicks(ready: bool)
      requires handoverTimer
      modifies this
      ensures View() == OnPollTicks(old(View()), ready)
    {
      if side != Returning {
        handoverTimer := false;
        return;
      }
      if !ready {
        return;
      }
      handoverTimer := false;
      side := Nova;
      cause := None;
      reason := "";
      attempts := 0;
      Call(AfterHandover);
    }
  }
}
