/** One side's retrying of Nova Sonic, over whole runs of its controller: when it goes on, and what the attempt
    count counts.
 */
module FailoverRetries {
  import opened Wrappers
  import opened Failover

  /** A side on the backup with attempts left is still trying: a timer is armed or an attempt counts. */
  ghost predicate Trying(max: nat, s: State) {
    s.side.Backup? && !s.Held() && s.attempts < max ==> s.timer.Some? || exists id :: s.IsCurrent(id)
  }

  /** The two ways the retrying can stall: the timer fires while an attempt (an old one) is still in flight
      or the call is not live; or an old attempt's "busy" answer gives an exhausted side an attempt back. */
  ghost predicate Stalls(max: nat, s: State, e: Event) {
    match e
    case TimerFires(live) => s.timer.Some? && s.attempts < max && (s.inFlight || !live)
    case Answers(id, outcome, _) =>
      && id in s.outstanding && outcome.Busy? && s.outstanding[id].gen != s.generation
      && s.side.Backup? && !s.Held() && s.attempts == max && s.timer.None? && (forall other :: !s.IsCurrent(other))
    case _ => false
  }

  lemma TimerKeepsTrying(max: nat, s: State, live: bool)
    requires Inv(max, s) && s.timer.Some?
    ensures Trying(max, OnTimerFires(max, s, live)) <==> !Stalls(max, s, TimerFires(live))
  {
    var t := OnTimerFires(max, s, live);
    if MayAttempt(max, s.(timer := None), live) {
      assert t.IsCurrent(s.started);
    } else {
      forall id ensures !t.IsCurrent(id) {
        assert !s.IsCurrent(id);
      }
    }
  }

  lemma AnswerKeepsTrying(max: nat, s: State, id: nat, outcome: Outcome, now: int)
    requires Inv(max, s) && Trying(max, s) && id in s.outstanding
    ensures Trying(max, OnAnswers(max, s, id, outcome, now)) <==> !Stalls(max, s, Answers(id, outcome, now))
  {
    var t := OnAnswers(max, s, id, outcome, now);
    forall other ensures t.IsCurrent(other) <==> s.IsCurrent(other) && other != id {
    }
  }

  /** Exactly when an event keeps a side trying. */
  lemma KeepsTryingExactlyUnlessStalled(max: nat, s: State, e: Event)
    requires Inv(max, s) && Trying(max, s)
    ensures Trying(max, Step(max, s, e)) <==> !Stalls(max, s, e)
  {
    if Enabled(s, e) {
      match e
      case TimerFires(live) => TimerKeepsTrying(max, s, live);
      case Answers(id, outcome, now) => AnswerKeepsTrying(max, s, id, outcome, now);
      case _ => BumpHasNoCurrent(s, Step(max, s, e));
    }
  }

  /** What the starts amount to since the count was last zeroed: those not answered "busy", and the "busy"
      answers to starts from before. */
  datatype Tally = Tally(counted: set<nat>, late: nat)

  predicate Zeroes(s: State, e: Event) {
    match e
    case StartsOnBackup(_, _, _) => true
    case Resets => true
    case SwitchOff => s.side.Backup? && s.cause == Some(Switch)
    case LanguageOff(switchReason) =>
      s.side.Backup? && s.cause == Some(Language) && (switchReason.None? || switchReason.value == "")
    case PollTicks(ready) => s.poll && s.side.Returning? && ready
    case _ => false
  }

  function Tallied(max: nat, s: State, e: Event, y: Tally): Tally {
    if Zeroes(s, e) then Tally({}, 0)
    else if Step(max, s, e).started > s.started then y.(counted := y.counted + {s.started})
    else if e.Answers? && e.id in s.outstanding && e.outcome.Busy? then
      if e.id in y.counted then y.(counted := y.counted - {e.id}) else y.(late := y.late + 1)
    else y
  }

  function RunTally(max: nat, s: State, es: seq<Event>, y: Tally): Tally
    decreases |es|
  {
    if es == [] then y else RunTally(max, Step(max, s, es[0]), es[1..], Tallied(max, s, es[0], y))
  }

  ghost predicate Agrees(s: State, y: Tally) {
    && (forall id :: id in y.counted ==> id < s.started)
    && s.attempts == |y.counted| - y.late
  }

  lemma OtherStepsAndTheCount(max: nat, s: State, e: Event)
    requires !e.TimerFires? && !e.Answers?
    ensures var t := Step(max, s, e); t.started == s.started && t.attempts == (if Zeroes(s, e) then 0 else s.attempts)
  {
  }

  lemma TimerAndTheCount(max: nat, s: State, live: bool)
    ensures var t := OnTimerFires(max, s, live); t.started - s.started == t.attempts - s.attempts
    ensures s.started <= OnTimerFires(max, s, live).started <= s.started + 1
  {
  }

  lemma AnswerAndTheCount(max: nat, s: State, id: nat, outcome: Outcome, now: int)
    requires id in s.outstanding
    ensures var t := OnAnswers(max, s, id, outcome, now);
            t.started == s.started && t.attempts == (if outcome.Busy? then s.attempts - 1 else s.attempts)
  {
  }

  lemma StepKeepsTally(max: nat, s: State, e: Event, y: Tally)
    requires Inv(max, s) && Agrees(s, y)
    ensures Agrees(Step(max, s, e), Tallied(max, s, e, y))
  {
    if e.TimerFires? {
      TimerAndTheCount(max, s, e.live);
      assert s.started !in y.counted;
    } else if e.Answers? {
      if e.id in s.outstanding {
        AnswerAndTheCount(max, s, e.id, e.outcome, e.now);
      }
    } else {
      OtherStepsAndTheCount(max, s, e);
    }
  }

  /** The attempt count is exact in every interleaving: the starts since the last zeroing that were not
      answered "busy", less one for each "busy" answer to an older start. It never exceeds the maximum. */
  lemma {:induction false} AttemptsAreCounted(max: nat, s: State, es: seq<Event>, y: Tally)
    requires Inv(max, s) && Agrees(s, y)
    ensures Agrees(Run(max, s, es), RunTally(max, s, es, y))
    ensures Run(max, s, es).attempts <= max
    decreases |es|
  {
    if es != [] {
      StepKeepsTally(max, s, es[0], y);
      StepKeepsInv(max, s, es[0]);
      AttemptsAreCounted(max, Step(max, s, es[0]), es[1..], Tallied(max, s, es[0], y));
    }
  }

  /** An attempt that found another restart under way gives back an attempt nobody has counted since the
      count was last zeroed: what the "busy" branch does not look at. */
  predicate GivesBackTooMany(s: State, e: Event) {
    e.Answers? && e.id in s.outstanding && e.outcome.Busy? && s.attempts == 0
  }

  /** Exactly when an event takes the count below zero. */
  lemma StaysCountingExactly(max: nat, s: State, e: Event)
    requires Inv(max, s) && s.attempts >= 0
    ensures Step(max, s, e).attempts >= 0 <==> !GivesBackTooMany(s, e)
  {
    if e.Answers? && e.id in s.outstanding {
      AnswerAndTheCount(max, s, e.id, e.outcome, e.now);
    } else if e.TimerFires? {
      TimerAndTheCount(max, s, e.live);
    } else if !e.Answers? {
      OtherStepsAndTheCount(max, s, e);
    }
  }

  /** The count is never negative during the run. */
  predicate StaysNonNegative(max: nat, s: State, es: seq<Event>)
    decreases |es|
  {
    s.attempts >= 0 && (es == [] || StaysNonNegative(max, Step(max, s, es[0]), es[1..]))
  }

  predicate NeverGivesBackTooMany(max: nat, s: State, es: seq<Event>)
    decreases |es|
  {
    es == [] || (!GivesBackTooMany(s, es[0]) && NeverGivesBackTooMany(max, Step(max, s, es[0]), es[1..]))
  }

  /** Exactly which runs never take the count below zero: those in which no "busy" answer finds it at zero.
      Where it ends is decided by the tally: below zero if more late answers than counted starts remain. */
  lemma {:induction false} CountStaysNonNegativeExactly(max: nat, s: State, es: seq<Event>, y: Tally)
    requires Inv(max, s) && Agrees(s, y) && s.attempts >= 0
    ensures StaysNonNegative(max, s, es) <==> NeverGivesBackTooMany(max, s, es)
    ensures var z := RunTally(max, s, es, y); Run(max, s, es).attempts >= 0 <==> z.late <= |z.counted|
    decreases |es|
  {
    AttemptsAreCounted(max, s, es, y);
    if es != [] {
      var t := Step(max, s, es[0]);
      StaysCountingExactly(max, s, es[0]);
      StepKeepsTally(max, s, es[0], y);
      StepKeepsInv(max, s, es[0]);
      if t.attempts >= 0 {
        CountStaysNonNegativeExactly(max, t, es[1..], Tallied(max, s, es[0], y));
      }
    }
  }

  /** No attempt is outstanding whenever the generation moves on, and timers fire on a live call only. */
  predicate Orderly(max: nat, s: State, es: seq<Event>)
    decreases |es|
  {
    es == [] ||
    (var t := Step(max, s, es[0]);
     && (t.generation != s.generation ==> s.outstanding == map[])
     && (es[0].TimerFires? && s.timer.Some? ==> es[0].live)
     && Orderly(max, t, es[1..]))
  }

  /** What an orderly run keeps beside Inv: everything outstanding counts, and the flag tells the truth. */
  ghost predicate Tidy(s: State, y: Tally) {
    && (forall id :: id in s.outstanding ==> s.IsCurrent(id) && id in y.counted)
    && (s.inFlight <==> s.outstanding != map[])
    && y.late == 0
  }

  /** With no attempt that counts, an orderly run has none outstanding. */
  lemma NothingOutstanding(s: State, y: Tally)
    requires Tidy(s, y) && forall id :: !s.IsCurrent(id)
    ensures s.outstanding == map[]
  {
  }

  lemma TimerKeepsTidy(max: nat, s: State, live: bool, y: Tally)
    requires Inv(max, s) && Agrees(s, y) && Tidy(s, y) && s.timer.Some? && live
    ensures Tidy(OnTimerFires(max, s, live), Tallied(max, s, TimerFires(live), y)) && !s.inFlight
  {
    NothingOutstanding(s, y);
  }

  lemma AnswerKeepsTidy(max: nat, s: State, id: nat, outcome: Outcome, now: int, y: Tally)
    requires Inv(max, s) && Tidy(s, y) && id in s.outstanding
    ensures OnAnswers(max, s, id, outcome, now).outstanding == map[]
    ensures Tidy(OnAnswers(max, s, id, outcome, now), Tallied(max, s, Answers(id, outcome, now), y))
  {
    assert s.IsCurrent(id);
    forall other | other in s.outstanding ensures other == id {
      assert s.IsCurrent(other);
    }
    assert OnAnswers(max, s, id, outcome, now).outstanding == s.outstanding - {id} == map[];
  }

  lemma OthersKeepTidy(max: nat, s: State, e: Event, y: Tally)
    requires Inv(max, s) && Tidy(s, y) && Orderly(max, s, [e]) && !e.TimerFires? && !e.Answers?
    ensures Tidy(Step(max, s, e), Tallied(max, s, e, y))
  {
    var t := Step(max, s, e);
    if e.PollTicks? && s.side.Returning? {
      NothingOutstanding(s, y);
    }
    assert t.outstanding == s.outstanding;
    assert t.generation == s.generation ==> forall id :: s.IsCurrent(id) ==> t.IsCurrent(id);
  }

  lemma StepKeepsTidy(max: nat, s: State, e: Event, y: Tally)
    requires Inv(max, s) && Agrees(s, y) && Tidy(s, y) && Orderly(max, s, [e])
    ensures Tidy(Step(max, s, e), Tallied(max, s, e, y))
    ensures !Stalls(max, s, e)
  {
    if !e.TimerFires? && !e.Answers? {
      OthersKeepTidy(max, s, e, y);
    } else if e.TimerFires? && Enabled(s, e) {
      TimerKeepsTidy(max, s, e.live, y);
    } else if Enabled(s, e) {
      AnswerKeepsTidy(max, s, e.id, e.outcome, e.now, y);
      assert s.IsCurrent(e.id);
    }
  }

  /** In an orderly run a side on the backup with attempts left never stops trying, and the attempt count
      is the number of starts since the last zeroing that were not answered "busy". */
  lemma {:induction false} OrderlyRunsKeepTrying(max: nat, s: State, es: seq<Event>, y: Tally)
    requires Inv(max, s) && Agrees(s, y) && Tidy(s, y) && Trying(max, s) && Orderly(max, s, es)
    ensures Trying(max, Run(max, s, es))
    ensures Tidy(Run(max, s, es), RunTally(max, s, es, y))
    ensures Run(max, s, es).attempts == |RunTally(max, s, es, y).counted|
    decreases |es|
  {
    if es != [] {
      StepKeepsTidy(max, s, es[0], y);
      KeepsTryingExactlyUnlessStalled(max, s, es[0]);
      StepKeepsTally(max, s, es[0], y);
      StepKeepsInv(max, s, es[0]);
      OrderlyRunsKeepTrying(max, Step(max, s, es[0]), es[1..], Tallied(max, s, es[0], y));
    }
  }

  /** An attempt starts, and the switch goes on and off before it is answered. */
  function UnderTheSwitch(max: nat, why: string, on: string): State {
    Run(max, INITIAL, [NovaFails(why, true, true), TimerFires(true), SwitchOn(on), SwitchOff])
  }

  lemma SwitchLeavesTheAttempt(max: nat, why: string, on: string)
    requires max > 0
    ensures var s := UnderTheSwitch(max, why, on);
            && s.outstanding == map[0 := Attempt(0, 1)] && s.generation == 2 && s.timer == Some(0) && s.inFlight
            && s.side.Backup? && s.cause == Some(Failure) && s.attempts == 0
  {
    var s1 := Step(max, INITIAL, NovaFails(why, true, true));
    var s2 := Step(max, s1, TimerFires(true));
    var s3 := Step(max, s2, SwitchOn(on));
    var es := [NovaFails(why, true, true), TimerFires(true), SwitchOn(on), SwitchOff];
    assert s2.outstanding == map[0 := Attempt(0, 1)] && s2.inFlight && s2.attempts == 1 && s2.generation == 0;
    assert Run(max, INITIAL, es) == Run(max, s1, es[1..]) == Run(max, s2, es[1..][1..])
        == Run(max, s3, es[1..][1..][1..]) == Step(max, s3, SwitchOff);
  }

  /** A retry is lost for good: nothing is outstanding or armed although all attempts are left. */
  lemma RetryCanBeLost(max: nat, why: string, on: string)
    requires max > 0
    ensures var s := Step(max, Step(max, UnderTheSwitch(max, why, on), TimerFires(true)), Answers(0, NotStarted, 0));
            && s.side.Backup? && !s.Held() && s.outstanding == map[] && s.timer.None? && s.attempts == 0
            && !Trying(max, s)
  {
    SwitchLeavesTheAttempt(max, why, on);
  }

  /** The attempt count can go below zero. */
  lemma AttemptsCanBeNegative(max: nat, why: string, on: string)
    requires max > 0
    ensures Step(max, UnderTheSwitch(max, why, on), Answers(0, Busy, 0)).attempts == -1
  {
    SwitchLeavesTheAttempt(max, why, on);
  }
}
