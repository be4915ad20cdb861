/** What holds a side on the backup, and what lets it return, over whole runs of its controller. */
module FailoverHolds {
  import opened Wrappers
  import opened Failover
  import opened FailoverSessions

  /** The events that may end a hold by the language. */
  predicate MayEndLanguageHold(e: Event) {
    e.LanguageOff? || e.StartsOnBackup? || e.Resets?
  }

  /** No startNova call has been made since. */
  ghost predicate NoStartsSince(s: State, t: State) {
    s.calls <= t.calls && forall i :: |s.calls| <= i < |t.calls| ==> !t.calls[i].StartNova?
  }

  /** The side is held at the start of the run and after each of its events. */
  predicate StaysHeld(max: nat, s: State, es: seq<Event>)
    decreases |es|
  {
    s.Held() && (es == [] || StaysHeld(max, Step(max, s, es[0]), es[1..]))
  }

  lemma HeldStepStaysOffNova(max: nat, s: State, e: Event)
    requires Inv(max, s) && s.Held() && Step(max, s, e).Held()
    ensures var t := Step(max, s, e); t.started == s.started && NoStartsSince(s, t) && Entered(s, t) == 0
  {
    match e
    case Answers(id, _, _) => assert !s.IsCurrent(id);
    case _ =>
  }

  /** For as long as the switch or the language holds a side it is on the backup with no retry timer armed,
      startNova is not called, and every session someone else or an old attempt started is stopped. */
  lemma {:induction false} HeldSideStaysOffNova(max: nat, s: State, es: seq<Event>)
    requires Inv(max, s) && StaysHeld(max, s, es)
    ensures var t := Run(max, s, es);
            && t.side.Backup? && t.timer.None? && t.started == s.started && NoStartsSince(s, t)
            && Count(t.calls, AbandonNova) == Count(s.calls, AbandonNova) + SessionsReported(max, s, es)
    decreases |es|
  {
    if es != [] {
      HeldStepStaysOffNova(max, s, es[0]);
      StepAccountsForSessions(max, s, es[0]);
      StepKeepsInv(max, s, es[0]);
      HeldSideStaysOffNova(max, Step(max, s, es[0]), es[1..]);
    }
  }

  lemma {:induction false} LanguageHoldLasts(max: nat, s: State, es: seq<Event>)
    requires Inv(max, s) && s.cause == Some(Language)
    requires forall e :: e in es ==> !MayEndLanguageHold(e)
    ensures var t := Run(max, s, es);
            t.side.Backup? && t.cause == Some(Language) && t.timer.None? && NoStartsSince(s, t)
    decreases |es|
  {
    if es != [] {
      var t := Step(max, s, es[0]);
      assert !MayEndLanguageHold(es[0]);
      assert es[0].Answers? ==> !s.IsCurrent(es[0].id);
      StepKeepsInv(max, s, es[0]);
      LanguageHoldLasts(max, t, es[1..]);
    }
  }

  /** The language outranks the switch: after languageOn nothing but languageOff, startOnBackup and reset
      changes the cause or takes the side off the backup, not even the switch going on and off. */
  lemma {:induction false} LanguageHoldOutranksTheSwitch(max: nat, s: State, es: seq<Event>, why: string)
    requires Inv(max, s)
    requires forall e :: e in es ==> !MayEndLanguageHold(e)
    ensures var t := Run(max, Step(max, s, LanguageOn(why)), es);
            t.side.Backup? && t.cause == Some(Language) && t.timer.None? && NoStartsSince(s, t)
  {
    StepKeepsInv(max, s, LanguageOn(why));
    LanguageHoldLasts(max, Step(max, s, LanguageOn(why)), es);
  }

  /** Nova Sonic is heard again only after a reset, or at a poll that found the side ready to hand back. */
  lemma WaysIntoNova(max: nat, es: seq<Event>, e: Event)
    ensures var s := Run(max, INITIAL, es);
            var t := Step(max, s, e);
            && (t.cause.None? <==> t.side.Nova?)
            && (t.poll <==> t.side.Returning?)
            && (!s.side.Nova? && t.side.Nova? <==>
                !s.side.Nova? && (e.Resets? || (e == PollTicks(true) && s.side.Returning?)))
  {
    ReachedKeepsInv(max, es);
    StepKeepsInv(max, Run(max, INITIAL, es), e);
  }

  // ---- Holds as the events tell them ------------------------------------------------------------------

  /** What the events alone say holds the side, and why. */
  datatype Hold = Free | BySwitch(why: string) | ByLanguage(why: string)

  function Told(h: Hold, e: Event): Hold {
    match e
    case SwitchOn(why) => if h.Free? then BySwitch(why) else h
    case SwitchOff => if h.BySwitch? then Free else h
    case LanguageOn(why) => ByLanguage(why)
    case LanguageOff(reason) =>
      if !h.ByLanguage? then h else if reason.Some? && reason.value != "" then BySwitch(reason.value) else Free
    case StartsOnBackup(why, cause, _) =>
      if cause == Switch then BySwitch(why) else if cause == Language then ByLanguage(why) else Free
    case Resets => Free
    case _ => h
  }

  function ToldAll(h: Hold, es: seq<Event>): Hold
    decreases |es|
  {
    if es == [] then h else ToldAll(Told(h, es[0]), es[1..])
  }

  predicate IsAsTold(s: State, h: Hold) {
    && (s.cause == Some(Switch) <==> h.BySwitch?)
    && (s.cause == Some(Language) <==> h.ByLanguage?)
    && (h.BySwitch? || h.ByLanguage? ==> s.reason == h.why)
  }

  lemma StepHoldsAsTold(max: nat, s: State, h: Hold, e: Event)
    requires Inv(max, s) && IsAsTold(s, h)
    ensures IsAsTold(Step(max, s, e), Told(h, e))
  {
    assert e.Answers? && s.Held() ==> !s.IsCurrent(e.id);
  }

  /** In every run the switch and the language hold the side exactly as the events say: the switch going on
      holds a side that nothing holds, the language holds any side, and each hold ends with its own event, with
      a start or with the call. A held side is on the backup, with no retry armed. */
  lemma {:induction false} HoldsAsTold(max: nat, s: State, h: Hold, es: seq<Event>)
    requires Inv(max, s) && IsAsTold(s, h)
    ensures IsAsTold(Run(max, s, es), ToldAll(h, es))
    ensures !ToldAll(h, es).Free? ==> Run(max, s, es).side.Backup? && Run(max, s, es).timer.None?
    decreases |es|
  {
    if es != [] {
      StepHoldsAsTold(max, s, h, es[0]);
      StepKeepsInv(max, s, es[0]);
      HoldsAsTold(max, Step(max, s, es[0]), Told(h, es[0]), es[1..]);
    }
  }

  /** The events that may end a hold by the switch. */
  predicate MayEndSwitchHold(e: Event) {
    e.SwitchOff? || e.LanguageOff? || e.StartsOnBackup? || e.Resets?
  }

  lemma {:induction false} HoldLasts(max: nat, s: State, es: seq<Event>)
    requires Inv(max, s) && s.Held()
    requires forall e :: e in es ==> !MayEndSwitchHold(e)
    ensures var t := Run(max, s, es); t.Held() && t.side.Backup? && t.timer.None? && NoStartsSince(s, t)
    decreases |es|
  {
    if es != [] {
      assert !MayEndSwitchHold(es[0]);
      assert es[0].Answers? ==> !s.IsCurrent(es[0].id);
      StepKeepsInv(max, s, es[0]);
      HoldLasts(max, Step(max, s, es[0]), es[1..]);
    }
  }

  /** The switch takes any side off Nova Sonic: from switchOn on, until an event that may end its hold, the side
      is held on the backup, with no retry armed and no startNova call. */
  lemma SwitchHoldsTheSide(max: nat, s: State, es: seq<Event>, why: string)
    requires Inv(max, s)
    requires forall e :: e in es ==> !MayEndSwitchHold(e)
    ensures var t := Run(max, Step(max, s, SwitchOn(why)), es);
            t.Held() && t.side.Backup? && t.timer.None? && NoStartsSince(s, t)
  {
    StepKeepsInv(max, s, SwitchOn(why));
    HoldLasts(max, Step(max, s, SwitchOn(why)), es);
  }

  /** A hold that ends by its own event lets the side try Nova Sonic at once, with all attempts left and none
      outstanding that counts; the language's hold goes over to the switch if that is on. */
  lemma HoldEndsWithARetry(max: nat, s: State, e: Event)
    requires Inv(max, s)
    requires (e.SwitchOff? && s.cause == Some(Switch)) || (e.LanguageOff? && s.cause == Some(Language))
    ensures var t := Step(max, s, e);
            if e.LanguageOff? && e.switchReason.Some? && e.switchReason.value != ""
            then t.Held() && t.cause == Some(Switch) && t.timer.None?
            else t.side.Backup? && !t.Held() && t.timer == Some(0) && t.attempts == 0 && forall id :: !t.IsCurrent(id)
  {
    BumpHasNoCurrent(s, Step(max, s, e));
  }
}
