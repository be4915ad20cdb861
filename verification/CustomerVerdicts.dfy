/** What each event means for a customer session's answers, for the audio on hold and for the words the fallbacks
    say: which answers fail, pass or end, what is let through, and what is spoken instead.
 */
module CustomerVerdicts {
  import opened Wrappers
  import opened CustomerPlayback
  import opened CustomerTurns
  import opened CustomerAudio
  import opened CustomerFallbacks
  import opened CustomerWords

  // ---- Which answers fail, pass and end ---------------------------------------------------------------

  /** A judged sentence that is not Ok, or a turn's end with audio on hold. */
  predicate Condemns(checks: bool, s: State, e: Event) {
    || (IsJudged(checks, s, e) && !e.verdict.Ok?)
    || (e.Completes? && checks && s.pendingAudio != [])
  }

  /** A judged sentence that is Ok, unless it is the rest of a failed answer. */
  predicate Passes(checks: bool, s: State, e: Event) {
    IsJudged(checks, s, e) && e.verdict.Ok? && (Opens(checks, s, e) || !s.turns[|s.turns| - 1].failed)
  }

  /** The flags of turn `k`, which has none before it is opened. */
  predicate HasFailed(s: State, k: nat) {
    k < |s.turns| && s.turns[k].failed
  }

  predicate HasPassed(s: State, k: nat) {
    k < |s.turns| && s.turns[k].allowed
  }

  predicate IsOver(s: State, k: nat) {
    k < |s.turns| && s.turns[k].ended
  }

  predicate IsLast(s: State, k: nat) {
    k + 1 == |s.turns|
  }

  lemma AnsweringFlags(s: State, k: nat)
    ensures var t := Answering(s);
            && HasFailed(t, k) == HasFailed(s, k) && HasPassed(t, k) == HasPassed(s, k)
            && (IsOver(t, k) <==> IsOver(s, k) || (IsLast(s, k) && (!AnswerIsOpen(s) || s.heardPieces != [])))
  {
  }

  lemma AskingFlags(s: State, j: nat, k: nat)
    requires j < |s.turns|
    ensures var t := FallbackAsked(s, j);
            && |t.turns| == |s.turns| && HasFailed(t, k) == HasFailed(s, k) && HasPassed(t, k) == HasPassed(s, k)
            && IsOver(t, k) == IsOver(s, k)
  {
  }

  lemma FailedTurnFlags(s: State, k: nat)
    requires s.HasTurn()
    ensures var t := FailedTurn(s);
            && |t.turns| == |s.turns| && HasPassed(t, k) == HasPassed(s, k) && IsOver(t, k) == IsOver(s, k)
            && (HasFailed(t, k) <==> HasFailed(s, k) || IsLast(s, k))
  {
    AskingFlags(WithTurn(s, |s.turns| - 1, s.Current().(failed := true)), |s.turns| - 1, k);
  }

  lemma JudgedFlags(t: State, verdict: Verdict, k: nat)
    requires t.HasTurn()
    ensures var u := Judged(t, verdict);
            && |u.turns| == |t.turns| && IsOver(u, k) == IsOver(t, k)
            && (HasFailed(u, k) <==> HasFailed(t, k) || (IsLast(t, k) && !verdict.Ok?))
            && (HasPassed(u, k) <==> HasPassed(t, k) || (IsLast(t, k) && verdict.Ok? && !HasFailed(t, k)))
  {
    if !verdict.Ok? && !t.Current().failed {
      FailedTurnFlags(HoldEnded(t, Discarded), k);
    }
  }

  ghost predicate FlagsFollow(checks: bool, s: State, e: Event, t: State, k: nat) {
    && (HasFailed(t, k) <==> HasFailed(s, k) || (IsLast(t, k) && Condemns(checks, s, e)))
    && (HasPassed(t, k) <==> HasPassed(s, k) || (IsLast(t, k) && Passes(checks, s, e)))
    && (IsOver(t, k) <==>
         || IsOver(s, k)
         || (IsLast(s, k) && Opens(checks, s, e))
         || (IsLast(t, k) && e.Completes?))
  }

  lemma SaysFlags(checks: bool, s: State, e: Event, k: nat)
    requires e.Says?
    ensures FlagsFollow(checks, s, e, Step(checks, s, e), k)
  {
    if IsJudged(checks, s, e) {
      AnsweringFlags(s, k);
      JudgedFlags(Answering(s), e.verdict, k);
      assert IsLast(Answering(s), k) ==> HasFailed(Answering(s), k) == HasFailed(s, k);
    }
  }

  lemma DroppedFlags(s: State, k: nat)
    ensures var t := UncheckedDropped(s);
            && t.HasTurn() && HasPassed(t, k) == HasPassed(s, k) && IsOver(t, k) == IsOver(s, k)
            && (HasFailed(t, k) <==> HasFailed(s, k) || IsLast(t, k))
  {
    var t := HoldEnded(s, Discarded);
    FailedTurnFlags(if s.Between() then Opened(t) else t, k);
  }

  lemma EndedFlags(s: State, k: nat)
    ensures var t := Ended(s);
            && |t.turns| == |s.turns| && HasFailed(t, k) == HasFailed(s, k) && HasPassed(t, k) == HasPassed(s, k)
            && (IsOver(t, k) <==> IsOver(s, k) || IsLast(s, k))
  {
  }

  lemma CompletesFlags(checks: bool, s: State, k: nat)
    ensures FlagsFollow(checks, s, Completes, OnCompletes(checks, s), k)
  {
    if checks && s.pendingAudio != [] {
      DroppedFlags(s, k);
      EndedFlags(UncheckedDropped(s), k);
    } else {
      EndedFlags(s, k);
    }
  }

  /** After every event an answer has failed exactly if it had, or it is the current one and a sentence of it was
      judged bad or its end found audio on hold; it has had a sentence passed exactly if it had, or a good one was
      judged now; and it is over exactly if it was, a later one was opened, or the turn completed. */
  lemma FlagsAreRead(checks: bool, s: State, e: Event, k: nat)
    ensures FlagsFollow(checks, s, e, Step(checks, s, e), k)
  {
    if e.Says? {
      SaysFlags(checks, s, e, k);
    } else if e.Completes? {
      CompletesFlags(checks, s, k);
    } else if e.Retracts? {
      assert HasFailed(Step(checks, s, e), k) == HasFailed(s, k);
    }
  }

  // ---- What becomes of the audio ----------------------------------------------------------------------

  /** The current answer has failed, and the chunk is its own: any before its end, and a checked one after it. */
  predicate ArrivesFailed(s: State, unvetted: bool) {
    s.turns != [] && s.turns[|s.turns| - 1].failed && (s.turns[|s.turns| - 1].ended ==> !unvetted)
  }

  /** The current answer has had a sentence passed, and this chunk's own sentence was seen. */
  predicate ArrivesPassed(s: State, unvetted: bool) {
    s.turns != [] && s.turns[|s.turns| - 1].allowed && !s.turns[|s.turns| - 1].failed && !unvetted
  }

  predicate Plays(checks: bool, s: State, e: Event) {
    e.Audio? && (!checks || ArrivesPassed(s, e.unvetted))
  }

  predicate Holds(checks: bool, s: State, e: Event) {
    e.Audio? && checks && !ArrivesPassed(s, e.unvetted) && !ArrivesFailed(s, e.unvetted)
  }

  function FateOnArrival(checks: bool, s: State, e: Event): Fate {
    if Plays(checks, s, e) then PlayedOnArrival else Discarded
  }

  predicate EndsHold(checks: bool, s: State, e: Event) {
    Passes(checks, s, e) || Condemns(checks, s, e)
  }

  /** What is new in the fates: those of the hold, if it ends, or that of a chunk that is not held. */
  ghost predicate FatesFollow(checks: bool, s: State, e: Event, t: State) {
    forall c :: c in t.fates && c !in s.fates ==>
      || (c in s.pendingAudio && Passes(checks, s, e) && t.fates[c] == Released)
      || (c in s.pendingAudio && Condemns(checks, s, e) && t.fates[c] == Discarded)
      || (c == s.arrived && e.Audio? && !Holds(checks, s, e) && t.fates[c] == FateOnArrival(checks, s, e))
  }

  ghost predicate HoldFollows(checks: bool, s: State, e: Event, t: State) {
    && t.pendingAudio == (if EndsHold(checks, s, e) then []
                          else if Holds(checks, s, e) then s.pendingAudio + [s.arrived] else s.pendingAudio)
    && (EndsHold(checks, s, e) ==> forall c :: c in s.pendingAudio ==> c in t.fates)
    && (e.Audio? && !Holds(checks, s, e) ==> s.arrived in t.fates)
    && t.arrived == s.arrived + (if e.Audio? then 1 else 0)
    && FatesFollow(checks, s, e, t)
  }

  lemma JudgedHold(s: State, verdict: Verdict)
    requires s.HasTurn() && (s.Current().failed ==> s.pendingAudio == [])
    ensures var t := Judged(s, verdict);
            var fate := if verdict.Ok? then Released else Discarded;
            && t.arrived == s.arrived && t.pendingAudio == (if s.Current().failed then s.pendingAudio else [])
            && (!s.Current().failed ==> forall c :: c in s.pendingAudio ==> c in t.fates)
            && (forall c :: c in t.fates && c !in s.fates ==> c in s.pendingAudio && t.fates[c] == fate)
  {
    if !s.Current().failed && !verdict.Ok? {
      HoldEndedLetsGo(s, Discarded);
      FailedTurnLeavesAudio(HoldEnded(s, Discarded));
    }
  }

  lemma SaysHold(checks: bool, s: State, e: Event)
    requires e.Says? && ChunksAccounted(s) && FailedHoldsNothing(s)
    ensures HoldFollows(checks, s, e, Step(checks, s, e))
  {
    if IsJudged(checks, s, e) {
      AnsweringLeavesAudio(s);
      AnsweringFlags(s, |Answering(s).turns| - 1);
      JudgedHold(Answering(s), e.verdict);
    }
  }

  lemma CompletesHold(checks: bool, s: State)
    requires ChunksAccounted(s)
    ensures HoldFollows(checks, s, Completes, OnCompletes(checks, s))
  {
    if checks && s.pendingAudio != [] {
      var t := HoldEnded(s, Discarded);
      HoldEndedLetsGo(s, Discarded);
      FailedTurnLeavesAudio(if s.Between() then Opened(t) else t);
    }
  }

  lemma AudioHold(checks: bool, s: State, unvetted: bool)
    ensures HoldFollows(checks, s, Audio(unvetted), OnAudio(checks, s, unvetted))
  {
  }

  /** A sentence that passes lets go of all audio on hold and nothing else does; what condemns an answer drops it;
      a chunk plays on arrival exactly if the answer has passed and its own sentence was seen, is dropped if the
      answer has failed, and is held otherwise. */
  lemma HoldIsRead(checks: bool, s: State, e: Event)
    requires ChunksAccounted(s) && FailedHoldsNothing(s)
    ensures HoldFollows(checks, s, e, Step(checks, s, e))
  {
    match e
    case Says(_, _, _, _) => SaysHold(checks, s, e);
    case Audio(unvetted) => AudioHold(checks, s, unvetted);
    case Completes => CompletesHold(checks, s);
    case _ =>
  }

  // ---- After a bad sentence ---------------------------------------------------------------------------

  /** Whatever an answer has had passed before, a bad sentence fails it at once: what is held is dropped, and the
      event lets nothing through. */
  lemma BadSentenceFails(s: State, e: Event)
    requires ChunksAccounted(s) && FailedHoldsNothing(s)
    requires IsJudged(true, s, e) && !e.verdict.Ok?
    ensures var t := Step(true, s, e);
            && t.HasTurn() && t.Current().failed && !t.Current().ended && t.pendingAudio == []
            && forall c :: !LetsHear(s, t, c)
  {
    var t := Step(true, s, e);
    StepOpensOne(true, s, e);
    FlagsAreRead(true, s, e, |t.turns| - 1);
    HoldIsRead(true, s, e);
    assert !Passes(true, s, e);
  }

  /** No event of the run lets a chunk through. */
  ghost predicate Silent(s: State, es: seq<Event>)
    decreases |es|
  {
    es == [] || ((forall c :: !LetsHear(s, Step(true, s, es[0]), c)) && Silent(Step(true, s, es[0]), es[1..]))
  }

  lemma FailedStaysSilent(s: State, e: Event)
    requires ChunksAccounted(s) && FailedHoldsNothing(s) && s.HasTurn() && s.Current().failed && !Opens(true, s, e)
    ensures var t := Step(true, s, e);
            t.HasTurn() && t.Current().failed && forall c :: !LetsHear(s, t, c)
  {
    StepOpensOne(true, s, e);
    FlagsAreRead(true, s, e, |s.turns| - 1);
    HoldIsRead(true, s, e);
    assert !Passes(true, s, e);
  }

  /** While no answer is opened a failed one lets nothing through. */
  lemma {:induction false} FailedRunIsSilent(s: State, es: seq<Event>)
    requires ChunksAccounted(s) && FailedHoldsNothing(s) && s.HasTurn() && s.Current().failed
    requires NoneOpens(true, s, es)
    ensures Silent(s, es)
    decreases |es|
  {
    if es != [] {
      FailedStaysSilent(s, es[0]);
      StepAccountsForChunks(true, s, es[0]);
      FailedRunIsSilent(Step(true, s, es[0]), es[1..]);
    }
  }

  /** In every run, from a bad sentence on the agent hears nothing of Nova Sonic until an answer is opened. */
  lemma SilentAfterABadSentence(before: seq<Event>, e: Event, after: seq<Event>)
    requires var s := Run(true, INITIAL, before);
             IsJudged(true, s, e) && !e.verdict.Ok? && NoneOpens(true, Step(true, s, e), after)
    ensures Silent(Run(true, INITIAL, before), [e] + after)
  {
    var s := Run(true, INITIAL, before);
    RunAccountsForChunks(true, INITIAL, before);
    BadSentenceFails(s, e);
    StepAccountsForChunks(true, s, e);
    FailedRunIsSilent(Step(true, s, e), after);
    assert ([e] + after)[1..] == after;
  }
}
