/** What becomes of the audio of a customer session, over whole runs: every chunk has one fate, and only answers
    that pass let audio through.
 */
module CustomerAudio {
  import opened Wrappers
  import opened CustomerTurns

  // ---- Every chunk has one fate -----------------------------------------------------------------------

  ghost predicate ChunksAccounted(s: State) {
    && (forall c: nat :: c < s.arrived ==> c in s.fates || c in s.pendingAudio)
    && (forall c :: c in s.fates ==> c < s.arrived)
    && (forall c :: c in s.pendingAudio ==> c < s.arrived && c !in s.fates)
    && (forall i, j :: 0 <= i < j < |s.pendingAudio| ==> s.pendingAudio[i] < s.pendingAudio[j])
  }

  /** Nothing is held while the current answer is failed and not over. */
  predicate FailedHoldsNothing(s: State) {
    !s.Between() && s.Current().failed ==> s.pendingAudio == []
  }

  lemma ArrivalAccounted(s: State, t: State)
    requires ChunksAccounted(s) && t.arrived == s.arrived + 1
    requires || (t.pendingAudio == s.pendingAudio + [s.arrived] && t.fates == s.fates)
             || (t.pendingAudio == s.pendingAudio && t.fates.Keys == s.fates.Keys + {s.arrived})
    ensures ChunksAccounted(t)
  {
    forall i | 0 <= i < |s.pendingAudio| ensures s.pendingAudio[i] < s.arrived {
      assert s.pendingAudio[i] in s.pendingAudio;
    }
    forall c | c in t.pendingAudio ensures c in s.pendingAudio || c == s.arrived {
    }
  }

  ghost predicate KeepsFates(s: State, t: State) {
    forall c :: c in s.fates ==> c in t.fates && t.fates[c] == s.fates[c]
  }

  lemma AudioAccountsForChunks(checks: bool, s: State, unvetted: bool)
    requires ChunksAccounted(s)
    ensures ChunksAccounted(OnAudio(checks, s, unvetted))
    ensures KeepsFates(s, OnAudio(checks, s, unvetted))
  {
    ArrivalAccounted(s, OnAudio(checks, s, unvetted));
  }

  ghost predicate LetsGo(s: State, t: State) {
    && t.pendingAudio == []
    && t.fates.Keys == s.fates.Keys + (set c | c in s.pendingAudio)
    && (forall c :: c in s.fates && c !in s.pendingAudio ==> t.fates[c] == s.fates[c])
  }

  /** The held chunks stay held, or are all let go with one fate. */
  ghost predicate KeepsOrLetsGo(s: State, t: State) {
    && t.arrived == s.arrived
    && ((s.pendingAudio == t.pendingAudio && s.fates == t.fates) || LetsGo(s, t))
  }

  lemma HoldEndedLetsGo(s: State, fate: Fate)
    ensures LetsGo(s, HoldEnded(s, fate)) && HoldEnded(s, fate).arrived == s.arrived
    ensures forall c :: c in HoldEnded(s, fate).fates && c !in s.fates ==> HoldEnded(s, fate).fates[c] == fate
  {
  }

  ghost predicate StillFailed(s: State, t: State) {
    |s.turns| <= |t.turns| && forall k :: 0 <= k < |s.turns| && s.turns[k].failed ==> t.turns[k].failed
  }

  /** Failing a turn touches no audio. */
  lemma FailedTurnLeavesAudio(s: State)
    requires s.HasTurn()
    ensures var t := FailedTurn(s);
            && t.arrived == s.arrived && t.pendingAudio == s.pendingAudio && t.fates == s.fates
            && t.under == s.under && t.playback == s.playback
            && |t.turns| == |s.turns| && t.Current().failed && t.Current().ended == s.Current().ended
            && StillFailed(s, t)
  {
  }

  lemma AnsweringLeavesAudio(s: State)
    ensures var t := Answering(s);
            && t.arrived == s.arrived && t.pendingAudio == s.pendingAudio && t.fates == s.fates
            && t.HasTurn() && !t.Between() && StillFailed(s, t)
  {
  }

  lemma JudgedLetsGo(t: State, verdict: Verdict)
    requires t.HasTurn()
    ensures KeepsOrLetsGo(t, Judged(t, verdict)) && StillFailed(t, Judged(t, verdict))
    ensures !t.Current().failed && Judged(t, verdict).Current().failed ==> Judged(t, verdict).pendingAudio == []
    ensures t.Current().failed ==> Judged(t, verdict) == t
  {
    HoldEndedLetsGo(t, Discarded);
    FailedTurnLeavesAudio(HoldEnded(t, Discarded));
    HoldEndedLetsGo(WithTurn(t, |t.turns| - 1, t.Current().(allowed := true)), Released);
  }

  lemma JudgedOutcome(t: State, verdict: Verdict)
    requires t.HasTurn()
    ensures var u := Judged(t, verdict);
            || (u.HasTurn() && u.Current().allowed && !u.Current().failed)
            || forall c :: c in u.fates && c !in t.fates ==> u.fates[c] == Discarded
  {
    HoldEndedLetsGo(t, Discarded);
    FailedTurnLeavesAudio(HoldEnded(t, Discarded));
  }

  lemma SaysLetsGo(checks: bool, s: State, blank: bool, finalCopy: bool, prior: Option<bool>, verdict: Verdict)
    ensures var t := OnSays(checks, s, blank, finalCopy, prior, verdict);
            KeepsOrLetsGo(s, t) && StillFailed(s, t) && (FailedHoldsNothing(s) ==> FailedHoldsNothing(t))
  {
    AnsweringLeavesAudio(s);
    var t := Answering(s);
    assert t.Current().failed ==> |t.turns| == |s.turns| && !s.Between();
    JudgedLetsGo(t, verdict);
  }

  lemma SaysOutcome(s: State, blank: bool, finalCopy: bool, prior: Option<bool>, verdict: Verdict)
    ensures var t := OnSays(true, s, blank, finalCopy, prior, verdict);
            || (t.HasTurn() && t.Current().allowed && !t.Current().failed)
            || forall c :: c in t.fates && c !in s.fates ==> t.fates[c] == Discarded
  {
    AnsweringLeavesAudio(s);
    JudgedOutcome(Answering(s), verdict);
  }

  lemma CompletesLetsGo(checks: bool, s: State)
    ensures var t := OnCompletes(checks, s); KeepsOrLetsGo(s, t) && StillFailed(s, t) && FailedHoldsNothing(t)
    ensures checks ==> OnCompletes(checks, s).pendingAudio == []
    ensures var t := OnCompletes(checks, s); forall c :: c in t.fates && c !in s.fates ==> t.fates[c] == Discarded
  {
    if checks && s.pendingAudio != [] {
      var t := HoldEnded(s, Discarded);
      HoldEndedLetsGo(s, Discarded);
      var u := if s.Between() then Opened(t) else t;
      FailedTurnLeavesAudio(u);
    }
  }

  lemma FailedAnswersHoldNothing(checks: bool, s: State, e: Event)
    requires FailedHoldsNothing(s)
    ensures FailedHoldsNothing(Step(checks, s, e))
  {
    match e
    case Says(blank, finalCopy, prior, verdict) => SaysLetsGo(checks, s, blank, finalCopy, prior, verdict);
    case Completes => CompletesLetsGo(checks, s);
    case _ =>
  }

  lemma LettingGoKeepsAccounts(s: State, t: State)
    requires ChunksAccounted(s) && KeepsOrLetsGo(s, t)
    ensures ChunksAccounted(t) && KeepsFates(s, t)
  {
  }

  lemma StepAccountsForChunks(checks: bool, s: State, e: Event)
    requires ChunksAccounted(s) && FailedHoldsNothing(s)
    ensures var t := Step(checks, s, e); ChunksAccounted(t) && FailedHoldsNothing(t) && KeepsFates(s, t)
    ensures checks && e == Completes ==> Step(checks, s, e).pendingAudio == []
  {
    FailedAnswersHoldNothing(checks, s, e);
    if e.Audio? {
      AudioAccountsForChunks(checks, s, e.unvetted);
    } else if e.Says? {
      SaysLetsGo(checks, s, e.blank, e.finalCopy, e.prior, e.verdict);
      LettingGoKeepsAccounts(s, Step(checks, s, e));
    } else if e.Completes? {
      CompletesLetsGo(checks, s);
      LettingGoKeepsAccounts(s, Step(checks, s, e));
    }
  }

  /** Over every run each chunk that arrived is exactly one of: played on arrival, released from the hold,
      discarded, or still held, and the ones held are in order of arrival; and nothing is held after a
      turn's end. */
  lemma {:induction false} RunAccountsForChunks(checks: bool, s: State, es: seq<Event>)
    requires ChunksAccounted(s) && FailedHoldsNothing(s)
    ensures var t := Run(checks, s, es);
            && ChunksAccounted(t) && FailedHoldsNothing(t)
            && (checks && es != [] && es[|es| - 1] == Completes ==> t.pendingAudio == [])
    decreases |es|
  {
    if es != [] {
      StepAccountsForChunks(checks, s, es[0]);
      RunAccountsForChunks(checks, Step(checks, s, es[0]), es[1..]);
    }
  }

  /** A chunk's fate is settled once. */
  lemma {:induction false} FatesAreFinal(checks: bool, s: State, es: seq<Event>, c: nat)
    requires ChunksAccounted(s) && FailedHoldsNothing(s) && c in s.fates
    ensures var t := Run(checks, s, es); c in t.fates && t.fates[c] == s.fates[c]
    decreases |es|
  {
    if es != [] {
      StepAccountsForChunks(checks, s, es[0]);
      FatesAreFinal(checks, Step(checks, s, es[0]), es[1..], c);
    }
  }

  /** The chunk is played or released between the two states. */
  predicate LetsHear(s: State, t: State, c: nat) {
    c !in s.fates && c in t.fates && !t.fates[c].Discarded?
  }

  /** With the checks on, whatever an event plays or releases is let through by the answer that is current
      after it, which has had a sentence passed and has not failed. The chunk may have come earlier. */
  lemma OnlyApprovedAnswersAreHeard(s: State, e: Event, c: nat)
    requires ChunksAccounted(s)
    ensures var t := Step(true, s, e); LetsHear(s, t, c) ==> t.HasTurn() && t.Current().allowed && !t.Current().failed
  {
    if e.Says? {
      SaysOutcome(s, e.blank, e.finalCopy, e.prior, e.verdict);
    } else if e.Completes? {
      CompletesLetsGo(true, s);
    }
  }

  lemma StepKeepsFailures(checks: bool, s: State, e: Event)
    ensures StillFailed(s, Step(checks, s, e))
  {
    match e
    case Says(blank, finalCopy, prior, verdict) => SaysLetsGo(checks, s, blank, finalCopy, prior, verdict);
    case Completes => CompletesLetsGo(checks, s);
    case _ =>
  }

  /** An answer that has failed stays failed. */
  lemma {:induction false} FailureIsFinal(checks: bool, s: State, es: seq<Event>, k: nat)
    requires k < |s.turns| && s.turns[k].failed
    ensures var t := Run(checks, s, es); k < |t.turns| && t.turns[k].failed
    decreases |es|
  {
    if es != [] {
      StepKeepsFailures(checks, s, es[0]);
      FailureIsFinal(checks, Step(checks, s, es[0]), es[1..], k);
    }
  }

  // ---- Which answer a released chunk came under -------------------------------------------------------

  /** An answer has been opened and has not ended. */
  predicate AnswerIsOpen(s: State) {
    s.turns != [] && !s.turns[|s.turns| - 1].ended
  }

  /** The sentence is judged, rather than taken for a copy. */
  predicate IsJudged(checks: bool, s: State, e: Event) {
    e.Says? && checks && !e.blank && (!e.finalCopy || (e.prior.None? && AnswerIsOpen(s)))
  }

  /** The event opens an answer: a judged sentence that starts one, or a turn's end that finds audio on hold
      and no answer under way. */
  predicate Opens(checks: bool, s: State, e: Event) {
    || (IsJudged(checks, s, e) && (!AnswerIsOpen(s) || s.heardPieces != []))
    || (e.Completes? && checks && s.pendingAudio != [] && !AnswerIsOpen(s))
  }

  predicate NoneOpens(checks: bool, s: State, es: seq<Event>)
    decreases |es|
  {
    es == [] || (!Opens(checks, s, es[0]) && NoneOpens(checks, Step(checks, s, es[0]), es[1..]))
  }

  lemma JudgedKeepsTurns(s: State, verdict: Verdict)
    requires s.HasTurn()
    ensures |Judged(s, verdict).turns| == |s.turns| && Judged(s, verdict).under == s.under
  {
  }

  lemma DroppingOpensOne(s: State)
    ensures var t := UncheckedDropped(s);
            |t.turns| == |s.turns| + (if s.Between() then 1 else 0) && t.under == s.under
  {
    var t := HoldEnded(s, Discarded);
    FailedTurnLeavesAudio(if s.Between() then Opened(t) else t);
  }

  lemma CompletesOpensOne(checks: bool, s: State)
    ensures var t := OnCompletes(checks, s);
            |t.turns| == |s.turns| + (if Opens(checks, s, Completes) then 1 else 0) && t.under == s.under
  {
    if checks && s.pendingAudio != [] {
      DroppingOpensOne(s);
    }
  }

  lemma SaysOpensOne(checks: bool, s: State, e: Event)
    requires e.Says?
    ensures var t := Step(checks, s, e);
            |t.turns| == |s.turns| + (if Opens(checks, s, e) then 1 else 0) && t.under == s.under
  {
    var t := Answering(s);
    assert |t.turns| == |s.turns| + (if s.Between() || s.heardPieces != [] then 1 else 0) && t.under == s.under;
    JudgedKeepsTurns(t, e.verdict);
  }

  lemma StepOpensOne(checks: bool, s: State, e: Event)
    ensures var t := Step(checks, s, e);
            && |t.turns| == |s.turns| + (if Opens(checks, s, e) then 1 else 0)
            && s.under <= t.under
  {
    if e.Says? {
      SaysOpensOne(checks, s, e);
    } else if e.Completes? {
      CompletesOpensOne(checks, s);
    }
  }

  /** The number of answers tells whether one was opened. */
  lemma {:induction false} RunOpensSome(checks: bool, s: State, es: seq<Event>)
    ensures var t := Run(checks, s, es);
            && |t.turns| >= |s.turns| && (|t.turns| == |s.turns| <==> NoneOpens(checks, s, es))
            && s.under <= t.under
    decreases |es|
  {
    if es != [] {
      StepOpensOne(checks, s, es[0]);
      RunOpensSome(checks, Step(checks, s, es[0]), es[1..]);
    }
  }

  lemma {:induction false} RunAppends(checks: bool, s: State, es: seq<Event>, e: Event)
    ensures Run(checks, s, es + [e]) == Step(checks, Run(checks, s, es), e)
    decreases |es|
  {
    if es == [] {
      assert es + [e] == [e];
    } else {
      assert (es + [e])[1..] == es[1..] + [e];
      RunAppends(checks, Step(checks, s, es[0]), es[1..], e);
    }
  }

  lemma NotesArrival(checks: bool, s: State, e: Event)
    requires |s.under| == s.arrived
    ensures var t := Step(checks, s, e); |t.under| == t.arrived
  {
    if e.Says? {
      SaysLetsGo(checks, s, e.blank, e.finalCopy, e.prior, e.verdict);
      JudgedKeepsTurns(Answering(s), e.verdict);
    } else if e.Completes? {
      CompletesLetsGo(checks, s);
      CompletesOpensOne(checks, s);
    }
  }

  lemma {:induction false} ArrivalsAreNoted(checks: bool, s: State, es: seq<Event>)
    requires |s.under| == s.arrived
    ensures var t := Run(checks, s, es); |t.under| == t.arrived
    decreases |es|
  {
    if es != [] {
      NotesArrival(checks, s, es[0]);
      ArrivalsAreNoted(checks, Step(checks, s, es[0]), es[1..]);
    }
  }

  /** What came with `turns` answers opened still did so later; none was opened since exactly if there are as
      many. */
  lemma ArrivedUnder(checks: bool, s: State, unvetted: bool, es: seq<Event>)
    requires |s.under| == s.arrived
    ensures var held := Step(checks, s, Audio(unvetted));
            var t := Run(checks, held, es);
            && s.arrived < |t.under| && t.under[s.arrived] == |s.turns| <= |t.turns|
            && (|s.turns| == |t.turns| <==> NoneOpens(checks, held, es))
  {
    var held := Step(checks, s, Audio(unvetted));
    NotesArrival(checks, s, Audio(unvetted));
    RunOpensSome(checks, held, es);
    assert held.under[s.arrived] == |s.turns| == |held.turns|;
  }

  /** The state once a chunk has come and the events after it have happened. */
  function AfterChunk(before: seq<Event>, unvetted: bool, after: seq<Event>): State {
    Run(true, Step(true, Run(true, INITIAL, before), Audio(unvetted)), after)
  }

  lemma AfterChunkIsAccounted(before: seq<Event>, unvetted: bool, after: seq<Event>)
    ensures ChunksAccounted(AfterChunk(before, unvetted, after))
  {
    var s := Run(true, INITIAL, before);
    RunAccountsForChunks(true, INITIAL, before);
    StepAccountsForChunks(true, s, Audio(unvetted));
    RunAccountsForChunks(true, Step(true, s, Audio(unvetted)), after);
  }

  /** A chunk that is held and later released came under the answer that passes exactly if no answer was
      opened while it was held. So what came with a failed answer the last one opened is heard only with a
      later one. */
  lemma ReleasedUnderItsAnswerExactly(before: seq<Event>, unvetted: bool, after: seq<Event>, e: Event)
    ensures var s := Run(true, INITIAL, before);
            var c := s.arrived;
            var u := AfterChunk(before, unvetted, after);
            var t := Step(true, u, e);
            var noneOpened := NoneOpens(true, Step(true, s, Audio(unvetted)), after + [e]);
            LetsHear(u, t, c) ==>
            && t.HasTurn() && t.Current().allowed && !t.Current().failed
            && c < |t.under| && t.under[c] == |s.turns| <= |t.turns|
            && (t.under[c] == |t.turns| <==> noneOpened)
            && (t.under[c] > 0 && t.turns[t.under[c] - 1].failed ==> !noneOpened)
  {
    var s := Run(true, INITIAL, before);
    ArrivalsAreNoted(true, INITIAL, before);
    AfterChunkIsAccounted(before, unvetted, after);
    OnlyApprovedAnswersAreHeard(AfterChunk(before, unvetted, after), e, s.arrived);
    RunAppends(true, Step(true, s, Audio(unvetted)), after, e);
    ArrivedUnder(true, s, unvetted, after + [e]);
  }

  /** A chunk that plays on arrival comes under the answer that lets it through. */
  lemma PlayedUnderItsAnswer(es: seq<Event>, unvetted: bool)
    requires PlaysOnArrival(true, Run(true, INITIAL, es), unvetted)
    ensures var s := Run(true, INITIAL, es);
            var t := Step(true, s, Audio(unvetted));
            && t.fates[s.arrived].PlayedOnArrival? && |t.under| == s.arrived + 1
            && t.under[s.arrived] == |t.turns| > 0 && t.Current().allowed && !t.Current().failed
  {
    ArrivalsAreNoted(true, INITIAL, es);
  }

  /** A customer's sentence and a sentence of Nova Sonic, the first copy of it. */
  function Said(verdict: Verdict): Event {
    Says(false, false, None, verdict)
  }

  lemma JudgesOnlyTurn(s: State, verdict: Verdict)
    requires |s.turns| == 1 && !s.turns[0].failed && !s.turns[0].allowed && !s.turns[0].ended && s.pendingAudio == []
    ensures var t := Judged(s, verdict);
            && |t.turns| == 1 && t.turns[0].failed == !verdict.Ok? && t.turns[0].allowed == verdict.Ok?
            && !t.turns[0].ended && t.pendingAudio == [] && t.fates == s.fates
            && t.under == s.under && t.arrived == s.arrived && t.heardPieces == s.heardPieces
  {
    if !verdict.Ok? {
      FailedTurnLeavesAudio(HoldEnded(s, Discarded));
    }
  }

  /** The first answer of a session, judged. */
  lemma FirstAnswer(text: string, verdict: Verdict)
    requires text != ""
    ensures var s := Step(true, Step(true, INITIAL, Hears(text)), Said(verdict));
            && |s.turns| == 1 && s.turns[0].failed == !verdict.Ok? && s.turns[0].allowed == verdict.Ok?
            && !s.turns[0].ended && s.heardPieces == [] && s.pendingAudio == [] && s.fates == map[]
            && s.under == [] && s.arrived == 0
  {
    var s := Step(true, INITIAL, Hears(text));
    assert s.heardPieces == [Piece(0, text)];
    var t := Answering(s);
    assert t.turns == [Turn([Piece(0, text)], false, NotAsked, false, false)] && t.heardPieces == [];
    JudgesOnlyTurn(t, verdict);
  }

  lemma NewWordsOpen(s: State, text: string)
    requires s.HasTurn() && s.heardPieces == [] && text != ""
    ensures var t := Answering(OnHears(true, s, text));
            && |t.turns| == |s.turns| + 1 && !t.Current().failed && t.turns[0].failed == s.turns[0].failed
            && t.pendingAudio == s.pendingAudio && t.fates == s.fates && t.under == s.under
  {
    assert OnHears(true, s, text).heardPieces == [Piece(s.pieces, text)];
  }

  lemma PassReleases(s: State, c: nat)
    requires |s.turns| > 1 && !s.Current().failed && s.pendingAudio == [c] && c !in s.fates
    ensures var t := Judged(s, Ok);
            && c in t.fates && t.fates[c].Released? && t.under == s.under && |t.turns| == |s.turns|
            && t.turns[0].failed == s.turns[0].failed && t.Current().allowed
  {
  }

  /** A sentence that passes, after new words, with one chunk on hold. */
  lemma NextAnswerPasses(s: State, text: string, c: nat)
    requires s.HasTurn() && s.heardPieces == [] && s.pendingAudio == [c] && c !in s.fates && text != ""
    ensures var t := Step(true, Step(true, s, Hears(text)), Said(Ok));
            && c in t.fates && t.fates[c].Released? && t.under == s.under && |t.turns| == |s.turns| + 1
            && t.turns[0].failed == s.turns[0].failed && t.Current().allowed
  {
    NewWordsOpen(s, text);
    PassReleases(Answering(OnHears(true, s, text)), c);
  }

  lemma RunOfTwo(checks: bool, s: State, e: Event, f: Event)
    ensures Run(checks, s, [e, f]) == Step(checks, Step(checks, s, e), f)
  {
    var t := Step(checks, s, e);
    assert [e, f][1..] == [f] && [f][1..] == [];
    assert Run(checks, t, [f]) == Run(checks, Step(checks, t, f), []);
  }

  lemma RunOfThree(checks: bool, s: State, e: Event, f: Event, g: Event)
    ensures Run(checks, s, [e, f, g]) == Step(checks, Step(checks, Step(checks, s, e), f), g)
  {
    assert [e, f, g][1..] == [f, g];
    RunOfTwo(checks, Step(checks, s, e), f, g);
  }

  lemma {:induction false} RunSplits(checks: bool, s: State, es: seq<Event>, fs: seq<Event>)
    ensures Run(checks, s, es + fs) == Run(checks, Run(checks, s, es), fs)
    decreases |es|
  {
    if es == [] {
      assert es + fs == fs;
    } else {
      assert (es + fs)[1..] == es[1..] + fs;
      RunSplits(checks, Step(checks, s, es[0]), es[1..], fs);
    }
  }

  /** Unchecked audio that comes after a failed answer's end is not that answer's: it starts the next one, and
      plays with it. */
  lemma AudioAfterAFailureStartsTheNext(a: string, b: string)
    requires a != "" && b != ""
    ensures var t := Run(true, INITIAL, [Hears(a), Said(Drift), Completes] + [Audio(true), Hears(b), Said(Ok)]);
            && 0 in t.fates && t.fates[0].Released? && t.under == [1] && |t.turns| == 2
            && t.turns[0].failed && t.Current().allowed
  {
    FirstAnswer(a, Drift);
    var s := Step(true, Step(true, Step(true, INITIAL, Hears(a)), Said(Drift)), Completes);
    assert |s.turns| == 1 && s.turns[0].failed && s.turns[0].ended && s.heardPieces == [];
    NextAnswerPasses(Step(true, s, Audio(true)), b, 0);
    RunSplits(true, INITIAL, [Hears(a), Said(Drift), Completes], [Audio(true), Hears(b), Said(Ok)]);
    RunOfThree(true, INITIAL, Hears(a), Said(Drift), Completes);
    RunOfThree(true, s, Audio(true), Hears(b), Said(Ok));
  }

  /** Audio that comes while an answer is under way, and whose own sentence is never judged, plays with the next
      answer. */
  lemma UnjudgedAudioCanBeHeard(a: string, b: string)
    requires a != "" && b != ""
    ensures var t := Run(true, INITIAL, [Hears(a), Said(Ok), Audio(true)] + [Hears(b), Said(Ok)]);
            && 0 in t.fates && t.fates[0].Released? && t.under == [1] && |t.turns| == 2 && t.Current().allowed
  {
    FirstAnswer(a, Ok);
    var s := Step(true, Step(true, Step(true, INITIAL, Hears(a)), Said(Ok)), Audio(true));
    assert s.pendingAudio == [0] && |s.turns| == 1 && s.fates == map[];
    NextAnswerPasses(s, b, 0);
    RunSplits(true, INITIAL, [Hears(a), Said(Ok), Audio(true)], [Hears(b), Said(Ok)]);
    RunOfThree(true, INITIAL, Hears(a), Said(Ok), Audio(true));
    RunOfTwo(true, s, Hears(b), Said(Ok));
  }
}
