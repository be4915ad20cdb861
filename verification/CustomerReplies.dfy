/** The words each answer of a customer session has, and what its fallback says of them: what the customer said
    since the answer before, in order and in the customer's own words.
 */
module CustomerReplies {
  import opened Wrappers
  import opened CustomerPlayback
  import opened CustomerTurns
  import opened CustomerAudio
  import opened CustomerFallbacks
  import opened CustomerVerdicts

  // ---- The words that wait, and those of an answer ----------------------------------------------------

  /** The pieces left after a retraction. */
  ghost predicate Left(was: seq<Piece>, misfired: set<string>, now: seq<Piece>) {
    forall p :: p in now <==> p in was && p.text !in misfired
  }

  lemma {:induction false} WithoutLeaves(pieces: seq<Piece>, misfired: set<string>)
    ensures Left(pieces, misfired, Without(pieces, misfired))
  {
    if pieces != [] {
      WithoutLeaves(pieces[1..], misfired);
      assert forall p :: p in pieces <==> p == pieces[0] || p in pieces[1..];
    }
  }

  predicate Adds(checks: bool, e: Event) {
    e.Hears? && checks && e.text != ""
  }

  /** The fallback of turn `k` waits for words, and its wait ends now. */
  predicate EndsWait(s: State, e: Event, k: nat) {
    e == FallbackResumes(k) && k < |s.turns| && s.turns[k].fallback == WaitsForWords
  }

  predicate TakesTheWords(checks: bool, s: State, e: Event) {
    Opens(checks, s, e) || (e.FallbackResumes? && EndsWait(s, e, e.turn))
  }

  ghost predicate WaitingFollows(checks: bool, s: State, e: Event, t: State) {
    && t.pieces == s.pieces + (if Adds(checks, e) then 1 else 0)
    && if Adds(checks, e) then
         var all := s.heardPieces + [Piece(s.pieces, e.text)];
         t.heardPieces == if |all| <= 12 then all else all[|all| - 12..]
       else if e.Retracts? then Left(s.heardPieces, e.misfired, t.heardPieces)
       else t.heardPieces == if TakesTheWords(checks, s, e) then [] else s.heardPieces
  }

  /** The words that wait, before and after. */
  predicate WaitAlike(s: State, t: State) {
    t.pieces == s.pieces && t.heardPieces == s.heardPieces
  }

  lemma FailedTurnKeepsWaiting(s: State)
    requires s.HasTurn()
    ensures WaitAlike(s, FailedTurn(s))
  {
  }

  lemma JudgedKeepsWaiting(s: State, verdict: Verdict)
    requires s.HasTurn()
    ensures WaitAlike(s, Judged(s, verdict))
  {
    FailedTurnKeepsWaiting(HoldEnded(s, Discarded));
  }

  lemma SaysLeavesWaiting(checks: bool, s: State, e: Event)
    requires e.Says?
    ensures WaitingFollows(checks, s, e, Step(checks, s, e))
  {
    if IsJudged(checks, s, e) {
      JudgedKeepsWaiting(Answering(s), e.verdict);
    }
  }

  lemma CompletesLeavesWaiting(checks: bool, s: State)
    ensures WaitingFollows(checks, s, Completes, OnCompletes(checks, s))
  {
    if checks && s.pendingAudio != [] {
      var t := HoldEnded(s, Discarded);
      FailedTurnKeepsWaiting(if s.Between() then Opened(t) else t);
    }
  }

  lemma HearsAdds(checks: bool, s: State, text: string)
    requires |s.heardPieces| <= 12
    ensures WaitingFollows(checks, s, Hears(text), OnHears(checks, s, text))
  {
  }

  lemma OthersLeaveWaiting(checks: bool, s: State, e: Event)
    requires !e.Hears? && !e.Says? && !e.Completes? && !e.Retracts?
    ensures WaitingFollows(checks, s, e, Step(checks, s, e))
  {
  }

  /** What the customer says waits last, with the eleven pieces before it; a retraction takes exactly the misfired
      pieces away; and an answer that is opened, or a fallback that waited for them, takes all that wait. */
  lemma WaitingIsRead(checks: bool, s: State, e: Event)
    requires |s.heardPieces| <= 12
    ensures WaitingFollows(checks, s, e, Step(checks, s, e))
  {
    match e
    case Hears(text) => HearsAdds(checks, s, text);
    case Retracts(misfired) => WithoutLeaves(s.heardPieces, misfired);
    case Says(_, _, _, _) => SaysLeavesWaiting(checks, s, e);
    case Completes => CompletesLeavesWaiting(checks, s);
    case _ => OthersLeaveWaiting(checks, s, e);
  }

  lemma {:induction false} WithoutIsShorter(pieces: seq<Piece>, misfired: set<string>)
    ensures |Without(pieces, misfired)| <= |pieces|
  {
    if pieces != [] {
      WithoutIsShorter(pieces[1..], misfired);
    }
  }

  lemma StepKeepsTwelve(checks: bool, s: State, e: Event)
    requires |s.heardPieces| <= 12
    ensures |Step(checks, s, e).heardPieces| <= 12
  {
    WaitingIsRead(checks, s, e);
    if e.Retracts? {
      WithoutIsShorter(s.heardPieces, e.misfired);
    }
  }

  /** Never more than twelve pieces wait. */
  lemma {:induction false} TwelveWait(checks: bool, s: State, es: seq<Event>)
    requires |s.heardPieces| <= 12
    ensures |Run(checks, s, es).heardPieces| <= 12
    decreases |es|
  {
    if es != [] {
      StepKeepsTwelve(checks, s, es[0]);
      TwelveWait(checks, Step(checks, s, es[0]), es[1..]);
    }
  }

  function WordsOf(s: State, k: nat): seq<Piece> {
    if k < |s.turns| then s.turns[k].heard else []
  }

  /** An answer has the words that waited when it was opened; its fallback may give it those that wait at the end
      of its own wait. */
  ghost predicate WordsFollow(checks: bool, s: State, e: Event, t: State, k: nat) {
    if (k == |s.turns| && Opens(checks, s, e)) || (EndsWait(s, e, k) && s.heardPieces != [])
    then WordsOf(t, k) == s.heardPieces
    else if e.Retracts? && AnswerIsOpen(s) && IsLast(s, k) then Left(WordsOf(s, k), e.misfired, WordsOf(t, k))
    else WordsOf(t, k) == WordsOf(s, k)
  }

  lemma FailedTurnKeepsWords(s: State, k: nat)
    requires s.HasTurn()
    ensures WordsOf(FailedTurn(s), k) == WordsOf(s, k)
  {
    var t := WithTurn(s, |s.turns| - 1, s.Current().(failed := true));
    assert WordsOf(t, k) == WordsOf(s, k);
    assert WordsOf(FallbackAsked(t, |t.turns| - 1), k) == WordsOf(t, k);
  }

  lemma JudgedKeepsWords(s: State, verdict: Verdict, k: nat)
    requires s.HasTurn()
    ensures WordsOf(Judged(s, verdict), k) == WordsOf(s, k)
  {
    FailedTurnKeepsWords(HoldEnded(s, Discarded), k);
  }

  lemma AnsweringTakesTheWords(s: State, k: nat)
    ensures WordsOf(Answering(s), k) ==
            if k == |s.turns| && (!AnswerIsOpen(s) || s.heardPieces != []) then s.heardPieces else WordsOf(s, k)
  {
  }

  lemma SaysGivesWords(checks: bool, s: State, e: Event, k: nat)
    requires e.Says?
    ensures WordsFollow(checks, s, e, Step(checks, s, e), k)
  {
    if IsJudged(checks, s, e) {
      AnsweringTakesTheWords(s, k);
      JudgedKeepsWords(Answering(s), e.verdict, k);
    }
  }

  lemma DroppingGivesWords(s: State, k: nat)
    ensures WordsOf(UncheckedDropped(s), k) ==
            if k == |s.turns| && !AnswerIsOpen(s) then s.heardPieces else WordsOf(s, k)
  {
    var t := HoldEnded(s, Discarded);
    FailedTurnKeepsWords(if s.Between() then Opened(t) else t, k);
  }

  lemma EndedKeepsWords(s: State, k: nat)
    ensures WordsOf(Ended(s), k) == WordsOf(s, k)
  {
  }

  lemma CompletesGivesWords(checks: bool, s: State, k: nat)
    ensures WordsFollow(checks, s, Completes, OnCompletes(checks, s), k)
  {
    if checks && s.pendingAudio != [] {
      DroppingGivesWords(s, k);
      EndedKeepsWords(UncheckedDropped(s), k);
    } else {
      EndedKeepsWords(s, k);
    }
  }

  lemma RetractsTakesWords(checks: bool, s: State, misfired: set<string>, k: nat)
    ensures WordsFollow(checks, s, Retracts(misfired), OnRetracts(s, misfired), k)
  {
    if !s.Between() {
      WithoutLeaves(s.Current().heard, misfired);
    }
  }

  lemma OthersLeaveWords(checks: bool, s: State, e: Event, k: nat)
    requires !e.Says? && !e.Completes? && !e.Retracts?
    ensures WordsFollow(checks, s, e, Step(checks, s, e), k)
  {
  }

  lemma WordsAreRead(checks: bool, s: State, e: Event, k: nat)
    ensures WordsFollow(checks, s, e, Step(checks, s, e), k)
  {
    match e
    case Retracts(misfired) => RetractsTakesWords(checks, s, misfired, k);
    case Says(_, _, _, _) => SaysGivesWords(checks, s, e, k);
    case Completes => CompletesGivesWords(checks, s, k);
    case _ => OthersLeaveWords(checks, s, e, k);
  }

  // ---- What the fallbacks say -------------------------------------------------------------------------

  function LastOf(s: State): nat {
    if s.turns == [] then 0 else |s.turns| - 1
  }

  function FallbackOf(s: State, k: nat): Fallback {
    if k < |s.turns| then s.turns[k].fallback else NotAsked
  }

  /** The event fails the answer that is current after it. */
  predicate Fails(checks: bool, s: State, e: Event, t: State) {
    Condemns(checks, s, e) && !HasFailed(s, LastOf(t))
  }

  predicate SpeaksLate(s: State, e: Event) {
    e.FallbackResumes? && EndsWait(s, e, e.turn) && s.heardPieces != []
  }

  predicate RepliesFollow(checks: bool, s: State, e: Event, t: State) {
    && t.requests == s.requests + (if Fails(checks, s, e, t) then [LastOf(t)] else [])
    && t.spoken == s.spoken +
         (if Fails(checks, s, e, t) && WordsOf(t, LastOf(t)) != [] then [(LastOf(t), WordsOf(t, LastOf(t)))]
          else if SpeaksLate(s, e) then [(e.turn, s.heardPieces)] else [])
  }

  predicate FallbackFollows(checks: bool, s: State, e: Event, t: State, k: nat) {
    FallbackOf(t, k) ==
      if Fails(checks, s, e, t) && k == LastOf(t) then (if WordsOf(t, k) != [] then Speaking else WaitsForWords)
      else if EndsWait(s, e, k) then (if s.heardPieces != [] then Speaking else Finished)
      else if e == FallbackSpoken(k) && FallbackOf(s, k) == Speaking then Finished
      else FallbackOf(s, k)
  }

  /** Failing the current answer, which had not failed, asks for its fallback. */
  lemma FailedTurnReplies(s: State, j: nat)
    requires s.HasTurn() && s.Current().fallback.NotAsked?
    ensures var t := FailedTurn(s);
            var k := |s.turns| - 1;
            && t.requests == s.requests + [k]
            && t.spoken == s.spoken + (if WordsOf(s, k) != [] then [(k, WordsOf(s, k))] else [])
            && FallbackOf(t, j) == if j != k then FallbackOf(s, j)
                                   else if WordsOf(s, k) != [] then Speaking else WaitsForWords
  {
  }

  lemma JudgedReplies(s: State, verdict: Verdict, j: nat)
    requires s.HasTurn() && (s.Current().failed || s.Current().fallback.NotAsked?)
    ensures var t := Judged(s, verdict);
            var k := |s.turns| - 1;
            var fails := !s.Current().failed && !verdict.Ok?;
            && t.requests == s.requests + (if fails then [k] else [])
            && t.spoken == s.spoken + (if fails && WordsOf(s, k) != [] then [(k, WordsOf(s, k))] else [])
            && FallbackOf(t, j) == if !fails || j != k then FallbackOf(s, j)
                                   else if WordsOf(s, k) != [] then Speaking else WaitsForWords
  {
    if !s.Current().failed && !verdict.Ok? {
      FailedTurnReplies(HoldEnded(s, Discarded), j);
    }
  }

  lemma AnsweringReplies(s: State, k: nat)
    ensures var t := Answering(s);
            t.requests == s.requests && t.spoken == s.spoken && FallbackOf(t, k) == FallbackOf(s, k)
  {
  }

  lemma AnsweringIsCurrent(s: State)
    requires FallbacksMatch(s)
    ensures var t := Answering(s);
            && t.HasTurn() && t.Current().failed == HasFailed(s, LastOf(t))
            && (t.Current().failed || t.Current().fallback.NotAsked?)
  {
    AnsweringKeepsMatch(s);
    AnsweringFlags(s, |Answering(s).turns| - 1);
  }

  lemma JudgedInPlace(s: State, verdict: Verdict)
    requires s.HasTurn()
    ensures var t := Judged(s, verdict);
            t.HasTurn() && LastOf(t) == LastOf(s) == |s.turns| - 1 && WordsOf(t, LastOf(t)) == WordsOf(s, LastOf(t))
  {
    JudgedKeepsTurns(s, verdict);
    JudgedKeepsWords(s, verdict, |s.turns| - 1);
  }

  lemma JudgedSaysReplies(s: State, e: Event, k: nat)
    requires IsJudged(true, s, e) && FallbacksMatch(s)
    ensures var t := Judged(Answering(s), e.verdict);
            RepliesFollow(true, s, e, t) && FallbackFollows(true, s, e, t, k)
  {
    var u := Answering(s);
    AnsweringIsCurrent(s);
    AnsweringReplies(s, k);
    JudgedInPlace(u, e.verdict);
    JudgedReplies(u, e.verdict, k);
  }

  lemma SaysReplies(checks: bool, s: State, e: Event, k: nat)
    requires e.Says? && FallbacksMatch(s)
    ensures var t := Step(checks, s, e); RepliesFollow(checks, s, e, t) && FallbackFollows(checks, s, e, t, k)
  {
    if IsJudged(checks, s, e) {
      JudgedSaysReplies(s, e, k);
    }
  }

  lemma EndedReplies(s: State, k: nat)
    ensures var t := Ended(s);
            && t.requests == s.requests && t.spoken == s.spoken && FallbackOf(t, k) == FallbackOf(s, k)
            && WordsOf(t, k) == WordsOf(s, k) && LastOf(t) == LastOf(s)
  {
  }

  lemma DroppedReplies(s: State, k: nat)
    requires FallbacksMatch(s)
    ensures var t := UncheckedDropped(s);
            var j := LastOf(t);
            && t.requests == s.requests + (if HasFailed(s, j) then [] else [j])
            && t.spoken == s.spoken + (if !HasFailed(s, j) && WordsOf(t, j) != [] then [(j, WordsOf(t, j))] else [])
            && FallbackOf(t, k) == if HasFailed(s, j) || k != j then FallbackOf(s, k)
                                   else if WordsOf(t, j) != [] then Speaking else WaitsForWords
  {
    var t := HoldEnded(s, Discarded);
    var u := if s.Between() then Opened(t) else t;
    var j := |u.turns| - 1;
    assert u.Current().failed == HasFailed(s, j);
    assert FallbackOf(u, k) == FallbackOf(s, k);
    if !u.Current().failed {
      FailedTurnReplies(u, k);
      FailedTurnKeepsWords(u, j);
      FailedTurnFlags(u, j);
    }
  }

  lemma CompletesReplies(checks: bool, s: State, k: nat)
    requires FallbacksMatch(s)
    ensures var t := OnCompletes(checks, s);
            RepliesFollow(checks, s, Completes, t) && FallbackFollows(checks, s, Completes, t, k)
  {
    if checks && s.pendingAudio != [] {
      DroppedReplies(s, k);
      EndedReplies(UncheckedDropped(s), k);
      EndedReplies(UncheckedDropped(s), LastOf(UncheckedDropped(s)));
    } else {
      EndedReplies(s, k);
    }
  }

  lemma OthersReply(checks: bool, s: State, e: Event, k: nat)
    requires !e.Says? && !e.Completes?
    ensures var t := Step(checks, s, e); RepliesFollow(checks, s, e, t) && FallbackFollows(checks, s, e, t, k)
  {
  }

  /** An event asks for a fallback exactly if it fails an answer that had not failed. The fallback says the answer's
      words at once, or waits if there are none and then says those that came meanwhile, or nothing. */
  lemma RepliesAreRead(checks: bool, s: State, e: Event, k: nat)
    requires FallbacksMatch(s)
    ensures var t := Step(checks, s, e); RepliesFollow(checks, s, e, t) && FallbackFollows(checks, s, e, t, k)
  {
    match e
    case Says(_, _, _, _) => SaysReplies(checks, s, e, k);
    case Completes => CompletesReplies(checks, s, k);
    case _ => OthersReply(checks, s, e, k);
  }

  // ---- In the customer's own words --------------------------------------------------------------------

  /** What the customer said in the run, in order. */
  function HeardTexts(checks: bool, es: seq<Event>): seq<string> {
    if es == [] then [] else
    var last := es[|es| - 1];
    HeardTexts(checks, es[..|es| - 1]) + if last.Hears? && checks && last.text != "" then [last.text] else []
  }

  /** The pieces are numbered as they were said. */
  ghost predicate Verbatim(pieces: seq<Piece>, texts: seq<string>) {
    forall p :: p in pieces ==> p.id < |texts| && p.text == texts[p.id]
  }

  ghost predicate AllVerbatim(s: State, texts: seq<string>) {
    && |texts| == s.pieces && Verbatim(s.heardPieces, texts)
    && (forall k :: 0 <= k < |s.turns| ==> Verbatim(WordsOf(s, k), texts))
    && (forall i :: 0 <= i < |s.spoken| ==> Verbatim(s.spoken[i].1, texts))
  }

  lemma WaitingStaysVerbatim(checks: bool, s: State, e: Event, texts: seq<string>, more: seq<string>)
    requires |s.heardPieces| <= 12 && AllVerbatim(s, texts) && |more| == if Adds(checks, e) then 1 else 0
    requires Adds(checks, e) ==> more[0] == e.text
    ensures |texts + more| == Step(checks, s, e).pieces && Verbatim(Step(checks, s, e).heardPieces, texts + more)
  {
    WaitingIsRead(checks, s, e);
    var now := Step(checks, s, e).heardPieces;
    forall p | p in now ensures p.id < |texts + more| && p.text == (texts + more)[p.id] {
      assert p in s.heardPieces || (Adds(checks, e) && p == Piece(s.pieces, e.text));
    }
  }

  lemma StepStaysVerbatim(checks: bool, s: State, e: Event, texts: seq<string>, more: seq<string>)
    requires |s.heardPieces| <= 12 && FallbacksMatch(s) && AllVerbatim(s, texts)
    requires |more| == if Adds(checks, e) then 1 else 0
    requires Adds(checks, e) ==> more[0] == e.text
    ensures AllVerbatim(Step(checks, s, e), texts + more)
  {
    var t := Step(checks, s, e);
    WaitingStaysVerbatim(checks, s, e, texts, more);
    forall k: nat | k < |t.turns| ensures Verbatim(WordsOf(t, k), texts + more) {
      WordsAreRead(checks, s, e, k);
      assert Verbatim(WordsOf(s, k), texts);
    }
    RepliesAreRead(checks, s, e, 0);
    forall i | 0 <= i < |t.spoken| ensures Verbatim(t.spoken[i].1, texts + more) {
      if i < |s.spoken| {
        assert Verbatim(s.spoken[i].1, texts);
      } else {
        assert Verbatim(t.spoken[i].1, texts + more);
      }
    }
  }

  lemma {:induction false} RunStaysVerbatim(checks: bool, es: seq<Event>)
    ensures AllVerbatim(Run(checks, INITIAL, es), HeardTexts(checks, es))
    decreases |es|
  {
    if es != [] {
      var before, e := es[..|es| - 1], es[|es| - 1];
      RunStaysVerbatim(checks, before);
      TwelveWait(checks, INITIAL, before);
      OneFallbackPerFailedAnswer(checks, INITIAL, before);
      RunAppends(checks, INITIAL, before, e);
      assert before + [e] == es;
      StepStaysVerbatim(checks, Run(checks, INITIAL, before), e, HeardTexts(checks, before),
                        if Adds(checks, e) then [e.text] else []);
    }
  }

  /** What the fallbacks say is what the customer said, piece by piece. */
  lemma FallbacksSayWhatWasHeard(checks: bool, es: seq<Event>, i: nat, a: nat)
    requires var spoken := Run(checks, INITIAL, es).spoken; i < |spoken| && a < |spoken[i].1|
    ensures var p := Run(checks, INITIAL, es).spoken[i].1[a];
            p.id < |HeardTexts(checks, es)| && p.text == HeardTexts(checks, es)[p.id]
  {
    RunStaysVerbatim(checks, es);
    var said := Run(checks, INITIAL, es).spoken[i].1;
    assert Verbatim(said, HeardTexts(checks, es)) && said[a] in said;
  }
}
