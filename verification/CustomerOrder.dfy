/** The order in which a customer session's audio is handed to the player, over whole runs. */
module CustomerOrder {
  import opened CustomerPlayback
  import opened CustomerTurns
  import opened CustomerAudio

  /** Handed over, or to be handed over by a release, is what was played on arrival or released. */
  ghost predicate PlaysItsFates(s: State) {
    forall c: nat :: (c in s.fates && !s.fates[c].Discarded?) <==> Heard(s.playback, c)
  }

  ghost predicate PlaybackInv(s: State) {
    && ChunksAccounted(s) && FailedHoldsNothing(s) && PlaysItsFates(s)
    && Fits(s.playback, s.pendingAudio, s.arrived)
  }

  /** The sentence is judged and lets go of the hold. */
  predicate Passes(checks: bool, s: State, e: Event) {
    IsJudged(checks, s, e) && e.verdict.Ok? && (s.Between() || s.heardPieces != [] || !s.Current().failed)
  }

  /** The hold is left alone, or dropped as a whole. */
  ghost predicate HoldsOrDrops(s: State, t: State) {
    && t.playback == s.playback && t.arrived == s.arrived
    && ((t.pendingAudio == s.pendingAudio && t.fates == s.fates) ||
        (t.pendingAudio == [] && t.fates == s.fates + (map c | c in s.pendingAudio :: Discarded)))
  }

  lemma JudgedPlays(s: State, verdict: Verdict)
    requires s.HasTurn()
    ensures var t := Judged(s, verdict);
            if verdict.Ok? && !s.Current().failed
            then && t.pendingAudio == [] && t.playback == Begun(s.playback, s.pendingAudio) && t.arrived == s.arrived
                 && t.fates == s.fates + (map c | c in s.pendingAudio :: Released)
            else HoldsOrDrops(s, t)
  {
    FailedTurnLeavesAudio(HoldEnded(s, Discarded));
  }

  lemma SaysPlays(checks: bool, s: State, e: Event)
    requires e.Says?
    ensures var t := Step(checks, s, e);
            if Passes(checks, s, e)
            then && t.pendingAudio == [] && t.playback == Begun(s.playback, s.pendingAudio) && t.arrived == s.arrived
                 && t.fates == s.fates + (map c | c in s.pendingAudio :: Released)
            else HoldsOrDrops(s, t)
  {
    AnsweringLeavesAudio(s);
    var t := Answering(s);
    assert t.playback == s.playback;
    assert s.Between() || s.heardPieces != [] ==> !t.Current().failed;
    JudgedPlays(t, e.verdict);
  }

  lemma CompletesPlays(checks: bool, s: State)
    ensures HoldsOrDrops(s, OnCompletes(checks, s))
  {
    if checks && s.pendingAudio != [] {
      var t := HoldEnded(s, Discarded);
      var u := if s.Between() then Opened(t) else t;
      FailedTurnLeavesAudio(u);
    }
  }

  lemma DropKeepsPlayback(s: State, t: State)
    requires PlaybackInv(s) && HoldsOrDrops(s, t)
    ensures PlaysItsFates(t) && Fits(t.playback, t.pendingAudio, t.arrived)
    ensures InStep(s.playback, s.pendingAudio) ==> InStep(t.playback, t.pendingAudio)
  {
    DropFits(s.playback, s.pendingAudio, s.arrived);
    if InStep(s.playback, s.pendingAudio) {
      DropInStep(s.playback, s.pendingAudio);
    }
  }

  /** A chunk gets its fate on arrival. */
  lemma FateOfOne(s: State, fate: Fate, c: nat)
    ensures var fates := s.fates + (map d | d in [s.arrived] :: fate);
            (c in fates <==> c in s.fates || c == s.arrived) &&
            (c in fates ==> fates[c] == if c == s.arrived then fate else s.fates[c])
  {
  }

  lemma AudioKeepsFates(checks: bool, s: State, unvetted: bool)
    requires PlaysItsFates(s) && s.arrived !in s.fates
    requires Fits(s.playback, s.pendingAudio, s.arrived)
    ensures PlaysItsFates(OnAudio(checks, s, unvetted))
  {
    var t := OnAudio(checks, s, unvetted);
    if PlaysOnArrival(checks, s, unvetted) {
      PlayedNowFits(s.playback, s.pendingAudio, s.arrived);
    }
    forall c: nat ensures (c in t.fates && !t.fates[c].Discarded?) <==> Heard(t.playback, c) {
      FateOfOne(s, PlayedOnArrival, c);
      FateOfOne(s, Discarded, c);
    }
  }

  lemma AudioFits(checks: bool, s: State, unvetted: bool)
    requires Fits(s.playback, s.pendingAudio, s.arrived)
    ensures var t := OnAudio(checks, s, unvetted); Fits(t.playback, t.pendingAudio, t.arrived)
  {
    if PlaysOnArrival(checks, s, unvetted) {
      PlayedNowFits(s.playback, s.pendingAudio, s.arrived);
    } else {
      ArrivalFits(s.playback, s.pendingAudio, s.arrived);
    }
  }

  lemma AudioKeepsPlayback(checks: bool, s: State, unvetted: bool)
    requires PlaybackInv(s)
    ensures var t := OnAudio(checks, s, unvetted); PlaysItsFates(t) && Fits(t.playback, t.pendingAudio, t.arrived)
  {
    AudioFits(checks, s, unvetted);
    AudioKeepsFates(checks, s, unvetted);
  }

  lemma PassKeepsPlayback(checks: bool, s: State, e: Event)
    requires PlaybackInv(s) && Passes(checks, s, e)
    ensures var t := Step(checks, s, e); PlaysItsFates(t) && Fits(t.playback, t.pendingAudio, t.arrived)
  {
    SaysPlays(checks, s, e);
    BegunFits(s.playback, s.pendingAudio, s.arrived);
  }

  lemma StepKeepsPlayback(checks: bool, s: State, e: Event)
    requires PlaybackInv(s)
    ensures PlaybackInv(Step(checks, s, e))
  {
    StepAccountsForChunks(checks, s, e);
    if e.Audio? {
      AudioKeepsPlayback(checks, s, e.unvetted);
    } else if Passes(checks, s, e) {
      PassKeepsPlayback(checks, s, e);
    } else if e.Says? {
      SaysPlays(checks, s, e);
      DropKeepsPlayback(s, Step(checks, s, e));
    } else if e.Completes? {
      CompletesPlays(checks, s);
      DropKeepsPlayback(s, Step(checks, s, e));
    } else if e.ReleaseContinues? && Enabled(s, e) {
      ContinuedFits(s.playback, s.pendingAudio, s.arrived, e.release);
    }
  }

  /** Over every run, exactly the chunks played on arrival or released are handed to the player, by and by,
      each once; and each release hands over its hold from the front, in order of arrival. */
  lemma {:induction false} EachReleasePlaysInOrder(checks: bool, s: State, es: seq<Event>)
    requires PlaybackInv(s)
    ensures var t := Run(checks, s, es);
            && (forall c: nat :: (c in t.fates && !t.fates[c].Discarded?) <==> Heard(t.playback, c))
            && NoRepeats(t.playback.played) && AllInTurn(t.playback)
    ensures PlaybackInv(Run(checks, s, es))
    decreases |es|
  {
    if es != [] {
      StepKeepsPlayback(checks, s, es[0]);
      EachReleasePlaysInOrder(checks, Step(checks, s, es[0]), es[1..]);
    }
  }

  /** A chunk plays on arrival while others are held or being released, or a hold is released while another
      release is under way. */
  ghost predicate Overtakes(checks: bool, s: State, e: Event) {
    || (e.Audio? && PlaysOnArrival(checks, s, e.unvetted) && (s.pendingAudio != [] || Backlog(s.playback)))
    || (Passes(checks, s, e) && s.pendingAudio != [] && Backlog(s.playback))
  }

  ghost predicate PlaysInStep(s: State) {
    InStep(s.playback, s.pendingAudio)
  }

  lemma StepPlaysInStepExactly(checks: bool, s: State, e: Event)
    requires PlaybackInv(s) && PlaysInStep(s)
    ensures PlaysInStep(Step(checks, s, e)) <==> !Overtakes(checks, s, e)
  {
    if e.Audio? {
      NewOneInStep(s.playback, s.pendingAudio, s.arrived);
      PlayedNowInStepExactly(s.playback, s.pendingAudio, s.arrived);
    } else if Passes(checks, s, e) {
      SaysPlays(checks, s, e);
      BegunInStepExactly(s.playback, s.pendingAudio, s.arrived);
    } else if e.Says? {
      SaysPlays(checks, s, e);
      DropKeepsPlayback(s, Step(checks, s, e));
    } else if e.Completes? {
      CompletesPlays(checks, s);
      DropKeepsPlayback(s, Step(checks, s, e));
    } else if e.ReleaseContinues? && Enabled(s, e) {
      ContinuedInStep(s.playback, s.pendingAudio, s.arrived, e.release);
    }
  }

  ghost predicate AlwaysInStep(checks: bool, s: State, es: seq<Event>)
    decreases |es|
  {
    PlaysInStep(s) && (es == [] || AlwaysInStep(checks, Step(checks, s, es[0]), es[1..]))
  }

  ghost predicate NeverOvertakes(checks: bool, s: State, es: seq<Event>)
    decreases |es|
  {
    es == [] || (!Overtakes(checks, s, es[0]) && NeverOvertakes(checks, Step(checks, s, es[0]), es[1..]))
  }

  /** Audio is handed over in the order of arrival, and none is left behind by later audio, at every moment of
      a run exactly if nothing overtakes in it. */
  lemma {:induction false} PlaysInOrderExactly(checks: bool, s: State, es: seq<Event>)
    requires PlaybackInv(s) && PlaysInStep(s)
    ensures AlwaysInStep(checks, s, es) <==> NeverOvertakes(checks, s, es)
    decreases |es|
  {
    if es != [] {
      var t := Step(checks, s, es[0]);
      StepKeepsPlayback(checks, s, es[0]);
      StepPlaysInStepExactly(checks, s, es[0]);
      if PlaysInStep(t) {
        PlaysInOrderExactly(checks, t, es[1..]);
      }
    }
  }

  /** Two chunks on hold are released by the session's first sentence. */
  lemma FirstRelease(text: string)
    requires text != ""
    ensures var s := Step(true, Run(true, INITIAL, [Hears(text), Audio(true), Audio(true)]), Said(Ok));
            && s.playback == Playback([Release([0, 1], 1)], [0]) && s.arrived == 2
            && |s.turns| == 1 && s.turns[0].allowed && !s.turns[0].failed
  {
    var s1 := Step(true, INITIAL, Hears(text));
    var s2 := Step(true, s1, Audio(true));
    var s3 := Step(true, s2, Audio(true));
    RunOfThree(true, INITIAL, Hears(text), Audio(true), Audio(true));
    assert s2.pendingAudio == [0] && s3.pendingAudio == [0, 1] && s3.turns == [] && s3.arrived == 2;
    var t := Answering(s3);
    assert |t.turns| == 1 && t.pendingAudio == [0, 1] && !t.Current().failed;
  }

  lemma CheckedAudioOvertakes(s: State)
    requires s.playback == Playback([Release([0, 1], 1)], [0]) && s.arrived == 2
    requires s.HasTurn() && s.Current().allowed && !s.Current().failed
    ensures Step(true, Step(true, s, Audio(false)), ReleaseContinues(0)).playback.played == [0, 2, 1]
  {
    assert Step(true, s, Audio(false)).playback == Playback([Release([0, 1], 1)], [0, 2]);
  }

  /** Checked audio that comes while a hold is being released is played in the middle of it. */
  lemma LaterAudioCanOvertake(text: string)
    requires text != ""
    ensures var t := Run(true, INITIAL, [Hears(text), Audio(true), Audio(true)] +
                                        [Said(Ok), Audio(false), ReleaseContinues(0)]);
            t.playback.played == [0, 2, 1]
  {
    FirstRelease(text);
    var s := Run(true, INITIAL, [Hears(text), Audio(true), Audio(true)]);
    CheckedAudioOvertakes(Step(true, s, Said(Ok)));
    RunSplits(true, INITIAL, [Hears(text), Audio(true), Audio(true)], [Said(Ok), Audio(false), ReleaseContinues(0)]);
    RunOfThree(true, s, Said(Ok), Audio(false), ReleaseContinues(0));
  }
}
