/** The watchdog by what happened alone: which sentences it takes up and from when on a hearing may vouch for them,
    which hearings have done so, and for which sentences it fires.
 */
module SilenceHistory {
  import opened Common
  import opened SilenceWatchdog

  // ---- What Nova Sonic reported since the last reset --------------------------------------------------

  function Reports(es: seq<Event>): seq<int> {
    if es == [] then [] else
    match es[|es| - 1]
    case NovaReports(_, now) => Reports(es[..|es| - 1]) + [now]
    case Resets => []
    case _ => Reports(es[..|es| - 1])
  }

  /** Its transcripts of the speaker, with their times. */
  function Transcripts(es: seq<Event>): seq<(string, int)> {
    if es == [] then [] else
    match es[|es| - 1]
    case NovaReports(text, now) => Transcripts(es[..|es| - 1]) + if text == "" then [] else [(text, now)]
    case Resets => []
    case _ => Transcripts(es[..|es| - 1])
  }

  /** When the current session began. */
  function SessionStart(es: seq<Event>): int {
    if es == [] then 0 else
    match es[|es| - 1]
    case SessionStarts(now) => now
    case Resets => 0
    case _ => SessionStart(es[..|es| - 1])
  }

  // ---- The sentences it takes up ----------------------------------------------------------------------

  /** The watch is armed and has triggers left, the sentence is long enough, and the session has settled. */
  ghost predicate Accepts(cfg: Config, es: seq<Event>, e: Event)
    decreases |es|, 1
  {
    && e.Sentence? && e.armed && Triggered(cfg, es) < cfg.maxTriggers
    && |e.text| >= cfg.minChars && cfg.words(e.text) >= cfg.minWords
    && e.now - SessionStart(es) >= cfg.settleMs
  }

  /** When the last sentence was taken up. */
  ghost function LastTakenUp(cfg: Config, es: seq<Event>): int
    decreases |es|, 0
  {
    if es == [] then 0 else
    var before, last := es[..|es| - 1], es[|es| - 1];
    if last.Resets? then 0 else if Accepts(cfg, before, last) then last.now else LastTakenUp(cfg, before)
  }

  /** All sentences taken up. What was heard since the one before and since the session's start is theirs. */
  ghost function TakenUp(cfg: Config, es: seq<Event>): seq<Note>
    decreases |es|, 0
  {
    if es == [] then [] else
    var before, last := es[..|es| - 1], es[|es| - 1];
    if Accepts(cfg, before, last)
    then TakenUp(cfg, before) + [Note(last.text, last.now, Max(LastTakenUp(cfg, before), SessionStart(before)))]
    else TakenUp(cfg, before)
  }

  /** The timer of an open sentence has waited long enough. */
  ghost predicate IsDue(cfg: Config, es: seq<Event>, e: Event)
    decreases |es|, 1
  {
    e.Fires? && IsOpen(cfg, es, e.id) && e.id < |TakenUp(cfg, es)| && e.now >= TakenUp(cfg, es)[e.id].at + cfg.waitMs
  }

  /** The sentence was taken up and its timer neither fired nor was cancelled. */
  ghost predicate IsOpen(cfg: Config, es: seq<Event>, id: nat)
    decreases |es|, 0
  {
    if es == [] then false else
    var before, last := es[..|es| - 1], es[|es| - 1];
    match last
    case Cancels => false
    case Resets => false
    case Fires(fired, _, _) => IsOpen(cfg, before, id) && !(fired == id && IsDue(cfg, before, last))
    case Sentence(_, _, _) => IsOpen(cfg, before, id) || (id == |TakenUp(cfg, before)| && Accepts(cfg, before, last))
    case _ => IsOpen(cfg, before, id)
  }

  // ---- What it makes of them --------------------------------------------------------------------------

  /** The sentence is judged: an open one whose time has come, while the watch is armed and has triggers left. */
  ghost predicate Judges(cfg: Config, es: seq<Event>, e: Event)
    ensures Judges(cfg, es, e) ==> e.Fires? && e.id < |TakenUp(cfg, es)|
    decreases |es|, 2
  {
    e.Fires? && e.id < |TakenUp(cfg, es)| && IsDue(cfg, es, e) && e.armed && Triggered(cfg, es) < cfg.maxTriggers
  }

  /** Transcript `i` is among the last twelve, and not too much older than the last one. */
  predicate Remembered(cfg: Config, es: seq<Event>, i: nat) {
    var all := Transcripts(es);
    i < |all| && |all| <= i + 12 && all[|all| - 1].1 - all[i].1 <= cfg.heardMemoryMs
  }

  /** Transcript `i` came in the sentence's window, with enough words, most of them the sentence's. */
  predicate IsOf(cfg: Config, es: seq<Event>, i: nat, note: Note) {
    var all := Transcripts(es);
    && i < |all| && all[i].1 >= note.since
    && cfg.words(all[i].0) >= cfg.heardMinWords && cfg.share(all[i].0, note.text) >= cfg.heardMinShare
  }

  /** Transcript `i` has vouched for a sentence: one was judged while it was remembered and unused. */
  ghost predicate Used(cfg: Config, es: seq<Event>, i: nat)
    decreases |es|, 0
  {
    if es == [] then false else
    var before, last := es[..|es| - 1], es[|es| - 1];
    && !last.Resets?
    && (Used(cfg, before, i) ||
        (Judges(cfg, before, last) && Remembered(cfg, before, i)
         && IsOf(cfg, before, i, TakenUp(cfg, before)[last.id])))
  }

  ghost predicate HeardOf(cfg: Config, es: seq<Event>, note: Note)
    decreases |es|, 1
  {
    exists i: nat :: IsOf(cfg, es, i, note) && Remembered(cfg, es, i) && !Used(cfg, es, i)
  }

  /** Nova Sonic reported nothing from the grace period before the time on. */
  ghost predicate NothingReported(cfg: Config, es: seq<Event>, at: int) {
    && (forall now :: now in Reports(es) ==> now < at - cfg.graceBeforeMs)
    && (Reports(es) == [] ==> 0 < at - cfg.graceBeforeMs)
  }

  /** The watch fires: nothing was reported since, and of the sentence nothing was heard that could vouch for it. */
  ghost predicate FindsSilence(cfg: Config, es: seq<Event>, e: Event)
    decreases |es|, 3
  {
    && Judges(cfg, es, e)
    && NothingReported(cfg, es, TakenUp(cfg, es)[e.id].at) && !HeardOf(cfg, es, TakenUp(cfg, es)[e.id])
  }

  /** How often it has fired since the last reset. */
  ghost function Triggered(cfg: Config, es: seq<Event>): nat
    decreases |es|, 0
  {
    if es == [] then 0 else
    var before, last := es[..|es| - 1], es[|es| - 1];
    if last.Resets? then 0 else Triggered(cfg, before) + if FindsSilence(cfg, before, last) then 1 else 0
  }

  // ---- The watchdog is as told ------------------------------------------------------------------------

  ghost predicate HeardIsTold(s: State, es: seq<Event>) {
    && s.eventTimes == Reports(es) && s.sessionStartedAt == SessionStart(es)
    && |s.heard| == |Transcripts(es)|
    && forall i :: 0 <= i < |s.heard| ==> (s.heard[i].text, s.heard[i].at) == Transcripts(es)[i]
  }

  ghost predicate PendingIsTold(cfg: Config, s: State, es: seq<Event>, id: nat) {
    && (id in s.pending <==> IsOpen(cfg, es, id))
    && (id in s.pending ==> id < |TakenUp(cfg, es)| && s.pending[id] == TakenUp(cfg, es)[id])
  }

  ghost predicate VouchIsTold(cfg: Config, s: State, es: seq<Event>, i: nat) {
    i in s.vouches <==> Used(cfg, es, i)
  }

  ghost predicate CountsAreTold(cfg: Config, s: State, es: seq<Event>) {
    && s.triggers == Triggered(cfg, es) && s.lastJudgedAt == LastTakenUp(cfg, es)
    && s.noted == |TakenUp(cfg, es)|
  }

  ghost predicate IsTold(cfg: Config, s: State, es: seq<Event>) {
    && HeardIsTold(s, es) && CountsAreTold(cfg, s, es)
    && (forall id: nat :: PendingIsTold(cfg, s, es, id))
    && (forall i: nat :: VouchIsTold(cfg, s, es, i))
  }

  lemma HearingIsTold(cfg: Config, s: State, es: seq<Event>, e: Event)
    requires HeardIsTold(s, es)
    ensures HeardIsTold(Step(cfg, s, e), es + [e])
  {
    assert (es + [e])[..|es|] == es;
  }

  lemma DueIsTold(cfg: Config, s: State, es: seq<Event>, e: Event)
    requires IsTold(cfg, s, es) && e.Fires?
    ensures IsDue(cfg, es, e) <==> Enabled(cfg, s, e)
  {
    assert PendingIsTold(cfg, s, es, e.id);
  }

  /** A remembered transcript of the sentence that has not been used is one in the list that vouches. */
  lemma VouchingIsTold(cfg: Config, s: State, es: seq<Event>, note: Note, i: nat)
    requires IsTold(cfg, s, es) && Remembers(cfg, s.heard, s.hearings, s.vouches)
    ensures var k := |s.heard| - |s.hearings|;
            IsOf(cfg, es, i, note) && Remembered(cfg, es, i) && !Used(cfg, es, i) <==>
            k <= i < |s.heard| && Vouches(cfg, s.hearings[i - k], note)
  {
    assert VouchIsTold(cfg, s, es, i);
    if i < |s.heard| {
      assert Placed(cfg, s.heard, s.hearings, s.vouches, i);
      assert Remembered(cfg, es, i) <==> !Forgotten(cfg, s.heard, i);
    }
  }

  lemma HeardOfIsTold(cfg: Config, s: State, es: seq<Event>, note: Note)
    requires IsTold(cfg, s, es) && Remembers(cfg, s.heard, s.hearings, s.vouches)
    ensures HeardOf(cfg, es, note) <==> IsHeard(cfg, s.hearings, note)
  {
    var k := |s.heard| - |s.hearings|;
    if HeardOf(cfg, es, note) {
      var i: nat :| IsOf(cfg, es, i, note) && Remembered(cfg, es, i) && !Used(cfg, es, i);
      VouchingIsTold(cfg, s, es, note, i);
    }
    if IsHeard(cfg, s.hearings, note) {
      var i :| 0 <= i < |s.hearings| && Vouches(cfg, s.hearings[i], note);
      VouchingIsTold(cfg, s, es, note, k + i);
    }
  }

  lemma SilenceIsTold(cfg: Config, s: State, es: seq<Event>, e: Event, clock: int)
    requires IsTold(cfg, s, es) && Inv(cfg, s, clock) && e.Fires?
    ensures FindsSilence(cfg, es, e) <==> Enabled(cfg, s, e) && Triggers(cfg, s, e.id, e.armed)
  {
    DueIsTold(cfg, s, es, e);
    if Enabled(cfg, s, e) {
      assert PendingIsTold(cfg, s, es, e.id);
      HeardOfIsTold(cfg, s, es, s.pending[e.id]);
    }
  }

  lemma AcceptingIsTold(cfg: Config, s: State, es: seq<Event>, e: Event)
    requires IsTold(cfg, s, es) && e.Sentence?
    ensures Accepts(cfg, es, e) <==> OnSentence(cfg, s, e.text, e.armed, e.now) != s
    ensures Accepts(cfg, es, e) ==>
              var t := OnSentence(cfg, s, e.text, e.armed, e.now);
              && t.lastJudgedAt == e.now && t.noted == s.noted + 1
              && t.pending == s.pending[s.noted := Note(e.text, e.now, Max(LastTakenUp(cfg, es), SessionStart(es)))]
              && t.triggers == s.triggers && t.vouches == s.vouches
  {
    assert OnSentence(cfg, s, e.text, e.armed, e.now).noted == s.noted + 1 ||
           OnSentence(cfg, s, e.text, e.armed, e.now) == s;
  }

  lemma StepCounts(cfg: Config, s: State, es: seq<Event>, e: Event, clock: int)
    requires IsTold(cfg, s, es) && Inv(cfg, s, clock)
    ensures CountsAreTold(cfg, Step(cfg, s, e), es + [e])
  {
    assert (es + [e])[..|es|] == es;
    if e.Sentence? {
      AcceptingIsTold(cfg, s, es, e);
    } else if e.Fires? {
      SilenceIsTold(cfg, s, es, e, clock);
    }
  }

  lemma StepPending(cfg: Config, s: State, es: seq<Event>, e: Event, id: nat)
    requires IsTold(cfg, s, es)
    ensures PendingIsTold(cfg, Step(cfg, s, e), es + [e], id)
  {
    assert (es + [e])[..|es|] == es;
    assert PendingIsTold(cfg, s, es, id);
    if e.Sentence? {
      AcceptingIsTold(cfg, s, es, e);
    } else if e.Fires? {
      DueIsTold(cfg, s, es, e);
    }
  }

  lemma NewVouchIsTold(cfg: Config, s: State, es: seq<Event>, note: Note, id: nat, clock: int, i: nat)
    requires IsTold(cfg, s, es) && Inv(cfg, s, clock)
    ensures i in s.vouches + NewVouches(cfg, s.hearings, note, id) <==>
            Used(cfg, es, i) || (Remembered(cfg, es, i) && IsOf(cfg, es, i, note))
  {
    assert VouchIsTold(cfg, s, es, i);
    NewVouchesAre(cfg, s.heard, s.hearings, s.vouches, note, id, clock, i);
    VouchingIsTold(cfg, s, es, note, i);
  }

  lemma JudgingIsTold(cfg: Config, s: State, es: seq<Event>, e: Event, clock: int, i: nat)
    requires IsTold(cfg, s, es) && Inv(cfg, s, clock) && Judges(cfg, es, e) && e.id in s.pending
    ensures i in Judging(cfg, s, e.id).vouches <==>
            Used(cfg, es, i) || (Remembered(cfg, es, i) && IsOf(cfg, es, i, TakenUp(cfg, es)[e.id]))
  {
    assert PendingIsTold(cfg, s, es, e.id);
    NewVouchIsTold(cfg, s, es, s.pending[e.id], e.id, clock, i);
  }

  lemma FiringIsTold(cfg: Config, s: State, es: seq<Event>, e: Event)
    requires IsTold(cfg, s, es) && e.Fires?
    ensures Judges(cfg, es, e) ==> e.id in s.pending
    ensures Step(cfg, s, e).vouches == if Judges(cfg, es, e) then Judging(cfg, s, e.id).vouches else s.vouches
  {
    DueIsTold(cfg, s, es, e);
    assert PendingIsTold(cfg, s, es, e.id);
  }

  lemma StepVouches(cfg: Config, s: State, es: seq<Event>, e: Event, clock: int, i: nat)
    requires IsTold(cfg, s, es) && Inv(cfg, s, clock)
    ensures VouchIsTold(cfg, Step(cfg, s, e), es + [e], i)
  {
    assert (es + [e])[..|es|] == es;
    assert VouchIsTold(cfg, s, es, i);
    if e.Fires? {
      FiringIsTold(cfg, s, es, e);
      if Judges(cfg, es, e) {
        JudgingIsTold(cfg, s, es, e, clock, i);
      }
    }
  }

  lemma StepIsTold(cfg: Config, s: State, es: seq<Event>, e: Event, clock: int)
    requires IsTold(cfg, s, es) && Inv(cfg, s, clock)
    ensures IsTold(cfg, Step(cfg, s, e), es + [e])
  {
    HearingIsTold(cfg, s, es, e);
    StepCounts(cfg, s, es, e, clock);
    forall id: nat ensures PendingIsTold(cfg, Step(cfg, s, e), es + [e], id) {
      StepPending(cfg, s, es, e, id);
    }
    forall i: nat ensures VouchIsTold(cfg, Step(cfg, s, e), es + [e], i) {
      StepVouches(cfg, s, es, e, clock, i);
    }
  }

  lemma {:induction false} RunFromIsTold(cfg: Config, s: State, past: seq<Event>, es: seq<Event>, clock: int)
    returns (end: int)
    requires IsTold(cfg, s, past) && Inv(cfg, s, clock) && Forward(clock, es)
    ensures IsTold(cfg, Run(cfg, s, es), past + es) && Inv(cfg, Run(cfg, s, es), end)
    decreases |es|
  {
    if es == [] {
      assert past + es == past;
      end := clock;
    } else {
      StepIsTold(cfg, s, past, es[0], clock);
      StepKeepsInv(cfg, s, es[0], clock);
      end := RunFromIsTold(cfg, Step(cfg, s, es[0]), past + [es[0]], es[1..], Clock(clock, es[0]));
      assert past + [es[0]] + es[1..] == past + es;
    }
  }

  /** In every run whose clock does not go back the watchdog is as its history says: which sentences it has taken up
      and still waits for, with the window of each one, which hearings are used up, and how often it has fired. */
  lemma RunIsTold(cfg: Config, es: seq<Event>, clock: int) returns (end: int)
    requires Forward(clock, es)
    ensures IsTold(cfg, Run(cfg, INITIAL, es), es) && Inv(cfg, Run(cfg, INITIAL, es), end)
  {
    end := RunFromIsTold(cfg, INITIAL, [], es, clock);
    assert [] + es == es;
  }

  /** A sentence is taken up exactly if the watch is armed and has triggers left, it is long enough and the session
      has settled; its window begins at the session's start, or at the last sentence taken up if that is later. */
  lemma SentenceIsTakenUpExactly(cfg: Config, es: seq<Event>, text: string, armed: bool, now: int, clock: int)
    requires Forward(clock, es)
    ensures var s := Run(cfg, INITIAL, es);
            var t := Step(cfg, s, Sentence(text, armed, now));
            if Accepts(cfg, es, Sentence(text, armed, now)) then
              t.pending == s.pending[s.noted := Note(text, now, Max(LastTakenUp(cfg, es), SessionStart(es)))]
            else t == s
  {
    var end := RunIsTold(cfg, es, clock);
    AcceptingIsTold(cfg, Run(cfg, INITIAL, es), es, Sentence(text, armed, now));
  }

  /** The watch fires exactly for a sentence that is due while it is armed and has triggers left, if nothing was
      reported from the grace period before the sentence on and no hearing of the sentence in its window is
      remembered and unused; and each time its count goes up. */
  lemma FiresExactlyOnSilence(cfg: Config, es: seq<Event>, e: Event, clock: int)
    requires Forward(clock, es) && e.Fires?
    ensures var s := Run(cfg, INITIAL, es);
            && (FindsSilence(cfg, es, e) <==> Enabled(cfg, s, e) && Triggers(cfg, s, e.id, e.armed))
            && Step(cfg, s, e).triggers == Triggered(cfg, es) + if FindsSilence(cfg, es, e) then 1 else 0
  {
    var end := RunIsTold(cfg, es, clock);
    SilenceIsTold(cfg, Run(cfg, INITIAL, es), es, e, end);
  }
}
