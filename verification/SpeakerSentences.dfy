/** What the backup's speaker says of what it is told, by the events alone: which sentences it hands over, with
    which clips, when it goes on and when the line is quiet.
 */
module SpeakerSentences {
  import opened Wrappers
  import opened Common
  import opened Speaker

  // ---- The sentences of a run -------------------------------------------------------------------------

  function CancelsIn(es: seq<Event>): nat {
    if es == [] then 0 else CancelsIn(es[..|es| - 1]) + if es[|es| - 1].Cancels? then 1 else 0
  }

  /** The sentences of the run that are not blank, in order. */
  function Texts(es: seq<Event>): seq<string> {
    if es == [] then [] else
    var last := es[|es| - 1];
    Texts(es[..|es| - 1]) + if last.Speaks? && last.text != "" then [last.text] else []
  }

  /** Those with `epoch` cancels before them. */
  function TextsIn(es: seq<Event>, epoch: nat): seq<string> {
    if es == [] then [] else
    var last := es[|es| - 1];
    TextsIn(es[..|es| - 1], epoch) +
    if last.Speaks? && last.text != "" && CancelsIn(es[..|es| - 1]) == epoch then [last.text] else []
  }

  function TextsOf(jobs: seq<Job>): seq<string> {
    if jobs == [] then [] else TextsOf(jobs[..|jobs| - 1]) + [jobs[|jobs| - 1].text]
  }

  lemma {:induction false} TextsOfSum(a: seq<Job>, b: seq<Job>)
    ensures TextsOf(a + b) == TextsOf(a) + TextsOf(b)
  {
    if b == [] {
      assert a + b == a;
    } else {
      assert (a + b)[..|a + b| - 1] == a + b[..|b| - 1];
      TextsOfSum(a, b[..|b| - 1]);
    }
  }

  lemma {:induction false} RunAppends(s: State, es: seq<Event>, e: Event)
    ensures Run(s, es + [e]) == Step(Run(s, es), e)
    decreases |es|
  {
    if es == [] {
      assert es + [e] == [e];
    } else {
      assert (es + [e])[1..] == es[1..] + [e];
      RunAppends(Step(s, es[0]), es[1..], e);
    }
  }

  lemma LastEvent(es: seq<Event>) returns (before: seq<Event>, e: Event)
    requires es != []
    ensures before == es[..|es| - 1] && e == es[|es| - 1] && es == before + [e]
    ensures Run(INITIAL, es) == Step(Run(INITIAL, before), e)
  {
    before, e := es[..|es| - 1], es[|es| - 1];
    RunAppends(INITIAL, before, e);
    assert es == before + [e];
  }

  /** What the log has of sentences and cancels after these events. */
  ghost predicate Tells(log: seq<Entry>, es: seq<Event>, epoch: nat) {
    && TextsOf(SpokenJobs(log)) == Texts(es) && TextsOf(SpokenIn(log, epoch)) == TextsIn(es, epoch)
    && CancelCount(log) == CancelsIn(es)
  }

  /** Nothing but a sentence or a cancel is added to what the log has of them. */
  lemma LogGrows(s: State, e: Event) returns (entries: seq<Entry>)
    requires Inv(s)
    ensures Step(s, e).log == s.log + entries && |entries| <= 1
    ensures e.Speaks? && e.text != "" <==> |entries| == 1 && entries[0].Spoken?
    ensures e.Speaks? && e.text != "" ==> entries[0].job.text == e.text && entries[0].job.epoch == s.epoch
    ensures e.Cancels? <==> |entries| == 1 && entries[0].Cancelled?
  {
    entries := Step(s, e).log[|s.log|..];
  }

  lemma OneMoreText(jobs: seq<Job>, job: Job)
    ensures TextsOf(jobs + [job]) == TextsOf(jobs) + [job.text]
  {
    assert (jobs + [job])[..|jobs|] == jobs;
  }

  lemma EventAppended(es: seq<Event>, e: Event, epoch: nat)
    ensures Texts(es + [e]) == if e.Speaks? && e.text != "" then Texts(es) + [e.text] else Texts(es)
    ensures TextsIn(es + [e], epoch) ==
            if e.Speaks? && e.text != "" && CancelsIn(es) == epoch then TextsIn(es, epoch) + [e.text]
            else TextsIn(es, epoch)
    ensures CancelsIn(es + [e]) == CancelsIn(es) + if e.Cancels? then 1 else 0
  {
    assert (es + [e])[..|es|] == es;
  }

  lemma SpokenTells(log: seq<Entry>, job: Job, es: seq<Event>, text: string, epoch: nat)
    requires Tells(log, es, epoch) && job.text == text != "" && job.epoch == CancelsIn(es)
    ensures Tells(log + [Spoken(job)], es + [Speaks(text)], epoch)
  {
    var jobs, mine := SpokenJobs(log), SpokenIn(log, epoch);
    Appended(log, Spoken(job));
    AppendedIn(log, Spoken(job), epoch);
    EventAppended(es, Speaks(text), epoch);
    OneMoreText(jobs, job);
    OneMoreText(mine, job);
    assert mine + [] == mine;
  }

  lemma OtherEntryTells(log: seq<Entry>, entry: Entry, es: seq<Event>, e: Event, epoch: nat)
    requires Tells(log, es, epoch) && !entry.Spoken? && (entry.Cancelled? <==> e.Cancels?)
    requires e.Speaks? ==> e.text == ""
    ensures Tells(log + [entry], es + [e], epoch)
  {
    Appended(log, entry);
    AppendedIn(log, entry, epoch);
    EventAppended(es, e, epoch);
    assert SpokenJobs(log) + [] == SpokenJobs(log) && SpokenIn(log, epoch) + [] == SpokenIn(log, epoch);
  }

  lemma NoEntryTells(log: seq<Entry>, es: seq<Event>, e: Event, epoch: nat)
    requires Tells(log, es, epoch) && !e.Cancels?
    requires e.Speaks? ==> e.text == ""
    ensures Tells(log, es + [e], epoch)
  {
    EventAppended(es, e, epoch);
  }

  lemma StepTells(s: State, e: Event, es: seq<Event>, epoch: nat)
    requires Inv(s) && Tells(s.log, es, epoch)
    ensures Tells(Step(s, e).log, es + [e], epoch)
  {
    var entries := LogGrows(s, e);
    if entries == [] {
      NoEntryTells(s.log, es, e, epoch);
    } else {
      assert entries == [entries[0]];
      if entries[0].Spoken? {
        SpokenTells(s.log, entries[0].job, es, e.text, epoch);
      } else {
        OtherEntryTells(s.log, entries[0], es, e, epoch);
      }
    }
  }

  /** In every run the jobs are the sentences spoken, none left out and none added, each in its epoch. */
  lemma {:induction false} EverySentenceIsAJob(es: seq<Event>, epoch: nat)
    ensures Tells(Run(INITIAL, es).log, es, epoch)
  {
    if es != [] {
      var before, e := LastEvent(es);
      EverySentenceIsAJob(before, epoch);
      InitialInv();
      RunKeepsInv(INITIAL, before);
      StepTells(Run(INITIAL, before), e, before, epoch);
    }
  }

  lemma TextsOfPrefix(a: seq<Job>, b: seq<Job>)
    requires a <= b
    ensures TextsOf(a) <= TextsOf(b)
  {
    TextsOfSum(a, b[|a|..]);
    assert b == a + b[|a|..];
  }

  /** What is handed over are the sentences spoken, in order, from the first one after each cancel on; what is not
      yet handed over since the last cancel is queued, and a stopped pump has handed over all of it. */
  lemma SentencesAreDelivered(es: seq<Event>, epoch: nat)
    ensures var s := Run(INITIAL, es);
            && TextsOf(DeliveredIn(s.log, epoch)) <= TextsIn(es, epoch)
            && TextsOf(DeliveredIn(s.log, CancelsIn(es))) + TextsOf(s.queue) == TextsIn(es, CancelsIn(es))
            && (s.pump.Stopped? ==> TextsOf(DeliveredIn(s.log, CancelsIn(es))) == TextsIn(es, CancelsIn(es)))
  {
    var s := Run(INITIAL, es);
    InitialInv();
    RunKeepsInv(INITIAL, es);
    DeliveryIsInOrder(es, epoch);
    EverySentenceIsAJob(es, epoch);
    EverySentenceIsAJob(es, s.epoch);
    TextsOfPrefix(DeliveredIn(s.log, epoch), SpokenIn(s.log, epoch));
    assert InOrder(s, s.epoch);
    TextsOfSum(DeliveredIn(s.log, s.epoch), s.queue);
  }

  // ---- The clips --------------------------------------------------------------------------------------

  /** The first translation that arrived for sentence `id`. */
  function Arrived(es: seq<Event>, id: nat): Option<Option<nat>> {
    if es == [] then None else
    var before, last := es[..|es| - 1], es[|es| - 1];
    if Arrived(before, id).Some? then Arrived(before, id)
    else if last.Translates? && last.id == id && id < |Texts(before)| then Some(last.result)
    else None
  }

  function ArrivedIn(s: State, id: nat): Option<Option<nat>> {
    if id in s.results then Some(s.results[id]) else None
  }

  lemma {:induction false} TextsOfLength(jobs: seq<Job>)
    ensures |TextsOf(jobs)| == |jobs|
  {
    if jobs != [] {
      TextsOfLength(jobs[..|jobs| - 1]);
    }
  }

  lemma OthersBringNothing(s: State, e: Event)
    requires !e.Translates?
    ensures Step(s, e).results == s.results
  {
  }

  lemma StepArrives(s: State, es: seq<Event>, e: Event, id: nat)
    requires ArrivedIn(s, id) == Arrived(es, id) && s.Jobs() == |Texts(es)|
    ensures ArrivedIn(Step(s, e), id) == Arrived(es + [e], id)
  {
    assert (es + [e])[..|es|] == es;
    if !e.Translates? {
      OthersBringNothing(s, e);
    }
  }

  lemma JobsAreTold(es: seq<Event>)
    ensures Run(INITIAL, es).Jobs() == |Texts(es)|
  {
    EverySentenceIsAJob(es, 0);
    TextsOfLength(SpokenJobs(Run(INITIAL, es).log));
  }

  lemma {:induction false} ResultsArrived(es: seq<Event>, id: nat)
    ensures ArrivedIn(Run(INITIAL, es), id) == Arrived(es, id)
  {
    if es != [] {
      var before, e := LastEvent(es);
      ResultsArrived(before, id);
      JobsAreTold(before);
      StepArrives(Run(INITIAL, before), before, e, id);
    }
  }

  /** The clip of a translation, empty if there is none. */
  function Clip(result: Option<nat>): nat {
    match result
    case None => 0
    case Some(bytes) => bytes
  }

  ghost predicate ClipsArrived(log: seq<Entry>, es: seq<Event>) {
    forall k :: 0 <= k < |log| && log[k].DeliveryStarts? ==>
      Arrived(es, log[k].job.id).Some? && log[k].bytes == Clip(Arrived(es, log[k].job.id).value)
  }

  lemma ArrivedStays(es: seq<Event>, e: Event, id: nat)
    requires Arrived(es, id).Some?
    ensures Arrived(es + [e], id) == Arrived(es, id)
  {
    assert (es + [e])[..|es|] == es;
  }

  /** Each sentence is handed over with the first translation that arrived for it. */
  lemma {:induction false} DeliveredWithItsTranslation(es: seq<Event>)
    ensures ClipsArrived(Run(INITIAL, es).log, es)
  {
    if es != [] {
      var before, e := LastEvent(es);
      DeliveredWithItsTranslation(before);
      var s := Run(INITIAL, before);
      var log := Run(INITIAL, es).log;
      forall k | 0 <= k < |log| && log[k].DeliveryStarts?
        ensures Arrived(es, log[k].job.id).Some? && log[k].bytes == Clip(Arrived(es, log[k].job.id).value)
      {
        ResultsArrived(before, log[k].job.id);
        assert k < |s.log| ==> log[k] == s.log[k];
        ArrivedStays(before, e, log[k].job.id);
      }
    }
  }

  // ---- The pump ---------------------------------------------------------------------------------------

  /** The pump waits for the next sentence's translation, or is about to end. */
  predicate TakesNext(s: State) {
    if s.queue == [] then s.pump == Ending else s.pump == Awaiting(s.queue[0])
  }

  /** Each wait of the pump ends one way: a translation of the current epoch is handed over, one of an earlier
      epoch is passed over, a delivery's end leads to the next sentence, and a pump that ends with sentences
      queued begins again. */
  lemma PumpMoves(s: State, now: int)
    requires Inv(s)
    ensures s.pump.Awaiting? && s.pump.job.id in s.results && s.pump.job.epoch == s.epoch ==>
              var t := Step(s, Resumes(now));
              && t.log == s.log + [DeliveryStarts(s.pump.job, now, Clip(s.results[s.pump.job.id]))]
              && t.pump == Delivering(s.pump.job) && s.queue == [s.pump.job] + t.queue
    ensures s.pump.Awaiting? && s.pump.job.id in s.results && s.pump.job.epoch != s.epoch ==>
              var t := Step(s, Resumes(now));
              t.log == s.log && t.queue == s.queue && TakesNext(t) && t.playbackEndsAt == s.playbackEndsAt
    ensures s.pump.Delivering? ==>
              var t := Step(s, Delivers(now));
              && t.log == s.log + [DeliveryEnds(s.pump.job)] && t.queue == s.queue && TakesNext(t)
              && t.lastDeliveredAt == now && t.playbackEndsAt == s.playbackEndsAt
    ensures s.pump.Ending? ==>
              var t := Step(s, Ends(now));
              t.queue == s.queue && if s.queue == [] then t.pump == Stopped else TakesNext(t)
    ensures s.pump.Stopped? ==> forall text :: text != "" ==> TakesNext(Step(s, Speaks(text)))
  {
  }

  /** What a cancel does at once, whatever the pump is at: the queue is dropped and the line counts as quiet. */
  lemma CancelDropsTheQueue(s: State, now: int)
    ensures var t := Step(s, Cancels(now));
            && t.queue == [] && t.playbackEndsAt == 0 && t.pump == s.pump && t.log == s.log + [Cancelled(now)]
            && t.results == s.results && t.lastDeliveredAt == s.lastDeliveredAt && t.asked == s.asked
  {
  }

  /** The event that the pump waits for. */
  function Awaited(s: State, now: int): Event
    requires !s.pump.Stopped?
  {
    match s.pump
    case Awaiting(_) => Resumes(now)
    case Delivering(_) => Delivers(now)
    case Ending => Ends(now)
  }

  predicate IsPumps(e: Event) {
    e.Resumes? || e.Delivers? || e.Ends?
  }

  ghost predicate AllTranslated(s: State) {
    && (forall job :: job in s.queue ==> job.id in s.results)
    && (s.pump.Awaiting? ==> s.pump.job.id in s.results)
  }

  /** How many waits of the pump are left. */
  function WaitsLeft(s: State): nat {
    match s.pump
    case Stopped => 0
    case Ending => 2 * |s.queue| + (if s.queue == [] then 1 else 2)
    case Delivering(_) => 2 * |s.queue| + 2
    case Awaiting(job) => 2 * |s.queue| + (if job.epoch == s.epoch then 1 else 2)
  }

  lemma PumpAdvances(s: State, now: int)
    requires Inv(s) && !s.pump.Stopped? && AllTranslated(s)
    ensures var t := Step(s, Awaited(s, now));
            Inv(t) && AllTranslated(t) && WaitsLeft(t) == WaitsLeft(s) - 1 && t.epoch == s.epoch
  {
    StepKeepsInv(s, Awaited(s, now));
    PumpMoves(s, now);
  }

  /** Once the translations are there nothing stops the pump short of the end: it stops after as many waits as it
      has left, and then every sentence since the last cancel has been handed over. */
  lemma {:induction false} PumpFinishes(s: State, now: int) returns (es: seq<Event>)
    requires Inv(s) && AllTranslated(s)
    ensures |es| == WaitsLeft(s) && forall e :: e in es ==> IsPumps(e)
    ensures var t := Run(s, es);
            && t.pump.Stopped? && t.queue == [] && t.epoch == s.epoch
            && DeliveredIn(t.log, t.epoch) == SpokenIn(t.log, t.epoch)
    decreases WaitsLeft(s)
  {
    if s.pump.Stopped? {
      es := [];
      assert InOrder(s, s.epoch);
    } else {
      PumpAdvances(s, now);
      var rest := PumpFinishes(Step(s, Awaited(s, now)), now);
      es := [Awaited(s, now)] + rest;
      assert es[1..] == rest;
    }
  }

  // ---- When the line is quiet, exactly ----------------------------------------------------------------

  /** 4000 bytes of a clip play for a second, and part of a millisecond counts as one. */
  lemma ClipMsIsRounded(bytes: nat)
    ensures 4000 * ClipMs(bytes) - 4000 < 1000 * bytes <= 4000 * ClipMs(bytes)
  {
  }

  /** A player that takes each clip for its estimated time. */
  const AS_ESTIMATED: (Job, nat) -> int := (_: Job, bytes: nat) => ClipMs(bytes)

  ghost predicate Exact(s: State, start: int) {
    PlayerEnds(s.log, start, AS_ESTIMATED) == Max(s.playbackEndsAt, EpochStart(s.log, start))
  }

  lemma ResumesKeepsExact(s: State, now: int, start: int)
    requires s.pump.Awaiting? && s.pump.job.id in s.results && Exact(s, start) && EpochStart(s.log, start) <= now
    ensures Exact(OnResumes(s, now), start)
    ensures EpochStart(OnResumes(s, now).log, start) == EpochStart(s.log, start)
  {
    var t := OnResumes(s, now);
    if s.pump.job.epoch == s.epoch {
      var entry := t.log[|s.log|];
      assert t.log == s.log + [entry] && entry.DeliveryStarts? && entry.at == now;
      PlayerAppended(s.log, entry, start, AS_ESTIMATED);
    }
  }

  /** Neither a clip nor a cancel. */
  lemma QuietKeepsExact(s: State, t: State, entry: Entry, start: int)
    requires Exact(s, start) && t.log == s.log + [entry] && t.playbackEndsAt == s.playbackEndsAt
    requires entry.Spoken? || entry.DeliveryEnds?
    ensures Exact(t, start) && EpochStart(t.log, start) == EpochStart(s.log, start)
  {
    PlayerAppended(s.log, entry, start, AS_ESTIMATED);
  }

  lemma CancelsKeepsExact(s: State, now: int, start: int)
    requires now >= 0
    ensures Exact(OnCancels(s, now), start) && EpochStart(OnCancels(s, now).log, start) == now
  {
    PlayerAppended(s.log, Cancelled(now), start, AS_ESTIMATED);
    assert OnCancels(s, now).log == s.log + [Cancelled(now)] && OnCancels(s, now).playbackEndsAt == 0;
  }

  /** Nothing is logged. */
  lemma SilentKeepsExact(s: State, e: Event, start: int)
    requires Exact(s, start)
    requires !Enabled(s, e) || e.Translates? || e.Ends? || e.WaitsForIdle? || e == Speaks("")
    ensures Exact(Step(s, e), start) && Step(s, e).log == s.log
  {
    assert Step(s, e).log == s.log && Step(s, e).playbackEndsAt == s.playbackEndsAt;
  }

  lemma StepKeepsExact(s: State, e: Event, clock: int, start: int)
    requires Exact(s, start) && 0 <= EpochStart(s.log, start) <= clock <= Clock(clock, e)
    ensures Exact(Step(s, e), start) && 0 <= EpochStart(Step(s, e).log, start) <= Clock(clock, e)
  {
    if e.Speaks? && e.text != "" {
      QuietKeepsExact(s, Step(s, e), Spoken(Job(s.Jobs(), s.epoch, e.text)), start);
    } else if e.Resumes? && Enabled(s, e) {
      ResumesKeepsExact(s, e.now, start);
    } else if e.Delivers? && Enabled(s, e) {
      QuietKeepsExact(s, Step(s, e), DeliveryEnds(s.pump.job), start);
    } else if e.Cancels? {
      CancelsKeepsExact(s, e.now, start);
    } else {
      SilentKeepsExact(s, e, start);
    }
  }

  lemma {:induction false} RunKeepsExact(s: State, es: seq<Event>, clock: int, start: int)
    requires Exact(s, start) && 0 <= EpochStart(s.log, start) <= clock && Forward(clock, es)
    ensures Exact(Run(s, es), start) && EpochStart(Run(s, es).log, start) <= LastClock(clock, es)
    decreases |es|
  {
    if es != [] {
      StepKeepsExact(s, es[0], clock, start);
      RunKeepsExact(Step(s, es[0]), es[1..], Clock(clock, es[0]), start);
    }
  }

  /** The speaker is idle exactly when its pump has stopped and a player that takes each clip for its estimated
      time would be done with all of them. */
  lemma IdleExactly(es: seq<Event>, start: nat, now: int)
    requires Forward(start, es) && now >= LastClock(start, es)
    ensures var s := Run(INITIAL, es);
            s.IsIdle(now) <==> s.pump.Stopped? && now >= PlayerEnds(s.log, start, AS_ESTIMATED)
  {
    RunKeepsExact(INITIAL, es, start, start);
    InitialInv();
    RunKeepsInv(INITIAL, es);
  }
}
