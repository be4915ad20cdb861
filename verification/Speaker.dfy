/** The backup's speaker: sentences are translated in parallel and delivered one at a time, in the order
    they were spoken. The pump is the asynchronous loop that waits for the next translation, hands it to
    `deliver` and waits for that to end; an event is whatever happens between two of its waits. Times are
    in milliseconds.
 */
module Speaker {
  import opened Wrappers
  import opened Common

  /** A sentence to translate, and the epoch it was spoken in. */
  datatype Job = Job(id: nat, epoch: nat, text: string)

  /** Where the pump waits: not running, for the job's translation, for its delivery, or for its own end. */
  datatype Pump = Stopped | Awaiting(job: Job) | Delivering(job: Job) | Ending

  /** What happened, in order; a delivery starts with the clip's size. */
  datatype Entry =
    | Spoken(job: Job)
    | DeliveryStarts(job: Job, at: int, bytes: nat)
    | DeliveryEnds(job: Job)
    | Cancelled(at: int)

  datatype State = State(
    queue: seq<Job>,
    epoch: nat,
    pump: Pump,
    lastDeliveredAt: int,
    playbackEndsAt: int,
    waiters: set<nat>,               // unresolved whenIdle() promises, by ordinal
    asked: nat,                      // whenIdle() promises made so far
    results: map<nat, Option<nat>>,  // translations that arrived: the clip's size, or None without one
    log: seq<Entry>)
  {
    predicate IsIdle(now: int) {
      queue == [] && pump.Stopped? && now >= playbackEndsAt
    }

    /** What has been spoken so far, over all epochs. */
    function Jobs(): nat {
      |SpokenJobs(log)|
    }
  }

  datatype Event =
    | Speaks(text: string)
    | Translates(id: nat, result: Option<nat>)
    | Resumes(now: int)
    | Delivers(now: int)
    | Ends(now: int)
    | Cancels(now: int)
    | WaitsForIdle(now: int)

  const INITIAL := State([], 0, Stopped, 0, 0, {}, 0, map[], [])

  /** How long a clip plays at most: 4000 bytes a second, rounded up. */
  function ClipMs(bytes: nat): nat {
    (bytes + 3) / 4
  }

  // ---- What each event does ---------------------------------------------------------------------------

  function Logged(s: State, entry: Entry): State {
    s.(log := s.log + [entry])
  }

  /** The head of the pump's loop. */
  function Pumping(s: State): State {
    s.(pump := if s.queue == [] then Ending else Awaiting(s.queue[0]))
  }

  function WaitersSettled(s: State, now: int): State {
    if s.IsIdle(now) then s.(waiters := {}) else s
  }

  function OnSpeaks(s: State, text: string): State {
    if text == "" then s else
    var job := Job(s.Jobs(), s.epoch, text);
    var t := Logged(s.(queue := s.queue + [job]), Spoken(job));
    if s.pump.Stopped? then Pumping(t) else t
  }

  /** Translations arrive in any order, once for each job. */
  function OnTranslates(s: State, id: nat, result: Option<nat>): State {
    if id < s.Jobs() && id !in s.results then s.(results := s.results[id := result]) else s
  }

  function OnResumes(s: State, now: int): State
    requires s.pump.Awaiting? && s.pump.job.id in s.results
  {
    var job := s.pump.job;
    var t := if s.queue != [] && s.queue[0] == job then s.(queue := s.queue[1..]) else s;
    if job.epoch != s.epoch then Pumping(t) else
    var bytes := match s.results[job.id] case Some(size) => size case None => 0;
    var ends := if bytes > 0 then Max(s.playbackEndsAt, now) + ClipMs(bytes) else s.playbackEndsAt;
    Logged(t.(playbackEndsAt := ends, pump := Delivering(job)), DeliveryStarts(job, now, bytes))
  }

  function OnDelivers(s: State, now: int): State
    requires s.pump.Delivering?
  {
    Pumping(Logged(s.(lastDeliveredAt := now), DeliveryEnds(s.pump.job)))
  }

  function OnEnds(s: State, now: int): State {
    var t := s.(pump := Stopped);
    if s.queue != [] then Pumping(t) else WaitersSettled(t, now)
  }

  function OnCancels(s: State, now: int): State {
    WaitersSettled(Logged(s.(epoch := s.epoch + 1, queue := [], playbackEndsAt := 0), Cancelled(now)), now)
  }

  function OnWaitsForIdle(s: State, now: int): State {
    if s.IsIdle(now) then s.(asked := s.asked + 1) else s.(asked := s.asked + 1, waiters := s.waiters + {s.asked})
  }

  predicate Enabled(s: State, e: Event) {
    match e
    case Resumes(_) => s.pump.Awaiting? && s.pump.job.id in s.results
    case Delivers(_) => s.pump.Delivering?
    case Ends(_) => s.pump.Ending?
    case _ => true
  }

  function Step(s: State, e: Event): State {
    if !Enabled(s, e) then s else
    match e
    case Speaks(text) => OnSpeaks(s, text)
    case Translates(id, result) => OnTranslates(s, id, result)
    case Resumes(now) => OnResumes(s, now)
    case Delivers(now) => OnDelivers(s, now)
    case Ends(now) => OnEnds(s, now)
    case Cancels(now) => OnCancels(s, now)
    case WaitsForIdle(now) => OnWaitsForIdle(s, now)
  }

  function Run(s: State, es: seq<Event>): State
    decreases |es|
  {
    if es == [] then s else Run(Step(s, es[0]), es[1..])
  }

  // ---- Reading the log --------------------------------------------------------------------------------

  function SpokenJobs(log: seq<Entry>): seq<Job> {
    if log == [] then [] else
    var last := log[|log| - 1];
    SpokenJobs(log[..|log| - 1]) + (if last.Spoken? then [last.job] else [])
  }

  /** The jobs spoken in one epoch, in order. */
  function SpokenIn(log: seq<Entry>, epoch: nat): seq<Job> {
    if log == [] then [] else
    var last := log[|log| - 1];
    SpokenIn(log[..|log| - 1], epoch) + (if last.Spoken? && last.job.epoch == epoch then [last.job] else [])
  }

  /** The jobs of one epoch handed to `deliver`, in order. */
  function DeliveredIn(log: seq<Entry>, epoch: nat): seq<Job> {
    if log == [] then [] else
    var last := log[|log| - 1];
    DeliveredIn(log[..|log| - 1], epoch) +
    (if last.DeliveryStarts? && last.job.epoch == epoch then [last.job] else [])
  }

  function CancelCount(log: seq<Entry>): nat {
    if log == [] then 0 else
    CancelCount(log[..|log| - 1]) + (if log[|log| - 1].Cancelled? then 1 else 0)
  }

  /** The job being delivered after all this. */
  function OpenDelivery(log: seq<Entry>): Option<Job> {
    if log == [] then None else
    match log[|log| - 1]
    case DeliveryStarts(job, _, _) => Some(job)
    case DeliveryEnds(_) => None
    case _ => OpenDelivery(log[..|log| - 1])
  }

  /** Every entry is in its place: jobs carry the epoch they were spoken in, which is the number of cancels
      before, a delivery starts in its job's epoch and only when no other is open, and the open one ends. */
  predicate Fits(log: seq<Entry>, entry: Entry) {
    match entry
    case Spoken(job) => job.epoch == CancelCount(log) && job.id == |SpokenJobs(log)|
    case DeliveryStarts(job, _, _) => job.epoch == CancelCount(log) && OpenDelivery(log) == None
    case DeliveryEnds(job) => OpenDelivery(log) == Some(job)
    case Cancelled(_) => true
  }

  predicate WellFormed(log: seq<Entry>) {
    log == [] || (WellFormed(log[..|log| - 1]) && Fits(log[..|log| - 1], log[|log| - 1]))
  }

  lemma Appended(log: seq<Entry>, entry: Entry)
    ensures SpokenJobs(log + [entry]) == SpokenJobs(log) + (if entry.Spoken? then [entry.job] else [])
    ensures CancelCount(log + [entry]) == CancelCount(log) + (if entry.Cancelled? then 1 else 0)
    ensures OpenDelivery(log + [entry]) ==
            (match entry
             case DeliveryStarts(job, _, _) => Some(job)
             case DeliveryEnds(_) => None
             case _ => OpenDelivery(log))
    ensures WellFormed(log + [entry]) == (WellFormed(log) && Fits(log, entry))
  {
    assert (log + [entry])[..|log|] == log;
  }

  lemma AppendedIn(log: seq<Entry>, entry: Entry, epoch: nat)
    ensures SpokenIn(log + [entry], epoch) ==
            SpokenIn(log, epoch) + (if entry.Spoken? && entry.job.epoch == epoch then [entry.job] else [])
    ensures DeliveredIn(log + [entry], epoch) ==
            DeliveredIn(log, epoch) + (if entry.DeliveryStarts? && entry.job.epoch == epoch then [entry.job] else [])
  {
    assert (log + [entry])[..|log|] == log;
  }

  // ---- What every run keeps ---------------------------------------------------------------------------

  /** In the current epoch what was spoken is what was handed over and then what is queued; in an older one
      what was handed over is where what was spoken began; there is no newer one. */
  ghost predicate InOrder(s: State, epoch: nat) {
    if epoch == s.epoch then SpokenIn(s.log, epoch) == DeliveredIn(s.log, epoch) + s.queue
    else DeliveredIn(s.log, epoch) <= SpokenIn(s.log, epoch) && (epoch > s.epoch ==> SpokenIn(s.log, epoch) == [])
  }

  ghost predicate Inv(s: State) {
    && WellFormed(s.log)
    && s.epoch == CancelCount(s.log)
    && OpenDelivery(s.log) == (if s.pump.Delivering? then Some(s.pump.job) else None)
    && (s.queue != [] ==> !s.pump.Stopped?)
    && (s.pump.Awaiting? ==> s.pump.job.epoch < s.epoch || (s.queue != [] && s.queue[0] == s.pump.job))
    && (forall job :: job in s.queue ==> job.epoch == s.epoch)
    && (forall w :: w in s.waiters ==> w < s.asked)
    && (forall epoch :: InOrder(s, epoch))
  }

  lemma SpeaksKeepsOrder(s: State, text: string, epoch: nat)
    requires InOrder(s, epoch) && text != ""
    ensures InOrder(OnSpeaks(s, text), epoch)
  {
    AppendedIn(s.log, Spoken(Job(s.Jobs(), s.epoch, text)), epoch);
  }

  /** An unchanged log keeps the order as long as the queue of the epoch is unchanged too. */
  lemma SpeaksKeepsInv(s: State, text: string)
    requires Inv(s)
    ensures Inv(OnSpeaks(s, text))
  {
    var job := Job(s.Jobs(), s.epoch, text);
    var t := OnSpeaks(s, text);
    if text != "" {
      Appended(s.log, Spoken(job));
      forall epoch ensures InOrder(t, epoch) {
        SpeaksKeepsOrder(s, text, epoch);
      }
    }
  }

  lemma ResumesKeepsInv(s: State, now: int)
    requires Inv(s) && s.pump.Awaiting? && s.pump.job.id in s.results
    ensures Inv(OnResumes(s, now))
  {
    var job := s.pump.job;
    var t := OnResumes(s, now);
    if job.epoch == s.epoch {
      assert t.log == s.log + [t.log[|s.log|]] && t.log[|s.log|].DeliveryStarts? && t.log[|s.log|].job == job;
      Appended(s.log, t.log[|s.log|]);
      forall epoch ensures InOrder(t, epoch) {
        AppendedIn(s.log, t.log[|s.log|], epoch);
        assert InOrder(s, epoch);
        assert s.queue == [job] + t.queue;
      }
    } else {
      assert t.queue == s.queue;
      assert forall epoch :: InOrder(t, epoch) == InOrder(s, epoch);
    }
  }

  lemma DeliversKeepsInv(s: State, now: int)
    requires Inv(s) && s.pump.Delivering?
    ensures Inv(OnDelivers(s, now))
  {
    var t := OnDelivers(s, now);
    Appended(s.log, DeliveryEnds(s.pump.job));
    forall epoch ensures InOrder(t, epoch) {
      AppendedIn(s.log, DeliveryEnds(s.pump.job), epoch);
      assert InOrder(s, epoch);
    }
  }

  lemma CancelsKeepsOrder(s: State, now: int, epoch: nat)
    requires InOrder(s, epoch) && InOrder(s, s.epoch)
    ensures InOrder(OnCancels(s, now), epoch)
  {
    AppendedIn(s.log, Cancelled(now), epoch);
  }

  lemma CancelsKeepsInv(s: State, now: int)
    requires Inv(s)
    ensures Inv(OnCancels(s, now))
  {
    var t := OnCancels(s, now);
    Appended(s.log, Cancelled(now));
    forall epoch ensures InOrder(t, epoch) {
      assert InOrder(s, epoch) && InOrder(s, s.epoch);
      CancelsKeepsOrder(s, now, epoch);
    }
  }

  lemma StepKeepsInv(s: State, e: Event)
    requires Inv(s)
    ensures Inv(Step(s, e))
  {
    if Enabled(s, e) {
      match e
      case Speaks(text) => SpeaksKeepsInv(s, text);
      case Resumes(now) => ResumesKeepsInv(s, now);
      case Delivers(now) => DeliversKeepsInv(s, now);
      case Cancels(now) => CancelsKeepsInv(s, now);
      case _ =>
        var t := Step(s, e);
        assert forall epoch :: InOrder(t, epoch) == InOrder(s, epoch);
    }
  }

  lemma {:induction false} RunKeepsInv(s: State, es: seq<Event>)
    requires Inv(s)
    ensures Inv(Run(s, es))
    decreases |es|
  {
    if es != [] {
      StepKeepsInv(s, es[0]);
      RunKeepsInv(Step(s, es[0]), es[1..]);
    }
  }

  lemma InitialInv()
    ensures Inv(INITIAL)
  {
  }

  /** Whatever order translations arrive in, each epoch's sentences are delivered in the order they were
      spoken, without gaps or repeats, one at a time; and a stopped pump has delivered all of them. */
  lemma DeliveryIsInOrder(es: seq<Event>, epoch: nat)
    ensures var s := Run(INITIAL, es);
            && DeliveredIn(s.log, epoch) <= SpokenIn(s.log, epoch)
            && WellFormed(s.log)
            && (s.queue != [] ==> !s.pump.Stopped?)
            && (s.pump.Stopped? ==> DeliveredIn(s.log, s.epoch) == SpokenIn(s.log, s.epoch))
  {
    InitialInv();
    RunKeepsInv(INITIAL, es);
    assert InOrder(Run(INITIAL, es), epoch) && InOrder(Run(INITIAL, es), Run(INITIAL, es).epoch);
  }

  lemma {:induction false} EntryFits(log: seq<Entry>, k: nat)
    requires WellFormed(log) && k < |log|
    ensures WellFormed(log[..k]) && Fits(log[..k], log[k])
  {
    if k < |log| - 1 {
      EntryFits(log[..|log| - 1], k);
      assert log[..|log| - 1][..k] == log[..k];
    }
  }

  /** The job of a sentence or a delivery belongs to the epoch it happens in. */
  lemma JobsBelongToTheirEpoch(log: seq<Entry>, k: nat)
    requires WellFormed(log) && k < |log|
    ensures log[k].Spoken? || log[k].DeliveryStarts? ==> log[k].job.epoch == CancelCount(log[..k])
  {
    EntryFits(log, k);
  }

  lemma {:induction false} CancelCountGrows(log: seq<Entry>, j: nat, k: nat)
    requires j <= k <= |log|
    ensures CancelCount(log[..j]) <= CancelCount(log[..k])
  {
    if j < k {
      CancelCountGrows(log, j, k - 1);
      assert log[..k][..k - 1] == log[..k - 1];
    }
  }

  /** After a cancel the epoch is a later one. */
  lemma CancelBeginsAnEpoch(log: seq<Entry>, i: nat, j: nat, k: nat)
    requires i < j < k < |log| && log[j].Cancelled?
    ensures CancelCount(log[..i]) < CancelCount(log[..k])
  {
    CancelCountGrows(log, i, j);
    assert log[..j + 1][..j] == log[..j];
    CancelCountGrows(log, j + 1, k);
  }

  /** Nothing spoken before a cancel starts to be delivered after it. */
  lemma NothingSurvivesCancel(es: seq<Event>, i: nat, j: nat, k: nat)
    requires var log := Run(INITIAL, es).log;
             i < j < k < |log| && log[i].Spoken? && log[j].Cancelled? && log[k].DeliveryStarts?
    ensures var log := Run(INITIAL, es).log; log[i].job != log[k].job
  {
    var log := Run(INITIAL, es).log;
    DeliveryIsInOrder(es, 0);
    JobsBelongToTheirEpoch(log, i);
    JobsBelongToTheirEpoch(log, k);
    CancelBeginsAnEpoch(log, i, j, k);
  }

  // ---- When the line is quiet -------------------------------------------------------------------------

  /** When a player that plays one clip after the other is done: each clip begins when it is handed over or
      when the one before ends, and lasts as long as `lasts` says. It was silent at each epoch's start. */
  function PlayerEnds(log: seq<Entry>, start: int, lasts: (Job, nat) -> int): int {
    if log == [] then start else
    var before := PlayerEnds(log[..|log| - 1], start, lasts);
    var last := log[|log| - 1];
    if last.DeliveryStarts? && last.bytes > 0 then Max(before, last.at) + lasts(last.job, last.bytes)
    else if last.Cancelled? then last.at
    else before
  }

  function EpochStart(log: seq<Entry>, start: int): int {
    if log == [] then start else
    var last := log[|log| - 1];
    if last.Cancelled? then last.at else EpochStart(log[..|log| - 1], start)
  }

  ghost predicate WithinClips(lasts: (Job, nat) -> int) {
    forall job, bytes :: lasts(job, bytes) <= ClipMs(bytes)
  }

  /** The clock when an event happens; events without a time leave it alone. */
  function Clock(clock: int, e: Event): int {
    match e
    case Resumes(now) => now
    case Delivers(now) => now
    case Ends(now) => now
    case Cancels(now) => now
    case WaitsForIdle(now) => now
    case _ => clock
  }

  predicate Forward(clock: int, es: seq<Event>)
    decreases |es|
  {
    es == [] || (clock <= Clock(clock, es[0]) && Forward(Clock(clock, es[0]), es[1..]))
  }

  function LastClock(clock: int, es: seq<Event>): int
    decreases |es|
  {
    if es == [] then clock else LastClock(Clock(clock, es[0]), es[1..])
  }

  ghost predicate Bounded(s: State, start: int, lasts: (Job, nat) -> int) {
    PlayerEnds(s.log, start, lasts) <= Max(s.playbackEndsAt, EpochStart(s.log, start))
  }

  lemma PlayerAppended(log: seq<Entry>, entry: Entry, start: int, lasts: (Job, nat) -> int)
    ensures PlayerEnds(log + [entry], start, lasts) ==
            (if entry.DeliveryStarts? && entry.bytes > 0
             then Max(PlayerEnds(log, start, lasts), entry.at) + lasts(entry.job, entry.bytes)
             else if entry.Cancelled? then entry.at
             else PlayerEnds(log, start, lasts))
    ensures EpochStart(log + [entry], start) == (if entry.Cancelled? then entry.at else EpochStart(log, start))
  {
    assert (log + [entry])[..|log|] == log;
  }

  lemma ResumesKeepsBound(s: State, now: int, start: int, lasts: (Job, nat) -> int)
    requires s.pump.Awaiting? && s.pump.job.id in s.results
    requires Bounded(s, start, lasts) && WithinClips(lasts) && EpochStart(s.log, start) <= now
    ensures Bounded(OnResumes(s, now), start, lasts)
    ensures EpochStart(OnResumes(s, now).log, start) == EpochStart(s.log, start)
  {
    var t := OnResumes(s, now);
    if s.pump.job.epoch == s.epoch {
      var entry := t.log[|s.log|];
      assert t.log == s.log + [entry] && entry.DeliveryStarts? && entry.at == now;
      PlayerAppended(s.log, entry, start, lasts);
      assert lasts(entry.job, entry.bytes) <= ClipMs(entry.bytes);
    }
  }

  lemma StepKeepsBound(s: State, e: Event, clock: int, start: int, lasts: (Job, nat) -> int)
    requires Bounded(s, start, lasts) && WithinClips(lasts)
    requires EpochStart(s.log, start) <= clock <= Clock(clock, e)
    ensures Bounded(Step(s, e), start, lasts)
    ensures EpochStart(Step(s, e).log, start) <= Clock(clock, e)
  {
    if Enabled(s, e) {
      match e
      case Speaks(text) => PlayerAppended(s.log, Spoken(Job(s.Jobs(), s.epoch, text)), start, lasts);
      case Resumes(now) => ResumesKeepsBound(s, now, start, lasts);
      case Delivers(_) => PlayerAppended(s.log, DeliveryEnds(s.pump.job), start, lasts);
      case Cancels(now) => PlayerAppended(s.log, Cancelled(now), start, lasts);
      case _ =>
    }
  }

  lemma {:induction false} RunKeepsBound(s: State, es: seq<Event>, clock: int, start: int, lasts: (Job, nat) -> int)
    requires Bounded(s, start, lasts) && WithinClips(lasts)
    requires EpochStart(s.log, start) <= clock && Forward(clock, es)
    ensures Bounded(Run(s, es), start, lasts)
    ensures EpochStart(Run(s, es).log, start) <= LastClock(clock, es)
    decreases |es|
  {
    if es != [] {
      StepKeepsBound(s, es[0], clock, start, lasts);
      RunKeepsBound(Step(s, es[0]), es[1..], Clock(clock, es[0]), start, lasts);
    }
  }

  /** playbackEndsAt bounds the end of every such player, so once the speaker is idle all of the epoch's
      sentences are delivered, no delivery is open and the line is silent. */
  lemma IdleMeansSilent(es: seq<Event>, start: int, lasts: (Job, nat) -> int, now: int)
    requires WithinClips(lasts) && Forward(start, es) && now >= LastClock(start, es)
    ensures var s := Run(INITIAL, es);
            && PlayerEnds(s.log, start, lasts) <= Max(s.playbackEndsAt, EpochStart(s.log, start))
            && (s.IsIdle(now) ==>
                && PlayerEnds(s.log, start, lasts) <= now
                && OpenDelivery(s.log) == None
                && DeliveredIn(s.log, s.epoch) == SpokenIn(s.log, s.epoch))
  {
    RunKeepsBound(INITIAL, es, start, start, lasts);
    InitialInv();
    RunKeepsInv(INITIAL, es);
    DeliveryIsInOrder(es, 0);
  }

  // ---- Waiting for idle -------------------------------------------------------------------------------

  predicate SpeaksOrCancels(e: Event) {
    e.Speaks? || e.Cancels?
  }

  lemma {:induction false} StrandedWaiterStays(s: State, es: seq<Event>, w: nat)
    requires s.pump.Stopped? && w in s.waiters
    requires forall e :: e in es ==> !SpeaksOrCancels(e)
    ensures w in Run(s, es).waiters
    decreases |es|
  {
    if es != [] {
      assert !SpeaksOrCancels(es[0]);
      StrandedWaiterStays(Step(s, es[0]), es[1..], w);
    }
  }

  lemma {:induction false} ResolvedWaiterStaysResolved(s: State, es: seq<Event>, w: nat)
    requires w !in s.waiters && w < s.asked
    ensures w !in Run(s, es).waiters
    decreases |es|
  {
    if es != [] {
      ResolvedWaiterStaysResolved(Step(s, es[0]), es[1..], w);
    }
  }

  /** whenIdle() on a stopped pump resolves by itself only if the last clip's estimated end has passed when
      it is called. If not, no lapse of time resolves it, only a later sentence or a cancel can. */
  lemma WhenIdleResolvesOnlyAtOnce(s: State, now: int, es: seq<Event>)
    requires Inv(s) && s.pump.Stopped?
    requires forall e :: e in es ==> !SpeaksOrCancels(e)
    ensures s.asked !in Run(Step(s, WaitsForIdle(now)), es).waiters <==> now >= s.playbackEndsAt
  {
    var t := Step(s, WaitsForIdle(now));
    if now >= s.playbackEndsAt {
      ResolvedWaiterStaysResolved(t, es, s.asked);
    } else {
      StrandedWaiterStays(t, es, s.asked);
    }
  }

  /** The end of the pump or a cancel finds nothing left to translate, deliver or play. */
  predicate LeavesIdle(s: State, e: Event) {
    match e
    case Ends(now) => Enabled(s, e) && Step(s, e).IsIdle(now)
    case Cancels(now) => Step(s, e).IsIdle(now)
    case _ => false
  }

  predicate SomeLeavesIdle(s: State, es: seq<Event>)
    decreases |es|
  {
    es != [] && (LeavesIdle(s, es[0]) || SomeLeavesIdle(Step(s, es[0]), es[1..]))
  }

  /** Only the end of the pump and a cancel look after the waiters. */
  lemma StepResolvesWaiters(s: State, e: Event, w: nat)
    requires w in s.waiters && w < s.asked
    ensures w in Step(s, e).waiters <==> !LeavesIdle(s, e)
    ensures w < Step(s, e).asked
  {
  }

  lemma {:induction false} WaiterIsResolvedExactly(s: State, es: seq<Event>, w: nat)
    requires w in s.waiters && w < s.asked
    ensures w !in Run(s, es).waiters <==> SomeLeavesIdle(s, es)
    decreases |es|
  {
    if es != [] {
      StepResolvesWaiters(s, es[0], w);
      if LeavesIdle(s, es[0]) {
        ResolvedWaiterStaysResolved(Step(s, es[0]), es[1..], w);
      } else {
        WaiterIsResolvedExactly(Step(s, es[0]), es[1..], w);
      }
    }
  }

  /** Whenever whenIdle() is called, its promise is resolved by the end of the run exactly if the speaker was
      idle then, or some later end of the pump or cancel leaves it idle at its own time. That the speaker is
      idle at any other time resolves nothing. */
  lemma PromiseIsResolvedExactly(s: State, now: int, es: seq<Event>)
    requires Inv(s)
    ensures var t := Step(s, WaitsForIdle(now));
            s.asked !in Run(t, es).waiters <==> s.IsIdle(now) || SomeLeavesIdle(t, es)
  {
    var t := Step(s, WaitsForIdle(now));
    if s.IsIdle(now) {
      ResolvedWaiterStaysResolved(t, es, s.asked);
    } else {
      WaiterIsResolvedExactly(t, es, s.asked);
    }
  }

  /** One sentence of ten seconds, handed to a player that resolves at once, and a promise made after that. */
  const STRANDING :=
    [Speaks("a"), Translates(0, Some(40000)), Resumes(0), Delivers(1), Ends(1), WaitsForIdle(2)]

  lemma StrandingRun()
    ensures var s := Run(INITIAL, STRANDING);
            0 in s.waiters && s.pump.Stopped? && s.queue == [] && s.playbackEndsAt == 10000
  {
    var es := STRANDING;
    var s1 := Step(INITIAL, es[0]);
    var s2 := Step(s1, es[1]);
    var s3 := Step(s2, es[2]);
    var s4 := Step(s3, es[3]);
    var s5 := Step(s4, es[4]);
    assert s3.playbackEndsAt == 10000 && s5.pump == Stopped;
    assert Run(INITIAL, es) == Run(s5, es[1..][1..][1..][1..][1..]) == Step(s5, es[5]);
  }

  /** A promise can be stranded: after ten seconds the speaker is idle for good, yet whatever happens, short
      of another sentence or a cancel, the promise is not resolved. */
  lemma PromiseCanBeStranded(es: seq<Event>, now: int)
    requires now >= 10000 && forall e :: e in es ==> !SpeaksOrCancels(e)
    ensures var s := Run(INITIAL, STRANDING); s.IsIdle(now) && 0 in Run(s, es).waiters
  {
    StrandingRun();
    StrandedWaiterStays(Run(INITIAL, STRANDING), es, 0);
  }

  // ---- The speaker ------------------------------------------------------------------------------------

  class BackupSpeaker {
    var queue: seq<Job>
    var epoch: nat
    var running: Pump
    var lastDeliveredAt: int
    var playbackEndsAt: int
    var waiters: set<nat>
    var asked: nat
    var results: map<nat, Option<nat>>
    ghost var log: seq<Entry>
    var spoken: nat

    ghost function View(): State
      reads this
    {
      State(queue, epoch, running, lastDeliveredAt, playbackEndsAt, waiters, asked, results, log)
    }

    ghost predicate Valid()
      reads this
    {
      spoken == View().Jobs()
    }

    constructor ()
      ensures Valid() && View() == INITIAL
    {
      queue, epoch, running, lastDeliveredAt, playbackEndsAt := [], 0, Stopped, 0, 0;
      waiters, asked, results, log, spoken := {}, 0, map[], [], 0;
    }

    predicate IsIdle(now: int)
      reads this
    {
      |queue| == 0 && running == Stopped && now >= playbackEndsAt
    }

    method SettleWaiters(now: int)
      modifies this`waiters
      ensures View() == WaitersSettled(old(View()), now)
    {
      if !IsIdle(now) {
        return;
      }
      waiters := {};
    }

    /** From the head of the pump's loop to its next wait. */
    method Pump()
      modifies this`running
      ensures View() == Pumping(old(View()))
    {
      if |queue| > 0 {
        running := Awaiting(queue[0]);
      } else {
        running := Ending;
      }
    }

    /** `text` is the sentence without surrounding blanks. */
    method SpeakNow(text: string)
      requires Valid()
      modifies this
      ensures Valid() && View() == OnSpeaks(old(View()), text)
    {
      if text == "" {
        return;
      }
      var job := Job(spoken, epoch, text);
      Appended(log, Spoken(job));
      spoken := spoken + 1;
      queue := queue + [job];
      log := log + [Spoken(job)];
      if running == Stopped {
        Pump();
      }
    }

    method TranslationArrives(id: nat, result: Option<nat>)
      requires Valid()
      modifies this
      ensures Valid() && View() == OnTranslates(old(View()), id, result)
    {
      if id < spoken && id !in results {
        results := results[id := result];
      }
    }

    method PumpResumes(now: int)
      requires Valid() && running.Awaiting? && running.job.id in results
      modifies this
      ensures Valid() && View() == OnResumes(old(View()), now)
    {
      var job := running.job;
      var result := results[job.id];
      if |queue| > 0 && queue[0] == job {
        queue := queue[1..];
      }
      if job.epoch != epoch {
        Pump();
        return;
      }
      var bytes := if result.Some? then result.value else 0;
      if bytes > 0 {
        playbackEndsAt := Max(playbackEndsAt, now) + ClipMs(bytes);
      }
      Appended(log, DeliveryStarts(job, now, bytes));
      log := log + [DeliveryStarts(job, now, bytes)];
      running := Delivering(job);
    }

    method DeliveryDone(now: int)
      requires Valid() && running.Delivering?
      modifies this
      ensures Valid() && View() == OnDelivers(old(View()), now)
    {
      Appended(log, DeliveryEnds(running.job));
      log := log + [DeliveryEnds(running.job)];
      lastDeliveredAt := now;
      Pump();
    }

    method PumpEnds(now: int)
      requires Valid() && running.Ending?
      modifies this
      ensures Valid() && View() == OnEnds(old(View()), now)
    {
      running := Stopped;
      if |queue| > 0 {
        Pump();
      } else {
        SettleWaiters(now);
      }
    }

    method Cancel(now: int)
      requires Valid()
      modifies this
      ensures Valid() && View() == OnCancels(old(View()), now)
    {
      Appended(log, Cancelled(now));
      epoch := epoch + 1;
      queue := [];
      playbackEndsAt := 0;
      log := log + [Cancelled(now)];
      SettleWaiters(now);
    }

    method WhenIdle(now: int) returns (resolved: bool)
      requires Valid()
      modifies this
      ensures Valid() && View() == OnWaitsForIdle(old(View()), now)
      ensures resolved <==> old(View()).IsIdle(now)
    {
      resolved := IsIdle(now);
      if !resolved {
        waiters := waiters + {asked};
      }
      asked := asked + 1;
    }
  }
}
