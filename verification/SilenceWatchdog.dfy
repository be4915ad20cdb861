/** Judging that Nova Sonic has gone silent: a sentence was heard on the line, and Nova Sonic reported
    nothing about it. Beside the watchdog's variables the state keeps everything that happened since the
    last reset, so what a trigger means can be said against the whole history. Times are in milliseconds.
 */
module SilenceWatchdog {
  import opened Common

  /** The limits, and what the words of a text and the share of them in another one are. */
  datatype Config = Config(
    waitMs: nat, graceBeforeMs: nat, minWords: nat, minChars: nat, settleMs: nat, maxTriggers: nat,
    heardMemoryMs: nat, heardMinWords: nat, heardMinShare: real,
    words: string -> nat, share: (string, string) -> real)

  const MAX_REMEMBERED := 12

  /** Something Nova Sonic heard; `id` is its place among all hearings. */
  datatype Hearing = Hearing(id: nat, text: string, at: int, used: bool)

  /** A sentence to judge when its timer fires. */
  datatype Note = Note(text: string, at: int, since: int)

  datatype State = State(
    lastEventAt: int,
    sessionStartedAt: int,
    lastJudgedAt: int,
    triggers: nat,
    pending: map<nat, Note>,
    noted: nat,
    hearings: seq<Hearing>,
    // since the last reset: the times of Nova Sonic's events, all hearings (unused), and which sentence
    // each used hearing vouched for
    eventTimes: seq<int>,
    heard: seq<Hearing>,
    vouches: map<nat, nat>)

  datatype Event =
    | NovaReports(text: string, now: int)
    | SessionStarts(now: int)
    | Sentence(text: string, armed: bool, now: int)
    | Fires(id: nat, armed: bool, now: int)
    | Cancels
    | Resets

  const INITIAL := State(0, 0, 0, 0, map[], 0, [], [], [], map[])

  // ---- What each event does ---------------------------------------------------------------------------

  function Recent(cfg: Config, hearings: seq<Hearing>, now: int): seq<Hearing> {
    if hearings == [] then [] else
    (if now - hearings[0].at <= cfg.heardMemoryMs then [hearings[0]] else []) + Recent(cfg, hearings[1..], now)
  }

  function Newest(hearings: seq<Hearing>): seq<Hearing> {
    if |hearings| <= MAX_REMEMBERED then hearings else hearings[|hearings| - MAX_REMEMBERED..]
  }

  /** `text` is what Nova Sonic heard without surrounding blanks, empty for any other event. */
  function OnNovaReports(cfg: Config, s: State, text: string, now: int): State {
    var t := s.(lastEventAt := now, eventTimes := s.eventTimes + [now]);
    if text == "" then t else
    var hearing := Hearing(|s.heard|, text, now, false);
    t.(hearings := Newest(Recent(cfg, s.hearings + [hearing], now)), heard := s.heard + [hearing])
  }

  predicate Matches(cfg: Config, hearing: Hearing, sentence: string) {
    cfg.words(hearing.text) >= cfg.heardMinWords && cfg.share(hearing.text, sentence) >= cfg.heardMinShare
  }

  /** The hearing belongs to the sentence and has not counted for another one. */
  predicate Vouches(cfg: Config, hearing: Hearing, note: Note) {
    !hearing.used && hearing.at >= note.since && Matches(cfg, hearing, note.text)
  }

  function Mark(cfg: Config, hearing: Hearing, note: Note): Hearing {
    if Vouches(cfg, hearing, note) then hearing.(used := true) else hearing
  }

  function Taken(cfg: Config, hearings: seq<Hearing>, note: Note): (out: seq<Hearing>)
    ensures |out| == |hearings|
    ensures forall i :: 0 <= i < |hearings| ==> out[i] == Mark(cfg, hearings[i], note)
  {
    if hearings == [] then [] else [Mark(cfg, hearings[0], note)] + Taken(cfg, hearings[1..], note)
  }

  predicate IsHeard(cfg: Config, hearings: seq<Hearing>, note: Note) {
    exists i :: 0 <= i < |hearings| && Vouches(cfg, hearings[i], note)
  }

  /** `armed` says that there is a session and the watch is armed for it. */
  function OnSentence(cfg: Config, s: State, text: string, armed: bool, now: int): State {
    if !armed || s.triggers >= cfg.maxTriggers then s
    else if |text| < cfg.minChars || cfg.words(text) < cfg.minWords then s
    else if now - s.sessionStartedAt < cfg.settleMs then s
    else
      s.(lastJudgedAt := now, noted := s.noted + 1,
         pending := s.pending[s.noted := Note(text, now, Max(s.lastJudgedAt, s.sessionStartedAt))])
  }

  function NewVouches(cfg: Config, hearings: seq<Hearing>, note: Note, id: nat): map<nat, nat> {
    map h | h in hearings && Vouches(cfg, h, note) :: h.id := id
  }

  /** The hearings of the sentence are taken whether or not the watch triggers. */
  function Judging(cfg: Config, s: State, id: nat): State
    requires id in s.pending
  {
    var note := s.pending[id];
    s.(pending := s.pending - {id}, hearings := Taken(cfg, s.hearings, note),
       vouches := s.vouches + NewVouches(cfg, s.hearings, note, id))
  }

  predicate Triggers(cfg: Config, s: State, id: nat, armed: bool)
    requires id in s.pending
  {
    var note := s.pending[id];
    && armed && s.triggers < cfg.maxTriggers
    && s.lastEventAt < note.at - cfg.graceBeforeMs
    && !IsHeard(cfg, s.hearings, note)
  }

  function OnFires(cfg: Config, s: State, id: nat, armed: bool): State
    requires id in s.pending
  {
    if !armed || s.triggers >= cfg.maxTriggers then s.(pending := s.pending - {id})
    else if Triggers(cfg, s, id, armed) then Judging(cfg, s, id).(triggers := s.triggers + 1)
    else Judging(cfg, s, id)
  }

  function OnResets(s: State): State {
    INITIAL.(noted := s.noted)
  }

  predicate Enabled(cfg: Config, s: State, e: Event) {
    e.Fires? ==> e.id in s.pending && e.now >= s.pending[e.id].at + cfg.waitMs
  }

  function Step(cfg: Config, s: State, e: Event): State {
    if !Enabled(cfg, s, e) then s else
    match e
    case NovaReports(text, now) => OnNovaReports(cfg, s, text, now)
    case SessionStarts(now) => s.(sessionStartedAt := now)
    case Sentence(text, armed, now) => OnSentence(cfg, s, text, armed, now)
    case Fires(id, armed, _) => OnFires(cfg, s, id, armed)
    case Cancels => s.(pending := map[])
    case Resets => OnResets(s)
  }

  function Run(cfg: Config, s: State, es: seq<Event>): State
    decreases |es|
  {
    if es == [] then s else Run(cfg, Step(cfg, s, es[0]), es[1..])
  }

  function Clock(clock: int, e: Event): int {
    match e
    case NovaReports(_, now) => now
    case SessionStarts(now) => now
    case Sentence(_, _, now) => now
    case Fires(_, _, now) => now
    case _ => clock
  }

  predicate Forward(clock: int, es: seq<Event>)
    decreases |es|
  {
    es == [] || (clock <= Clock(clock, es[0]) && Forward(Clock(clock, es[0]), es[1..]))
  }

  // ---- What every run keeps ---------------------------------------------------------------------------

  /** The hearing is not remembered: twelve came after it, or one came more than the memory's length later. */
  ghost predicate Forgotten(cfg: Config, heard: seq<Hearing>, i: nat)
    requires i < |heard|
  {
    i + MAX_REMEMBERED < |heard| || heard[|heard| - 1].at - heard[i].at > cfg.heardMemoryMs
  }

  ghost predicate Chronological(hearings: seq<Hearing>) {
    forall i, j :: 0 <= i < j < |hearings| ==> hearings[i].at <= hearings[j].at
  }

  /** Hearing `i` of all is forgotten, or else has its place in the list, marked used if it has vouched. */
  ghost predicate Placed(cfg: Config, heard: seq<Hearing>, hearings: seq<Hearing>, vouches: map<nat, nat>, i: nat)
    requires i < |heard| && |hearings| <= |heard|
  {
    var k := |heard| - |hearings|;
    && (i < k <==> Forgotten(cfg, heard, i))
    && (i >= k ==> hearings[i - k] == heard[i].(used := i in vouches))
  }

  /** The list is the last hearings of all. */
  ghost predicate Remembers(cfg: Config, heard: seq<Hearing>, hearings: seq<Hearing>, vouches: map<nat, nat>) {
    && |hearings| <= |heard|
    && forall i: nat :: i < |heard| ==> Placed(cfg, heard, hearings, vouches, i)
  }

  ghost predicate IsRecord(hearing: Hearing, i: nat, clock: int) {
    hearing.id == i && !hearing.used && hearing.at <= clock
  }

  ghost predicate History(heard: seq<Hearing>, vouches: map<nat, nat>, clock: int) {
    && (forall i: nat :: i < |heard| ==> IsRecord(heard[i], i, clock))
    && Chronological(heard)
    && (forall h :: h in vouches ==> h < |heard|)
  }

  ghost predicate Events(s: State, clock: int) {
    && (forall t :: t in s.eventTimes ==> t <= s.lastEventAt)
    && (if s.eventTimes == [] then s.lastEventAt == 0 else s.lastEventAt in s.eventTimes && s.lastEventAt <= clock)
  }

  ghost predicate Inv(cfg: Config, s: State, clock: int) {
    && History(s.heard, s.vouches, clock) && Remembers(cfg, s.heard, s.hearings, s.vouches)
    && Events(s, clock) && s.triggers <= cfg.maxTriggers
  }

  /** All of a list is recent when its first hearing is, since the others came later. */
  lemma {:induction false} AllRecent(cfg: Config, hearings: seq<Hearing>, now: int)
    requires forall i :: 0 <= i < |hearings| ==> now - hearings[i].at <= cfg.heardMemoryMs
    ensures Recent(cfg, hearings, now) == hearings
  {
    if hearings != [] {
      AllRecent(cfg, hearings[1..], now);
    }
  }

  predicate TooOld(cfg: Config, hearing: Hearing, now: int) {
    now - hearing.at > cfg.heardMemoryMs
  }

  /** In a list ordered by time, the recent hearings are the last ones. */
  lemma {:induction false} RecentIsSuffix(cfg: Config, hearings: seq<Hearing>, now: int) returns (k: nat)
    requires Chronological(hearings)
    ensures k <= |hearings| && Recent(cfg, hearings, now) == hearings[k..]
    ensures forall i :: 0 <= i < |hearings| ==> (i < k <==> TooOld(cfg, hearings[i], now))
  {
    if hearings == [] {
      k := 0;
    } else if now - hearings[0].at <= cfg.heardMemoryMs {
      k := 0;
      AllRecent(cfg, hearings, now);
    } else {
      var tail := hearings[1..];
      assert forall i :: 0 <= i < |tail| ==> tail[i] == hearings[i + 1];
      var rest := RecentIsSuffix(cfg, tail, now);
      k := rest + 1;
      forall i | 0 <= i < |hearings| ensures i < k <==> TooOld(cfg, hearings[i], now) {
        assert i > 0 ==> hearings[i] == tail[i - 1];
      }
    }
  }

  /** The list is ordered by time because all hearings are. */
  lemma ListIsChronological(cfg: Config, heard: seq<Hearing>, hearings: seq<Hearing>, vouches: map<nat, nat>)
    requires Chronological(heard) && Remembers(cfg, heard, hearings, vouches)
    ensures Chronological(hearings)
  {
    var k := |heard| - |hearings|;
    forall i, j | 0 <= i < j < |hearings| ensures hearings[i].at <= hearings[j].at {
      assert Placed(cfg, heard, hearings, vouches, k + i) && Placed(cfg, heard, hearings, vouches, k + j);
    }
  }

  /** What is kept of a list ordered by time is its end; the rest is too old or too far back. */
  lemma KeptIsSuffix(cfg: Config, all: seq<Hearing>, now: int) returns (d: nat)
    requires Chronological(all)
    ensures d <= |all| && Newest(Recent(cfg, all, now)) == all[d..]
    ensures forall i :: 0 <= i < |all| ==> (i < d <==> i + MAX_REMEMBERED < |all| || TooOld(cfg, all[i], now))
  {
    var k := RecentIsSuffix(cfg, all, now);
    d := |all| - |Newest(all[k..])|;
  }

  /** A new hearing takes its place, and every older one is where it was or is forgotten now. */
  lemma HearingTakesItsPlace(cfg: Config, heard: seq<Hearing>, hearings: seq<Hearing>, vouches: map<nat, nat>,
                             hearing: Hearing, d: nat, i: nat)
    requires Remembers(cfg, heard, hearings, vouches) && |heard| !in vouches && !hearing.used
    requires d <= |hearings| + 1 && i <= |heard|
    requires forall j :: 0 <= j <= |hearings| ==>
               (j < d <==> j + MAX_REMEMBERED < |hearings| + 1 || TooOld(cfg, (hearings + [hearing])[j], hearing.at))
    requires forall j :: 0 <= j < |heard| ==> heard[j].at <= hearing.at
    ensures Placed(cfg, heard + [hearing], (hearings + [hearing])[d..], vouches, i)
  {
    var k := |heard| - |hearings|;
    var all := heard + [hearing];
    if i < k {
      assert Placed(cfg, heard, hearings, vouches, i) && all[i] == heard[i];
      assert heard[|heard| - 1].at <= hearing.at == all[|all| - 1].at;
      assert Forgotten(cfg, all, i);
    } else if i < |heard| {
      assert Placed(cfg, heard, hearings, vouches, i);
      assert (hearings + [hearing])[i - k] == hearings[i - k] && all[i] == heard[i];
      assert i < k + d <==> Forgotten(cfg, all, i);
    } else {
      assert (hearings + [hearing])[|hearings|] == hearing;
      assert d <= |hearings|;
    }
  }

  lemma HistoryLasts(heard: seq<Hearing>, vouches: map<nat, nat>, clock: int, later: int)
    requires History(heard, vouches, clock) && clock <= later
    ensures History(heard, vouches, later)
  {
    forall i: nat | i < |heard| ensures IsRecord(heard[i], i, later) {
      assert IsRecord(heard[i], i, clock);
    }
  }

  lemma HearingKeepsHistory(heard: seq<Hearing>, vouches: map<nat, nat>, text: string, now: int, clock: int)
    requires History(heard, vouches, clock) && clock <= now
    ensures History(heard + [Hearing(|heard|, text, now, false)], vouches, now)
    ensures forall i :: 0 <= i < |heard| ==> heard[i].at <= now
  {
    HistoryLasts(heard, vouches, clock, now);
    assert forall i :: 0 <= i < |heard| ==> IsRecord(heard[i], i, now);
  }

  lemma HearingKeepsMemory(cfg: Config, heard: seq<Hearing>, hearings: seq<Hearing>, vouches: map<nat, nat>,
                           hearing: Hearing)
    requires Chronological(heard) && Remembers(cfg, heard, hearings, vouches)
    requires |heard| !in vouches && !hearing.used && forall i :: 0 <= i < |heard| ==> heard[i].at <= hearing.at
    ensures Remembers(cfg, heard + [hearing], Newest(Recent(cfg, hearings + [hearing], hearing.at)), vouches)
  {
    ListIsChronological(cfg, heard, hearings, vouches);
    forall i | 0 <= i < |hearings| ensures hearings[i].at <= hearing.at {
      assert Placed(cfg, heard, hearings, vouches, |heard| - |hearings| + i);
    }
    var d := KeptIsSuffix(cfg, hearings + [hearing], hearing.at);
    forall i: nat | i < |heard + [hearing]|
      ensures Placed(cfg, heard + [hearing], (hearings + [hearing])[d..], vouches, i)
    {
      HearingTakesItsPlace(cfg, heard, hearings, vouches, hearing, d, i);
    }
  }

  lemma NovaReportsKeepsInv(cfg: Config, s: State, text: string, now: int, clock: int)
    requires Inv(cfg, s, clock) && clock <= now
    ensures Inv(cfg, OnNovaReports(cfg, s, text, now), now)
  {
    if text != "" {
      HearingKeepsHistory(s.heard, s.vouches, text, now, clock);
      HearingKeepsMemory(cfg, s.heard, s.hearings, s.vouches, Hearing(|s.heard|, text, now, false));
    }
  }

  /** Exactly the remembered hearings that belong to the sentence vouch for it. */
  lemma NewVouchesAre(cfg: Config, heard: seq<Hearing>, hearings: seq<Hearing>, vouches: map<nat, nat>,
                      note: Note, id: nat, clock: int, h: nat)
    requires History(heard, vouches, clock) && Remembers(cfg, heard, hearings, vouches)
    ensures var k := |heard| - |hearings|;
            h in NewVouches(cfg, hearings, note, id) <==> k <= h < |heard| && Vouches(cfg, hearings[h - k], note)
    ensures h in NewVouches(cfg, hearings, note, id) ==> h !in vouches
  {
    var k := |heard| - |hearings|;
    if h in NewVouches(cfg, hearings, note, id) {
      var i :| 0 <= i < |hearings| && Vouches(cfg, hearings[i], note) && hearings[i].id == h;
      assert Placed(cfg, heard, hearings, vouches, k + i);
    }
    if k <= h < |heard| && Vouches(cfg, hearings[h - k], note) {
      assert Placed(cfg, heard, hearings, vouches, h);
      assert hearings[h - k] in hearings;
    }
  }

  /** After judging, a hearing still has its place, with the new vouches marked. */
  lemma JudgingKeepsPlace(cfg: Config, heard: seq<Hearing>, hearings: seq<Hearing>, vouches: map<nat, nat>,
                          taken: seq<Hearing>, all: map<nat, nat>, note: Note, i: nat)
    requires |hearings| == |taken| <= |heard| && i < |heard| && Placed(cfg, heard, hearings, vouches, i)
    requires var k := |heard| - |hearings|;
             i >= k ==>
               && taken[i - k] == Mark(cfg, hearings[i - k], note)
               && (i in all <==> i in vouches || Vouches(cfg, hearings[i - k], note))
    ensures Placed(cfg, heard, taken, all, i)
  {
  }

  lemma JudgingKeepsVouches(cfg: Config, heard: seq<Hearing>, hearings: seq<Hearing>, vouches: map<nat, nat>,
                            note: Note, id: nat, clock: int, h: nat)
    requires History(heard, vouches, clock) && Remembers(cfg, heard, hearings, vouches)
    requires h in vouches + NewVouches(cfg, hearings, note, id)
    ensures h < |heard| && (h in vouches ==> (vouches + NewVouches(cfg, hearings, note, id))[h] == vouches[h])
  {
    NewVouchesAre(cfg, heard, hearings, vouches, note, id, clock, h);
  }

  lemma JudgingKeepsMemory(cfg: Config, heard: seq<Hearing>, hearings: seq<Hearing>, vouches: map<nat, nat>,
                           note: Note, id: nat, clock: int)
    requires History(heard, vouches, clock) && Remembers(cfg, heard, hearings, vouches)
    ensures var all := vouches + NewVouches(cfg, hearings, note, id);
            && History(heard, all, clock) && Remembers(cfg, heard, Taken(cfg, hearings, note), all)
            && forall h :: h in vouches ==> all[h] == vouches[h]
  {
    var all := vouches + NewVouches(cfg, hearings, note, id);
    assert Remembers(cfg, heard, Taken(cfg, hearings, note), all) by {
      forall i: nat | i < |heard| ensures Placed(cfg, heard, Taken(cfg, hearings, note), all, i) {
        NewVouchesAre(cfg, heard, hearings, vouches, note, id, clock, i);
        JudgingKeepsPlace(cfg, heard, hearings, vouches, Taken(cfg, hearings, note), all, note, i);
      }
    }
    forall h | h in all ensures h < |heard| && (h in vouches ==> all[h] == vouches[h]) {
      JudgingKeepsVouches(cfg, heard, hearings, vouches, note, id, clock, h);
    }
  }

  ghost predicate KeepsVouches(s: State, t: State) {
    forall h :: h in s.vouches ==> h in t.vouches && t.vouches[h] == s.vouches[h]
  }

  lemma JudgingKeepsInv(cfg: Config, s: State, id: nat, clock: int)
    requires Inv(cfg, s, clock) && id in s.pending
    ensures Inv(cfg, Judging(cfg, s, id), clock)
    ensures KeepsVouches(s, Judging(cfg, s, id))
  {
    JudgingKeepsMemory(cfg, s.heard, s.hearings, s.vouches, s.pending[id], id, clock);
  }

  lemma StepKeepsInv(cfg: Config, s: State, e: Event, clock: int)
    requires Inv(cfg, s, clock) && clock <= Clock(clock, e)
    ensures Inv(cfg, Step(cfg, s, e), Clock(clock, e))
    ensures e != Resets ==> KeepsVouches(s, Step(cfg, s, e))
  {
    HistoryLasts(s.heard, s.vouches, clock, Clock(clock, e));
    if e.NovaReports? {
      NovaReportsKeepsInv(cfg, s, e.text, e.now, clock);
    } else if e.Fires? && Enabled(cfg, s, e) {
      JudgingKeepsInv(cfg, s, e.id, Clock(clock, e));
    }
  }

  lemma {:induction false} RunKeepsInv(cfg: Config, s: State, es: seq<Event>, clock: int) returns (end: int)
    requires Inv(cfg, s, clock) && Forward(clock, es)
    ensures Inv(cfg, Run(cfg, s, es), end)
    decreases |es|
  {
    if es == [] {
      end := clock;
    } else {
      StepKeepsInv(cfg, s, es[0], clock);
      end := RunKeepsInv(cfg, Step(cfg, s, es[0]), es[1..], Clock(clock, es[0]));
    }
  }

  /** No event since the grace period before the sentence; without any event its time reads as 0. */
  ghost predicate SilentFor(cfg: Config, s: State, note: Note) {
    && (forall t :: t in s.eventTimes ==> t < note.at - cfg.graceBeforeMs)
    && (s.eventTimes == [] ==> 0 < note.at - cfg.graceBeforeMs)
  }

  ghost predicate Unvouched(cfg: Config, s: State, note: Note) {
    forall i: nat :: i < |s.heard| && s.heard[i].at >= note.since && Matches(cfg, s.heard[i], note.text) ==>
      i in s.vouches || Forgotten(cfg, s.heard, i)
  }

  ghost predicate IsSilence(cfg: Config, s: State, note: Note) {
    SilentFor(cfg, s, note) && Unvouched(cfg, s, note)
  }

  lemma HeardIsVouched(cfg: Config, s: State, note: Note, clock: int)
    requires Inv(cfg, s, clock)
    ensures IsHeard(cfg, s.hearings, note) <==> !Unvouched(cfg, s, note)
  {
    var k := |s.heard| - |s.hearings|;
    if IsHeard(cfg, s.hearings, note) {
      var i :| 0 <= i < |s.hearings| && Vouches(cfg, s.hearings[i], note);
      assert Placed(cfg, s.heard, s.hearings, s.vouches, k + i);
    }
    if !Unvouched(cfg, s, note) {
      var i: nat :| i < |s.heard| && s.heard[i].at >= note.since && Matches(cfg, s.heard[i], note.text) &&
                    i !in s.vouches && !Forgotten(cfg, s.heard, i);
      assert Placed(cfg, s.heard, s.hearings, s.vouches, i);
      assert Vouches(cfg, s.hearings[i - k], note);
    }
  }

  /** When the watch triggers, against everything since the last reset: Nova Sonic reported nothing from
      the grace period before the sentence until now, and each thing it did hear of the sentence in its
      window has vouched for another sentence or is too old or too far back to be remembered. */
  lemma TriggersExactlyOnSilence(cfg: Config, es: seq<Event>, clock: int, id: nat, armed: bool)
    requires Forward(clock, es) && id in Run(cfg, INITIAL, es).pending
    ensures var s := Run(cfg, INITIAL, es);
            Triggers(cfg, s, id, armed) <==> armed && s.triggers < cfg.maxTriggers && IsSilence(cfg, s, s.pending[id])
  {
    var end := RunKeepsInv(cfg, INITIAL, es, clock);
    var s := Run(cfg, INITIAL, es);
    HeardIsVouched(cfg, s, s.pending[id], end);
  }

  /** A hearing vouches for one sentence only, until the next reset. */
  lemma {:induction false} HearingVouchesOnce(cfg: Config, s: State, es: seq<Event>, clock: int, h: nat)
    requires Inv(cfg, s, clock) && Forward(clock, es) && h in s.vouches && Resets !in es
    ensures var t := Run(cfg, s, es); h in t.vouches && t.vouches[h] == s.vouches[h]
    decreases |es|
  {
    if es != [] {
      StepKeepsInv(cfg, s, es[0], clock);
      HearingVouchesOnce(cfg, Step(cfg, s, es[0]), es[1..], Clock(clock, es[0]), h);
    }
  }

  /** However many sentences go unanswered, the watch triggers no more often than allowed between resets. */
  lemma TriggersAreLimited(cfg: Config, es: seq<Event>, clock: int)
    requires Forward(clock, es)
    ensures Run(cfg, INITIAL, es).triggers <= cfg.maxTriggers
  {
    var end := RunKeepsInv(cfg, INITIAL, es, clock);
  }

  // ---- The watchdog -----------------------------------------------------------------------------------

  class SilenceWatchdog {
    const cfg: Config
    var lastEventAt: int
    var sessionStartedAt: int
    var lastJudgedAt: int
    var triggers: nat
    var pending: map<nat, Note>
    var noted: nat
    var hearings: seq<Hearing>
    // History since the last reset.
    var heard: seq<Hearing>
    ghost var eventTimes: seq<int>
    ghost var vouches: map<nat, nat>

    ghost function View(): State
      reads this
    {
      State(lastEventAt, sessionStartedAt, lastJudgedAt, triggers, pending, noted, hearings, eventTimes, heard, vouches)
    }

    constructor (cfg: Config)
      ensures View() == INITIAL && this.cfg == cfg
    {
      this.cfg := cfg;
      lastEventAt, sessionStartedAt, lastJudgedAt, triggers := 0, 0, 0, 0;
      pending, noted, hearings, heard := map[], 0, [], [];
      eventTimes, vouches := [], map[];
    }

    /** `text` is Nova Sonic's own transcript of the speaker, when the event is one. */
    method NoteNovaEvent(text: string, now: int)
      modifies this
      ensures View() == OnNovaReports(cfg, old(View()), text, now)
    {
      lastEventAt := now;
      eventTimes := eventTimes + [now];
      if text == "" {
        return;
      }
      var hearing := Hearing(|heard|, text, now, false);
      hearings := Newest(Recent(cfg, hearings + [hearing], now));
      heard := heard + [hearing];
    }

    method NoteSessionStart(now: int)
      modifies this
      ensures View() == old(View()).(sessionStartedAt := now)
    {
      sessionStartedAt := now;
    }

    method NoteSentence(text: string, armed: bool, now: int)
      modifies this
      ensures View() == OnSentence(cfg, old(View()), text, armed, now)
    {
      if !armed || triggers >= cfg.maxTriggers {
        return;
      }
      if |text| < cfg.minChars || cfg.words(text) < cfg.minWords {
        return;
      }
      if now - sessionStartedAt < cfg.settleMs {
        return;
      }
      var from := Max(lastJudgedAt, sessionStartedAt);
      lastJudgedAt := now;
      pending := pending[noted := Note(text, now, from)];
      noted := noted + 1;
    }

    /** Takes the hearings that belong to the sentence, so they cannot count for a later one. */
    method TakeHearingsOf(note: Note) returns (found: bool)
      modifies this`hearings
      ensures found == IsHeard(cfg, old(hearings), note)
      ensures hearings == Taken(cfg, old(hearings), note)
    {
      ghost var was := hearings;
      found := false;
      var i := 0;
      while i < |hearings|
        invariant i <= |hearings| == |was|
        invariant forall j :: 0 <= j < i ==> hearings[j] == Mark(cfg, was[j], note)
        invariant forall j :: i <= j < |was| ==> hearings[j] == was[j]
        invariant found <==> exists j :: 0 <= j < i && Vouches(cfg, was[j], note)
      {
        if Vouches(cfg, hearings[i], note) {
          hearings := hearings[i := hearings[i].(used := true)];
          found := true;
        }
        i := i + 1;
      }
      assert hearings == Taken(cfg, was, note);
    }

    /** The timer of a sentence fires; `silent` says that the failover is triggered for it. */
    method TimerFires(id: nat, armed: bool) returns (silent: bool)
      requires id in pending
      modifies this
      ensures View() == OnFires(cfg, old(View()), id, armed)
      ensures silent == Triggers(cfg, old(View()), id, armed)
    {
      var note := pending[id];
      pending := pending - {id};
      if !armed || triggers >= cfg.maxTriggers {
        return false;
      }
      vouches := vouches + NewVouches(cfg, hearings, note, id);
      var found := TakeHearingsOf(note);
      if lastEventAt >= note.at - cfg.graceBeforeMs {
        return false;
      }
      if found {
        return false;
      }
      triggers := triggers + 1;
      silent := true;
    }

    method Cancel()
      modifies this
      ensures View() == old(View()).(pending := map[])
    {
      pending := map[];
    }

    method Reset()
      modifies this
      ensures View() == OnResets(old(View()))
    {
      Cancel();
      triggers, lastEventAt, sessionStartedAt, lastJudgedAt, hearings := 0, 0, 0, 0, [];
      heard, eventTimes, vouches := [], [], map[];
    }
  }
}
