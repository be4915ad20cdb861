/** Which of the agent's segments make up an utterance: when a turn is open, what it takes, and what each event
    closes or leaves waiting.
 */
module UtteranceHistory {
  import opened Wrappers
  import opened Common
  import opened SourceUtterances

  // ---- By the events alone ----------------------------------------------------------------------------

  /** Since when a turn is open. A turn open for more than ten seconds gives way to a new one. */
  function OpenSince(es: seq<Event>): Option<int> {
    if es == [] then None else
    var before := OpenSince(es[..|es| - 1]);
    match es[|es| - 1]
    case BeginsTurn(now) => if before.Some? && now - before.value <= 10000 then before else Some(now)
    case EndsTurn => None
    case Clears => None
    case _ => before
  }

  function LastSaidAt(es: seq<Event>): int {
    if es == [] then 0 else
    var last := es[|es| - 1];
    if last.Adds? && last.text != "" then last.now else LastSaidAt(es[..|es| - 1])
  }

  lemma {:induction false} RunAppends(s: State, es: seq<Event>, e: Event)
    ensures Run(s, es + [e]) == Step(Run(s, es), e)
    decreases |es|
  {
    RunSplits(s, es, [e]);
    assert Run(Run(s, es), [e]) == Run(Step(Run(s, es), e), []);
  }

  /** In every run a turn is open exactly if it was begun, and neither ended nor cleared since, and its time is that
      of its beginning; and the pause is counted from the last words. */
  lemma {:induction false} TimesAreTold(es: seq<Event>)
    ensures var s := Run(INITIAL, es);
            && s.lastAt == LastSaidAt(es)
            && OpenSince(es) == if s.turnSize.Some? then Some(s.openedAt) else None
  {
    if es != [] {
      var before, e := es[..|es| - 1], es[|es| - 1];
      TimesAreTold(before);
      RunAppends(INITIAL, before, e);
      assert before + [e] == es;
    }
  }

  // ---- What each event closes -------------------------------------------------------------------------

  /** The open turn is over: it ends, or has been open for too long when the next one begins. */
  predicate ClosesTurn(s: State, e: Event) {
    s.turnSize.Some? && (e.EndsTurn? || (e.BeginsTurn? && e.now - s.openedAt > 10000))
  }

  /** Words after four seconds without any, with no turn open, begin a new utterance. */
  predicate ClosesAll(s: State, e: Event) {
    e.Adds? && e.text != "" && s.turnSize.None? && s.segments != [] && e.now - s.lastAt > 4000
  }

  predicate OpensTurn(s: State, e: Event) {
    e.BeginsTurn? && (s.turnSize.None? || e.now - s.openedAt > 10000)
  }

  /** Words within three seconds of the beginning of a turn that has none. */
  predicate Absorbs(s: State, e: Event) {
    e.Adds? && e.text != "" && s.turnSize == Some(0) && e.now - s.openedAt < 3000
  }

  /** The segments that the event closes as one utterance. */
  function Closes(s: State, e: Event): seq<string>
    requires s.turnSize.Some? ==> HasTurn(s)
  {
    if ClosesTurn(s, e) then s.segments[..s.turnSize.value] else if ClosesAll(s, e) then s.segments else []
  }

  predicate SegmentsFollow(s: State, e: Event, t: State)
    requires s.turnSize.Some? ==> HasTurn(s)
  {
    if e.Clears? then t.segments == [] && t.closed == [] && t.last == s.last else
    var done := Closes(s, e);
    && t.segments == s.segments[|done|..] + Words(e)
    && t.closed == s.closed + (if done == [] then [] else [done])
    && t.last == (if done == [] then s.last else Join(done))
  }

  predicate TurnFollows(s: State, e: Event, t: State) {
    && t.turnSize == (if OpensTurn(s, e) || Absorbs(s, e) then Some(|t.segments|)
                      else if ClosesTurn(s, e) || e.Clears? then None else s.turnSize)
    && t.openedAt == (if OpensTurn(s, e) then e.now else s.openedAt)
    && t.provisional == (if e.SetsProvisional? && e.text != "" && s.segments == [] then e.text
                         else if Words(e) != [] || ClosesTurn(s, e) || e.Clears? then "" else s.provisional)
  }

  lemma EndTurnCloses(s: State)
    requires HasTurn(s) && AreWords(s.segments)
    ensures var done := s.segments[..s.turnSize.value];
            var t := OnEndTurn(s);
            && t.segments == s.segments[|done|..]
            && t.closed == s.closed + (if done == [] then [] else [done])
            && t.last == (if done == [] then s.last else Join(done))
            && t.turnSize.None?
  {
    assert TurnSegments(s) == s.segments[..s.turnSize.value];
    JoinIsEmpty(TurnSegments(s));
  }

  lemma AddCloses(s: State, text: string, now: int)
    requires s.turnSize.Some? ==> HasTurn(s)
    ensures SegmentsFollow(s, Adds(text, now), OnAdd(s, text, now))
  {
  }

  lemma EndTold(s: State)
    requires AreWords(s.segments) && (s.turnSize.Some? ==> HasTurn(s))
    ensures SegmentsFollow(s, EndsTurn, OnEndTurn(s))
  {
    if s.turnSize.Some? {
      EndTurnCloses(s);
    }
  }

  lemma BeginTold(s: State, now: int)
    requires AreWords(s.segments) && (s.turnSize.Some? ==> HasTurn(s))
    ensures SegmentsFollow(s, BeginsTurn(now), OnBeginTurn(s, now))
  {
    if IsStale(s, now) {
      EndTurnCloses(s);
      assert Closes(s, BeginsTurn(now)) == s.segments[..s.turnSize.value];
    } else {
      assert Closes(s, BeginsTurn(now)) == [];
    }
  }

  lemma OthersTold(s: State, e: Event)
    requires (s.turnSize.Some? ==> HasTurn(s)) && (e.SetsProvisional? || e.Clears?)
    ensures SegmentsFollow(s, e, Step(s, e))
  {
  }

  lemma SegmentsAreTold(s: State, e: Event)
    requires AreWords(s.segments) && (s.turnSize.Some? ==> HasTurn(s))
    ensures SegmentsFollow(s, e, Step(s, e))
  {
    match e
    case Adds(text, now) => AddCloses(s, text, now);
    case EndsTurn => EndTold(s);
    case BeginsTurn(now) => BeginTold(s, now);
    case _ => OthersTold(s, e);
  }

  lemma TurnIsTold(s: State, e: Event)
    requires Inv(s)
    ensures TurnFollows(s, e, Step(s, e))
  {
  }

  /** Every event closes exactly the open turn's segments, or after a pause without a turn all of them, and all others
      stay, with new words last; a turn that begins takes what is waiting, and one without words the first that come
      within three seconds. */
  lemma EventsCloseExactly(es: seq<Event>, e: Event)
    ensures var s := Run(INITIAL, es);
            && (s.turnSize.Some? ==> HasTurn(s))
            && SegmentsFollow(s, e, Step(s, e)) && TurnFollows(s, e, Step(s, e))
  {
    RunKeepsInv(INITIAL, es);
    SegmentsAreTold(Run(INITIAL, es), e);
    TurnIsTold(Run(INITIAL, es), e);
  }

  /** A turn that begins while words wait closes exactly these when it ends; what was said while it was open waits for
      the next one. */
  lemma TurnClosesWhatWaited(s: State, now: int, es: seq<Event>)
    requires s.turnSize.None? && s.segments != [] && AreWords(s.segments) && StaysOpen(now, es)
    ensures var t := Run(s, [BeginsTurn(now)] + es + [EndsTurn]);
            && t.closed == s.closed + [s.segments] && t.last == Join(s.segments)
            && t.segments == Said(es) && t.turnSize.None?
  {
    var open := Step(s, BeginsTurn(now));
    var all := [BeginsTurn(now)] + es;
    assert TurnSegments(open) == s.segments && PendingSegments(open) == [];
    TurnKeepsItsWords(open, es);
    assert all[0] == BeginsTurn(now) && all[1..] == es;
    RunAppends(s, all, EndsTurn);
    JoinIsEmpty(s.segments);
    assert [] + Said(es) == Said(es);
  }
}
