/** What the agent has said and Nova Sonic is translating: finished segments, joined to the utterance of the
    open turn, and the segments that wait for the next one. Texts come without surrounding blanks, times are
    in milliseconds. Beside the object's fields the state keeps every segment since the last `Clear` and the
    utterances closed since, as lists of segments.
 */
module SourceUtterances {
  import opened Wrappers
  import opened Common

  const SEGMENT_GAP_MS := 4000
  const STALE_TURN_MS := 10000
  const EMPTY_TURN_ABSORB_MS := 3000

  /** `turnSize` is the number of segments in the open turn. */
  datatype State = State(
    segments: seq<string>, turnSize: Option<nat>, openedAt: int, lastAt: int, last: string, provisional: string,
    version: nat,
    added: seq<string>, closed: seq<seq<string>>)

  datatype Event =
    | Adds(text: string, now: int)
    | SetsProvisional(text: string)
    | BeginsTurn(now: int)
    | EndsTurn
    | Clears

  const INITIAL := State([], None, 0, 0, "", "", 0, [], [])

  // ---- What each call does ----------------------------------------------------------------------------

  /** A pause ends an utterance that no turn has taken. */
  predicate PauseEnds(s: State, now: int) {
    s.turnSize.None? && s.segments != [] && now - s.lastAt > SEGMENT_GAP_MS
  }

  function AfterPause(s: State, now: int): State {
    if PauseEnds(s, now)
    then s.(last := Join(s.segments), segments := [], closed := s.closed + [s.segments])
    else s
  }

  /** An open turn without words takes the segment if that comes soon enough. */
  function Push(s: State, text: string, now: int): State {
    s.(segments := s.segments + [text], lastAt := now, version := s.version + 1, provisional := "",
       turnSize := if s.turnSize == Some(0) && now - s.openedAt < EMPTY_TURN_ABSORB_MS
                   then Some(|s.segments| + 1) else s.turnSize,
       added := s.added + [text])
  }

  function OnAdd(s: State, text: string, now: int): State {
    if text == "" then s else Push(AfterPause(s, now), text, now)
  }

  function OnSetProvisional(s: State, text: string): State {
    if text != "" && s.segments == [] then s.(provisional := text) else s
  }

  /** The segments of the open turn, or all when no turn is open. */
  function TurnSegments(s: State): seq<string> {
    if s.turnSize.Some? && s.turnSize.value <= |s.segments| then s.segments[..s.turnSize.value] else s.segments
  }

  /** The segments that the open turn has not taken, or all when no turn is open. */
  function PendingSegments(s: State): seq<string> {
    if s.turnSize.None? then s.segments
    else if s.turnSize.value <= |s.segments| then s.segments[s.turnSize.value..] else []
  }

  function OnEndTurn(s: State): State {
    if s.turnSize.None? then s else
    var said := TurnSegments(s);
    s.(last := if Join(said) != "" then Join(said) else s.last, segments := PendingSegments(s), turnSize := None,
       provisional := "", closed := if said == [] then s.closed else s.closed + [said])
  }

  predicate IsStale(s: State, now: int) {
    s.turnSize.Some? && now - s.openedAt > STALE_TURN_MS
  }

  function OnBeginTurn(s: State, now: int): State {
    var t := if IsStale(s, now) then OnEndTurn(s) else s;
    if t.turnSize.None? then t.(turnSize := Some(|t.segments|), openedAt := now) else t
  }

  function OnClear(s: State): State {
    s.(segments := [], turnSize := None, provisional := "", added := [], closed := [])
  }

  function Step(s: State, e: Event): State {
    match e
    case Adds(text, now) => OnAdd(s, text, now)
    case SetsProvisional(text) => OnSetProvisional(s, text)
    case BeginsTurn(now) => OnBeginTurn(s, now)
    case EndsTurn => OnEndTurn(s)
    case Clears => OnClear(s)
  }

  function Run(s: State, es: seq<Event>): State
    decreases |es|
  {
    if es == [] then s else Run(Step(s, es[0]), es[1..])
  }

  // ---- Nothing said is lost ---------------------------------------------------------------------------

  predicate HasTurn(s: State) {
    s.turnSize.Some? && s.turnSize.value <= |s.segments|
  }

  predicate Conserves(s: State) {
    s.added == Flatten(s.closed) + s.segments
  }

  predicate AreWords(segments: seq<string>) {
    forall i :: 0 <= i < |segments| ==> segments[i] != ""
  }

  predicate Inv(s: State) {
    && Conserves(s)
    && (s.turnSize.Some? ==> HasTurn(s))
    && (s.provisional != "" ==> s.segments == [])
    && AreWords(s.segments)
    && (s.closed != [] ==> s.last == Join(s.closed[|s.closed| - 1]))
  }

  lemma JoinIsEmpty(segments: seq<string>)
    requires AreWords(segments)
    ensures Join(segments) == "" <==> segments == []
  {
  }

  lemma PauseKeepsInv(s: State, now: int)
    requires Inv(s)
    ensures Inv(AfterPause(s, now))
  {
    if PauseEnds(s, now) {
      FlattenAppend(s.closed, s.segments);
      assert Flatten(s.closed + [s.segments]) + [] == s.added;
    }
  }

  lemma PushKeepsInv(s: State, text: string, now: int)
    requires Inv(s) && text != ""
    ensures Inv(Push(s, text, now))
  {
    assert s.added + [text] == Flatten(s.closed) + (s.segments + [text]);
  }

  lemma AddKeepsInv(s: State, text: string, now: int)
    requires Inv(s)
    ensures Inv(OnAdd(s, text, now))
  {
    if text != "" {
      PauseKeepsInv(s, now);
      PushKeepsInv(AfterPause(s, now), text, now);
    }
  }

  lemma EndTurnConserves(s: State)
    requires Conserves(s) && HasTurn(s)
    ensures Conserves(OnEndTurn(s))
  {
    var (said, pending) := (TurnSegments(s), PendingSegments(s));
    assert said + pending == s.segments;
    Grouping(Flatten(s.closed), said, pending);
    if said == [] {
      assert pending == s.segments;
    } else {
      FlattenAppend(s.closed, said);
    }
  }

  lemma EndTurnKeepsInv(s: State)
    requires Inv(s)
    ensures Inv(OnEndTurn(s))
  {
    if s.turnSize.Some? {
      EndTurnConserves(s);
      assert AreWords(TurnSegments(s)) && AreWords(PendingSegments(s));
      JoinIsEmpty(TurnSegments(s));
    }
  }

  lemma OpeningKeepsInv(s: State, now: int)
    requires Inv(s) && s.turnSize.None?
    ensures Inv(s.(turnSize := Some(|s.segments|), openedAt := now))
  {
  }

  lemma BeginTurnKeepsInv(s: State, now: int)
    requires Inv(s)
    ensures Inv(OnBeginTurn(s, now))
  {
    EndTurnKeepsInv(s);
    var t := if IsStale(s, now) then OnEndTurn(s) else s;
    if t.turnSize.None? {
      OpeningKeepsInv(t, now);
    }
  }

  lemma OtherKeepsInv(s: State, e: Event)
    requires Inv(s) && (e.SetsProvisional? || e.Clears?)
    ensures Inv(Step(s, e))
  {
  }

  lemma StepKeepsInv(s: State, e: Event)
    requires Inv(s)
    ensures Inv(Step(s, e))
  {
    if e.Adds? {
      AddKeepsInv(s, e.text, e.now);
    } else if e.BeginsTurn? {
      BeginTurnKeepsInv(s, e.now);
    } else if e.EndsTurn? {
      EndTurnKeepsInv(s);
    } else {
      OtherKeepsInv(s, e);
    }
  }

  lemma {:induction false} RunKeepsInv(s: State, es: seq<Event>)
    requires Inv(s)
    ensures Inv(Run(s, es))
    decreases |es|
  {
    if es != [] {
      StepKeepsInv(s, es[0]);
      RunKeepsInv(Step(s, es[0]), es[1..]);
    }
  }

  function Words(e: Event): seq<string> {
    if e.Adds? && e.text != "" then [e.text] else []
  }

  /** The texts added since the last clear, whatever else happened. */
  function Said(es: seq<Event>): seq<string>
    decreases |es|
  {
    if es == [] then [] else Words(es[0]) + Said(es[1..])
  }

  lemma StepAddsWords(s: State, e: Event)
    requires e != Clears
    ensures Step(s, e).added == s.added + Words(e) && Step(s, e).version == s.version + |Words(e)|
  {
  }

  lemma {:induction false} AddedIsSaid(s: State, es: seq<Event>)
    requires Clears !in es
    ensures Run(s, es).added == s.added + Said(es) && Run(s, es).version == s.version + |Said(es)|
    decreases |es|
  {
    if es != [] {
      StepAddsWords(s, es[0]);
      AddedIsSaid(Step(s, es[0]), es[1..]);
    }
  }

  lemma {:induction false} RunSplits(s: State, es: seq<Event>, fs: seq<Event>)
    ensures Run(s, es + fs) == Run(Run(s, es), fs)
    decreases |es|
  {
    if es == [] {
      assert es + fs == fs;
    } else {
      assert (es + fs)[1..] == es[1..] + fs;
      RunSplits(Step(s, es[0]), es[1..], fs);
    }
  }

  /** In every run, the utterances closed since the last clear and the segments still waiting are, in order,
      exactly what was said since then; the last one closed is the one reported. */
  lemma NothingSaidIsLost(before: seq<Event>, es: seq<Event>)
    requires Clears !in es
    ensures var s := Run(INITIAL, before + [Clears] + es);
            && Flatten(s.closed) + s.segments == Said(es)
            && (s.closed != [] ==> s.last == Join(s.closed[|s.closed| - 1]))
            && (s.provisional != "" ==> s.segments == [])
  {
    var at := Run(INITIAL, before + [Clears]);
    RunSplits(INITIAL, before, [Clears]);
    assert Run(Run(INITIAL, before), [Clears]) == OnClear(Run(INITIAL, before));
    RunSplits(INITIAL, before + [Clears], es);
    AddedIsSaid(at, es);
    RunKeepsInv(INITIAL, before + [Clears] + es);
  }

  // ---- Whose words the open turn has ------------------------------------------------------------------

  lemma {:induction false} JoinSplits(a: seq<string>, b: seq<string>)
    ensures Join(a + b) == if a == [] then Join(b) else if b == [] then Join(a) else Join(a) + " " + Join(b)
  {
    if a == [] {
      assert a + b == b;
    } else if b == [] {
      assert a + b == a;
    } else {
      assert (a + b)[1..] == a[1..] + b;
      JoinSplits(a[1..], b);
    }
  }

  /** The text of the open turn and the pending text make up the current text; without a turn both are it. */
  lemma TurnAndPendingPartitionCurrent(es: seq<Event>)
    ensures var s := Run(INITIAL, es);
            var (turn, pending, current) := (Join(TurnSegments(s)), Join(PendingSegments(s)), Join(s.segments));
            if s.turnSize.None? then turn == current && pending == current
            else if turn == "" then pending == current
            else if pending == "" then turn == current
            else turn + " " + pending == current
  {
    var s := Run(INITIAL, es);
    RunKeepsInv(INITIAL, es);
    var (turn, pending) := (TurnSegments(s), PendingSegments(s));
    if s.turnSize.Some? {
      assert s.segments == turn + pending;
      JoinIsEmpty(turn);
      JoinIsEmpty(pending);
      JoinSplits(turn, pending);
    }
  }

  /** The turn stays open: it is neither ended nor cleared nor replaced for being stale. */
  predicate LeavesOpen(openedAt: int, e: Event) {
    && !e.EndsTurn? && !e.Clears?
    && (e.BeginsTurn? ==> e.now - openedAt <= STALE_TURN_MS)
  }

  predicate StaysOpen(openedAt: int, es: seq<Event>)
    decreases |es|
  {
    es == [] || (LeavesOpen(openedAt, es[0]) && StaysOpen(openedAt, es[1..]))
  }

  /** While a turn is open, words queue up behind it; only a turn without words may take them. */
  lemma OpenTurnQueues(s: State, e: Event)
    requires HasTurn(s) && LeavesOpen(s.openedAt, e)
    ensures var t := Step(s, e);
            && HasTurn(t)
            && t.segments == s.segments + Words(e) && t.openedAt == s.openedAt && t.closed == s.closed
            && (s.turnSize.value > 0 ==>
                  t.turnSize == s.turnSize && TurnSegments(t) == TurnSegments(s) &&
                  PendingSegments(t) == PendingSegments(s) + Words(e))
            && (s.turnSize.value == 0 && (e.Adds? ==> e.now - s.openedAt >= EMPTY_TURN_ABSORB_MS) ==>
                  t.turnSize == s.turnSize)
            && (!e.Adds? ==> t.turnSize == s.turnSize)
  {
  }

  /** A turn that has words keeps exactly these, whatever the agent says while it is open. */
  lemma {:induction false} TurnKeepsItsWords(s: State, es: seq<Event>)
    requires HasTurn(s) && s.turnSize.value > 0 && StaysOpen(s.openedAt, es)
    ensures var t := Run(s, es);
            && t.turnSize == s.turnSize && t.openedAt == s.openedAt
            && TurnSegments(t) == TurnSegments(s)
            && PendingSegments(t) == PendingSegments(s) + Said(es)
            && t.closed == s.closed
    decreases |es|
  {
    if es != [] {
      var next := Step(s, es[0]);
      OpenTurnQueues(s, es[0]);
      TurnKeepsItsWords(next, es[1..]);
      Grouping(PendingSegments(s), Words(es[0]), Said(es[1..]));
    }
  }

  /** When the first words were said. */
  function FirstSaidAt(es: seq<Event>): Option<int>
    decreases |es|
  {
    if es == [] then None
    else if es[0].Adds? && es[0].text != "" then Some(es[0].now)
    else FirstSaidAt(es[1..])
  }

  predicate Forward(clock: int, es: seq<Event>)
    decreases |es|
  {
    es == [] || (
      (es[0].Adds? ==> clock <= es[0].now) && Forward(if es[0].Adds? then es[0].now else clock, es[1..]))
  }

  /** Words that come too late for a turn without words wait for the next turn. */
  lemma {:induction false} LateWordsWait(s: State, es: seq<Event>, clock: int)
    requires s.turnSize == Some(0) && clock - s.openedAt >= EMPTY_TURN_ABSORB_MS && Forward(clock, es)
    requires StaysOpen(s.openedAt, es)
    ensures var t := Run(s, es);
            t.turnSize == Some(0) && t.segments == s.segments + Said(es) && t.closed == s.closed
    decreases |es|
  {
    if es != [] {
      var next := Step(s, es[0]);
      OpenTurnQueues(s, es[0]);
      LateWordsWait(next, es[1..], if es[0].Adds? then es[0].now else clock);
      Grouping(s.segments, Words(es[0]), Said(es[1..]));
    }
  }

  /** The first words said in an open turn without words. */
  lemma FirstWords(s: State, e: Event)
    requires s.turnSize == Some(0) && s.segments == [] && e.Adds? && e.text != ""
    ensures var t := Step(s, e);
            && t.segments == [e.text] && t.openedAt == s.openedAt && t.closed == s.closed
            && t.turnSize == Some(if e.now - s.openedAt < EMPTY_TURN_ABSORB_MS then 1 else 0)
            && (t.turnSize == Some(1) ==> TurnSegments(t) == [e.text] && PendingSegments(t) == [])
  {
  }

  lemma TurnAndPending(s: State)
    requires HasTurn(s)
    ensures TurnSegments(s) + PendingSegments(s) == s.segments
  {
  }

  /** A turn that opened before anything was said takes the first segment if that comes soon enough, and
      never another one. */
  lemma {:induction false} EmptyTurnTakesTheFirstSegment(s: State, es: seq<Event>, clock: int)
    requires s.turnSize == Some(0) && s.segments == [] && Forward(clock, es) && StaysOpen(s.openedAt, es)
    ensures var t := Run(s, es);
            var first := FirstSaidAt(es);
            && t.segments == Said(es) && t.closed == s.closed
            && t.turnSize == Some(if first.Some? && first.value - s.openedAt < EMPTY_TURN_ABSORB_MS then 1 else 0)
    decreases |es|
  {
    if es != [] {
      var next := Step(s, es[0]);
      if !es[0].Adds? || es[0].text == "" {
        OpenTurnQueues(s, es[0]);
        EmptyTurnTakesTheFirstSegment(next, es[1..], if es[0].Adds? then es[0].now else clock);
      } else {
        FirstWords(s, es[0]);
        if es[0].now - s.openedAt < EMPTY_TURN_ABSORB_MS {
          TurnKeepsItsWords(next, es[1..]);
          TurnAndPending(Run(next, es[1..]));
        } else {
          LateWordsWait(next, es[1..], es[0].now);
        }
      }
    }
  }

  // ---- The utterance ----------------------------------------------------------------------------------

  class SourceUtterance {
    var segments: seq<string>
    var turnSize: Option<nat>
    var openedAt: int
    var lastAt: int
    var last: string
    var provisional: string
    var version: nat
    // History since the last clear.
    ghost var added: seq<string>
    ghost var closed: seq<seq<string>>

    ghost function View(): State
      reads this
    {
      State(segments, turnSize, openedAt, lastAt, last, provisional, version, added, closed)
    }

    constructor ()
      ensures View() == INITIAL
    {
      segments, turnSize, openedAt, lastAt, last, provisional, version := [], None, 0, 0, "", "", 0;
      added, closed := [], [];
    }

    method Add(text: string, now: int)
      modifies this
      ensures View() == OnAdd(old(View()), text, now)
    {
      if text == "" {
        return;
      }
      if turnSize.None? && segments != [] && now - lastAt > SEGMENT_GAP_MS {
        last := Join(segments);
        closed := closed + [segments];
        segments := [];
      }
      segments := segments + [text];
      added := added + [text];
      lastAt := now;
      version := version + 1;
      provisional := "";
      if turnSize == Some(0) && now - openedAt < EMPTY_TURN_ABSORB_MS {
        turnSize := Some(|segments|);
      }
    }

    method SetProvisional(text: string)
      modifies this
      ensures View() == OnSetProvisional(old(View()), text)
    {
      if text != "" && segments == [] {
        provisional := text;
      }
    }

    method EndTurn()
      requires turnSize.Some? ==> turnSize.value <= |segments|
      modifies this
      ensures View() == OnEndTurn(old(View()))
    {
      if turnSize.None? {
        return;
      }
      var said := Join(segments[..turnSize.value]);
      if said != "" {
        last := said;
      }
      if turnSize.value > 0 {
        closed := closed + [segments[..turnSize.value]];
      }
      segments := segments[turnSize.value..];
      turnSize := None;
      provisional := "";
    }

    method BeginTurn(now: int)
      requires turnSize.Some? ==> turnSize.value <= |segments|
      modifies this
      ensures View() == OnBeginTurn(old(View()), now)
    {
      if turnSize.Some? && now - openedAt > STALE_TURN_MS {
        EndTurn();
      }
      if turnSize.None? {
        turnSize := Some(|segments|);
        openedAt := now;
      }
    }

    method Clear()
      modifies this
      ensures View() == OnClear(old(View()))
    {
      segments, turnSize, provisional := [], None, "";
      added, closed := [], [];
    }
  }
}
