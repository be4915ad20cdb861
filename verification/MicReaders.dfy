/** What each event means for the microphone's stream and its readers: who is handed which chunk, who waits, and
    which readers are stopped, closed or asleep.
 */
module MicReaders {
  import opened Wrappers
  import opened MicHandoff

  // ---- The stream -------------------------------------------------------------------------------------

  /** The chunks of the run. */
  function PushedBy(es: seq<Event>): seq<Chunk> {
    if es == [] then [] else
    PushedBy(es[..|es| - 1]) + match es[|es| - 1] case Pushes(c) => [c] case _ => []
  }

  /** A reader that asks is handed the oldest chunk, or waits in the slot if there is none; a new chunk goes to the
      one who waits, or else to the end of the queue; and nothing else moves a chunk. */
  predicate ChunksFollow(w: World, e: Event, t: World) {
    var asks := Asks(w, e);
    var (was, now) := (w.stream, t.stream);
    if asks.Some? && was.queue != [] then
      && now == was.(queue := was.queue[1..]) && t.handed == w.handed + [(asks.value, was.queue[0])]
    else if asks.Some? then now == was.(slot := asks) && t.handed == w.handed
    else if e.Pushes? && was.slot.Some? then
      now == was.(slot := None) && t.handed == w.handed + [(was.slot.value, e.chunk)]
    else if e.Pushes? then now == was.(queue := was.queue + [e.chunk]) && t.handed == w.handed
    else now == was && t.handed == w.handed
  }

  lemma ChunksMove(w: World, e: Event)
    requires !w.stream.destroyed
    ensures ChunksFollow(w, e, Step(w, e))
    ensures Step(w, e).pushed == w.pushed + match e case Pushes(c) => [c] case _ => []
  {
  }

  lemma {:induction false} RunAppends(w: World, es: seq<Event>, e: Event)
    ensures Run(w, es + [e]) == Step(Run(w, es), e)
    decreases |es|
  {
    if es == [] {
      assert es + [e] == [e];
    } else {
      assert (es + [e])[1..] == es[1..] + [e];
      RunAppends(Step(w, es[0]), es[1..], e);
    }
  }

  lemma {:induction false} PushedIsTold(es: seq<Event>)
    ensures Run(INITIAL, es).pushed == PushedBy(es)
  {
    if es != [] {
      var before, e := es[..|es| - 1], es[|es| - 1];
      PushedIsTold(before);
      RunAppends(INITIAL, before, e);
      assert before + [e] == es;
      RunKeepsInv(INITIAL, before);
      ChunksMove(Run(INITIAL, before), e);
    }
  }

  /** In every run the chunks pushed are handed out in order, each once, and the rest is queued; at any moment a reader
      that asks is answered at once if anything is queued, and waits otherwise. */
  lemma ChunksAreHandedOut(es: seq<Event>, e: Event)
    ensures var w := Run(INITIAL, es);
            Chunks(w.handed) + w.stream.queue == PushedBy(es) && ChunksFollow(w, e, Step(w, e))
  {
    PushedIsTold(es);
    RunKeepsInv(INITIAL, es);
    ChunksMove(Run(INITIAL, es), e);
  }

  // ---- The readers ------------------------------------------------------------------------------------

  /** The chunk a reader runs with reaches its session, unless the view was closed meanwhile, or is thrown away by
      its drain. */
  predicate GotFollows(w: World, e: Event, t: World) {
    if e.Continues? && e.reader < |w.readers| && e.reader in w.arriving &&
       (w.readers[e.reader].View? ==> w.readers[e.reader].wake)
    then t.got == w.got + [(e.reader, w.arriving[e.reader])]
    else t.got == w.got
  }

  /** The first pull of a view that is not closed. */
  predicate BeginsToPull(w: World, e: Event, view: nat) {
    && e == Pulls(view) && view < |w.readers|
    && w.readers[view].View? && !w.readers[view].pulled && !w.readers[view].closed && !w.readers[view].wake
  }

  predicate StopsDrain(w: World, e: Event, drain: nat) {
    || e == Stops(drain)
    || (e.Pulls? && BeginsToPull(w, e, e.view) && w.readers[e.view].drain == Some(drain))
  }

  predicate ReaderFollows(w: World, e: Event, t: World, r: nat)
    requires r < |w.readers| <= |t.readers|
  {
    match w.readers[r]
    case Drain(stopped) => t.readers[r] == Drain(stopped || StopsDrain(w, e, r))
    case View(closed, pulled, wake, drain) =>
      var asks := e == Pulls(r) && !closed && !wake;
      t.readers[r] == View(closed || e == Closes(r), pulled || asks,
                           (wake || asks) && e != Closes(r) && !(e == Continues(r) && r in w.arriving), drain)
  }

  lemma ReaderIsTold(w: World, e: Event, r: nat)
    requires r < |w.readers|
    ensures var t := Step(w, e);
            |w.readers| <= |t.readers| && ReaderFollows(w, e, t, r) && GotFollows(w, e, t)
  {
  }

  /** A reader is new, with nothing behind it, exactly if the event opens one. */
  lemma NewReaders(w: World, e: Event)
    ensures var t := Step(w, e);
            match e
            case NewDrain => t.readers == w.readers + [Drain(false)]
            case NewView(its) => t.readers == w.readers + [View(false, false, false, its)]
            case _ => |t.readers| == |w.readers|
  {
  }

  // ---- A drain at work --------------------------------------------------------------------------------

  /** The drain runs and waits for a chunk, or has one to throw away. */
  predicate AtWork(w: World, drain: nat) {
    !w.stream.destroyed && drain < |w.readers| && w.readers[drain] == Drain(false) && Outstanding(w, drain)
  }

  predicate NeverStopped(w: World, es: seq<Event>, drain: nat)
    decreases |es|
  {
    es == [] || (!StopsDrain(w, es[0], drain) && NeverStopped(Step(w, es[0]), es[1..], drain))
  }

  lemma DrainGoesOn(w: World, e: Event, drain: nat)
    requires AtWork(w, drain) && (Asks(w, e).None? || Asks(w, e) == Some(drain)) && !StopsDrain(w, e, drain)
    ensures AtWork(Step(w, e), drain)
  {
  }

  /** A drain is at work from its beginning, and stays at work until it is stopped or another reader asks the stream:
      after each chunk it asks for the next one, so what nobody listens to does not pile up. */
  lemma {:induction false} DrainStaysAtWork(w: World, es: seq<Event>, drain: nat)
    requires AtWork(w, drain) && OnlyAsks(w, es, drain) && NeverStopped(w, es, drain)
    ensures AtWork(Run(w, es), drain)
    decreases |es|
  {
    if es != [] {
      DrainGoesOn(w, es[0], drain);
      DrainStaysAtWork(Step(w, es[0]), es[1..], drain);
    }
  }

  /** While the drain has the slot nothing is queued, and a new drain has it or a chunk at once. */
  lemma DrainBegins(es: seq<Event>)
    ensures var w := Run(INITIAL, es); AtWork(Step(w, NewDrain), |w.readers|)
    ensures var w := Run(INITIAL, es); w.stream.slot.Some? ==> w.stream.queue == []
  {
    RunKeepsInv(INITIAL, es);
  }
}
