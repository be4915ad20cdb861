/** Handing the agent's microphone from one reader to another. The stream has a queue and one slot for a
    waiting reader; a reader that asks while the queue is empty takes the slot, whoever waited there before.
    Drains keep the queue empty while nobody listens; views are what Nova Sonic sessions read.
 */
module MicHandoff {
  import opened Wrappers

  type Chunk = nat

  // ---- The stream -------------------------------------------------------------------------------------

  datatype Stream = Stream(queue: seq<Chunk>, slot: Option<nat>, destroyed: bool)

  /** What next() gives: a chunk, the end, or a promise that only the slot can resolve. */
  datatype Answer = Value(chunk: Chunk) | Done | Pending

  function Pushed(s: Stream, c: Chunk): (Stream, Option<nat>) {
    if s.destroyed then (s, None)
    else if s.slot.Some? then (s.(slot := None), s.slot)
    else (s.(queue := s.queue + [c]), None)
  }

  function Asked(s: Stream, reader: nat): (Stream, Answer) {
    if s.destroyed then (s, Done)
    else if s.queue != [] then (s.(queue := s.queue[1..]), Value(s.queue[0]))
    else (s.(slot := Some(reader)), Pending)
  }

  class MicWorkletStream {
    var queue: seq<Chunk>
    var waiting: Option<nat>
    var destroyed: bool

    ghost function View(): Stream
      reads this
    {
      Stream(queue, waiting, destroyed)
    }

    constructor ()
      ensures View() == Stream([], None, false)
    {
      queue, waiting, destroyed := [], None, false;
    }

    /** A chunk from the worklet: to the waiting reader, or else to the queue. */
    method OnMessage(chunk: Chunk) returns (to: Option<nat>)
      modifies this
      ensures (View(), to) == Pushed(old(View()), chunk)
    {
      if destroyed {
        return None;
      }
      if waiting.Some? {
        to := waiting;
        waiting := None;
      } else {
        queue := queue + [chunk];
        to := None;
      }
    }

    method Next(reader: nat) returns (answer: Answer)
      modifies this
      ensures (View(), answer) == Asked(old(View()), reader)
    {
      if destroyed {
        return Done;
      }
      if |queue| > 0 {
        answer := Value(queue[0]);
        queue := queue[1..];
        return;
      }
      waiting := Some(reader);
      answer := Pending;
    }

    /** Ends the stream; the reader still waiting is told so. */
    method Destroy() returns (told: Option<nat>)
      modifies this
      ensures View() == (if old(destroyed) then old(View()) else Stream([], None, true))
      ensures told == (if old(destroyed) then None else old(waiting))
    {
      if destroyed {
        return None;
      }
      destroyed := true;
      told := waiting;
      waiting := None;
      queue := [];
    }
  }

  // ---- The readers ------------------------------------------------------------------------------------

  /** A view that starts reading stops its drain; `wake` is set while its session waits for a chunk. */
  datatype Reader =
    | Drain(stopped: bool)
    | View(closed: bool, pulled: bool, wake: bool, drain: Option<nat>)

  /** One undestroyed stream with all its readers. `arriving` holds the chunks whose reader has yet to run;
      `handed` and `got` record which chunk the stream gave to which reader, and which reached its session
      (or was thrown away by its drain). */
  datatype World = World(
    stream: Stream,
    readers: seq<Reader>,
    arriving: map<nat, Chunk>,
    pushed: seq<Chunk>,
    handed: seq<(nat, Chunk)>,
    got: seq<(nat, Chunk)>)

  datatype Event =
    | Pushes(chunk: Chunk)
    | NewDrain
    | NewView(its: Option<nat>)
    | Pulls(view: nat)
    | Closes(view: nat)
    | Stops(drain: nat)
    | Continues(reader: nat)

  const INITIAL := World(Stream([], None, false), [], map[], [], [], [])

  function Handing(w: World, reader: nat, c: Chunk): World {
    w.(handed := w.handed + [(reader, c)], arriving := w.arriving[reader := c])
  }

  /** A reader calls next() on the stream. */
  function Asking(w: World, reader: nat): World {
    var (stream, answer) := Asked(w.stream, reader);
    var t := w.(stream := stream);
    if answer.Value? then Handing(t, reader, answer.chunk) else t
  }

  function OnPushes(w: World, c: Chunk): World {
    var (stream, to) := Pushed(w.stream, c);
    var t := w.(stream := stream, pushed := w.pushed + [c]);
    if to.Some? then Handing(t, to.value, c) else t
  }

  function Stopping(readers: seq<Reader>, drain: nat): seq<Reader> {
    if drain < |readers| && readers[drain].Drain? then readers[drain := Drain(true)] else readers
  }

  /** The view's next(): nothing once closed; the first one stops the drain before it asks the stream. */
  function OnPulls(w: World, view: nat): World
    requires view < |w.readers| && w.readers[view].View?
  {
    var v := w.readers[view];
    if v.closed then w else
    var readers := w.readers[view := v.(pulled := true, wake := true)];
    Asking(w.(readers := if !v.pulled && v.drain.Some? then Stopping(readers, v.drain.value) else readers), view)
  }

  function OnCloses(w: World, view: nat): World
    requires view < |w.readers| && w.readers[view].View?
  {
    w.(readers := w.readers[view := w.readers[view].(closed := true, wake := false)])
  }

  /** A reader runs with the chunk it was given: a session gets it unless its view was closed meanwhile; a
      drain throws it away and asks for the next one unless it was stopped meanwhile. */
  function OnContinues(w: World, reader: nat): World
    requires reader < |w.readers| && reader in w.arriving
  {
    var r := w.readers[reader];
    var t := w.(arriving := w.arriving - {reader});
    var u := t.(got := w.got + [(reader, w.arriving[reader])]);
    match r
    case Drain(stopped) => if stopped then u else Asking(u, reader)
    case View(_, _, wake, _) => if wake then u.(readers := w.readers[reader := r.(wake := false)]) else t
  }

  predicate Enabled(w: World, e: Event) {
    match e
    case Pulls(view) => view < |w.readers| && w.readers[view].View? && !w.readers[view].wake
    case Closes(view) => view < |w.readers| && w.readers[view].View?
    case Continues(reader) => reader < |w.readers| && reader in w.arriving
    case _ => true
  }

  function Step(w: World, e: Event): World {
    if !Enabled(w, e) then w else
    match e
    case Pushes(c) => OnPushes(w, c)
    case NewDrain => Asking(w.(readers := w.readers + [Drain(false)]), |w.readers|)
    case NewView(its) => w.(readers := w.readers + [View(false, false, false, its)])
    case Pulls(view) => OnPulls(w, view)
    case Closes(view) => OnCloses(w, view)
    case Stops(drain) => w.(readers := Stopping(w.readers, drain))
    case Continues(reader) => OnContinues(w, reader)
  }

  function Run(w: World, es: seq<Event>): World
    decreases |es|
  {
    if es == [] then w else Run(Step(w, es[0]), es[1..])
  }

  // ---- What every run keeps ---------------------------------------------------------------------------

  function Chunks(log: seq<(nat, Chunk)>): seq<Chunk> {
    if log == [] then [] else Chunks(log[..|log| - 1]) + [log[|log| - 1].1]
  }

  /** The chunks of one reader, in order. */
  function Of(log: seq<(nat, Chunk)>, reader: nat): seq<Chunk> {
    if log == [] then [] else
    var last := log[|log| - 1];
    Of(log[..|log| - 1], reader) + (if last.0 == reader then [last.1] else [])
  }

  lemma Logged(log: seq<(nat, Chunk)>, reader: nat, c: Chunk)
    ensures Chunks(log + [(reader, c)]) == Chunks(log) + [c]
    ensures forall r :: Of(log + [(reader, c)], r) == Of(log, r) + (if r == reader then [c] else [])
  {
    assert (log + [(reader, c)])[..|log|] == log;
  }

  function InTransit(w: World, reader: nat): seq<Chunk> {
    if reader in w.arriving then [w.arriving[reader]] else []
  }

  /** The stream owes the reader an answer, or the reader has one it has not looked at. */
  predicate Outstanding(w: World, reader: nat) {
    w.stream.slot == Some(reader) || reader in w.arriving
  }

  /** What the stream handed to a reader is what the reader got and what is in transit; a closed view may
      have lost one chunk, its last. */
  ghost predicate Accounted(w: World, reader: nat) {
    var handed := Of(w.handed, reader);
    var got := Of(w.got, reader);
    || handed == got + InTransit(w, reader)
    || (&& reader < |w.readers| && w.readers[reader].View? && w.readers[reader].closed
        && !Outstanding(w, reader) && |handed| == |got| + 1 && got <= handed)
  }

  ghost predicate Inv(w: World) {
    && !w.stream.destroyed
    && Chunks(w.handed) + w.stream.queue == w.pushed
    && (w.stream.queue != [] ==> w.stream.slot.None?)
    && (forall r: nat :: Outstanding(w, r) ==> r < |w.readers|)
    && (forall r: nat :: Outstanding(w, r) && w.readers[r].View? ==> w.readers[r].wake || w.readers[r].closed)
    && (forall r :: 0 <= r < |w.readers| && w.readers[r].View? && w.readers[r].closed ==> !w.readers[r].wake)
    && (w.stream.slot.Some? ==> w.stream.slot.value !in w.arriving)
    && (forall r: nat :: Accounted(w, r))
  }

  lemma HandingKeepsAccounts(w: World, reader: nat, c: Chunk)
    requires forall r :: Accounted(w, r)
    requires reader !in w.arriving && Of(w.handed, reader) == Of(w.got, reader)
    ensures forall r :: Accounted(Handing(w, reader, c), r)
  {
    var t := Handing(w, reader, c);
    Logged(w.handed, reader, c);
    forall r ensures Accounted(t, r) {
      assert Accounted(w, r);
      assert r != reader ==> InTransit(t, r) == InTransit(w, r) && Outstanding(t, r) == Outstanding(w, r);
    }
  }

  lemma AskingKeepsInv(w: World, reader: nat)
    requires Inv(w) && reader < |w.readers| && !Outstanding(w, reader)
    requires w.readers[reader].View? ==> w.readers[reader].wake
    ensures Inv(Asking(w, reader))
  {
    var t := Asking(w, reader);
    assert Accounted(w, reader);
    if w.stream.queue != [] {
      var c := w.stream.queue[0];
      var u := w.(stream := w.stream.(queue := w.stream.queue[1..]));
      assert forall r :: Accounted(w, r) ==> Accounted(u, r);
      HandingKeepsAccounts(u, reader, c);
      Logged(w.handed, reader, c);
      assert [c] + t.stream.queue == w.stream.queue;
      assert forall r :: Outstanding(t, r) ==> r == reader || Outstanding(w, r);
    } else {
      forall r ensures Accounted(t, r) && (Outstanding(t, r) ==> r == reader || Outstanding(w, r)) {
        assert Accounted(w, r);
      }
    }
  }

  lemma PushesKeepsInv(w: World, c: Chunk)
    requires Inv(w)
    ensures Inv(OnPushes(w, c))
  {
    var t := OnPushes(w, c);
    if w.stream.slot.Some? {
      var reader := w.stream.slot.value;
      assert Outstanding(w, reader) && Accounted(w, reader);
      var u := w.(stream := w.stream.(slot := None), pushed := w.pushed + [c]);
      forall r ensures r != reader ==> Accounted(u, r) {
        assert Accounted(w, r);
      }
      HandingKeepsAccounts(u, reader, c);
      Logged(w.handed, reader, c);
      assert forall r :: Outstanding(t, r) ==> Outstanding(w, r);
    } else {
      forall r ensures Accounted(t, r) && Outstanding(t, r) == Outstanding(w, r) {
        assert Accounted(w, r);
      }
    }
  }

  /** Opening, closing and stopping readers leaves what they were given alone. */
  lemma ReadersKeepInv(w: World, readers: seq<Reader>)
    requires Inv(w) && |readers| >= |w.readers|
    requires forall r :: 0 <= r < |w.readers| ==>
               && readers[r].View? == w.readers[r].View?
               && (readers[r].View? ==> (w.readers[r].closed ==> readers[r].closed)
                                        && (w.readers[r].wake ==> readers[r].wake || readers[r].closed))
    requires forall r :: 0 <= r < |readers| && readers[r].View? && readers[r].closed ==> !readers[r].wake
    ensures Inv(w.(readers := readers))
  {
    var t := w.(readers := readers);
    forall r ensures Accounted(t, r) && Outstanding(t, r) == Outstanding(w, r) {
      assert Accounted(w, r);
    }
  }

  lemma PullsKeepsInv(w: World, view: nat)
    requires Inv(w) && Enabled(w, Pulls(view))
    ensures Inv(OnPulls(w, view))
  {
    var v := w.readers[view];
    if !v.closed {
      var readers := w.readers[view := v.(pulled := true, wake := true)];
      var all := if !v.pulled && v.drain.Some? then Stopping(readers, v.drain.value) else readers;
      assert !Outstanding(w, view);
      ReadersKeepInv(w, all);
      AskingKeepsInv(w.(readers := all), view);
    }
  }

  lemma WakeKeepsInv(w: World, view: nat)
    requires Inv(w) && view < |w.readers| && w.readers[view].View? && !Outstanding(w, view)
    ensures Inv(w.(readers := w.readers[view := w.readers[view].(wake := false)]))
  {
    var t := w.(readers := w.readers[view := w.readers[view].(wake := false)]);
    forall r ensures Accounted(t, r) && Outstanding(t, r) == Outstanding(w, r) {
      assert Accounted(w, r);
    }
  }

  lemma ContinuesKeepsInv(w: World, reader: nat)
    requires Inv(w) && Enabled(w, Continues(reader))
    ensures Inv(OnContinues(w, reader))
  {
    var c := w.arriving[reader];
    assert Outstanding(w, reader) && Accounted(w, reader) && w.stream.slot != Some(reader);
    var t := w.(arriving := w.arriving - {reader});
    var u := t.(got := w.got + [(reader, c)]);
    Logged(w.got, reader, c);
    forall r ensures r != reader ==> InTransit(t, r) == InTransit(w, r) && Outstanding(t, r) == Outstanding(w, r) {
    }
    assert !Outstanding(t, reader);
    forall r ensures Accounted(u, r) && (r != reader ==> Accounted(t, r)) {
      assert Accounted(w, r);
    }
    assert forall r: nat :: Outstanding(u, r) ==> Outstanding(w, r);
    assert Inv(u);
    match w.readers[reader]
    case Drain(stopped) =>
      if !stopped {
        AskingKeepsInv(u, reader);
      }
    case View(_, _, wake, _) =>
      if wake {
        WakeKeepsInv(u, reader);
      } else {
        assert Of(w.handed, reader) == Of(w.got, reader) + [c];
        assert Accounted(t, reader);
      }
  }

  lemma StepKeepsInv(w: World, e: Event)
    requires Inv(w)
    ensures Inv(Step(w, e))
  {
    if Enabled(w, e) {
      match e
      case Pushes(c) => PushesKeepsInv(w, c);
      case NewDrain =>
        var readers := w.readers + [Drain(false)];
        assert !Outstanding(w, |w.readers|);
        ReadersKeepInv(w, readers);
        AskingKeepsInv(w.(readers := readers), |w.readers|);
      case NewView(its) => ReadersKeepInv(w, w.readers + [View(false, false, false, its)]);
      case Pulls(view) => PullsKeepsInv(w, view);
      case Closes(view) => ReadersKeepInv(w, w.readers[view := w.readers[view].(closed := true, wake := false)]);
      case Stops(drain) => ReadersKeepInv(w, Stopping(w.readers, drain));
      case Continues(reader) => ContinuesKeepsInv(w, reader);
    }
  }

  lemma {:induction false} RunKeepsInv(w: World, es: seq<Event>)
    requires Inv(w)
    ensures Inv(Run(w, es))
    decreases |es|
  {
    if es != [] {
      StepKeepsInv(w, es[0]);
      RunKeepsInv(Step(w, es[0]), es[1..]);
    }
  }

  /** With any number of drains and views, opened and closed at any time: the chunks handed to readers are
      the first ones pushed, each to one reader, in push order, the rest is queued, and nobody waits while
      something is queued. A reader gets what it was handed, in order; only a closed view can lose a chunk,
      and only its last. */
  lemma EachChunkToOneReader(es: seq<Event>, reader: nat)
    ensures var w := Run(INITIAL, es);
            && Chunks(w.handed) + w.stream.queue == w.pushed
            && (w.stream.queue != [] ==> w.stream.slot.None?)
            && Of(w.got, reader) <= Of(w.handed, reader)
            && |Of(w.handed, reader)| <= |Of(w.got, reader)| + 1
            && (reader < |w.readers| && w.readers[reader].View? && !w.readers[reader].closed ==>
                Of(w.handed, reader) == Of(w.got, reader) + InTransit(w, reader))
  {
    assert Inv(INITIAL);
    RunKeepsInv(INITIAL, es);
    assert Accounted(Run(INITIAL, es), reader);
  }

  // ---- The handoff ------------------------------------------------------------------------------------

  /** The reader that asks the stream for a chunk in this event, if one does. */
  function Asks(w: World, e: Event): Option<nat> {
    if !Enabled(w, e) then None else
    match e
    case NewDrain => Some(|w.readers|)
    case Pulls(view) => if w.readers[view].closed then None else Some(view)
    case Continues(reader) => if w.readers[reader] == Drain(false) then Some(reader) else None
    case _ => None
  }

  /** Nobody but `reader` asks the stream during the run. */
  predicate OnlyAsks(w: World, es: seq<Event>, reader: nat)
    decreases |es|
  {
    es == [] || ((Asks(w, es[0]).None? || Asks(w, es[0]) == Some(reader)) && OnlyAsks(Step(w, es[0]), es[1..], reader))
  }

  predicate OffTheStream(w: World, drain: nat) {
    drain < |w.readers| && w.readers[drain] == Drain(true) && w.stream.slot != Some(drain)
  }

  lemma StoppedDrainStepsAside(w: World, e: Event, drain: nat)
    requires OffTheStream(w, drain)
    ensures OffTheStream(Step(w, e), drain)
    ensures Step(w, e).handed == w.handed || exists r, c :: r != drain && Step(w, e).handed == w.handed + [(r, c)]
  {
    var t := Step(w, e);
    if t.handed != w.handed {
      var entry := t.handed[|w.handed|];
      assert t.handed == w.handed + [(entry.0, entry.1)];
    }
  }

  lemma {:induction false} StoppedDrainGetsNothing(w: World, es: seq<Event>, drain: nat)
    requires OffTheStream(w, drain)
    ensures OffTheStream(Run(w, es), drain) && Of(Run(w, es).handed, drain) == Of(w.handed, drain)
    decreases |es|
  {
    if es != [] {
      var t := Step(w, es[0]);
      StoppedDrainStepsAside(w, es[0], drain);
      if t.handed != w.handed {
        var r, c :| r != drain && t.handed == w.handed + [(r, c)];
        Logged(w.handed, r, c);
      }
      StoppedDrainGetsNothing(t, es[1..], drain);
    }
  }

  /** From its first pull on, the view's drain gets no chunk any more, whatever else happens. */
  lemma FirstPullEndsTheDrain(before: seq<Event>, view: nat, drain: nat, after: seq<Event>)
    requires var w := Run(INITIAL, before);
             && Enabled(w, Pulls(view)) && w.readers[view] == View(false, false, false, Some(drain))
             && drain < |w.readers| && w.readers[drain].Drain?
    ensures var w := Run(INITIAL, before);
            Of(Run(Step(w, Pulls(view)), after).handed, drain) == Of(w.handed, drain)
  {
    var w := Run(INITIAL, before);
    RunKeepsInv(INITIAL, before);
    var t := Step(w, Pulls(view));
    assert OffTheStream(t, drain);
    if t.handed != w.handed {
      Logged(w.handed, view, w.stream.queue[0]);
    }
    StoppedDrainGetsNothing(t, after, drain);
  }

  ghost predicate Alone(w: World, view: nat) {
    view < |w.readers| && w.readers[view].View? && (w.stream.slot.None? || w.stream.slot == Some(view))
  }

  lemma StepAlone(w: World, e: Event, view: nat)
    requires Alone(w, view) && (Asks(w, e).None? || Asks(w, e) == Some(view))
    ensures var t := Step(w, e);
            && Alone(t, view)
            && (t.handed == w.handed || (|t.handed| == |w.handed| + 1 && t.handed == w.handed + [t.handed[|w.handed|]]
                                         && t.handed[|w.handed|].0 == view))
  {
  }

  lemma {:induction false} RunAlone(w: World, es: seq<Event>, view: nat)
    requires Alone(w, view) && OnlyAsks(w, es, view)
    ensures var t := Run(w, es);
            && Alone(t, view) && w.handed <= t.handed
            && forall i :: |w.handed| <= i < |t.handed| ==> t.handed[i].0 == view
    decreases |es|
  {
    if es != [] {
      StepAlone(w, es[0], view);
      RunAlone(Step(w, es[0]), es[1..], view);
    }
  }

  lemma {:induction false} OfOneReader(log: seq<(nat, Chunk)>, more: seq<(nat, Chunk)>, reader: nat)
    requires forall i :: 0 <= i < |more| ==> more[i].0 == reader
    ensures Of(log + more, reader) == Of(log, reader) + Chunks(more)
  {
    if more == [] {
      assert log + more == log;
    } else {
      assert (log + more)[..|log + more| - 1] == log + more[..|more| - 1];
      OfOneReader(log, more[..|more| - 1], reader);
    }
  }

  lemma FirstPullIsAlone(w: World, view: nat)
    requires Inv(w) && Enabled(w, Pulls(view)) && !w.readers[view].closed
    ensures var t := Step(w, Pulls(view));
            Alone(t, view) && w.handed <= t.handed && forall i :: |w.handed| <= i < |t.handed| ==> t.handed[i].0 == view
  {
  }

  lemma Regroup(a: seq<Chunk>, b: seq<Chunk>, c: seq<Chunk>, d: seq<Chunk>)
    ensures (d + b) + c == d + ((a + b) + c)[|a|..]
  {
    assert ((a + b) + c)[|a|..] == b + c;
  }

  lemma {:induction false} ChunksSplit(a: seq<(nat, Chunk)>, b: seq<(nat, Chunk)>)
    ensures Chunks(a + b) == Chunks(a) + Chunks(b) && |Chunks(a)| == |a|
  {
    if b != [] {
      assert (a + b)[..|a + b| - 1] == a + b[..|b| - 1];
      ChunksSplit(a, b[..|b| - 1]);
    } else if a != [] {
      assert a + b == a;
      ChunksSplit(a[..|a| - 1], []);
      assert a[..|a| - 1] + [] == a[..|a| - 1];
    } else {
      assert a + b == a;
    }
  }

  lemma LaterChunks(handed: seq<(nat, Chunk)>, t: World, view: nat)
    requires Inv(t) && Alone(t, view) && handed <= t.handed
    requires forall i :: |handed| <= i < |t.handed| ==> t.handed[i].0 == view
    ensures |handed| <= |t.pushed|
    ensures Of(t.handed, view) + t.stream.queue == Of(handed, view) + t.pushed[|handed|..]
    ensures !t.readers[view].closed ==>
              Of(t.got, view) + InTransit(t, view) + t.stream.queue == Of(handed, view) + t.pushed[|handed|..]
  {
    var later := t.handed[|handed|..];
    assert t.handed == handed + later;
    ChunksSplit(handed, later);
    OfOneReader(handed, later, view);
    Regroup(Chunks(handed), Chunks(later), t.stream.queue, Of(handed, view));
    assert Accounted(t, view);
  }

  /** From its first pull on, and until it closes or another reader asks the stream, everything still queued
      or pushed later goes to the view: what it got, what is in transit to it and what is queued. */
  lemma ViewGetsEverythingFromItsFirstPull(before: seq<Event>, view: nat, after: seq<Event>)
    requires var w := Run(INITIAL, before);
             Enabled(w, Pulls(view)) && !w.readers[view].closed && OnlyAsks(Step(w, Pulls(view)), after, view)
    ensures var w := Run(INITIAL, before);
            var t := Run(Step(w, Pulls(view)), after);
            && |w.handed| <= |t.pushed| && view < |t.readers| && t.readers[view].View?
            && Of(t.handed, view) + t.stream.queue == Of(w.handed, view) + t.pushed[|w.handed|..]
            && (!t.readers[view].closed ==>
                Of(t.got, view) + InTransit(t, view) + t.stream.queue == Of(w.handed, view) + t.pushed[|w.handed|..])
  {
    var w := Run(INITIAL, before);
    RunKeepsInv(INITIAL, before);
    var first := Step(w, Pulls(view));
    StepKeepsInv(w, Pulls(view));
    FirstPullIsAlone(w, view);
    RunAlone(first, after, view);
    RunKeepsInv(first, after);
    LaterChunks(w.handed, Run(first, after), view);
  }
}
