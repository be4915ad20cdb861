/** What the agent hears of a customer session: Nova Sonic's audio of answers that pass the checks, and one
    fallback translation for each answer that does not. The verdict on a sentence is an input; the state
    decides what it means for the audio held, the audio to come and the words the fallback speaks.
 */
module CustomerTurns {
  import opened Wrappers
  import opened CustomerPlayback

  /** Something Nova Sonic heard the customer say. */
  datatype Piece = Piece(id: nat, text: string)

  /** A turn's fallback: not asked for, waiting for the customer's words, being spoken, or over. */
  datatype Fallback = NotAsked | WaitsForWords | Speaking | Finished

  /** One answer of Nova Sonic, with the words it answers. */
  datatype Turn = Turn(heard: seq<Piece>, failed: bool, fallback: Fallback, allowed: bool, ended: bool)

  datatype Verdict = Ok | Drift | Refusal | AssistantReply

  datatype Fate = PlayedOnArrival | Released | Discarded

  /** The current turn is the last one opened. Beside the session's variables the state keeps how many turns
      had been opened when each audio chunk arrived, what became of it and what was handed to the player, the
      fallbacks asked for and spoken, and the turn each piece was given to. */
  datatype State = State(
    heardPieces: seq<Piece>,
    pieces: nat,
    turns: seq<Turn>,
    pendingAudio: seq<nat>,
    arrived: nat,
    under: seq<nat>,
    fates: map<nat, Fate>,
    playback: Playback,
    requests: seq<nat>,
    spoken: seq<(nat, seq<Piece>)>,
    owner: map<nat, nat>)
  {
    predicate HasTurn() {
      turns != []
    }

    function Current(): Turn
      requires HasTurn()
    {
      turns[|turns| - 1]
    }

    /** There is no answer under way: the next sentence or the turn's end opens one. */
    predicate Between() {
      turns == [] || turns[|turns| - 1].ended
    }
  }

  datatype Event =
    | Hears(text: string)
    | Retracts(misfired: set<string>)
    | Says(blank: bool, finalCopy: bool, prior: Option<bool>, verdict: Verdict)
    | Audio(unvetted: bool)
    | Completes
    | FallbackResumes(turn: nat)
    | FallbackSpoken(turn: nat)
    | ReleaseContinues(release: nat)

  const INITIAL := State([], 0, [], [], 0, [], map[], Playback([], []), [], [], map[])
  const MAX_HEARD := 12

  // ---- What each event does, with the checks on or off ------------------------------------------------

  function WithTurn(s: State, k: nat, t: Turn): State
    requires k < |s.turns|
  {
    s.(turns := s.turns[k := t])
  }

  function Fated(s: State, chunks: seq<nat>, fate: Fate): State {
    s.(fates := s.fates + (map c | c in chunks :: fate))
  }

  function Owned(s: State, k: nat): map<nat, nat> {
    s.owner + (map p | p in s.heardPieces :: p.id := k)
  }

  function Without(pieces: seq<Piece>, misfired: set<string>): seq<Piece> {
    if pieces == [] then [] else
    (if pieces[0].text in misfired then [] else [pieces[0]]) + Without(pieces[1..], misfired)
  }

  /** A new answer takes what was heard since the last one. */
  function Opened(s: State): State {
    s.(turns := s.turns + [Turn(s.heardPieces, false, NotAsked, false, false)], owner := Owned(s, |s.turns|),
       heardPieces := [])
  }

  function FallbackAsked(s: State, k: nat): State
    requires k < |s.turns|
  {
    var t := s.turns[k];
    if !t.fallback.NotAsked? then s
    else if t.heard != [] then
      WithTurn(s, k, t.(fallback := Speaking)).(requests := s.requests + [k], spoken := s.spoken + [(k, t.heard)])
    else WithTurn(s, k, t.(fallback := WaitsForWords)).(requests := s.requests + [k])
  }

  /** The chunks held are played or dropped. */
  function HoldEnded(s: State, fate: Fate): State {
    Fated(s, s.pendingAudio, fate).(
      pendingAudio := [], playback := if fate.Released? then Begun(s.playback, s.pendingAudio) else s.playback)
  }

  /** The turn fails: its fallback is asked for. */
  function FailedTurn(s: State): State
    requires s.HasTurn()
  {
    FallbackAsked(WithTurn(s, |s.turns| - 1, s.Current().(failed := true)), |s.turns| - 1)
  }

  function Failing(s: State): State
    requires s.HasTurn()
  {
    FailedTurn(HoldEnded(s, Discarded))
  }

  function OnHears(checks: bool, s: State, text: string): State {
    if !checks || text == "" then s else
    var all := s.heardPieces + [Piece(s.pieces, text)];
    s.(pieces := s.pieces + 1, heardPieces := if |all| > MAX_HEARD then all[1..] else all)
  }

  function OnRetracts(s: State, misfired: set<string>): State {
    var t := s.(heardPieces := Without(s.heardPieces, misfired));
    if s.Between() then t
    else WithTurn(t, |s.turns| - 1, s.Current().(heard := Without(s.Current().heard, misfired)))
  }

  /** A sentence that follows new words from the customer starts a new answer, as does one after a turn end. */
  function Answering(s: State): State {
    if s.Between() || s.heardPieces != [] then
      var t := if s.Between() then s else WithTurn(s, |s.turns| - 1, s.Current().(ended := true));
      Opened(t)
    else s
  }

  /** A sentence of the current answer is judged; the rest of a failed answer is not. */
  function Judged(t: State, verdict: Verdict): State
    requires t.HasTurn()
  {
    if t.Current().failed then t
    else if verdict.Ok? then HoldEnded(WithTurn(t, |t.turns| - 1, t.Current().(allowed := true)), Released)
    else Failing(t)
  }

  function OnSays(checks: bool, s: State, blank: bool, finalCopy: bool, prior: Option<bool>, verdict: Verdict): State {
    if !checks || blank || (finalCopy && (prior.Some? || s.Between())) then s else Judged(Answering(s), verdict)
  }

  /** Audio of an answer that has failed: all until its end, and what was checked also after it. */
  predicate Silenced(s: State, unvetted: bool) {
    s.HasTurn() && s.Current().failed && (!s.Current().ended || !unvetted)
  }

  predicate PlaysOnArrival(checks: bool, s: State, unvetted: bool) {
    !checks || (!Silenced(s, unvetted) && !unvetted && s.HasTurn() && s.Current().allowed)
  }

  function OnAudio(checks: bool, s: State, unvetted: bool): State {
    var t := s.(arrived := s.arrived + 1, under := s.under + [|s.turns|]);
    if PlaysOnArrival(checks, s, unvetted)
    then Fated(t, [s.arrived], PlayedOnArrival).(playback := PlayedNow(s.playback, s.arrived))
    else if Silenced(s, unvetted) then Fated(t, [s.arrived], Discarded)
    else t.(pendingAudio := s.pendingAudio + [s.arrived])
  }

  /** Audio whose sentence never came is dropped, and the answer it belongs to fails if it had not yet. */
  function UncheckedDropped(s: State): State {
    var t := HoldEnded(s, Discarded);
    var u := if s.Between() then Opened(t) else t;
    if u.Current().failed then u else FailedTurn(u)
  }

  function Ended(s: State): State {
    if s.HasTurn() then WithTurn(s, |s.turns| - 1, s.Current().(ended := true)) else s
  }

  function OnCompletes(checks: bool, s: State): State {
    Ended(if checks && s.pendingAudio != [] then UncheckedDropped(s) else s)
  }

  /** The wait for the customer's words is over, because some came or because it took too long. */
  function OnFallbackResumes(s: State, k: nat): State
    requires k < |s.turns|
  {
    if s.heardPieces == [] then WithTurn(s, k, s.turns[k].(fallback := Finished))
    else
      WithTurn(s, k, s.turns[k].(heard := s.heardPieces, fallback := Speaking)).
        (owner := Owned(s, k), heardPieces := [], spoken := s.spoken + [(k, s.heardPieces)])
  }

  predicate Enabled(s: State, e: Event) {
    match e
    case FallbackResumes(k) => k < |s.turns| && s.turns[k].fallback.WaitsForWords?
    case FallbackSpoken(k) => k < |s.turns| && s.turns[k].fallback.Speaking?
    case ReleaseContinues(r) => CanContinue(s.playback, r)
    case _ => true
  }

  function Step(checks: bool, s: State, e: Event): State {
    if !Enabled(s, e) then s else
    match e
    case Hears(text) => OnHears(checks, s, text)
    case Retracts(misfired) => OnRetracts(s, misfired)
    case Says(blank, finalCopy, prior, verdict) => OnSays(checks, s, blank, finalCopy, prior, verdict)
    case Audio(unvetted) => OnAudio(checks, s, unvetted)
    case Completes => OnCompletes(checks, s)
    case FallbackResumes(k) => OnFallbackResumes(s, k)
    case FallbackSpoken(k) => WithTurn(s, k, s.turns[k].(fallback := Finished))
    case ReleaseContinues(r) => s.(playback := Continued(s.playback, r))
  }

  function Run(checks: bool, s: State, es: seq<Event>): State
    decreases |es|
  {
    if es == [] then s else Run(checks, Step(checks, s, es[0]), es[1..])
  }

  // ---- The session's handlers -------------------------------------------------------------------------

  class CustomerSession {
    const checksOn: bool
    var heardPieces: seq<Piece>
    var pieces: nat
    var turns: seq<Turn>        // the last one is current
    var pendingAudio: seq<nat>
    var arrived: nat
    var releases: seq<Release>
    ghost var under: seq<nat>
    ghost var fates: map<nat, Fate>
    ghost var played: seq<nat>
    ghost var requests: seq<nat>
    ghost var spoken: seq<(nat, seq<Piece>)>
    ghost var owner: map<nat, nat>

    ghost function View(): State
      reads this
    {
      State(heardPieces, pieces, turns, pendingAudio, arrived, under, fates, Playback(releases, played), requests,
            spoken, owner)
    }

    constructor (checksOn: bool)
      ensures View() == INITIAL && this.checksOn == checksOn
    {
      this.checksOn := checksOn;
      heardPieces, pieces, turns, pendingAudio, arrived := [], 0, [], [], 0;
      releases, under, fates, played, requests, spoken, owner := [], [], map[], [], [], [], map[];
    }

    predicate BetweenTurns()
      reads this
    {
      |turns| == 0 || turns[|turns| - 1].ended
    }

    method OnUserText(text: string)
      modifies this
      ensures View() == OnHears(checksOn, old(View()), text)
    {
      if checksOn && text != "" {
        heardPieces := heardPieces + [Piece(pieces, text)];
        pieces := pieces + 1;
        if |heardPieces| > MAX_HEARD {
          heardPieces := heardPieces[1..];
        }
      }
    }

    method OnUserTextRetraction(misfired: set<string>)
      modifies this
      ensures View() == OnRetracts(old(View()), misfired)
    {
      heardPieces := Without(heardPieces, misfired);
      if !BetweenTurns() {
        var turn := turns[|turns| - 1];
        turns := turns[|turns| - 1 := turn.(heard := Without(turn.heard, misfired))];
      }
    }

    method OpenTurn()
      modifies this
      ensures View() == Opened(old(View()))
    {
      owner := Owned(View(), |turns|);
      turns := turns + [Turn(heardPieces, false, NotAsked, false, false)];
      heardPieces := [];
    }

    /** Begins to play the held chunks. */
    method ReleaseHeldAudio()
      modifies this`pendingAudio, this`releases, this`played, this`fates
      ensures View() == HoldEnded(old(View()), Released)
    {
      fates := fates + (map c | c in pendingAudio :: Released);
      var held := pendingAudio;
      pendingAudio := [];
      if |held| > 0 {
        played := played + [held[0]];
        releases := releases + [Release(held, 1)];
      }
    }

    method DropHeldAudio()
      modifies this`pendingAudio, this`fates
      ensures View() == HoldEnded(old(View()), Discarded)
    {
      fates := fates + (map c | c in pendingAudio :: Discarded);
      pendingAudio := [];
    }

    /** The player has taken a chunk of the release: the next one follows. */
    method ReleaseGoesOn(r: nat)
      requires CanContinue(View().playback, r)
      modifies this`releases, this`played
      ensures View() == Step(checksOn, old(View()), ReleaseContinues(r))
    {
      var release := releases[r];
      played := played + [release.chunks[release.next]];
      releases := releases[r := release.(next := release.next + 1)];
    }

    method SpeakTurnFallback(k: nat)
      requires k < |turns|
      modifies this
      ensures View() == FallbackAsked(old(View()), k)
    {
      if turns[k].fallback != NotAsked {
        return;
      }
      requests := requests + [k];
      if |turns[k].heard| > 0 {
        spoken := spoken + [(k, turns[k].heard)];
        turns := turns[k := turns[k].(fallback := Speaking)];
      } else {
        turns := turns[k := turns[k].(fallback := WaitsForWords)];
      }
    }

    method FailTurn()
      requires |turns| > 0
      modifies this
      ensures View() == FailedTurn(old(View()))
    {
      turns := turns[|turns| - 1 := turns[|turns| - 1].(failed := true)];
      SpeakTurnFallback(|turns| - 1);
    }

    /** The answer a sentence belongs to. */
    method AnswerUnderWay()
      modifies this
      ensures View() == Answering(old(View()))
    {
      if !BetweenTurns() && |heardPieces| > 0 {
        turns := turns[|turns| - 1 := turns[|turns| - 1].(ended := true)];
      }
      if BetweenTurns() {
        OpenTurn();
      }
    }

    /** The rest of a failed answer is not judged; a sentence that passes lets go of the audio on hold. */
    method Judge(verdict: Verdict)
      requires |turns| > 0
      modifies this
      ensures View() == Judged(old(View()), verdict)
    {
      var k := |turns| - 1;
      if turns[k].failed {
        return;
      }
      if verdict == Ok {
        turns := turns[k := turns[k].(allowed := true)];
        ReleaseHeldAudio();
        return;
      }
      DropHeldAudio();
      FailTurn();
    }

    method OnAssistantText(blank: bool, finalCopy: bool, prior: Option<bool>, verdict: Verdict)
      modifies this
      ensures View() == OnSays(checksOn, old(View()), blank, finalCopy, prior, verdict)
    {
      if !checksOn || blank {
        return;
      }
      if finalCopy {
        if prior.Some? {
          return;
        }
        if BetweenTurns() {
          return;
        }
      }
      AnswerUnderWay();
      Judge(verdict);
    }

    method Play(chunk: nat)
      modifies this`played, this`fates
      ensures played == old(played) + [chunk]
      ensures fates == old(fates) + (map c | c in [chunk] :: PlayedOnArrival)
    {
      played := played + [chunk];
      fates := fates + (map c | c in [chunk] :: PlayedOnArrival);
    }

    method Arrive() returns (chunk: nat)
      modifies this`arrived, this`under
      ensures chunk == old(arrived) && arrived == chunk + 1 && under == old(under) + [|turns|]
    {
      chunk := arrived;
      arrived := arrived + 1;
      under := under + [|turns|];
    }

    method OnAssistantAudioWav(unvetted: bool)
      modifies this
      ensures View() == OnAudio(checksOn, old(View()), unvetted)
    {
      var chunk := Arrive();
      if !checksOn {
        Play(chunk);
        return;
      }
      if |turns| > 0 && turns[|turns| - 1].failed && (!turns[|turns| - 1].ended || !unvetted) {
        fates := fates + (map c | c in [chunk] :: Discarded);
        return;
      }
      if unvetted || |turns| == 0 || !turns[|turns| - 1].allowed {
        pendingAudio := pendingAudio + [chunk];
        return;
      }
      Play(chunk);
    }

    method DropUnchecked()
      modifies this
      ensures View() == UncheckedDropped(old(View()))
    {
      DropHeldAudio();
      if BetweenTurns() {
        OpenTurn();
      }
      if !turns[|turns| - 1].failed {
        FailTurn();
      }
    }

    method OnTurnComplete()
      modifies this
      ensures View() == OnCompletes(checksOn, old(View()))
    {
      if checksOn && |pendingAudio| > 0 {
        DropUnchecked();
      }
      if |turns| > 0 {
        turns := turns[|turns| - 1 := turns[|turns| - 1].(ended := true)];
      }
    }

    /** The fallback of turn `k` goes on once words have come or its wait is over. */
    method FallbackGoesOn(k: nat)
      requires k < |turns| && turns[k].fallback.WaitsForWords?
      modifies this
      ensures View() == OnFallbackResumes(old(View()), k)
    {
      if |heardPieces| == 0 {
        turns := turns[k := turns[k].(fallback := Finished)];
        return;
      }
      owner := Owned(View(), k);
      turns := turns[k := turns[k].(heard := heardPieces, fallback := Speaking)];
      spoken := spoken + [(k, heardPieces)];
      heardPieces := [];
    }

    method FallbackIsSpoken(k: nat)
      requires k < |turns| && turns[k].fallback.Speaking?
      modifies this
      ensures View() == Step(checksOn, old(View()), FallbackSpoken(k))
    {
      turns := turns[k := turns[k].(fallback := Finished)];
    }
  }
}
