/** The words of a customer session, over whole runs: each piece of what the customer said belongs to one answer
    at most, so no fallback says what another one says.
 */
module CustomerWords {
  import opened Wrappers
  import opened CustomerTurns
  import opened CustomerFallbacks

  ghost predicate Ascending(pieces: seq<Piece>) {
    forall i, j :: 0 <= i < j < |pieces| ==> pieces[i].id < pieces[j].id
  }

  ghost predicate OwnedBy(owner: map<nat, nat>, pieces: seq<Piece>, k: nat) {
    Ascending(pieces) && forall p :: p in pieces ==> p.id in owner && owner[p.id] == k
  }

  /** Every piece belongs to one turn at most, and only pieces without an owner wait for one. */
  ghost predicate Ownership(s: State) {
    && Ascending(s.heardPieces)
    && (forall p :: p in s.heardPieces ==> p.id < s.pieces && p.id !in s.owner)
    && (forall id :: id in s.owner ==> id < s.pieces)
    && (forall k :: 0 <= k < |s.turns| ==> OwnedBy(s.owner, s.turns[k].heard, k))
    && (forall i :: 0 <= i < |s.spoken| ==> OwnedBy(s.owner, s.spoken[i].1, s.spoken[i].0))
  }

  lemma {:induction false} WithoutIsPart(pieces: seq<Piece>, misfired: set<string>)
    ensures forall p :: p in Without(pieces, misfired) ==> p in pieces && p.text !in misfired
    ensures Ascending(pieces) ==> Ascending(Without(pieces, misfired))
  {
    if pieces != [] {
      WithoutIsPart(pieces[1..], misfired);
      var rest := Without(pieces[1..], misfired);
      if Ascending(pieces) && pieces[0].text !in misfired {
        forall i | 0 <= i < |rest| ensures pieces[0].id < rest[i].id {
          assert rest[i] in pieces[1..];
        }
      }
    }
  }

  /** Giving the waiting pieces to turn `k` takes nothing from another turn. */
  lemma OwnedKeepsOwners(s: State, k: nat)
    requires Ownership(s)
    ensures OwnedBy(Owned(s, k), s.heardPieces, k)
    ensures forall id :: id in Owned(s, k) ==> id < s.pieces
    ensures forall pieces, j :: OwnedBy(s.owner, pieces, j) ==> OwnedBy(Owned(s, k), pieces, j)
  {
    var owner := Owned(s, k);
    assert forall id :: id in s.owner ==> id in owner && owner[id] == s.owner[id];
    forall pieces, j | OwnedBy(s.owner, pieces, j) ensures OwnedBy(owner, pieces, j) {
      assert forall p: Piece :: p in pieces ==> p.id in s.owner;
    }
  }

  lemma OpenedKeepsOwnership(s: State)
    requires Ownership(s)
    ensures Ownership(Opened(s))
  {
    OwnedKeepsOwners(s, |s.turns|);
  }

  lemma AskingKeepsOwnership(s: State, k: nat)
    requires Ownership(s) && k < |s.turns|
    ensures Ownership(FallbackAsked(s, k))
  {
  }

  /** Changes that leave what turns have heard and what was spoken alone. */
  lemma QuietKeepsOwnership(s: State, t: State)
    requires Ownership(s) && |t.turns| == |s.turns| && t.spoken == s.spoken
    requires t.owner == s.owner && t.heardPieces == s.heardPieces && t.pieces == s.pieces
    requires forall k :: 0 <= k < |s.turns| ==> t.turns[k].heard == s.turns[k].heard
    ensures Ownership(t)
  {
  }

  lemma FailedTurnKeepsOwnership(s: State)
    requires Ownership(s) && s.HasTurn()
    ensures Ownership(FailedTurn(s))
  {
    var u := WithTurn(s, |s.turns| - 1, s.Current().(failed := true));
    QuietKeepsOwnership(s, u);
    AskingKeepsOwnership(u, |s.turns| - 1);
  }

  lemma AnsweringKeepsOwnership(s: State)
    requires Ownership(s)
    ensures Ownership(Answering(s)) && Answering(s).HasTurn()
  {
    var u := if s.Between() then s else WithTurn(s, |s.turns| - 1, s.Current().(ended := true));
    QuietKeepsOwnership(s, u);
    OpenedKeepsOwnership(u);
  }

  lemma JudgedKeepsOwnership(t: State, verdict: Verdict)
    requires Ownership(t) && t.HasTurn()
    ensures Ownership(Judged(t, verdict))
  {
    if !t.Current().failed {
      if verdict.Ok? {
        QuietKeepsOwnership(t, Judged(t, verdict));
      } else {
        QuietKeepsOwnership(t, HoldEnded(t, Discarded));
        FailedTurnKeepsOwnership(HoldEnded(t, Discarded));
      }
    }
  }

  lemma SaysKeepsOwnership(checks: bool, s: State, blank: bool, finalCopy: bool, prior: Option<bool>, verdict: Verdict)
    requires Ownership(s)
    ensures Ownership(OnSays(checks, s, blank, finalCopy, prior, verdict))
  {
    AnsweringKeepsOwnership(s);
    JudgedKeepsOwnership(Answering(s), verdict);
  }

  lemma UncheckedKeepsOwnership(s: State)
    requires Ownership(s)
    ensures Ownership(UncheckedDropped(s))
  {
    var t := HoldEnded(s, Discarded);
    QuietKeepsOwnership(s, t);
    OpenedKeepsOwnership(t);
    var u := if s.Between() then Opened(t) else t;
    if !u.Current().failed {
      FailedTurnKeepsOwnership(u);
    }
  }

  lemma EndedKeepsOwnership(s: State)
    requires Ownership(s)
    ensures Ownership(Ended(s))
  {
    QuietKeepsOwnership(s, Ended(s));
  }

  lemma CompletesKeepsOwnership(checks: bool, s: State)
    requires Ownership(s)
    ensures Ownership(OnCompletes(checks, s))
  {
    UncheckedKeepsOwnership(s);
    EndedKeepsOwnership(if checks && s.pendingAudio != [] then UncheckedDropped(s) else s);
  }

  /** A new piece comes last, and the oldest one may go. */
  lemma NewPieceWaits(pieces: seq<Piece>, piece: Piece)
    requires Ascending(pieces) && forall p :: p in pieces ==> p.id < piece.id
    ensures Ascending(pieces + [piece]) && (pieces != [] ==> Ascending((pieces + [piece])[1..]))
    ensures forall p :: p in pieces + [piece] ==> p in pieces || p == piece
  {
    assert forall i :: 0 <= i < |pieces| ==> pieces[i] in pieces;
  }

  lemma HearsKeepsOwnership(checks: bool, s: State, text: string)
    requires Ownership(s)
    ensures Ownership(OnHears(checks, s, text))
  {
    NewPieceWaits(s.heardPieces, Piece(s.pieces, text));
  }

  lemma RetractsKeepsOwnership(s: State, misfired: set<string>)
    requires Ownership(s)
    ensures Ownership(OnRetracts(s, misfired))
  {
    WithoutIsPart(s.heardPieces, misfired);
    if !s.Between() {
      WithoutIsPart(s.Current().heard, misfired);
    }
  }

  lemma ResumesKeepsOwnership(s: State, k: nat)
    requires Ownership(s) && k < |s.turns|
    ensures Ownership(OnFallbackResumes(s, k))
  {
    OwnedKeepsOwners(s, k);
  }

  lemma StepKeepsOwnership(checks: bool, s: State, e: Event)
    requires Ownership(s)
    ensures Ownership(Step(checks, s, e))
  {
    if Enabled(s, e) {
      match e
      case Hears(text) => HearsKeepsOwnership(checks, s, text);
      case Retracts(misfired) => RetractsKeepsOwnership(s, misfired);
      case Says(blank, finalCopy, prior, verdict) => SaysKeepsOwnership(checks, s, blank, finalCopy, prior, verdict);
      case Completes => CompletesKeepsOwnership(checks, s);
      case FallbackResumes(k) => ResumesKeepsOwnership(s, k);
      case _ => QuietKeepsOwnership(s, Step(checks, s, e));
    }
  }

  lemma {:induction false} RunKeepsOwnership(checks: bool, s: State, es: seq<Event>)
    requires Ownership(s)
    ensures Ownership(Run(checks, s, es))
    decreases |es|
  {
    if es != [] {
      StepKeepsOwnership(checks, s, es[0]);
      RunKeepsOwnership(checks, Step(checks, s, es[0]), es[1..]);
    }
  }

  /** Nothing the customer said is spoken twice by the fallbacks, however answers, fallbacks that wait for
      late words and retractions interleave. */
  lemma NothingIsSpokenTwice(checks: bool, es: seq<Event>, i: nat, a: nat, j: nat, b: nat)
    requires var spoken := Run(checks, INITIAL, es).spoken;
             i < |spoken| && a < |spoken[i].1| && j < |spoken| && b < |spoken[j].1| && (i != j || a != b)
    ensures var spoken := Run(checks, INITIAL, es).spoken; spoken[i].1[a].id != spoken[j].1[b].id
  {
    RunKeepsOwnership(checks, INITIAL, es);
    OneFallbackPerFailedAnswer(checks, INITIAL, es);
    var s := Run(checks, INITIAL, es);
    assert OwnedBy(s.owner, s.spoken[i].1, s.spoken[i].0) && OwnedBy(s.owner, s.spoken[j].1, s.spoken[j].0);
    assert s.spoken[i].1[a] in s.spoken[i].1 && s.spoken[j].1[b] in s.spoken[j].1;
  }
}
