/** The order in which the customer session hands Nova Sonic's audio to the player. Each released hold is a
    loop of its own that waits for the player between its chunks; a chunk that plays on arrival waits for
    nothing. Chunks are numbered as they arrive.
 */
module CustomerPlayback {

  /** The chunks of one hold, of which the first `next` have been handed over. */
  datatype Release = Release(chunks: seq<nat>, next: nat)

  /** The release loops, and all chunks handed over so far. */
  datatype Playback = Playback(releases: seq<Release>, played: seq<nat>)

  function PlayedNow(p: Playback, c: nat): Playback {
    p.(played := p.played + [c])
  }

  /** A loop hands over its first chunk at once; without chunks there is no loop. */
  function Begun(p: Playback, held: seq<nat>): Playback {
    if held == [] then p else Playback(p.releases + [Release(held, 1)], p.played + [held[0]])
  }

  predicate CanContinue(p: Playback, r: nat) {
    r < |p.releases| && p.releases[r].next < |p.releases[r].chunks|
  }

  function Continued(p: Playback, r: nat): Playback
    requires CanContinue(p, r)
  {
    var release := p.releases[r];
    Playback(p.releases[r := release.(next := release.next + 1)], p.played + [release.chunks[release.next]])
  }

  // ---- What is handed over ----------------------------------------------------------------------------

  ghost predicate Ascends(chunks: seq<nat>) {
    forall i, j :: 0 <= i < j < |chunks| ==> chunks[i] < chunks[j]
  }

  ghost predicate AllBefore(chunks: seq<nat>, limit: nat) {
    forall c :: c in chunks ==> c < limit
  }

  /** Of the chunks handed over, those of one hold, in order. */
  function Of(played: seq<nat>, chunks: seq<nat>): seq<nat> {
    if played == [] then [] else
    var last := played[|played| - 1];
    Of(played[..|played| - 1], chunks) + (if last in chunks then [last] else [])
  }

  lemma OfAppended(played: seq<nat>, chunks: seq<nat>, c: nat)
    ensures Of(played + [c], chunks) == Of(played, chunks) + (if c in chunks then [c] else [])
  {
    assert (played + [c])[..|played|] == played;
  }

  lemma {:induction false} OfHasAll(played: seq<nat>, chunks: seq<nat>, c: nat)
    ensures c in Of(played, chunks) <==> c in played && c in chunks
  {
    if played != [] {
      OfHasAll(played[..|played| - 1], chunks, c);
      assert played == played[..|played| - 1] + [played[|played| - 1]];
    }
  }

  /** The loop has handed over its first chunks, in order, and nothing else of its hold was handed over. */
  ghost predicate InTurn(played: seq<nat>, release: Release) {
    && 0 < release.next <= |release.chunks| && Ascends(release.chunks)
    && Of(played, release.chunks) == release.chunks[..release.next]
  }

  ghost predicate AllInTurn(p: Playback) {
    forall r :: 0 <= r < |p.releases| ==> InTurn(p.played, p.releases[r])
  }

  /** A hold is over before the next one begins, so its chunks came earlier than those of all later ones. */
  ghost predicate Apart(p: Playback, held: seq<nat>, arrived: nat) {
    && (forall r, q, c, d ::
          0 <= r < q < |p.releases| && c in p.releases[r].chunks && d in p.releases[q].chunks ==> c < d)
    && (forall r, c, d :: 0 <= r < |p.releases| && c in p.releases[r].chunks && d in held ==> c < d)
    && (forall r :: 0 <= r < |p.releases| ==> AllBefore(p.releases[r].chunks, arrived))
  }

  ghost predicate NoRepeats(played: seq<nat>) {
    forall i, j :: 0 <= i < j < |played| ==> played[i] != played[j]
  }

  /** What holds of the playback, with `held` on hold and `arrived` chunks arrived. */
  ghost predicate Fits(p: Playback, held: seq<nat>, arrived: nat) {
    && Ascends(held) && AllBefore(held, arrived) && AllBefore(p.played, arrived)
    && NoRepeats(p.played) && (forall c :: c in held ==> c !in p.played)
    && AllInTurn(p) && Apart(p, held, arrived)
  }

  /** The chunk was handed over or is a loop's to hand over. */
  ghost predicate Heard(p: Playback, c: nat) {
    c in p.played || exists r :: 0 <= r < |p.releases| && c in p.releases[r].chunks
  }

  /** A new chunk is part of nothing yet. */
  lemma ArrivalFits(p: Playback, held: seq<nat>, arrived: nat)
    requires Fits(p, held, arrived)
    ensures Fits(p, held, arrived + 1)
    ensures Fits(p, held + [arrived], arrived + 1)
  {
    assert forall c :: c in held + [arrived] ==> c in held || c == arrived;
    assert forall i :: 0 <= i < |held| ==> held[i] in held;
  }

  lemma PlayedNowFits(p: Playback, held: seq<nat>, arrived: nat)
    requires Fits(p, held, arrived)
    ensures Fits(PlayedNow(p, arrived), held, arrived + 1)
    ensures forall c: nat :: Heard(PlayedNow(p, arrived), c) <==> Heard(p, c) || c == arrived
  {
    var q := PlayedNow(p, arrived);
    assert forall i :: 0 <= i < |p.played| ==> p.played[i] in p.played;
    forall r | 0 <= r < |q.releases| ensures InTurn(q.played, q.releases[r]) {
      assert InTurn(p.played, p.releases[r]);
      OfAppended(p.played, p.releases[r].chunks, arrived);
    }
  }

  lemma DropFits(p: Playback, held: seq<nat>, arrived: nat)
    requires Fits(p, held, arrived)
    ensures Fits(p, [], arrived)
  {
  }

  lemma {:induction false} OfNone(played: seq<nat>, chunks: seq<nat>)
    requires forall c :: c in chunks ==> c !in played
    ensures Of(played, chunks) == []
  {
    if played != [] {
      OfNone(played[..|played| - 1], chunks);
    }
  }

  lemma BegunInTurn(p: Playback, held: seq<nat>, arrived: nat)
    requires Fits(p, held, arrived) && held != []
    ensures AllInTurn(Begun(p, held))
  {
    var q := Begun(p, held);
    forall r | 0 <= r < |q.releases| ensures InTurn(q.played, q.releases[r]) {
      OfAppended(p.played, q.releases[r].chunks, held[0]);
      if r < |p.releases| {
        assert InTurn(p.played, p.releases[r]);
        assert held[0] in held && held[0] !in p.releases[r].chunks;
      } else {
        OfNone(p.played, held);
      }
    }
  }

  lemma BegunFits(p: Playback, held: seq<nat>, arrived: nat)
    requires Fits(p, held, arrived)
    ensures Fits(Begun(p, held), [], arrived)
    ensures forall c: nat :: Heard(Begun(p, held), c) <==> Heard(p, c) || c in held
  {
    if held != [] {
      var q := Begun(p, held);
      BegunInTurn(p, held, arrived);
      assert forall i :: 0 <= i < |p.played| ==> p.played[i] in p.played;
      forall c: nat ensures Heard(q, c) <==> Heard(p, c) || c in held {
        assert q.releases[|p.releases|].chunks == held;
        assert forall r :: 0 <= r < |p.releases| ==> q.releases[r] == p.releases[r];
      }
    }
  }

  /** The next chunk of a loop has not been handed over and belongs to no other loop. */
  lemma NextIsNew(p: Playback, held: seq<nat>, arrived: nat, r: nat)
    requires Fits(p, held, arrived) && CanContinue(p, r)
    ensures var c := p.releases[r].chunks[p.releases[r].next];
            && c !in p.played && c !in held && c < arrived
            && forall q :: 0 <= q < |p.releases| && q != r ==> c !in p.releases[q].chunks
  {
    var release := p.releases[r];
    var c := release.chunks[release.next];
    assert InTurn(p.played, release) && c in release.chunks;
    OfHasAll(p.played, release.chunks, c);
    assert c !in release.chunks[..release.next];
  }

  lemma ContinuedInTurn(p: Playback, held: seq<nat>, arrived: nat, r: nat)
    requires Fits(p, held, arrived) && CanContinue(p, r)
    ensures AllInTurn(Continued(p, r))
  {
    var q := Continued(p, r);
    var c := p.releases[r].chunks[p.releases[r].next];
    NextIsNew(p, held, arrived, r);
    forall i | 0 <= i < |q.releases| ensures InTurn(q.played, q.releases[i]) {
      assert InTurn(p.played, p.releases[i]);
      OfAppended(p.played, p.releases[i].chunks, c);
      assert c in p.releases[r].chunks;
    }
  }

  /** A loop that goes on stays what it is in the eyes of everything else. */
  lemma ContinuedApart(p: Playback, held: seq<nat>, arrived: nat, r: nat)
    requires Apart(p, held, arrived) && CanContinue(p, r)
    ensures Apart(Continued(p, r), held, arrived)
    ensures forall c: nat :: Heard(Continued(p, r), c) <==> Heard(p, c)
  {
    var q := Continued(p, r);
    var c := p.releases[r].chunks[p.releases[r].next];
    assert c in p.releases[r].chunks;
    assert forall i :: 0 <= i < |q.releases| ==> q.releases[i].chunks == p.releases[i].chunks;
  }

  lemma ContinuedFits(p: Playback, held: seq<nat>, arrived: nat, r: nat)
    requires Fits(p, held, arrived) && CanContinue(p, r)
    ensures Fits(Continued(p, r), held, arrived)
    ensures forall c: nat :: Heard(Continued(p, r), c) <==> Heard(p, c)
  {
    NextIsNew(p, held, arrived, r);
    ContinuedInTurn(p, held, arrived, r);
    ContinuedApart(p, held, arrived, r);
    assert forall i :: 0 <= i < |p.played| ==> p.played[i] in p.played;
  }

  // ---- Overtaking -------------------------------------------------------------------------------------

  /** The chunk is on hold, or a loop has yet to hand it over. */
  ghost predicate Behind(p: Playback, held: seq<nat>, c: nat) {
    c in held || exists r: nat :: CanContinue(p, r) && c in p.releases[r].chunks[p.releases[r].next..]
  }

  /** Everything was handed over in the order of arrival, and nothing behind has been overtaken. */
  ghost predicate InStep(p: Playback, held: seq<nat>) {
    Ascends(p.played) && forall c: nat, d: nat :: c in p.played && Behind(p, held, d) ==> c < d
  }

  /** A loop has chunks left. */
  ghost predicate Backlog(p: Playback) {
    exists r: nat :: CanContinue(p, r)
  }

  lemma BehindIsKnown(p: Playback, held: seq<nat>, arrived: nat, c: nat)
    requires Fits(p, held, arrived) && Behind(p, held, c)
    ensures c < arrived
  {
    if c !in held {
      var r: nat :| CanContinue(p, r) && c in p.releases[r].chunks[p.releases[r].next..];
      assert c in p.releases[r].chunks;
    }
  }

  lemma NewOneInStep(p: Playback, held: seq<nat>, arrived: nat)
    requires Fits(p, held, arrived) && InStep(p, held)
    ensures InStep(p, held + [arrived])
  {
    forall c: nat, d: nat | c in p.played && Behind(p, held + [arrived], d) ensures c < d {
      assert d == arrived || Behind(p, held, d);
    }
  }

  /** A chunk that plays on arrival overtakes whatever is behind. */
  lemma PlayedNowInStepExactly(p: Playback, held: seq<nat>, arrived: nat)
    requires Fits(p, held, arrived) && InStep(p, held)
    ensures InStep(PlayedNow(p, arrived), held) <==> held == [] && !Backlog(p)
  {
    var q := PlayedNow(p, arrived);
    assert forall i :: 0 <= i < |p.played| ==> p.played[i] in p.played;
    assert arrived in q.played;
    forall d: nat ensures Behind(q, held, d) <==> Behind(p, held, d) {
      assert forall r: nat :: CanContinue(q, r) == CanContinue(p, r);
    }
    if held != [] {
      assert Behind(q, held, held[0]);
      BehindIsKnown(p, held, arrived, held[0]);
    } else if Backlog(p) {
      var r: nat :| CanContinue(p, r);
      var d := p.releases[r].chunks[p.releases[r].next];
      assert d == p.releases[r].chunks[p.releases[r].next..][0];
      assert Behind(p, held, d) && Behind(q, held, d);
      BehindIsKnown(p, held, arrived, d);
    }
  }

  lemma DropInStep(p: Playback, held: seq<nat>)
    requires InStep(p, held)
    ensures InStep(p, [])
  {
    forall c: nat, d: nat | c in p.played && Behind(p, [], d) ensures c < d {
      assert Behind(p, held, d);
    }
  }

  /** What is behind once a hold is released: its other chunks, and what the other loops have left. */
  lemma BehindOnceBegun(p: Playback, held: seq<nat>, d: nat)
    requires held != []
    ensures Behind(Begun(p, held), [], d) <==> d in held[1..] || Behind(p, [], d)
  {
    var q := Begun(p, held);
    var n := |p.releases|;
    assert forall r :: 0 <= r < n ==> q.releases[r] == p.releases[r];
    assert q.releases[n] == Release(held, 1);
    if d in held[1..] {
      assert CanContinue(q, n) && d in q.releases[n].chunks[q.releases[n].next..];
    }
    if Behind(p, [], d) {
      var r: nat :| CanContinue(p, r) && d in p.releases[r].chunks[p.releases[r].next..];
      assert CanContinue(q, r);
    }
    if Behind(q, [], d) {
      var r: nat :| CanContinue(q, r) && d in q.releases[r].chunks[q.releases[r].next..];
      assert r < n ==> CanContinue(p, r);
    }
  }

  lemma BegunOvertakes(p: Playback, held: seq<nat>, arrived: nat)
    requires Fits(p, held, arrived) && held != [] && Backlog(p)
    ensures !InStep(Begun(p, held), [])
  {
    var q := Begun(p, held);
    var r: nat :| CanContinue(p, r);
    var d := p.releases[r].chunks[p.releases[r].next];
    assert d == p.releases[r].chunks[p.releases[r].next..][0];
    assert Behind(p, [], d);
    BehindOnceBegun(p, held, d);
    assert d in p.releases[r].chunks && held[0] in held && held[0] in q.played;
  }

  /** Releasing a hold overtakes what another loop has left, and nothing else. */
  lemma BegunInStepExactly(p: Playback, held: seq<nat>, arrived: nat)
    requires Fits(p, held, arrived) && InStep(p, held)
    ensures InStep(Begun(p, held), []) <==> held == [] || !Backlog(p)
  {
    if held == [] {
      DropInStep(p, held);
    } else if Backlog(p) {
      BegunOvertakes(p, held, arrived);
    } else {
      var q := Begun(p, held);
      assert forall i :: 0 <= i < |p.played| ==> p.played[i] in p.played;
      assert held[0] in held && Behind(p, held, held[0]);
      forall c: nat, d: nat | c in q.played && Behind(q, [], d) ensures c < d {
        BehindOnceBegun(p, held, d);
        assert d in held[1..];
        var i :| 0 <= i < |held[1..]| && held[1..][i] == d;
        assert held[0] < held[i + 1] == d && d in held;
        assert Behind(p, held, d);
      }
    }
  }

  /** What a loop has left once it has handed over one more chunk. */
  lemma LeftAfter(chunks: seq<nat>, next: nat, d: nat)
    requires next < |chunks| && d in chunks[next + 1..]
    ensures d in chunks[next..]
    ensures Ascends(chunks) ==> chunks[next] < d
  {
    var i :| 0 <= i < |chunks[next + 1..]| && chunks[next + 1..][i] == d;
    assert d == chunks[next + 1 + i] == chunks[next..][i + 1];
  }

  lemma OtherLoopIsLater(p: Playback, held: seq<nat>, arrived: nat, r: nat, i: nat, d: nat)
    requires Fits(p, held, arrived) && InStep(p, held) && CanContinue(p, r) && CanContinue(p, i) && i != r
    requires d in p.releases[i].chunks && Behind(p, held, d)
    ensures p.releases[r].chunks[p.releases[r].next] < d
  {
    var c := p.releases[r].chunks[p.releases[r].next];
    assert c in p.releases[r].chunks;
    var first := p.releases[r].chunks[0];
    assert InTurn(p.played, p.releases[r]);
    assert first == p.releases[r].chunks[..p.releases[r].next][0];
    OfHasAll(p.played, p.releases[r].chunks, first);
    assert first in p.played && first in p.releases[r].chunks && first < d;
  }

  /** While nothing has been overtaken only the last loop has chunks left, so going on overtakes nothing. */
  lemma ContinuedInStep(p: Playback, held: seq<nat>, arrived: nat, r: nat)
    requires Fits(p, held, arrived) && InStep(p, held) && CanContinue(p, r)
    ensures InStep(Continued(p, r), held)
  {
    var q := Continued(p, r);
    var next := p.releases[r].next;
    var c := p.releases[r].chunks[next];
    assert c == p.releases[r].chunks[next..][0];
    assert Behind(p, held, c) && c in p.releases[r].chunks;
    assert forall i :: 0 <= i < |p.played| ==> p.played[i] in p.played;
    forall d: nat | Behind(q, held, d) ensures Behind(p, held, d) && c < d {
      if d !in held {
        var i: nat :| CanContinue(q, i) && d in q.releases[i].chunks[q.releases[i].next..];
        if i == r {
          assert InTurn(p.played, p.releases[r]);
          LeftAfter(p.releases[r].chunks, next, d);
        } else {
          assert q.releases[i] == p.releases[i] && CanContinue(p, i) && d in p.releases[i].chunks;
          assert Behind(p, held, d);
          OtherLoopIsLater(p, held, arrived, r, i, d);
        }
      }
    }
  }
}
