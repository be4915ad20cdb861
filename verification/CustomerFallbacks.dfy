/** The fallbacks of a customer session, over whole runs: one for each answer that fails, and for no other. */
module CustomerFallbacks {
  import opened Wrappers
  import opened CustomerTurns

  /** A turn's fallback is asked for exactly when the turn fails, and asked for and spoken at most once. */
  ghost predicate FallbacksMatch(s: State) {
    && (forall k :: 0 <= k < |s.turns| ==> (s.turns[k].failed <==> !s.turns[k].fallback.NotAsked?))
    && (forall k :: 0 <= k < |s.turns| ==> (s.turns[k].failed <==> k in s.requests))
    && (forall k :: k in s.requests ==> k < |s.turns|)
    && (forall i, j :: 0 <= i < j < |s.requests| ==> s.requests[i] != s.requests[j])
    && (forall i :: 0 <= i < |s.spoken| ==> s.spoken[i].0 in s.requests && s.spoken[i].1 != [])
    && (forall i :: 0 <= i < |s.spoken| ==> !s.turns[s.spoken[i].0].fallback.WaitsForWords?)
    && (forall i, j :: 0 <= i < j < |s.spoken| ==> s.spoken[i].0 != s.spoken[j].0)
  }

  lemma AskingKeepsMatch(s: State, k: nat)
    requires k < |s.turns| && s.turns[k].failed && s.turns[k].fallback.NotAsked?
    requires FallbacksMatch(s.(turns := s.turns[k := s.turns[k].(failed := false)]))
    ensures FallbacksMatch(FallbackAsked(s, k))
  {
    var was := s.(turns := s.turns[k := s.turns[k].(failed := false)]);
    var t := FallbackAsked(s, k);
    assert k !in s.requests by {
      assert !was.turns[k].failed;
    }
    forall j | 0 <= j < |t.turns|
      ensures (t.turns[j].failed <==> !t.turns[j].fallback.NotAsked?) && (t.turns[j].failed <==> j in t.requests)
    {
      assert j != k ==> t.turns[j] == was.turns[j];
    }
  }

  lemma FailedTurnKeepsMatch(s: State)
    requires FallbacksMatch(s) && s.HasTurn() && !s.Current().failed
    ensures FallbacksMatch(FailedTurn(s))
  {
    var k := |s.turns| - 1;
    var u := WithTurn(s, k, s.Current().(failed := true));
    assert u.turns[k := u.turns[k].(failed := false)] == s.turns;
    AskingKeepsMatch(u, k);
  }

  /** Changes that leave every turn's failure and fallback alone, and turns that have not failed. */
  lemma QuietKeepsMatch(s: State, t: State)
    requires FallbacksMatch(s) && t.requests == s.requests && t.spoken == s.spoken && |t.turns| >= |s.turns|
    requires forall k :: 0 <= k < |s.turns| ==>
               t.turns[k].failed == s.turns[k].failed && t.turns[k].fallback == s.turns[k].fallback
    requires forall k :: |s.turns| <= k < |t.turns| ==> !t.turns[k].failed && t.turns[k].fallback.NotAsked?
    ensures FallbacksMatch(t)
  {
  }

  lemma JudgedKeepsMatch(t: State, verdict: Verdict)
    requires FallbacksMatch(t) && t.HasTurn()
    ensures FallbacksMatch(Judged(t, verdict))
  {
    if !t.Current().failed {
      if verdict.Ok? {
        QuietKeepsMatch(t, Judged(t, verdict));
      } else {
        QuietKeepsMatch(t, HoldEnded(t, Discarded));
        FailedTurnKeepsMatch(HoldEnded(t, Discarded));
      }
    }
  }

  lemma AnsweringKeepsMatch(s: State)
    requires FallbacksMatch(s)
    ensures FallbacksMatch(Answering(s)) && Answering(s).HasTurn()
  {
    QuietKeepsMatch(s, Answering(s));
  }

  lemma SaysKeepsMatch(checks: bool, s: State, blank: bool, finalCopy: bool, prior: Option<bool>, verdict: Verdict)
    requires FallbacksMatch(s)
    ensures FallbacksMatch(OnSays(checks, s, blank, finalCopy, prior, verdict))
  {
    AnsweringKeepsMatch(s);
    JudgedKeepsMatch(Answering(s), verdict);
  }

  lemma UncheckedKeepsMatch(s: State)
    requires FallbacksMatch(s)
    ensures FallbacksMatch(UncheckedDropped(s))
  {
    var t := HoldEnded(s, Discarded);
    var u := if s.Between() then Opened(t) else t;
    QuietKeepsMatch(s, u);
    if !u.Current().failed {
      FailedTurnKeepsMatch(u);
    }
  }

  lemma EndedKeepsMatch(s: State)
    requires FallbacksMatch(s)
    ensures FallbacksMatch(Ended(s))
  {
    QuietKeepsMatch(s, Ended(s));
  }

  lemma CompletesKeepsMatch(checks: bool, s: State)
    requires FallbacksMatch(s)
    ensures FallbacksMatch(OnCompletes(checks, s))
  {
    if checks && s.pendingAudio != [] {
      UncheckedKeepsMatch(s);
      EndedKeepsMatch(UncheckedDropped(s));
    } else {
      EndedKeepsMatch(s);
    }
  }

  lemma ResumesKeepsMatch(s: State, k: nat)
    requires FallbacksMatch(s) && Enabled(s, FallbackResumes(k))
    ensures FallbacksMatch(OnFallbackResumes(s, k))
  {
    var t := OnFallbackResumes(s, k);
    assert s.turns[k].failed && k in s.requests;
    assert forall i :: 0 <= i < |s.spoken| ==> s.spoken[i].0 != k;
    forall j | 0 <= j < |t.turns|
      ensures (t.turns[j].failed <==> !t.turns[j].fallback.NotAsked?) && (t.turns[j].failed <==> j in t.requests)
    {
      assert j != k ==> t.turns[j] == s.turns[j];
    }
  }

  lemma SpokenKeepsMatch(s: State, k: nat)
    requires FallbacksMatch(s) && Enabled(s, FallbackSpoken(k))
    ensures FallbacksMatch(WithTurn(s, k, s.turns[k].(fallback := Finished)))
  {
    var t := WithTurn(s, k, s.turns[k].(fallback := Finished));
    forall j | 0 <= j < |t.turns|
      ensures (t.turns[j].failed <==> !t.turns[j].fallback.NotAsked?) && (t.turns[j].failed <==> j in t.requests)
    {
      assert j != k ==> t.turns[j] == s.turns[j];
    }
  }

  lemma StepKeepsMatch(checks: bool, s: State, e: Event)
    requires FallbacksMatch(s)
    ensures FallbacksMatch(Step(checks, s, e))
  {
    if Enabled(s, e) {
      match e
      case Says(blank, finalCopy, prior, verdict) => SaysKeepsMatch(checks, s, blank, finalCopy, prior, verdict);
      case Completes => CompletesKeepsMatch(checks, s);
      case FallbackResumes(k) => ResumesKeepsMatch(s, k);
      case FallbackSpoken(k) => SpokenKeepsMatch(s, k);
      case _ => QuietKeepsMatch(s, Step(checks, s, e));
    }
  }

  /** Over every run each failed answer asks for exactly one fallback and no other answer asks for one, and
      each fallback is spoken at most once. */
  lemma {:induction false} OneFallbackPerFailedAnswer(checks: bool, s: State, es: seq<Event>)
    requires FallbacksMatch(s)
    ensures FallbacksMatch(Run(checks, s, es))
    decreases |es|
  {
    if es != [] {
      StepKeepsMatch(checks, s, es[0]);
      OneFallbackPerFailedAnswer(checks, Step(checks, s, es[0]), es[1..]);
    }
  }
}
