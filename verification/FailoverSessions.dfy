/** The Nova Sonic sessions that start in the background of a side on the backup, over whole runs of its
    controller: none leaks.
 */
module FailoverSessions {
  import opened Failover

  /** A background session that did start is either let in or stopped, and the generation alone decides
      which: the checks of the state and the hold beside it never change the outcome. */
  lemma StartedAnswerEndsOneWay(max: nat, es: seq<Event>, id: nat, now: int)
    requires id in Run(max, INITIAL, es).outstanding
    ensures var s := Run(max, INITIAL, es);
            var t := Step(max, s, Answers(id, Started, now));
            && (s.IsCurrent(id) ==> t == BeginningReturn(Called(Settled(s, id), NovaHealthy), now))
            && (!s.IsCurrent(id) ==> t == Called(Settled(s, id), AbandonNova))
  {
    ReachedKeepsInv(max, es);
  }

  function Count(calls: seq<Call>, c: Call): nat {
    multiset(calls)[c]
  }

  ghost predicate ExtendsWithout(calls: seq<Call>, more: seq<Call>) {
    calls <= more && forall i :: |calls| <= i < |more| ==> !more[i].AbandonNova?
  }

  lemma CountNoMore(calls: seq<Call>, more: seq<Call>)
    requires ExtendsWithout(calls, more)
    ensures Count(more, AbandonNova) == Count(calls, AbandonNova)
  {
    var rest := more[|calls|..];
    assert more == calls + rest;
    assert AbandonNova !in multiset(rest);
  }

  /** A background session reports that it runs: an attempt's answer, or a restart outside the controller. */
  predicate ReportsSession(s: State, e: Event) {
    match e
    case Answers(id, outcome, _) => id in s.outstanding && outcome.Started?
    case SessionStarts(_) => s.side.Backup?
    case _ => false
  }

  function SessionsReported(max: nat, s: State, es: seq<Event>): nat
    decreases |es|
  {
    if es == [] then 0
    else (if ReportsSession(s, es[0]) then 1 else 0) + SessionsReported(max, Step(max, s, es[0]), es[1..])
  }

  function Entered(s: State, t: State): nat {
    if !s.side.Returning? && t.side.Returning? then 1 else 0
  }

  function ReturnsEntered(max: nat, s: State, es: seq<Event>): nat
    decreases |es|
  {
    if es == [] then 0
    else
      var t := Step(max, s, es[0]);
      Entered(s, t) + ReturnsEntered(max, t, es[1..])
  }

  predicate StopsSession(s: State, e: Event) {
    match e
    case Answers(id, outcome, _) => id in s.outstanding && outcome.Started? && !s.IsCurrent(id)
    case SessionStarts(_) => s.side.Backup? && s.Held()
    case _ => false
  }

  lemma AnswerCalls(max: nat, s: State, id: nat, outcome: Outcome, now: int)
    requires Inv(max, s) && id in s.outstanding
    ensures var t := OnAnswers(max, s, id, outcome, now);
            if outcome.Started? && !s.IsCurrent(id) then t.calls == s.calls + [AbandonNova] && Entered(s, t) == 0
            else ExtendsWithout(s.calls, t.calls) && Entered(s, t) == (if outcome.Started? then 1 else 0)
  {
    assert s.side.Returning? ==> !s.IsCurrent(id);
  }

  lemma OtherStepsCall(max: nat, s: State, e: Event)
    requires Shape(max, s) && !e.Answers?
    ensures var t := Step(max, s, e);
            if StopsSession(s, e) then t.calls == s.calls + [AbandonNova] && Entered(s, t) == 0
            else ExtendsWithout(s.calls, t.calls) && Entered(s, t) == (if ReportsSession(s, e) then 1 else 0)
  {
  }

  lemma StepAccountsForSessions(max: nat, s: State, e: Event)
    requires Inv(max, s)
    ensures var t := Step(max, s, e);
            Count(t.calls, AbandonNova) + Entered(s, t)
            == Count(s.calls, AbandonNova) + (if ReportsSession(s, e) then 1 else 0)
  {
    if !e.Answers? {
      OtherStepsCall(max, s, e);
    } else if e.id in s.outstanding {
      AnswerCalls(max, s, e.id, e.outcome, e.now);
    }
    if !StopsSession(s, e) {
      CountNoMore(s.calls, Step(max, s, e).calls);
    }
  }

  /** Over every run, each background session reported running is either let in (the side enters Returning)
      or stopped (abandonNova): none is forgotten and none is stopped twice. */
  lemma {:induction false} NoSessionLeaks(max: nat, s: State, es: seq<Event>)
    requires Inv(max, s)
    ensures Count(Run(max, s, es).calls, AbandonNova) + ReturnsEntered(max, s, es)
            == Count(s.calls, AbandonNova) + SessionsReported(max, s, es)
    decreases |es|
  {
    if es != [] {
      StepAccountsForSessions(max, s, es[0]);
      StepKeepsInv(max, s, es[0]);
      NoSessionLeaks(max, Step(max, s, es[0]), es[1..]);
    }
  }
}
