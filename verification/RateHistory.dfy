/** When the limiter of requests grants one, by the times of the earlier grants alone. */
module RateHistory {
  import opened Limits

  /** The tokens a minute's allowance brings in `ms` milliseconds. */
  function Flow(perMinute: nat, ms: int): real {
    perMinute as real * ms as real / 60000.0
  }

  /** Were `x` more requests granted now, those since each earlier grant, that one included, would still be no more
      than the allowance and what has come in since then. */
  ghost predicate RoomFor(perMinute: nat, grants: seq<int>, now: int, x: real) {
    && x <= perMinute as real
    && forall i :: 0 <= i < |grants| ==>
         x + (|grants| - i) as real <= perMinute as real + Flow(perMinute, now - grants[i])
  }

  /** When requests of the key are granted: whenever there is room for one more. */
  ghost function Grants(perMinute: nat, es: seq<Event>, key: Key): seq<int> {
    if es == [] then [] else
    var before, last := es[..|es| - 1], es[|es| - 1];
    var earlier := Grants(perMinute, before, key);
    if last.Take? && last.key == key && RoomFor(perMinute, earlier, last.now, 1.0) then earlier + [last.now]
    else earlier
  }

  function Run(perMinute: nat, buckets: Buckets, es: seq<Event>): Buckets
    decreases |es|
  {
    if es == [] then buckets else Run(perMinute, Step(perMinute, buckets, es[0]), es[1..])
  }

  /** The level is all there is room for. */
  ghost predicate IsRoom(perMinute: nat, grants: seq<int>, now: int, level: real) {
    forall x: real :: RoomFor(perMinute, grants, now, x) <==> x <= level
  }

  lemma Cancel(rate: real, ms: real)
    ensures rate * 60000.0 * ms / 60000.0 == ms * rate
  {
  }

  lemma FlowIsRefill(perMinute: nat, ms: int)
    ensures Flow(perMinute, ms) == Refill(perMinute, ms)
  {
    var rate := perMinute as real / 60000.0;
    assert perMinute as real == rate * 60000.0;
    Cancel(rate, ms as real);
  }

  lemma RoomLater(perMinute: nat, grants: seq<int>, now: int, later: int, x: real)
    requires now <= later
    ensures RoomFor(perMinute, grants, later, x) <==>
            x <= perMinute as real && RoomFor(perMinute, grants, now, x - Refill(perMinute, later - now))
  {
    RefillIsPositive(perMinute, later - now);
    forall i | 0 <= i < |grants|
      ensures Flow(perMinute, later - grants[i]) == Flow(perMinute, now - grants[i]) + Refill(perMinute, later - now)
    {
      FlowIsRefill(perMinute, later - grants[i]);
      FlowIsRefill(perMinute, now - grants[i]);
      RefillAdds(perMinute, now - grants[i], later - now);
      assert later - grants[i] == (now - grants[i]) + (later - now);
    }
  }

  lemma RoomAfterGrant(perMinute: nat, grants: seq<int>, now: int, x: real)
    ensures RoomFor(perMinute, grants + [now], now, x) <==> RoomFor(perMinute, grants, now, x + 1.0)
  {
    var all := grants + [now];
    FlowIsRefill(perMinute, 0);
    assert forall i :: 0 <= i < |grants| ==> all[i] == grants[i] && |all| - i == |grants| - i + 1;
    assert all[|grants|] == now;
    if RoomFor(perMinute, all, now, x) {
      assert x + 1.0 <= perMinute as real + Flow(perMinute, now - all[|grants|]);
      forall i | 0 <= i < |grants|
        ensures x + 1.0 + (|grants| - i) as real <= perMinute as real + Flow(perMinute, now - grants[i])
      {
        assert x + (|all| - i) as real <= perMinute as real + Flow(perMinute, now - all[i]);
      }
    }
    if RoomFor(perMinute, grants, now, x + 1.0) {
      forall i | 0 <= i < |all|
        ensures x + (|all| - i) as real <= perMinute as real + Flow(perMinute, now - all[i])
      {
        assert i < |grants| ==>
                 x + 1.0 + (|grants| - i) as real <= perMinute as real + Flow(perMinute, now - grants[i]);
      }
    }
  }

  lemma LevelIsRoomLater(perMinute: nat, buckets: Buckets, key: Key, grants: seq<int>, now: int, later: int)
    requires Past(buckets, now) && now <= later
    requires IsRoom(perMinute, grants, now, Level(perMinute, buckets, key, now))
    ensures IsRoom(perMinute, grants, later, Level(perMinute, buckets, key, later))
  {
    LevelLater(perMinute, buckets, key, now, later);
    forall x: real
      ensures RoomFor(perMinute, grants, later, x) <==> x <= Level(perMinute, buckets, key, later)
    {
      RoomLater(perMinute, grants, now, later, x);
    }
  }

  lemma StepKeepsRoom(perMinute: nat, buckets: Buckets, e: Event, key: Key, grants: seq<int>)
    requires Past(buckets, e.now) && IsRoom(perMinute, grants, e.now, Level(perMinute, buckets, key, e.now))
    ensures var granted := e.Take? && e.key == key && RoomFor(perMinute, grants, e.now, 1.0);
            && (e.Take? && e.key == key ==> Taking(perMinute, buckets, key, e.now).1 == granted)
            && IsRoom(perMinute, if granted then grants + [e.now] else grants, e.now,
                      Level(perMinute, Step(perMinute, buckets, e), key, e.now))
  {
    StepSpends(perMinute, buckets, e, key);
    var level := Level(perMinute, buckets, key, e.now);
    assert RoomFor(perMinute, grants, e.now, 1.0) <==> 1.0 <= level;
    if e.Take? && e.key == key && 1.0 <= level {
      forall x: real ensures RoomFor(perMinute, grants + [e.now], e.now, x) <==> x <= level - 1.0 {
        RoomAfterGrant(perMinute, grants, e.now, x);
        assert RoomFor(perMinute, grants, e.now, x + 1.0) <==> x + 1.0 <= level;
      }
    }
  }

  lemma {:induction false} LevelIsRoom(perMinute: nat, buckets: Buckets, past: seq<Event>, es: seq<Event>, key: Key,
                                       clock: int)
    requires Past(buckets, clock) && Forward(clock, es)
    requires IsRoom(perMinute, Grants(perMinute, past, key), clock, Level(perMinute, buckets, key, clock))
    ensures var t := Run(perMinute, buckets, es);
            && Past(t, LastTime(clock, es))
            && IsRoom(perMinute, Grants(perMinute, past + es, key), LastTime(clock, es),
                      Level(perMinute, t, key, LastTime(clock, es)))
    decreases |es|
  {
    if es == [] {
      assert past + es == past;
    } else {
      var e := es[0];
      LevelIsRoomLater(perMinute, buckets, key, Grants(perMinute, past, key), clock, e.now);
      StepKeepsPast(perMinute, buckets, clock, e);
      assert Past(buckets, e.now);
      StepKeepsRoom(perMinute, buckets, e, key, Grants(perMinute, past, key));
      assert (past + [e])[..|past|] == past;
      LevelIsRoom(perMinute, Step(perMinute, buckets, e), past + [e], es[1..], key, e.now);
      assert past + [e] + es[1..] == past + es && LastTime(clock, es) == LastTime(e.now, es[1..]);
    }
  }

  lemma {:induction false} ForwardSplits(clock: int, es: seq<Event>, e: Event)
    requires Forward(clock, es + [e])
    ensures Forward(clock, es) && LastTime(clock, es) <= e.now
    decreases |es|
  {
    if es != [] {
      assert (es + [e])[1..] == es[1..] + [e];
      ForwardSplits(es[0].now, es[1..], e);
    }
  }

  /** A request is granted exactly if there is room for it: not later and not earlier, whatever other keys and
      prunes do meanwhile. */
  lemma GrantedExactly(perMinute: nat, es: seq<Event>, key: Key, now: int, clock: int)
    requires Forward(clock, es + [Take(key, now)])
    ensures Taking(perMinute, Run(perMinute, map[], es), key, now).1 <==>
            RoomFor(perMinute, Grants(perMinute, es, key), now, 1.0)
  {
    ForwardSplits(clock, es, Take(key, now));
    assert [] + es == es;
    LevelIsRoom(perMinute, map[], [], es, key, clock);
    var t := Run(perMinute, map[], es);
    LevelIsRoomLater(perMinute, t, key, Grants(perMinute, es, key), LastTime(clock, es), now);
    assert Past(t, now);
    StepKeepsRoom(perMinute, t, Take(key, now), key, Grants(perMinute, es, key));
  }

  /** A prune drops exactly the buckets that a new one would equal, and leaves the others as they are. */
  lemma PruneDropsExactlyTheFull(perMinute: nat, buckets: Buckets, key: Key, now: int)
    ensures var t := Step(perMinute, buckets, Prune(now));
            && (key in t <==> key in buckets && Level(perMinute, buckets, key, now) < perMinute as real)
            && (key in t ==> t[key] == buckets[key])
  {
  }
}
