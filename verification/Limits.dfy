/** The proxy task's limits: open connections in total and for each user, and requests a minute for each key. */
module Limits {

  // ---- Connections ------------------------------------------------------------------------------------

  type User = string

  /** Connections in all and for each user; a user without any is not in the map. */
  datatype Slots = Slots(total: int, perUser: map<User, int>)
  {
    function Of(user: User): int {
      if user in perUser then perUser[user] else 0
    }
  }

  function ConnectionReleased(s: Slots): Slots {
    s.(total := if s.total - 1 < 0 then 0 else s.total - 1)
  }

  function UserAcquired(s: Slots, user: User): Slots {
    s.(perUser := s.perUser[user := s.Of(user) + 1])
  }

  function UserReleased(s: Slots, user: User): Slots {
    var count := s.Of(user) - 1;
    s.(perUser := if count > 0 then s.perUser[user := count] else s.perUser - {user})
  }

  class ConnectionLimiter {
    const maxTotal: int
    const maxPerUser: int
    var total: int
    var perUser: map<User, int>

    ghost function View(): Slots
      reads this
    {
      Slots(total, perUser)
    }

    constructor (maxTotal: int, maxPerUser: int)
      ensures View() == Slots(0, map[]) && this.maxTotal == maxTotal && this.maxPerUser == maxPerUser
    {
      this.maxTotal, this.maxPerUser := maxTotal, maxPerUser;
      total, perUser := 0, map[];
    }

    method TryAcquireConnection() returns (ok: bool)
      modifies this
      ensures ok <==> old(total) < maxTotal
      ensures View() == (if ok then old(View()).(total := old(total) + 1) else old(View()))
    {
      if total >= maxTotal {
        return false;
      }
      total := total + 1;
      return true;
    }

    method ReleaseConnection()
      modifies this
      ensures View() == ConnectionReleased(old(View()))
    {
      total := if total - 1 < 0 then 0 else total - 1;
    }

    method TryAcquireUser(user: User) returns (ok: bool)
      modifies this
      ensures ok <==> old(View()).Of(user) < maxPerUser
      ensures View() == (if ok then UserAcquired(old(View()), user) else old(View()))
    {
      var count := if user in perUser then perUser[user] else 0;
      if count >= maxPerUser {
        return false;
      }
      perUser := perUser[user := count + 1];
      return true;
    }

    method ReleaseUser(user: User)
      modifies this
      ensures View() == UserReleased(old(View()), user)
    {
      var count := (if user in perUser then perUser[user] else 0) - 1;
      if count > 0 {
        perUser := perUser[user := count];
      } else {
        perUser := perUser - {user};
      }
    }
  }

  // ---- Requests a minute: what each call does ---------------------------------------------------------

  type Key = string

  /** Tokens as of `updatedAt`, a time in milliseconds. */
  datatype Bucket = Bucket(tokens: real, updatedAt: int)

  type Buckets = map<Key, Bucket>

  /** The tokens `ms` milliseconds bring. */
  function Refill(perMinute: nat, ms: int): real {
    ms as real * (perMinute as real / 60000.0)
  }

  function Least(a: real, b: real): real {
    if a < b then a else b
  }

  /** A key's tokens at a time no earlier than its bucket's. A key without a bucket has a full one. */
  function Level(perMinute: nat, buckets: Buckets, key: Key, now: int): real {
    if key in buckets then
      Least(perMinute as real, buckets[key].tokens + Refill(perMinute, now - buckets[key].updatedAt))
    else perMinute as real
  }

  function Taking(perMinute: nat, buckets: Buckets, key: Key, now: int): (Buckets, bool) {
    var level := Level(perMinute, buckets, key, now);
    (buckets[key := Bucket(if level < 1.0 then level else level - 1.0, now)], level >= 1.0)
  }

  predicate IsFull(perMinute: nat, bucket: Bucket, now: int) {
    bucket.tokens + Refill(perMinute, now - bucket.updatedAt) >= perMinute as real
  }

  function Pruned(perMinute: nat, buckets: Buckets, now: int): Buckets {
    map key | key in buckets && !IsFull(perMinute, buckets[key], now) :: buckets[key]
  }

  datatype Event = Take(key: Key, now: int) | Prune(now: int)

  function Step(perMinute: nat, buckets: Buckets, e: Event): Buckets {
    match e
    case Take(key, now) => Taking(perMinute, buckets, key, now).0
    case Prune(now) => Pruned(perMinute, buckets, now)
  }

  /** The answers of the takes, in order. */
  function Answers(perMinute: nat, buckets: Buckets, es: seq<Event>): seq<bool>
    decreases |es|
  {
    if es == [] then []
    else
      var rest := Answers(perMinute, Step(perMinute, buckets, es[0]), es[1..]);
      if es[0].Take? then [Taking(perMinute, buckets, es[0].key, es[0].now).1] + rest else rest
  }

  function TakesOnly(es: seq<Event>): seq<Event> {
    if es == [] then [] else (if es[0].Take? then [es[0]] else []) + TakesOnly(es[1..])
  }

  /** The clock never goes back, and is no earlier than `clock` at the start. */
  predicate Forward(clock: int, es: seq<Event>)
    decreases |es|
  {
    es == [] || (clock <= es[0].now && Forward(es[0].now, es[1..]))
  }

  ghost predicate Past(buckets: Buckets, clock: int) {
    forall key :: key in buckets ==> buckets[key].updatedAt <= clock && buckets[key].tokens >= 0.0
  }

  // ---- Time passing -----------------------------------------------------------------------------------

  lemma Distribute(a: real, b: real, c: real)
    ensures (a + b) * c == a * c + b * c
  {
  }

  lemma RefillAdds(perMinute: nat, a: int, b: int)
    ensures Refill(perMinute, a + b) == Refill(perMinute, a) + Refill(perMinute, b)
  {
    var rate := perMinute as real / 60000.0;
    assert (a + b) as real == a as real + b as real;
    Distribute(a as real, b as real, rate);
  }

  lemma NonNegative(a: real, b: real)
    requires a >= 0.0 && b >= 0.0
    ensures a * b >= 0.0
  {
  }

  lemma RefillIsPositive(perMinute: nat, ms: int)
    requires ms >= 0
    ensures Refill(perMinute, ms) >= 0.0
  {
    var rate := perMinute as real / 60000.0;
    assert rate >= 0.0;
    NonNegative(ms as real, rate);
  }

  /** What a bucket will hold later depends on what it holds now and on nothing else. */
  lemma LevelLater(perMinute: nat, buckets: Buckets, key: Key, now: int, later: int)
    requires Past(buckets, now) && now <= later
    ensures Level(perMinute, buckets, key, later)
         == Least(perMinute as real, Level(perMinute, buckets, key, now) + Refill(perMinute, later - now))
    ensures Level(perMinute, buckets, key, now) >= 0.0
  {
    RefillIsPositive(perMinute, later - now);
    if key in buckets {
      var b := buckets[key];
      RefillAdds(perMinute, now - b.updatedAt, later - now);
      RefillIsPositive(perMinute, now - b.updatedAt);
      assert later - b.updatedAt == (now - b.updatedAt) + (later - now);
    }
  }

  // ---- Pruning does not show --------------------------------------------------------------------------

  ghost predicate SameLevels(perMinute: nat, a: Buckets, b: Buckets, now: int) {
    Past(a, now) && Past(b, now) && forall key :: Level(perMinute, a, key, now) == Level(perMinute, b, key, now)
  }

  lemma SameLevelsLater(perMinute: nat, a: Buckets, b: Buckets, now: int, later: int)
    requires SameLevels(perMinute, a, b, now) && now <= later
    ensures SameLevels(perMinute, a, b, later)
  {
    forall key ensures Level(perMinute, a, key, later) == Level(perMinute, b, key, later) {
      LevelLater(perMinute, a, key, now, later);
      LevelLater(perMinute, b, key, now, later);
    }
  }

  lemma TakingKeepsSameLevels(perMinute: nat, a: Buckets, b: Buckets, key: Key, now: int)
    requires SameLevels(perMinute, a, b, now)
    ensures SameLevels(perMinute, Taking(perMinute, a, key, now).0, Taking(perMinute, b, key, now).0, now)
  {
    LevelLater(perMinute, a, key, now, now);
    LevelLater(perMinute, b, key, now, now);
    var a', b' := Taking(perMinute, a, key, now).0, Taking(perMinute, b, key, now).0;
    forall other ensures Level(perMinute, a', other, now) == Level(perMinute, b', other, now) {
      assert Level(perMinute, a, other, now) == Level(perMinute, b, other, now);
      assert other != key ==> Level(perMinute, a', other, now) == Level(perMinute, a, other, now);
      assert other != key ==> Level(perMinute, b', other, now) == Level(perMinute, b, other, now);
    }
  }

  lemma PruningKeepsLevels(perMinute: nat, a: Buckets, b: Buckets, now: int)
    requires SameLevels(perMinute, a, b, now)
    ensures SameLevels(perMinute, Pruned(perMinute, a, now), b, now)
  {
    var a' := Pruned(perMinute, a, now);
    forall key ensures Level(perMinute, a', key, now) == Level(perMinute, b, key, now) {
      assert Level(perMinute, a, key, now) == Level(perMinute, b, key, now);
    }
  }

  lemma {:induction false} PruningDoesNotShowBeside(perMinute: nat, a: Buckets, b: Buckets, clock: int, es: seq<Event>)
    requires SameLevels(perMinute, a, b, clock) && Forward(clock, es)
    ensures Answers(perMinute, a, es) == Answers(perMinute, b, TakesOnly(es))
    decreases |es|
  {
    if es != [] {
      var now := es[0].now;
      SameLevelsLater(perMinute, a, b, clock, now);
      if es[0].Take? {
        TakingKeepsSameLevels(perMinute, a, b, es[0].key, now);
        assert Level(perMinute, a, es[0].key, now) == Level(perMinute, b, es[0].key, now);
        assert TakesOnly(es) == [es[0]] + TakesOnly(es[1..]);
        assert TakesOnly(es)[1..] == TakesOnly(es[1..]);
        PruningDoesNotShowBeside(perMinute, Step(perMinute, a, es[0]), Step(perMinute, b, es[0]), now, es[1..]);
      } else {
        PruningKeepsLevels(perMinute, a, b, now);
        assert TakesOnly(es) == TakesOnly(es[1..]);
        PruningDoesNotShowBeside(perMinute, Step(perMinute, a, es[0]), b, now, es[1..]);
      }
    }
  }

  /** Wherever the buckets are pruned in between, every take is answered as if they never were. */
  lemma PruningDoesNotShow(perMinute: nat, buckets: Buckets, clock: int, es: seq<Event>)
    requires Past(buckets, clock) && Forward(clock, es)
    ensures Answers(perMinute, buckets, es) == Answers(perMinute, buckets, TakesOnly(es))
  {
    PruningDoesNotShowBeside(perMinute, buckets, buckets, clock, es);
  }

  // ---- The limit --------------------------------------------------------------------------------------

  function Granted(perMinute: nat, buckets: Buckets, es: seq<Event>, key: Key): nat
    decreases |es|
  {
    if es == [] then 0
    else
      (if es[0].Take? && es[0].key == key && Taking(perMinute, buckets, key, es[0].now).1 then 1 else 0) +
      Granted(perMinute, Step(perMinute, buckets, es[0]), es[1..], key)
  }

  function LastTime(clock: int, es: seq<Event>): int {
    if es == [] then clock else es[|es| - 1].now
  }

  lemma StepKeepsPast(perMinute: nat, buckets: Buckets, clock: int, e: Event)
    requires Past(buckets, clock) && clock <= e.now
    ensures Past(Step(perMinute, buckets, e), e.now)
  {
    if e.Take? {
      LevelLater(perMinute, buckets, e.key, clock, e.now);
      LevelLater(perMinute, buckets, e.key, e.now, e.now);
    }
  }

  /** One event grants no more tokens than it takes out of the bucket. */
  lemma StepSpends(perMinute: nat, buckets: Buckets, e: Event, key: Key)
    requires Past(buckets, e.now)
    ensures var granted := if e.Take? && e.key == key && Taking(perMinute, buckets, key, e.now).1 then 1.0 else 0.0;
            Level(perMinute, Step(perMinute, buckets, e), key, e.now) == Level(perMinute, buckets, key, e.now) - granted
  {
    LevelLater(perMinute, buckets, key, e.now, e.now);
    assert Refill(perMinute, 0) == 0.0;
  }

  lemma {:induction false} GrantsComeFromTheBucket(perMinute: nat, buckets: Buckets, clock: int, es: seq<Event>,
                                                   key: Key)
    requires Past(buckets, clock) && Forward(clock, es)
    ensures Granted(perMinute, buckets, es, key) as real
         <= Level(perMinute, buckets, key, clock) + Refill(perMinute, LastTime(clock, es) - clock)
    ensures LastTime(clock, es) >= clock
    decreases |es|
  {
    LevelLater(perMinute, buckets, key, clock, clock);
    if es == [] {
      RefillIsPositive(perMinute, 0);
    } else {
      var now := es[0].now;
      LevelLater(perMinute, buckets, key, clock, now);
      StepKeepsPast(perMinute, buckets, clock, es[0]);
      assert Past(buckets, now);
      StepSpends(perMinute, buckets, es[0], key);
      GrantsComeFromTheBucket(perMinute, Step(perMinute, buckets, es[0]), now, es[1..], key);
      assert LastTime(clock, es) == LastTime(now, es[1..]);
      RefillAdds(perMinute, now - clock, LastTime(clock, es) - now);
    }
  }

  /** In a window of `w` milliseconds a key is granted at most perMinute + w * perMinute / 60000 requests,
      whatever happened before and whatever other keys and prunes do meanwhile. */
  lemma WindowIsBounded(perMinute: nat, buckets: Buckets, clock: int, es: seq<Event>, key: Key, w: nat)
    requires Past(buckets, clock) && Forward(clock, es) && LastTime(clock, es) <= clock + w
    ensures Granted(perMinute, buckets, es, key) as real
         <= perMinute as real + w as real * (perMinute as real / 60000.0)
  {
    GrantsComeFromTheBucket(perMinute, buckets, clock, es, key);
    LevelLater(perMinute, buckets, key, clock, clock);
    var rest := clock + w - LastTime(clock, es);
    RefillAdds(perMinute, LastTime(clock, es) - clock, rest);
    RefillIsPositive(perMinute, rest);
    assert Refill(perMinute, w) == w as real * (perMinute as real / 60000.0);
    assert Level(perMinute, buckets, key, clock) <= perMinute as real;
  }

  // ---- The limiter of requests ------------------------------------------------------------------------

  class RateLimiter {
    const perMinute: nat
    var buckets: Buckets

    constructor (perMinute: nat)
      ensures buckets == map[] && this.perMinute == perMinute
    {
      this.perMinute := perMinute;
      buckets := map[];
    }

    method TryTake(key: Key, now: int) returns (ok: bool)
      modifies this
      ensures (buckets, ok) == Taking(perMinute, old(buckets), key, now)
    {
      var capacity := perMinute as real;
      var bucket := if key in buckets then buckets[key] else Bucket(capacity, now);
      assert Refill(perMinute, 0) == 0.0;
      var tokens := Least(capacity, bucket.tokens + Refill(perMinute, now - bucket.updatedAt));
      bucket := Bucket(tokens, now);
      buckets := buckets[key := bucket];
      if bucket.tokens < 1.0 {
        return false;
      }
      buckets := buckets[key := bucket.(tokens := bucket.tokens - 1.0)];
      assert buckets == old(buckets)[key := Bucket(tokens - 1.0, now)];
      return true;
    }

    method PruneBuckets(now: int)
      modifies this
      ensures buckets == Pruned(perMinute, old(buckets), now)
    {
      var keys := buckets.Keys;
      while keys != {}
        invariant keys <= buckets.Keys <= old(buckets).Keys
        invariant forall key :: key in buckets ==> buckets[key] == old(buckets)[key]
        invariant forall key :: key in keys ==> key in buckets
        invariant forall key :: key in old(buckets) && key !in keys ==>
                    (key in buckets <==> !IsFull(perMinute, old(buckets)[key], now))
        decreases keys
      {
        var key :| key in keys;
        keys := keys - {key};
        if IsFull(perMinute, buckets[key], now) {
          buckets := buckets - {key};
        }
      }
    }
  }
}
