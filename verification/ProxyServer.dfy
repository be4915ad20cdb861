/** The proxy's connections and the slots they hold: one of the total for each connection, and one of its
    user's for each connection that has authenticated, given back when the socket has closed.
 */
module ProxyServer {
  import opened Wrappers
  import opened Limits
  import P = ProxyConnection

  // ---- The server -------------------------------------------------------------------------------------

  datatype Bounds = Bounds(maxTotal: nat, maxPerUser: nat)

  datatype Server = Server(conns: map<nat, P.Conn>, slots: Slots, accepted: nat, draining: bool)

  /** Answers of the verifier, timeouts and closes come whenever they come, also after the connection they
      are for has moved on. */
  datatype Event =
    | Upgrades(welcome: bool)
    | Receives(id: nat, frame: P.Frame, cookieSession: bool, expired: bool)
    | Verified(id: nat, user: User, cookieSession: bool, expired: bool)
    | IsClosed(id: nat, code: int, reason: string)
    | SocketCloses(id: nat)
    | IsRemoved(id: nat)
    | Drains

  const INITIAL := Server(map[], Slots(0, map[]), 0, false)

  function OnUpgrades(limits: Bounds, s: Server, welcome: bool): Server {
    if s.draining || !welcome || s.slots.total >= limits.maxTotal then s
    else
      s.(slots := s.slots.(total := s.slots.total + 1), conns := s.conns[s.accepted := P.OPENED],
         accepted := s.accepted + 1)
  }

  function OnVerified(limits: Bounds, s: Server, id: nat, user: User, cookieSession: bool, expired: bool): Server
    requires id in s.conns
  {
    var c := s.conns[id];
    if !c.phase.Authenticating? then s else
    var acquired := s.slots.Of(user) < limits.maxPerUser;
    s.(slots := if acquired then UserAcquired(s.slots, user) else s.slots,
       conns := s.conns[id := P.OnAuthenticated(c, user, acquired, cookieSession, expired)])
  }

  function OnSocketCloses(s: Server, id: nat): Server
    requires id in s.conns
  {
    var c := s.conns[id];
    s.(conns := s.conns[id := P.OnSocketClosed(c)],
       slots := if c.identity.Some? then UserReleased(s.slots, c.identity.value) else s.slots)
  }

  /** A socket closes once, and its connection is removed after that. */
  predicate Enabled(s: Server, e: Event) {
    match e
    case Receives(id, _, _, _) => id in s.conns
    case Verified(id, _, _, _) => id in s.conns
    case IsClosed(id, _, _) => id in s.conns
    case SocketCloses(id) => id in s.conns && !s.conns[id].phase.Closed?
    case IsRemoved(id) => id in s.conns && s.conns[id].phase.Closed?
    case _ => true
  }

  function Step(limits: Bounds, s: Server, e: Event): Server {
    if !Enabled(s, e) then s else
    match e
    case Upgrades(welcome) => OnUpgrades(limits, s, welcome)
    case Receives(id, frame, cookieSession, expired) =>
      s.(conns := s.conns[id := P.OnMessage(s.conns[id], frame, cookieSession, expired)])
    case Verified(id, user, cookieSession, expired) => OnVerified(limits, s, id, user, cookieSession, expired)
    case IsClosed(id, code, reason) => s.(conns := s.conns[id := P.Closes(s.conns[id], code, reason)])
    case SocketCloses(id) => OnSocketCloses(s, id)
    case IsRemoved(id) => s.(conns := s.conns - {id}, slots := ConnectionReleased(s.slots))
    case Drains => s.(draining := true)
  }

  function Run(limits: Bounds, s: Server, es: seq<Event>): Server
    decreases |es|
  {
    if es == [] then s else Run(limits, Step(limits, s, es[0]), es[1..])
  }

  // ---- Exact accounting -------------------------------------------------------------------------------

  /** The connections that count for the user: authenticated as the user, socket not closed yet. */
  function Holders(conns: map<nat, P.Conn>, user: User): set<nat> {
    set id | id in conns && conns[id].identity == Some(user) && !conns[id].phase.Closed?
  }

  ghost predicate Exact(limits: Bounds, s: Server) {
    && s.slots.total == |s.conns| <= limits.maxTotal
    && (forall user :: s.slots.Of(user) == |Holders(s.conns, user)| <= limits.maxPerUser)
    && (forall user :: user in s.slots.perUser ==> s.slots.perUser[user] > 0)
    && (forall id :: id in s.conns ==> id < s.accepted)
    && (forall id :: id in s.conns && s.conns[id].phase.Authenticating? ==> s.conns[id].identity == None)
    && (forall id :: id in s.conns && s.conns[id].phase.AwaitingAuth? ==> s.conns[id].identity == None)
  }

  /** What changing one connection does to the count of a user. */
  lemma HoldersChange(conns: map<nat, P.Conn>, id: nat, d: P.Conn, user: User)
    requires id in conns
    ensures var before := Holders(conns, user);
            var after := Holders(conns[id := d], user);
            if d.identity == Some(user) && !d.phase.Closed?
            then |after| == (if id in before then |before| else |before| + 1)
            else |after| == (if id in before then |before| - 1 else |before|)
  {
    var before := Holders(conns, user);
    var after := Holders(conns[id := d], user);
    if d.identity == Some(user) && !d.phase.Closed? {
      assert after == before + {id};
    } else {
      assert after == before - {id};
    }
  }

  /** Frames and closes leave alone what the slots depend on. */
  predicate SameHold(c: P.Conn, d: P.Conn) {
    && d.identity == c.identity && (d.phase.Closed? <==> c.phase.Closed?)
    && (d.phase.AwaitingAuth? ==> c.phase.AwaitingAuth?)
    && (d.phase.Authenticating? ==> c.phase.Authenticating? || c.phase.AwaitingAuth?)
  }

  lemma {:induction false} MessagesKeepHold(c: P.Conn, frames: seq<P.Frame>, cookieSession: bool, expired: bool)
    ensures SameHold(c, P.OnMessages(c, frames, cookieSession, expired))
    decreases |frames|
  {
    if frames != [] {
      MessagesKeepHold(P.OnMessage(c, frames[0], cookieSession, expired), frames[1..], cookieSession, expired);
    }
  }

  lemma SameHoldKeepsHolders(conns: map<nat, P.Conn>, id: nat, d: P.Conn, user: User)
    requires id in conns && SameHold(conns[id], d)
    ensures Holders(conns[id := d], user) == Holders(conns, user)
  {
  }

  lemma SameHoldKeepsExact(limits: Bounds, s: Server, id: nat, d: P.Conn)
    requires Exact(limits, s) && id in s.conns && SameHold(s.conns[id], d)
    ensures Exact(limits, s.(conns := s.conns[id := d]))
  {
    var conns := s.conns[id := d];
    assert conns.Keys == s.conns.Keys;
    forall user ensures |Holders(conns, user)| == |Holders(s.conns, user)| {
      SameHoldKeepsHolders(s.conns, id, d, user);
    }
  }

  /** A connection begins to count for its user. */
  lemma HoldBegins(limits: Bounds, s: Server, id: nat, user: User, d: P.Conn)
    requires Exact(limits, s) && id in s.conns && s.conns[id].phase.Authenticating?
    requires s.slots.Of(user) < limits.maxPerUser
    requires d.identity == Some(user) && (d.phase.Authenticated? || d.phase.Started? || d.phase.Closing?)
    ensures Exact(limits, s.(slots := UserAcquired(s.slots, user),
                             conns := s.conns[id := d]))
  {
    var t := s.(slots := UserAcquired(s.slots, user), conns := s.conns[id := d]);
    assert t.conns.Keys == s.conns.Keys;
    forall other ensures t.slots.Of(other) == |Holders(t.conns, other)| <= limits.maxPerUser {
      HoldersChange(s.conns, id, d, other);
    }
  }

  lemma VerifiedKeepsExact(limits: Bounds, s: Server, id: nat, user: User, cookieSession: bool, expired: bool)
    requires Exact(limits, s) && id in s.conns
    ensures Exact(limits, OnVerified(limits, s, id, user, cookieSession, expired))
  {
    var c := s.conns[id];
    if c.phase.Authenticating? {
      var t := OnVerified(limits, s, id, user, cookieSession, expired);
      if s.slots.Of(user) < limits.maxPerUser {
        var d := c.(identity := Some(user), phase := P.Authenticated, pending := []);
        MessagesKeepHold(d, c.pending, cookieSession, expired);
        HoldBegins(limits, s, id, user, t.conns[id]);
      } else {
        SameHoldKeepsExact(limits, s, id, t.conns[id]);
      }
    }
  }

  lemma SocketClosesKeepsExact(limits: Bounds, s: Server, id: nat)
    requires Exact(limits, s) && Enabled(s, SocketCloses(id))
    ensures Exact(limits, OnSocketCloses(s, id))
  {
    var t := OnSocketCloses(s, id);
    assert t.conns.Keys == s.conns.Keys;
    forall other ensures t.slots.Of(other) == |Holders(t.conns, other)| <= limits.maxPerUser {
      HoldersChange(s.conns, id, t.conns[id], other);
    }
  }

  lemma RemovedKeepsExact(limits: Bounds, s: Server, id: nat)
    requires Exact(limits, s) && Enabled(s, IsRemoved(id))
    ensures Exact(limits, Step(limits, s, IsRemoved(id)))
  {
    var t := Step(limits, s, IsRemoved(id));
    assert t.conns.Keys == s.conns.Keys - {id};
    forall user ensures Holders(t.conns, user) == Holders(s.conns, user) {
    }
  }

  lemma UpgradesKeepsExact(limits: Bounds, s: Server, welcome: bool)
    requires Exact(limits, s)
    ensures Exact(limits, OnUpgrades(limits, s, welcome))
  {
    var t := OnUpgrades(limits, s, welcome);
    if t != s {
      assert t.conns.Keys == s.conns.Keys + {s.accepted};
      forall user ensures Holders(t.conns, user) == Holders(s.conns, user) {
      }
    }
  }

  lemma StepKeepsExact(limits: Bounds, s: Server, e: Event)
    requires Exact(limits, s)
    ensures Exact(limits, Step(limits, s, e))
  {
    if Enabled(s, e) {
      match e
      case Upgrades(welcome) => UpgradesKeepsExact(limits, s, welcome);
      case Receives(id, frame, cookieSession, expired) =>
        SameHoldKeepsExact(limits, s, id, P.OnMessage(s.conns[id], frame, cookieSession, expired));
      case Verified(id, user, cookieSession, expired) =>
        VerifiedKeepsExact(limits, s, id, user, cookieSession, expired);
      case IsClosed(id, code, reason) => SameHoldKeepsExact(limits, s, id, P.Closes(s.conns[id], code, reason));
      case SocketCloses(id) => SocketClosesKeepsExact(limits, s, id);
      case IsRemoved(id) => RemovedKeepsExact(limits, s, id);
      case Drains =>
    }
  }

  lemma {:induction false} RunKeepsExact(limits: Bounds, s: Server, es: seq<Event>)
    requires Exact(limits, s)
    ensures Exact(limits, Run(limits, s, es))
    decreases |es|
  {
    if es != [] {
      StepKeepsExact(limits, s, es[0]);
      RunKeepsExact(limits, Step(limits, s, es[0]), es[1..]);
    }
  }

  lemma InitialIsExact(limits: Bounds)
    ensures Exact(limits, INITIAL)
  {
    assert forall u :: Holders(map[], u) == {};
  }

  /** In every reachable state, also when a socket closes while its token is still being verified, the limiter
      counts exactly the open connections and each user's authenticated ones, within the limits; and a
      release never finds nothing to release, so its guards against that never act. */
  lemma SlotsAreExact(limits: Bounds, es: seq<Event>, e: Event, user: User)
    ensures var s := Run(limits, INITIAL, es);
            && s.slots.total == |s.conns| <= limits.maxTotal
            && s.slots.Of(user) == |Holders(s.conns, user)| <= limits.maxPerUser
            && (e.IsRemoved? && Enabled(s, e) ==> s.slots.total >= 1)
            && (e.SocketCloses? && Enabled(s, e) && s.conns[e.id].identity == Some(user) ==> s.slots.Of(user) >= 1)
  {
    InitialIsExact(limits);
    RunKeepsExact(limits, INITIAL, es);
    var s := Run(limits, INITIAL, es);
    if e.SocketCloses? && Enabled(s, e) && s.conns[e.id].identity == Some(user) {
      assert e.id in Holders(s.conns, user);
    }
    if e.IsRemoved? && Enabled(s, e) {
      assert e.id in s.conns;
      assert s.conns != map[];
    }
  }

  /** Once every socket has closed and every connection is removed, no slot is held. */
  lemma NothingIsHeldInTheEnd(limits: Bounds, es: seq<Event>)
    requires Run(limits, INITIAL, es).conns == map[]
    ensures Run(limits, INITIAL, es).slots == Slots(0, map[])
  {
    var s := Run(limits, INITIAL, es);
    assert forall u :: Holders(map[], u) == {};
    RunKeepsExact(limits, INITIAL, es);
    forall user ensures user !in s.slots.perUser {
      assert s.slots.Of(user) == |Holders(s.conns, user)|;
    }
  }
}
