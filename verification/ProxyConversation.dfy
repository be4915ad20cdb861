/** A whole conversation with the proxy, by its frames alone: what the connection does from the first frame to the
    last, and what the server makes of a new connection.
 */
module ProxyConversation {
  import opened Wrappers
  import opened Common
  import opened Limits
  import opened ProxyConnection
  import S = ProxyServer

  // ---- The calls of a conversation --------------------------------------------------------------------

  /** A frame that is not allowed is answered with an error, and a session under way ends with the connection. */
  function Refusal(reason: string, session: bool): seq<Call> {
    [SendError(reason)] + (if session then [OnClose] else []) + [CloseSocket(4400, "protocolError")]
  }

  /** The session gets every binary frame and every end, up to the first frame that is neither. */
  function StreamCalls(frames: seq<Frame>): seq<Call> {
    if frames == [] then [] else
    match frames[0]
    case Binary(data) => [OnData(data)] + StreamCalls(frames[1..])
    case Control(message) =>
      if message.End? then [OnEnd] + StreamCalls(frames[1..]) else Refusal("unexpectedMessage", true)
  }

  /** A start frame without a fault, with a token that is still valid. */
  predicate IsSound(frame: Frame, expired: bool) {
    frame.Control? && !expired && (frame.message.StartNova? || frame.message == StartTranscribe(None))
  }

  /** What the first frame after the token leads to. */
  function FirstCalls(frame: Frame, expired: bool): seq<Call> {
    match frame
    case Binary(_) => Refusal("startRequired", false)
    case Control(message) =>
      var starts := message.StartNova? || message.StartTranscribe? || message.StartOther?;
      if !starts then Refusal("startRequired", false)
      else if expired then [CloseSocket(4401, "tokenExpired")]
      else match message
        case StartNova => [CreateSession(Nova)]
        case StartTranscribe(fault) => if fault.Some? then Refusal(fault.value, false) else [CreateSession(Transcribe)]
        case _ => Refusal("unknownService", false)
  }

  function StartCalls(frames: seq<Frame>, expired: bool): seq<Call> {
    if frames == [] then [] else
    FirstCalls(frames[0], expired) + if IsSound(frames[0], expired) then StreamCalls(frames[1..]) else []
  }

  /** The first frame names a token, or says auth where a cookie holds it. */
  predicate IsAuth(frame: Frame, cookieSession: bool) {
    frame == Control(Auth(true)) || (frame == Control(Auth(false)) && cookieSession)
  }

  lemma Refused(c: Conn, reason: string)
    requires !Over(c)
    ensures ProtocolError(c, reason).calls == c.calls + Refusal(reason, c.session.Some?)
    ensures Over(ProtocolError(c, reason))
  {
  }

  lemma {:induction false} StreamIsTold(c: Conn, frames: seq<Frame>, cookieSession: bool, expired: bool)
    requires c.phase.Started? && c.session.Some?
    ensures OnMessages(c, frames, cookieSession, expired).calls == c.calls + StreamCalls(frames)
    decreases |frames|
  {
    if frames != [] {
      var d := OnMessage(c, frames[0], cookieSession, expired);
      if frames[0].Binary? || frames[0].message.End? {
        StreamIsTold(d, frames[1..], cookieSession, expired);
      } else {
        Refused(c, "unexpectedMessage");
        OverStaysOver(d, frames[1..], cookieSession, expired);
      }
    }
  }

  lemma FirstIsTold(c: Conn, frame: Frame, cookieSession: bool, expired: bool)
    requires c.phase.Authenticated? && c.session.None?
    ensures var d := OnMessage(c, frame, cookieSession, expired);
            && d.calls == c.calls + FirstCalls(frame, expired)
            && if IsSound(frame, expired) then d.phase.Started? && d.session.Some? else Over(d)
  {
  }

  lemma StartIsTold(c: Conn, frames: seq<Frame>, cookieSession: bool, expired: bool)
    requires c.phase.Authenticated? && c.session.None?
    ensures OnMessages(c, frames, cookieSession, expired).calls == c.calls + StartCalls(frames, expired)
  {
    if frames != [] {
      var d := OnMessage(c, frames[0], cookieSession, expired);
      FirstIsTold(c, frames[0], cookieSession, expired);
      if IsSound(frames[0], expired) {
        StreamIsTold(d, frames[1..], cookieSession, expired);
        Grouping(c.calls, FirstCalls(frames[0], expired), StreamCalls(frames[1..]));
      } else {
        OverStaysOver(d, frames[1..], cookieSession, expired);
        assert FirstCalls(frames[0], expired) + [] == FirstCalls(frames[0], expired);
      }
    }
  }

  /** What happens to a connection, in the order it happens; `waiting` frames come during the verification. */
  function Conversation(first: Frame, waiting: seq<Frame>, later: seq<Frame>, user: User, acquired: bool,
                        cookieSession: bool, expired: bool): Conn
  {
    var verifying := OnMessages(OnMessage(OPENED, first, cookieSession, expired), waiting, cookieSession, expired);
    OnMessages(OnAuthenticated(verifying, user, acquired, cookieSession, expired), later, cookieSession, expired)
  }

  lemma WithoutAuth(first: Frame, waiting: seq<Frame>, later: seq<Frame>, user: User, acquired: bool,
                    cookieSession: bool, expired: bool)
    requires !IsAuth(first, cookieSession)
    ensures Conversation(first, waiting, later, user, acquired, cookieSession, expired).calls ==
            [CloseSocket(4401, "authRequired")]
  {
    var c := OnMessage(OPENED, first, cookieSession, expired);
    OverStaysOver(c, waiting, cookieSession, expired);
    OverStaysOver(c, later, cookieSession, expired);
  }

  lemma AuthIsVerified(first: Frame, cookieSession: bool, expired: bool)
    requires IsAuth(first, cookieSession)
    ensures OnMessage(OPENED, first, cookieSession, expired) == Conn(Authenticating, [], None, None, [Verify])
  {
  }

  /** While the token is verified, and after that. */
  lemma VerifiedIsTold(c: Conn, waiting: seq<Frame>, later: seq<Frame>, user: User, acquired: bool,
                       cookieSession: bool, expired: bool)
    requires c.phase.Authenticating? && c.pending == [] && c.session.None?
    ensures var verifying := OnMessages(c, waiting, cookieSession, expired);
            var verified := OnAuthenticated(verifying, user, acquired, cookieSession, expired);
            OnMessages(verified, later, cookieSession, expired).calls == c.calls +
            if |waiting| > 256 then Refusal("tooManyFramesBeforeAuth", false)
            else if !acquired then [CloseSocket(4429, "tooManyConnections")]
            else StartCalls(waiting + later, expired)
  {
    var verifying := OnMessages(c, waiting, cookieSession, expired);
    FramesWait(c, waiting, cookieSession, expired);
    Refused(c, TOO_MANY_FRAMES);
    if |waiting| > 256 || !acquired {
      OverStaysOver(OnAuthenticated(verifying, user, acquired, cookieSession, expired), later, cookieSession, expired);
    } else {
      assert [] + waiting == waiting;
      var start := c.(identity := Some(user), phase := Authenticated);
      MessagesInTwoParts(start, waiting, later, cookieSession, expired);
      StartIsTold(start, waiting + later, cookieSession, expired);
    }
  }

  /** Everything a connection does, by its frames alone. Without a token nothing else of it counts; more than 256
      frames during the verification end it, as does a user without a connection to spare; otherwise the frames
      that waited and those that came later are one stream, in order. */
  lemma ConversationIsTold(first: Frame, waiting: seq<Frame>, later: seq<Frame>, user: User, acquired: bool,
                           cookieSession: bool, expired: bool)
    ensures Conversation(first, waiting, later, user, acquired, cookieSession, expired).calls ==
            if !IsAuth(first, cookieSession) then [CloseSocket(4401, "authRequired")]
            else [Verify] +
                 if |waiting| > 256 then Refusal("tooManyFramesBeforeAuth", false)
                 else if !acquired then [CloseSocket(4429, "tooManyConnections")]
                 else StartCalls(waiting + later, expired)
  {
    if IsAuth(first, cookieSession) {
      AuthIsVerified(first, cookieSession, expired);
      VerifiedIsTold(OnMessage(OPENED, first, cookieSession, expired), waiting, later, user, acquired, cookieSession,
                     expired);
    } else {
      WithoutAuth(first, waiting, later, user, acquired, cookieSession, expired);
    }
  }

  /** Whenever the server closes a connection it says so once, and to the session first; and when the socket has
      closed a session hears of it. */
  lemma ClosingIsTold(c: Conn, code: int, reason: string)
    ensures var t := Closes(c, code, reason);
            var ends := if c.session.Some? then [OnClose] else [];
            && (Over(c) ==> t == c)
            && (!Over(c) ==> t.phase.Closing? && t.calls == c.calls + ends + [CloseSocket(code, reason)])
            && OnSocketClosed(c).phase.Closed? && OnSocketClosed(c).calls == c.calls + ends
            && t.identity == c.identity && OnSocketClosed(c).identity == c.identity
  {
  }

  // ---- New connections and users ----------------------------------------------------------------------

  lemma {:induction false} DrainingIsTold(limits: S.Bounds, s: S.Server, es: seq<S.Event>)
    ensures S.Run(limits, s, es).draining <==> s.draining || S.Drains in es
    decreases |es|
  {
    if es != [] {
      DrainingIsTold(limits, S.Step(limits, s, es[0]), es[1..]);
    }
  }

  /** In every run an upgrade is accepted exactly if it is welcome, the server has not begun to drain and fewer
      connections than allowed are open; a new connection has its own number and no other one changes. */
  lemma UpgradeIsAcceptedExactly(limits: S.Bounds, es: seq<S.Event>, welcome: bool)
    ensures var s := S.Run(limits, S.INITIAL, es);
            var t := S.Step(limits, s, S.Upgrades(welcome));
            if welcome && S.Drains !in es && |s.conns| < limits.maxTotal
            then s.accepted !in s.conns && t.conns == s.conns[s.accepted := OPENED]
            else t == s
  {
    S.SlotsAreExact(limits, es, S.Drains, "");
    DrainingIsTold(limits, S.INITIAL, es);
    S.InitialIsExact(limits);
    S.RunKeepsExact(limits, S.INITIAL, es);
  }

  /** A verified user is let in exactly if fewer connections than allowed are the user's already; the connection goes
      on with the frames that waited, or is closed, and no other one changes. */
  lemma UserIsLetInExactly(limits: S.Bounds, es: seq<S.Event>, id: nat, user: User, cookieSession: bool, expired: bool)
    requires var s := S.Run(limits, S.INITIAL, es); id in s.conns && s.conns[id].phase.Authenticating?
    ensures var s := S.Run(limits, S.INITIAL, es);
            var t := S.Step(limits, s, S.Verified(id, user, cookieSession, expired));
            var acquired := |S.Holders(s.conns, user)| < limits.maxPerUser;
            && id in t.conns && t.conns == s.conns[id := t.conns[id]]
            && t.conns[id].identity == (if acquired then Some(user) else None)
            && (!acquired ==>
                  t.conns[id].calls == s.conns[id].calls + (if s.conns[id].session.Some? then [OnClose] else [])
                                       + [CloseSocket(4429, "tooManyConnections")])
  {
    S.SlotsAreExact(limits, es, S.Drains, user);
    S.InitialIsExact(limits);
    S.RunKeepsExact(limits, S.INITIAL, es);
    var c := S.Run(limits, S.INITIAL, es).conns[id];
    MessagesKeepIdentity(c.(identity := Some(user), phase := Authenticated, pending := []), c.pending, cookieSession,
                         expired);
  }
}
