/** One WebSocket connection of the proxy: a first frame that authenticates, a start frame, then the stream.
    Frames that arrive while the token is being verified wait and are replayed in order.
 */
module ProxyConnection {
  import opened Wrappers
  import opened Limits

  /** A parsed control frame; one that cannot be parsed is Malformed. */
  datatype Message =
    | Auth(hasToken: bool)
    | StartNova
    | StartTranscribe(fault: Option<string>)  // what validation finds wrong with it
    | StartOther
    | End
    | OtherType
    | Malformed

  datatype Frame = Binary(data: nat) | Control(message: Message)

  datatype Service = Nova | Transcribe

  datatype Phase = AwaitingAuth | Authenticating | Authenticated | Started | Closing | Closed

  /** What the connection does to its session, its socket and its token verifier. */
  datatype Call =
    | Verify
    | CreateSession(service: Service)
    | OnData(data: nat)
    | OnEnd
    | OnClose
    | SendError(reason: string)
    | CloseSocket(code: int, reason: string)

  datatype Conn = Conn(
    phase: Phase,
    pending: seq<Frame>,
    identity: Option<User>,
    session: Option<Service>,
    calls: seq<Call>)

  const OPENED := Conn(AwaitingAuth, [], None, None, [])

  const BAD_REQUEST := 4400
  const UNAUTHORIZED := 4401
  const TOO_MANY_CONNECTIONS := 4429
  const MAX_FRAMES_WHILE_AUTHENTICATING := 256
  const TOO_MANY_FRAMES := "tooManyFramesBeforeAuth"

  // ---- What the connection does -----------------------------------------------------------------------

  function Called(c: Conn, call: Call): Conn {
    c.(calls := c.calls + [call])
  }

  predicate Over(c: Conn) {
    c.phase.Closing? || c.phase.Closed?
  }

  function Closes(c: Conn, code: int, reason: string): Conn {
    if Over(c) then c else
    var t := if c.session.Some? then Called(c, OnClose) else c;
    Called(t.(phase := Closing), CloseSocket(code, reason))
  }

  function ProtocolError(c: Conn, reason: string): Conn {
    if Over(c) then c else Closes(Called(c, SendError(reason)), BAD_REQUEST, "protocolError")
  }

  function Authenticate(c: Conn, frame: Frame, cookieSession: bool): Conn {
    if frame.Control? && frame.message.Auth? && (frame.message.hasToken || cookieSession)
    then Called(c.(phase := Authenticating), Verify)
    else Closes(c, UNAUTHORIZED, "authRequired")
  }

  function Starts(c: Conn, frame: Frame, expired: bool): Conn {
    if !frame.Control? || !(frame.message.StartNova? || frame.message.StartTranscribe? || frame.message.StartOther?)
    then ProtocolError(c, "startRequired")
    else if expired then Closes(c, UNAUTHORIZED, "tokenExpired")
    else match frame.message
      case StartNova => Called(c.(phase := Started, session := Some(Nova)), CreateSession(Nova))
      case StartTranscribe(fault) =>
        if fault.Some? then ProtocolError(c, fault.value)
        else Called(c.(phase := Started, session := Some(Transcribe)), CreateSession(Transcribe))
      case _ => ProtocolError(c, "unknownService")
  }

  function Streams(c: Conn, frame: Frame): Conn {
    if frame.Binary? then Called(c, OnData(frame.data))
    else if frame.message.End? then Called(c, OnEnd)
    else ProtocolError(c, "unexpectedMessage")
  }

  function OnMessage(c: Conn, frame: Frame, cookieSession: bool, expired: bool): Conn {
    match c.phase
    case AwaitingAuth => Authenticate(c, frame, cookieSession)
    case Authenticating =>
      if |c.pending| >= MAX_FRAMES_WHILE_AUTHENTICATING then ProtocolError(c, TOO_MANY_FRAMES)
      else c.(pending := c.pending + [frame])
    case Authenticated => Starts(c, frame, expired)
    case Started => Streams(c, frame)
    case _ => c
  }

  function OnMessages(c: Conn, frames: seq<Frame>, cookieSession: bool, expired: bool): Conn
    decreases |frames|
  {
    if frames == [] then c
    else OnMessages(OnMessage(c, frames[0], cookieSession, expired), frames[1..], cookieSession, expired)
  }

  /** The verifier accepted the token and `acquired` says whether the user had a connection to spare. */
  function OnAuthenticated(c: Conn, user: User, acquired: bool, cookieSession: bool, expired: bool): Conn {
    if !c.phase.Authenticating? then c
    else if !acquired then Closes(c, TOO_MANY_CONNECTIONS, "tooManyConnections")
    else
      var d := c.(identity := Some(user), phase := Authenticated, pending := []);
      OnMessages(d, c.pending, cookieSession, expired)
  }

  function OnSocketClosed(c: Conn): Conn {
    var t := c.(phase := Closed);
    if c.session.Some? then Called(t, OnClose) else t
  }

  // ---- Frames racing the verification -----------------------------------------------------------------

  lemma {:induction false} MessagesInTwoParts(c: Conn, a: seq<Frame>, b: seq<Frame>, cookieSession: bool, expired: bool)
    ensures OnMessages(c, a + b, cookieSession, expired)
         == OnMessages(OnMessages(c, a, cookieSession, expired), b, cookieSession, expired)
    decreases |a|
  {
    if a == [] {
      assert a + b == b;
    } else {
      assert (a + b)[1..] == a[1..] + b;
      MessagesInTwoParts(OnMessage(c, a[0], cookieSession, expired), a[1..], b, cookieSession, expired);
    }
  }

  lemma {:induction false} OverStaysOver(c: Conn, frames: seq<Frame>, cookieSession: bool, expired: bool)
    requires Over(c)
    ensures OnMessages(c, frames, cookieSession, expired) == c
    decreases |frames|
  {
    if frames != [] {
      OverStaysOver(c, frames[1..], cookieSession, expired);
    }
  }

  /** While the token is verified, frames wait, and the one too many closes the connection. */
  lemma {:induction false} FramesWait(c: Conn, frames: seq<Frame>, cookieSession: bool, expired: bool)
    requires c.phase.Authenticating? && |c.pending| <= MAX_FRAMES_WHILE_AUTHENTICATING
    ensures var t := OnMessages(c, frames, cookieSession, expired);
            && t.identity == c.identity
            && (|c.pending| + |frames| <= MAX_FRAMES_WHILE_AUTHENTICATING ==> t == c.(pending := c.pending + frames))
            && (|c.pending| + |frames| > MAX_FRAMES_WHILE_AUTHENTICATING ==>
                  Over(t) && t.session == c.session && t.calls == ProtocolError(c, TOO_MANY_FRAMES).calls)
    decreases |frames|
  {
    if frames == [] {
      assert c.pending + frames == c.pending;
    } else if |c.pending| < MAX_FRAMES_WHILE_AUTHENTICATING {
      assert c.pending + [frames[0]] + frames[1..] == c.pending + frames;
      FramesWait(OnMessage(c, frames[0], cookieSession, expired), frames[1..], cookieSession, expired);
    } else {
      OverStaysOver(OnMessage(c, frames[0], cookieSession, expired), frames[1..], cookieSession, expired);
    }
  }

  lemma {:induction false} MessagesKeepIdentity(c: Conn, frames: seq<Frame>, cookieSession: bool, expired: bool)
    ensures OnMessages(c, frames, cookieSession, expired).identity == c.identity
    decreases |frames|
  {
    if frames != [] {
      MessagesKeepIdentity(OnMessage(c, frames[0], cookieSession, expired), frames[1..], cookieSession, expired);
    }
  }

  /** The frames after the first one, with the verification completing after the first `k` of them. */
  function Raced(c: Conn, frames: seq<Frame>, k: nat, user: User, cookieSession: bool): Conn
    requires k <= |frames|
  {
    var verified := OnAuthenticated(OnMessages(c, frames[..k], cookieSession, false), user, true, cookieSession, false);
    OnMessages(verified, frames[k..], cookieSession, false)
  }

  lemma MessageAddsCalls(c: Conn, frame: Frame, cookieSession: bool, expired: bool)
    ensures c.calls <= OnMessage(c, frame, cookieSession, expired).calls
  {
  }

  lemma {:induction false} CallsGrow(c: Conn, frames: seq<Frame>, cookieSession: bool, expired: bool)
    ensures c.calls <= OnMessages(c, frames, cookieSession, expired).calls
    decreases |frames|
  {
    if frames != [] {
      MessageAddsCalls(c, frames[0], cookieSession, expired);
      CallsGrow(OnMessage(c, frames[0], cookieSession, expired), frames[1..], cookieSession, expired);
    }
  }

  /** What the first frame after the verification makes the connection do, with a token that is still valid. */
  function FirstCall(frame: Frame): Call {
    if frame.Binary? then SendError("startRequired")
    else match frame.message
      case StartNova => CreateSession(Nova)
      case StartTranscribe(fault) => if fault.Some? then SendError(fault.value) else CreateSession(Transcribe)
      case StartOther => SendError("unknownService")
      case _ => SendError("startRequired")
  }

  /** The first frame decides the first call; a frame refused for its fault ends the connection. */
  lemma FirstFrameCalls(c: Conn, frames: seq<Frame>, cookieSession: bool)
    requires c.phase.Authenticated? && frames != []
    ensures var t := OnMessages(c, frames, cookieSession, false);
            && |c.calls| < |t.calls| && t.calls[|c.calls|] == FirstCall(frames[0])
            && (FirstCall(frames[0]).SendError? ==> t.calls == ProtocolError(c, FirstCall(frames[0]).reason).calls)
  {
    var d := OnMessage(c, frames[0], cookieSession, false);
    assert c.calls + [FirstCall(frames[0])] <= d.calls;
    CallsGrow(d, frames[1..], cookieSession, false);
    if FirstCall(frames[0]).SendError? {
      OverStaysOver(d, frames[1..], cookieSession, false);
    }
  }

  /** With a token that stays valid and a slot for the user, everything the connection does, in order, is the
      same wherever among the frames the verification completes, exactly as long as no more than 256 wait. With
      more it ends for that reason alone, which is what it does anyhow only if the first frame is refused in the
      very same words. */
  lemma VerificationMayTakeItsTime(c: Conn, frames: seq<Frame>, k: nat, user: User, cookieSession: bool)
    requires c.phase.Authenticating? && c.pending == [] && c.identity == None && k <= |frames|
    ensures Raced(c, frames, k, user, cookieSession) == Raced(c, frames, 0, user, cookieSession)
            <==> k <= MAX_FRAMES_WHILE_AUTHENTICATING
    ensures Raced(c, frames, k, user, cookieSession).calls == Raced(c, frames, 0, user, cookieSession).calls
            <==> k <= MAX_FRAMES_WHILE_AUTHENTICATING || FirstCall(frames[0]) == SendError(TOO_MANY_FRAMES)
    ensures k > MAX_FRAMES_WHILE_AUTHENTICATING ==>
              Raced(c, frames, k, user, cookieSession).calls == ProtocolError(c, TOO_MANY_FRAMES).calls
  {
    var c0 := c.(identity := Some(user), phase := Authenticated, pending := []);
    assert frames[..0] == [] && frames[0..] == frames;
    MessagesInTwoParts(c0, [], frames, cookieSession, false);
    assert Raced(c, frames, 0, user, cookieSession) == OnMessages(c0, frames, cookieSession, false);
    FramesWait(c, frames[..k], cookieSession, false);
    if k <= MAX_FRAMES_WHILE_AUTHENTICATING {
      assert [] + frames[..k] == frames[..k];
      MessagesInTwoParts(c0, frames[..k], frames[k..], cookieSession, false);
      assert frames[..k] + frames[k..] == frames;
    } else {
      OverStaysOver(OnMessages(c, frames[..k], cookieSession, false), frames[k..], cookieSession, false);
      MessagesKeepIdentity(c0, frames, cookieSession, false);
      FirstFrameCalls(c0, frames, cookieSession);
      assert ProtocolError(c, TOO_MANY_FRAMES).calls[|c.calls|] == SendError(TOO_MANY_FRAMES);
    }
  }

  // ---- The connection ---------------------------------------------------------------------------------

  class Connection {
    const limiter: ConnectionLimiter
    const cookieSession: bool
    var phase: Phase
    var pending: seq<Frame>
    var identity: Option<User>
    var session: Option<Service>
    ghost var calls: seq<Call>

    ghost function View(): Conn
      reads this
    {
      Conn(phase, pending, identity, session, calls)
    }

    constructor (limiter: ConnectionLimiter, cookieSession: bool)
      ensures View() == OPENED && this.limiter == limiter && this.cookieSession == cookieSession
    {
      this.limiter, this.cookieSession := limiter, cookieSession;
      phase, pending, identity, session, calls := AwaitingAuth, [], None, None, [];
    }

    method Close(code: int, reason: string)
      modifies this
      ensures View() == Closes(old(View()), code, reason)
    {
      if phase == Closing || phase == Closed {
        return;
      }
      phase := Closing;
      if session.Some? {
        calls := calls + [OnClose];
      }
      calls := calls + [CloseSocket(code, reason)];
    }

    method FailProtocol(reason: string)
      modifies this
      ensures View() == ProtocolError(old(View()), reason)
    {
      if phase == Closing || phase == Closed {
        return;
      }
      calls := calls + [SendError(reason)];
      Close(BAD_REQUEST, "protocolError");
    }

    method Begin(service: Service)
      modifies this
      ensures View() == Called(old(View()).(phase := Started, session := Some(service)), CreateSession(service))
    {
      phase := Started;
      session := Some(service);
      calls := calls + [CreateSession(service)];
    }

    method Start(frame: Frame, expired: bool)
      modifies this
      ensures View() == Starts(old(View()), frame, expired)
    {
      if !frame.Control? || !(frame.message.StartNova? || frame.message.StartTranscribe? || frame.message.StartOther?) {
        FailProtocol("startRequired");
        return;
      }
      if expired {
        Close(UNAUTHORIZED, "tokenExpired");
        return;
      }
      if frame.message.StartTranscribe? {
        if frame.message.fault.Some? {
          FailProtocol(frame.message.fault.value);
          return;
        }
        Begin(Transcribe);
      } else if !frame.message.StartNova? {
        FailProtocol("unknownService");
      } else {
        Begin(Nova);
      }
    }

    method ReceiveFrame(frame: Frame, expired: bool)
      modifies this
      ensures View() == OnMessage(old(View()), frame, cookieSession, expired)
    {
      match phase {
        case AwaitingAuth =>
          if frame.Control? && frame.message.Auth? && (frame.message.hasToken || cookieSession) {
            phase := Authenticating;
            calls := calls + [Verify];
          } else {
            Close(UNAUTHORIZED, "authRequired");
          }
        case Authenticating =>
          if |pending| >= MAX_FRAMES_WHILE_AUTHENTICATING {
            FailProtocol(TOO_MANY_FRAMES);
          } else {
            pending := pending + [frame];
          }
        case Authenticated =>
          Start(frame, expired);
        case Started =>
          if frame.Binary? {
            calls := calls + [OnData(frame.data)];
          } else if frame.message.End? {
            calls := calls + [Call.OnEnd];
          } else {
            FailProtocol("unexpectedMessage");
          }
        case _ =>
      }
    }

    /** The token is good: takes one of the user's slots and replays the frames that waited. */
    method VerificationDone(user: User, expired: bool)
      modifies this, limiter
      ensures var was := old(limiter.View());
              var acquired := was.Of(user) < limiter.maxPerUser;
              && View() == OnAuthenticated(old(View()), user, acquired, cookieSession, expired)
              && limiter.View() == (if old(phase).Authenticating? && acquired
                                    then UserAcquired(was, user) else was)
    {
      if phase != Authenticating {
        return;
      }
      var acquired := limiter.TryAcquireUser(user);
      if !acquired {
        Close(TOO_MANY_CONNECTIONS, "tooManyConnections");
        return;
      }
      identity := Some(user);
      phase := Authenticated;
      var waiting := pending;
      pending := [];
      ghost var start := View();
      for i := 0 to |waiting|
        invariant limiter.View() == UserAcquired(old(limiter.View()), user)
        invariant View() == OnMessages(start, waiting[..i], cookieSession, expired)
      {
        ReceiveFrame(waiting[i], expired);
        MessagesInTwoParts(start, waiting[..i], [waiting[i]], cookieSession, expired);
        assert waiting[..i + 1] == waiting[..i] + [waiting[i]];
      }
      assert waiting[..|waiting|] == waiting;
    }

    method SocketClosed()
      modifies this, limiter
      ensures View() == OnSocketClosed(old(View()))
      ensures limiter.View() ==
              (if identity.Some? then UserReleased(old(limiter.View()), identity.value) else old(limiter.View()))
    {
      phase := Closed;
      if session.Some? {
        calls := calls + [OnClose];
      }
      if identity.Some? {
        limiter.ReleaseUser(identity.value);
      }
    }
  }
}
