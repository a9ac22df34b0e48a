/** One connection of the Go client as a transducer. Unlike the Rust client it reads an envelope
    after each of its state updates, and goes on after most failures. */
module GoSession {
  import opened Protocol

  /** The fields of Component; the ids are the payload values that the code renders with %v. */
  datatype Machine = Machine(state: ComponentState, componentId: Option<Json>, sessionId: Option<Json>)

  datatype Conn = Conn(me: Machine, acts: seq<Act>, written: nat, asked: nat, unread: seq<Read>)

  datatype Failure =
    | ConnectFailed
    | SendFailed
    | RecvFailed(fault: ReadFault)
    | Refused(got: Command)      // RegistrationError
    | FatalMessage
    | ContextDone

  /** A step that may fail; a failed step still leaves a connection behind. */
  datatype Step = Fine(conn: Conn) | Err(conn: Conn, failure: Failure) {
    predicate IsFailure() { Err? }
    function PropagateFailure(): Step requires Err? { this }
    function Extract(): Conn requires Fine? { conn }
  }

  function Did(g: Conn, a: Act): Conn { g.(acts := g.acts + [a]) }

  function Become(g: Conn, s: ComponentState): Conn { g.(me := g.me.(state := s)) }

  function Send(link: Link, g: Conn, env: Outgoing): Step {
    var tried := g.(written := g.written + 1);
    if link.writeOk(g.written) then Fine(Did(tried, Wrote(env))) else Err(tried, SendFailed)
  }

  function SendState(link: Link, g: Conn, s: ComponentState): Step {
    var g :- Send(link, g, StateEnv(s));
    Fine(Become(g, s))
  }

  function Head(unread: seq<Read>): Read { if unread == [] then Broken(Eof) else unread[0] }

  function Skip(g: Conn): Conn {
    if g.unread == [] then g else g.(unread := g.unread[1..])
  }

  /** Reads an envelope, any envelope, as the acknowledgement. */
  function RecvAck(g: Conn): Step {
    match Head(g.unread)
    case Got(_) => Fine(Skip(g))
    case Broken(f) => Err(Skip(g), RecvFailed(f))
  }

  function Member(p: Payload, key: string): Option<Json> {
    if key in p then Some(p[key]) else None
  }

  function Adopt(g: Conn, p: Payload): Conn {
    g.(me := Machine(ComponentState.Registered, Member(p, "component_id"), Member(p, "session_id")))
  }

  function Register(configId: string, link: Link, g: Conn): Step {
    var g :- Send(link, g, RegisterEnv(Some(configId)));
    match Head(g.unread)
    case Broken(f) => Err(Skip(g), RecvFailed(f))
    case Got(resp) =>
      if resp.command != Command.Registered then Err(Skip(g), Refused(resp.command))
      else Greet(link, Adopt(Skip(g), resp.payload))
  }

  /** The two acknowledged state updates after REGISTERED. */
  function Greet(link: Link, g: Conn): Step {
    var g :- SendState(link, g, Initializing);
    var g :- RecvAck(g);
    var g :- SendState(link, g, Ready);
    RecvAck(g)
  }

  function OnHeartbeat(link: Link, g: Conn, env: Incoming): Conn {
    if env.command != Ping then g
    else Send(link, Did(g, Called(OnPing)), PongEnv(env.id, g.me.state)).conn
  }

  /** The two acknowledged state updates and the worker of an accepted CONFIGURE. */
  function Install(link: Link, g: Conn): Step {
    var g :- SendState(link, g, ComponentState.Configured);
    var g :- RecvAck(g);
    var g :- SendState(link, g, Running);
    var g :- RecvAck(g);
    Fine(Did(g, Spawned))
  }

  function OnConfig(link: Link, g: Conn, env: Incoming): Conn {
    if env.command != Configure then g
    else
      match link.onConfigure(g.asked)
      case Some(text) => Send(link, Asked(g, env), ConfigureFailedEnv(text)).conn
      case None => Install(link, Send(link, Asked(g, env), AckEnv(env.id)).conn).conn
  }

  /** The connection once on_configure was called. */
  function Asked(g: Conn, env: Incoming): Conn {
    var ask := Called(OnConfigure(TextOr(env.payload, "data_stream_socket", ""), Topics(env.payload)));
    Did(g, ask).(asked := g.asked + 1)
  }

  function Farewell(link: Link, g: Conn): Conn {
    Become(Send(link, Did(g, Called(OnShutdown)), ShutdownEnv()).conn, ComponentState.Shutdown)
  }

  function OnErrorMessage(g: Conn, env: Incoming): Conn {
    Did(g, Called(OnError(TextOr(env.payload, "code", ""), TextOr(env.payload, "message", ""))))
  }

  /** A dispatched envelope: what it leaves, and whether the loop goes on or returns. */
  datatype Handled = Continue(conn: Conn) | Return(conn: Conn, failure: Option<Failure>)

  function Handle(link: Link, g: Conn, env: Incoming): Handled {
    match env.kind
    case Heartbeat => Continue(OnHeartbeat(link, g, env))
    case Config => Continue(OnConfig(link, g, env))
    case Lifecycle =>
      if env.command == Command.Shutdown
      then Return(Farewell(link, Send(link, g, AckEnv(env.id)).conn), None)
      else Continue(g)
    case Error =>
      if Recoverable(env.payload) then Continue(OnErrorMessage(g, env))
      else Return(OnErrorMessage(g, env), Some(FatalMessage))
    case Control => Continue(g)
    case Data => Continue(g)
  }

  lemma HandleReads(link: Link, g: Conn, env: Incoming)
    ensures |Handle(link, g, env).conn.unread| <= |g.unread|
  {
  }

  /** Whether the context is cancelled at a head of the message loop. */
  predicate CancelledAt(link: Link, head: nat) { link.cancel.Some? && link.cancel.value <= head }

  /** How messageLoop returns; nil is None. */
  datatype Ended = Ended(conn: Conn, failure: Option<Failure>)

  /** The message loop from one of its heads. */
  function Loop(link: Link, g: Conn, head: nat): Ended
    decreases |g.unread|
  {
    if CancelledAt(link, head) then Ended(Farewell(link, g), Some(ContextDone))
    else if g.unread == [] then Ended(g, Some(RecvFailed(Eof)))
    else match g.unread[0]
      case Broken(f) => Ended(Skip(g), Some(RecvFailed(f)))
      case Got(env) =>
        HandleReads(link, Skip(g), env);
        match Handle(link, Skip(g), env)
        case Return(g', failure) => Ended(g', failure)
        case Continue(g') => Loop(link, g', head + 1)
  }

  function Start(m: Machine, link: Link): Conn { Conn(m, [], 0, 0, link.inbox) }

  /** runOnce on one link. */
  function Session(configId: string, m: Machine, link: Link): Ended {
    if !link.opens then Ended(Start(m, link), Some(ConnectFailed))
    else match Register(configId, link, Start(m, link))
      case Err(g, failure) => Ended(g, Some(failure))
      case Fine(g) => Loop(link, g, 0)
  }
}
