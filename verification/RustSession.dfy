/** One connection of the Rust client as a transducer: what it has read decides what it does. */
module RustSession {
  import opened Protocol

  datatype Why = Closed | FatalError | ReconnectDisabled | MaxAttempts(count: nat)

  datatype AegisError =
    | Connection(why: Why)
    | Registration(got: Command)
    | Io
    | BadEnvelope
    | Timeout

  function Raise(f: ReadFault): AegisError {
    match f
    case Eof => Connection(Closed)
    case IoFault => Io
    case BadJson => BadEnvelope
    case Silence => Timeout
  }

  /** How a connection ends: an Ok return, an error, or a panic. */
  datatype Outcome = Clean | Failed(error: AegisError) | Panicked

  /** The fields of Component that outlive a connection. */
  datatype Machine = Machine(state: ComponentState, componentId: string, sessionId: string)

  /** A connection under way: the component's fields, what was done on this connection so far,
      and how many writes and calls of on_configure it tried. */
  datatype Conn = Conn(me: Machine, acts: seq<Act>, written: nat, asked: nat)

  datatype Ended = Ended(conn: Conn, outcome: Outcome)

  /** A handler either lets the connection proceed or ends it. */
  datatype Step = Proceed(conn: Conn) | Halt(conn: Conn, outcome: Outcome) {
    predicate IsFailure() { Halt? }
    function PropagateFailure(): Step requires Halt? { this }
    function Extract(): Conn requires Proceed? { conn }
  }

  function Did(c: Conn, a: Act): Conn { c.(acts := c.acts + [a]) }

  function Become(c: Conn, s: ComponentState): Conn { c.(me := c.me.(state := s)) }

  function Write(link: Link, c: Conn, env: Outgoing): Step {
    var tried := c.(written := c.written + 1);
    if link.writeOk(c.written) then Proceed(Did(tried, Wrote(env))) else Halt(tried, Failed(Io))
  }

  function SendState(link: Link, c: Conn, s: ComponentState): Step {
    var c :- Write(link, c, StateEnv(s));
    Proceed(Become(c, s))
  }

  // ----- registration -----

  /** The id that REGISTER offers: the stored one, else the one from the process environment. */
  function Offer(envId: string, stored: string): Option<string> {
    var id := if stored != "" then stored else envId;
    if id != "" then Some(id) else None
  }

  function Adopt(c: Conn, p: Payload): Step {
    if "component_id" !in p then Halt(c, Panicked)
    else
      var c := c.(me := c.me.(componentId := TextOr(p, "component_id", "")));
      if "session_id" !in p then Halt(c, Panicked)
      else
        var c := c.(me := c.me.(sessionId := TextOr(p, "session_id", "")));
        Proceed(Become(c, ComponentState.Registered))
  }

  /** The first read of a connection, which must be REGISTERED. */
  function Await(link: Link): Read {
    if link.inbox == [] then Broken(Eof) else link.inbox[0]
  }

  function Register(envId: string, link: Link, c: Conn): Step {
    var c :- Write(link, c, RegisterEnv(Offer(envId, c.me.componentId)));
    match Await(link)
    case Broken(f) => Halt(c, Failed(Raise(f)))
    case Got(resp) =>
      if resp.command != Command.Registered then Halt(c, Failed(Registration(resp.command)))
      else
        var c :- Adopt(c, resp.payload);
        Greet(link, c)
  }

  /** The two state updates after REGISTERED. */
  function Greet(link: Link, c: Conn): Step {
    var c :- SendState(link, c, Initializing);
    SendState(link, c, Ready)
  }

  // ----- the message loop -----

  function OnHeartbeat(link: Link, c: Conn, env: Incoming): Step {
    if env.command != Ping then Proceed(c)
    else Write(link, Did(c, Called(OnPing)), PongEnv(env.id, c.me.state))
  }

  function OnConfig(link: Link, c: Conn, env: Incoming): Step {
    if env.command != Configure then Proceed(c)
    else
      var verdict := link.onConfigure(c.asked);
      var path := TextOr(env.payload, "data_stream_socket", "");
      var c := Did(c, Called(OnConfigure(path, Topics(env.payload)))).(asked := c.asked + 1);
      match verdict
      case Some(text) => Write(link, c, ConfigureFailedEnv(text))
      case None => Install(link, c, env.id)
  }

  /** The acknowledgement, the two state updates and the worker of an accepted CONFIGURE. */
  function Install(link: Link, c: Conn, id: string): Step {
    var c :- Write(link, c, AckEnv(id));
    var c :- SendState(link, c, ComponentState.Configured);
    var c :- SendState(link, c, Running);
    Proceed(Did(c, Spawned))
  }

  function OnLifecycle(link: Link, c: Conn, env: Incoming): Step {
    match env.command
    case Reborn => Write(link, Did(c, Called(OnReborn)), AckEnv(env.id))
    case Shutdown =>
      var c :- Write(link, Did(c, Cancelled), AckEnv(env.id));
      Halt(Become(Did(c, Called(OnShutdown)), ComponentState.Shutdown), Clean)
    case _ => Proceed(c)
  }

  function OnErrorMessage(c: Conn, env: Incoming): Step {
    var code := TextOr(env.payload, "code", "UNKNOWN");
    var text := TextOr(env.payload, "message", "");
    var c := Did(c, Called(OnError(code, text)));
    if Recoverable(env.payload) then Proceed(c) else Halt(c, Failed(Connection(FatalError)))
  }

  function Handle(link: Link, c: Conn, env: Incoming): Step {
    match env.kind
    case Heartbeat => OnHeartbeat(link, c, env)
    case Config => OnConfig(link, c, env)
    case Lifecycle => OnLifecycle(link, c, env)
    case Error => OnErrorMessage(c, env)
    case Control => Proceed(c)
    case Data => Proceed(c)
  }

  function Loop(link: Link, inbox: seq<Read>, c: Conn): Ended {
    if inbox == [] then Ended(c, Failed(Raise(Eof)))
    else match inbox[0]
      case Broken(f) => Ended(c, Failed(Raise(f)))
      case Got(env) =>
        match Handle(link, c, env)
        case Halt(c', outcome) => Ended(c', outcome)
        case Proceed(c') => Loop(link, inbox[1..], c')
  }

  function Start(m: Machine): Conn { Conn(m, [], 0, 0) }

  function Tail(inbox: seq<Read>): seq<Read> { if inbox == [] then [] else inbox[1..] }

  /** run_once on one link. */
  function Session(envId: string, m: Machine, link: Link): Ended {
    if !link.opens then Ended(Start(m), Failed(Io))
    else match Register(envId, link, Start(m))
      case Halt(c, outcome) => Ended(c, outcome)
      case Proceed(c) => Loop(link, Tail(link.inbox), c)
  }
}
