/** What the Go client does on a connection, told without its handlers and in envelopes written out:
    which writes go through and what is read decide every act, the state and the error. */
module GoPlain {
  import opened Protocol
  import opened GoSession

  // ----- one envelope -----

  /** The n-th write: the envelope, or nothing if it fails. */
  function Sent(link: Link, n: nat, e: Outgoing): seq<Act> {
    if link.writeOk(n) then [Wrote(e)] else []
  }

  predicate Reads(unread: seq<Read>) { unread != [] && unread[0].Got? }

  function Rest(unread: seq<Read>): seq<Read> { if unread == [] then [] else unread[1..] }

  /** What an accepted CONFIGURE leads to after its acknowledgement: each update if the one before
      was acknowledged, and the worker if the last was. */
  function Installing(link: Link, n: nat, unread: seq<Read>): seq<Act> {
    if !link.writeOk(n) then []
    else
      [Wrote(Outgoing(Lifecycle, StateUpdate, None, Reports(ComponentState.Configured)))] +
      if !Reads(unread) || !link.writeOk(n + 1) then []
      else
        [Wrote(Outgoing(Lifecycle, StateUpdate, None, Reports(Running)))] +
        if Reads(Rest(unread)) then [Spawned] else []
  }

  /** What a connection does, the state it leaves and how it ends. */
  datatype Tale = Tale(acts: seq<Act>, state: ComponentState, failure: Option<Failure>)

  /** Where a message loop stands: its state, the writes and calls of on_configure it tried, and what
      is left to read. */
  datatype Place = Place(state: ComponentState, written: nat, asked: nat, unread: seq<Read>)

  predicate IsError(env: Incoming) { env.kind == MessageType.Error }

  function Asking(env: Incoming): Act {
    Called(OnConfigure(TextOr(env.payload, "data_stream_socket", ""), Topics(env.payload)))
  }

  /** The acts that one envelope leads to. */
  function Does(link: Link, p: Place, env: Incoming): seq<Act> {
    if env.kind == Heartbeat && env.command == Ping then
      [Called(OnPing)] + Sent(link, p.written, Outgoing(Heartbeat, Pong, Some(env.id), Beat(p.state)))
    else if env.kind == Config && env.command == Configure then
      [Asking(env)] +
      (match link.onConfigure(p.asked)
       case Some(text) =>
         Sent(link, p.written, Outgoing(MessageType.Error, RuntimeError, None, Fault("CONFIGURE_FAILED", text, true)))
       case None =>
         Sent(link, p.written, Outgoing(Control, Ack, Some(env.id), StatusOk)) +
         Installing(link, p.written + 1, p.unread))
    else if env.kind == Lifecycle && env.command == Command.Shutdown then
      Sent(link, p.written, Outgoing(Control, Ack, Some(env.id), StatusOk)) + Leaving(link, p.written + 1)
    else if IsError(env) then
      [Called(OnError(TextOr(env.payload, "code", ""), TextOr(env.payload, "message", "")))]
    else []
  }

  /** The call of on_shutdown and the last envelope. */
  function Leaving(link: Link, n: nat): seq<Act> {
    [Called(OnShutdown)] + Sent(link, n, Outgoing(Lifecycle, Command.Shutdown, None, Empty))
  }

  /** Where the loop stands after an envelope that does not end it. */
  function Onward(link: Link, p: Place, env: Incoming): Place {
    if env.kind == Heartbeat && env.command == Ping then p.(written := p.written + 1)
    else if env.kind == Config && env.command == Configure then
      var q := p.(asked := p.asked + 1);
      if link.onConfigure(p.asked).Some? then q.(written := p.written + 1)
      else if !link.writeOk(p.written + 1) then q.(written := p.written + 2)
      else if !Reads(p.unread) then
        q.(state := ComponentState.Configured, written := p.written + 2, unread := Rest(p.unread))
      else if !link.writeOk(p.written + 2) then
        q.(state := ComponentState.Configured, written := p.written + 3, unread := Rest(p.unread))
      else q.(state := Running, written := p.written + 3, unread := Rest(Rest(p.unread)))
    else p
  }

  /** Where a connection under way stands. */
  function At(g: Conn): Place { Place(g.me.state, g.written, g.asked, g.unread) }

  /** A handler does what its envelope leads to, and ends the loop on a SHUTDOWN, with nil, and on an
      error message that is not marked as recoverable. */
  predicate Told(link: Link, g: Conn, env: Incoming) {
    var h := Handle(link, g, env);
    && h.conn.acts == g.acts + Does(link, At(g), env)
    && h.conn.me == g.me.(state := h.conn.me.state)
    && if env.kind == Lifecycle && env.command == Command.Shutdown then
         h == Return(h.conn, None) && h.conn.me.state == ComponentState.Shutdown
       else
         && At(h.conn) == Onward(link, At(g), env)
         && if IsError(env) && !("recoverable" in env.payload && env.payload["recoverable"] == Bool(true))
            then h == Return(h.conn, Some(FatalMessage)) else h.Continue?
  }

  lemma SendTells(link: Link, g: Conn, env: Outgoing)
    ensures var step := Send(link, g, env);
      && step.conn.acts == g.acts + Sent(link, g.written, env) && step.conn.me == g.me
      && step.conn.written == g.written + 1 && step.conn.asked == g.asked && step.conn.unread == g.unread
  {
    assert g.acts + [] == g.acts;
  }

  lemma InstallTells(link: Link, g: Conn)
    ensures var c := Install(link, g).conn;
      var p := At(g);
      && c.acts == g.acts + Installing(link, g.written, g.unread)
      && c.me == g.me.(state := c.me.state) && c.asked == g.asked
      && At(c) ==
           if !link.writeOk(g.written) then p.(written := p.written + 1)
           else if !Reads(g.unread) then
             p.(state := ComponentState.Configured, written := p.written + 1, unread := Rest(p.unread))
           else if !link.writeOk(g.written + 1) then
             p.(state := ComponentState.Configured, written := p.written + 2, unread := Rest(p.unread))
           else p.(state := Running, written := p.written + 2, unread := Rest(Rest(p.unread)))
  {
    var a := Wrote(Outgoing(Lifecycle, StateUpdate, None, Reports(ComponentState.Configured)));
    var b := Wrote(Outgoing(Lifecycle, StateUpdate, None, Reports(Running)));
    assert g.acts + [] == g.acts && [a] + [] == [a] && [b] + [] == [b];
    Assoc(g.acts, [a], [b]);
    Assoc(g.acts, [a] + [b], [Spawned]);
    Assoc([a], [b], [Spawned]);
  }

  lemma PingTells(link: Link, g: Conn, env: Incoming)
    requires env.kind == Heartbeat
    ensures Told(link, g, env)
  {
    if env.command == Ping {
      SendTells(link, Did(g, Called(OnPing)), PongEnv(env.id, g.me.state));
      Assoc(g.acts, [Called(OnPing)], Sent(link, g.written, PongEnv(env.id, g.me.state)));
    } else {
      assert g.acts + [] == g.acts;
    }
    hide Send;
  }

  lemma RefusedTells(link: Link, g: Conn, env: Incoming)
    requires env.kind == Config && env.command == Configure && link.onConfigure(g.asked).Some?
    ensures Told(link, g, env)
  {
    var fail := ConfigureFailedEnv(link.onConfigure(g.asked).value);
    SendTells(link, Asked(g, env), fail);
    Assoc(g.acts, [Asking(env)], Sent(link, g.written, fail));
    hide Send, TextOr, Topics;
  }

  lemma AcceptedTells(link: Link, g: Conn, env: Incoming)
    requires env.kind == Config && env.command == Configure && link.onConfigure(g.asked).None?
    ensures Told(link, g, env)
  {
    var ack := AckEnv(env.id);
    var g1 := Send(link, Asked(g, env), ack).conn;
    SendTells(link, Asked(g, env), ack);
    InstallTells(link, g1);
    assert Handle(link, g, env) == Continue(Install(link, g1).conn) by { hide Install, Send; }
    assert Does(link, At(g), env) ==
      [Asking(env)] + (Sent(link, g.written, ack) + Installing(link, g.written + 1, g.unread));
    Assoc(g.acts, [Asking(env)], Sent(link, g.written, ack));
    Assoc(g.acts + [Asking(env)], Sent(link, g.written, ack), Installing(link, g.written + 1, g.unread));
    Assoc(g.acts, [Asking(env)], Sent(link, g.written, ack) + Installing(link, g.written + 1, g.unread));
    assert Asked(g, env).acts == g.acts + [Asking(env)] && At(Asked(g, env)) == At(g).(asked := g.asked + 1);
    hide Send, Install, Installing, Sent, Does, Handle, TextOr, Topics;
  }

  lemma FarewellTells(link: Link, g: Conn)
    ensures var c := Farewell(link, g);
      && c.acts == g.acts + Leaving(link, g.written)
      && c.me == g.me.(state := ComponentState.Shutdown)
  {
    SendTells(link, Did(g, Called(OnShutdown)), ShutdownEnv());
    Assoc(g.acts, [Called(OnShutdown)], Sent(link, g.written, ShutdownEnv()));
    hide Send;
  }

  lemma ShutdownTells(link: Link, g: Conn, env: Incoming)
    requires env.kind == Lifecycle
    ensures Told(link, g, env)
  {
    if env.command == Command.Shutdown {
      var g1 := Send(link, g, AckEnv(env.id)).conn;
      SendTells(link, g, AckEnv(env.id));
      FarewellTells(link, g1);
      Assoc(g.acts, Sent(link, g.written, AckEnv(env.id)), Leaving(link, g.written + 1));
      hide Send, Farewell, Leaving;
    } else {
      assert g.acts + [] == g.acts;
    }
  }

  lemma HandleTells(link: Link, g: Conn, env: Incoming)
    ensures Told(link, g, env)
  {
    match env.kind {
      case Heartbeat => PingTells(link, g, env);
      case Config =>
        if env.command != Configure {
          assert g.acts + [] == g.acts;
        } else if link.onConfigure(g.asked).Some? {
          RefusedTells(link, g, env);
        } else {
          AcceptedTells(link, g, env);
        }
      case Lifecycle => ShutdownTells(link, g, env);
      case Error =>
      case _ => assert g.acts + [] == g.acts;
    }
  }

  // ----- the message loop -----

  /** The tale of a message loop from one of its heads. */
  function Tell(link: Link, p: Place, head: nat): Tale
    decreases |p.unread|
  {
    if link.cancel.Some? && link.cancel.value <= head
    then Tale(Leaving(link, p.written), ComponentState.Shutdown, Some(ContextDone))
    else if p.unread == [] then Tale([], p.state, Some(RecvFailed(Eof)))
    else match p.unread[0]
      case Broken(f) => Tale([], p.state, Some(RecvFailed(f)))
      case Got(env) =>
        var q := p.(unread := p.unread[1..]);
        var acts := Does(link, q, env);
        if env.kind == Lifecycle && env.command == Command.Shutdown then Tale(acts, ComponentState.Shutdown, None)
        else if IsError(env) && !("recoverable" in env.payload && env.payload["recoverable"] == Bool(true))
        then Tale(acts, p.state, Some(FatalMessage))
        else
          var rest := Tell(link, Onward(link, q, env), head + 1);
          rest.(acts := acts + rest.acts)
  }

  /** A connection does what its tale says. */
  predicate IsTold(e: Ended, g: Conn, t: Tale) {
    && e.conn.acts == g.acts + t.acts
    && e.conn.me == g.me.(state := t.state)
    && e.failure == t.failure
  }

  lemma {:induction false} LoopIsTold(link: Link, g: Conn, head: nat)
    ensures IsTold(Loop(link, g, head), g, Tell(link, At(g), head))
    decreases |g.unread|
  {
    assert g.acts + [] == g.acts;
    if CancelledAt(link, head) {
      FarewellTells(link, g);
    } else if g.unread != [] && g.unread[0].Got? {
      var env := g.unread[0].env;
      HandleTells(link, Skip(g), env);
      HandleReads(link, Skip(g), env);
      assert At(Skip(g)) == At(g).(unread := g.unread[1..]);
      var h := Handle(link, Skip(g), env);
      hide Handle, Does, Onward;
      if h.Continue? {
        LoopIsTold(link, h.conn, head + 1);
        var acts := Does(link, At(Skip(g)), env);
        Assoc(g.acts, acts, Tell(link, At(h.conn), head + 1).acts);
      }
    }
  }

  // ----- a connection -----

  /** The member of a payload under a key, if there is one. */
  predicate IsMember(p: Payload, key: string, v: Option<Json>) {
    (key in p && v == Some(p[key])) || (key !in p && v == None)
  }

  /** REGISTER was sent and answered by REGISTERED. */
  predicate Answered(link: Link) {
    && link.opens && link.writeOk(0)
    && link.inbox != [] && link.inbox[0].Got? && link.inbox[0].env.command == Command.Registered
  }

  /** The tale of a connection that was answered by REGISTERED: two updates, each acknowledged, and
      then the message loop. */
  function TellGreeting(link: Link): Tale
    requires Answered(link)
  {
    var init := [Wrote(Outgoing(Lifecycle, StateUpdate, None, Reports(Initializing)))];
    var ready := [Wrote(Outgoing(Lifecycle, StateUpdate, None, Reports(Ready)))];
    if !link.writeOk(1) then Tale([], ComponentState.Registered, Some(SendFailed))
    else if |link.inbox| < 2 then Tale(init, Initializing, Some(RecvFailed(Eof)))
    else if link.inbox[1].Broken? then Tale(init, Initializing, Some(RecvFailed(link.inbox[1].fault)))
    else if !link.writeOk(2) then Tale(init, Initializing, Some(SendFailed))
    else if |link.inbox| < 3 then Tale(init + ready, Ready, Some(RecvFailed(Eof)))
    else if link.inbox[2].Broken? then Tale(init + ready, Ready, Some(RecvFailed(link.inbox[2].fault)))
    else
      var t := Tell(link, Place(Ready, 3, 0, link.inbox[3..]), 0);
      t.(acts := init + ready + t.acts)
  }

  /** The tale of a connection of a client with a configured id. */
  function TellSession(configId: string, before: ComponentState, link: Link): Tale {
    if !link.opens then Tale([], before, Some(ConnectFailed))
    else if !link.writeOk(0) then Tale([], before, Some(SendFailed))
    else
      var register := [Wrote(Outgoing(Lifecycle, Command.Register, None, Identity(Some(configId))))];
      if link.inbox == [] then Tale(register, before, Some(RecvFailed(Eof)))
      else match link.inbox[0]
        case Broken(f) => Tale(register, before, Some(RecvFailed(f)))
        case Got(resp) =>
          if resp.command != Command.Registered then Tale(register, before, Some(Refused(resp.command)))
          else
            var t := TellGreeting(link);
            t.(acts := register + t.acts)
  }

  /** The rest of a connection, once it was answered. */
  function Greeted(link: Link, g: Conn): Ended {
    match Greet(link, g)
    case Err(c, failure) => Ended(c, Some(failure))
    case Fine(c) => Loop(link, c, 0)
  }

  lemma GreetTells(link: Link, g: Conn)
    requires Answered(link) && g.written == 1 && g.asked == 0 && g.unread == link.inbox[1..]
    requires g.me.state == ComponentState.Registered
    ensures IsTold(Greeted(link, g), g, TellGreeting(link))
  {
    var init := Wrote(Outgoing(Lifecycle, StateUpdate, None, Reports(Initializing)));
    var ready := Wrote(Outgoing(Lifecycle, StateUpdate, None, Reports(Ready)));
    assert g.acts + [] == g.acts;
    Assoc(g.acts, [init], [ready]);
    var step := Greet(link, g);
    if step.Fine? {
      assert link.inbox[1..][1..] == link.inbox[2..] && link.inbox[2..][1..] == link.inbox[3..];
      assert step.conn.acts == g.acts + ([init] + [ready]);
      assert At(step.conn) == Place(Ready, 3, 0, link.inbox[3..]) && step.conn.me == g.me.(state := Ready);
      hide Greet, Loop, Tell;
      LoopIsTold(link, step.conn, 0);
      Assoc(g.acts, [init] + [ready], Tell(link, At(step.conn), 0).acts);
    }
  }

  /** A whole connection does what its tale says. Its ids are afterwards the members of its REGISTERED,
      each under its own key, or those before if it got none. */
  lemma SessionIsTold(configId: string, m: Machine, link: Link)
    ensures var e, t := Session(configId, m, link), TellSession(configId, m.state, link);
      && e.conn.acts == t.acts && e.conn.me.state == t.state && e.failure == t.failure
      && (if Answered(link) then
            && IsMember(link.inbox[0].env.payload, "component_id", e.conn.me.componentId)
            && IsMember(link.inbox[0].env.payload, "session_id", e.conn.me.sessionId)
          else e.conn.me.componentId == m.componentId && e.conn.me.sessionId == m.sessionId)
  {
    var register := Wrote(Outgoing(Lifecycle, Command.Register, None, Identity(Some(configId))));
    assert [] + [register] == [register];
    if Answered(link) {
      var g := Adopt(Conn(m, [register], 1, 0, link.inbox[1..]), link.inbox[0].env.payload);
      GreetTells(link, g);
      hide Greet, Loop, TellGreeting;
    }
  }

  /** The first envelope of a connection is a REGISTER with the configured id, empty or not. */
  lemma FirstEnvelope(configId: string, m: Machine, link: Link)
    ensures var w := Wire(Session(configId, m, link).conn.acts);
      && (w == [] <==> !link.opens || !link.writeOk(0))
      && (w != [] ==> w[0] == Outgoing(Lifecycle, Command.Register, None, Identity(Some(configId))))
  {
    SessionIsTold(configId, m, link);
    hide Session, TellGreeting;
    assert Wire([]) == [];
  }

  /** Nothing but another first envelope than REGISTERED makes a connection end as refused. */
  lemma RefusedJustSo(configId: string, m: Machine, link: Link, c: Command)
    ensures Session(configId, m, link).failure == Some(Refused(c)) <==>
      && link.opens && link.writeOk(0)
      && link.inbox != [] && link.inbox[0].Got? && link.inbox[0].env.command == c && c != Command.Registered
  {
    SessionIsTold(configId, m, link);
    hide Session, Tell;
    if Answered(link) && |link.inbox| >= 3 {
      TellRefusesNone(link, Place(Ready, 3, 0, link.inbox[3..]), 0);
    }
  }

  lemma {:induction false} TellRefusesNone(link: Link, p: Place, head: nat)
    ensures var f := Tell(link, p, head).failure;
      f.Some? ==> !f.value.Refused? && !f.value.ConnectFailed? && !f.value.SendFailed?
    decreases |p.unread|
  {
    if p.unread != [] && p.unread[0].Got? {
      hide Does;
      TellRefusesNone(link, Onward(link, p.(unread := p.unread[1..]), p.unread[0].env), head + 1);
    }
  }

  // ----- error messages and topics -----

  /** An envelope of type ERROR calls on_error with its code and its message, each empty if there is
      none. The loop goes on just when "recoverable" is there and is true; else it ends as fatal. */
  lemma ErrorMessage(link: Link, g: Conn, head: nat)
    requires !CancelledAt(link, head) && g.unread != [] && g.unread[0].Got?
    requires g.unread[0].env.kind == MessageType.Error
    ensures var p := g.unread[0].env.payload;
      exists code, text | TextUnder(p, "code", "", code) && TextUnder(p, "message", "", text) ::
        var g' := g.(acts := g.acts + [Called(OnError(code, text))], unread := g.unread[1..]);
        Loop(link, g, head) ==
          if "recoverable" in p && p["recoverable"] == Bool(true) then Loop(link, g', head + 1)
          else Ended(g', Some(FatalMessage))
  {
    var p := g.unread[0].env.payload;
    var code, text := TextOr(p, "code", ""), TextOr(p, "message", "");
    TextOrUnder(p, "code", "", code);
    TextOrUnder(p, "message", "", text);
    hide TextOr, TextUnder;
  }

  /** No flag, or any other value than true, is fatal. */
  lemma UnmarkedErrorIsFatal(link: Link, g: Conn, head: nat)
    requires !CancelledAt(link, head) && g.unread != [] && g.unread[0].Got?
    requires g.unread[0].env.kind == MessageType.Error
    requires var p := g.unread[0].env.payload; "recoverable" !in p || p["recoverable"] != Bool(true)
    ensures Loop(link, g, head).failure == Some(FatalMessage)
  {
    ErrorMessage(link, g, head);
    hide Loop;
  }

  /** A CONFIGURE calls on_configure with the socket's path, or nothing, and the strings of the list
      of topics, in order. */
  lemma ConfigureCalls(link: Link, g: Conn, env: Incoming)
    requires env.kind == Config && env.command == Configure
    ensures exists path, topics
      | TextUnder(env.payload, "data_stream_socket", "", path) && AreTopics(env.payload, topics) ::
      g.acts + [Called(OnConfigure(path, topics))] <= Handle(link, g, env).conn.acts
  {
    var path, topics := TextOr(env.payload, "data_stream_socket", ""), Topics(env.payload);
    TextOrUnder(env.payload, "data_stream_socket", "", path);
    TopicsAre(env.payload);
    HandleTells(link, g, env);
    var rest := Does(link, At(g), env)[1..];
    assert Does(link, At(g), env) == [Asking(env)] + rest;
    hide Handle, Does, TextOr, Topics, TextUnder, AreTopics;
    Assoc(g.acts, [Asking(env)], rest);
  }
}
