/** The Go client's State and workers on one connection when only its own loop sends, whichever
    writes and acknowledgements fail. */
module GoState {
  import opened Protocol
  import opened GoSession

  function LastReportedBy(g: Conn): Option<ComponentState> { LastReported(Wire(g.acts)) }

  /** State is what the daemon was last told, and no more workers run than RUNNING updates were
      written. */
  predicate Coherent(g: Conn) {
    && LastReportedBy(g) == Some(g.me.state)
    && (g.me.state == Ready || g.me.state == ComponentState.Configured || g.me.state == Running)
    && Spawns(g.acts) <= Times(Wire(g.acts), Outgoing(Lifecycle, StateUpdate, None, Reports(Running)))
  }

  /** Any act but a state update leaves the last report alone. */
  lemma DidCoherent(g: Conn, a: Act)
    requires Coherent(g) && a != Spawned
    requires a.Wrote? ==> a.env.command != StateUpdate
    ensures Coherent(Did(g, a))
  {
    DidReports(g, a);
    DidCounts(g, a);
  }

  lemma DidReports(g: Conn, a: Act)
    ensures LastReportedBy(Did(g, a)) ==
      if a.Wrote? && a.env.command == StateUpdate && a.env.body.Reports? then Some(a.env.body.state)
      else LastReportedBy(g)
  {
    WireConcat(g.acts, [a]);
    assert [a][1..] == [];
    if a.Wrote? {
      var w := Wire(g.acts) + [a.env];
      assert w[..|w| - 1] == Wire(g.acts);
    } else {
      assert Wire(g.acts) + [] == Wire(g.acts);
    }
  }

  lemma DidCounts(g: Conn, a: Act)
    ensures Spawns(Did(g, a).acts) == Spawns(g.acts) + (if a == Spawned then 1 else 0)
    ensures Times(Wire(Did(g, a).acts), StateEnv(Running)) ==
      Times(Wire(g.acts), StateEnv(Running)) + (if a == Wrote(StateEnv(Running)) then 1 else 0)
  {
    SpawnsConcat(g.acts, [a]);
    WireConcat(g.acts, [a]);
    TimesConcat(Wire(g.acts), Wire([a]), StateEnv(Running));
    assert [a][1..] == [] && Spawns([]) == 0 && Wire([]) == [];
    if a.Wrote? {
      assert Wire([a]) == [a.env] && [a.env][1..] == [];
    }
  }

  lemma SendCoherent(link: Link, g: Conn, env: Outgoing)
    requires Coherent(g) && env.command != StateUpdate
    ensures Coherent(Send(link, g, env).conn) && Send(link, g, env).conn.me == g.me
  {
    DidCoherent(g, Wrote(env));
  }

  lemma SendStateCoherent(link: Link, g: Conn, s: ComponentState)
    requires Coherent(g) && (s == ComponentState.Configured || s == Running)
    ensures Coherent(SendState(link, g, s).conn)
    ensures SendState(link, g, s).Fine? ==>
      var c := SendState(link, g, s).conn;
      c.me.state == s && Spawns(c.acts) == Spawns(g.acts)
      && Times(Wire(c.acts), StateEnv(Running)) ==
           Times(Wire(g.acts), StateEnv(Running)) + (if s == Running then 1 else 0)
  {
    DidReports(g, Wrote(StateEnv(s)));
    DidCounts(g, Wrote(StateEnv(s)));
  }

  lemma InstallCoherent(link: Link, g: Conn)
    requires Coherent(g)
    ensures Coherent(Install(link, g).conn)
  {
    SendStateCoherent(link, g, ComponentState.Configured);
    hide SendState, LastReportedBy, Spawns, Wire, Times;
    var c1 := SendState(link, g, ComponentState.Configured);
    if c1.Fine? {
      var c2 := RecvAck(c1.conn);
      if c2.Fine? {
        assert Coherent(c2.conn) by { SameActs(c1.conn, c2.conn); }
        SendStateCoherent(link, c2.conn, Running);
        var c3 := SendState(link, c2.conn, Running);
        if c3.Fine? {
          SameActs(c3.conn, RecvAck(c3.conn).conn);
          DidReports(RecvAck(c3.conn).conn, Spawned);
          DidCounts(RecvAck(c3.conn).conn, Spawned);
        }
      } else {
        SameActs(c1.conn, c2.conn);
      }
    }
  }

  lemma SameActs(g: Conn, h: Conn)
    requires Coherent(g) && h.acts == g.acts && h.me == g.me
    ensures Coherent(h)
  {
  }

  lemma HandleCoherent(link: Link, g: Conn, env: Incoming)
    requires Coherent(g)
    ensures var h := Handle(link, g, env);
      && (h.Continue? ==> Coherent(h.conn))
      && (IsShutdown(env) ==> h == Return(h.conn, None) && h.conn.me.state == ComponentState.Shutdown)
      && (h.Return? && !IsShutdown(env) ==> h.failure == Some(FatalMessage) && Coherent(h.conn))
  {
    if env.kind == Heartbeat {
      DidCoherent(g, Called(OnPing));
      SendCoherent(link, Did(g, Called(OnPing)), PongEnv(env.id, g.me.state));
    } else if env.kind == MessageType.Error {
      DidCoherent(g, Called(OnError(TextOr(env.payload, "code", ""), TextOr(env.payload, "message", ""))));
    } else if IsConfigure(env) {
      ConfigureCoherent(link, g, env);
    }
    hide Coherent, OnConfig, Install;
  }

  lemma ConfigureCoherent(link: Link, g: Conn, env: Incoming)
    requires Coherent(g) && env.command == Configure
    ensures Coherent(OnConfig(link, g, env))
  {
    var g0 := Asked(g, env);
    AskedCoherent(g, env);
    hide Coherent, Install;
    match link.onConfigure(g.asked)
    case Some(text) =>
      SendCoherent(link, g0, ConfigureFailedEnv(text));
    case None =>
      SendCoherent(link, g0, AckEnv(env.id));
      InstallCoherent(link, Send(link, g0, AckEnv(env.id)).conn);
      hide Send;
  }

  lemma AskedCoherent(g: Conn, env: Incoming)
    requires Coherent(g)
    ensures Coherent(Asked(g, env))
  {
    var ask := Called(OnConfigure(TextOr(env.payload, "data_stream_socket", ""), Topics(env.payload)));
    DidCoherent(g, ask);
    SameActs(Did(g, ask), Asked(g, env));
  }

  /** The envelopes that the Go loop hands to its handlers; those read as acknowledgements are not
      among them. */
  function Dispatched(link: Link, g: Conn, head: nat): seq<Incoming>
    decreases |g.unread|
  {
    if CancelledAt(link, head) || g.unread == [] || g.unread[0].Broken? then []
    else
      var env := g.unread[0].env;
      HandleReads(link, Skip(g), env);
      [env] +
      (match Handle(link, Skip(g), env)
       case Return(_, _) => []
       case Continue(g') => Dispatched(link, g', head + 1))
  }

  /** How a message loop ends. Without a SHUTDOWN or a cancelled context, State is what the daemon
      was last told and is not SHUTDOWN; with either it is SHUTDOWN, whatever was written. nil is
      returned just for a SHUTDOWN. */
  predicate EndsWell(e: Ended, dispatched: seq<Incoming>) {
    && (e.failure == None <==> exists d <- dispatched :: IsShutdown(d))
    && (e.conn.me.state == ComponentState.Shutdown <==> e.failure == None || e.failure == Some(ContextDone))
    && (e.failure != None && e.failure != Some(ContextDone) ==> Coherent(e.conn))
  }

  /** Once registered, with any writes and reads failing, the loop ends well, even if neither the
      acknowledgement of a SHUTDOWN nor the final SHUTDOWN can be written. */
  lemma {:induction false} LoopCoherent(link: Link, g: Conn, head: nat)
    requires Coherent(g)
    ensures EndsWell(Loop(link, g, head), Dispatched(link, g, head))
    decreases |g.unread|
  {
    SameActs(g, Skip(g));
    if !CancelledAt(link, head) && g.unread != [] && g.unread[0].Got? {
      var env := g.unread[0].env;
      HandleCoherent(link, Skip(g), env);
      HandleReads(link, Skip(g), env);
      hide Handle, LastReportedBy, Spawns, Wire, Times;
      var h := Handle(link, Skip(g), env);
      assert env in Dispatched(link, g, head);
      if h.Continue? {
        LoopCoherent(link, h.conn, head + 1);
        var rest := Dispatched(link, h.conn, head + 1);
        assert Dispatched(link, g, head) == [env] + rest;
        assert forall d <- Dispatched(link, g, head) :: d == env || d in rest;
        assert forall d <- rest :: d in Dispatched(link, g, head);
      } else {
        assert Dispatched(link, g, head) == [env];
      }
    }
  }

  /** Registration that succeeds leaves a coherent connection, whatever was stored before. */
  lemma RegisterCoherent(configId: string, m: Machine, link: Link)
    ensures var step := GoSession.Register(configId, link, Start(m, link));
      step.Fine? ==> Coherent(step.conn)
  {
    var step := GoSession.Register(configId, link, Start(m, link));
    if step.Fine? {
      var r, i, y := RegisterEnv(Some(configId)), StateEnv(Initializing), StateEnv(Ready);
      assert step.conn.acts == [Wrote(r), Wrote(i), Wrote(y)] by { assert [] + [Wrote(r)] == [Wrote(r)]; }
      hide GoSession.Register, GoSession.Greet;
      GreetedWire(r, i, y);
      NoSpawns(step.conn.acts);
    }
  }

  /** A whole connection that gets past registration, from any stored fields. */
  lemma SessionCoherent(configId: string, m: Machine, link: Link)
    requires link.opens && GoSession.Register(configId, link, Start(m, link)).Fine?
    ensures var g := GoSession.Register(configId, link, Start(m, link)).conn;
      EndsWell(Session(configId, m, link), Dispatched(link, g, 0))
  {
    RegisterCoherent(configId, m, link);
    LoopCoherent(link, GoSession.Register(configId, link, Start(m, link)).conn, 0);
    hide GoSession.Register, Loop, Coherent;
  }

  lemma GreetedWire(r: Outgoing, i: Outgoing, y: Outgoing)
    ensures Wire([Wrote(r), Wrote(i), Wrote(y)]) == [r, i, y]
  {
    ConsWire(r, [Wrote(i), Wrote(y)]);
    ConsWire(i, [Wrote(y)]);
    ConsWire(y, []);
    assert [Wrote(r), Wrote(i), Wrote(y)] == [Wrote(r)] + [Wrote(i), Wrote(y)];
    assert [Wrote(i), Wrote(y)] == [Wrote(i)] + [Wrote(y)];
    assert [Wrote(y)] == [Wrote(y)] + [];
  }

  lemma ConsWire(e: Outgoing, rest: seq<Act>)
    ensures Wire([Wrote(e)] + rest) == [e] + Wire(rest)
  {
    ConsTail(Wrote(e), rest);
  }
}
