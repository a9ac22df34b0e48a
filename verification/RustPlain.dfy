/** What the Rust client does, told of the fields of envelopes and of what is read: which errors end
    a connection, what the callbacks are given, and which state a connection leaves. */
module RustPlain {
  import opened Protocol
  import opened RustSession
  import opened RustTrace
  import opened RustRun
  import opened RustEnding

  // ----- how a connection ends -----

  /** The error of a read that fails. */
  predicate ErrorOfRead(f: ReadFault, o: Outcome) {
    && (f == Eof ==> o == Failed(Connection(Closed)))
    && (f == IoFault ==> o == Failed(AegisError.Io))
    && (f == BadJson ==> o == Failed(BadEnvelope))
    && (f == Silence ==> o == Failed(Timeout))
  }

  lemma RaiseIs(f: ReadFault)
    ensures ErrorOfRead(f, Failed(Raise(f)))
  {
  }

  /** An envelope that ends a connection: a SHUTDOWN, or an error that does not say it can be
      recovered from. */
  predicate Final(env: Incoming) {
    || (env.kind == Lifecycle && env.command == Command.Shutdown)
    || (env.kind == MessageType.Error
        && !("recoverable" in env.payload && env.payload["recoverable"] == Bool(true)))
  }

  /** What the read after the handled envelopes gives. */
  function ReadAfter(inbox: seq<Read>, handled: seq<Incoming>): Read {
    if |handled| < |inbox| then inbox[|handled|] else Broken(Eof)
  }

  /** How a message loop ends that has handled some envelopes of its input. The last is the first that
      is final, if any is. After a SHUTDOWN the loop is clean, after an error it fails as fatal, and
      otherwise as the next read fails; a failing write alone makes it fail on I/O instead. */
  predicate EndsSo(inbox: seq<Read>, handled: seq<Incoming>, o: Outcome) {
    && |handled| <= |inbox|
    && (forall k | 0 <= k < |handled| :: inbox[k] == Got(handled[k]))
    && (forall k | 0 <= k < |handled| - 1 :: !Final(handled[k]))
    && (o == Failed(AegisError.Io) ||
          if handled != [] && Final(handled[|handled| - 1]) then
            o == if handled[|handled| - 1].kind == Lifecycle then Clean else Failed(Connection(FatalError))
          else
            var next := ReadAfter(inbox, handled);
            next.Broken? && ErrorOfRead(next.fault, o))
  }

  lemma EndsSoCons(inbox: seq<Read>, handled: seq<Incoming>, o: Outcome)
    requires inbox != [] && inbox[0].Got? && !Final(inbox[0].env) && EndsSo(inbox[1..], handled, o)
    ensures EndsSo(inbox, [inbox[0].env] + handled, o)
  {
    var all := [inbox[0].env] + handled;
    assert forall k | 1 <= k < |all| :: all[k] == handled[k - 1] && inbox[k] == inbox[1..][k - 1];
    assert handled != [] ==> all[|all| - 1] == handled[|handled| - 1];
    assert ReadAfter(inbox, all) == ReadAfter(inbox[1..], handled);
  }

  lemma HandleEnds(link: Link, c: Conn, env: Incoming)
    ensures var step := Handle(link, c, env);
      && (step.Halt? && step.outcome != Failed(AegisError.Io) ==>
            && Final(env)
            && step.outcome == (if env.kind == Lifecycle then Clean else Failed(Connection(FatalError))))
      && (Final(env) ==> step.Halt?)
  {
  }

  lemma {:induction false} LoopEnds(link: Link, inbox: seq<Read>, c: Conn)
    ensures EndsSo(inbox, Dispatched(link, inbox, c), Loop(link, inbox, c).outcome)
    decreases |inbox|
  {
    if inbox == [] {
      RaiseIs(Eof);
    } else if inbox[0].Broken? {
      RaiseIs(inbox[0].fault);
    } else {
      var env := inbox[0].env;
      HandleEnds(link, c, env);
      hide Handle, Final, Raise;
      var step := Handle(link, c, env);
      if step.Proceed? {
        LoopEnds(link, inbox[1..], step.conn);
        EndsSoCons(inbox, Dispatched(link, inbox[1..], step.conn), Loop(link, inbox[1..], step.conn).outcome);
        hide EndsSo;
      } else {
        assert Dispatched(link, inbox, c) == [env];
      }
    }
  }

  /** How a connection ends: without a socket or on a failing write with I/O; before REGISTERED as its
      first read fails, or refused with the command it got instead, or in a panic; and otherwise as
      its message loop ends. */
  lemma SessionEnds(envId: string, m: Machine, link: Link)
    ensures var o := Session(envId, m, link).outcome;
      || o == Failed(AegisError.Io)
      || (link.opens && link.writeOk(0) &&
            if link.inbox == [] then o == Failed(Connection(Closed))
            else match link.inbox[0]
              case Broken(f) => ErrorOfRead(f, o)
              case Got(resp) =>
                if resp.command != Command.Registered then o == Failed(Registration(resp.command))
                else if "component_id" !in resp.payload || "session_id" !in resp.payload then o == Panicked
                else EndsSo(link.inbox[1..], SessionDispatched(envId, m, link), o))
  {
    RegisterFollows(envId, m, link);
    var step := RustSession.Register(envId, link, Start(m));
    FirstRead(link);
    if link.opens && step.Proceed? {
      LoopEnds(link, Tail(link.inbox), step.conn);
    }
    hide RustSession.Register, EndsSo, Loop;
  }

  lemma FirstRead(link: Link)
    ensures forall f :: ErrorOfRead(f, BrokenOff(f))
    ensures link.inbox == [] ==> BrokenOff(Eof) == Failed(Connection(Closed)) && !Welcomed(link)
  {
  }

  /** With a socket and a first write that works, a failing first read is the connection's end, and
      each fault has its own error. */
  lemma FirstReadFails(envId: string, m: Machine, link: Link)
    requires link.opens && link.writeOk(0) && (link.inbox == [] || link.inbox[0].Broken?)
    ensures var e := Session(envId, m, link);
      && ErrorOfRead(if link.inbox == [] then Eof else link.inbox[0].fault, e.outcome)
      && e.conn.acts == [Wrote(RegisterEnv(Offer(envId, m.componentId)))]
      && e.conn.me == m
  {
    hide Offer, RegisterEnv;
  }

  /** A connection is refused just when its first read is an envelope with another command than
      REGISTERED, which it names; nothing else ends with that error. */
  lemma Refused(envId: string, m: Machine, link: Link, c: Command)
    ensures Session(envId, m, link).outcome == Failed(Registration(c)) <==>
      && link.opens && link.writeOk(0)
      && link.inbox != [] && link.inbox[0].Got? && link.inbox[0].env.command == c && c != Command.Registered
  {
    SessionEnds(envId, m, link);
    if link.opens && link.writeOk(0) && Await(link).Got? && Await(link).env.command != Command.Registered {
      RefusedBy(envId, m, link);
    }
    hide Session, SessionDispatched;
    if link.inbox != [] {
      NoRefusalAtEnd(link.inbox[1..], SessionDispatched(envId, m, link), Session(envId, m, link).outcome);
      hide EndsSo;
    }
  }

  lemma NoRefusalAtEnd(inbox: seq<Read>, handled: seq<Incoming>, o: Outcome)
    ensures EndsSo(inbox, handled, o) ==> o == Clean || (o.Failed? && !o.error.Registration?)
  {
    if EndsSo(inbox, handled, o) && ReadAfter(inbox, handled).Broken? {
      var f := ReadAfter(inbox, handled).fault;
      assert f == Eof || f == IoFault || f == BadJson || f == Silence;
    }
  }

  lemma RefusedBy(envId: string, m: Machine, link: Link)
    requires link.opens && link.writeOk(0) && Await(link).Got? && Await(link).env.command != Command.Registered
    ensures Session(envId, m, link).outcome == Failed(Registration(Await(link).env.command))
  {
    hide Offer, RegisterEnv;
  }

  /** Any failure but a refusal is followed by a sleep and another attempt, when reconnection is on,
      the limit is not reached and there is another link to try. A broken read is such a failure. */
  lemma FailureIsRetried(cfg: Config, m: Machine, links: seq<Link>, r: Run, i: nat)
    requires r == RunAll(cfg, m, links) && i < |r.ends| && |links| < U32
    requires var o := r.ends[i].outcome;
      || o == Failed(Connection(Closed)) || o == Failed(AegisError.Io) || o == Failed(BadEnvelope)
      || o == Failed(Timeout) || o == Failed(Connection(FatalError))
    requires cfg.reconnect && (cfg.maxAttempts == 0 || i + 1 < cfg.maxAttempts)
    ensures i < |r.sleeps|
    ensures i + 1 < |links| ==> i + 1 < |r.ends|
  {
    RunIsChain(cfg, m, links, 0, cfg.firstDelay);
    VerdictTells(cfg, m, links, 0, cfg.firstDelay);
    hide RunFrom, Session, Chained, Concluded, Telling;
    GoesOn(cfg, m, |links|, r, i);
  }

  lemma GoesOn(cfg: Config, m: Machine, available: nat, r: Run, i: nat)
    requires Concluded(m, available, r) && Telling(cfg, 0, r)
    requires i < |r.ends| <= available < U32 && Retryable(r.ends[i].outcome)
    requires cfg.reconnect && (cfg.maxAttempts == 0 || i + 1 < cfg.maxAttempts)
    ensures i < |r.sleeps|
    ensures i + 1 < available ==> i + 1 < |r.ends|
  {
    hide Retryable;
  }

  /** Whatever a connection of a run was when a read of its message loop broke, the failure is one
      of those that are retried. */
  lemma BrokenReadIsRetryable(cfg: Config, m: Machine, links: seq<Link>, r: Run, i: nat)
    requires r == RunAll(cfg, m, links) && i < |r.ends| <= |links|
    requires links[i].inbox != [] && links[i].inbox[0].Got?
    requires var p := links[i].inbox[0].env.payload;
      links[i].inbox[0].env.command == Command.Registered && "component_id" in p && "session_id" in p
    requires var handled := DispatchedAt(cfg, m, links, r.ends, i);
      handled == [] || !Final(handled[|handled| - 1])
    ensures var o := r.ends[i].outcome;
      || o == Failed(AegisError.Io)
      || (var next := ReadAfter(links[i].inbox[1..], DispatchedAt(cfg, m, links, r.ends, i));
          next.Broken? && ErrorOfRead(next.fault, o))
    ensures Retryable(r.ends[i].outcome)
  {
    RunIsChain(cfg, m, links, 0, cfg.firstDelay);
    SessionEnds(cfg.envId, Before(m, r.ends, i), links[i]);
    hide RunFrom, Session, SessionDispatched;
  }

  // ----- error messages -----

  /** An envelope of type ERROR calls on_error with its code, or UNKNOWN, and its message, or nothing.
      The loop goes on just when "recoverable" is there and is true; else it fails as fatal. */
  lemma ErrorMessage(link: Link, inbox: seq<Read>, c: Conn)
    requires inbox != [] && inbox[0].Got? && inbox[0].env.kind == MessageType.Error
    ensures var p := inbox[0].env.payload;
      exists code, text | TextUnder(p, "code", "UNKNOWN", code) && TextUnder(p, "message", "", text) ::
        var c' := c.(acts := c.acts + [Called(OnError(code, text))]);
        Loop(link, inbox, c) ==
          if "recoverable" in p && p["recoverable"] == Bool(true) then Loop(link, inbox[1..], c')
          else Ended(c', Failed(Connection(FatalError)))
  {
    var p := inbox[0].env.payload;
    var code, text := TextOr(p, "code", "UNKNOWN"), TextOr(p, "message", "");
    TextOrUnder(p, "code", "UNKNOWN", code);
    TextOrUnder(p, "message", "", text);
    hide TextOr, TextUnder;
  }

  /** No flag, or any other value than true, is fatal. */
  lemma UnmarkedErrorIsFatal(link: Link, inbox: seq<Read>, c: Conn)
    requires inbox != [] && inbox[0].Got? && inbox[0].env.kind == MessageType.Error
    requires var p := inbox[0].env.payload; "recoverable" !in p || p["recoverable"] != Bool(true)
    ensures Loop(link, inbox, c).outcome == Failed(Connection(FatalError))
  {
    ErrorMessage(link, inbox, c);
    hide Loop;
  }

  // ----- CONFIGURE -----

  /** A CONFIGURE calls on_configure with the socket's path, or nothing, and the strings of the list
      of topics, in order. */
  lemma ConfigureCalls(link: Link, c: Conn, env: Incoming)
    requires env.kind == MessageType.Config && env.command == Configure
    ensures exists path, topics
      | TextUnder(env.payload, "data_stream_socket", "", path) && AreTopics(env.payload, topics) ::
      c.acts + [Called(OnConfigure(path, topics))] <= Handle(link, c, env).conn.acts
  {
    var path, topics := TextOr(env.payload, "data_stream_socket", ""), Topics(env.payload);
    TextOrUnder(env.payload, "data_stream_socket", "", path);
    TopicsAre(env.payload);
    HandleIsCut(link, c, env);
    var plan := Reply(env, c.me.state, link.onConfigure(c.asked));
    var rest := plan[1..];
    assert plan == [Asking(env)] + rest;
    CutCons(link.writeOk, c.written, Asking(env), rest);
    hide Handle, Cut, TextOr, Topics, TextUnder, AreTopics;
    Assoc(c.acts, [Asking(env)], Cut(link.writeOk, c.written, rest));
  }

  // ----- the state a connection leaves -----

  /** The state is the one last told to the daemon. */
  predicate Reported(c: Conn) { LastReported(Wire(c.acts)) == Some(c.me.state) }

  lemma DidReports(c: Conn, a: Act)
    ensures LastReported(Wire(Did(c, a).acts)) ==
      if a.Wrote? && a.env.command == StateUpdate && a.env.body.Reports? then Some(a.env.body.state)
      else LastReported(Wire(c.acts))
  {
    WireConcat(c.acts, [a]);
    assert [a][1..] == [];
    if a.Wrote? {
      var w := Wire(c.acts) + [a.env];
      assert w[..|w| - 1] == Wire(c.acts);
    } else {
      assert Wire(c.acts) + [] == Wire(c.acts);
    }
  }

  lemma WriteReports(link: Link, c: Conn, env: Outgoing)
    requires env.command != StateUpdate
    ensures var step := Write(link, c, env);
      && step.conn.me == c.me && LastReported(Wire(step.conn.acts)) == LastReported(Wire(c.acts))
      && (step.Halt? ==> step.outcome != Clean)
  {
    DidReports(c, Wrote(env));
  }

  lemma SendStateReports(link: Link, c: Conn, s: ComponentState)
    ensures var step := SendState(link, c, s);
      && (Reported(c) || step.Proceed? ==> Reported(step.conn))
      && (step.Halt? ==> step.outcome != Clean && step.conn.acts == c.acts && step.conn.me == c.me)
  {
    DidReports(c, Wrote(StateEnv(s)));
  }

  lemma InstallReports(link: Link, c: Conn, id: string)
    requires Reported(c)
    ensures var step := Install(link, c, id); Reported(step.conn) && (step.Halt? ==> step.outcome != Clean)
  {
    WriteReports(link, c, AckEnv(id));
    hide Write, AckEnv, SendState, LastReported, Wire;
    var c1 := Write(link, c, AckEnv(id));
    if c1.Proceed? {
      SendStateReports(link, c1.conn, ComponentState.Configured);
      var c2 := SendState(link, c1.conn, ComponentState.Configured);
      if c2.Proceed? {
        SendStateReports(link, c2.conn, Running);
        DidReports(SendState(link, c2.conn, Running).conn, Spawned);
      }
    }
  }

  lemma LifecycleReports(link: Link, c: Conn, env: Incoming)
    requires Reported(c)
    ensures var step := OnLifecycle(link, c, env);
      if step.Halt? && step.outcome == Clean then step.conn.me.state == ComponentState.Shutdown
      else Reported(step.conn)
  {
    DidReports(c, Called(OnReborn));
    WriteReports(link, Did(c, Called(OnReborn)), AckEnv(env.id));
    DidReports(c, Cancelled);
    WriteReports(link, Did(c, Cancelled), AckEnv(env.id));
    hide LastReported, Wire, AckEnv, Write;
  }

  lemma HandleReports(link: Link, c: Conn, env: Incoming)
    requires Reported(c)
    ensures var step := Handle(link, c, env);
      if step.Halt? && step.outcome == Clean then step.conn.me.state == ComponentState.Shutdown
      else Reported(step.conn)
  {
    if env.kind == Heartbeat && env.command == Ping {
      DidReports(c, Called(OnPing));
      WriteReports(link, Did(c, Called(OnPing)), PongEnv(env.id, c.me.state));
    } else if env.kind == MessageType.Config && env.command == Configure {
      var c0 := Did(c, Asking(env)).(asked := c.asked + 1);
      DidReports(c, Asking(env));
      match link.onConfigure(c.asked) {
        case Some(text) => WriteReports(link, c0, ConfigureFailedEnv(text));
        case None => InstallReports(link, c0, env.id);
      }
      hide Install, LastReported, Wire;
    } else if env.kind == Lifecycle {
      LifecycleReports(link, c, env);
      hide LastReported, Wire, OnLifecycle;
    } else if env.kind == MessageType.Error {
      DidReports(c, Called(OnError(TextOr(env.payload, "code", "UNKNOWN"), TextOr(env.payload, "message", ""))));
    }
  }

  lemma {:induction false} LoopReports(link: Link, inbox: seq<Read>, c: Conn)
    requires Reported(c)
    ensures var e := Loop(link, inbox, c);
      if e.outcome == Clean then e.conn.me.state == ComponentState.Shutdown else Reported(e.conn)
    decreases |inbox|
  {
    if inbox != [] && inbox[0].Got? {
      HandleReports(link, c, inbox[0].env);
      hide Handle, Reported;
      if Handle(link, c, inbox[0].env).Proceed? {
        LoopReports(link, inbox[1..], Handle(link, c, inbox[0].env).conn);
      }
    }
  }

  /** The state a connection leaves: SHUTDOWN if it is clean; else what it last told the daemon; and
      if it told it nothing, REGISTERED if it got so far, or what was there before. */
  lemma StateLeft(envId: string, m: Machine, link: Link)
    ensures var e := Session(envId, m, link);
      e.conn.me.state ==
        if e.outcome == Clean then ComponentState.Shutdown
        else match LastReported(Wire(e.conn.acts))
          case Some(s) => s
          case None => if Registers(link) then ComponentState.Registered else m.state
  {
    RegisterLeaves(envId, m, link);
    var step := RustSession.Register(envId, link, Start(m));
    hide RustSession.Register;
    if link.opens && step.Proceed? {
      LoopReports(link, Tail(link.inbox), step.conn);
    }
  }

  lemma RegisterLeaves(envId: string, m: Machine, link: Link)
    ensures var step := RustSession.Register(envId, link, Start(m));
      && (step.Proceed? ==> Reported(step.conn))
      && (step.Halt? ==>
            && step.outcome != Clean
            && step.conn.me.state ==
                 match LastReported(Wire(step.conn.acts))
                 case Some(s) => s
                 case None => if link.writeOk(0) && Welcomed(link) then ComponentState.Registered else m.state)
  {
    var register := RegisterEnv(Offer(envId, m.componentId));
    WriteReports(link, Start(m), register);
    var c := Write(link, Start(m), register);
    assert Wire([]) == [] && LastReported([]) == None;
    if c.Proceed? && Welcomed(link) {
      var c1 := Adopt(c.conn, Await(link).env.payload).conn;
      assert c1.me.state == ComponentState.Registered && c1.acts == c.conn.acts;
      SendStateReports(link, c1, Initializing);
      hide SendState, TextOr, Offer, RegisterEnv, LastReported, Wire;
      var c2 := SendState(link, c1, Initializing);
      if c2.Proceed? {
        SendStateReports(link, c2.conn, Ready);
      }
    }
  }
}
