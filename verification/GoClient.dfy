/** The Go client as it is written: methods that assign the fields of Component. */
module GoClient {
  import opened Protocol
  import opened GoSession
  import GoRun
  import opened Wiring

  class Component {
    const cfg: GoRun.Config
    var ComponentID: Option<Json>
    var SessionID: Option<Json>
    var State: ComponentState

    constructor (cfg: GoRun.Config)
      ensures this.cfg == cfg && Me() == Machine(Init, None, None)
    {
      this.cfg := cfg;
      ComponentID, SessionID, State := None, None, Init;
    }

    ghost function Me(): Machine
      reads this
    {
      Machine(State, ComponentID, SessionID)
    }

    ghost function View(w: Wiring): Conn
      reads this, w
    {
      Conn(Me(), w.acts, w.written, w.asked, w.unread)
    }

    method SendStateUpdate(w: Wiring, s: ComponentState) returns (err: Option<Failure>)
      modifies this`State, w`written, w`acts
      ensures Matches(View(w), err, SendState(w.link, old(View(w)), s))
    {
      var ok := w.Send(StateEnv(s));
      if !ok {
        return Some(SendFailed);
      }
      State := s;
      return None;
    }

    method Recv(w: Wiring) returns (r: Read)
      modifies w`unread
      ensures r == Head(old(w.unread)) && View(w) == Skip(old(View(w)))
    {
      r := w.Recv();
    }

    method RecvACK(w: Wiring) returns (err: Option<Failure>)
      modifies w`unread
      ensures Matches(View(w), err, RecvAck(old(View(w))))
    {
      var r := Recv(w);
      return match r case Got(_) => None case Broken(f) => Some(RecvFailed(f));
    }

    method Register(w: Wiring) returns (err: Option<Failure>)
      modifies this, w`written, w`acts, w`unread
      ensures Matches(View(w), err, GoSession.Register(cfg.configId, w.link, old(View(w))))
    {
      var ok := w.Send(RegisterEnv(Some(cfg.configId)));
      ghost var sent := Send(w.link, old(View(w)), RegisterEnv(Some(cfg.configId)));
      assert View(w) == sent.conn && ok == sent.Fine?;
      hide Send, RegisterEnv;
      if !ok {
        return Some(SendFailed);
      }
      var resp := Recv(w);
      if resp.Broken? {
        return Some(RecvFailed(resp.fault));
      }
      if resp.env.command != Command.Registered {
        return Some(Refused(resp.env.command));
      }
      ComponentID := Member(resp.env.payload, "component_id");
      SessionID := Member(resp.env.payload, "session_id");
      State := ComponentState.Registered;
      hide GoSession.Greet, Adopt;
      err := Greet(w);
    }

    /** The end of register: both updates, each acknowledged. */
    method Greet(w: Wiring) returns (err: Option<Failure>)
      modifies this`State, w`written, w`acts, w`unread
      ensures Matches(View(w), err, GoSession.Greet(w.link, old(View(w))))
    {
      err := SendStateUpdate(w, Initializing);
      if err.Some? {
        return;
      }
      err := RecvACK(w);
      if err.Some? {
        return;
      }
      err := SendStateUpdate(w, Ready);
      if err.Some? {
        return;
      }
      err := RecvACK(w);
    }

    method HandleHeartbeat(w: Wiring, env: Incoming)
      modifies w`written, w`acts
      ensures View(w) == OnHeartbeat(w.link, old(View(w)), env)
    {
      if env.command != Ping {
        return;
      }
      w.Note(Called(OnPing));
      var _ := w.Send(PongEnv(env.id, State));
    }

    /** The strings of the topics list, collected in a loop. */
    method ParseTopics(p: Payload) returns (topics: seq<string>)
      ensures topics == Topics(p) && AreTopics(p, topics)
    {
      TopicsAre(p);
      topics := [];
      if "topics" !in p || !p["topics"].List? {
        return;
      }
      var raw := p["topics"].items;
      for i := 0 to |raw|
        invariant topics + Strings(raw[i..]) == Strings(raw)
      {
        assert raw[i..][1..] == raw[i + 1..];
        if raw[i].Text? {
          Assoc(topics, [raw[i].text], Strings(raw[i + 1..]));
          topics := topics + [raw[i].text];
        } else {
          assert [] + Strings(raw[i + 1..]) == Strings(raw[i + 1..]);
        }
      }
    }

    method HandleConfig(w: Wiring, env: Incoming)
      modifies this`State, w`written, w`acts, w`asked, w`unread
      ensures View(w) == OnConfig(w.link, old(View(w)), env)
    {
      if env.command != Configure {
        return;
      }
      var sockPath := TextOr(env.payload, "data_stream_socket", "");
      var topics := ParseTopics(env.payload);
      var refusal := w.AskConfigure(sockPath, topics);
      ghost var g := View(w);
      assert g == Asked(old(View(w)), env);
      hide Asked, TextOr, Topics, Strings, GoSession.Install, ConfigureFailedEnv, AckEnv;
      if refusal.Some? {
        var _ := w.Send(ConfigureFailedEnv(refusal.value));
        assert View(w) == Send(w.link, g, ConfigureFailedEnv(refusal.value)).conn;
        return;
      }
      var _ := w.Send(AckEnv(env.id));
      assert View(w) == Send(w.link, g, AckEnv(env.id)).conn;
      hide Send;
      Install(w);
    }

    /** The end of handleConfig: both updates, each acknowledged, and the worker. */
    method Install(w: Wiring)
      modifies this`State, w`written, w`acts, w`unread
      ensures View(w) == GoSession.Install(w.link, old(View(w))).conn
    {
      var err := SendStateUpdate(w, ComponentState.Configured);
      if err.Some? {
        return;
      }
      err := RecvACK(w);
      if err.Some? {
        return;
      }
      err := SendStateUpdate(w, Running);
      if err.Some? {
        return;
      }
      err := RecvACK(w);
      if err.Some? {
        return;
      }
      w.Note(Spawned);
    }

    method HandleLifecycle(w: Wiring, env: Incoming) returns (stop: bool)
      requires env.kind == Lifecycle
      modifies this`State, w`written, w`acts
      ensures var h := Handle(w.link, old(View(w)), env);
        View(w) == h.conn && stop == h.Return? && (stop ==> h.failure == None)
    {
      if env.command == Command.Shutdown {
        var _ := w.Send(AckEnv(env.id));
        GracefulShutdown(w);
        return true;
      }
      return false;
    }

    method GracefulShutdown(w: Wiring)
      modifies this`State, w`written, w`acts
      ensures View(w) == Farewell(w.link, old(View(w)))
    {
      w.Note(Called(OnShutdown));
      var _ := w.Send(ShutdownEnv());
      State := ComponentState.Shutdown;
    }

    method HandleErrorMsg(w: Wiring, env: Incoming) returns (stop: bool)
      modifies w`acts
      ensures View(w) == OnErrorMessage(old(View(w)), env) && stop == !Recoverable(env.payload)
    {
      w.Note(Called(OnError(TextOr(env.payload, "code", ""), TextOr(env.payload, "message", ""))));
      stop := !Recoverable(env.payload);
    }

    method MessageLoop(w: Wiring) returns (err: Option<Failure>)
      modifies this`State, w`written, w`acts, w`asked, w`unread
      ensures Ended(View(w), err) == Loop(w.link, old(View(w)), 0)
    {
      var head := 0;
      while true
        invariant Loop(w.link, View(w), head) == Loop(w.link, old(View(w)), 0)
        decreases |w.unread|
      {
        hide OnHeartbeat, OnConfig, Farewell, OnErrorMessage, Send;
        if CancelledAt(w.link, head) {
          GracefulShutdown(w);
          return Some(ContextDone);
        }
        head := head + 1;
        var r := Recv(w);
        if r.Broken? {
          return Some(RecvFailed(r.fault));
        }
        var env := r.env;
        HandleReads(w.link, View(w), env);
        match env.kind {
          case Heartbeat =>
            HandleHeartbeat(w, env);
          case Config =>
            HandleConfig(w, env);
          case Lifecycle =>
            var stop := HandleLifecycle(w, env);
            if stop {
              return None;
            }
          case Error =>
            var stop := HandleErrorMsg(w, env);
            if stop {
              return Some(FatalMessage);
            }
          case Control =>
          case Data =>
        }
      }
    }

    method RunOnce(link: Link) returns (err: Option<Failure>, ghost e: Ended)
      modifies this
      ensures e == Session(cfg.configId, old(Me()), link) && Me() == e.conn.me && err == e.failure
    {
      if !link.opens {
        return Some(ConnectFailed), Ended(Start(Me(), link), Some(ConnectFailed));
      }
      var w := new Wiring(link);
      err := Register(w);
      if err.Some? {
        return err, Ended(View(w), err);
      }
      err := MessageLoop(w);
      e := Ended(View(w), err);
    }

    /** The reconnection loop, with a context that may be cancelled from the start. */
    method Run(links: seq<Link>, cancelled: bool) returns (verdict: GoRun.Verdict, ghost run: GoRun.Run)
      modifies this
      ensures run == GoRun.RunAll(cfg, old(Me()), links, cancelled) && verdict == run.verdict && Me() == run.last
    {
      hide *;
      var attempts, delay, n, done := 0, cfg.reconnectDelay, 0, cancelled;
      ghost var ends: seq<Ended>, sleeps: seq<int> := [], [];
      ghost var rest := GoRun.RunFrom(cfg, Me(), links, attempts, delay);
      run := GoRun.RunAll(cfg, Me(), links, cancelled);
      OntoStart(cfg, Me(), links, cancelled);
      while true
        invariant 0 <= n <= |links| && (done ==> run.verdict == GoRun.Stopped && Me() == run.last)
        invariant !done ==>
          rest == GoRun.RunFrom(cfg, Me(), links[n..], attempts, delay) && run == Onto(ends, sleeps, rest)
        decreases |links| - n, !done
      {
        if done {
          return GoRun.Stopped, run;
        }
        RunStep(cfg, Me(), links[n..], attempts, delay);
        OntoVerdict(ends, sleeps, rest);
        if n == |links| {
          return GoRun.Pending, run;
        }
        var runErr;
        ghost var e;
        runErr, e := RunOnce(links[n]);
        DecideIs(cfg, links[n].cancel.Some?, runErr, attempts + 1);
        if runErr == Some(ContextDone) {
          return GoRun.Stopped, run;
        }
        if runErr.Some? && runErr.value.Refused? {
          return GoRun.Unregistered(runErr.value.got), run;
        }
        if !cfg.reconnect {
          return GoRun.NotReconnecting(runErr), run;
        }
        attempts := attempts + 1;
        if cfg.maxAttempts > 0 && attempts >= cfg.maxAttempts {
          return GoRun.LimitReached(attempts, runErr), run;
        }
        if links[n].cancel.Some? {
          return GoRun.Stopped, run;
        }
        assert links[n..][1..] == links[n + 1..];
        ghost var delay' := GoRun.NextDelay(delay, cfg.maxReconnectDelay);
        ghost var next := GoRun.RunFrom(cfg, Me(), links[n + 1..], attempts, delay');
        OntoOnto(ends, sleeps, e, delay, next);
        ends, sleeps, rest := ends + [e], sleeps + [delay], next;
        delay := GoRun.NextDelay(delay, cfg.maxReconnectDelay);
        n := n + 1;
      }
    }
  }

  predicate Matches(g: Conn, err: Option<Failure>, step: Step) {
    g == step.conn && err == if step.Fine? then None else Some(step.failure)
  }

  /** A run put after the connections and sleeps that came before it. */
  ghost function Onto(ends: seq<Ended>, sleeps: seq<int>, r: GoRun.Run): GoRun.Run {
    r.(ends := ends + r.ends, sleeps := sleeps + r.sleeps)
  }

  lemma OntoStart(cfg: GoRun.Config, m: Machine, links: seq<Link>, cancelled: bool)
    ensures var r := GoRun.RunAll(cfg, m, links, cancelled);
      if cancelled then r.verdict == GoRun.Stopped && r.last == m
      else r == Onto([], [], GoRun.RunFrom(cfg, m, links, 0, cfg.reconnectDelay))
    ensures links[0..] == links
  {
    hide GoRun.RunFrom;
  }

  lemma OntoVerdict(ends: seq<Ended>, sleeps: seq<int>, r: GoRun.Run)
    ensures Onto(ends, sleeps, r).verdict == r.verdict && Onto(ends, sleeps, r).last == r.last
  {
  }

  lemma OntoOnto(ends: seq<Ended>, sleeps: seq<int>, e: Ended, delay: int, r: GoRun.Run)
    ensures Onto(ends, sleeps, Onto([e], [delay], r)) == Onto(ends + [e], sleeps + [delay], r)
  {
    Assoc(ends, [e], r.ends);
    Assoc(sleeps, [delay], r.sleeps);
  }

  /** One unfolding of a run. */
  lemma RunStep(cfg: GoRun.Config, m: Machine, links: seq<Link>, attempts: int, delay: int)
    ensures links == [] ==> GoRun.RunFrom(cfg, m, links, attempts, delay) == GoRun.Run([], [], GoRun.Pending, m)
    ensures links != [] ==>
      var e := Session(cfg.configId, m, links[0]);
      var decision := GoRun.Decide(cfg, links[0].cancel.Some?, e.failure, attempts + 1);
      var delay' := GoRun.NextDelay(delay, cfg.maxReconnectDelay);
      GoRun.RunFrom(cfg, m, links, attempts, delay) ==
        if decision.Some? then GoRun.Run([e], [], decision.value, e.conn.me)
        else Onto([e], [delay], GoRun.RunFrom(cfg, e.conn.me, links[1..], attempts + 1, delay'))
  {
  }

  lemma DecideIs(cfg: GoRun.Config, cancelled: bool, err: Option<Failure>, failed: int)
    ensures GoRun.Decide(cfg, cancelled, err, failed) ==
      if err == Some(ContextDone) then Some(GoRun.Stopped)
      else if err.Some? && err.value.Refused? then Some(GoRun.Unregistered(err.value.got))
      else if !cfg.reconnect then Some(GoRun.NotReconnecting(err))
      else if cfg.maxAttempts > 0 && failed >= cfg.maxAttempts then Some(GoRun.LimitReached(failed, err))
      else if cancelled then Some(GoRun.Stopped)
      else None
  {
  }
}
