/** The Rust client as it is written: fields overwritten in place, one loop for each connection
    and one over connections. Every method is proved against the transducer. */
module RustClient {
  import opened Protocol
  import opened RustSession
  import opened RustTrace
  import opened RustRun
  import Backoff
  import opened Wiring

  datatype LifecycleOutcome = Continue | Stop

  /** The tokens of n workers that share one. */
  ghost function Copies(token: CancellationToken, n: nat): seq<CancellationToken> {
    if n == 0 then [] else Copies(token, n - 1) + [token]
  }

  lemma CopiesMore(tokens: seq<CancellationToken>, token: CancellationToken, n: nat)
    ensures tokens + Copies(token, n + 1) == tokens + Copies(token, n) + [token]
    ensures Copies(token, 0) == [] && tokens + [] == tokens
  {
  }

  class Component {
    const cfg: Config
    var componentId: string
    var sessionId: string
    var state: ComponentState
    ghost var workers: seq<CancellationToken>   // the token each on_running worker was given

    constructor (cfg: Config)
      ensures this.cfg == cfg && workers == [] && Me() == Machine(Init, "", "")
    {
      this.cfg := cfg;
      componentId, sessionId, state, workers := "", "", Init, [];
    }

    ghost function Me(): Machine
      reads this
    {
      Machine(state, componentId, sessionId)
    }

    ghost function View(w: Wiring): Conn
      reads this, w
    {
      Conn(Me(), w.acts, w.written, w.asked)
    }

    method SendStateUpdate(w: Wiring, s: ComponentState) returns (ok: bool)
      modifies this`state, w`written, w`acts
      ensures var step := SendState(w.link, old(View(w)), s); View(w) == step.conn && ok == step.Proceed?
      ensures !ok ==> SendState(w.link, old(View(w)), s).outcome == Failed(Io)
    {
      ok := w.Send(StateEnv(s));
      if ok {
        state := s;
      }
    }

    method SendAck(w: Wiring, id: string) returns (ok: bool)
      modifies w`written, w`acts
      ensures var step := Write(w.link, old(View(w)), AckEnv(id)); View(w) == step.conn && ok == step.Proceed?
    {
      ok := w.Send(AckEnv(id));
    }

    method Register(w: Wiring) returns (failure: Option<Outcome>)
      requires w.unread == w.link.inbox
      modifies this`state, this`componentId, this`sessionId, w`written, w`acts, w`unread
      ensures var step := RustSession.Register(cfg.envId, w.link, old(View(w)));
        && View(w) == step.conn
        && failure == (if step.Proceed? then None else Some(step.outcome))
        && (step.Proceed? ==> w.unread == Tail(w.link.inbox))
    {
      var id := if componentId != "" then componentId else cfg.envId;
      var ok := w.Send(RegisterEnv(if id != "" then Some(id) else None));
      ghost var c := Write(w.link, old(View(w)), RegisterEnv(Offer(cfg.envId, old(componentId))));
      assert View(w) == c.conn && ok == c.Proceed?;
      hide Write, Offer, RegisterEnv, TextOr;
      if !ok {
        return Some(Failed(Io));
      }
      var resp := w.Recv();
      if resp.Broken? {
        return Some(Failed(Raise(resp.fault)));
      }
      if resp.env.command != Command.Registered {
        return Some(Failed(Registration(resp.env.command)));
      }
      var payload := resp.env.payload;
      if "component_id" !in payload {
        return Some(Panicked);
      }
      componentId := TextOr(payload, "component_id", "");
      if "session_id" !in payload {
        return Some(Panicked);
      }
      sessionId := TextOr(payload, "session_id", "");
      state := ComponentState.Registered;
      hide RustSession.Greet;
      ok := Greet(w);
      return if ok then None else Some(Failed(Io));
    }

    /** The end of register: both state updates. */
    method Greet(w: Wiring) returns (ok: bool)
      modifies this`state, w`written, w`acts
      ensures var step := RustSession.Greet(w.link, old(View(w)));
        View(w) == step.conn && ok == step.Proceed? && (!ok ==> step.outcome == Failed(Io))
    {
      ok := SendStateUpdate(w, Initializing);
      if ok {
        ok := SendStateUpdate(w, Ready);
      }
    }

    method HandleHeartbeat(w: Wiring, env: Incoming) returns (ok: bool)
      modifies w`written, w`acts
      ensures var step := OnHeartbeat(w.link, old(View(w)), env); View(w) == step.conn && ok == step.Proceed?
    {
      if env.command != Ping {
        return true;
      }
      w.Note(Called(OnPing));
      ok := w.Send(PongEnv(env.id, state));
    }

    method HandleConfig(w: Wiring, env: Incoming, token: CancellationToken) returns (ok: bool)
      modifies this`state, this`workers, w`written, w`acts, w`asked
      ensures var step := OnConfig(w.link, old(View(w)), env); View(w) == step.conn && ok == step.Proceed?
      ensures workers ==
        if ok && env.command == Configure && w.link.onConfigure(old(w.asked)).None? then old(workers) + [token]
        else old(workers)
    {
      if env.command != Configure {
        return true;
      }
      var path := TextOr(env.payload, "data_stream_socket", "");
      var refusal := w.AskConfigure(path, Topics(env.payload));
      ghost var c := View(w);
      hide TextOr, Topics, Strings, ConfigureFailedEnv, RustSession.Install;
      if refusal.Some? {
        ok := w.Send(ConfigureFailedEnv(refusal.value));
        assert View(w) == Write(w.link, c, ConfigureFailedEnv(refusal.value)).conn;
        return;
      }
      ok := Install(w, env.id);
      if ok {
        workers := workers + [token];
      }
    }

    /** The end of handle_config for an accepted CONFIGURE, up to the spawning of its worker. */
    method Install(w: Wiring, id: string) returns (ok: bool)
      modifies this`state, w`written, w`acts
      ensures var step := RustSession.Install(w.link, old(View(w)), id); View(w) == step.conn && ok == step.Proceed?
    {
      ok := SendAck(w, id);
      hide Write;
      if !ok {
        return;
      }
      ok := SendStateUpdate(w, ComponentState.Configured);
      if !ok {
        return;
      }
      ok := SendStateUpdate(w, Running);
      if ok {
        w.Note(Spawned);
      }
    }

    method HandleLifecycle(w: Wiring, env: Incoming, token: CancellationToken)
      returns (ok: bool, outcome: LifecycleOutcome)
      modifies this`state, w`written, w`acts, token
      ensures var step := OnLifecycle(w.link, old(View(w)), env);
        && View(w) == step.conn
        && ok == (step.Proceed? || step.outcome == Clean)
        && (ok ==> outcome == if step.Proceed? then Continue else Stop)
      ensures token.cancelled == (old(token.cancelled) || env.command == Command.Shutdown)
    {
      outcome := Continue;
      match env.command {
        case Reborn =>
          w.Note(Called(OnReborn));
          ok := SendAck(w, env.id);
        case Shutdown =>
          token.Cancel();
          w.Note(Cancelled);
          ok := SendAck(w, env.id);
          if ok {
            GracefulShutdown(w);
            outcome := Stop;
          }
        case _ =>
          ok := true;
      }
    }

    method GracefulShutdown(w: Wiring)
      modifies this`state, w`acts
      ensures View(w) == Become(Did(old(View(w)), Called(OnShutdown)), ComponentState.Shutdown)
    {
      w.Note(Called(OnShutdown));
      state := ComponentState.Shutdown;
    }

    method HandleErrorMsg(w: Wiring, env: Incoming) returns (fatal: bool)
      modifies w`acts
      ensures View(w) == OnErrorMessage(old(View(w)), env).conn
      ensures fatal == OnErrorMessage(old(View(w)), env).Halt?
    {
      var code := TextOr(env.payload, "code", "UNKNOWN");
      var text := TextOr(env.payload, "message", "");
      w.Note(Called(OnError(code, text)));
      fatal := !Recoverable(env.payload);
    }

    /** The body of the message loop, after the read. */
    method Dispatch(w: Wiring, env: Incoming, token: CancellationToken) returns (end: Option<Outcome>)
      modifies this`state, this`workers, w`written, w`acts, w`asked, token
      ensures var step := Handle(w.link, old(View(w)), env);
        && View(w) == step.conn
        && end == (if step.Proceed? then None else Some(step.outcome))
      ensures workers == if Installs(w.link, old(View(w)), env) then old(workers) + [token] else old(workers)
      ensures token.cancelled == (old(token.cancelled) || IsShutdown(env))
    {
      match env.kind {
        case Heartbeat =>
          var ok := HandleHeartbeat(w, env);
          end := if ok then None else Some(Failed(Io));
        case Config =>
          var ok := HandleConfig(w, env, token);
          end := if ok then None else Some(Failed(Io));
        case Lifecycle =>
          var ok, next := HandleLifecycle(w, env, token);
          end := if !ok then Some(Failed(Io)) else if next == Stop then Some(Clean) else None;
        case Error =>
          var fatal := HandleErrorMsg(w, env);
          end := if fatal then Some(Failed(Connection(FatalError))) else None;
        case Control =>
          end := None;
        case Data =>
          end := None;
      }
    }

    /** The loop leaves the connection as the transducer says. The workers it spawned all hold
        this connection's token, which is cancelled just when the trace says so. */
    method MessageLoop(w: Wiring) returns (outcome: Outcome, ghost token: CancellationToken)
      requires Spawned !in w.acts && Cancelled !in w.acts
      modifies this`state, this`workers, w`written, w`acts, w`asked, w`unread
      ensures Ended(View(w), outcome) == Loop(w.link, old(w.unread), old(View(w)))
      ensures fresh(token) && token.cancelled == (Cancelled in w.acts)
      ensures workers == old(workers) + Copies(token, Spawns(w.acts))
    {
      var shutdownToken := new CancellationToken();
      token := shutdownToken;
      NoSpawns(w.acts);
      while true
        invariant token == shutdownToken && fresh(shutdownToken)
        invariant Loop(w.link, w.unread, View(w)) == Loop(w.link, old(w.unread), old(View(w)))
        invariant shutdownToken.cancelled == (Cancelled in w.acts)
        invariant workers == old(workers) + Copies(shutdownToken, Spawns(w.acts))
        decreases |w.unread|
      {
        hide Handle, Installs, Copies, Spawns;
        var r := w.Recv();
        if r.Broken? {
          return Failed(Raise(r.fault)), shutdownToken;
        }
        HandleMarks(w.link, View(w), r.env);
        CopiesMore(old(workers), shutdownToken, Spawns(w.acts));
        var end := Dispatch(w, r.env, shutdownToken);
        if end.Some? {
          return end.value, shutdownToken;
        }
      }
    }

    /** One connection; without a message loop there is no token and no worker. */
    method RunOnce(link: Link) returns (outcome: Outcome, ghost e: Ended, ghost token: CancellationToken?)
      modifies this`state, this`componentId, this`sessionId, this`workers
      ensures e == Session(cfg.envId, old(Me()), link) && outcome == e.outcome && Me() == e.conn.me
      ensures (token != null ==> fresh(token)) && Tells(token, e)
      ensures workers == old(workers) + Hired(token, e)
    {
      token := null;
      if !link.opens {
        return Failed(Io), Ended(Start(Me()), Failed(Io)), null;
      }
      var w := new Wiring(link);
      var failure := Register(w);
      RegisterPlain(cfg.envId, link, old(Me()));
      hide RustSession.Register, Loop;
      NoSpawns(w.acts);
      if failure.Some? {
        return failure.value, Ended(View(w), failure.value), null;
      }
      outcome, token := MessageLoop(w);
      e := Ended(View(w), outcome);
    }

    /** The decision after a connection: an answer for run to return, or another attempt. */
    method Judge(outcome: Outcome, attempts: nat) returns (failed: nat, answer: Option<Verdict>)
      ensures failed == (attempts + 1) % U32 && answer == Decide(cfg, outcome, failed)
    {
      failed := (attempts + 1) % U32;
      match outcome {
        case Clean =>
          return failed, Some(Returned);
        case Panicked =>
          return failed, Some(Crashed);
        case Failed(error) =>
          if error.Registration? {
            return failed, Some(GaveUp(error));
          }
      }
      if !cfg.reconnect {
        return failed, Some(GaveUp(Connection(ReconnectDisabled)));
      }
      if cfg.maxAttempts > 0 && failed >= cfg.maxAttempts {
        return failed, Some(GaveUp(Connection(MaxAttempts(failed))));
      }
      answer := None;
    }

    /** The whole run is the transducer's. Every worker holds the one token of the connection that
        spawned it, and every token is, at the end of the run, cancelled just when the trace of its
        own connection cancelled it. */
    method Run(links: seq<Link>)
      returns (verdict: Verdict, ghost run: RustRun.Run, ghost tokens: seq<CancellationToken?>)
      modifies this`state, this`componentId, this`sessionId, this`workers
      ensures run == RunAll(cfg, old(Me()), links) && verdict == run.verdict && Me() == run.last
      ensures Ledger(tokens, run.ends)
      ensures workers == old(workers) + AllHired(tokens, run.ends)
    {
      hide *;
      var attempts: nat, delay: nat, n: nat := 0, cfg.firstDelay, 0;
      ghost var ends: seq<Ended>, sleeps: seq<nat> := [], [];
      ghost var rest := RunFrom(cfg, Me(), links, attempts, delay);
      ghost var hired: seq<CancellationToken> := [];
      run, tokens := RunAll(cfg, Me(), links), [];
      TrailStart(cfg, Me(), links);
      while true
        invariant n <= |links| && rest == RunFrom(cfg, Me(), links[n..], attempts, delay)
        invariant Trail(run, ends, sleeps, rest, tokens, hired)
        invariant workers == old(workers) + hired
        decreases |links| - n
      {
        RunStep(cfg, Me(), links[n..], attempts, delay);
        if n == |links| {
          TrailPending(run, ends, sleeps, rest, tokens, hired);
          return Pending, run, tokens;
        }
        ghost var e, token;
        var outcome;
        outcome, e, token := RunOnce(links[n]);
        TrailSnoc(run, ends, sleeps, rest, tokens, hired, e, token, delay);
        Assoc(old(workers), hired, Hired(token, e));
        tokens, hired := tokens + [token], hired + Hired(token, e);
        var answer;
        attempts, answer := Judge(outcome, attempts);
        if answer.Some? {
          return answer.value, run, tokens;
        }
        assert links[n..][1..] == links[n + 1..];
        ends, sleeps := ends + [e], sleeps + [delay];
        delay := Backoff.Next(delay, cfg.maxDelay);
        n := n + 1;
        rest := RunFrom(cfg, Me(), links[n..], attempts, delay);
      }
    }
  }

  lemma RegisterPlain(envId: string, link: Link, m: Machine)
    ensures var acts := RustSession.Register(envId, link, Start(m)).conn.acts; Spawned !in acts && Cancelled !in acts
  {
    RegisterFollows(envId, m, link);
    hide RustSession.Register;
  }

  /** The tokens of the workers that one connection spawned. */
  ghost function Hired(token: CancellationToken?, e: Ended): seq<CancellationToken> {
    if token == null then [] else Copies(token, Spawns(e.conn.acts))
  }

  ghost function AllHired(tokens: seq<CancellationToken?>, ends: seq<Ended>): seq<CancellationToken>
    requires |tokens| == |ends|
  {
    if tokens == [] then []
    else AllHired(tokens[..|tokens| - 1], ends[..|ends| - 1]) + Hired(tokens[|tokens| - 1], ends[|ends| - 1])
  }

  lemma AllHiredSnoc(tokens: seq<CancellationToken?>, ends: seq<Ended>, token: CancellationToken?, e: Ended)
    requires |tokens| == |ends|
    ensures AllHired(tokens + [token], ends + [e]) == AllHired(tokens, ends) + Hired(token, e)
  {
    assert (tokens + [token])[..|tokens|] == tokens && (ends + [e])[..|ends|] == ends;
  }

  /** A connection's token against its trace; no token means that no message loop was entered. */
  ghost predicate Tells(token: CancellationToken?, e: Ended)
    reads token
  {
    if token == null then Cancelled !in e.conn.acts else token.cancelled == (Cancelled in e.conn.acts)
  }

  /** Each connection has its own token, or none, and every token tells what its trace does. */
  ghost predicate Ledger(tokens: seq<CancellationToken?>, ends: seq<Ended>)
    reads tokens
  {
    && |tokens| == |ends|
    && (forall i | 0 <= i < |tokens| :: Tells(tokens[i], ends[i]))
    && (forall i, j | 0 <= i < j < |tokens| && tokens[i] != null :: tokens[i] != tokens[j])
  }

  lemma LedgerSnoc(tokens: seq<CancellationToken?>, ends: seq<Ended>, token: CancellationToken?, e: Ended)
    requires Ledger(tokens, ends) && Tells(token, e) && (token == null || token !in tokens)
    ensures Ledger(tokens + [token], ends + [e])
    ensures |tokens| == |ends|
  {
  }

  /** A run put after the connections and sleeps that came before it. */
  ghost function Onto(ends: seq<Ended>, sleeps: seq<nat>, r: RustRun.Run): RustRun.Run {
    r.(ends := ends + r.ends, sleeps := sleeps + r.sleeps)
  }

  lemma OntoOnto(ends: seq<Ended>, sleeps: seq<nat>, e: Ended, delay: nat, r: RustRun.Run)
    ensures Onto(ends, sleeps, Onto([e], [delay], r)) == Onto(ends + [e], sleeps + [delay], r)
  {
    Assoc(ends, [e], r.ends);
    Assoc(sleeps, [delay], r.sleeps);
  }

  /** A run as what has happened so far put before the rest of it, with the tokens so far. */
  ghost predicate Trail(run: RustRun.Run, ends: seq<Ended>, sleeps: seq<nat>, rest: RustRun.Run,
                        tokens: seq<CancellationToken?>, hired: seq<CancellationToken>)
    reads tokens
  {
    run == Onto(ends, sleeps, rest) && Ledger(tokens, ends) && hired == AllHired(tokens, ends)
  }

  lemma TrailStart(cfg: Config, m: Machine, links: seq<Link>)
    ensures Trail(RunAll(cfg, m, links), [], [], RunFrom(cfg, m, links, 0, cfg.firstDelay), [], [])
    ensures links[0..] == links
  {
    hide RunFrom;
  }

  lemma TrailPending(run: RustRun.Run, ends: seq<Ended>, sleeps: seq<nat>, rest: RustRun.Run,
                     tokens: seq<CancellationToken?>, hired: seq<CancellationToken>)
    requires Trail(run, ends, sleeps, rest, tokens, hired) && rest.ends == []
    ensures run.verdict == rest.verdict && run.last == rest.last
    ensures Ledger(tokens, run.ends) && hired == AllHired(tokens, run.ends)
  {
    assert ends + [] == ends;
  }

  /** One more connection, whether it is the run's last or not. */
  lemma TrailSnoc(run: RustRun.Run, ends: seq<Ended>, sleeps: seq<nat>, rest: RustRun.Run,
                  tokens: seq<CancellationToken?>, hired: seq<CancellationToken>,
                  e: Ended, token: CancellationToken?, delay: nat)
    requires Trail(run, ends, sleeps, rest, tokens, hired)
    requires Tells(token, e) && (token == null || token !in tokens)
    ensures forall more :: rest == Onto([e], [delay], more) ==>
      Trail(run, ends + [e], sleeps + [delay], more, tokens + [token], hired + Hired(token, e))
    ensures rest.ends == [e] ==>
      && run.verdict == rest.verdict && run.last == rest.last
      && Ledger(tokens + [token], run.ends) && hired + Hired(token, e) == AllHired(tokens + [token], run.ends)
  {
    LedgerSnoc(tokens, ends, token, e);
    AllHiredSnoc(tokens, ends, token, e);
    forall more | rest == Onto([e], [delay], more)
      ensures Trail(run, ends + [e], sleeps + [delay], more, tokens + [token], hired + Hired(token, e))
    {
      OntoOnto(ends, sleeps, e, delay, more);
    }
  }

  /** One unfolding of a run. */
  lemma RunStep(cfg: Config, m: Machine, links: seq<Link>, attempts: nat, delay: nat)
    ensures links == [] ==> RunFrom(cfg, m, links, attempts, delay) == RustRun.Run([], [], Pending, m)
    ensures links != [] ==>
      var e := Session(cfg.envId, m, links[0]);
      var failed := (attempts + 1) % U32;
      var decision := Decide(cfg, e.outcome, failed);
      RunFrom(cfg, m, links, attempts, delay) ==
        if decision.Some? then RustRun.Run([e], [], decision.value, e.conn.me)
        else Onto([e], [delay], RunFrom(cfg, e.conn.me, links[1..], failed, Backoff.Next(delay, cfg.maxDelay)))
  {
  }
}
