/** What the Rust client does on a connection, told without its handlers: a script of acts that
    the input determines, cut at the first write that fails. */
module RustTrace {
  import opened Protocol
  import opened RustSession

  predicate IsAck(a: Act) {
    a.Wrote? && a.env.corr.Some? && a.env == Outgoing(Control, Ack, a.env.corr, StatusOk)
  }

  /** The acts that one envelope calls for, when on_configure answers verdict. */
  function Reply(env: Incoming, state: ComponentState, verdict: Option<string>): seq<Act> {
    if IsPing(env) then [Called(OnPing)] + [Wrote(PongEnv(env.id, state))]
    else if IsConfigure(env) then
      [Asking(env)] +
      (match verdict
       case Some(text) => [Wrote(ConfigureFailedEnv(text))]
       case None => Installation(env.id))
    else if IsReborn(env) then [Called(OnReborn)] + [Wrote(AckEnv(env.id))]
    else if IsShutdown(env) then [Cancelled] + ([Wrote(AckEnv(env.id))] + [Called(OnShutdown)])
    else if env.kind == MessageType.Error then
      [Called(OnError(TextOr(env.payload, "code", "UNKNOWN"), TextOr(env.payload, "message", "")))]
    else []
  }

  function Asking(env: Incoming): Act {
    Called(OnConfigure(TextOr(env.payload, "data_stream_socket", ""), Topics(env.payload)))
  }

  function Installation(id: string): seq<Act> {
    [Wrote(AckEnv(id))] + ([Wrote(StateEnv(ComponentState.Configured))] + ([Wrote(StateEnv(Running))] + [Spawned]))
  }

  /** Whether the connection ends with this envelope. */
  predicate Ends(env: Incoming) { IsShutdown(env) || IsFatal(env) }

  function NextState(env: Incoming, state: ComponentState, verdict: Option<string>): ComponentState {
    if IsConfigure(env) && verdict.None? then Running else state
  }

  function NextAsked(env: Incoming, asked: nat): nat {
    if IsConfigure(env) then asked + 1 else asked
  }

  /** Everything a message loop does when no write fails. */
  function Script(inbox: seq<Read>, state: ComponentState, asked: nat, onConfigure: nat -> Option<string>): seq<Act> {
    if inbox == [] || inbox[0].Broken? then []
    else
      var env := inbox[0].env;
      var verdict := onConfigure(asked);
      Reply(env, state, verdict) +
      (if Ends(env) then []
       else Script(inbox[1..], NextState(env, state, verdict), NextAsked(env, asked), onConfigure))
  }

  /** How a read that fails ends a connection. */
  function BrokenOff(f: ReadFault): Outcome {
    match f
    case Eof => Failed(Connection(Closed))
    case IoFault => Failed(AegisError.Io)
    case BadJson => Failed(BadEnvelope)
    case Silence => Failed(Timeout)
  }

  /** How a message loop ends when no write fails. */
  function Close(inbox: seq<Read>): Outcome {
    if inbox == [] then BrokenOff(Eof)
    else match inbox[0]
      case Broken(f) => BrokenOff(f)
      case Got(env) =>
        if IsShutdown(env) then Clean
        else if IsFatal(env) then Failed(Connection(FatalError))
        else Close(inbox[1..])
  }

  /** The state a message loop leaves when no write fails. */
  function Rest(inbox: seq<Read>, state: ComponentState, asked: nat,
                onConfigure: nat -> Option<string>): ComponentState {
    if inbox == [] || inbox[0].Broken? then state
    else
      var env := inbox[0].env;
      if IsShutdown(env) then ComponentState.Shutdown
      else if IsFatal(env) then state
      else Rest(inbox[1..], NextState(env, state, onConfigure(asked)), NextAsked(env, asked), onConfigure)
  }

  /** The acts before the first write that fails, counting writes from w. */
  function Cut(writeOk: nat -> bool, w: nat, acts: seq<Act>): (done: seq<Act>)
    ensures done <= acts
    decreases |acts|
  {
    if acts == [] then []
    else if !acts[0].Wrote? then [acts[0]] + Cut(writeOk, w, acts[1..])
    else if writeOk(w) then [acts[0]] + Cut(writeOk, w + 1, acts[1..])
    else []
  }

  lemma CutCons(writeOk: nat -> bool, w: nat, a: Act, acts: seq<Act>)
    ensures Cut(writeOk, w, [a] + acts) ==
      if !a.Wrote? then [a] + Cut(writeOk, w, acts)
      else if writeOk(w) then [a] + Cut(writeOk, w + 1, acts)
      else []
  {
    assert ([a] + acts)[1..] == acts;
  }

  lemma CutOne(writeOk: nat -> bool, w: nat, a: Act)
    ensures Cut(writeOk, w, [a]) == if a.Wrote? && !writeOk(w) then [] else [a]
  {
    assert [a][1..] == [];
  }

  lemma WireCons(a: Act, acts: seq<Act>)
    ensures Wire([a] + acts) == (if a.Wrote? then [a.env] else []) + Wire(acts)
  {
    assert ([a] + acts)[1..] == acts;
  }

  /** A step that did what the plan says up to its first failing write: it halts on I/O just
      when something is left of the plan. */
  predicate Follows(link: Link, c: Conn, plan: seq<Act>, step: Step) {
    var done := Cut(link.writeOk, c.written, plan);
    && step.conn.acts == c.acts + done
    && (done == plan ==> step.conn.written == c.written + |Wire(plan)|)
    && (done != plan ==> step == Halt(step.conn, Failed(Io)))
  }

  lemma InstallationFollows(link: Link, c: Conn, id: string)
    ensures var step := Install(link, c, id);
      && Follows(link, c, Installation(id), step)
      && (Cut(link.writeOk, c.written, Installation(id)) == Installation(id) ==>
            step == Proceed(step.conn) && step.conn.me == c.me.(state := Running) && step.conn.asked == c.asked)
  {
    var a1, a2, a3 := Wrote(AckEnv(id)), Wrote(StateEnv(ComponentState.Configured)), Wrote(StateEnv(Running));
    var ok, w := link.writeOk, c.written;
    CutInstallation(ok, w, id);
    hide Cut, Wire;
    Assoc(c.acts, [a1], [a2]);
    Assoc(c.acts, [a1] + [a2], [a3]);
    Assoc(c.acts, [a1] + [a2] + [a3], [Spawned]);
    assert [a1] + [a2] + [a3] + [Spawned] == Installation(id);
  }

  lemma CutInstallation(ok: nat -> bool, w: nat, id: string)
    ensures var a1, a2, a3 := Wrote(AckEnv(id)), Wrote(StateEnv(ComponentState.Configured)), Wrote(StateEnv(Running));
      && |Wire(Installation(id))| == 3
      && Cut(ok, w, Installation(id)) ==
           if !ok(w) then [] else if !ok(w + 1) then [a1] else if !ok(w + 2) then [a1] + [a2] else Installation(id)
  {
    var a1, a2, a3 := Wrote(AckEnv(id)), Wrote(StateEnv(ComponentState.Configured)), Wrote(StateEnv(Running));
    CutCons(ok, w, a1, [a2] + ([a3] + [Spawned]));
    CutCons(ok, w + 1, a2, [a3] + [Spawned]);
    CutCons(ok, w + 2, a3, [Spawned]);
    CutOne(ok, w + 3, Spawned);
    WireCons(a1, [a2] + ([a3] + [Spawned]));
    WireCons(a2, [a3] + [Spawned]);
    WireCons(a3, [Spawned]);
    assert Wire([Spawned]) == [];
    assert [a1] + [] == [a1] && [a2] + [] == [a2];
  }

  lemma CutPair(writeOk: nat -> bool, w: nat, a: Act, env: Outgoing)
    requires !a.Wrote?
    ensures Cut(writeOk, w, [a] + [Wrote(env)]) == if writeOk(w) then [a] + [Wrote(env)] else [a]
    ensures Wire([a] + [Wrote(env)]) == [env]
  {
    CutCons(writeOk, w, a, [Wrote(env)]);
    CutOne(writeOk, w, Wrote(env));
    WireCons(a, [Wrote(env)]);
    assert Wire([Wrote(env)]) == [env];
  }

  lemma RefusedFollows(link: Link, c: Conn, env: Incoming)
    requires IsConfigure(env) && link.onConfigure(c.asked).Some?
    ensures HandleFollows(link, c, env)
  {
    CutPair(link.writeOk, c.written, Asking(env), ConfigureFailedEnv(link.onConfigure(c.asked).value));
  }

  lemma AcceptedFollows(link: Link, c: Conn, env: Incoming)
    requires IsConfigure(env) && link.onConfigure(c.asked).None?
    ensures HandleFollows(link, c, env)
  {
    var a, plan := Asking(env), Installation(env.id);
    var c0 := Did(c, a).(asked := c.asked + 1);
    assert Handle(link, c, env) == Install(link, c0, env.id);
    hide Install, Installation, Handle;
    InstallationFollows(link, c0, env.id);
    CutCons(link.writeOk, c.written, a, plan);
    WireCons(a, plan);
    Assoc(c.acts, [a], Cut(link.writeOk, c.written, plan));
  }

  lemma ShutdownFollows(link: Link, c: Conn, env: Incoming)
    requires IsShutdown(env)
    ensures HandleFollows(link, c, env)
  {
    var ack := AckEnv(env.id);
    CutCons(link.writeOk, c.written, Cancelled, [Wrote(ack)] + [Called(OnShutdown)]);
    CutCons(link.writeOk, c.written, Wrote(ack), [Called(OnShutdown)]);
    CutOne(link.writeOk, c.written + 1, Called(OnShutdown));
    WireCons(Cancelled, [Wrote(ack)] + [Called(OnShutdown)]);
    WireCons(Wrote(ack), [Called(OnShutdown)]);
    assert Wire([Called(OnShutdown)]) == [];
  }

  /** What a handler does is the reply its envelope calls for, cut at the first failing write;
      uncut, it also leaves the state, the counters and the outcome that the envelope calls for. */
  predicate HandleFollows(link: Link, c: Conn, env: Incoming) {
    var verdict := link.onConfigure(c.asked);
    var plan := Reply(env, c.me.state, verdict);
    var step := Handle(link, c, env);
    && Follows(link, c, plan, step)
    && (Cut(link.writeOk, c.written, plan) == plan ==>
          if Ends(env) then
            && step == Halt(step.conn, Close([Got(env)]))
            && step.conn.me == c.me.(state := if IsShutdown(env) then ComponentState.Shutdown else c.me.state)
          else
            && step.Proceed?
            && step.conn.me == c.me.(state := NextState(env, c.me.state, verdict))
            && step.conn.asked == NextAsked(env, c.asked))
  }

  lemma HandleIsCut(link: Link, c: Conn, env: Incoming)
    ensures HandleFollows(link, c, env)
  {
    if IsPing(env) {
      CutPair(link.writeOk, c.written, Called(OnPing), PongEnv(env.id, c.me.state));
    } else if IsConfigure(env) {
      if link.onConfigure(c.asked).Some? { RefusedFollows(link, c, env); } else { AcceptedFollows(link, c, env); }
    } else if IsReborn(env) {
      CutPair(link.writeOk, c.written, Called(OnReborn), AckEnv(env.id));
    } else if IsShutdown(env) {
      ShutdownFollows(link, c, env);
    } else if env.kind == MessageType.Error {
      var a := Called(OnError(TextOr(env.payload, "code", "UNKNOWN"), TextOr(env.payload, "message", "")));
      CutOne(link.writeOk, c.written, a);
      assert Wire([a]) == [];
    }
  }

  /** Whether the step completes a CONFIGURE that on_configure accepts. */
  predicate Installs(link: Link, c: Conn, env: Incoming) {
    IsConfigure(env) && link.onConfigure(c.asked).None? && Handle(link, c, env).Proceed?
  }

  lemma InstallationSpawns(id: string)
    ensures Spawns(Installation(id)) == 1
    ensures forall i | 0 <= i < 3 :: Installation(id)[i] != Spawned
    ensures Cancelled !in Installation(id) && |Installation(id)| == 4 && Installation(id)[3] == Spawned
  {
    var front := Installation(id)[..3];
    NoSpawns(front);
    assert Installation(id) == front + [Spawned];
    SpawnsConcat(front, [Spawned]);
    assert Spawns([Spawned]) == 1;
  }

  /** A handler spawns a worker only when it completes a CONFIGURE, and cancels the token only
      on SHUTDOWN, whether or not its writes succeed. */
  lemma HandleMarks(link: Link, c: Conn, env: Incoming)
    ensures var acts := Handle(link, c, env).conn.acts;
      && Spawns(acts) == Spawns(c.acts) + (if Installs(link, c, env) then 1 else 0)
      && (Cancelled in acts <==> Cancelled in c.acts || IsShutdown(env))
  {
    var plan := Reply(env, c.me.state, link.onConfigure(c.asked));
    var done := Cut(link.writeOk, c.written, plan);
    HandleIsCut(link, c, env);
    SpawnsConcat(c.acts, done);
    ReplyMarks(env, c.me.state, link.onConfigure(c.asked), done);
    if IsShutdown(env) {
      CutCons(link.writeOk, c.written, Cancelled, [Wrote(AckEnv(env.id))] + [Called(OnShutdown)]);
    }
  }

  /** The marks of a reply, and of any part of it that is done. */
  lemma ReplyMarks(env: Incoming, state: ComponentState, verdict: Option<string>, done: seq<Act>)
    requires done <= Reply(env, state, verdict)
    ensures var plan := Reply(env, state, verdict);
      && Spawns(done) == (if done == plan && IsConfigure(env) && verdict.None? then 1 else 0)
      && (Cancelled in done ==> IsShutdown(env))
  {
    if IsConfigure(env) && verdict.None? {
      InstallationSpawns(env.id);
      if done != [] {
        var rest := done[1..];
        assert done == [Asking(env)] + rest;
        NoSpawns([Asking(env)]);
        SpawnsConcat([Asking(env)], rest);
        if |rest| < 4 {
          NoSpawns(rest);
        } else {
          assert rest == Installation(env.id);
        }
      }
    } else {
      NoSpawns(done);
    }
  }

  lemma {:induction false} CutConcat(writeOk: nat -> bool, w: nat, a: seq<Act>, b: seq<Act>)
    ensures Cut(writeOk, w, a + b) ==
      if Cut(writeOk, w, a) == a then a + Cut(writeOk, w + |Wire(a)|, b) else Cut(writeOk, w, a)
    decreases |a|
  {
    hide Cut, Wire;
    if a == [] {
      CutNothing(writeOk, w, b);
    } else {
      CutConcat(writeOk, if a[0].Wrote? then w + 1 else w, a[1..], b);
      assert a == [a[0]] + a[1..];
      CutConcatCons(writeOk, w, a[0], a[1..], b);
    }
  }

  lemma CutNothing(writeOk: nat -> bool, w: nat, b: seq<Act>)
    ensures Cut(writeOk, w, []) == [] && Wire([]) == []
    ensures [] + b == b && [] + Cut(writeOk, w, b) == Cut(writeOk, w, b)
  {
  }

  lemma CutConcatCons(writeOk: nat -> bool, w: nat, h: Act, t: seq<Act>, b: seq<Act>)
    requires var w' := if h.Wrote? then w + 1 else w;
      Cut(writeOk, w', t + b) ==
        if Cut(writeOk, w', t) == t then t + Cut(writeOk, w' + |Wire(t)|, b) else Cut(writeOk, w', t)
    ensures Cut(writeOk, w, [h] + t + b) ==
      if Cut(writeOk, w, [h] + t) == [h] + t then [h] + t + Cut(writeOk, w + |Wire([h] + t)|, b)
      else Cut(writeOk, w, [h] + t)
  {
    var w' := if h.Wrote? then w + 1 else w;
    Assoc([h], t, b);
    CutCons(writeOk, w, h, t + b);
    CutCons(writeOk, w, h, t);
    WireCons(h, t);
    hide Cut, Wire;
    Assoc([h], t, Cut(writeOk, w' + |Wire(t)|, b));
    ConsTail(h, t);
    ConsTail(h, Cut(writeOk, w', t));
  }

  /** What is left of the script after an envelope. */
  function After(inbox: seq<Read>, state: ComponentState, asked: nat, onConfigure: nat -> Option<string>): seq<Act>
    requires inbox != [] && inbox[0].Got?
  {
    var env := inbox[0].env;
    if Ends(env) then []
    else Script(inbox[1..], NextState(env, state, onConfigure(asked)), NextAsked(env, asked), onConfigure)
  }

  /** A message loop does its script up to the first failing write, and fails on I/O just when
      something of the script is left. */
  predicate LoopFollows(link: Link, inbox: seq<Read>, c: Conn) {
    var script := Script(inbox, c.me.state, c.asked, link.onConfigure);
    var done := Cut(link.writeOk, c.written, script);
    var e := Loop(link, inbox, c);
    && e.conn.acts == c.acts + done
    && e.outcome == (if done == script then Close(inbox) else Failed(Io))
    && (done == script ==> e.conn.me == c.me.(state := Rest(inbox, c.me.state, c.asked, link.onConfigure)))
  }

  lemma LoopHaltFollows(link: Link, inbox: seq<Read>, c: Conn)
    requires inbox != [] && inbox[0].Got? && Handle(link, c, inbox[0].env).Halt?
    ensures LoopFollows(link, inbox, c)
  {
    HandleIsCut(link, c, inbox[0].env);
    hide Handle, Reply;
    var plan := Reply(inbox[0].env, c.me.state, link.onConfigure(c.asked));
    CutConcat(link.writeOk, c.written, plan, After(inbox, c.me.state, c.asked, link.onConfigure));
  }

  lemma {:induction false} LoopIsCutScript(link: Link, inbox: seq<Read>, c: Conn)
    ensures LoopFollows(link, inbox, c)
    decreases |inbox|
  {
    hide Handle, Reply;
    if inbox != [] && inbox[0].Got? {
      var step := Handle(link, c, inbox[0].env);
      if step.Halt? {
        LoopHaltFollows(link, inbox, c);
      } else {
        HandleIsCut(link, c, inbox[0].env);
        LoopIsCutScript(link, inbox[1..], step.conn);
        var plan := Reply(inbox[0].env, c.me.state, link.onConfigure(c.asked));
        var rest := After(inbox, c.me.state, c.asked, link.onConfigure);
        CutConcat(link.writeOk, c.written, plan, rest);
        Assoc(c.acts, plan, Cut(link.writeOk, step.conn.written, rest));
      }
    }
  }

  // ----- a whole connection -----

  /** Whether the first read is a REGISTERED that carries both ids. */
  predicate Welcomed(link: Link) {
    var first := Await(link);
    && first.Got? && first.env.command == Command.Registered
    && "component_id" in first.env.payload && "session_id" in first.env.payload
  }

  /** The identity a REGISTERED gives. */
  function Welcome(link: Link): Machine
    requires Welcomed(link)
  {
    var p := Await(link).env.payload;
    Machine(Ready, TextOr(p, "component_id", ""), TextOr(p, "session_id", ""))
  }

  function Greeting(): seq<Act> { [Wrote(StateEnv(Initializing))] + [Wrote(StateEnv(Ready))] }

  /** Everything run_once does when no write fails. */
  function SessionScript(envId: string, m: Machine, link: Link): seq<Act> {
    if !link.opens then []
    else
      [Wrote(RegisterEnv(Offer(envId, m.componentId)))] +
      (if Welcomed(link) then Greeting() + Script(Tail(link.inbox), Ready, 0, link.onConfigure) else [])
  }

  /** How run_once ends when no write fails. */
  function SessionClose(link: Link): Outcome {
    if !link.opens then Failed(Io)
    else match Await(link)
      case Broken(f) => BrokenOff(f)
      case Got(resp) =>
        if resp.command != Command.Registered then Failed(Registration(resp.command))
        else if !Welcomed(link) then Panicked
        else Close(Tail(link.inbox))
  }

  lemma RegisterFollows(envId: string, m: Machine, link: Link)
    ensures var plan := [Wrote(RegisterEnv(Offer(envId, m.componentId)))] + (if Welcomed(link) then Greeting() else []);
      var done := Cut(link.writeOk, 0, plan);
      var step := RustSession.Register(envId, link, Start(m));
      && step.conn.acts == done
      && (done != plan ==> step == Halt(step.conn, Failed(Io)))
      && (done == plan && Welcomed(link) ==> step == Proceed(Conn(Welcome(link), done, 3, 0)))
      && (done == plan && !Welcomed(link) ==> step == Halt(step.conn, SessionClose(link.(opens := true))))
  {
    var r := Wrote(RegisterEnv(Offer(envId, m.componentId)));
    CutCons(link.writeOk, 0, r, if Welcomed(link) then Greeting() else []);
    CutOne(link.writeOk, 0, r);
    assert [r] + [] == [r] && [] + [r] == [r];
    if Welcomed(link) {
      var me := Welcome(link).(state := ComponentState.Registered);
      GreetFollows(link, Conn(me, [r], 1, 0));
      ConsTail(r, Greeting());
      ConsTail(r, Cut(link.writeOk, 1, Greeting()));
    }
    hide Cut, RustSession.Greet, Greeting, RegisterEnv, Offer, TextOr;
  }

  lemma GreetFollows(link: Link, c: Conn)
    ensures var done := Cut(link.writeOk, c.written, Greeting());
      var step := RustSession.Greet(link, c);
      && step.conn.acts == c.acts + done
      && (done != Greeting() ==> step == Halt(step.conn, Failed(Io)))
      && (done == Greeting() ==>
            step == Proceed(Conn(c.me.(state := Ready), c.acts + done, c.written + 2, c.asked)))
  {
    var i, y := Wrote(StateEnv(Initializing)), Wrote(StateEnv(Ready));
    CutCons(link.writeOk, c.written, i, [y]);
    CutOne(link.writeOk, c.written + 1, y);
    Assoc(c.acts, [i], [y]);
    assert [i] + [] == [i];
  }

  /** A connection does its script up to the first failing write. It ends as its input says,
      unless something of the script is left; then it ends with an I/O error. */
  lemma SessionIsCutScript(envId: string, m: Machine, link: Link)
    ensures var script := SessionScript(envId, m, link);
      var done := Cut(link.writeOk, 0, script);
      var e := Session(envId, m, link);
      && e.conn.acts == done
      && e.outcome == (if done == script then SessionClose(link) else Failed(Io))
  {
    if link.opens {
      if Welcomed(link) {
        WelcomedIsCut(envId, m, link);
      } else {
        RegisterFollows(envId, m, link);
      }
    }
    hide RustSession.Register, Script, Loop, Close, Greeting;
  }

  lemma WelcomedIsCut(envId: string, m: Machine, link: Link)
    requires link.opens && Welcomed(link)
    ensures var script := SessionScript(envId, m, link);
      var done := Cut(link.writeOk, 0, script);
      var e := Session(envId, m, link);
      && e.conn.acts == done
      && e.outcome == (if done == script then Close(Tail(link.inbox)) else Failed(Io))
  {
    var hello := [Wrote(RegisterEnv(Offer(envId, m.componentId)))] + Greeting();
    var rest := Script(Tail(link.inbox), Ready, 0, link.onConfigure);
    WelcomedRegisters(envId, m, link);
    WelcomedScript(envId, m, link);
    hide SessionScript, Cut, Wire, Greeting, RustSession.Register, Script, Loop, Close, Welcomed;
    if Cut(link.writeOk, 0, hello) == hello {
      LoopIsCutScript(link, Tail(link.inbox), Conn(Welcome(link), hello, 3, 0));
      CutAfter(link.writeOk, hello, rest);
    }
  }

  lemma WelcomedRegisters(envId: string, m: Machine, link: Link)
    requires Welcomed(link)
    ensures var hello := [Wrote(RegisterEnv(Offer(envId, m.componentId)))] + Greeting();
      var done := Cut(link.writeOk, 0, hello);
      var step := RustSession.Register(envId, link, Start(m));
      if done == hello then step == Proceed(Conn(Welcome(link), hello, 3, 0))
      else step == Halt(step.conn, Failed(Io)) && step.conn.acts == done
  {
    RegisterFollows(envId, m, link);
    hide Cut, Greeting, RustSession.Register, Welcomed;
  }

  lemma WelcomedScript(envId: string, m: Machine, link: Link)
    requires link.opens && Welcomed(link)
    ensures var hello := [Wrote(RegisterEnv(Offer(envId, m.componentId)))] + Greeting();
      var rest := Script(Tail(link.inbox), Ready, 0, link.onConfigure);
      && SessionScript(envId, m, link) == hello + rest
      && Cut(link.writeOk, 0, hello + rest) ==
           (if Cut(link.writeOk, 0, hello) == hello then hello + Cut(link.writeOk, 3, rest)
            else Cut(link.writeOk, 0, hello))
      && (Cut(link.writeOk, 0, hello) != hello ==> Cut(link.writeOk, 0, hello) != hello + rest)
  {
    var hello := [Wrote(RegisterEnv(Offer(envId, m.componentId)))] + Greeting();
    var rest := Script(Tail(link.inbox), Ready, 0, link.onConfigure);
    Assoc([Wrote(RegisterEnv(Offer(envId, m.componentId)))], Greeting(), rest);
    GreetingWire(Offer(envId, m.componentId));
    hide Script, Wire, Greeting, Cut, Welcomed, Offer;
    CutSplit(link.writeOk, hello, rest);
  }

  lemma CutSplit(writeOk: nat -> bool, a: seq<Act>, b: seq<Act>)
    requires |Wire(a)| == 3
    ensures Cut(writeOk, 0, a + b) ==
      if Cut(writeOk, 0, a) == a then a + Cut(writeOk, 3, b) else Cut(writeOk, 0, a)
    ensures Cut(writeOk, 0, a) != a ==> Cut(writeOk, 0, a) != a + b
  {
    CutConcat(writeOk, 0, a, b);
    var done := Cut(writeOk, 0, a);
    hide Cut, Wire;
    assert |done| == |a| ==> done == a;
  }

  lemma CutAfter(writeOk: nat -> bool, a: seq<Act>, b: seq<Act>)
    ensures a + Cut(writeOk, 3, b) == a + b <==> Cut(writeOk, 3, b) == b
  {
    assert (a + b)[|a|..] == b;
    assert (a + Cut(writeOk, 3, b))[|a|..] == Cut(writeOk, 3, b);
  }

  lemma GreetingWire(offer: Option<string>)
    ensures Wire([Wrote(RegisterEnv(offer))] + Greeting()) ==
      [RegisterEnv(offer), StateEnv(Initializing), StateEnv(Ready)]
  {
    WireCons(Wrote(RegisterEnv(offer)), Greeting());
    WireCons(Wrote(StateEnv(Initializing)), [Wrote(StateEnv(Ready))]);
    assert Wire([Wrote(StateEnv(Ready))]) == [StateEnv(Ready)];
  }
}
