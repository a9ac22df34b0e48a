/** The Go and the Rust client on one connection: what can be observed of one is what can be
    observed of the other, but for the acknowledgements that Go waits for and the SHUTDOWN that
    it sends last. */
module Simulation {
  import opened Protocol
  import R = RustSession
  import T = RustTrace
  import F = RustFilter
  import W = RustWire
  import G = GoSession

  // ----- what can be observed -----

  /** Type, command, correlation and reported state of an envelope. */
  datatype Seen = Seen(kind: MessageType, command: Command, corr: Option<string>, state: Option<ComponentState>)

  function Observe(e: Outgoing): Seen {
    var state := match e.body case Reports(s) => Some(s) case Beat(s) => Some(s) case _ => None;
    Seen(e.kind, e.command, e.corr, state)
  }

  /** A callback up to the code that on_error gets when the payload has none, which is UNKNOWN in
      Rust and empty in Go. */
  function Normal(cb: Callback): Callback {
    match cb
    case OnError(code, text) => OnError(if code == "UNKNOWN" then "" else code, text)
    case _ => cb
  }

  datatype Sight = Saw(seen: Seen) | Made(callback: Callback) | Worker

  function SightOf(a: Act): seq<Sight> {
    match a
    case Wrote(e) => [Saw(Observe(e))]
    case Called(cb) => [Made(Normal(cb))]
    case Spawned => [Worker]
    case Cancelled => []
  }

  /** Envelopes, callbacks and workers in the order they happen. */
  function Visible(acts: seq<Act>): seq<Sight> {
    if acts == [] then [] else Visible(acts[..|acts| - 1]) + SightOf(acts[|acts| - 1])
  }

  lemma VisibleSnoc(acts: seq<Act>, a: Act)
    ensures Visible(acts + [a]) == Visible(acts) + SightOf(a)
  {
    assert (acts + [a])[..|acts|] == acts;
  }

  lemma {:induction false} VisibleConcat(a: seq<Act>, b: seq<Act>)
    ensures Visible(a + b) == Visible(a) + Visible(b)
    decreases |b|
  {
    if b == [] {
      assert a + b == a;
    } else {
      var front := b[..|b| - 1];
      Assoc(a, front, [b[|b| - 1]]);
      assert b == front + [b[|b| - 1]];
      VisibleSnoc(a + front, b[|b| - 1]);
      VisibleConcat(a, front);
      Assoc(Visible(a), Visible(front), SightOf(b[|b| - 1]));
    }
  }

  // ----- comparable input -----

  /** Input of the Go loop in which an envelope, taken as the acknowledgement, follows each state
      update that an accepted CONFIGURE causes, and no REBORN is handled. */
  predicate Comparable(inbox: seq<Read>, asked: nat, onConfigure: nat -> Option<string>)
    decreases |inbox|
  {
    inbox == [] || inbox[0].Broken? ||
    (var env := inbox[0].env;
     && !IsReborn(env)
     && (T.Ends(env) ||
         if IsConfigure(env) && onConfigure(asked).None?
         then |inbox| >= 3 && inbox[1].Got? && inbox[2].Got? && Comparable(inbox[3..], asked + 1, onConfigure)
         else Comparable(inbox[1..], T.NextAsked(env, asked), onConfigure)))
  }

  /** The same input without the acknowledgements. */
  function Strip(inbox: seq<Read>, asked: nat, onConfigure: nat -> Option<string>): seq<Read>
    requires Comparable(inbox, asked, onConfigure)
    decreases |inbox|
  {
    if inbox == [] || inbox[0].Broken? || T.Ends(inbox[0].env) then inbox
    else
      var env := inbox[0].env;
      [inbox[0]] +
      if IsConfigure(env) && onConfigure(asked).None?
      then Strip(inbox[3..], asked + 1, onConfigure)
      else Strip(inbox[1..], T.NextAsked(env, asked), onConfigure)
  }

  /** A link on which the two clients are compared: it does not fail to write, Go's context is not
      cancelled, and a REGISTERED carries both ids and is followed by two acknowledgements and
      comparable input. */
  ghost predicate Fair(link: Link) {
    && (forall k :: link.writeOk(k)) && link.cancel == None
    && (link.inbox != [] && link.inbox[0].Got? && link.inbox[0].env.command == Command.Registered ==>
          && T.Welcomed(link)
          && |link.inbox| >= 3 && link.inbox[1].Got? && link.inbox[2].Got?
          && Comparable(link.inbox[3..], 0, link.onConfigure))
  }

  /** The link that the Rust client is given for comparison. */
  ghost function Stripped(link: Link): Link
    requires Fair(link)
  {
    if T.Welcomed(link)
    then link.(inbox := [link.inbox[0]] + Strip(link.inbox[3..], 0, link.onConfigure))
    else link
  }

  // ----- one envelope -----

  lemma InstallVisible(link: Link, g: G.Conn, id: string)
    requires forall k :: link.writeOk(k)
    requires |g.unread| >= 2 && g.unread[0].Got? && g.unread[1].Got?
    ensures var g0 := G.Send(link, g, AckEnv(id)).conn;
      var step := G.Install(link, g0);
      && step.Fine? && step.conn.unread == g.unread[2..] && step.conn.asked == g.asked
      && step.conn.me == g.me.(state := Running)
      && Visible(step.conn.acts) == Visible(g.acts) + Visible(T.Installation(id))
  {
    var a0, a1, a2 := Wrote(AckEnv(id)), Wrote(StateEnv(ComponentState.Configured)), Wrote(StateEnv(Running));
    var acts := g.acts + [a0] + [a1] + [a2] + [Spawned];
    assert g.unread[1..][1..] == g.unread[2..];
    assert G.Install(link, G.Send(link, g, AckEnv(id)).conn).conn.acts == acts;
    Assoc(g.acts, [a0], [a1]);
    Assoc(g.acts, [a0] + [a1], [a2]);
    Assoc(g.acts, [a0] + [a1] + [a2], [Spawned]);
    assert [a0] + [a1] + [a2] + [Spawned] == T.Installation(id);
    VisibleConcat(g.acts, T.Installation(id));
  }

  /** What the Go loop has left to read after an envelope. */
  function Left(unread: seq<Read>, env: Incoming, verdict: Option<string>): seq<Read> {
    if IsConfigure(env) && verdict.None? then (if |unread| >= 2 then unread[2..] else []) else unread
  }

  /** One envelope that does not end the loop: Go does, visibly, what the Rust reply says. */
  predicate Mimics(link: Link, g: G.Conn, env: Incoming) {
    var verdict := link.onConfigure(g.asked);
    var h := G.Handle(link, g, env);
    var reply := T.Reply(env, g.me.state, verdict);
    if IsShutdown(env) then
      && h.Return? && h.failure == None && h.conn.me.state == ComponentState.Shutdown
      && Visible(h.conn.acts) == Visible(g.acts) + (Visible(reply) + [Saw(Observe(ShutdownEnv()))])
    else
      && Visible(h.conn.acts) == Visible(g.acts) + Visible(reply)
      && h.conn.me == g.me.(state := T.NextState(env, g.me.state, verdict))
      && h.conn.asked == T.NextAsked(env, g.asked)
      && h.conn.unread == Left(g.unread, env, verdict)
      && if IsFatal(env) then h == G.Return(h.conn, Some(G.FatalMessage)) else h.Continue?
  }

  lemma AcceptedMimics(link: Link, g: G.Conn, env: Incoming)
    requires forall k :: link.writeOk(k)
    requires IsConfigure(env) && link.onConfigure(g.asked).None?
    requires |g.unread| >= 2 && g.unread[0].Got? && g.unread[1].Got?
    ensures Mimics(link, g, env)
  {
    GoAccepts(link, g, env);
    AcceptedVisible(link, g, env);
    hide G.Install, G.Handle, G.Send, T.Reply, Visible;
  }

  lemma AcceptedVisible(link: Link, g: G.Conn, env: Incoming)
    requires forall k :: link.writeOk(k)
    requires IsConfigure(env) && link.onConfigure(g.asked).None?
    requires |g.unread| >= 2 && g.unread[0].Got? && g.unread[1].Got?
    ensures var g0 := G.Did(g, T.Asking(env)).(asked := g.asked + 1);
      var step := G.Install(link, G.Send(link, g0, AckEnv(env.id)).conn);
      && step.Fine? && step.conn.unread == g.unread[2..] && step.conn.asked == g.asked + 1
      && step.conn.me == g.me.(state := Running)
      && Visible(step.conn.acts) == Visible(g.acts) + Visible(T.Reply(env, g.me.state, None))
  {
    var ask, rest := T.Asking(env), T.Installation(env.id);
    InstallVisible(link, G.Did(g, ask).(asked := g.asked + 1), env.id);
    hide G.Install, G.Send, T.Installation, Visible;
    VisibleSnoc(g.acts, ask);
    VisibleConcat([ask], rest);
    VisibleOne(ask);
    Assoc(Visible(g.acts), Visible([ask]), Visible(rest));
  }

  lemma GoAccepts(link: Link, g: G.Conn, env: Incoming)
    requires IsConfigure(env) && link.onConfigure(g.asked).None?
    ensures var g0 := G.Did(g, T.Asking(env)).(asked := g.asked + 1);
      G.Handle(link, g, env) == G.Continue(G.Install(link, G.Send(link, g0, AckEnv(env.id)).conn).conn)
  {
    hide G.Install, G.Send;
  }

  lemma VisibleOne(a: Act)
    ensures Visible([a]) == SightOf(a)
  {
    VisibleSnoc([], a);
    assert [] + [a] == [a] && [] + SightOf(a) == SightOf(a);
    assert Visible([]) == [];
  }

  /** A callback and then a write. */
  lemma VisiblePair(acts: seq<Act>, a: Act, b: Act)
    ensures Visible(acts + [a] + [b]) == Visible(acts) + Visible([a] + [b])
  {
    Assoc(acts, [a], [b]);
    VisibleConcat(acts, [a] + [b]);
  }

  lemma GoRefuses(link: Link, g: G.Conn, env: Incoming, text: string)
    requires link.writeOk(g.written)
    requires IsConfigure(env) && link.onConfigure(g.asked) == Some(text)
    ensures G.Handle(link, g, env) == G.Continue(g.(
      acts := g.acts + [T.Asking(env)] + [Wrote(ConfigureFailedEnv(text))],
      asked := g.asked + 1, written := g.written + 1))
  {
  }

  lemma RefusedMimics(link: Link, g: G.Conn, env: Incoming)
    requires forall k :: link.writeOk(k)
    requires IsConfigure(env) && link.onConfigure(g.asked).Some?
    ensures Mimics(link, g, env)
  {
    var text := link.onConfigure(g.asked).value;
    VisiblePair(g.acts, T.Asking(env), Wrote(ConfigureFailedEnv(text)));
    GoRefuses(link, g, env, text);
    hide Visible, G.Handle;
  }

  lemma ShutdownVisible(acts: seq<Act>, id: string)
    ensures Visible(acts + [Wrote(AckEnv(id))] + [Called(OnShutdown)] + [Wrote(ShutdownEnv())]) ==
      Visible(acts) +
      (Visible([Cancelled] + ([Wrote(AckEnv(id))] + [Called(OnShutdown)])) + [Saw(Observe(ShutdownEnv()))])
  {
    var ack, call, bye := Wrote(AckEnv(id)), Called(OnShutdown), Wrote(ShutdownEnv());
    VisibleSnoc(acts + [ack] + [call], bye);
    VisiblePair(acts, ack, call);
    VisibleConcat([Cancelled], [ack] + [call]);
    VisibleOne(Cancelled);
    hide Visible, Observe;
    assert [] + Visible([ack] + [call]) == Visible([ack] + [call]);
    Assoc(Visible(acts), Visible([ack] + [call]), [Saw(Observe(ShutdownEnv()))]);
  }

  lemma ShutdownMimics(link: Link, g: G.Conn, env: Incoming)
    requires forall k :: link.writeOk(k)
    requires IsShutdown(env)
    ensures Mimics(link, g, env)
  {
    ShutdownVisible(g.acts, env.id);
    hide Visible, Observe;
  }

  lemma ErrorMimics(link: Link, g: G.Conn, env: Incoming)
    requires env.kind == MessageType.Error
    ensures Mimics(link, g, env)
  {
    var text := TextOr(env.payload, "message", "");
    var rust := Called(OnError(TextOr(env.payload, "code", "UNKNOWN"), text));
    var go := Called(OnError(TextOr(env.payload, "code", ""), text));
    VisibleSnoc(g.acts, go);
    VisibleOne(rust);
    hide Visible;
  }

  lemma HandleMimics(link: Link, g: G.Conn, env: Incoming)
    requires (forall k :: link.writeOk(k)) && !IsReborn(env)
    requires IsConfigure(env) && link.onConfigure(g.asked).None? ==>
      |g.unread| >= 2 && g.unread[0].Got? && g.unread[1].Got?
    ensures Mimics(link, g, env)
  {
    hide Mimics;
    if IsConfigure(env) {
      if link.onConfigure(g.asked).None? { AcceptedMimics(link, g, env); } else { RefusedMimics(link, g, env); }
    } else if IsShutdown(env) {
      ShutdownMimics(link, g, env);
    } else if env.kind == MessageType.Error {
      ErrorMimics(link, g, env);
    } else if IsPing(env) {
      PingMimics(link, g, env);
    } else {
      NothingMimics(link, g, env);
    }
  }

  lemma PingMimics(link: Link, g: G.Conn, env: Incoming)
    requires (forall k :: link.writeOk(k)) && IsPing(env)
    ensures Mimics(link, g, env)
  {
    VisiblePair(g.acts, Called(OnPing), Wrote(PongEnv(env.id, g.me.state)));
    hide Visible;
  }

  lemma NothingMimics(link: Link, g: G.Conn, env: Incoming)
    requires !IsPing(env) && !IsConfigure(env) && !IsReborn(env) && !IsShutdown(env) && env.kind != MessageType.Error
    ensures Mimics(link, g, env)
  {
    assert Visible(g.acts) + [] == Visible(g.acts);
  }

  // ----- the loop -----

  function ByeOf(o: R.Outcome): seq<Sight> {
    if o == R.Clean then [Saw(Observe(ShutdownEnv()))] else []
  }

  /** The Go loop shows the Rust script of the stripped input, and a final SHUTDOWN after a clean
      end; it returns nil just then, and leaves the same state. */
  predicate LoopMimics(link: Link, g: G.Conn, head: nat)
    requires Comparable(g.unread, g.asked, link.onConfigure)
  {
    var inbox := Strip(g.unread, g.asked, link.onConfigure);
    var e := G.Loop(link, g, head);
    var o := T.Close(inbox);
    && Visible(e.conn.acts) ==
         Visible(g.acts) + (Visible(T.Script(inbox, g.me.state, g.asked, link.onConfigure)) + ByeOf(o))
    && (e.failure == None <==> o == R.Clean)
    && e.conn.me.state == T.Rest(inbox, g.me.state, g.asked, link.onConfigure)
  }

  lemma EndMimics(link: Link, g: G.Conn, head: nat)
    requires link.cancel == None && Comparable(g.unread, g.asked, link.onConfigure)
    requires g.unread == [] || g.unread[0].Broken?
    ensures LoopMimics(link, g, head)
  {
    assert Visible(g.acts) + (Visible([]) + []) == Visible(g.acts);
  }

  lemma LastMimics(link: Link, g: G.Conn, head: nat)
    requires link.cancel == None && (forall k :: link.writeOk(k)) && Comparable(g.unread, g.asked, link.onConfigure)
    requires g.unread != [] && g.unread[0].Got? && T.Ends(g.unread[0].env)
    ensures LoopMimics(link, g, head)
  {
    var env := g.unread[0].env;
    HandleMimics(link, G.Skip(g), env);
    hide G.Handle, T.Reply, Visible, Left, Recoverable;
    var reply := T.Reply(env, g.me.state, link.onConfigure(g.asked));
    assert reply + [] == reply;
    assert Visible(reply) + [] == Visible(reply);
  }

  lemma StripCons(inbox: seq<Read>, asked: nat, onConfigure: nat -> Option<string>)
    requires Comparable(inbox, asked, onConfigure)
    requires inbox != [] && inbox[0].Got? && !T.Ends(inbox[0].env)
    ensures var env := inbox[0].env;
      var left := Left(inbox[1..], env, onConfigure(asked));
      var stripped := Strip(inbox, asked, onConfigure);
      && Comparable(left, T.NextAsked(env, asked), onConfigure)
      && stripped != [] && stripped[0] == inbox[0]
      && stripped[1..] == Strip(left, T.NextAsked(env, asked), onConfigure)
      && |left| < |inbox|
  {
    if |inbox| >= 3 {
      assert inbox[1..][2..] == inbox[3..];
    }
  }

  /** The first envelope of comparable input, when it does not end the loop. */
  lemma HeadMimics(link: Link, g: G.Conn)
    requires (forall k :: link.writeOk(k)) && Comparable(g.unread, g.asked, link.onConfigure)
    requires g.unread != [] && g.unread[0].Got? && !T.Ends(g.unread[0].env)
    ensures var env := g.unread[0].env;
      var left := Left(g.unread[1..], env, link.onConfigure(g.asked));
      var stripped := Strip(g.unread, g.asked, link.onConfigure);
      && Mimics(link, G.Skip(g), env)
      && Comparable(left, T.NextAsked(env, g.asked), link.onConfigure)
      && stripped != [] && stripped[0] == g.unread[0]
      && stripped[1..] == Strip(left, T.NextAsked(env, g.asked), link.onConfigure)
      && |left| < |g.unread|
  {
    StripCons(g.unread, g.asked, link.onConfigure);
    hide Mimics, Strip;
    HandleMimics(link, G.Skip(g), g.unread[0].env);
  }

  lemma {:induction false} LoopSimulates(link: Link, g: G.Conn, head: nat)
    requires link.cancel == None && (forall k :: link.writeOk(k)) && Comparable(g.unread, g.asked, link.onConfigure)
    ensures LoopMimics(link, g, head)
    decreases |g.unread|
  {
    if g.unread == [] || g.unread[0].Broken? {
      EndMimics(link, g, head);
    } else if T.Ends(g.unread[0].env) {
      LastMimics(link, g, head);
    } else {
      var env := g.unread[0].env;
      HeadMimics(link, g);
      var g' := G.Handle(link, G.Skip(g), env).conn;
      var verdict := link.onConfigure(g.asked);
      var reply := T.Reply(env, g.me.state, verdict);
      assert G.Loop(link, g, head) == G.Loop(link, g', head + 1);
      hide G.Handle, G.Loop, T.Reply, Comparable, Strip, Left, Visible;
      LoopSimulates(link, g', head + 1);
      var inbox := Strip(g'.unread, g'.asked, link.onConfigure);
      var rest := T.Script(inbox, g'.me.state, g'.asked, link.onConfigure);
      VisibleConcat(reply, rest);
      Assoc(Visible(reply), Visible(rest), ByeOf(T.Close(inbox)));
      Assoc(Visible(g.acts), Visible(reply), Visible(rest) + ByeOf(T.Close(inbox)));
    }
  }

  // ----- a connection -----

  lemma GoRegisters(goId: string, m: G.Machine, link: Link)
    requires Fair(link)
    ensures var step := G.Register(goId, link, G.Start(m, link));
      if T.Welcomed(link) then
        && step.Fine? && step.conn.unread == link.inbox[3..] && step.conn.asked == 0
        && step.conn.me.state == Ready
        && step.conn.acts == [Wrote(RegisterEnv(Some(goId)))] + T.Greeting()
      else step.Err? && step.conn.acts == [Wrote(RegisterEnv(Some(goId)))]
  {
    var r, i, y := Wrote(RegisterEnv(Some(goId))), Wrote(StateEnv(Initializing)), Wrote(StateEnv(Ready));
    assert [] + [r] == [r];
    Assoc([r], [i], [y]);
    if |link.inbox| >= 3 {
      assert link.inbox[1..][1..][1..] == link.inbox[3..];
    }
  }

  lemma RegisterVisible(a: Option<string>, b: Option<string>)
    ensures Visible([Wrote(RegisterEnv(a))]) == Visible([Wrote(RegisterEnv(b))])
    ensures Visible([Wrote(RegisterEnv(a))] + T.Greeting()) == Visible([Wrote(RegisterEnv(b))] + T.Greeting())
  {
    VisibleSnoc([], Wrote(RegisterEnv(a)));
    VisibleSnoc([], Wrote(RegisterEnv(b)));
    assert [] + [Wrote(RegisterEnv(a))] == [Wrote(RegisterEnv(a))];
    assert [] + [Wrote(RegisterEnv(b))] == [Wrote(RegisterEnv(b))];
    VisibleConcat([Wrote(RegisterEnv(a))], T.Greeting());
    VisibleConcat([Wrote(RegisterEnv(b))], T.Greeting());
  }

  /** The Rust session of a link without failing writes shows its script. */
  lemma RustShows(envId: string, m: R.Machine, link: Link)
    requires forall k :: link.writeOk(k)
    ensures var e := R.Session(envId, m, link);
      && e.conn.acts == T.SessionScript(envId, m, link) && e.outcome == T.SessionClose(link)
      && (link.opens && T.Welcomed(link) ==>
            e.conn.me.state == T.Rest(R.Tail(link.inbox), Ready, 0, link.onConfigure))
  {
    T.SessionIsCutScript(envId, m, link);
    W.Uncut(link.writeOk, 0, T.SessionScript(envId, m, link));
    T.RegisterFollows(envId, m, link);
    var register := [Wrote(RegisterEnv(R.Offer(envId, m.componentId)))];
    W.Uncut(link.writeOk, 0, register + (if T.Welcomed(link) then T.Greeting() else []));
    hide R.Register, T.SessionScript;
    var step := R.Register(envId, link, R.Start(m));
    if link.opens && T.Welcomed(link) {
      T.LoopIsCutScript(link, R.Tail(link.inbox), step.conn);
      W.Uncut(link.writeOk, 3, T.Script(R.Tail(link.inbox), Ready, 0, link.onConfigure));
    }
  }

  lemma StrippedLink(link: Link)
    requires Fair(link)
    ensures var s := Stripped(link);
      && s == link.(inbox := s.inbox)
      && R.Await(s) == R.Await(link) && T.Welcomed(s) == T.Welcomed(link)
      && (T.Welcomed(link) ==> R.Tail(s.inbox) == Strip(link.inbox[3..], 0, link.onConfigure))
  {
    if T.Welcomed(link) {
      ConsTail(link.inbox[0], Strip(link.inbox[3..], 0, link.onConfigure));
    }
  }

  /** On one fair link, whatever either client did before, the Go client's envelopes, callbacks and
      workers are, in order, those of the Rust client on the link without the acknowledgements,
      followed by one SHUTDOWN just when the Rust client ends cleanly. Go then returns nil, and
      both leave the same state. */
  lemma GoSimulatesRust(goId: string, gm: G.Machine, envId: string, rm: R.Machine, link: Link)
    requires Fair(link)
    ensures var g, r := G.Session(goId, gm, link), R.Session(envId, rm, Stripped(link));
      && Visible(g.conn.acts) == Visible(r.conn.acts) + ByeOf(r.outcome)
      && (g.failure == None <==> r.outcome == R.Clean)
      && (link.opens && T.Welcomed(link) ==> g.conn.me.state == r.conn.me.state)
  {
    var s := Stripped(link);
    var rust := R.Offer(envId, rm.componentId);
    GoShows(goId, gm, link);
    StrippedLink(link);
    RustShows(envId, rm, s);
    RegisterVisible(Some(goId), rust);
    hide G.Session, R.Session, Fair, Stripped, RegisterEnv, Visible;
    if link.opens && T.Welcomed(link) {
      var script := T.Script(R.Tail(s.inbox), Ready, 0, link.onConfigure);
      hide T.Welcomed, Strip, T.Script, T.Close;
      HelloVisible(rust, script, ByeOf(T.Close(R.Tail(s.inbox))));
    } else {
      PlainVisible(rust);
    }
  }

  lemma HelloVisible(rust: Option<string>, script: seq<Act>, bye: seq<Sight>)
    ensures Visible([Wrote(RegisterEnv(rust))] + (T.Greeting() + script)) + bye ==
      Visible([Wrote(RegisterEnv(rust))] + T.Greeting()) + (Visible(script) + bye)
  {
    var register := [Wrote(RegisterEnv(rust))];
    Assoc(register, T.Greeting(), script);
    VisibleConcat(register + T.Greeting(), script);
    Assoc(Visible(register + T.Greeting()), Visible(script), bye);
  }

  lemma PlainVisible(rust: Option<string>)
    ensures var register := [Wrote(RegisterEnv(rust))];
      && Visible([]) + [] == Visible([]) && register + [] == register
      && Visible(register) + [] == Visible(register)
  {
  }

  /** What the Go session shows, told of the stripped input. */
  lemma GoShows(goId: string, m: G.Machine, link: Link)
    requires Fair(link)
    ensures var e := G.Session(goId, m, link);
      var register := [Wrote(RegisterEnv(Some(goId)))];
      if !link.opens then e.conn.acts == [] && e.failure != None
      else if !T.Welcomed(link) then e.conn.acts == register && e.failure != None
      else
        var inbox := Strip(link.inbox[3..], 0, link.onConfigure);
        && Visible(e.conn.acts) ==
             Visible(register + T.Greeting()) +
             (Visible(T.Script(inbox, Ready, 0, link.onConfigure)) + ByeOf(T.Close(inbox)))
        && (e.failure == None <==> T.Close(inbox) == R.Clean)
        && e.conn.me.state == T.Rest(inbox, Ready, 0, link.onConfigure)
  {
    GoRegisters(goId, m, link);
    hide G.Register;
    if link.opens && T.Welcomed(link) {
      var g := G.Register(goId, link, G.Start(m, link)).conn;
      LoopSimulates(link, g, 0);
      hide G.Loop, Comparable, Strip, T.Script, T.Close, Visible, T.Greeting;
    }
  }

  // ----- the same input -----

  /** The envelopes that Go takes as acknowledgements are ones that Rust ignores. */
  predicate TrueAcks(inbox: seq<Read>, asked: nat, onConfigure: nat -> Option<string>)
    requires Comparable(inbox, asked, onConfigure)
    decreases |inbox|
  {
    inbox == [] || inbox[0].Broken? || T.Ends(inbox[0].env) ||
    (var env := inbox[0].env;
     if IsConfigure(env) && onConfigure(asked).None?
     then F.Ignored(inbox[1].env) && F.Ignored(inbox[2].env) && TrueAcks(inbox[3..], asked + 1, onConfigure)
     else TrueAcks(inbox[1..], T.NextAsked(env, asked), onConfigure))
  }

  lemma SignificantCons(r: Read, inbox: seq<Read>)
    ensures F.Significant([r] + inbox) == (if r.Got? && F.Ignored(r.env) then [] else [r]) + F.Significant(inbox)
  {
    ConsTail(r, inbox);
  }

  lemma SkipIgnored(inbox: seq<Read>)
    requires inbox != [] && inbox[0].Got? && F.Ignored(inbox[0].env)
    ensures F.Significant(inbox) == F.Significant(inbox[1..])
  {
    assert [] + F.Significant(inbox[1..]) == F.Significant(inbox[1..]);
  }

  lemma {:induction false} StripIsSignificant(inbox: seq<Read>, asked: nat, onConfigure: nat -> Option<string>)
    requires Comparable(inbox, asked, onConfigure) && TrueAcks(inbox, asked, onConfigure)
    ensures F.Significant(Strip(inbox, asked, onConfigure)) == F.Significant(inbox)
    decreases |inbox|
  {
    if inbox != [] && inbox[0].Got? && !T.Ends(inbox[0].env) {
      var env := inbox[0].env;
      StripCons(inbox, asked, onConfigure);
      assert inbox == [inbox[0]] + inbox[1..];
      SignificantCons(inbox[0], inbox[1..]);
      if IsConfigure(env) && onConfigure(asked).None? {
        SkipIgnored(inbox[1..]);
        SkipIgnored(inbox[2..]);
        assert inbox[1..][1..] == inbox[2..] && inbox[2..][1..] == inbox[3..];
        StripIsSignificant(inbox[3..], asked + 1, onConfigure);
        SignificantCons(inbox[0], Strip(inbox[3..], asked + 1, onConfigure));
      } else {
        StripIsSignificant(inbox[1..], T.NextAsked(env, asked), onConfigure);
        SignificantCons(inbox[0], Strip(inbox[1..], T.NextAsked(env, asked), onConfigure));
      }
    }
  }

  /** When the acknowledgements are real ones, both clients behave alike on the very same link. */
  lemma SameInputSameTrace(goId: string, gm: G.Machine, envId: string, rm: R.Machine, link: Link)
    requires Fair(link)
    requires T.Welcomed(link) ==>
      && F.Ignored(link.inbox[1].env) && F.Ignored(link.inbox[2].env)
      && TrueAcks(link.inbox[3..], 0, link.onConfigure)
    ensures var g, r := G.Session(goId, gm, link), R.Session(envId, rm, link);
      && Visible(g.conn.acts) == Visible(r.conn.acts) + ByeOf(r.outcome)
      && (g.failure == None <==> r.outcome == R.Clean)
      && (link.opens && T.Welcomed(link) ==> g.conn.me.state == r.conn.me.state)
  {
    GoSimulatesRust(goId, gm, envId, rm, link);
    if T.Welcomed(link) {
      StrippedLink(link);
      hide G.Session, R.Session;
      StripIsSignificant(link.inbox[3..], 0, link.onConfigure);
      SkipIgnored(link.inbox[1..]);
      SkipIgnored(link.inbox[2..]);
      assert link.inbox[1..][1..] == link.inbox[2..] && link.inbox[2..][1..] == link.inbox[3..];
      F.AckTransparency(envId, rm, link, Stripped(link));
    }
  }
}
