/** The Rust client's state field against what it told the daemon. */
module RustState {
  import opened Protocol
  import opened RustSession
  import opened RustTrace
  import opened RustWire

  /** The state field is the one last told to the daemon; it is READY or RUNNING, and RUNNING just
      when some CONFIGURE was completed on this connection. */
  predicate Coherent(c: Conn) {
    && LastReported(Wire(c.acts)) == Some(c.me.state)
    && (c.me.state == Ready || c.me.state == Running)
    && (c.me.state == Running <==> Spawned in c.acts)
  }

  /** The connection at each head of the message loop. */
  function Heads(link: Link, inbox: seq<Read>, c: Conn): seq<Conn> {
    [c] +
    (if inbox == [] || inbox[0].Broken? || Handle(link, c, inbox[0].env).Halt? then []
     else Heads(link, inbox[1..], Handle(link, c, inbox[0].env).conn))
  }

  /** The heads of a whole connection: none before registration is complete. */
  function SessionHeads(envId: string, m: Machine, link: Link): seq<Conn> {
    if !link.opens then []
    else match RustSession.Register(envId, link, Start(m))
      case Halt(_, _) => []
      case Proceed(c) => Heads(link, Tail(link.inbox), c)
  }

  lemma {:induction false} LastReportedConcat(a: seq<Outgoing>, b: seq<Outgoing>)
    ensures LastReported(a + b) == if LastReported(b).Some? then LastReported(b) else LastReported(a)
    decreases |b|
  {
    if b == [] {
      assert a + b == a;
    } else {
      assert (a + b)[..|a + b| - 1] == a + b[..|b| - 1];
      LastReportedConcat(a, b[..|b| - 1]);
    }
  }

  /** What a whole reply reports, and whether it spawns. */
  lemma ReplyReports(env: Incoming, state: ComponentState, verdict: Option<string>)
    ensures var plan := Reply(env, state, verdict);
      && LastReported(Wire(plan)) == (if IsConfigure(env) && verdict.None? then Some(Running) else None)
      && (Spawned in plan <==> IsConfigure(env) && verdict.None?)
  {
    ReplySpawns(env, state, verdict);
    ReplyWire(env, state, verdict);
    hide Reply;
    var w := Wire(Reply(env, state, verdict));
    if |w| == 1 {
      assert w[..0] == [];
    }
  }

  lemma ReplySpawns(env: Incoming, state: ComponentState, verdict: Option<string>)
    ensures Spawned in Reply(env, state, verdict) <==> IsConfigure(env) && verdict.None?
  {
    if IsConfigure(env) && verdict.None? {
      assert Reply(env, state, verdict)[4] == Spawned;
    }
  }

  lemma HandleCoherent(link: Link, c: Conn, env: Incoming)
    requires Coherent(c) && Handle(link, c, env).Proceed?
    ensures Coherent(Handle(link, c, env).conn)
  {
    var verdict := link.onConfigure(c.asked);
    var plan := Reply(env, c.me.state, verdict);
    HandleIsCut(link, c, env);
    ReplyReports(env, c.me.state, verdict);
    hide Handle, Reply;
    WireConcat(c.acts, plan);
    LastReportedConcat(Wire(c.acts), Wire(plan));
  }

  lemma {:induction false} HeadsCoherent(link: Link, inbox: seq<Read>, c: Conn)
    requires Coherent(c)
    ensures forall h <- Heads(link, inbox, c) :: Coherent(h)
    decreases |inbox|
  {
    hide Handle, Coherent;
    if inbox != [] && inbox[0].Got? && Handle(link, c, inbox[0].env).Proceed? {
      HandleCoherent(link, c, inbox[0].env);
      HeadsCoherent(link, inbox[1..], Handle(link, c, inbox[0].env).conn);
    }
  }

  /** Whatever state earlier connections left behind, and whichever writes fail, the state field
      is coherent at every head of the message loop. */
  lemma StateCoherence(envId: string, m: Machine, link: Link)
    ensures forall h <- SessionHeads(envId, m, link) :: Coherent(h)
  {
    RegisterFollows(envId, m, link);
    var step := RustSession.Register(envId, link, Start(m));
    if link.opens && step.Proceed? {
      GreetingWire(Offer(envId, m.componentId));
      hide RustSession.Register;
      var w := Hello(Offer(envId, m.componentId));
      assert w[2] == StateEnv(Ready);
      HeadsCoherent(link, Tail(link.inbox), step.conn);
    }
  }

  // ----- heartbeats -----

  /** Every PONG reports READY or RUNNING, namely what the daemon was last told, and RUNNING just
      when a RUNNING update precedes it on this connection. */
  predicate HonestPongs(w: seq<Outgoing>) {
    forall i | 0 <= i < |w| && w[i].command == Pong :: HonestPong(w[..i], w[i])
  }

  predicate HonestPong(before: seq<Outgoing>, e: Outgoing) {
    && e.body.Beat?
    && LastReported(before) == Some(e.body.state)
    && e.body.state == if Outgoing(Lifecycle, StateUpdate, None, Reports(Running)) in before then Running else Ready
  }

  /** What the loop has told the daemon when it is in a given state. */
  predicate Told(w: seq<Outgoing>, state: ComponentState) {
    && LastReported(w) == Some(state)
    && state == if Outgoing(Lifecycle, StateUpdate, None, Reports(Running)) in w then Running else Ready
  }

  lemma {:induction false} ScriptPongs(w: seq<Outgoing>, inbox: seq<Read>, state: ComponentState, asked: nat,
                                      onConfigure: nat -> Option<string>)
    requires HonestPongs(w) && Told(w, state)
    ensures HonestPongs(w + Wire(Script(inbox, state, asked, onConfigure)))
    decreases |inbox|
  {
    if inbox == [] || inbox[0].Broken? {
      assert w + [] == w;
    } else {
      var env := inbox[0].env;
      var verdict := onConfigure(asked);
      var reply, rest := Reply(env, state, verdict), After(inbox, state, asked, onConfigure);
      ReplyTold(w, env, state, verdict);
      WireConcat(reply, rest);
      Assoc(w, Wire(reply), Wire(rest));
      hide Reply, HonestPongs, Told;
      if Ends(env) {
        assert w + Wire(reply) + [] == w + Wire(reply);
      } else {
        ScriptPongs(w + Wire(reply), inbox[1..], NextState(env, state, verdict), NextAsked(env, asked), onConfigure);
      }
    }
  }

  /** Appending envelopes whose PONGs are honest about what precedes them. */
  lemma PongsConcat(w: seq<Outgoing>, r: seq<Outgoing>)
    requires HonestPongs(w)
    requires forall j | 0 <= j < |r| && r[j].command == Pong :: j == 0 && HonestPong(w, r[j])
    ensures HonestPongs(w + r)
  {
    forall i | 0 <= i < |w + r| && (w + r)[i].command == Pong
      ensures HonestPong((w + r)[..i], (w + r)[i])
    {
      assert (w + r)[..i] == if i < |w| then w[..i] else w;
    }
  }

  lemma ReplyTold(w: seq<Outgoing>, env: Incoming, state: ComponentState, verdict: Option<string>)
    requires HonestPongs(w) && Told(w, state)
    ensures HonestPongs(w + Wire(Reply(env, state, verdict)))
    ensures !Ends(env) ==> Told(w + Wire(Reply(env, state, verdict)), NextState(env, state, verdict))
  {
    var r := Wire(Reply(env, state, verdict));
    ReplyWire(env, state, verdict);
    hide Reply;
    PongsConcat(w, r);
    if !Ends(env) {
      ReplyTells(w, env, state, verdict);
    }
    hide HonestPongs, Told;
  }

  lemma ReplyTells(w: seq<Outgoing>, env: Incoming, state: ComponentState, verdict: Option<string>)
    requires Told(w, state) && !Ends(env)
    ensures Told(w + Wire(Reply(env, state, verdict)), NextState(env, state, verdict))
  {
    var r := Wire(Reply(env, state, verdict));
    ReplyWire(env, state, verdict);
    ReplyReports(env, state, verdict);
    hide Reply;
    LastReportedConcat(w, r);
    if IsConfigure(env) && verdict.None? {
      assert r[2] == StateEnv(Running);
      assert (w + r)[|w| + 2] == r[2];
    } else {
      assert StateEnv(Running) !in r;
    }
  }

  lemma SessionScriptPongs(envId: string, m: Machine, link: Link)
    ensures HonestPongs(Wire(SessionScript(envId, m, link)))
  {
    var offer := Offer(envId, m.componentId);
    SessionScriptWire(envId, m, link);
    hide SessionScript;
    if link.opens && Welcomed(link) {
      assert Hello(offer)[2] == StateEnv(Ready);
      ScriptPongs(Hello(offer), Tail(link.inbox), Ready, 0, link.onConfigure);
    }
  }

  /** On every connection, with any writes failing, PONGs tell the daemon what it was last told. */
  lemma SessionPongs(envId: string, m: Machine, link: Link)
    ensures HonestPongs(Wire(Session(envId, m, link).conn.acts))
  {
    var w, s := Wire(Session(envId, m, link).conn.acts), Wire(SessionScript(envId, m, link));
    SessionIsCutScript(envId, m, link);
    SessionScriptPongs(envId, m, link);
    WirePrefix(Session(envId, m, link).conn.acts, SessionScript(envId, m, link));
    hide Session, SessionScript;
    forall i | 0 <= i < |w| && w[i].command == Pong
      ensures HonestPong(w[..i], w[i])
    {
      assert w[i] == s[i] && w[..i] == s[..i];
    }
  }
}
