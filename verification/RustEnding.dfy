/** How Rust connections and runs end, and what is conserved over them. */
module RustEnding {
  import opened Protocol
  import opened RustSession
  import opened RustTrace
  import opened RustWire
  import opened RustRun
  import RustState

  // ----- the farewell -----

  /** No SHUTDOWN has been handled on this connection. */
  predicate Quiet(c: Conn) { Cancelled !in c.acts && Called(OnShutdown) !in c.acts }

  predicate Shut(m: Machine) { m.state == ComponentState.Shutdown }

  /** The envelopes a message loop hands to its handlers. */
  function Dispatched(link: Link, inbox: seq<Read>, c: Conn): seq<Incoming> {
    if inbox == [] || inbox[0].Broken? then []
    else
      [inbox[0].env] +
      (if Handle(link, c, inbox[0].env).Halt? then []
       else Dispatched(link, inbox[1..], Handle(link, c, inbox[0].env).conn))
  }

  /** The envelopes a connection hands to its handlers. */
  function SessionDispatched(envId: string, m: Machine, link: Link): seq<Incoming> {
    if !link.opens then []
    else match RustSession.Register(envId, link, Start(m))
      case Halt(_, _) => []
      case Proceed(c) => Dispatched(link, Tail(link.inbox), c)
  }

  /** The SHUTDOWN handed to the handlers was acknowledged: a write follows the cancellation. */
  predicate AckedShutdown(acts: seq<Act>) {
    exists k | 0 <= k < |acts| - 1 :: acts[k] == Cancelled && acts[k + 1].Wrote?
  }

  /** How a connection ends, told by its trace and the envelopes it handled. A clean one handled a
      SHUTDOWN last, and its trace ends with the whole farewell and has no other. Any other one
      did not complete a farewell. Either way the token is cancelled just when a SHUTDOWN was
      handled. */
  predicate Parted(e: Ended, handled: seq<Incoming>) {
    var acts := e.conn.acts;
    && (Cancelled in acts <==> exists d <- handled :: IsShutdown(d))
    && if e.outcome == Clean then
         && handled != [] && IsShutdown(handled[|handled| - 1])
         && |acts| >= 3 && acts[|acts| - 3..] == Farewell(handled[|handled| - 1].id)
         && Cancelled !in acts[..|acts| - 3] && Called(OnShutdown) !in acts[..|acts| - 3]
       else
         && Called(OnShutdown) !in acts
         && Cancelled !in acts[..if acts == [] then 0 else |acts| - 1]
  }

  lemma InstallQuiet(link: Link, c: Conn, id: string)
    requires Quiet(c) && !Shut(c.me)
    ensures var step := Install(link, c, id);
      Quiet(step.conn) && !Shut(step.conn.me) && (step.Halt? ==> step.outcome != Clean)
  {
  }

  /** What an envelope other than a SHUTDOWN leaves, and what a SHUTDOWN does. */
  predicate StepParts(c: Conn, step: Step, env: Incoming) {
    if IsShutdown(env) then
      && step.Halt?
      && step.conn.acts == c.acts + (if step.outcome == Clean then Farewell(env.id) else [Cancelled])
      && (step.outcome == Clean <==> Shut(step.conn.me))
    else Quiet(step.conn) && !Shut(step.conn.me) && (step.Halt? ==> step.outcome != Clean)
  }

  lemma LifecycleParts(link: Link, c: Conn, env: Incoming)
    requires Quiet(c) && !Shut(c.me) && env.kind == Lifecycle
    ensures StepParts(c, OnLifecycle(link, c, env), env)
  {
    Assoc(c.acts, [Cancelled], [Wrote(AckEnv(env.id))]);
    Assoc(c.acts, [Cancelled] + [Wrote(AckEnv(env.id))], [Called(OnShutdown)]);
    Assoc([Cancelled], [Wrote(AckEnv(env.id))], [Called(OnShutdown)]);
  }

  lemma HandleParts(link: Link, c: Conn, env: Incoming)
    requires Quiet(c) && !Shut(c.me)
    ensures StepParts(c, Handle(link, c, env), env)
  {
    if env.kind == Lifecycle {
      LifecycleParts(link, c, env);
      hide StepParts, OnLifecycle;
    } else if IsConfigure(env) && link.onConfigure(c.asked).None? {
      var c0 := Did(c, Asking(env)).(asked := c.asked + 1);
      InstallQuiet(link, c0, env.id);
      hide Install;
      assert Handle(link, c, env) == Install(link, c0, env.id);
    }
  }

  lemma {:induction false} LoopParts(link: Link, inbox: seq<Read>, c: Conn)
    requires Quiet(c) && !Shut(c.me)
    ensures var e := Loop(link, inbox, c);
      Parted(e, Dispatched(link, inbox, c)) && (e.outcome == Clean <==> Shut(e.conn.me))
    decreases |inbox|
  {
    if inbox != [] && inbox[0].Got? {
      var env := inbox[0].env;
      HandleParts(link, c, env);
      hide Handle;
      var step := Handle(link, c, env);
      if step.Proceed? {
        LoopParts(link, inbox[1..], step.conn);
        var rest := Dispatched(link, inbox[1..], step.conn);
        hide Parted;
        PartedCons(Loop(link, inbox[1..], step.conn), env, rest);
      } else if IsShutdown(env) {
        hide Quiet;
        assert Dispatched(link, inbox, c) == [env];
        HaltParts(step, c, env);
      } else {
        assert Dispatched(link, inbox, c) == [env];
      }
    }
  }

  lemma PartedCons(e: Ended, env: Incoming, rest: seq<Incoming>)
    requires Parted(e, rest) && !IsShutdown(env)
    ensures Parted(e, [env] + rest)
  {
    var all := [env] + rest;
    assert forall d <- all :: d == env || d in rest;
    assert forall d <- rest :: d in all;
  }

  lemma HaltParts(step: Step, c: Conn, env: Incoming)
    requires StepParts(c, step, env) && IsShutdown(env)
    requires Cancelled !in c.acts && Called(OnShutdown) !in c.acts
    ensures Parted(Ended(step.conn, step.outcome), [env])
  {
    var acts, n := step.conn.acts, |c.acts|;
    assert env in [env];
    assert acts[n] == Cancelled;
    assert acts[..n] == c.acts;
    if step.outcome == Clean {
      assert acts[|acts| - 3..] == Farewell(env.id);
    }
  }

  /** The connection stores REGISTERED, and with it a new state. */
  predicate Registers(link: Link) { link.opens && link.writeOk(0) && Welcomed(link) }

  predicate NoneRegisters(links: seq<Link>) { forall i | 0 <= i < |links| :: !Registers(links[i]) }

  lemma NoneRegistersSnoc(links: seq<Link>, i: nat)
    requires i < |links|
    ensures NoneRegisters(links[..0])
    ensures NoneRegisters(links[..i + 1]) <==> NoneRegisters(links[..i]) && !Registers(links[i])
  {
    assert forall k | 0 <= k < i :: links[..i + 1][k] == links[..i][k];
    assert links[..i + 1][i] == links[i];
    hide Registers;
  }

  /** Whatever the component was before, a connection parts as its handled envelopes say. It leaves
      the state SHUTDOWN just when it is clean, or when the state was SHUTDOWN and the connection
      did not get as far as REGISTERED. */
  lemma SessionParts(envId: string, m: Machine, link: Link)
    ensures var e := Session(envId, m, link);
      && Parted(e, SessionDispatched(envId, m, link))
      && (Shut(e.conn.me) <==> e.outcome == Clean || (Shut(m) && !Registers(link)))
  {
    RegisterQuiet(envId, m, link);
    hide RustSession.Register;
    var step := RustSession.Register(envId, link, Start(m));
    if link.opens && step.Proceed? {
      LoopParts(link, Tail(link.inbox), step.conn);
    }
  }

  lemma RegisterQuiet(envId: string, m: Machine, link: Link)
    ensures var step := RustSession.Register(envId, link, Start(m));
      && Quiet(step.conn)
      && (step.Proceed? ==> !Shut(step.conn.me))
      && (link.opens && step.Proceed? ==> Registers(link))
      && (step.Halt? ==> step.outcome != Clean)
      && (link.opens && step.Halt? ==> (Shut(step.conn.me) <==> Shut(m) && !Registers(link)))
  {
    RegisterFollows(envId, m, link);
    RegisterShuts(envId, m, link);
    hide RustSession.Register, Welcome, TextOr;
  }

  lemma RegisterShuts(envId: string, m: Machine, link: Link)
    ensures var step := RustSession.Register(envId, link, Start(m));
      && (Shut(step.conn.me) <==> Shut(m) && !(link.writeOk(0) && Welcomed(link)))
      && (step.Proceed? ==> link.writeOk(0) && Welcomed(link))
      && (step.Halt? ==> step.outcome != Clean)
  {
    hide TextOr, Offer;
  }

  /** A connection is clean just when its trace shows an acknowledged SHUTDOWN, and just when
      on_shutdown was called. */
  lemma PartedIff(e: Ended, handled: seq<Incoming>)
    requires Parted(e, handled)
    ensures e.outcome == Clean <==> AckedShutdown(e.conn.acts)
    ensures e.outcome == Clean <==> Called(OnShutdown) in e.conn.acts
  {
    var acts := e.conn.acts;
    if e.outcome == Clean {
      var n := |acts| - 3;
      var tail := acts[n..];
      assert tail[0] == acts[n] && tail[1] == acts[n + 1] && tail[2] == acts[n + 2];
      assert acts[n] == Cancelled && acts[n + 1].Wrote? && acts[n + 2] == Called(OnShutdown);
    } else {
      assert forall k | 0 <= k < |acts| - 1 :: acts[k] == acts[..|acts| - 1][k];
    }
  }

  // ----- clean exit -----

  /** The envelopes that the i-th connection of a run hands to its handlers. */
  function DispatchedAt(cfg: Config, m: Machine, links: seq<Link>, ends: seq<Ended>, i: nat): seq<Incoming>
    requires i < |ends| <= |links|
  {
    SessionDispatched(cfg.envId, Before(m, ends, i), links[i])
  }

  lemma PartedAt(cfg: Config, m: Machine, links: seq<Link>, r: Run, i: nat)
    requires WellRun(cfg, m, links, r) && i < |r.ends|
    ensures |r.ends| <= |links| && Parted(r.ends[i], DispatchedAt(cfg, m, links, r.ends, i))
    ensures Shut(Before(m, r.ends, i + 1)) <==>
      r.ends[i].outcome == Clean || (Shut(Before(m, r.ends, i)) && !Registers(links[i]))
  {
    hide Session, SessionDispatched, Parted, Registers, Shut;
    SessionParts(cfg.envId, Before(m, r.ends, i), links[i]);
  }

  lemma NotCleanBefore(m: Machine, available: nat, r: Run, i: nat)
    requires Concluded(m, available, r) && i < |r.ends|
    ensures i > 0 ==> r.ends[i - 1].outcome != Clean
  {
  }

  /** How far a run leaves a component shut down that was so before. */
  lemma {:induction false} ShutBefore(cfg: Config, m: Machine, links: seq<Link>, r: Run, i: nat)
    requires WellRun(cfg, m, links, r) && i <= |r.ends|
    ensures |r.ends| <= |links|
    ensures Shut(Before(m, r.ends, i)) <==>
      (i > 0 && r.ends[i - 1].outcome == Clean) || (Shut(m) && NoneRegisters(links[..i]))
  {
    hide Session, Registers;
    if i > 0 {
      ShutBefore(cfg, m, links, r, i - 1);
      PartedAt(cfg, m, links, r, i - 1);
      NotCleanBefore(m, |links|, r, i - 1);
      hide Concluded, Chained, Before, NoneRegisters;
      NoneRegistersSnoc(links, i - 1);
    }
  }

  /** The one place where a run calls on_shutdown is the last act of a run that returns Ok. */
  predicate ShutsOnce(r: Run) {
    forall i, k | 0 <= i < |r.ends| && 0 <= k < |r.ends[i].conn.acts| ::
      r.ends[i].conn.acts[k] == Called(OnShutdown) <==>
        r.verdict == Returned && i == |r.ends| - 1 && k == |r.ends[i].conn.acts| - 1
  }

  /** The last envelope handled is a SHUTDOWN, and the last one written acknowledges it. */
  predicate AcksLast(w: seq<Outgoing>, handled: seq<Incoming>) {
    && handled != [] && IsShutdown(handled[|handled| - 1])
    && w != [] && w[|w| - 1] == Outgoing(Control, Ack, Some(handled[|handled| - 1].id), StatusOk)
  }

  /** Whatever the component was before, a run returns Ok just when its last connection got a
      SHUTDOWN and wrote its acknowledgement. Then on_shutdown is called once in the whole run, as
      the very last act, and that acknowledgement is the last envelope; on any other return it was
      never called. The state afterwards is SHUTDOWN just when the run returned Ok, or when it was
      SHUTDOWN already and no connection got as far as REGISTERED. */
  lemma CleanExit(cfg: Config, m: Machine, links: seq<Link>, r: Run)
    requires r == RunAll(cfg, m, links)
    ensures var n := |r.ends|;
      && n <= |links|
      && (r.verdict == Returned <==> n > 0 && AckedShutdown(r.ends[n - 1].conn.acts))
      && ShutsOnce(r)
      && (r.verdict == Returned ==>
            AcksLast(Wire(r.ends[n - 1].conn.acts), DispatchedAt(cfg, m, links, r.ends, n - 1)))
      && (Shut(r.last) <==> r.verdict == Returned || (Shut(m) && NoneRegisters(links[..n])))
  {
    RunIsChain(cfg, m, links, 0, cfg.firstDelay);
    hide RunFrom;
    RunShuts(cfg, m, links, r);
    RunLeaves(cfg, m, links, r);
    hide *;
    if r.ends != [] {
      RunAcks(cfg, m, links, r);
    } else {
      NoEnd(cfg, m, links, r);
    }
  }

  /** So a fresh component is SHUTDOWN after a run just when the run returned Ok. */
  lemma FreshExit(cfg: Config, m: Machine, links: seq<Link>)
    requires !Shut(m)
    ensures Shut(RunAll(cfg, m, links).last) <==> RunAll(cfg, m, links).verdict == Returned
  {
    CleanExit(cfg, m, links, RunAll(cfg, m, links));
    hide *;
  }

  /** Run once more, a component that is SHUTDOWN can stay so without Ok: when the socket is gone. */
  lemma ShutWithoutExit(cfg: Config, m: Machine, link: Link)
    requires Shut(m) && !link.opens && !cfg.reconnect
    ensures var r := RunAll(cfg, m, [link]); Shut(r.last) && r.verdict == GaveUp(Connection(ReconnectDisabled))
  {
  }

  lemma NoEnd(cfg: Config, m: Machine, links: seq<Link>, r: Run)
    requires WellRun(cfg, m, links, r) && r.ends == []
    ensures r.verdict != Returned
  {
    hide Session;
  }

  lemma RunLeaves(cfg: Config, m: Machine, links: seq<Link>, r: Run)
    requires WellRun(cfg, m, links, r)
    ensures |r.ends| <= |links|
    ensures Shut(r.last) <==>
      r.verdict == Returned || (Shut(m) && NoneRegisters(links[..|r.ends|]))
  {
    hide Session, Registers, Shut;
    ShutBefore(cfg, m, links, r, |r.ends|);
    if r.ends != [] {
      LastEnd(m, |links|, r);
    }
  }

  lemma RunAcks(cfg: Config, m: Machine, links: seq<Link>, r: Run)
    requires WellRun(cfg, m, links, r) && r.ends != []
    ensures |r.ends| <= |links|
    ensures var n := |r.ends|;
      && (r.verdict == Returned <==> AckedShutdown(r.ends[n - 1].conn.acts))
      && (r.verdict == Returned ==>
            AcksLast(Wire(r.ends[n - 1].conn.acts), DispatchedAt(cfg, m, links, r.ends, n - 1)))
  {
    var n := |r.ends|;
    hide Session, SessionDispatched;
    PartedAt(cfg, m, links, r, n - 1);
    LastEnd(m, |links|, r);
    hide *;
    PartedLast(r.ends[n - 1], DispatchedAt(cfg, m, links, r.ends, n - 1));
  }

  lemma RunShuts(cfg: Config, m: Machine, links: seq<Link>, r: Run)
    requires WellRun(cfg, m, links, r)
    ensures ShutsOnce(r)
  {
    hide Session, SessionDispatched;
    forall i | 0 <= i < |r.ends|
      ensures forall k | 0 <= k < |r.ends[i].conn.acts| ::
        r.ends[i].conn.acts[k] == Called(OnShutdown) <==>
          r.verdict == Returned && i == |r.ends| - 1 && k == |r.ends[i].conn.acts| - 1
    {
      PartedAt(cfg, m, links, r, i);
      OnShutdownLast(r.ends[i], DispatchedAt(cfg, m, links, r.ends, i));
    }
  }

  lemma LastEnd(m: Machine, available: nat, r: Run)
    requires Concluded(m, available, r) && r.ends != []
    ensures var e := r.ends[|r.ends| - 1];
      (r.verdict == Returned <==> e.outcome == Clean) && r.last == e.conn.me
  {
  }

  lemma PartedLast(e: Ended, handled: seq<Incoming>)
    requires Parted(e, handled)
    ensures e.outcome == Clean <==> AckedShutdown(e.conn.acts)
    ensures e.outcome == Clean ==> AcksLast(Wire(e.conn.acts), handled)
  {
    PartedIff(e, handled);
    if e.outcome == Clean {
      FarewellWire(e, handled);
    }
  }

  lemma OnShutdownLast(e: Ended, handled: seq<Incoming>)
    requires Parted(e, handled)
    ensures forall k | 0 <= k < |e.conn.acts| ::
      e.conn.acts[k] == Called(OnShutdown) <==> e.outcome == Clean && k == |e.conn.acts| - 1
  {
    var acts := e.conn.acts;
    if e.outcome == Clean {
      var n := |acts| - 3;
      assert forall k | n <= k < n + 3 :: acts[k] == acts[n..][k - n];
      assert forall k | 0 <= k < n :: acts[k] == acts[..n][k];
    }
  }

  lemma FarewellWire(e: Ended, handled: seq<Incoming>)
    requires Parted(e, handled) && e.outcome == Clean
    ensures AcksLast(Wire(e.conn.acts), handled)
  {
    var acts := e.conn.acts;
    var id := handled[|handled| - 1].id;
    assert acts == acts[..|acts| - 3] + Farewell(id);
    WireConcat(acts[..|acts| - 3], Farewell(id));
    FarewellAcks(id);
    hide Wire, Farewell;
  }

  lemma FarewellAcks(id: string)
    ensures Wire(Farewell(id)) == [AckEnv(id)]
  {
    WireCons(Cancelled, [Wrote(AckEnv(id))] + [Called(OnShutdown)]);
    WireCons(Wrote(AckEnv(id)), [Called(OnShutdown)]);
    assert Wire([Called(OnShutdown)]) == [];
  }

  // ----- workers -----

  /** As many workers as RUNNING updates. */
  predicate Balanced(acts: seq<Act>) {
    Spawns(acts) == Times(Wire(acts), Outgoing(Lifecycle, StateUpdate, None, Reports(Running)))
  }

  lemma BalancedConcat(a: seq<Act>, b: seq<Act>)
    requires Balanced(a) && Balanced(b)
    ensures Balanced(a + b)
  {
    SpawnsConcat(a, b);
    WireConcat(a, b);
    TimesConcat(Wire(a), Wire(b), StateEnv(Running));
  }

  lemma {:induction false} NoTimes(w: seq<Outgoing>, e: Outgoing)
    requires e !in w
    ensures Times(w, e) == 0
  {
    if w != [] {
      NoTimes(w[1..], e);
    }
  }

  lemma CutInstallationBalanced(writeOk: nat -> bool, w: nat, id: string)
    ensures Balanced(Cut(writeOk, w, Installation(id)))
  {
    var ack, conf, run := Wrote(AckEnv(id)), Wrote(StateEnv(ComponentState.Configured)), Wrote(StateEnv(Running));
    CutCons(writeOk, w, ack, [conf] + ([run] + [Spawned]));
    CutCons(writeOk, w + 1, conf, [run] + [Spawned]);
    CutCons(writeOk, w + 2, run, [Spawned]);
    CutOne(writeOk, w + 3, Spawned);
    PlainBalanced(ack);
    PlainBalanced(conf);
    RunBalanced();
    assert [ack] + [] == [ack] && [conf] + [] == [conf];
    BalancedConcat([conf], [run] + [Spawned]);
    BalancedConcat([ack], [conf]);
    BalancedConcat([ack], [conf] + ([run] + [Spawned]));
    assert Balanced([]);
  }

  lemma PlainBalanced(a: Act)
    requires a != Spawned && a != Wrote(StateEnv(Running))
    ensures Balanced([a])
  {
    NoSpawns([a]);
    assert [a][1..] == [];
    if a.Wrote? {
      NoTimes([a.env], StateEnv(Running));
    }
  }

  lemma RunBalanced()
    ensures Balanced([Wrote(StateEnv(Running))] + [Spawned])
  {
    var acts := [Wrote(StateEnv(Running))] + [Spawned];
    assert acts[1..] == [Spawned] && [Spawned][1..] == [];
    assert Wire(acts) == [StateEnv(Running)];
    assert [StateEnv(Running)][1..] == [];
  }

  lemma CutReplyBalanced(env: Incoming, state: ComponentState, verdict: Option<string>, writeOk: nat -> bool, w: nat)
    ensures Balanced(Cut(writeOk, w, Reply(env, state, verdict)))
  {
    var plan := Reply(env, state, verdict);
    var done := Cut(writeOk, w, plan);
    if IsConfigure(env) && verdict.None? {
      CutCons(writeOk, w, Asking(env), Installation(env.id));
      CutInstallationBalanced(writeOk, w, env.id);
      PlainBalanced(Asking(env));
      BalancedConcat([Asking(env)], Cut(writeOk, w, Installation(env.id)));
    } else {
      NoSpawns(done);
      ReplyWire(env, state, verdict);
      WirePrefix(done, plan);
      NoTimes(Wire(done), StateEnv(Running));
    }
  }

  lemma {:induction false} LoopBalanced(link: Link, inbox: seq<Read>, c: Conn)
    requires Balanced(c.acts)
    ensures Balanced(Loop(link, inbox, c).conn.acts)
    decreases |inbox|
  {
    if inbox != [] && inbox[0].Got? {
      var env := inbox[0].env;
      HandleIsCut(link, c, env);
      CutReplyBalanced(env, c.me.state, link.onConfigure(c.asked), link.writeOk, c.written);
      BalancedConcat(c.acts, Cut(link.writeOk, c.written, Reply(env, c.me.state, link.onConfigure(c.asked))));
      hide Handle, Reply, Balanced;
      if Handle(link, c, env).Proceed? {
        LoopBalanced(link, inbox[1..], Handle(link, c, env).conn);
      }
    }
  }

  lemma SessionBalanced(envId: string, m: Machine, link: Link)
    ensures Balanced(Session(envId, m, link).conn.acts)
  {
    var step := RustSession.Register(envId, link, Start(m));
    RegisterFollows(envId, m, link);
    hide RustSession.Register;
    GreetingWire(Offer(envId, m.componentId));
    WirePrefix(step.conn.acts, [Wrote(RegisterEnv(Offer(envId, m.componentId)))] + Greeting());
    assert Balanced([]);
    if link.opens {
      NoSpawns(step.conn.acts);
      NoTimes(Wire(step.conn.acts), StateEnv(Running));
      if step.Proceed? {
        LoopBalanced(link, Tail(link.inbox), step.conn);
      }
    }
  }

  function AllActs(ends: seq<Ended>): seq<Act> {
    if ends == [] then [] else ends[0].conn.acts + AllActs(ends[1..])
  }

  lemma {:induction false} AllBalanced(ends: seq<Ended>)
    requires forall e <- ends :: Balanced(e.conn.acts)
    ensures Balanced(AllActs(ends))
  {
    if ends == [] {
      assert Balanced([]);
    } else {
      AllBalanced(ends[1..]);
      BalancedConcat(ends[0].conn.acts, AllActs(ends[1..]));
    }
  }

  /** Over a whole run, on each connection and in all, as many workers are spawned as RUNNING
      updates are written; and a connection's token is cancelled just when a SHUTDOWN was handled
      on it, whatever else ended it. */
  lemma Conservation(cfg: Config, m: Machine, links: seq<Link>, r: Run)
    requires r == RunAll(cfg, m, links)
    ensures Balanced(AllActs(r.ends)) && |r.ends| <= |links|
    ensures forall i | 0 <= i < |r.ends| ::
      && Balanced(r.ends[i].conn.acts)
      && (Cancelled in r.ends[i].conn.acts <==>
            exists d <- DispatchedAt(cfg, m, links, r.ends, i) :: IsShutdown(d))
  {
    RunIsChain(cfg, m, links, 0, cfg.firstDelay);
    hide Session, SessionDispatched, RunFrom, Balanced;
    forall i | 0 <= i < |r.ends|
      ensures Balanced(r.ends[i].conn.acts)
      ensures Cancelled in r.ends[i].conn.acts <==>
        exists d <- DispatchedAt(cfg, m, links, r.ends, i) :: IsShutdown(d)
    {
      PartedAt(cfg, m, links, r, i);
      SessionBalanced(cfg.envId, Before(m, r.ends, i), links[i]);
    }
    AllBalanced(r.ends);
  }

  // ----- identity -----

  /** Whether the connection stores the id of a REGISTERED. */
  predicate Adopts(link: Link) {
    var first := Await(link);
    && link.opens && link.writeOk(0)
    && first.Got? && first.env.command == Command.Registered && "component_id" in first.env.payload
  }

  function Given(link: Link): string
    requires Adopts(link)
  {
    TextOr(Await(link).env.payload, "component_id", "")
  }

  lemma {:induction false} LoopKeepsIds(link: Link, inbox: seq<Read>, c: Conn)
    ensures var me := Loop(link, inbox, c).conn.me;
      me.componentId == c.me.componentId && me.sessionId == c.me.sessionId
    decreases |inbox|
  {
    if inbox != [] && inbox[0].Got? {
      HandleKeepsIds(link, c, inbox[0].env);
      hide Handle;
      if Handle(link, c, inbox[0].env).Proceed? {
        LoopKeepsIds(link, inbox[1..], Handle(link, c, inbox[0].env).conn);
      }
    }
  }

  lemma HandleKeepsIds(link: Link, c: Conn, env: Incoming)
    ensures var me := Handle(link, c, env).conn.me;
      me.componentId == c.me.componentId && me.sessionId == c.me.sessionId
  {
  }

  /** An envelope that is a REGISTER and carries the stored id, else the environment's, else none. */
  predicate OffersId(e: Outgoing, envId: string, stored: string) {
    && e.kind == Lifecycle && e.command == Command.Register && e.corr == None
    && (stored != "" ==> e.body == Identity(Some(stored)))
    && (stored == "" && envId != "" ==> e.body == Identity(Some(envId)))
    && (stored == "" && envId == "" ==> e.body == Identity(None))
  }

  /** The connection's first read is a REGISTERED, which is its answer to a REGISTER sent. */
  predicate Answered(link: Link) {
    && link.opens && link.writeOk(0)
    && link.inbox != [] && link.inbox[0].Got? && link.inbox[0].env.command == Command.Registered
  }

  /** The ids after a connection: those of its REGISTERED, as far as that has them, else those before. */
  predicate TakesIds(link: Link, before: Machine, after: Machine) {
    var p := if Answered(link) then link.inbox[0].env.payload else map[];
    && (if "component_id" in p then TextUnder(p, "component_id", "", after.componentId)
        else after.componentId == before.componentId)
    && (if "component_id" in p && "session_id" in p then TextUnder(p, "session_id", "", after.sessionId)
        else after.sessionId == before.sessionId)
  }

  /** A connection that can write says first of all which id it has, and takes the ids that it is
      given, even if it then fails. */
  lemma SessionIdentity(envId: string, m: Machine, link: Link)
    ensures var e := Session(envId, m, link);
      && (Wire(e.conn.acts) == [] <==> !link.opens || !link.writeOk(0))
      && (Wire(e.conn.acts) != [] ==> OffersId(Wire(e.conn.acts)[0], envId, m.componentId))
      && TakesIds(link, m, e.conn.me)
      && e.conn.me.componentId == (if Adopts(link) then Given(link) else m.componentId)
  {
    SessionGrammar(envId, m, link);
    GrammarTells(Session(envId, m, link).conn.acts, Offer(envId, m.componentId));
    FirstWrite(envId, m, link);
    if link.opens {
      RegisterIdentity(envId, m, link);
    }
    var step := RustSession.Register(envId, link, Start(m));
    hide RustSession.Register, Adopts, TextUnder;
    if step.Proceed? {
      LoopKeepsIds(link, Tail(link.inbox), step.conn);
    }
  }

  lemma FirstWrite(envId: string, m: Machine, link: Link)
    ensures Session(envId, m, link).conn.acts == [] <==> !link.opens || !link.writeOk(0)
  {
    SessionIsCutScript(envId, m, link);
    hide Session;
  }

  lemma RegisterIdentity(envId: string, m: Machine, link: Link)
    requires link.opens
    ensures var me := RustSession.Register(envId, link, Start(m)).conn.me;
      && TakesIds(link, m, me)
      && me.componentId == if Adopts(link) then Given(link) else m.componentId
  {
  }

  /** The daemon gives back the id it is offered, and some id when it is offered none. */
  predicate Honours(envId: string, m: Machine, link: Link) {
    Adopts(link) ==>
      match Offer(envId, m.componentId)
      case Some(id) => Given(link) == id
      case None => Given(link) != ""
  }

  predicate AllHonour(cfg: Config, m: Machine, links: seq<Link>, ends: seq<Ended>) {
    |ends| <= |links| && forall i | 0 <= i < |ends| :: Honours(cfg.envId, Before(m, ends, i), links[i])
  }

  /** With such a daemon, once a component has an id it keeps it over every later connection, and
      the first envelope of every later one is a REGISTER that carries that id. */
  lemma {:induction false} StableIdentity(cfg: Config, m: Machine, links: seq<Link>, r: Run, i: nat, j: nat)
    requires WellRun(cfg, m, links, r) && AllHonour(cfg, m, links, r.ends)
    requires i <= j <= |r.ends| && Before(m, r.ends, i).componentId != ""
    ensures var id := Before(m, r.ends, i).componentId;
      && Before(m, r.ends, j).componentId == id
      && (j < |r.ends| && Wire(r.ends[j].conn.acts) != [] ==>
            Wire(r.ends[j].conn.acts)[0] == Outgoing(Lifecycle, Command.Register, None, Identity(Some(id))))
    decreases j
  {
    hide Session, Adopts, TakesIds;
    if i < j {
      StableIdentity(cfg, m, links, r, i, j - 1);
      SessionIdentity(cfg.envId, Before(m, r.ends, j - 1), links[j - 1]);
      assert Honours(cfg.envId, Before(m, r.ends, j - 1), links[j - 1]);
    }
    if j < |r.ends| {
      SessionIdentity(cfg.envId, Before(m, r.ends, j), links[j]);
    }
  }

  /** The first REGISTERED gives the component an id: the environment's, if it has one. */
  lemma FirstIdentity(cfg: Config, m: Machine, links: seq<Link>, r: Run, i: nat)
    requires WellRun(cfg, m, links, r) && AllHonour(cfg, m, links, r.ends)
    requires i < |r.ends| && Adopts(links[i])
    ensures Before(m, r.ends, i + 1).componentId != ""
    ensures Before(m, r.ends, i).componentId == "" && cfg.envId != "" ==>
      Before(m, r.ends, i + 1).componentId == cfg.envId
  {
    hide Session;
    SessionIdentity(cfg.envId, Before(m, r.ends, i), links[i]);
    assert Honours(cfg.envId, Before(m, r.ends, i), links[i]);
  }

  /** Every connection of a run follows the grammar, sends nothing after a farewell, answers what
      its input asks for, and is honest in every PONG. */
  lemma RunWire(cfg: Config, m: Machine, links: seq<Link>)
    ensures var r := RunAll(cfg, m, links);
      && |r.ends| <= |links|
      && forall i | 0 <= i < |r.ends| ::
           ConnectionWire(cfg.envId, Before(m, r.ends, i), links[i], r.ends[i].conn.acts)
  {
    RunIsChain(cfg, m, links, 0, cfg.firstDelay);
    var r := RunAll(cfg, m, links);
    hide Session, RunFrom, ConnectionWire;
    forall i | 0 <= i < |r.ends|
      ensures ConnectionWire(cfg.envId, Before(m, r.ends, i), links[i], r.ends[i].conn.acts)
    {
      SessionWire(cfg.envId, Before(m, r.ends, i), links[i]);
    }
  }

  ghost predicate ConnectionWire(envId: string, m: Machine, link: Link, acts: seq<Act>) {
    && Grammatical(acts, Offer(envId, m.componentId))
    && FarewellIsLast(acts)
    && Answers(Wire(acts)) <= SessionCauses(link)
    && RustState.HonestPongs(Wire(acts))
  }

  lemma SessionWire(envId: string, m: Machine, link: Link)
    ensures ConnectionWire(envId, m, link, Session(envId, m, link).conn.acts)
  {
    hide Session, Grammatical, FarewellIsLast, RustState.HonestPongs, SessionCauses, Offer;
    SessionGrammar(envId, m, link);
    GrammarTells(Session(envId, m, link).conn.acts, Offer(envId, m.componentId));
    OrderedMatching(envId, m, link);
    RustState.SessionPongs(envId, m, link);
  }
}
