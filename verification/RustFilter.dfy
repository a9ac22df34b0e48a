/** Input that does not matter, or matters only to itself: REBORN and ignored envelopes. */
module RustFilter {
  import opened Protocol
  import opened RustSession
  import opened RustTrace
  import opened RustWire

  // ----- REBORN -----

  function NoReborn(inbox: seq<Read>): seq<Read> {
    if inbox == [] then []
    else (if inbox[0].Got? && IsReborn(inbox[0].env) then [] else [inbox[0]]) + NoReborn(inbox[1..])
  }

  /** A call of on_reborn and its acknowledgement stand in front of the trace. */
  predicate RebornFirst(acts: seq<Act>) { |acts| >= 2 && acts[0] == Called(OnReborn) && IsAck(acts[1]) }

  /** A trace without its calls of on_reborn and their acknowledgements. Nothing else goes: a call
      that no acknowledgement follows stays. */
  function WithoutReborn(acts: seq<Act>): seq<Act> {
    if acts == [] then []
    else if RebornFirst(acts) then WithoutReborn(acts[2..])
    else [acts[0]] + WithoutReborn(acts[1..])
  }

  /** An acknowledgement follows every call of on_reborn. */
  predicate Paired(acts: seq<Act>) {
    acts == [] ||
    (if acts[0] == Called(OnReborn) then RebornFirst(acts) && Paired(acts[2..]) else Paired(acts[1..]))
  }

  lemma {:induction false} WithoutRebornConcat(a: seq<Act>, b: seq<Act>)
    requires Paired(a)
    ensures WithoutReborn(a + b) == WithoutReborn(a) + WithoutReborn(b)
    ensures Paired(b) ==> Paired(a + b)
    decreases |a|
  {
    if a == [] {
      assert a + b == b;
    } else if a[0] == Called(OnReborn) {
      assert (a + b)[2..] == a[2..] + b && (a + b)[0] == a[0] && (a + b)[1] == a[1];
      WithoutRebornConcat(a[2..], b);
    } else {
      assert (a + b)[1..] == a[1..] + b && (a + b)[0] == a[0];
      WithoutRebornConcat(a[1..], b);
      Assoc([a[0]], WithoutReborn(a[1..]), WithoutReborn(b));
    }
  }

  lemma {:induction false} NothingReborn(acts: seq<Act>)
    requires Called(OnReborn) !in acts
    ensures Paired(acts) && WithoutReborn(acts) == acts
  {
    if acts != [] {
      NothingReborn(acts[1..]);
    }
  }

  /** Whatever the trace, as many workers are spawned without the pairs, and every act that is no
      part of one is there just when it was there. */
  lemma {:induction false} WithoutRebornKeeps(acts: seq<Act>)
    ensures Spawns(WithoutReborn(acts)) == Spawns(acts)
    ensures forall a | a != Called(OnReborn) && !IsAck(a) :: a in WithoutReborn(acts) <==> a in acts
    decreases |acts|
  {
    if acts != [] {
      if RebornFirst(acts) {
        assert acts == [acts[0], acts[1]] + acts[2..];
        assert acts[1..][1..] == acts[2..];
        WithoutRebornKeeps(acts[2..]);
      } else {
        assert acts == [acts[0]] + acts[1..];
        ConsTail(acts[0], WithoutReborn(acts[1..]));
        WithoutRebornKeeps(acts[1..]);
      }
    }
  }

  /** The ids that the acknowledgements of a trace's REBORNs answer. */
  function RebornAcks(acts: seq<Act>): seq<string> {
    if acts == [] then []
    else if RebornFirst(acts) then [acts[1].env.corr.value] + RebornAcks(acts[2..])
    else RebornAcks(acts[1..])
  }

  /** The ids of the REBORNs that a message loop comes to. */
  function RebornIds(inbox: seq<Read>): seq<string> {
    if inbox == [] || inbox[0].Broken? || Ends(inbox[0].env) then []
    else (if IsReborn(inbox[0].env) then [inbox[0].env.id] else []) + RebornIds(inbox[1..])
  }

  lemma {:induction false} NoRebornAcks(a: seq<Act>, b: seq<Act>)
    requires Called(OnReborn) !in a
    ensures RebornAcks(a + b) == RebornAcks(b)
    decreases |a|
  {
    if a == [] {
      assert a + b == b;
    } else {
      assert (a + b)[1..] == a[1..] + b && (a + b)[0] == a[0];
      NoRebornAcks(a[1..], b);
    }
  }

  lemma ReplyRebornAcks(env: Incoming, state: ComponentState, verdict: Option<string>, rest: seq<Act>)
    ensures RebornAcks(Reply(env, state, verdict) + rest) ==
      (if IsReborn(env) then [env.id] else []) + RebornAcks(rest)
  {
    var reply := Reply(env, state, verdict);
    if IsReborn(env) {
      assert (reply + rest)[..2] == reply && (reply + rest)[2..] == rest;
      assert (reply + rest)[0] == Called(OnReborn) && (reply + rest)[1] == Wrote(AckEnv(env.id));
    } else {
      NoRebornAcks(reply, rest);
      assert [] + RebornAcks(rest) == RebornAcks(rest);
    }
  }

  lemma {:induction false} ScriptRebornAcks(inbox: seq<Read>, state: ComponentState, asked: nat,
                                           onConfigure: nat -> Option<string>)
    ensures RebornAcks(Script(inbox, state, asked, onConfigure)) == RebornIds(inbox)
    decreases |inbox|
  {
    if inbox != [] && inbox[0].Got? {
      var env := inbox[0].env;
      var verdict := onConfigure(asked);
      ReplyRebornAcks(env, state, verdict, After(inbox, state, asked, onConfigure));
      hide Reply, RebornAcks;
      if !Ends(env) {
        ScriptRebornAcks(inbox[1..], NextState(env, state, verdict), NextAsked(env, asked), onConfigure);
      } else {
        NoRebornAcks([], []);
      }
    }
  }

  lemma ReplyReborn(env: Incoming, state: ComponentState, verdict: Option<string>)
    ensures var plan := Reply(env, state, verdict);
      Paired(plan) && WithoutReborn(plan) == if IsReborn(env) then [] else plan
  {
    var plan := Reply(env, state, verdict);
    if IsReborn(env) {
      assert plan[2..] == [];
    } else {
      NothingReborn(plan);
    }
  }

  lemma {:induction false} ScriptWithoutReborn(inbox: seq<Read>, state: ComponentState, asked: nat,
                                              onConfigure: nat -> Option<string>)
    ensures Paired(Script(inbox, state, asked, onConfigure))
    ensures Script(NoReborn(inbox), state, asked, onConfigure) ==
      WithoutReborn(Script(inbox, state, asked, onConfigure))
    decreases |inbox|
  {
    if inbox != [] {
      if inbox[0].Broken? {
        ConsTail(inbox[0], NoReborn(inbox[1..]));
      } else {
        var env := inbox[0].env;
        var verdict := onConfigure(asked);
        var reply, rest := Reply(env, state, verdict), After(inbox, state, asked, onConfigure);
        ReplyReborn(env, state, verdict);
        NothingReborn([]);
        WithoutRebornConcat(reply, rest);
        hide Reply, WithoutReborn, Paired;
        ConsTail(inbox[0], NoReborn(inbox[1..]));
        if !Ends(env) {
          ScriptWithoutReborn(inbox[1..], NextState(env, state, verdict), NextAsked(env, asked), onConfigure);
        }
        RebornSteps(env, state, asked, verdict);
        hide NextState, NextAsked, IsReborn;
        if IsReborn(env) {
          assert [] + NoReborn(inbox[1..]) == NoReborn(inbox[1..]);
          assert [] + WithoutReborn(rest) == WithoutReborn(rest);
        }
      }
    }
  }

  lemma RebornSteps(env: Incoming, state: ComponentState, asked: nat, verdict: Option<string>)
    ensures IsReborn(env) ==> !Ends(env) && NextState(env, state, verdict) == state && NextAsked(env, asked) == asked
  {
  }

  lemma {:induction false} EndWithoutReborn(inbox: seq<Read>, state: ComponentState, asked: nat,
                                           onConfigure: nat -> Option<string>)
    ensures Close(NoReborn(inbox)) == Close(inbox)
    ensures Rest(NoReborn(inbox), state, asked, onConfigure) == Rest(inbox, state, asked, onConfigure)
    decreases |inbox|
  {
    if inbox != [] {
      ConsTail(inbox[0], NoReborn(inbox[1..]));
      assert [] + NoReborn(inbox[1..]) == NoReborn(inbox[1..]);
      if inbox[0].Got? && !Ends(inbox[0].env) {
        var env := inbox[0].env;
        RebornSteps(env, state, asked, onConfigure(asked));
        EndWithoutReborn(inbox[1..], NextState(env, state, onConfigure(asked)), NextAsked(env, asked), onConfigure);
      }
    }
  }

  /** A link with the REBORNs after its first read removed. */
  function RebornFree(link: Link): Link {
    if link.inbox == [] then link
    else link.(inbox := [link.inbox[0]] + NoReborn(link.inbox[1..]))
  }

  /** When no write fails, every call of on_reborn is followed by its acknowledgement, and taking the
      REBORNs out of the input takes exactly these pairs out of the trace: the acknowledgements of
      the REBORNs that are handled. State, ids, outcome, the number of workers and the token's
      cancellation stay as they are. */
  lemma RebornNonInterference(envId: string, m: Machine, link: Link)
    requires forall k :: link.writeOk(k)
    ensures var e, f := Session(envId, m, link), Session(envId, m, RebornFree(link));
      && Paired(e.conn.acts)
      && f.conn.acts == WithoutReborn(e.conn.acts)
      && RebornAcks(e.conn.acts) == (if link.opens && Welcomed(link) then RebornIds(Tail(link.inbox)) else [])
      && f.conn.me == e.conn.me && f.outcome == e.outcome
      && Spawns(f.conn.acts) == Spawns(e.conn.acts)
      && (Cancelled in f.conn.acts <==> Cancelled in e.conn.acts)
  {
    RebornFreeTrace(envId, m, link);
    hide Session;
    WithoutRebornKeeps(Session(envId, m, link).conn.acts);
  }

  lemma RebornFreeTrace(envId: string, m: Machine, link: Link)
    requires forall k :: link.writeOk(k)
    ensures var e, f := Session(envId, m, link), Session(envId, m, RebornFree(link));
      && Paired(e.conn.acts)
      && f.conn.acts == WithoutReborn(e.conn.acts)
      && RebornAcks(e.conn.acts) == (if link.opens && Welcomed(link) then RebornIds(Tail(link.inbox)) else [])
      && f.conn.me == e.conn.me && f.outcome == e.outcome
  {
    RegisterFollows(envId, m, link);
    RegisterSame(envId, m, link);
    Uncut(link.writeOk, 0,
          [Wrote(RegisterEnv(Offer(envId, m.componentId)))] + (if Welcomed(link) then Greeting() else []));
    hide RustSession.Register;
    var step := RustSession.Register(envId, link, Start(m));
    if link.opens {
      NothingReborn(step.conn.acts);
      NoRebornAcks(step.conn.acts, []);
      assert step.conn.acts + [] == step.conn.acts;
      if step.Proceed? {
        hide Cut, Greeting, Offer;
        LoopWithoutReborn(link, step.conn);
        var script := Script(Tail(link.inbox), Ready, 0, link.onConfigure);
        WithoutRebornConcat(step.conn.acts, script);
        NoRebornAcks(step.conn.acts, script);
      }
    } else {
      NothingReborn([]);
    }
  }

  /** The message loops on both inputs, from where registration leaves them. */
  lemma LoopWithoutReborn(link: Link, c: Conn)
    requires (forall k :: link.writeOk(k)) && c.me.state == Ready && c.asked == 0
    ensures var inbox := Tail(link.inbox);
      var script := Script(inbox, Ready, 0, link.onConfigure);
      var e, f := Loop(link, inbox, c), Loop(RebornFree(link), NoReborn(inbox), c);
      && e.conn.acts == c.acts + script && f.conn.acts == c.acts + WithoutReborn(script)
      && Paired(script) && RebornAcks(script) == RebornIds(inbox)
      && f.conn.me == e.conn.me && f.outcome == e.outcome
  {
    var inbox := Tail(link.inbox);
    var script := Script(inbox, Ready, 0, link.onConfigure);
    ScriptWithoutReborn(inbox, Ready, 0, link.onConfigure);
    EndWithoutReborn(inbox, Ready, 0, link.onConfigure);
    ScriptRebornAcks(inbox, Ready, 0, link.onConfigure);
    LoopIsCutScript(link, inbox, c);
    LoopIsCutScript(RebornFree(link), NoReborn(inbox), c);
    Uncut(link.writeOk, c.written, script);
    Uncut(link.writeOk, c.written, WithoutReborn(script));
    hide Script, Loop, Close, Rest;
  }

  lemma RegisterSame(envId: string, m: Machine, link: Link)
    ensures Await(RebornFree(link)) == Await(link)
    ensures Tail(RebornFree(link).inbox) == NoReborn(Tail(link.inbox))
    ensures RustSession.Register(envId, RebornFree(link), Start(m)) == RustSession.Register(envId, link, Start(m))
  {
    if link.inbox != [] {
      ConsTail(link.inbox[0], NoReborn(link.inbox[1..]));
    }
  }

  // ----- ignored envelopes -----

  /** Acknowledgements, data, and commands a handler does not know: nothing is done about them. */
  predicate Ignored(env: Incoming) {
    match env.kind
    case Control => true
    case Data => true
    case Heartbeat => env.command != Ping
    case Config => env.command != Configure
    case Lifecycle => env.command != Reborn && env.command != Command.Shutdown
    case Error => false
  }

  function Significant(inbox: seq<Read>): seq<Read> {
    if inbox == [] then []
    else (if inbox[0].Got? && Ignored(inbox[0].env) then [] else [inbox[0]]) + Significant(inbox[1..])
  }

  lemma {:induction false} LoopSignificant(link: Link, inbox: seq<Read>, c: Conn)
    ensures Loop(link, Significant(inbox), c) == Loop(link, inbox, c)
    decreases |inbox|
  {
    if inbox != [] {
      ConsTail(inbox[0], Significant(inbox[1..]));
      assert [] + Significant(inbox[1..]) == Significant(inbox[1..]);
      if inbox[0].Got? {
        assert Ignored(inbox[0].env) ==> Handle(link, c, inbox[0].env) == Proceed(c);
        hide Handle;
        if Handle(link, c, inbox[0].env).Proceed? {
          LoopSignificant(link, inbox[1..], Handle(link, c, inbox[0].env).conn);
        }
      }
    }
  }

  /** Two inputs that differ after REGISTERED only in envelopes that are ignored give the very
      same connection: trace, fields, counters and outcome, whichever writes fail. */
  lemma AckTransparency(envId: string, m: Machine, link: Link, other: Link)
    requires other == link.(inbox := other.inbox)
    requires link.inbox != [] && other.inbox != [] && link.inbox[0] == other.inbox[0]
    requires Significant(link.inbox[1..]) == Significant(other.inbox[1..])
    ensures Session(envId, m, other) == Session(envId, m, link)
  {
    RegisterFirst(envId, m, link, other);
    hide RustSession.Register, Significant;
    var step := RustSession.Register(envId, link, Start(m));
    if link.opens && step.Proceed? {
      LoopSignificant(link, link.inbox[1..], step.conn);
      LoopSignificant(other, other.inbox[1..], step.conn);
      LoopSame(link, other, other.inbox[1..], step.conn);
      LoopSame(link, other, Significant(other.inbox[1..]), step.conn);
    }
  }

  /** An envelope of type CONTROL or DATA that comes anywhere after the first read changes nothing. */
  lemma InsertIgnored(envId: string, m: Machine, link: Link, at: nat, env: Incoming)
    requires (env.kind == Control || env.kind == Data) && 1 <= at <= |link.inbox|
    ensures var more := link.(inbox := link.inbox[..at] + [Got(env)] + link.inbox[at..]);
      Session(envId, m, more) == Session(envId, m, link)
  {
    var inbox := link.inbox[1..];
    var more := link.(inbox := link.inbox[..at] + [Got(env)] + link.inbox[at..]);
    SignificantInsert(inbox[..at - 1], Got(env), inbox[at - 1..]);
    assert inbox[..at - 1] + inbox[at - 1..] == inbox && link.inbox[at..] == inbox[at - 1..];
    assert more.inbox[1..] == inbox[..at - 1] + [Got(env)] + inbox[at - 1..];
    hide Session, Significant;
    AckTransparency(envId, m, link, more);
  }

  lemma {:induction false} SignificantInsert(a: seq<Read>, r: Read, b: seq<Read>)
    requires r.Got? && Ignored(r.env)
    ensures Significant(a + [r] + b) == Significant(a + b)
  {
    if a == [] {
      assert [] + [r] + b == [r] + b && [] + b == b;
      ConsTail(r, b);
      assert [] + Significant(b) == Significant(b);
    } else {
      SignificantInsert(a[1..], r, b);
      assert (a + [r] + b)[0] == a[0] && (a + [r] + b)[1..] == a[1..] + [r] + b;
      assert (a + b)[0] == a[0] && (a + b)[1..] == a[1..] + b;
    }
  }

  lemma RegisterFirst(envId: string, m: Machine, link: Link, other: Link)
    requires other == link.(inbox := other.inbox)
    requires link.inbox != [] && other.inbox != [] && link.inbox[0] == other.inbox[0]
    ensures RustSession.Register(envId, other, Start(m)) == RustSession.Register(envId, link, Start(m))
  {
  }

  /** The loop consults only the oracles of a link, not its inbox. */
  lemma {:induction false} LoopSame(link: Link, other: Link, inbox: seq<Read>, c: Conn)
    requires other == link.(inbox := other.inbox)
    ensures Loop(other, inbox, c) == Loop(link, inbox, c)
    decreases |inbox|
  {
    if inbox != [] && inbox[0].Got? {
      HandleSame(link, other, c, inbox[0].env);
      hide Handle;
      if Handle(link, c, inbox[0].env).Proceed? {
        LoopSame(link, other, inbox[1..], Handle(link, c, inbox[0].env).conn);
      }
    }
  }

  lemma HandleSame(link: Link, other: Link, c: Conn, env: Incoming)
    requires other == link.(inbox := other.inbox)
    ensures Handle(other, c, env) == Handle(link, c, env)
  {
  }
}
