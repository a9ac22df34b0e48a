/** What a Rust connection does in order: the grammar of its acts, and how the envelopes it writes
    answer the envelopes it reads. */
module RustWire {
  import opened Protocol
  import opened RustSession
  import opened RustTrace

  // ----- the grammar -----

  /** A group of acts that one envelope calls for. */
  datatype Block =
    | Beats(id: string, state: ComponentState)
    | Installs(path: string, topics: seq<string>, id: string)
    | Refuses(path: string, topics: seq<string>, text: string)
    | Rebirth(id: string)
    | Complains(code: string, text: string)

  /** The acts of a group, with every envelope written out. */
  function BlockActs(b: Block): seq<Act> {
    match b
    case Beats(id, state) =>
      [Called(OnPing)] + [Wrote(Outgoing(Heartbeat, Pong, Some(id), Beat(state)))]
    case Installs(path, topics, id) =>
      [Called(OnConfigure(path, topics))] +
      ([Wrote(Outgoing(Control, Ack, Some(id), StatusOk))] +
       ([Wrote(Outgoing(Lifecycle, StateUpdate, None, Reports(ComponentState.Configured)))] +
        ([Wrote(Outgoing(Lifecycle, StateUpdate, None, Reports(Running)))] + [Spawned])))
    case Refuses(path, topics, text) =>
      [Called(OnConfigure(path, topics))] +
      [Wrote(Outgoing(MessageType.Error, RuntimeError, None, Fault("CONFIGURE_FAILED", text, true)))]
    case Rebirth(id) => [Called(OnReborn)] + [Wrote(Outgoing(Control, Ack, Some(id), StatusOk))]
    case Complains(code, text) => [Called(OnError(code, text))]
  }

  function Flatten(bs: seq<Block>): seq<Act> {
    if bs == [] then [] else BlockActs(bs[0]) + Flatten(bs[1..])
  }

  /** Every PONG reports RUNNING after an installation, and READY before the first one. */
  predicate Truthful(bs: seq<Block>, running: bool) {
    bs == [] ||
    (&& (bs[0].Beats? ==> bs[0].state == if running then Running else Ready)
     && Truthful(bs[1..], running || bs[0].Installs?))
  }

  function Farewell(id: string): seq<Act> {
    [Cancelled] + ([Wrote(Outgoing(Control, Ack, Some(id), StatusOk))] + [Called(OnShutdown)])
  }

  predicate IsGoodbye(bye: seq<Act>) {
    bye == [] || (|bye| == 3 && IsAck(bye[1]) && bye == Farewell(bye[1].env.corr.value))
  }

  function Hello(offer: Option<string>): seq<Outgoing> {
    [RegisterEnv(offer), StateEnv(Initializing), StateEnv(Ready)]
  }

  function HelloActs(offer: Option<string>): seq<Act> {
    [Wrote(Outgoing(Lifecycle, Command.Register, None, Identity(offer)))] +
    ([Wrote(Outgoing(Lifecycle, StateUpdate, None, Reports(Initializing)))] +
     [Wrote(Outgoing(Lifecycle, StateUpdate, None, Reports(Ready)))])
  }

  /** The acts of one connection: the handshake, any number of blocks, at most one farewell, or a
      prefix of that. The acknowledgement of a farewell follows the cancellation of the token, that
      of a rebirth the call of on_reborn, and that of an installation the call of on_configure. */
  ghost predicate Grammatical(acts: seq<Act>, offer: Option<string>) {
    exists bs: seq<Block>, bye: seq<Act> ::
      Truthful(bs, false) && IsGoodbye(bye) && acts <= HelloActs(offer) + (Flatten(bs) + bye)
  }

  /** The block that an envelope calls for, if any. */
  function BlockOf(env: Incoming, state: ComponentState, verdict: Option<string>): seq<Block> {
    var path, topics := TextOr(env.payload, "data_stream_socket", ""), Topics(env.payload);
    if IsPing(env) then [Beats(env.id, state)]
    else if IsConfigure(env) then
      [match verdict case Some(text) => Refuses(path, topics, text) case None => Installs(path, topics, env.id)]
    else if IsReborn(env) then [Rebirth(env.id)]
    else if env.kind == MessageType.Error then
      [Complains(TextOr(env.payload, "code", "UNKNOWN"), TextOr(env.payload, "message", ""))]
    else []
  }

  /** The blocks of a message loop when no write fails. */
  function Blocks(inbox: seq<Read>, state: ComponentState, asked: nat,
                  onConfigure: nat -> Option<string>): seq<Block> {
    if inbox == [] || inbox[0].Broken? then []
    else
      var env := inbox[0].env;
      var verdict := onConfigure(asked);
      BlockOf(env, state, verdict) +
      (if Ends(env) then []
       else Blocks(inbox[1..], NextState(env, state, verdict), NextAsked(env, asked), onConfigure))
  }

  /** The farewell to the SHUTDOWN that ends the input, if one does. */
  function Bye(inbox: seq<Read>): seq<Act> {
    if inbox == [] || inbox[0].Broken? then []
    else
      var env := inbox[0].env;
      if IsShutdown(env) then Farewell(env.id) else if IsFatal(env) then [] else Bye(inbox[1..])
  }

  lemma FlattenOne(b: Block)
    ensures Flatten([b]) == BlockActs(b)
  {
    assert [b][1..] == [] && BlockActs(b) + [] == BlockActs(b);
  }

  lemma FlattenCons(b: Block, bs: seq<Block>)
    ensures Flatten([b] + bs) == BlockActs(b) + Flatten(bs)
  {
    ConsTail(b, bs);
  }

  lemma TruthfulCons(b: Block, bs: seq<Block>, running: bool)
    requires b.Beats? ==> b.state == if running then Running else Ready
    requires Truthful(bs, running || b.Installs?)
    ensures Truthful([b] + bs, running)
  {
    ConsTail(b, bs);
  }

  /** A reply is the block of its envelope, or the farewell. */
  lemma ReplyIsBlock(env: Incoming, state: ComponentState, verdict: Option<string>)
    ensures Reply(env, state, verdict) ==
      if IsShutdown(env) then Farewell(env.id) else Flatten(BlockOf(env, state, verdict))
    ensures IsShutdown(env) ==> BlockOf(env, state, verdict) == []
  {
    var b := BlockOf(env, state, verdict);
    if b != [] {
      FlattenOne(b[0]);
      assert b == [b[0]];
    }
    hide Installation;
  }

  /** The block of an envelope in front of the blocks that follow. */
  lemma BlockGrammar(env: Incoming, state: ComponentState, verdict: Option<string>, bs: seq<Block>)
    requires state == Ready || state == Running
    requires Truthful(bs, NextState(env, state, verdict) == Running)
    ensures var b := BlockOf(env, state, verdict);
      && Flatten(b + bs) == Flatten(b) + Flatten(bs)
      && Truthful(b + bs, state == Running)
  {
    var b := BlockOf(env, state, verdict);
    if b == [] {
      assert b + bs == bs && Flatten(b) == [] && [] + Flatten(bs) == Flatten(bs);
    } else {
      assert b == [b[0]];
      FlattenOne(b[0]);
      FlattenCons(b[0], bs);
      TruthfulCons(b[0], bs, state == Running);
    }
  }

  lemma {:induction false} ScriptGrammar(inbox: seq<Read>, state: ComponentState, asked: nat,
                                        onConfigure: nat -> Option<string>)
    requires state == Ready || state == Running
    ensures var bs := Blocks(inbox, state, asked, onConfigure);
      && Script(inbox, state, asked, onConfigure) == Flatten(bs) + Bye(inbox)
      && Truthful(bs, state == Running) && IsGoodbye(Bye(inbox))
    decreases |inbox|
  {
    if inbox != [] && inbox[0].Got? {
      var env := inbox[0].env;
      var verdict := onConfigure(asked);
      var next, nextAsked := NextState(env, state, verdict), NextAsked(env, asked);
      var b := BlockOf(env, state, verdict);
      ReplyIsBlock(env, state, verdict);
      if Ends(env) {
        EndGrammar(env, state, verdict);
        assert b + [] == b;
        assert Reply(env, state, verdict) + [] == Reply(env, state, verdict);
        hide Reply, Flatten, BlockOf, Farewell, Truthful, IsGoodbye;
      } else {
        hide Reply;
        ScriptGrammar(inbox[1..], next, nextAsked, onConfigure);
        var bs := Blocks(inbox[1..], next, nextAsked, onConfigure);
        BlockGrammar(env, state, verdict, bs);
        hide Bye, Flatten, BlockOf, Truthful, NextState, NextAsked, Farewell, IsGoodbye;
        Assoc(Flatten(b), Flatten(bs), Bye(inbox[1..]));
        ByeTail(inbox);
      }
    }
  }

  lemma ByeTail(inbox: seq<Read>)
    requires inbox != [] && inbox[0].Got? && !Ends(inbox[0].env)
    ensures Bye(inbox) == Bye(inbox[1..])
  {
  }

  lemma EndGrammar(env: Incoming, state: ComponentState, verdict: Option<string>)
    requires Ends(env)
    ensures var b, bye := BlockOf(env, state, verdict), if IsShutdown(env) then Farewell(env.id) else [];
      && Reply(env, state, verdict) == Flatten(b) + bye
      && Truthful(b, state == Running) && IsGoodbye(bye)
  {
    var b := BlockOf(env, state, verdict);
    ReplyIsBlock(env, state, verdict);
    if IsShutdown(env) {
      assert [] + Farewell(env.id) == Farewell(env.id);
    } else {
      assert Flatten(b) + [] == Flatten(b) && b[1..] == [];
    }
  }

  // ----- what the grammar says -----

  /** Nothing follows a cancellation but the acknowledgement and the call of a farewell, in which
      no envelope comes after the acknowledgement; and on_shutdown is called nowhere else. */
  predicate FarewellIsLast(acts: seq<Act>) {
    && (forall k | 0 <= k < |acts| && acts[k] == Cancelled :: IsLeave(acts[k..]))
    && (forall k | 0 <= k < |acts| && acts[k] == Called(OnShutdown) ::
          k == |acts| - 1 && k >= 2 && acts[k - 2] == Cancelled)
  }

  predicate IsLeave(tail: seq<Act>) {
    && 1 <= |tail| <= 3
    && (|tail| >= 2 ==> IsAck(tail[1]))
    && (|tail| == 3 ==> tail[2] == Called(OnShutdown))
  }

  lemma {:induction false} NoFarewellInBlocks(bs: seq<Block>)
    ensures Cancelled !in Flatten(bs) && Called(OnShutdown) !in Flatten(bs)
  {
    if bs != [] {
      NoFarewellInBlock(bs[0]);
      hide BlockActs;
      NoFarewellInBlocks(bs[1..]);
    }
  }

  lemma NoFarewellInBlock(b: Block)
    ensures Cancelled !in BlockActs(b) && Called(OnShutdown) !in BlockActs(b)
  {
  }

  /** The grammar tells a farewell from a rebirth: it comes last. */
  lemma GrammarTells(acts: seq<Act>, offer: Option<string>)
    requires Grammatical(acts, offer)
    ensures FarewellIsLast(acts)
    ensures acts != [] ==> acts[0] == Wrote(Outgoing(Lifecycle, Command.Register, None, Identity(offer)))
  {
    var bs: seq<Block>, bye: seq<Act> :|
      Truthful(bs, false) && IsGoodbye(bye) && acts <= HelloActs(offer) + (Flatten(bs) + bye);
    NoFarewellInBlocks(bs);
    FarewellComesLast(acts, HelloActs(offer) + Flatten(bs), bye) by {
      Assoc(HelloActs(offer), Flatten(bs), bye);
    }
  }

  lemma FarewellComesLast(acts: seq<Act>, front: seq<Act>, bye: seq<Act>)
    requires acts <= front + bye && IsGoodbye(bye)
    requires Cancelled !in front && Called(OnShutdown) !in front
    ensures FarewellIsLast(acts)
  {
    var all, n := front + bye, |front|;
    assert forall k | 0 <= k < n :: all[k] in front;
    forall k | 0 <= k < |acts| && (acts[k] == Cancelled || acts[k] == Called(OnShutdown))
      ensures acts[k] == Cancelled ==> IsLeave(acts[k..])
      ensures acts[k] == Called(OnShutdown) ==> k == |acts| - 1 && k >= 2 && acts[k - 2] == Cancelled
    {
      assert acts[k] == all[k];
      assert n <= k && bye[k - n] == acts[k];
      assert bye == Farewell(bye[1].env.corr.value);
      assert n < |acts| && acts[n] == bye[0];
      assert n + 1 < |acts| ==> acts[n + 1] == bye[1];
      assert n + 2 < |acts| ==> acts[n + 2] == bye[2];
    }
  }

  // ----- the envelopes -----

  function InstallationEnvs(id: string): seq<Outgoing> {
    [AckEnv(id), StateEnv(ComponentState.Configured), StateEnv(Running)]
  }

  lemma InstallationWire(id: string)
    ensures Wire(Installation(id)) == InstallationEnvs(id)
  {
    var a1, a2, a3 := Wrote(AckEnv(id)), Wrote(StateEnv(ComponentState.Configured)), Wrote(StateEnv(Running));
    WireCons(a1, [a2] + ([a3] + [Spawned]));
    WireCons(a2, [a3] + [Spawned]);
    WireCons(a3, [Spawned]);
    assert Wire([Spawned]) == [];
  }

  /** The envelopes of a reply. */
  lemma ReplyWire(env: Incoming, state: ComponentState, verdict: Option<string>)
    ensures Wire(Reply(env, state, verdict)) ==
      if IsPing(env) then [PongEnv(env.id, state)]
      else if IsConfigure(env) then
        (match verdict case Some(text) => [ConfigureFailedEnv(text)] case None => InstallationEnvs(env.id))
      else if IsReborn(env) || IsShutdown(env) then [AckEnv(env.id)]
      else []
  {
    if IsPing(env) {
      CutPair(_ => true, 0, Called(OnPing), PongEnv(env.id, state));
    } else if IsConfigure(env) {
      match verdict
      case Some(text) => CutPair(_ => true, 0, Asking(env), ConfigureFailedEnv(text));
      case None =>
        InstallationWire(env.id);
        WireCons(Asking(env), Installation(env.id));
    } else if IsReborn(env) {
      CutPair(_ => true, 0, Called(OnReborn), AckEnv(env.id));
    } else if IsShutdown(env) {
      WireCons(Cancelled, [Wrote(AckEnv(env.id))] + [Called(OnShutdown)]);
      WireCons(Wrote(AckEnv(env.id)), [Called(OnShutdown)]);
      assert Wire([Called(OnShutdown)]) == [];
    } else if env.kind == MessageType.Error {
      var a := Called(OnError(TextOr(env.payload, "code", "UNKNOWN"), TextOr(env.payload, "message", "")));
      assert Wire([a]) == [];
    }
  }

  lemma WirePrefix(a: seq<Act>, b: seq<Act>)
    requires a <= b
    ensures Wire(a) <= Wire(b)
  {
    assert b == a + b[|a|..];
    WireConcat(a, b[|a|..]);
  }

  /** The wire of a connection's script. */
  lemma SessionScriptWire(envId: string, m: Machine, link: Link)
    ensures var w := Wire(SessionScript(envId, m, link));
      var offer := Offer(envId, m.componentId);
      var inbox := Tail(link.inbox);
      if !link.opens then w == []
      else if !Welcomed(link) then w == [RegisterEnv(offer)]
      else w == Hello(offer) + Wire(Script(inbox, Ready, 0, link.onConfigure))
  {
    var offer := Offer(envId, m.componentId);
    var r := Wrote(RegisterEnv(offer));
    if link.opens {
      if Welcomed(link) {
        GreetingWire(offer);
        Assoc([r], Greeting(), Script(Tail(link.inbox), Ready, 0, link.onConfigure));
        WireConcat([r] + Greeting(), Script(Tail(link.inbox), Ready, 0, link.onConfigure));
      } else {
        assert [r] + [] == [r];
        assert Wire([r]) == [RegisterEnv(offer)];
      }
    }
  }

  /** Whatever is read and whichever writes fail, the acts on a connection follow the grammar,
      whatever state earlier connections left behind. */
  lemma SessionGrammar(envId: string, m: Machine, link: Link)
    ensures Grammatical(Session(envId, m, link).conn.acts, Offer(envId, m.componentId))
  {
    var offer := Offer(envId, m.componentId);
    var inbox := Tail(link.inbox);
    var acts := Session(envId, m, link).conn.acts;
    SessionIsCutScript(envId, m, link);
    hide Session;
    if link.opens && Welcomed(link) {
      ScriptGrammar(inbox, Ready, 0, link.onConfigure);
      Assoc([Wrote(RegisterEnv(offer))], Greeting(), Script(inbox, Ready, 0, link.onConfigure));
      hide Script, Greeting, Flatten;
      assert Truthful(Blocks(inbox, Ready, 0, link.onConfigure), false);
      assert acts <= HelloActs(offer) + (Flatten(Blocks(inbox, Ready, 0, link.onConfigure)) + Bye(inbox));
    } else {
      assert acts <= [Wrote(RegisterEnv(offer))] <= HelloActs(offer) + (Flatten([]) + []);
      assert Truthful([], false) && IsGoodbye([]);
    }
  }

  // ----- the answers -----

  /** The correlated envelopes, as the command and the id they answer. */
  function Answers(w: seq<Outgoing>): seq<(Command, string)> {
    if w == [] then []
    else (if w[0].corr.Some? then [(w[0].command, w[0].corr.value)] else []) + Answers(w[1..])
  }

  /** What the input asks to be answered: each PING, each CONFIGURE that on_configure accepts and
      each REBORN, up to the SHUTDOWN or whatever else ends the loop. */
  function Causes(inbox: seq<Read>, asked: nat, onConfigure: nat -> Option<string>): seq<(Command, string)> {
    if inbox == [] || inbox[0].Broken? then []
    else
      var env := inbox[0].env;
      if IsShutdown(env) then [(Ack, env.id)]
      else if IsFatal(env) then []
      else if IsPing(env) then [(Pong, env.id)] + Causes(inbox[1..], asked, onConfigure)
      else if IsReborn(env) then [(Ack, env.id)] + Causes(inbox[1..], asked, onConfigure)
      else if IsConfigure(env) then
        (if onConfigure(asked).None? then [(Ack, env.id)] else []) + Causes(inbox[1..], asked + 1, onConfigure)
      else Causes(inbox[1..], asked, onConfigure)
  }

  function SessionCauses(link: Link): seq<(Command, string)> {
    if link.opens && Welcomed(link) then Causes(Tail(link.inbox), 0, link.onConfigure) else []
  }

  lemma {:induction false} AnswersConcat(a: seq<Outgoing>, b: seq<Outgoing>)
    ensures Answers(a + b) == Answers(a) + Answers(b)
  {
    if a == [] {
      assert a + b == b;
    } else {
      assert (a + b)[1..] == a[1..] + b && (a + b)[0] == a[0];
      AnswersConcat(a[1..], b);
      Assoc(if a[0].corr.Some? then [(a[0].command, a[0].corr.value)] else [], Answers(a[1..]), Answers(b));
    }
  }

  lemma AnswersOne(e: Outgoing)
    ensures Answers([e]) == if e.corr.Some? then [(e.command, e.corr.value)] else []
  {
    assert [e][1..] == [];
  }

  lemma AnswersInstalls(id: string)
    ensures Answers(InstallationEnvs(id)) == [(Ack, id)]
  {
    var w := InstallationEnvs(id);
    assert w[1..] == [StateEnv(ComponentState.Configured), StateEnv(Running)];
    assert w[1..][1..] == [StateEnv(Running)];
    AnswersOne(StateEnv(Running));
  }

  /** What one envelope asks to be answered. */
  function CauseOf(env: Incoming, verdict: Option<string>): seq<(Command, string)> {
    if IsPing(env) then [(Pong, env.id)]
    else if IsReborn(env) || IsShutdown(env) || (IsConfigure(env) && verdict.None?) then [(Ack, env.id)]
    else []
  }

  lemma ReplyAnswers(env: Incoming, state: ComponentState, verdict: Option<string>)
    ensures Answers(Wire(Reply(env, state, verdict))) == CauseOf(env, verdict)
  {
    ReplyWire(env, state, verdict);
    AnswersOne(PongEnv(env.id, state));
    AnswersOne(AckEnv(env.id));
    AnswersInstalls(env.id);
    if verdict.Some? {
      AnswersOne(ConfigureFailedEnv(verdict.value));
    }
    hide Reply, InstallationEnvs;
  }

  lemma CausesCons(inbox: seq<Read>, asked: nat, onConfigure: nat -> Option<string>)
    requires inbox != [] && inbox[0].Got?
    ensures var env := inbox[0].env;
      Causes(inbox, asked, onConfigure) == CauseOf(env, onConfigure(asked)) +
        (if Ends(env) then [] else Causes(inbox[1..], NextAsked(env, asked), onConfigure))
  {
    var rest := Causes(inbox[1..], asked, onConfigure);
    assert [] + rest == rest;
  }

  lemma {:induction false} ScriptAnswers(inbox: seq<Read>, state: ComponentState, asked: nat,
                                        onConfigure: nat -> Option<string>)
    ensures Answers(Wire(Script(inbox, state, asked, onConfigure))) == Causes(inbox, asked, onConfigure)
    decreases |inbox|
  {
    if inbox != [] && inbox[0].Got? {
      var env := inbox[0].env;
      var verdict := onConfigure(asked);
      var reply, rest := Reply(env, state, verdict), After(inbox, state, asked, onConfigure);
      WireConcat(reply, rest);
      AnswersConcat(Wire(reply), Wire(rest));
      ReplyAnswers(env, state, verdict);
      CausesCons(inbox, asked, onConfigure);
      hide Reply, CauseOf;
      if !Ends(env) {
        ScriptAnswers(inbox[1..], NextState(env, state, verdict), NextAsked(env, asked), onConfigure);
      }
    }
  }

  /** The correlated envelopes written on a connection answer, one for one and in order, what its
      input asks to be answered. With failing writes they are a prefix of that, and without
      any they are all of it. */
  lemma OrderedMatching(envId: string, m: Machine, link: Link)
    ensures var w := Wire(Session(envId, m, link).conn.acts);
      && Answers(w) <= SessionCauses(link)
      && ((forall k :: link.writeOk(k)) ==> Answers(w) == SessionCauses(link))
  {
    var acts, script := Session(envId, m, link).conn.acts, SessionScript(envId, m, link);
    SessionIsCutScript(envId, m, link);
    SessionScriptAnswers(envId, m, link);
    hide Session, SessionScript, SessionCauses;
    AnswersPrefix(acts, script);
    if forall k :: link.writeOk(k) {
      Uncut(link.writeOk, 0, script);
    }
  }

  lemma AnswersPrefix(a: seq<Act>, b: seq<Act>)
    requires a <= b
    ensures Answers(Wire(a)) <= Answers(Wire(b))
  {
    assert b == a + b[|a|..];
    WireConcat(a, b[|a|..]);
    AnswersConcat(Wire(a), Wire(b[|a|..]));
  }

  lemma SessionScriptAnswers(envId: string, m: Machine, link: Link)
    ensures Answers(Wire(SessionScript(envId, m, link))) == SessionCauses(link)
  {
    var offer := Offer(envId, m.componentId);
    SessionScriptWire(envId, m, link);
    hide SessionScript;
    AnswersOne(RegisterEnv(offer));
    if link.opens && Welcomed(link) {
      var rest := Wire(Script(Tail(link.inbox), Ready, 0, link.onConfigure));
      ScriptAnswers(Tail(link.inbox), Ready, 0, link.onConfigure);
      AnswersConcat(Hello(offer), rest);
      assert Hello(offer)[1..] == [StateEnv(Initializing), StateEnv(Ready)];
      assert Hello(offer)[1..][1..] == [StateEnv(Ready)];
      AnswersOne(StateEnv(Ready));
    }
  }

  /** When no write fails, nothing is cut. */
  lemma {:induction false} Uncut(writeOk: nat -> bool, w: nat, acts: seq<Act>)
    requires forall k :: writeOk(k)
    ensures Cut(writeOk, w, acts) == acts
    decreases |acts|
  {
    if acts != [] {
      Uncut(writeOk, if acts[0].Wrote? then w + 1 else w, acts[1..]);
    }
  }
}
