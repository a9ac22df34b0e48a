/** The vocabulary of the Aegis component protocol shared by every client in the model. */
module Protocol {

  datatype Option<+T> = None | Some(value: T)

  datatype MessageType = Control | Lifecycle | Config | Error | Heartbeat | Data

  datatype Command =
    | Register | Registered | StateUpdate | Shutdown | Reborn | Ack | Nack
    | Configure | Configured | Ping | Pong | RuntimeError | RegistrationFailed

  datatype ComponentState =
    | Init | Registered | Initializing | Ready | Configured
    | Running | Waiting | Error | Finished | Shutdown

  /** A JSON value. Numbers keep their text, objects keep their members in order. */
  datatype Json =
    | Null
    | Bool(flag: bool)
    | Number(lexeme: string)
    | Text(text: string)
    | List(items: seq<Json>)
    | Object(fields: seq<(string, Json)>)

  type Payload = map<string, Json>

  /** The part of a received envelope that a client looks at. */
  datatype Incoming = Incoming(id: string, kind: MessageType, command: Command, payload: Payload)

  /** What the payload of a sent envelope says. */
  datatype Body =
    | Identity(offered: Option<string>)
    | Reports(state: ComponentState)
    | Beat(state: ComponentState)
    | Fault(code: string, text: string, recoverable: bool)
    | StatusOk
    | Empty

  /** A sent envelope; its fresh message id, timestamp and source are not modelled. */
  datatype Outgoing =
    Outgoing(kind: MessageType, command: Command, corr: Option<string>, body: Body)

  function RegisterEnv(offered: Option<string>): Outgoing {
    Outgoing(Lifecycle, Command.Register, None, Identity(offered))
  }

  function StateEnv(s: ComponentState): Outgoing {
    Outgoing(Lifecycle, StateUpdate, None, Reports(s))
  }

  function PongEnv(id: string, s: ComponentState): Outgoing {
    Outgoing(Heartbeat, Pong, Some(id), Beat(s))
  }

  function AckEnv(id: string): Outgoing {
    Outgoing(Control, Ack, Some(id), StatusOk)
  }

  function ConfigureFailedEnv(text: string): Outgoing {
    Outgoing(MessageType.Error, RuntimeError, None, Fault("CONFIGURE_FAILED", text, true))
  }

  function ShutdownEnv(): Outgoing {
    Outgoing(Lifecycle, Command.Shutdown, None, Empty)
  }

  /** The user callbacks that a client makes, other than the spawned worker. */
  datatype Callback =
    | OnPing
    | OnConfigure(socketPath: string, topics: seq<string>)
    | OnReborn
    | OnShutdown
    | OnError(code: string, text: string)

  /** Everything a client does on a connection that somebody else can observe. */
  datatype Act =
    | Called(callback: Callback)
    | Wrote(env: Outgoing)
    | Cancelled                 // the connection's shutdown token
    | Spawned                   // an on_running worker

  /** What one attempt to read an envelope gives. */
  datatype ReadFault = Eof | IoFault | BadJson | Silence
  datatype Read = Got(env: Incoming) | Broken(fault: ReadFault)

  /** One connection as its environment decides it: whether the socket opens, what is read from
      it in order (end of file after that), whether the n-th write succeeds, and what the n-th
      call of on_configure answers (None for success, otherwise the error's text). Only Go looks at
      cancel: its context is cancelled by the n-th head of the connection's message loop or, if the
      loop does not get so far, by the end of the sleep that follows the connection. */
  datatype Link = Link(
    opens: bool,
    inbox: seq<Read>,
    writeOk: nat -> bool,
    onConfigure: nat -> Option<string>,
    cancel: Option<nat>)

  // ----- reading payloads -----

  /** The text under a key, or the default when it is absent or not a string. */
  function TextOr(p: Payload, key: string, default: string): string {
    if key in p && p[key].Text? then p[key].text else default
  }

  /** The strings of a list, in order, without its other items. */
  function Strings(items: seq<Json>): seq<string> {
    if items == [] then []
    else (if items[0].Text? then [items[0].text] else []) + Strings(items[1..])
  }

  function Topics(p: Payload): seq<string> {
    if "topics" in p && p["topics"].List? then Strings(p["topics"].items) else []
  }

  predicate Recoverable(p: Payload) {
    "recoverable" in p && p["recoverable"] == Bool(true)
  }

  /** s is the string under a key or, when the key is absent or its value is no string, the default. */
  predicate TextUnder(p: Payload, key: string, default: string, s: string) {
    (key in p && p[key] == Text(s)) || ((key !in p || !p[key].Text?) && s == default)
  }

  lemma TextOrUnder(p: Payload, key: string, default: string, s: string)
    ensures TextUnder(p, key, default, s) <==> s == TextOr(p, key, default)
  {
  }

  /** The texts are the strings of a list: each is at a place of its own, the places are in order,
      and no place with a string is left out. */
  ghost predicate PickedAt(items: seq<Json>, texts: seq<string>, at: seq<nat>) {
    && |at| == |texts|
    && (forall k | 0 <= k < |at| :: at[k] < |items| && items[at[k]] == Text(texts[k]))
    && (forall j, k | 0 <= j < k < |at| :: at[j] < at[k])
    && (forall i | 0 <= i < |items| && items[i].Text? :: i in at)
  }

  /** The topics of a payload: the strings of its list, or none when there is no list. */
  ghost predicate AreTopics(p: Payload, topics: seq<string>) {
    if "topics" in p && p["topics"].List? then exists at :: PickedAt(p["topics"].items, topics, at)
    else topics == []
  }

  lemma {:induction false} StringsSnoc(items: seq<Json>, item: Json)
    ensures Strings(items + [item]) == Strings(items) + (if item.Text? then [item.text] else [])
  {
    var one := if item.Text? then [item.text] else [];
    if items == [] {
      assert [] + [item] == [item] && [item][1..] == [] && one + [] == one && [] + one == one;
    } else {
      var all := items + [item];
      assert all[1..] == items[1..] + [item] && all[0] == items[0];
      StringsSnoc(items[1..], item);
      var head := if items[0].Text? then [items[0].text] else [];
      assert Strings(all) == head + Strings(all[1..]) && Strings(items) == head + Strings(items[1..]);
      hide Strings;
      Assoc(head, Strings(items[1..]), one);
    }
  }

  lemma PickedSnoc(items: seq<Json>, texts: seq<string>, at: seq<nat>, item: Json)
    requires PickedAt(items, texts, at)
    ensures item.Text? ==> PickedAt(items + [item], texts + [item.text], at + [|items|])
    ensures !item.Text? ==> PickedAt(items + [item], texts, at)
  {
    var all := if item.Text? then at + [|items|] else at;
    forall i | 0 <= i < |items + [item]| && (items + [item])[i].Text?
      ensures i in all
    {
      if i < |items| {
        assert items[i].Text?;
      }
    }
  }

  lemma {:induction false} StringsPicked(items: seq<Json>) returns (at: seq<nat>)
    ensures PickedAt(items, Strings(items), at)
  {
    at := [];
    if items != [] {
      var front, last := items[..|items| - 1], items[|items| - 1];
      at := StringsPicked(front);
      assert items == front + [last];
      StringsSnoc(front, last);
      PickedSnoc(front, Strings(front), at, last);
      hide PickedAt, Strings;
      if last.Text? {
        at := at + [|front|];
      } else {
        assert Strings(front) + [] == Strings(front);
      }
    }
  }

  lemma TopicsAre(p: Payload)
    ensures AreTopics(p, Topics(p))
  {
    if "topics" in p && p["topics"].List? {
      var at := StringsPicked(p["topics"].items);
    }
  }

  // ----- kinds of received envelopes -----

  predicate IsPing(e: Incoming) { e.kind == Heartbeat && e.command == Ping }
  predicate IsConfigure(e: Incoming) { e.kind == Config && e.command == Configure }
  predicate IsReborn(e: Incoming) { e.kind == Lifecycle && e.command == Reborn }
  predicate IsShutdown(e: Incoming) { e.kind == Lifecycle && e.command == Command.Shutdown }
  predicate IsFatal(e: Incoming) { e.kind == MessageType.Error && !Recoverable(e.payload) }

  // ----- projections of a trace -----

  lemma Assoc<T>(a: seq<T>, b: seq<T>, c: seq<T>)
    ensures (a + b) + c == a + (b + c)
  {
  }

  lemma ConsTail<T>(x: T, a: seq<T>)
    ensures ([x] + a)[0] == x && ([x] + a)[1..] == a
  {
  }

  /** The envelopes written, in order. */
  function Wire(acts: seq<Act>): seq<Outgoing> {
    if acts == [] then []
    else (if acts[0].Wrote? then [acts[0].env] else []) + Wire(acts[1..])
  }

  lemma {:induction false} WireConcat(a: seq<Act>, b: seq<Act>)
    ensures Wire(a + b) == Wire(a) + Wire(b)
  {
    if a == [] {
      assert a + b == b;
    } else {
      assert (a + b)[1..] == a[1..] + b && (a + b)[0] == a[0];
      WireConcat(a[1..], b);
      Assoc(if a[0].Wrote? then [a[0].env] else [], Wire(a[1..]), Wire(b));
    }
  }

  /** How many workers were spawned. */
  function Spawns(acts: seq<Act>): nat {
    if acts == [] then 0 else (if acts[0] == Spawned then 1 else 0) + Spawns(acts[1..])
  }

  lemma {:induction false} SpawnsConcat(a: seq<Act>, b: seq<Act>)
    ensures Spawns(a + b) == Spawns(a) + Spawns(b)
  {
    if a == [] {
      assert a + b == b;
    } else {
      assert (a + b)[1..] == a[1..] + b && (a + b)[0] == a[0];
      SpawnsConcat(a[1..], b);
    }
  }

  lemma {:induction false} NoSpawns(acts: seq<Act>)
    requires Spawned !in acts
    ensures Spawns(acts) == 0
  {
    if acts != [] {
      NoSpawns(acts[1..]);
    }
  }

  /** How often an envelope was written. */
  function Times(w: seq<Outgoing>, e: Outgoing): nat {
    if w == [] then 0 else (if w[0] == e then 1 else 0) + Times(w[1..], e)
  }

  lemma {:induction false} TimesConcat(a: seq<Outgoing>, b: seq<Outgoing>, e: Outgoing)
    ensures Times(a + b, e) == Times(a, e) + Times(b, e)
  {
    if a == [] {
      assert a + b == b;
    } else {
      assert (a + b)[1..] == a[1..] + b && (a + b)[0] == a[0];
      TimesConcat(a[1..], b, e);
    }
  }

  /** The state the daemon was last told, if any. */
  function LastReported(w: seq<Outgoing>): Option<ComponentState> {
    if w == [] then None
    else
      var e := w[|w| - 1];
      if e.command == StateUpdate && e.body.Reports? then Some(e.body.state)
      else LastReported(w[..|w| - 1])
  }
}
