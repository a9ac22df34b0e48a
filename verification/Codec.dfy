/** The hand-written envelope codecs: the lenient one of C++ and the strict one of OCaml. */
module Codec {
  import opened Protocol

  /** Both codecs predate REBORN. */
  type KnownCommand = c: Command | c != Reborn witness Ack

  datatype Envelope = Envelope(
    protocolVersion: string, messageId: string, correlationId: Option<string>, timestamp: string,
    source: string, target: string, kind: MessageType, command: KnownCommand, payload: Json)

  // ----- names -----

  function KindName(t: MessageType): string {
    match t
    case Control => "CONTROL"
    case Lifecycle => "LIFECYCLE"
    case Config => "CONFIG"
    case Error => "ERROR"
    case Heartbeat => "HEARTBEAT"
    case Data => "DATA"
  }

  function KindOf(s: string): Option<MessageType> {
    if s == "CONTROL" then Some(Control)
    else if s == "LIFECYCLE" then Some(Lifecycle)
    else if s == "CONFIG" then Some(Config)
    else if s == "ERROR" then Some(MessageType.Error)
    else if s == "HEARTBEAT" then Some(Heartbeat)
    else if s == "DATA" then Some(Data)
    else None
  }

  function CommandName(c: KnownCommand): string {
    match c
    case Register => "REGISTER"
    case Registered => "REGISTERED"
    case StateUpdate => "STATE_UPDATE"
    case Shutdown => "SHUTDOWN"
    case Ack => "ACK"
    case Nack => "NACK"
    case Configure => "CONFIGURE"
    case Configured => "CONFIGURED"
    case Ping => "PING"
    case Pong => "PONG"
    case RuntimeError => "RUNTIME_ERROR"
    case RegistrationFailed => "REGISTRATION_FAILED"
  }

  function CommandOf(s: string): Option<KnownCommand> {
    if s == "REGISTER" then Some(Command.Register)
    else if s == "REGISTERED" then Some(Command.Registered)
    else if s == "STATE_UPDATE" then Some(StateUpdate)
    else if s == "SHUTDOWN" then Some(Command.Shutdown)
    else if s == "ACK" then Some(Ack)
    else if s == "NACK" then Some(Nack)
    else if s == "CONFIGURE" then Some(Configure)
    else if s == "CONFIGURED" then Some(Command.Configured)
    else if s == "PING" then Some(Ping)
    else if s == "PONG" then Some(Pong)
    else if s == "RUNTIME_ERROR" then Some(RuntimeError)
    else if s == "REGISTRATION_FAILED" then Some(RegistrationFailed)
    else None
  }

  function StateName(s: ComponentState): string {
    match s
    case Init => "INIT"
    case Registered => "REGISTERED"
    case Initializing => "INITIALIZING"
    case Ready => "READY"
    case Configured => "CONFIGURED"
    case Running => "RUNNING"
    case Waiting => "WAITING"
    case Error => "ERROR"
    case Finished => "FINISHED"
    case Shutdown => "SHUTDOWN"
  }

  function StateOf(s: string): Option<ComponentState> {
    if s == "INIT" then Some(Init)
    else if s == "REGISTERED" then Some(ComponentState.Registered)
    else if s == "INITIALIZING" then Some(Initializing)
    else if s == "READY" then Some(Ready)
    else if s == "CONFIGURED" then Some(ComponentState.Configured)
    else if s == "RUNNING" then Some(Running)
    else if s == "WAITING" then Some(Waiting)
    else if s == "ERROR" then Some(ComponentState.Error)
    else if s == "FINISHED" then Some(Finished)
    else if s == "SHUTDOWN" then Some(ComponentState.Shutdown)
    else None
  }

  /** Each name stands for one value, and no other text stands for any. */
  lemma KindNames(t: MessageType, s: string)
    ensures KindOf(s) == Some(t) <==> s == KindName(t)
  {
  }

  lemma CommandNames(c: KnownCommand, s: string)
    ensures CommandOf(s) == Some(c) <==> s == CommandName(c)
  {
  }

  lemma StateNames(t: ComponentState, s: string)
    ensures StateOf(s) == Some(t) <==> s == StateName(t)
  {
  }

  /** The names on the wire. */
  lemma WireKinds()
    ensures KindName(Control) == "CONTROL"
    ensures KindName(Lifecycle) == "LIFECYCLE"
    ensures KindName(Config) == "CONFIG"
    ensures KindName(MessageType.Error) == "ERROR"
    ensures KindName(Heartbeat) == "HEARTBEAT"
    ensures KindName(Data) == "DATA"
  {
  }

  lemma WireCommands()
    ensures CommandName(Command.Register) == "REGISTER"
    ensures CommandName(Command.Registered) == "REGISTERED"
    ensures CommandName(StateUpdate) == "STATE_UPDATE"
    ensures CommandName(Command.Shutdown) == "SHUTDOWN"
    ensures CommandName(Ack) == "ACK"
    ensures CommandName(Nack) == "NACK"
    ensures CommandName(Configure) == "CONFIGURE"
    ensures CommandName(Command.Configured) == "CONFIGURED"
    ensures CommandName(Ping) == "PING"
    ensures CommandName(Pong) == "PONG"
    ensures CommandName(RuntimeError) == "RUNTIME_ERROR"
    ensures CommandName(RegistrationFailed) == "REGISTRATION_FAILED"
  {
  }

  lemma WireStates()
    ensures StateName(Init) == "INIT"
    ensures StateName(ComponentState.Registered) == "REGISTERED"
    ensures StateName(Initializing) == "INITIALIZING"
    ensures StateName(Ready) == "READY"
    ensures StateName(ComponentState.Configured) == "CONFIGURED"
    ensures StateName(Running) == "RUNNING"
    ensures StateName(Waiting) == "WAITING"
    ensures StateName(ComponentState.Error) == "ERROR"
    ensures StateName(Finished) == "FINISHED"
    ensures StateName(ComponentState.Shutdown) == "SHUTDOWN"
  {
  }

  // ----- objects -----

  type Fields = seq<(string, Json)>

  /** The first member of a name: List.assoc. */
  function First(fields: Fields, key: string): Option<Json> {
    if fields == [] then None else if fields[0].0 == key then Some(fields[0].1) else First(fields[1..], key)
  }

  /** The last member of a name: what a map keeps of the members it was built from. */
  function Last(fields: Fields, key: string): Option<Json> {
    if fields == [] then None
    else
      var later := Last(fields[1..], key);
      if later.Some? then later else if fields[0].0 == key then Some(fields[0].1) else None
  }

  predicate Distinct(fields: Fields) {
    forall i, j | 0 <= i < j < |fields| :: fields[i].0 != fields[j].0
  }

  lemma {:induction false} Absent(fields: Fields, key: string)
    requires forall i | 0 <= i < |fields| :: fields[i].0 != key
    ensures First(fields, key) == None && Last(fields, key) == None
  {
    if fields != [] {
      Absent(fields[1..], key);
    }
  }

  lemma {:induction false} LastIsFirst(fields: Fields, key: string)
    requires Distinct(fields)
    ensures Last(fields, key) == First(fields, key)
  {
    if fields != [] {
      LastIsFirst(fields[1..], key);
      if fields[0].0 == key {
        Absent(fields[1..], key);
      }
    }
  }

  /** The member at a place of an object without repeated names. */
  lemma {:induction false} FieldAt(fields: Fields, i: nat)
    requires Distinct(fields) && i < |fields|
    ensures First(fields, fields[i].0) == Some(fields[i].1) && Last(fields, fields[i].0) == Some(fields[i].1)
  {
    LastIsFirst(fields, fields[i].0);
    if i > 0 {
      FieldAt(fields[1..], i - 1);
    }
  }

  // ----- C++ -----

  function Correlation(e: Envelope): Json {
    match e.correlationId case Some(id) => Text(id) case None => Null
  }

  /** Members in the order of their names, as the C++ library keeps them. */
  function CppPrint(e: Envelope): Json {
    Object([
      ("command", Text(CommandName(e.command))),
      ("correlation_id", Correlation(e)),
      ("message_id", Text(e.messageId)),
      ("payload", e.payload),
      ("protocol_version", Text(e.protocolVersion)),
      ("source", Text(e.source)),
      ("target", Text(e.target)),
      ("timestamp", Text(e.timestamp)),
      ("type", Text(KindName(e.kind)))])
  }

  /** A text member, or the empty text if it is absent; None is a type error. */
  function CppText(fields: Fields, key: string): Option<string> {
    match Last(fields, key)
    case None => Some("")
    case Some(Text(s)) => Some(s)
    case Some(_) => None
  }

  /** An optional text member, absent or null or a text; the outer None is a type error. */
  function OptionalText(v: Option<Json>): Option<Option<string>> {
    match v
    case None => Some(None)
    case Some(Null) => Some(None)
    case Some(Text(s)) => Some(Some(s))
    case Some(_) => None
  }

  function CppParse(j: Json): Option<Envelope> {
    if !j.Object? then None
    else
      var f := j.fields;
      var version, id := CppText(f, "protocol_version"), CppText(f, "message_id");
      var corr := OptionalText(Last(f, "correlation_id"));
      var time, source, target := CppText(f, "timestamp"), CppText(f, "source"), CppText(f, "target");
      var kind, command := CppText(f, "type"), CppText(f, "command");
      var payload := match Last(f, "payload") case Some(p) => p case None => Object([]);
      if version == None || id == None || corr == None || time == None || source == None || target == None
         || kind == None || command == None then None
      else if KindOf(kind.value) == None || CommandOf(command.value) == None then None
      else Some(Envelope(version.value, id.value, corr.value, time.value, source.value, target.value,
                         KindOf(kind.value).value, CommandOf(command.value).value, payload))
  }

  // ----- OCaml -----

  function OcamlPrint(e: Envelope): Json {
    Object([
      ("protocol_version", Text(e.protocolVersion)),
      ("message_id", Text(e.messageId)),
      ("correlation_id", Correlation(e)),
      ("timestamp", Text(e.timestamp)),
      ("source", Text(e.source)),
      ("target", Text(e.target)),
      ("type", Text(KindName(e.kind))),
      ("command", Text(CommandName(e.command))),
      ("payload", e.payload)])
  }

  /** A member, or null if it is absent. */
  function Member(fields: Fields, key: string): Json {
    match First(fields, key) case Some(v) => v case None => Null
  }

  function OcamlText(fields: Fields, key: string): Option<string> {
    match Member(fields, key) case Text(s) => Some(s) case _ => None
  }

  function OcamlParse(j: Json): Option<Envelope> {
    if !j.Object? then None
    else
      var f := j.fields;
      var version, id := OcamlText(f, "protocol_version"), OcamlText(f, "message_id");
      var corr := OptionalText(Some(Member(f, "correlation_id")));
      var time, source, target := OcamlText(f, "timestamp"), OcamlText(f, "source"), OcamlText(f, "target");
      var kind, command := OcamlText(f, "type"), OcamlText(f, "command");
      if version == None || id == None || corr == None || time == None || source == None || target == None
         || kind == None || command == None then None
      else if KindOf(kind.value) == None || CommandOf(command.value) == None then None
      else Some(Envelope(version.value, id.value, corr.value, time.value, source.value, target.value,
                         KindOf(kind.value).value, CommandOf(command.value).value, Member(f, "payload")))
  }

  // ----- round trips -----

  /** An object in which every member of an envelope is found as it was printed. */
  predicate Carries(fields: Fields, e: Envelope) {
    && Distinct(fields)
    && First(fields, "protocol_version") == Some(Text(e.protocolVersion))
    && First(fields, "message_id") == Some(Text(e.messageId))
    && First(fields, "correlation_id") == Some(Correlation(e))
    && First(fields, "timestamp") == Some(Text(e.timestamp))
    && First(fields, "source") == Some(Text(e.source))
    && First(fields, "target") == Some(Text(e.target))
    && First(fields, "type") == Some(Text(KindName(e.kind)))
    && First(fields, "command") == Some(Text(CommandName(e.command)))
    && First(fields, "payload") == Some(e.payload)
  }

  lemma CppCarries(e: Envelope)
    ensures Carries(CppPrint(e).fields, e)
  {
    var f := CppPrint(e).fields;
    assert Distinct(f);
    FieldAt(f, 0);
    FieldAt(f, 1);
    FieldAt(f, 2);
    FieldAt(f, 3);
    FieldAt(f, 4);
    FieldAt(f, 5);
    FieldAt(f, 6);
    FieldAt(f, 7);
    FieldAt(f, 8);
  }

  lemma OcamlCarries(e: Envelope)
    ensures Carries(OcamlPrint(e).fields, e)
  {
    var f := OcamlPrint(e).fields;
    assert Distinct(f);
    FieldAt(f, 0);
    FieldAt(f, 1);
    FieldAt(f, 2);
    FieldAt(f, 3);
    FieldAt(f, 4);
    FieldAt(f, 5);
    FieldAt(f, 6);
    FieldAt(f, 7);
    FieldAt(f, 8);
  }

  /** Both parsers recover the envelope from any object that carries it. */
  lemma CarriedIsParsed(fields: Fields, e: Envelope)
    requires Carries(fields, e)
    ensures CppParse(Object(fields)) == Some(e) && OcamlParse(Object(fields)) == Some(e)
  {
    LastIsFirst(fields, "protocol_version");
    LastIsFirst(fields, "message_id");
    LastIsFirst(fields, "correlation_id");
    LastIsFirst(fields, "timestamp");
    LastIsFirst(fields, "source");
    LastIsFirst(fields, "target");
    LastIsFirst(fields, "type");
    LastIsFirst(fields, "command");
    LastIsFirst(fields, "payload");
    KindNames(e.kind, KindName(e.kind));
    CommandNames(e.command, CommandName(e.command));
    hide First, Last, KindOf, KindName, CommandOf, CommandName, Distinct;
  }

  /** What either codec prints, either codec parses back to the same envelope. */
  lemma RoundTrips(e: Envelope)
    ensures CppParse(CppPrint(e)) == Some(e) && OcamlParse(OcamlPrint(e)) == Some(e)
    ensures OcamlParse(CppPrint(e)) == Some(e) && CppParse(OcamlPrint(e)) == Some(e)
  {
    CppCarries(e);
    OcamlCarries(e);
    CarriedIsParsed(CppPrint(e).fields, e);
    CarriedIsParsed(OcamlPrint(e).fields, e);
    hide CppParse, OcamlParse, Carries;
  }

  /** Printing what was parsed and parsing it again changes nothing. */
  lemma Reparse(j: Json)
    ensures CppParse(j).Some? ==> CppParse(CppPrint(CppParse(j).value)) == CppParse(j)
    ensures OcamlParse(j).Some? ==> OcamlParse(OcamlPrint(OcamlParse(j).value)) == OcamlParse(j)
  {
    if CppParse(j).Some? {
      RoundTrips(CppParse(j).value);
    }
    if OcamlParse(j).Some? {
      RoundTrips(OcamlParse(j).value);
    }
    hide CppParse, OcamlParse, CppPrint, OcamlPrint;
  }

  // ----- what the parsers read -----

  /** A member that is a text or, in C++ alone, is absent and then empty. */
  predicate ReadsText(v: Option<Json>, lenient: bool, s: string) {
    v == Some(Text(s)) || (lenient && v == None && s == "")
  }

  /** An optional text: absent and null are none. */
  predicate ReadsOption(v: Option<Json>, o: Option<string>) {
    match o case Some(s) => v == Some(Text(s)) case None => v == None || v == Some(Null)
  }

  lemma CppTextReads(fields: Fields, key: string, s: string)
    ensures CppText(fields, key) == Some(s) <==> ReadsText(Last(fields, key), true, s)
  {
  }

  lemma OcamlTextReads(fields: Fields, key: string, s: string)
    ensures OcamlText(fields, key) == Some(s) <==> ReadsText(First(fields, key), false, s)
  {
  }

  lemma OptionReads(v: Option<Json>, o: Option<string>)
    ensures OptionalText(v) == Some(o) <==> ReadsOption(v, o)
  {
  }

  /** A text member that names a kind or a command, and so is not the empty text of an absent one. */
  lemma NameReads(v: Option<Json>, lenient: bool, s: string, kind: MessageType, command: KnownCommand)
    requires ReadsText(v, lenient, s)
    ensures KindOf(s) == Some(kind) <==> v == Some(Text(KindName(kind)))
    ensures CommandOf(s) == Some(command) <==> v == Some(Text(CommandName(command)))
  {
    KindNames(kind, s);
    CommandNames(command, s);
    assert KindName(kind) != "" && CommandName(command) != "";
    hide KindOf, KindName, CommandOf, CommandName;
  }

  /** The C++ parser gives an envelope just when each of its fields is what the object's member of that
      name says: a text, or empty when the member is absent; a known kind and command; and any
      payload, or an empty object. */
  lemma CppReads(f: Fields, e: Envelope)
    ensures CppParse(Object(f)) == Some(e) <==>
      && ReadsText(Last(f, "protocol_version"), true, e.protocolVersion)
      && ReadsText(Last(f, "message_id"), true, e.messageId)
      && ReadsOption(Last(f, "correlation_id"), e.correlationId)
      && ReadsText(Last(f, "timestamp"), true, e.timestamp)
      && ReadsText(Last(f, "source"), true, e.source)
      && ReadsText(Last(f, "target"), true, e.target)
      && Last(f, "type") == Some(Text(KindName(e.kind)))
      && Last(f, "command") == Some(Text(CommandName(e.command)))
      && (Last(f, "payload") == Some(e.payload) || (Last(f, "payload") == None && e.payload == Object([])))
  {
    CppTextReads(f, "protocol_version", e.protocolVersion);
    CppTextReads(f, "message_id", e.messageId);
    OptionReads(Last(f, "correlation_id"), e.correlationId);
    CppTextReads(f, "timestamp", e.timestamp);
    CppTextReads(f, "source", e.source);
    CppTextReads(f, "target", e.target);
    CppNameReads(f, e.kind, e.command);
    hide CppText, OptionalText, ReadsText, ReadsOption, First, Last, KindOf, KindName, CommandOf, CommandName;
  }

  lemma CppNameReads(f: Fields, kind: MessageType, command: KnownCommand)
    ensures (CppText(f, "type").Some? && KindOf(CppText(f, "type").value) == Some(kind)) <==>
      Last(f, "type") == Some(Text(KindName(kind)))
    ensures (CppText(f, "command").Some? && CommandOf(CppText(f, "command").value) == Some(command)) <==>
      Last(f, "command") == Some(Text(CommandName(command)))
  {
    var t, c := CppText(f, "type"), CppText(f, "command");
    CppTextReads(f, "type", if t.Some? then t.value else "");
    CppTextReads(f, "command", if c.Some? then c.value else "");
    CppTextReads(f, "type", KindName(kind));
    CppTextReads(f, "command", CommandName(command));
    hide CppText, Last, KindOf, KindName, CommandOf, CommandName;
    if t.Some? {
      NameReads(Last(f, "type"), true, t.value, kind, command);
    }
    if c.Some? {
      NameReads(Last(f, "command"), true, c.value, kind, command);
    }
  }

  /** The OCaml parser does just when each member is there, save for the correlation and the payload,
      which is null when it is not. */
  lemma OcamlReads(f: Fields, e: Envelope)
    ensures OcamlParse(Object(f)) == Some(e) <==>
      && ReadsText(First(f, "protocol_version"), false, e.protocolVersion)
      && ReadsText(First(f, "message_id"), false, e.messageId)
      && ReadsOption(First(f, "correlation_id"), e.correlationId)
      && ReadsText(First(f, "timestamp"), false, e.timestamp)
      && ReadsText(First(f, "source"), false, e.source)
      && ReadsText(First(f, "target"), false, e.target)
      && First(f, "type") == Some(Text(KindName(e.kind)))
      && First(f, "command") == Some(Text(CommandName(e.command)))
      && (First(f, "payload") == Some(e.payload) || (First(f, "payload") == None && e.payload == Null))
  {
    OcamlTextReads(f, "protocol_version", e.protocolVersion);
    OcamlTextReads(f, "message_id", e.messageId);
    OptionReads(Some(Member(f, "correlation_id")), e.correlationId);
    assert ReadsOption(Some(Member(f, "correlation_id")), e.correlationId) <==>
      ReadsOption(First(f, "correlation_id"), e.correlationId);
    OcamlTextReads(f, "timestamp", e.timestamp);
    OcamlTextReads(f, "source", e.source);
    OcamlTextReads(f, "target", e.target);
    OcamlNameReads(f, e.kind, e.command);
    hide OcamlText, OptionalText, ReadsText, ReadsOption, First, Last, KindOf, KindName, CommandOf, CommandName;
  }

  lemma OcamlNameReads(f: Fields, kind: MessageType, command: KnownCommand)
    ensures (OcamlText(f, "type").Some? && KindOf(OcamlText(f, "type").value) == Some(kind)) <==>
      First(f, "type") == Some(Text(KindName(kind)))
    ensures (OcamlText(f, "command").Some? && CommandOf(OcamlText(f, "command").value) == Some(command)) <==>
      First(f, "command") == Some(Text(CommandName(command)))
  {
    var t, c := OcamlText(f, "type"), OcamlText(f, "command");
    OcamlTextReads(f, "type", if t.Some? then t.value else "");
    OcamlTextReads(f, "command", if c.Some? then c.value else "");
    OcamlTextReads(f, "type", KindName(kind));
    OcamlTextReads(f, "command", CommandName(command));
    hide OcamlText, First, KindOf, KindName, CommandOf, CommandName;
    if t.Some? {
      NameReads(First(f, "type"), false, t.value, kind, command);
    }
    if c.Some? {
      NameReads(First(f, "command"), false, c.value, kind, command);
    }
  }

  // ----- strict against lenient -----

  /** The members that C++ lets be absent and OCaml does not. */
  predicate Complete(fields: Fields) {
    && First(fields, "protocol_version").Some? && First(fields, "message_id").Some?
    && First(fields, "timestamp").Some? && First(fields, "source").Some? && First(fields, "target").Some?
  }

  lemma SameText(fields: Fields, key: string)
    requires Distinct(fields)
    ensures First(fields, key).Some? ==> OcamlText(fields, key) == CppText(fields, key)
    ensures First(fields, key) == None ==> OcamlText(fields, key) == None && CppText(fields, key) == Some("")
  {
    LastIsFirst(fields, key);
  }

  lemma NoEmptyNames()
    ensures KindOf("") == None && CommandOf("") == None
  {
  }

  /** On objects without repeated names, OCaml accepts exactly what C++ accepts and is complete, and
      both read the same envelope, but for the payload when there is none. */
  lemma StrictAgainstLenient(fields: Fields)
    requires Distinct(fields)
    ensures var strict, lenient := OcamlParse(Object(fields)), CppParse(Object(fields));
      && (strict.Some? <==> lenient.Some? && Complete(fields))
      && (strict.Some? ==>
            var payload := if First(fields, "payload").Some? then lenient.value.payload else Null;
            strict.value == lenient.value.(payload := payload))
  {
    SameText(fields, "protocol_version");
    SameText(fields, "message_id");
    SameText(fields, "timestamp");
    SameText(fields, "source");
    SameText(fields, "target");
    SameText(fields, "type");
    SameText(fields, "command");
    NoEmptyNames();
    LastIsFirst(fields, "correlation_id");
    LastIsFirst(fields, "payload");
    hide First, Last, KindOf, CommandOf, OcamlText, CppText, Distinct;
  }
}
