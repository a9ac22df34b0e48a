/** The Rust data stream: one line reader for the handshake's answer and for every frame. */
module DataStream {
  import opened Protocol
  import opened Framing

  datatype Response = Response(status: string, message: Option<string>, topics: Option<seq<string>>)
  datatype Message = Message(topic: string, data: Json)

  /** Whether a line is UTF-8, and JSON decoding of the two kinds of lines; None is a decoding
      error. */
  datatype Codec = Codec(
    utf8: Bytes -> bool, response: Bytes -> Option<Response>, frame: Bytes -> Option<Message>)

  datatype StreamError =
    | Unconnected | Io | Timeout | Disconnected | BadResponse | Rejected(why: string) | BadFrame

  datatype Opened = Connected(stream: DataStream) | Refused(error: StreamError)

  datatype Item = Item(message: Message) | Failed(error: StreamError)

  function Interruption(cause: Cause): StreamError {
    match cause case Silence => Timeout case IoError => Io
  }

  /** Why connect fails, if it does: the socket, the handshake's write, or what the line reader then
      gives. An end of file is an empty line. */
  function Refusal(codec: Codec, opens: bool, sent: bool, l: Line): Option<StreamError> {
    if !opens then Some(Unconnected)
    else if !sent then Some(Io)
    else match l
      case Stopped(cause) => Some(Interruption(cause))
      case Line(text) => if codec.utf8(text) then Judge(codec, text) else Some(Io)
      case Closed => Judge(codec, [])
  }

  function Judge(codec: Codec, text: Bytes): Option<StreamError> {
    match codec.response(text)
    case None => Some(BadResponse)
    case Some(r) => if r.status == "ok" then None else Some(Rejected(Reason(r)))
  }

  function Reason(r: Response): string { match r.message case Some(m) => m case None => "no message" }

  /** The topics of an accepted answer. */
  function Granted(codec: Codec, l: Line): seq<string> {
    var resp := codec.response(if l.Line? then l.text else []);
    if resp.Some? && resp.value.topics.Some? then resp.value.topics.value else []
  }

  /** What a result of the line reader means to next. */
  function Deliver(codec: Codec, l: Line): Item {
    match l
    case Stopped(cause) => Failed(Interruption(cause))
    case Closed => Failed(Disconnected)
    case Line(text) =>
      if !codec.utf8(text) then Failed(Io)
      else match codec.frame(text) case Some(m) => Item(m) case None => Failed(BadFrame)
  }

  /** What next gives, case by case: a message is a line that is UTF-8 and decodes; each other result
      has an error of its own, but that text which is not UTF-8 fails like a read. */
  lemma DeliverTells(codec: Codec, l: Line, m: Message)
    ensures var item := Deliver(codec, l);
      && (item == Item(m) <==> l.Line? && codec.utf8(l.text) && codec.frame(l.text) == Some(m))
      && (item == Failed(BadFrame) <==> l.Line? && codec.utf8(l.text) && codec.frame(l.text) == None)
      && (item == Failed(Io) <==> l == Stopped(IoError) || (l.Line? && !codec.utf8(l.text)))
      && (item == Failed(Timeout) <==> l == Stopped(Cause.Silence))
      && (item == Failed(Disconnected) <==> l == Closed)
  {
    assert l.Stopped? ==> l.cause == Cause.Silence || l.cause == IoError;
  }

  /** An answer was read: a line that is UTF-8, or nothing at all. */
  predicate Heard(codec: Codec, l: Line, text: Bytes) {
    (l == Line(text) && codec.utf8(text)) || (l == Closed && text == [])
  }

  /** When connect succeeds and when it fails with which error, case by case. */
  lemma RefusalTells(codec: Codec, opens: bool, sent: bool, l: Line, text: Bytes)
    requires text == if l.Line? then l.text else []
    ensures var e, heard := Refusal(codec, opens, sent, l), opens && sent && Heard(codec, l, text);
      var answer := codec.response(text);
      && (e == Some(Unconnected) <==> !opens)
      && (e == Some(Io) <==>
            opens && (!sent || l == Stopped(IoError) || (l.Line? && !codec.utf8(l.text))))
      && (e == Some(Timeout) <==> opens && sent && l == Stopped(Cause.Silence))
      && (e == Some(BadResponse) <==> heard && answer == None)
      && (e == None <==> heard && answer.Some? && answer.value.status == "ok")
      && (heard && answer.Some? && answer.value.status != "ok" ==>
            e == Some(Rejected(if answer.value.message.Some? then answer.value.message.value else "no message")))
  {
    assert l.Stopped? ==> l.cause == Cause.Silence || l.cause == IoError;
  }

  /** The topics that an accepted answer grants. */
  lemma GrantedTells(codec: Codec, l: Line, text: Bytes, r: Response)
    requires Heard(codec, l, text) && codec.response(text) == Some(r)
    ensures r.topics.Some? ==> Granted(codec, l) == r.topics.value
    ensures r.topics == None ==> Granted(codec, l) == []
  {
  }

  class DataStream {
    const codec: Codec
    const reader: LineReader
    var topics: seq<string>

    constructor (codec: Codec, reader: LineReader, topics: seq<string>)
      ensures this.codec == codec && this.reader == reader && this.topics == topics
    {
      this.codec, this.reader, this.topics := codec, reader, topics;
    }

    /** Connects, sends the handshake and reads its answer. The stream keeps the reader, and whatever
        it holds. */
    static method Connect(codec: Codec, opens: bool, sent: bool, reader: LineReader)
      returns (r: Opened, ghost answer: Line)
      modifies reader
      ensures !opens || !sent ==> reader.Ahead() == old(reader.Ahead())
      ensures opens && sent && answer != Closed ==>
        Results(old(reader.Ahead()), []) == [answer] + Results(reader.Ahead(), [])
      ensures opens && sent && answer == Closed ==> Results(old(reader.Ahead()), []) == []
      ensures match r
        case Refused(e) => Refusal(codec, opens, sent, answer) == Some(e)
        case Connected(s) =>
          && Refusal(codec, opens, sent, answer) == None && fresh(s) && s.reader == reader && s.codec == codec
          && s.topics == Granted(codec, answer)
    {
      answer := Closed;
      if !opens {
        return Refused(Unconnected), answer;
      }
      if !sent {
        return Refused(Io), answer;
      }
      var l := reader.ReadLine();
      answer := l;
      if l.Stopped? {
        return Refused(Interruption(l.cause)), answer;
      }
      if l.Line? && !codec.utf8(l.text) {
        return Refused(Io), answer;
      }
      var decoded := codec.response(if l.Line? then l.text else []);
      if decoded.None? {
        return Refused(BadResponse), answer;
      }
      var resp := decoded.value;
      if resp.status != "ok" {
        return Refused(Rejected(Reason(resp))), answer;
      }
      var s := new DataStream(codec, reader, match resp.topics case Some(t) => t case None => []);
      return Connected(s), answer;
    }

    /** The next frame, from the next line of the same reader. */
    method Next() returns (item: Item, ghost l: Line)
      modifies reader
      ensures item == Deliver(codec, l)
      ensures l != Closed ==> Results(old(reader.Ahead()), []) == [l] + Results(reader.Ahead(), [])
      ensures l == Closed ==> Results(old(reader.Ahead()), []) == [] && reader.Ahead() == []
    {
      var r := reader.ReadLine();
      l := r;
      match r {
        case Stopped(cause) =>
          item := Failed(Interruption(cause));
        case Closed =>
          item := Failed(Disconnected);
        case Line(text) =>
          if !codec.utf8(text) {
            return Failed(Io), r;
          }
          var m := codec.frame(text);
          item := if m.Some? then Item(m.value) else Failed(BadFrame);
      }
    }
  }

  lemma {:induction false} LinesCons(t: Bytes, ts: seq<Bytes>)
    ensures Lines([t] + ts) == [Line(Frame(t))] + Lines(ts)
    decreases |ts|
  {
    if ts == [] {
      assert [t] + [] == [t] && [t][..0] == [];
      assert [] + [Line(Frame(t))] == [Line(Frame(t))] + Lines([]);
    } else {
      var front := ts[..|ts| - 1];
      assert ([t] + ts)[..|ts|] == [t] + front;
      LinesCons(t, front);
      Assoc([Line(Frame(t))], Lines(front), [Line(Frame(ts[|ts| - 1]))]);
    }
  }

  /** However the answer and the frames arrive, with no timeout the reader of a data stream gives
      the answer and then exactly the frames. */
  lemma StreamIsWhole(answer: Bytes, frames: seq<Bytes>, arrivals: seq<Arrival>)
    requires Plain(answer) && forall f <- frames :: Plain(f)
    requires Flat(arrivals) == Ins(Frames([answer] + frames))
    ensures Results(Flat(arrivals), []) == [Line(Frame(answer))] + Lines(frames)
  {
    var all := [answer] + frames;
    assert forall t <- all :: t == answer || t in frames;
    ReadFrames(all, []);
    LinesCons(answer, frames);
    assert Ins(Frames(all)) + [] == Ins(Frames(all)) && Lines(all) + [] == Lines(all);
  }
}
