/** Newline-terminated envelopes: written under a lock by any number of senders, and read back by
    one buffered line reader however the bytes are cut into chunks. */
module Framing {
  import opened Protocol

  /** Bytes on a socket. End marks the byte that completes a JSON value, which a decoder sees. */
  datatype Byte = Newline | Mid(c: char) | End(c: char)

  type Bytes = seq<Byte>

  predicate Plain(t: Bytes) { Newline !in t }

  function Frame(t: Bytes): Bytes { t + [Newline] }

  function Frames(ts: seq<Bytes>): Bytes {
    if ts == [] then [] else Frames(ts[..|ts| - 1]) + Frame(ts[|ts| - 1])
  }

  lemma FramesSnoc(ts: seq<Bytes>, t: Bytes)
    ensures Frames(ts + [t]) == Frames(ts) + Frame(t)
  {
    assert (ts + [t])[..|ts|] == ts;
  }

  // ----- writers -----

  /** The sender that holds the lock, what it is sending, and how much of the frame is out. */
  datatype Holder = Holder(sender: nat, text: Bytes, sent: nat)

  /** A socket with its lock; done are the texts sent completely, in the order of the lock. */
  datatype Socket = Socket(stream: Bytes, holder: Option<Holder>, done: seq<Bytes>, broken: bool)

  datatype Action =
    | Acquire(sender: nat, text: Bytes)
    | Push(n: nat)             // part of the frame that the socket accepts
    | Release
    | Break                    // a write error

  function Fresh(): Socket { Socket([], None, [], false) }

  function Next(s: Socket, a: Action): Option<Socket> {
    if s.broken then None
    else match a
      case Acquire(sender, text) =>
        if s.holder == None then Some(s.(holder := Some(Holder(sender, text, 0)))) else None
      case Push(n) =>
        if s.holder.Some? && s.holder.value.sent + n <= |Frame(s.holder.value.text)| then
          var h := s.holder.value;
          Some(s.(stream := s.stream + Frame(h.text)[h.sent..h.sent + n], holder := Some(h.(sent := h.sent + n))))
        else None
      case Release =>
        if s.holder.Some? && s.holder.value.sent == |Frame(s.holder.value.text)|
        then Some(s.(holder := None, done := s.done + [s.holder.value.text])) else None
      case Break =>
        if s.holder.Some? then Some(s.(broken := true)) else None
  }

  function Exec(s: Socket, actions: seq<Action>): Option<Socket>
    decreases |actions|
  {
    if actions == [] then Some(s)
    else match Next(s, actions[0])
      case None => None
      case Some(s') => Exec(s', actions[1..])
  }

  /** What is out of the frame that the lock holder is sending. */
  function Partial(s: Socket): Bytes {
    match s.holder
    case Some(h) => if h.sent <= |Frame(h.text)| then Frame(h.text)[..h.sent] else []
    case None => []
  }

  predicate Whole(s: Socket) {
    && s.stream == Frames(s.done) + Partial(s)
    && (s.holder.Some? ==> s.holder.value.sent <= |Frame(s.holder.value.text)| && Plain(s.holder.value.text))
    && (forall t <- s.done :: Plain(t))
  }

  /** Serialised text has no raw newline (section 7 of RFC 8259 has control characters escaped). */
  predicate Serialised(actions: seq<Action>) {
    forall a <- actions :: a.Acquire? ==> Plain(a.text)
  }

  lemma StepWhole(s: Socket, a: Action)
    requires Whole(s) && Next(s, a).Some? && (a.Acquire? ==> Plain(a.text))
    ensures Whole(Next(s, a).value)
  {
    match a
    case Push(n) =>
      var h := s.holder.value;
      PushMore(Frames(s.done), Frame(h.text), h.sent, n);
      hide Frames, Frame;
    case Release =>
      ReleaseWhole(s);
      hide Whole;
    case _ =>
  }

  lemma PushMore(out: Bytes, frame: Bytes, sent: nat, n: nat)
    requires sent + n <= |frame|
    ensures out + frame[..sent] + frame[sent..sent + n] == out + frame[..sent + n]
  {
    Assoc(out, frame[..sent], frame[sent..sent + n]);
    assert frame[..sent] + frame[sent..sent + n] == frame[..sent + n];
  }

  lemma ReleaseWhole(s: Socket)
    requires Whole(s) && Next(s, Release).Some?
    ensures Whole(Next(s, Release).value)
  {
    var t := s.holder.value.text;
    assert Partial(s) == Frame(t);
    FramesSnoc(s.done, t);
    assert forall x <- s.done + [t] :: x in s.done || x == t;
    hide Whole, Partial, Frames, Frame, Plain;
    WholeWhenFree(s.stream, s.done + [t]);
  }

  lemma WholeWhenFree(stream: Bytes, done: seq<Bytes>)
    requires stream == Frames(done) && forall t <- done :: Plain(t)
    ensures forall broken :: Whole(Socket(stream, None, done, broken))
  {
    assert stream + [] == stream;
  }

  /** Whatever senders do, the stream is whole frames in the order of the lock, and then a prefix
      of the frame whose sender holds it. */
  lemma {:induction false} WholeFrames(s: Socket, actions: seq<Action>)
    requires Whole(s) && Serialised(actions) && Exec(s, actions).Some?
    ensures Whole(Exec(s, actions).value)
    decreases |actions|
  {
    if actions != [] {
      assert actions[0] in actions && forall a <- actions[1..] :: a in actions;
      StepWhole(s, actions[0]);
      hide Next, Whole;
      WholeFrames(Next(s, actions[0]).value, actions[1..]);
    }
  }

  // ----- the order of the lock -----

  /** The texts of the senders that get the lock, in the order in which they get it. */
  function Acquired(actions: seq<Action>): seq<Bytes> {
    if actions == [] then []
    else (if actions[0].Acquire? then [actions[0].text] else []) + Acquired(actions[1..])
  }

  /** What was sent, and what is being sent. */
  function Begun(s: Socket): seq<Bytes> {
    s.done + (match s.holder case Some(h) => [h.text] case None => [])
  }

  lemma StepBegun(s: Socket, a: Action)
    requires Next(s, a).Some?
    ensures Begun(Next(s, a).value) == Begun(s) + (if a.Acquire? then [a.text] else [])
  {
    assert Begun(s) + [] == Begun(s);
    if a.Acquire? {
      assert s.done + [] == s.done;
    } else if a.Release? {
      var done := s.done + [s.holder.value.text];
      assert done + [] == done;
    }
  }

  lemma {:induction false} LockOrder(s: Socket, actions: seq<Action>)
    requires Exec(s, actions).Some?
    ensures Begun(Exec(s, actions).value) == Begun(s) + Acquired(actions)
    decreases |actions|
  {
    if actions == [] {
      assert Begun(s) + [] == Begun(s);
    } else {
      StepBegun(s, actions[0]);
      LockOrder(Next(s, actions[0]).value, actions[1..]);
      Assoc(Begun(s), if actions[0].Acquire? then [actions[0].text] else [], Acquired(actions[1..]));
    }
  }

  /** Whoever sends, and whatever is accepted at a time, what is on the stream are the frames of
      those that got the lock, in that order, the last of them as far as it is sent. */
  lemma SentInOrder(actions: seq<Action>, s: Socket)
    requires Serialised(actions) && Exec(Fresh(), actions) == Some(s)
    ensures var all := Acquired(actions);
      match s.holder
      case None => s.stream == Frames(all)
      case Some(h) =>
        && all != [] && h.text == all[|all| - 1] && h.sent <= |Frame(h.text)|
        && s.stream == Frames(all[..|all| - 1]) + Frame(h.text)[..h.sent]
  {
    assert Whole(Fresh());
    WholeFrames(Fresh(), actions);
    LockOrder(Fresh(), actions);
    BegunIs(s, Acquired(actions));
    hide Exec, Frames, Frame, Begun;
    assert Frames(s.done) + [] == Frames(s.done);
  }

  lemma BegunIs(s: Socket, all: seq<Bytes>)
    requires Begun(s) == Begun(Fresh()) + all
    ensures s.holder == None ==> s.done == all
    ensures s.holder.Some? ==> all != [] && s.holder.value.text == all[|all| - 1] && s.done == all[..|all| - 1]
  {
    assert Begun(s) == all;
  }

  // ----- the line reader -----

  /** Why a read stops before its line is complete: its timer runs out, or it fails. */
  datatype Cause = Silence | IoError

  /** What a socket brings next to the pending read: bytes, or what stops it. */
  datatype Arrival = Chunk(bytes: Bytes) | Stops(cause: Cause)

  datatype Line = Line(text: Bytes) | Stopped(cause: Cause) | Closed

  /** Arrivals without their chunk boundaries. */
  datatype Sym = In(b: Byte) | Stop(cause: Cause)

  function Ins(bs: Bytes): seq<Sym> {
    if bs == [] then [] else [In(bs[0])] + Ins(bs[1..])
  }

  function Flat(arrivals: seq<Arrival>): seq<Sym> {
    if arrivals == [] then []
    else (match arrivals[0] case Chunk(bs) => Ins(bs) case Stops(cause) => [Stop(cause)]) + Flat(arrivals[1..])
  }

  /** All results of reading line after line, up to end of file, with part of a line at hand. A
      stop discards that part. */
  function Results(syms: seq<Sym>, line: Bytes): seq<Line>
    decreases |syms|
  {
    if syms == [] then (if line == [] then [] else [Line(line)])
    else match syms[0]
      case Stop(cause) => [Stopped(cause)] + Results(syms[1..], [])
      case In(Newline) => [Line(line + [Newline])] + Results(syms[1..], [])
      case In(b) => Results(syms[1..], line + [b])
  }

  lemma {:induction false} InsConcat(a: Bytes, b: Bytes)
    ensures Ins(a + b) == Ins(a) + Ins(b)
  {
    if a == [] {
      assert a + b == b;
    } else {
      assert (a + b)[1..] == a[1..] + b && (a + b)[0] == a[0];
      InsConcat(a[1..], b);
      Assoc([In(a[0])], Ins(a[1..]), Ins(b));
    }
  }

  /** Bytes without a newline only lengthen the line at hand. */
  lemma {:induction false} ReadsPlain(bs: Bytes, syms: seq<Sym>, line: Bytes)
    requires Plain(bs)
    ensures Results(Ins(bs) + syms, line) == Results(syms, line + bs)
    decreases |bs|
  {
    if bs == [] {
      assert [] + syms == syms && line + [] == line;
    } else {
      ReadsPlain(bs[1..], syms, line + [bs[0]]);
      Assoc([In(bs[0])], Ins(bs[1..]), syms);
      ConsTail(In(bs[0]), Ins(bs[1..]) + syms);
      Assoc(line, [bs[0]], bs[1..]);
      assert [bs[0]] + bs[1..] == bs && bs[0] != Newline;
    }
  }

  lemma ReadFrame(bs: Bytes, syms: seq<Sym>, line: Bytes)
    requires Plain(bs)
    ensures Results(Ins(Frame(bs)) + syms, line) == [Line(line + Frame(bs))] + Results(syms, [])
  {
    InsConcat(bs, [Newline]);
    assert Ins([Newline]) == [In(Newline)] by { assert [Newline][1..] == []; }
    Assoc(Ins(bs), [In(Newline)], syms);
    ReadsPlain(bs, [In(Newline)] + syms, line);
    ConsTail(In(Newline), syms);
    Assoc(line, bs, [Newline]);
  }

  /** The reader of a connection; its buffer lives as long as the connection. */
  class LineReader {
    var buffered: Bytes
    var arrivals: seq<Arrival>

    constructor (arrivals: seq<Arrival>)
      ensures this.arrivals == arrivals && buffered == []
    {
      this.arrivals, buffered := arrivals, [];
    }

    ghost function Ahead(): seq<Sym>
      reads this
    {
      Ins(buffered) + Flat(arrivals)
    }

    /** Where the first newline in the buffer is, or the buffer's length. */
    method Scan() returns (i: nat)
      ensures i <= |buffered| && Plain(buffered[..i])
      ensures i < |buffered| ==> buffered[i] == Newline
    {
      i := 0;
      while i < |buffered| && buffered[i] != Newline
        invariant i <= |buffered| && Plain(buffered[..i])
      {
        assert buffered[..i + 1] == buffered[..i] + [buffered[i]];
        i := i + 1;
      }
    }

    /** Reads up to and with a newline, over as many chunks as it takes. Whatever the chunks are,
        the result and what is left are the first of what a byte-wise reader gives. */
    method ReadLine() returns (r: Line)
      modifies this
      ensures r == Closed ==> Results(old(Ahead()), []) == [] && Ahead() == []
      ensures r != Closed ==> Results(old(Ahead()), []) == [r] + Results(Ahead(), [])
      ensures r != Closed ==> |arrivals| < |old(arrivals)| || |buffered| < |old(buffered)|
      ensures |arrivals| <= |old(arrivals)|
    {
      var line: Bytes := [];
      while true
        invariant Results(Ahead(), line) == Results(old(Ahead()), [])
        invariant |arrivals| <= |old(arrivals)|
        invariant |arrivals| < |old(arrivals)| || (line == [] && buffered == old(buffered))
               || |buffered| < |old(buffered)|
        decreases |arrivals|, |buffered|
      {
        if buffered == [] {
          assert Ahead() == Flat(arrivals);
          if arrivals == [] {
            return if line == [] then Closed else Line(line);
          }
          var a := arrivals[0];
          arrivals := arrivals[1..];
          match a {
            case Stops(cause) =>
              ConsTail(Stop(cause), Flat(arrivals));
              assert Ahead() == Flat(arrivals);
              return Stopped(cause);
            case Chunk(bs) =>
              buffered := bs;
          }
        } else {
          var i := Scan();
          ghost var before := buffered;
          if i < |buffered| {
            var text := buffered[..i];
            TakeFrame(before, i, Flat(arrivals), line);
            line := line + Frame(text);
            buffered := buffered[i + 1..];
            return Line(line);
          }
          assert buffered[..i] == buffered;
          ReadsPlain(buffered, Flat(arrivals), line);
          line := line + buffered;
          buffered := [];
          assert Ahead() == Flat(arrivals);
        }
      }
    }

    /** Reads to the end of the connection. */
    method Drain() returns (lines: seq<Line>)
      modifies this
      ensures lines == Results(old(Ahead()), [])
    {
      lines := [];
      var r := ReadLine();
      while r != Closed
        invariant r == Closed ==> lines == Results(old(Ahead()), [])
        invariant r != Closed ==> lines + ([r] + Results(Ahead(), [])) == Results(old(Ahead()), [])
        decreases |arrivals|, |buffered|, r != Closed
      {
        Assoc(lines, [r], Results(Ahead(), []));
        lines := lines + [r];
        r := ReadLine();
        assert lines + [] == lines;
      }
    }
  }

  lemma TakeFrame(bs: Bytes, i: nat, syms: seq<Sym>, line: Bytes)
    requires i < |bs| && Plain(bs[..i]) && bs[i] == Newline
    ensures Results(Ins(bs) + syms, line) == [Line(line + Frame(bs[..i]))] + Results(Ins(bs[i + 1..]) + syms, [])
  {
    assert bs == Frame(bs[..i]) + bs[i + 1..];
    InsConcat(Frame(bs[..i]), bs[i + 1..]);
    Assoc(Ins(Frame(bs[..i])), Ins(bs[i + 1..]), syms);
    ReadFrame(bs[..i], Ins(bs[i + 1..]) + syms, line);
  }

  // ----- from writers to the reader -----

  function Lines(ts: seq<Bytes>): seq<Line> {
    if ts == [] then [] else Lines(ts[..|ts| - 1]) + [Line(Frame(ts[|ts| - 1]))]
  }

  lemma {:induction false} ReadFrames(ts: seq<Bytes>, syms: seq<Sym>)
    requires forall t <- ts :: Plain(t)
    ensures Results(Ins(Frames(ts)) + syms, []) == Lines(ts) + Results(syms, [])
    decreases |ts|
  {
    if ts == [] {
      assert Ins([]) + syms == syms && [] + Results(syms, []) == Results(syms, []);
    } else {
      var front, t := ts[..|ts| - 1], ts[|ts| - 1];
      InsConcat(Frames(front), Frame(t));
      Assoc(Ins(Frames(front)), Ins(Frame(t)), syms);
      ReadFrames(front, Ins(Frame(t)) + syms);
      ReadFrame(t, syms, []);
      assert [] + Frame(t) == Frame(t);
      Assoc(Lines(front), [Line(Frame(t))], Results(syms, []));
    }
  }

  /** Whatever senders do and however the bytes arrive, the reader gets exactly the envelopes of
      those that got the lock, in that order, the last of them as far as it is sent. */
  lemma SentIsRead(actions: seq<Action>, arrivals: seq<Arrival>, s: Socket)
    requires Serialised(actions) && Exec(Fresh(), actions) == Some(s)
    requires Flat(arrivals) == Ins(s.stream)
    ensures var all, lines := Acquired(actions), Results(Flat(arrivals), []);
      match s.holder
      case None => lines == Lines(all)
      case Some(h) =>
        && all != [] && h.text == all[|all| - 1] && h.sent <= |Frame(h.text)|
        && lines == Lines(all[..|all| - 1]) + (if h.sent == 0 then [] else [Line(Frame(h.text)[..h.sent])])
  {
    assert Whole(Fresh());
    WholeFrames(Fresh(), actions);
    LockOrder(Fresh(), actions);
    BegunIs(s, Acquired(actions));
    hide Exec;
    DoneIsRead(s);
    assert s.holder.Some? ==> (Partial(s) == [] <==> s.holder.value.sent == 0);
    hide Lines, Frames, Frame, Results, Flat, Ins;
    assert Lines(s.done) + [] == Lines(s.done);
  }

  lemma DoneIsRead(s: Socket)
    requires Whole(s)
    ensures Results(Ins(s.stream), []) == Lines(s.done) + (if Partial(s) == [] then [] else [Line(Partial(s))])
  {
    var rest := Partial(s);
    InsConcat(Frames(s.done), rest);
    ReadFrames(s.done, Ins(rest));
    hide Partial;
    PartialRead(s);
  }

  lemma PartialRead(s: Socket)
    requires Whole(s)
    ensures Results(Ins(Partial(s)), []) == if Partial(s) == [] then [] else [Line(Partial(s))]
  {
    if s.holder.Some? {
      var h := s.holder.value;
      if h.sent == |Frame(h.text)| {
        assert Partial(s) == Frame(h.text);
        assert Ins(Frame(h.text)) + [] == Ins(Frame(h.text)) && [] + Frame(h.text) == Frame(h.text);
        ReadFrame(h.text, [], []);
      } else {
        var part := Partial(s);
        assert part == h.text[..h.sent];
        assert Ins(part) + [] == Ins(part) && [] + part == part;
        ReadsPlain(part, [], []);
      }
    }
  }

  // ----- timeouts and failing reads -----

  /** The complete or final lines among the results. */
  function Texts(lines: seq<Line>): seq<Bytes> {
    if lines == [] then []
    else (if lines[0].Line? then [lines[0].text] else []) + Texts(lines[1..])
  }

  /** The results before the first stop, all that a reader gives that is dropped then. */
  function UntilStop(lines: seq<Line>): seq<Line> {
    if lines == [] || lines[0].Stopped? then [] else [lines[0]] + UntilStop(lines[1..])
  }

  /** The same bytes without anything that stops a read. */
  function NoStops(syms: seq<Sym>): seq<Sym> {
    if syms == [] then []
    else (if syms[0].Stop? then [] else [syms[0]]) + NoStops(syms[1..])
  }

  /** Every stop falls between two lines. */
  predicate Punctual(syms: seq<Sym>, line: Bytes)
    decreases |syms|
  {
    syms == [] ||
    match syms[0]
    case Stop(cause) => line == [] && Punctual(syms[1..], [])
    case In(Newline) => Punctual(syms[1..], [])
    case In(b) => Punctual(syms[1..], line + [b])
  }

  lemma TextsCons(l: Line, lines: seq<Line>)
    ensures Texts([l] + lines) == (if l.Line? then [l.text] else []) + Texts(lines)
  {
    ConsTail(l, lines);
  }

  lemma NoStopsCons(s: Sym, syms: seq<Sym>)
    requires s.In?
    ensures ([s] + NoStops(syms))[0] == s && ([s] + NoStops(syms))[1..] == NoStops(syms)
  {
  }

  lemma {:induction false} PunctualReads(syms: seq<Sym>, line: Bytes)
    requires Punctual(syms, line)
    ensures Texts(Results(syms, line)) == Texts(Results(NoStops(syms), line))
    decreases |syms|
  {
    if syms != [] {
      var rest := syms[1..];
      match syms[0]
      case Stop(cause) =>
        PunctualReads(rest, []);
        TextsCons(Stopped(cause), Results(rest, []));
        assert [] + Texts(Results(rest, [])) == Texts(Results(rest, []));
        assert [] + NoStops(rest) == NoStops(rest);
      case In(Newline) =>
        PunctualReads(rest, []);
        NoStopsCons(syms[0], rest);
        TextsCons(Line(line + [Newline]), Results(rest, []));
        TextsCons(Line(line + [Newline]), Results(NoStops(rest), []));
      case In(b) =>
        PunctualReads(rest, line + [b]);
        NoStopsCons(syms[0], rest);
    }
  }

  function Size(ts: seq<Bytes>): nat { if ts == [] then 0 else |ts[0]| + Size(ts[1..]) }

  /** The bytes that stops discard. */
  function Lost(syms: seq<Sym>, line: Bytes): nat
    decreases |syms|
  {
    if syms == [] then 0
    else match syms[0]
      case Stop(cause) => |line| + Lost(syms[1..], [])
      case In(Newline) => Lost(syms[1..], [])
      case In(b) => Lost(syms[1..], line + [b])
  }

  lemma SizeCons(t: Bytes, ts: seq<Bytes>)
    ensures Size([t] + ts) == |t| + Size(ts)
  {
    ConsTail(t, ts);
  }

  /** What is read and what is lost is what arrives. */
  lemma {:induction false} SizeOfRead(syms: seq<Sym>, line: Bytes)
    ensures Size(Texts(Results(syms, line))) + Lost(syms, line) == |line| + |NoStops(syms)|
    ensures Lost(NoStops(syms), line) == 0
    ensures Lost(syms, line) == 0 <==> Punctual(syms, line)
    decreases |syms|
  {
    if syms == [] {
      TextsCons(Line(line), []);
      SizeCons(line, []);
      assert [Line(line)] + [] == [Line(line)] && [line] + [] == [line];
    } else {
      var rest := syms[1..];
      match syms[0]
      case Stop(cause) =>
        SizeOfRead(rest, []);
        SizeOfRead(rest, line);
        TextsCons(Stopped(cause), Results(rest, []));
        assert [] + Texts(Results(rest, [])) == Texts(Results(rest, []));
        assert [] + NoStops(rest) == NoStops(rest);
      case In(Newline) =>
        SizeOfRead(rest, []);
        NoStopsCons(syms[0], rest);
        TextsCons(Line(line + [Newline]), Results(rest, []));
        SizeCons(line + [Newline], Texts(Results(rest, [])));
      case In(b) =>
        SizeOfRead(rest, line + [b]);
        NoStopsCons(syms[0], rest);
    }
  }

  lemma {:induction false} NoStopsTwice(syms: seq<Sym>)
    ensures NoStops(NoStops(syms)) == NoStops(syms)
  {
    if syms != [] {
      NoStopsTwice(syms[1..]);
      if syms[0].In? {
        NoStopsCons(syms[0], syms[1..]);
      } else {
        assert [] + NoStops(syms[1..]) == NoStops(syms[1..]);
      }
    }
  }

  /** A reader that goes on after timeouts and failing reads, as a data stream does, gets the lines
      that were sent just when every one of them falls between two lines. */
  lemma StopLoses(syms: seq<Sym>)
    ensures Texts(Results(syms, [])) == Texts(Results(NoStops(syms), [])) <==> Punctual(syms, [])
  {
    SizeOfRead(syms, []);
    SizeOfRead(NoStops(syms), []);
    NoStopsTwice(syms);
    if Punctual(syms, []) {
      PunctualReads(syms, []);
    }
  }

  /** A reader that is dropped at its first timeout or failing read, as a connection's is, never
      joins a line that this cuts to later bytes: what it gave is a prefix of the lines sent. */
  lemma {:induction false} DroppedReaderIsSafe(syms: seq<Sym>, line: Bytes)
    ensures Texts(UntilStop(Results(syms, line))) <= Texts(Results(NoStops(syms), line))
    decreases |syms|
  {
    if syms != [] {
      var rest := syms[1..];
      match syms[0]
      case Stop(cause) =>
        ConsTail(Stopped(cause), Results(rest, []));
      case In(Newline) =>
        DroppedReaderIsSafe(rest, []);
        NoStopsCons(syms[0], rest);
        ConsTail(Line(line + [Newline]), Results(rest, []));
        TextsCons(Line(line + [Newline]), UntilStop(Results(rest, [])));
        TextsCons(Line(line + [Newline]), Results(NoStops(rest), []));
      case In(b) =>
        DroppedReaderIsSafe(rest, line + [b]);
        NoStopsCons(syms[0], rest);
    } else if line != [] {
      assert [Line(line)] + [] == [Line(line)];
      TextsCons(Line(line), []);
      TextsCons(Line(line), UntilStop([]));
      assert UntilStop([Line(line)]) == [Line(line)] + UntilStop([Line(line)][1..]);
    }
  }
}
