/** Readers that the Go client throws away: a JSON decoder for each received envelope, and the
    whole reader of a data stream after its handshake. */
module GoReaders {
  import opened Protocol
  import opened Framing

  /** A serialised JSON value: the byte that completes it is its last. */
  predicate IsMessage(m: Bytes) {
    m != [] && m[|m| - 1].End? && forall i | 0 <= i < |m| - 1 :: m[i].Mid?
  }

  /** What a decoder is given: bytes, and the edge of each refill of its buffer. */
  datatype Item = B(b: Byte) | Edge

  function Bs(bs: Bytes): seq<Item> {
    if bs == [] then [] else [B(bs[0])] + Bs(bs[1..])
  }

  function Items(refills: seq<Bytes>): seq<Item> {
    if refills == [] then [] else Bs(refills[0]) + ([Edge] + Items(refills[1..]))
  }

  /** All values that decoder after decoder gives, with part of a value at hand; once a value is
      complete, the rest of its refill goes with the decoder. */
  function Values(items: seq<Item>, have: Bytes, dropping: bool): seq<Bytes>
    decreases |items|
  {
    if items == [] then []
    else match items[0]
      case Edge => Values(items[1..], have, false)
      case B(b) =>
        if dropping then Values(items[1..], have, true)
        else match b
          case Newline => Values(items[1..], have, false)
          case Mid(_) => Values(items[1..], have + [b], false)
          case End(_) => [have + [b]] + Values(items[1..], [], true)
  }

  // ----- recv -----

  lemma {:induction false} BsConcat(a: Bytes, b: Bytes)
    ensures Bs(a + b) == Bs(a) + Bs(b)
  {
    if a == [] {
      assert a + b == b;
    } else {
      assert (a + b)[1..] == a[1..] + b && (a + b)[0] == a[0];
      BsConcat(a[1..], b);
      Assoc([B(a[0])], Bs(a[1..]), Bs(b));
    }
  }

  /** The bytes of a value, without the white space between values. */
  function Dense(bs: Bytes): Bytes {
    if bs == [] then [] else (if bs[0] == Newline then [] else [bs[0]]) + Dense(bs[1..])
  }

  predicate NoEnd(bs: Bytes) { forall i | 0 <= i < |bs| :: !bs[i].End? }

  lemma {:induction false} ValuesOpen(bs: Bytes, items: seq<Item>, have: Bytes)
    requires NoEnd(bs)
    ensures Values(Bs(bs) + items, have, false) == Values(items, have + Dense(bs), false)
    decreases |bs|
  {
    if bs == [] {
      assert [] + items == items && have + [] == have;
    } else {
      var all := Bs(bs) + items;
      assert all[0] == B(bs[0]) && all[1..] == Bs(bs[1..]) + items;
      if bs[0] == Newline {
        ValuesOpen(bs[1..], items, have);
        assert [] + Dense(bs[1..]) == Dense(bs[1..]);
      } else {
        ValuesOpen(bs[1..], items, have + [bs[0]]);
        Assoc(have, [bs[0]], Dense(bs[1..]));
      }
    }
  }

  lemma {:induction false} ValuesDropped(bs: Bytes, items: seq<Item>, have: Bytes)
    ensures Values(Bs(bs) + ([Edge] + items), have, true) == Values(items, have, false)
    decreases |bs|
  {
    var all := Bs(bs) + ([Edge] + items);
    if bs == [] {
      assert all == [Edge] + items;
      ConsTail(Edge, items);
    } else {
      assert all[0] == B(bs[0]) && all[1..] == Bs(bs[1..]) + ([Edge] + items);
      ValuesDropped(bs[1..], items, have);
    }
  }

  lemma ValuesEnd(bs: Bytes, i: nat, items: seq<Item>, have: Bytes)
    requires i < |bs| && bs[i].End? && NoEnd(bs[..i])
    ensures Values(Bs(bs) + ([Edge] + items), have, false) ==
      [have + Dense(bs[..i]) + [bs[i]]] + Values(items, [], false)
  {
    var rest := [Edge] + items;
    assert bs == bs[..i] + ([bs[i]] + bs[i + 1..]);
    BsConcat(bs[..i], [bs[i]] + bs[i + 1..]);
    ConsTail(bs[i], bs[i + 1..]);
    var tail := [B(bs[i])] + Bs(bs[i + 1..]);
    Assoc(Bs(bs[..i]), tail, rest);
    ValuesOpen(bs[..i], tail + rest, have);
    assert (tail + rest)[0] == B(bs[i]) && (tail + rest)[1..] == Bs(bs[i + 1..]) + rest;
    ValuesDropped(bs[i + 1..], items, []);
  }

  lemma ValuesRefill(bs: Bytes, items: seq<Item>, have: Bytes)
    requires NoEnd(bs)
    ensures Values(Bs(bs) + ([Edge] + items), have, false) == Values(items, have + Dense(bs), false)
  {
    ValuesOpen(bs, [Edge] + items, have);
    ConsTail(Edge, items);
  }

  /** The buffered reader of a connection, as the refills it gives to decoders. */
  class Reader {
    var refills: seq<Bytes>

    constructor (refills: seq<Bytes>)
      ensures this.refills == refills
    {
      this.refills := refills;
    }

    /** Where the first value in a refill ends, or the refill's length. */
    method Scan(bs: Bytes) returns (i: nat)
      ensures i <= |bs| && NoEnd(bs[..i]) && (i < |bs| ==> bs[i].End?)
    {
      i := 0;
      while i < |bs| && !bs[i].End?
        invariant i <= |bs| && NoEnd(bs[..i])
      {
        i := i + 1;
      }
    }

    /** A fresh decoder reads one value; what is left of its last refill is lost with it. */
    method Recv() returns (value: Option<Bytes>, ghost lost: Bytes)
      modifies this
      ensures value == None ==> Values(Items(old(refills)), [], false) == [] && refills == []
      ensures value.Some? ==>
        && |refills| < |old(refills)|
        && Values(Items(old(refills)), [], false) == [value.value] + Values(Items(refills), [], false)
        && Taken(old(refills), refills, lost)
    {
      var have: Bytes := [];
      ghost var n := 0;
      while refills != []
        invariant Values(Items(refills), have, false) == Values(Items(old(refills)), [], false)
        invariant n + |refills| == |old(refills)| && refills == old(refills)[n..]
        invariant NoEnd(Concat(old(refills)[..n]))
        decreases |refills|
      {
        var r := refills[0];
        var i := Scan(r);
        assert old(refills)[..n + 1] == old(refills)[..n] + [r];
        refills := refills[1..];
        if i < |r| {
          ValuesEnd(r, i, Items(refills), have);
          have := have + Dense(r[..i]) + [r[i]];
          lost := r[i + 1..];
          assert Completes(old(refills), n, i);
          return Some(have), lost;
        }
        assert r[..i] == r;
        ValuesRefill(r, Items(refills), have);
        ConcatSnoc(old(refills)[..n], r);
        n := n + 1;
        have := have + Dense(r);
      }
      return None, [];
    }

    /** Envelope after envelope until the connection ends. */
    method RecvAll() returns (values: seq<Bytes>)
      modifies this
      ensures values == Values(Items(old(refills)), [], false)
    {
      values := [];
      var v: Option<Bytes>;
      ghost var lost;
      v, lost := Recv();
      while v.Some?
        invariant v == None ==> values == Values(Items(old(refills)), [], false)
        invariant v.Some? ==>
          values + ([v.value] + Values(Items(refills), [], false)) == Values(Items(old(refills)), [], false)
        decreases |refills|, v.Some?
      {
        Assoc(values, [v.value], Values(Items(refills), [], false));
        values := values + [v.value];
        v, lost := Recv();
        assert values + [] == values;
      }
    }
  }

  /** Refill n holds, at place i, the end of the first value. */
  predicate Completes(refills: seq<Bytes>, n: nat, i: nat) {
    && n < |refills| && i < |refills[n]| && refills[n][i].End?
    && NoEnd(refills[n][..i]) && NoEnd(Concat(refills[..n]))
  }

  /** The first value was taken from the refills, with what followed it in its last refill. */
  ghost predicate Taken(before: seq<Bytes>, after: seq<Bytes>, lost: Bytes) {
    exists n: nat, i: nat :: Completes(before, n, i) && lost == before[n][i + 1..] && after == before[n + 1..]
  }

  function Concat(chunks: seq<Bytes>): Bytes {
    if chunks == [] then [] else Concat(chunks[..|chunks| - 1]) + chunks[|chunks| - 1]
  }

  lemma ConcatSnoc(chunks: seq<Bytes>, c: Bytes)
    ensures Concat(chunks + [c]) == Concat(chunks) + c
  {
    assert (chunks + [c])[..|chunks|] == chunks;
  }

  // ----- when nothing is lost -----

  /** After the end of a value, a refill has nothing but white space: no bytes of a second one. */
  predicate Single(r: Bytes) {
    forall i, j | 0 <= i < j < |r| && r[i].End? :: r[j] == Newline
  }

  /** The same, told of what is dropped. */
  predicate Tidy(items: seq<Item>, dropping: bool)
    decreases |items|
  {
    items == [] ||
    match items[0]
    case Edge => Tidy(items[1..], false)
    case B(b) => (dropping ==> b == Newline) && Tidy(items[1..], dropping || b.End?)
  }

  function BytesOf(items: seq<Item>): Bytes {
    if items == [] then [] else (if items[0].B? then [items[0].b] else []) + BytesOf(items[1..])
  }

  /** The values in a stream of bytes. */
  function Split(bs: Bytes, have: Bytes): seq<Bytes>
    decreases |bs|
  {
    if bs == [] then []
    else match bs[0]
      case Newline => Split(bs[1..], have)
      case Mid(_) => Split(bs[1..], have + [bs[0]])
      case End(_) => [have + [bs[0]]] + Split(bs[1..], [])
  }

  lemma SplitCons(b: Byte, bs: Bytes, have: Bytes)
    ensures Split([b] + bs, have) ==
      match b
      case Newline => Split(bs, have)
      case Mid(_) => Split(bs, have + [b])
      case End(_) => [have + [b]] + Split(bs, [])
  {
    ConsTail(b, bs);
  }

  lemma {:induction false} TidyValues(items: seq<Item>, have: Bytes, dropping: bool)
    requires Tidy(items, dropping)
    ensures Values(items, have, dropping) == Split(BytesOf(items), have)
    decreases |items|
  {
    if items != [] {
      var rest := BytesOf(items[1..]);
      match items[0]
      case Edge =>
        TidyValues(items[1..], have, false);
        assert [] + rest == rest;
      case B(b) =>
        SplitCons(b, rest, have);
        match b {
          case Newline => TidyValues(items[1..], have, dropping);
          case Mid(_) => TidyValues(items[1..], have + [b], false);
          case End(_) => TidyValues(items[1..], [], true);
        }
    }
  }

  /** How many bytes of values are dropped. */
  function Wasted(items: seq<Item>, dropping: bool): nat
    decreases |items|
  {
    if items == [] then 0
    else match items[0]
      case Edge => Wasted(items[1..], false)
      case B(b) => (if dropping && b != Newline then 1 else 0) + Wasted(items[1..], dropping || b.End?)
  }

  /** How many bytes of an incomplete value are at hand at the end. */
  function Unfinished(items: seq<Item>, have: Bytes, dropping: bool): nat
    decreases |items|
  {
    if items == [] then |have|
    else match items[0]
      case Edge => Unfinished(items[1..], have, false)
      case B(b) =>
        if dropping then Unfinished(items[1..], have, true)
        else match b
          case Newline => Unfinished(items[1..], have, false)
          case Mid(_) => Unfinished(items[1..], have + [b], false)
          case End(_) => Unfinished(items[1..], [], true)
  }

  lemma DenseCons(b: Byte, bs: Bytes)
    ensures Dense([b] + bs) == (if b == Newline then [] else [b]) + Dense(bs)
  {
    ConsTail(b, bs);
  }

  /** Bytes of values are received, dropped, or left over. */
  lemma {:induction false} Weigh(items: seq<Item>, have: Bytes, dropping: bool)
    ensures Size(Values(items, have, dropping)) + Wasted(items, dropping) + Unfinished(items, have, dropping)
         == |have| + |Dense(BytesOf(items))|
    ensures Wasted(items, dropping) == 0 <==> Tidy(items, dropping)
    decreases |items|
  {
    if items != [] {
      var rest := BytesOf(items[1..]);
      match items[0]
      case Edge =>
        Weigh(items[1..], have, false);
        assert [] + rest == rest;
      case B(b) =>
        DenseCons(b, rest);
        if dropping {
          Weigh(items[1..], have, true);
        } else {
          match b {
            case Newline => Weigh(items[1..], have, false);
            case Mid(_) => Weigh(items[1..], have + [b], false);
            case End(_) =>
              Weigh(items[1..], [], true);
              SizeCons(have + [b], Values(items[1..], [], true));
          }
        }
    }
  }

  lemma {:induction false} SplitMids(bs: Bytes, more: Bytes, have: Bytes)
    requires forall i | 0 <= i < |bs| :: bs[i].Mid?
    ensures Split(bs + more, have) == Split(more, have + bs)
    ensures Dense(bs + more) == bs + Dense(more)
    decreases |bs|
  {
    if bs == [] {
      assert [] + more == more && have + [] == have && [] + Dense(more) == Dense(more);
    } else {
      assert bs + more == [bs[0]] + (bs[1..] + more);
      SplitCons(bs[0], bs[1..] + more, have);
      DenseCons(bs[0], bs[1..] + more);
      SplitMids(bs[1..], more, have + [bs[0]]);
      assert have + [bs[0]] + bs[1..] == have + bs;
      assert bs == [bs[0]] + bs[1..];
      Assoc([bs[0]], bs[1..], Dense(more));
    }
  }

  lemma SplitMessage(m: Bytes, more: Bytes)
    requires IsMessage(m)
    ensures Split(Frame(m) + more, []) == [m] + Split(more, [])
    ensures Dense(Frame(m) + more) == m + Dense(more)
  {
    var mids, last := m[..|m| - 1], m[|m| - 1];
    hide Split, Dense;
    assert m == mids + [last];
    Assoc(m, [Newline], more);
    Assoc(mids, [last], [Newline] + more);
    SplitMids(mids, [last] + ([Newline] + more), []);
    SplitCons(last, [Newline] + more, mids);
    SplitCons(Newline, more, []);
    DenseCons(last, [Newline] + more);
    DenseCons(Newline, more);
    assert [] + mids == mids && [] + Dense(more) == Dense(more);
    Assoc(mids, [last], Dense(more));
  }

  lemma {:induction false} SplitFrames(ms: seq<Bytes>, more: Bytes)
    requires forall m <- ms :: IsMessage(m)
    ensures Split(Frames(ms) + more, []) == ms + Split(more, [])
    ensures |Dense(Frames(ms) + more)| == Size(ms) + |Dense(more)|
    decreases |ms|
  {
    if ms == [] {
      assert Frames([]) + more == more && [] + Split(more, []) == Split(more, []);
    } else {
      var front, m := ms[..|ms| - 1], ms[|ms| - 1];
      Assoc(Frames(front), Frame(m), more);
      SplitFrames(front, Frame(m) + more);
      SplitMessage(m, more);
      assert ms == front + [m];
      Assoc(front, [m], Split(more, []));
      SizeSnoc(front, m);
    }
  }

  lemma {:induction false} SizeSnoc(ts: seq<Bytes>, t: Bytes)
    ensures Size(ts + [t]) == Size(ts) + |t|
  {
    if ts == [] {
      assert [] + [t] == [t] && [t][1..] == [];
    } else {
      assert (ts + [t])[1..] == ts[1..] + [t];
      SizeSnoc(ts[1..], t);
    }
  }

  lemma {:induction false} BytesOfBs(bs: Bytes, items: seq<Item>)
    ensures BytesOf(Bs(bs) + items) == bs + BytesOf(items)
    decreases |bs|
  {
    if bs == [] {
      assert [] + items == items && [] + BytesOf(items) == BytesOf(items);
    } else {
      var all := Bs(bs) + items;
      assert all[0] == B(bs[0]) && all[1..] == Bs(bs[1..]) + items;
      BytesOfBs(bs[1..], items);
      assert bs == [bs[0]] + bs[1..];
      Assoc([bs[0]], bs[1..], BytesOf(items));
    }
  }

  lemma {:induction false} ConcatCons(c: Bytes, chunks: seq<Bytes>)
    ensures Concat([c] + chunks) == c + Concat(chunks)
    decreases |chunks|
  {
    if chunks == [] {
      assert [c] + [] == [c] && [c][..0] == [] && [] + c == c && c + [] == c;
    } else {
      var front := chunks[..|chunks| - 1];
      assert ([c] + chunks)[..|chunks|] == [c] + front;
      ConcatCons(c, front);
      Assoc(c, Concat(front), chunks[|chunks| - 1]);
    }
  }

  lemma {:induction false} BytesOfItems(refills: seq<Bytes>)
    ensures BytesOf(Items(refills)) == Concat(refills)
    decreases |refills|
  {
    if refills != [] {
      var r, rest := refills[0], refills[1..];
      BytesOfItems(rest);
      BytesOfBs(r, [Edge] + Items(rest));
      ConsTail(Edge, Items(rest));
      assert [] + BytesOf(Items(rest)) == BytesOf(Items(rest));
      assert refills == [r] + rest;
      ConcatCons(r, rest);
    }
  }

  lemma {:induction false} TidyRefill(r: Bytes, rest: seq<Item>, dropping: bool)
    ensures Tidy(Bs(r) + ([Edge] + rest), dropping) <==>
      Tidy(rest, false) && Single(r) && (dropping ==> forall j | 0 <= j < |r| :: r[j] == Newline)
    decreases |r|
  {
    var all := Bs(r) + ([Edge] + rest);
    if r == [] {
      assert all == [Edge] + rest;
      ConsTail(Edge, rest);
    } else {
      assert all[0] == B(r[0]) && all[1..] == Bs(r[1..]) + ([Edge] + rest);
      TidyRefill(r[1..], rest, dropping || r[0].End?);
      assert forall j | 1 <= j < |r| :: r[j] == r[1..][j - 1];
      SingleCons(r);
    }
  }

  lemma SingleCons(r: Bytes)
    requires r != []
    ensures Single(r) <==> Single(r[1..]) && (r[0].End? ==> forall j | 0 <= j < |r| - 1 :: r[1..][j] == Newline)
  {
    var t := r[1..];
    assert forall j | 1 <= j < |r| :: r[j] == t[j - 1];
    if Single(r) {
      forall i, j | 0 <= i < j < |t| && t[i].End?
        ensures t[j] == Newline
      {
        assert r[i + 1].End? && r[j + 1] == t[j];
      }
      forall j | 0 <= j < |t| && r[0].End?
        ensures t[j] == Newline
      {
        assert r[j + 1] == t[j];
      }
    }
  }

  lemma {:induction false} TidyItems(refills: seq<Bytes>)
    ensures Tidy(Items(refills), false) <==> forall r <- refills :: Single(r)
    decreases |refills|
  {
    if refills != [] {
      TidyItems(refills[1..]);
      TidyRefill(refills[0], Items(refills[1..]), false);
      assert forall r <- refills :: r == refills[0] || r in refills[1..];
    }
  }

  /** Although each recv builds a decoder of its own, what is received is what was sent just when
      no refill carries bytes of two messages. */
  lemma ReceivedIsSent(refills: seq<Bytes>, ms: seq<Bytes>)
    requires Concat(refills) == Frames(ms) && forall m <- ms :: IsMessage(m)
    ensures Values(Items(refills), [], false) == ms <==> forall r <- refills :: Single(r)
  {
    var items := Items(refills);
    BytesOfItems(refills);
    TidyItems(refills);
    SplitFrames(ms, []);
    assert Frames(ms) + [] == Frames(ms) && ms + [] == ms;
    Weigh(items, [], false);
    if Tidy(items, false) {
      TidyValues(items, [], false);
    }
  }

  // ----- the stream -----

  function Chunks(chunks: seq<Bytes>): seq<Arrival> {
    if chunks == [] then [] else [Chunk(chunks[0])] + Chunks(chunks[1..])
  }

  lemma {:induction false} FlatChunks(chunks: seq<Bytes>)
    ensures Flat(Chunks(chunks)) == Ins(Concat(chunks))
  {
    if chunks != [] {
      FlatChunks(chunks[1..]);
      ConsTail(Chunk(chunks[0]), Chunks(chunks[1..]));
      assert chunks == [chunks[0]] + chunks[1..];
      ConcatCons(chunks[0], chunks[1..]);
      InsConcat(chunks[0], Concat(chunks[1..]));
    }
  }

  datatype Answer = Answer(status: string, message: string, topics: seq<string>)

  datatype OpenError = NotRegistered | NotConnected | NotSent | NoAnswer | Rejected(message: string)

  datatype Opened = Stream(reader: LineReader, topics: seq<string>) | Failed(error: OpenError)

  /** Why a data stream does not open, if it does not; values are what the socket brings. */
  function Refusal(componentId: string, sessionId: string, opens: bool, sent: bool, values: seq<Bytes>,
                   decode: Bytes -> Option<Answer>): Option<OpenError> {
    if componentId == "" || sessionId == "" then Some(NotRegistered)
    else if !opens then Some(NotConnected)
    else if !sent then Some(NotSent)
    else if values == [] || decode(values[0]) == None then Some(NoAnswer)
    else
      var a := decode(values[0]).value;
      if a.status == "ok" then None else Some(Rejected(a.message))
  }

  /** When a data stream opens and when it fails with which error, case by case. */
  lemma RefusalTells(componentId: string, sessionId: string, opens: bool, sent: bool, values: seq<Bytes>,
                     decode: Bytes -> Option<Answer>)
    ensures var e := Refusal(componentId, sessionId, opens, sent, values, decode);
      var ids, read := componentId != "" && sessionId != "", values != [] && decode(values[0]).Some?;
      && (e == Some(NotRegistered) <==> !ids)
      && (e == Some(NotConnected) <==> ids && !opens)
      && (e == Some(NotSent) <==> ids && opens && !sent)
      && (e == Some(NoAnswer) <==> ids && opens && sent && !read)
      && (e == None <==> ids && opens && sent && read && decode(values[0]).value.status == "ok")
      && (ids && opens && sent && read && decode(values[0]).value.status != "ok" ==>
            e == Some(Rejected(decode(values[0]).value.message)))
  {
  }

  /** Opens a data stream: the handshake's answer is decoded by a reader of its own, and frames are
      read by a new one, from the chunks that the first did not touch. */
  method OpenStream(componentId: string, sessionId: string, opens: bool, sent: bool, chunks: seq<Bytes>,
                    decode: Bytes -> Option<Answer>)
    returns (r: Opened, ghost rest: seq<Bytes>, ghost lost: Bytes)
    ensures r.Stream? ==>
      && componentId != "" && sessionId != "" && opens && sent
      && fresh(r.reader) && Taken(chunks, rest, lost) && r.reader.Ahead() == Flat(Chunks(rest))
    ensures Refusal(componentId, sessionId, opens, sent, Values(Items(chunks), [], false), decode) ==
      match r case Stream(_, _) => None case Failed(error) => Some(error)
    ensures r.Stream? ==>
      var values := Values(Items(chunks), [], false);
      values != [] && decode(values[0]).Some? && r.topics == decode(values[0]).value.topics
  {
    if componentId == "" || sessionId == "" {
      return Failed(NotRegistered), [], [];
    }
    if !opens {
      return Failed(NotConnected), [], [];
    }
    if !sent {
      return Failed(NotSent), [], [];
    }
    var decoder := new Reader(chunks);
    var value;
    value, lost := decoder.Recv();
    var resp := if value.None? then None else decode(value.value);
    if resp.None? {
      return Failed(NoAnswer), [], [];
    }
    if resp.value.status != "ok" {
      return Failed(Rejected(resp.value.message)), [], [];
    }
    var arrivals := Chunks(decoder.refills);
    var reader := new LineReader(arrivals);
    assert reader.Ahead() == Flat(arrivals) by { assert Ins([]) + Flat(arrivals) == Flat(arrivals); }
    return Stream(reader, resp.value.topics), decoder.refills, lost;
  }

  datatype NextResult = Received(value: Json) | Ended | Undecodable

  /** What a result of the line reader means to Next; a line without a newline is an end of file. */
  function Deliver(l: Line, decode: Bytes -> Option<Json>): NextResult {
    match l
    case Line(text) =>
      if text == [] || text[|text| - 1] != Newline then Ended
      else (match decode(text) case Some(v) => Received(v) case None => Undecodable)
    case _ => Ended
  }

  /** What Next gives, case by case. */
  lemma DeliverTells(l: Line, decode: Bytes -> Option<Json>, v: Json)
    ensures var r, whole := Deliver(l, decode), l.Line? && l.text != [] && l.text[|l.text| - 1] == Newline;
      && (r == Received(v) <==> whole && decode(l.text) == Some(v))
      && (r == Undecodable <==> whole && decode(l.text) == None)
      && (r == Ended <==> !whole)
  {
  }

  /** The next frame of a stream, from the next line of its reader. */
  method Next(reader: LineReader, decode: Bytes -> Option<Json>) returns (frame: NextResult, ghost l: Line)
    modifies reader
    ensures frame == Deliver(l, decode)
    ensures l != Closed ==> Results(old(reader.Ahead()), []) == [l] + Results(reader.Ahead(), [])
    ensures l == Closed ==> Results(old(reader.Ahead()), []) == [] && reader.Ahead() == []
  {
    var line := reader.ReadLine();
    l := line;
    if !line.Line? || line.text == [] || line.text[|line.text| - 1] != Newline {
      return Ended, line;
    }
    var v := decode(line.text);
    return if v.Some? then Received(v.value) else Undecodable, line;
  }

  /** The prefix that ends with the first End is the only one. */
  lemma FirstEnd(a: Bytes, b: Bytes, x: Bytes, y: Bytes)
    requires a + x == b + y
    requires a != [] && a[|a| - 1].End? && NoEnd(a[..|a| - 1])
    requires b != [] && b[|b| - 1].End? && NoEnd(b[..|b| - 1])
    ensures a == b && x == y
  {
    var s := a + x;
    assert s[|a| - 1] == a[|a| - 1] && s[|b| - 1] == b[|b| - 1];
    assert forall k | 0 <= k < |a| - 1 :: s[k] == a[..|a| - 1][k];
    assert forall k | 0 <= k < |b| - 1 :: s[k] == b[..|b| - 1][k];
    assert |a| == |b|;
    assert s[..|a|] == a && s[..|b|] == b && s[|a|..] == x && s[|b|..] == y;
  }

  lemma {:induction false} ConcatSplit(chunks: seq<Bytes>, n: nat)
    requires n <= |chunks|
    ensures Concat(chunks) == Concat(chunks[..n]) + Concat(chunks[n..])
    decreases |chunks|
  {
    if n == |chunks| {
      assert chunks[..n] == chunks && chunks[n..] == [] && Concat(chunks) + [] == Concat(chunks);
    } else {
      var front, c := chunks[..|chunks| - 1], chunks[|chunks| - 1];
      hide Concat;
      ConcatSplit(front, n);
      assert chunks == front + [c] && chunks[..n] == front[..n] && chunks[n..] == front[n..] + [c];
      ConcatSnoc(front, c);
      ConcatSnoc(front[n..], c);
      Assoc(Concat(front[..n]), Concat(front[n..]), c);
    }
  }

  /** What the handshake's reader takes, what is lost with it, and what is left, make the stream. */
  lemma TakenIs(chunks: seq<Bytes>, n: nat, i: nat, answer: Bytes, more: Bytes)
    requires Completes(chunks, n, i) && IsMessage(answer) && Concat(chunks) == answer + more
    ensures chunks[n][i + 1..] + Concat(chunks[n + 1..]) == more
  {
    var c := chunks[n];
    var head := Concat(chunks[..n]) + c[..i + 1];
    var left := c[i + 1..] + Concat(chunks[n + 1..]);
    ConcatSplit(chunks, n);
    assert chunks[n..] == [c] + chunks[n + 1..];
    ConcatCons(c, chunks[n + 1..]);
    assert c == c[..i + 1] + c[i + 1..];
    Assoc(c[..i + 1], c[i + 1..], Concat(chunks[n + 1..]));
    Assoc(Concat(chunks[..n]), c[..i + 1], left);
    assert head[..|head| - 1] == Concat(chunks[..n]) + c[..i];
    FirstEnd(head, answer, left, more);
  }

  /** However the answer and the frames arrive, the new reader gets exactly the frames just when the
      chunk that completes the answer ends with the answer's newline: anything more in it is lost,
      and without it the first frame read is empty. */
  lemma StreamIsWhole(chunks: seq<Bytes>, rest: seq<Bytes>, lost: Bytes, answer: Bytes, frames: seq<Bytes>)
    requires Taken(chunks, rest, lost)
    requires IsMessage(answer) && (forall f <- frames :: Plain(f))
    requires Concat(chunks) == Frame(answer) + Frames(frames)
    ensures Results(Flat(Chunks(rest)), []) == Lines(frames) <==> lost == [Newline]
  {
    var n: nat, i: nat :| Completes(chunks, n, i) && lost == chunks[n][i + 1..] && rest == chunks[n + 1..];
    Assoc(answer, [Newline], Frames(frames));
    TakenIs(chunks, n, i, answer, [Newline] + Frames(frames));
    hide Completes, IsMessage;
    var left := Concat(rest);
    FlatChunks(rest);
    ReadFrames(frames, []);
    assert Ins(Frames(frames)) + [] == Ins(Frames(frames)) && Lines(frames) + [] == Lines(frames);
    SizeOfBytes(left);
    SizeOfBytes(Frames(frames));
    assert (lost + left)[|lost|..] == left && ([Newline] + Frames(frames))[1..] == Frames(frames);
    assert |lost| == 1 ==> lost[0] == (lost + left)[0];
  }

  lemma SizeOfBytes(bs: Bytes)
    ensures Size(Texts(Results(Ins(bs), []))) == |bs|
  {
    SizeOfRead(Ins(bs), []);
    NoStopsIns(bs);
  }

  lemma {:induction false} NoStopsIns(bs: Bytes)
    ensures NoStops(Ins(bs)) == Ins(bs) && |Ins(bs)| == |bs|
    ensures Lost(Ins(bs), []) == 0
  {
    if bs != [] {
      NoStopsIns(bs[1..]);
      ConsTail(In(bs[0]), Ins(bs[1..]));
    }
    NoStopsLost(bs, []);
  }

  lemma {:induction false} NoStopsLost(bs: Bytes, line: Bytes)
    ensures Lost(Ins(bs), line) == 0
    decreases |bs|
  {
    if bs != [] {
      ConsTail(In(bs[0]), Ins(bs[1..]));
      NoStopsLost(bs[1..], if bs[0] == Newline then [] else line + [bs[0]]);
    }
  }
}
