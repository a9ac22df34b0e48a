/** The two halves of one open connection and the user's handler, as a client drives them. */
module Wiring {
  import opened Protocol

  class Wiring {
    const link: Link
    var unread: seq<Read>
    var written: nat        // writes attempted
    var asked: nat          // calls of on_configure
    ghost var acts: seq<Act>

    constructor (link: Link)
      ensures this.link == link
      ensures unread == link.inbox && written == 0 && asked == 0 && acts == []
    {
      this.link := link;
      unread, written, asked, acts := link.inbox, 0, 0, [];
    }

    /** The next envelope, or why there is none; end of file once everything was read. */
    method Recv() returns (r: Read)
      modifies this`unread
      ensures old(unread) == [] ==> r == Broken(Eof) && unread == []
      ensures old(unread) != [] ==> r == old(unread)[0] && unread == old(unread)[1..]
    {
      if unread == [] {
        r := Broken(Eof);
      } else {
        r, unread := unread[0], unread[1..];
      }
    }

    method Send(env: Outgoing) returns (ok: bool)
      modifies this`written, this`acts
      ensures ok == link.writeOk(old(written)) && written == old(written) + 1
      ensures acts == if ok then old(acts) + [Wrote(env)] else old(acts)
    {
      ok := link.writeOk(written);
      written := written + 1;
      if ok {
        acts := acts + [Wrote(env)];
      }
    }

    ghost method Note(a: Act)
      modifies this`acts
      ensures acts == old(acts) + [a]
    {
      acts := acts + [a];
    }

    /** Calls on_configure; the result is the text of its error, if any. */
    method AskConfigure(path: string, topics: seq<string>) returns (e: Option<string>)
      modifies this`asked, this`acts
      ensures e == link.onConfigure(old(asked)) && asked == old(asked) + 1
      ensures acts == old(acts) + [Called(OnConfigure(path, topics))]
    {
      e := link.onConfigure(asked);
      asked := asked + 1;
      Note(Called(OnConfigure(path, topics)));
    }
  }

  class CancellationToken {
    var cancelled: bool

    constructor ()
      ensures !cancelled
    {
      cancelled := false;
    }

    method Cancel()
      modifies this
      ensures cancelled
    {
      cancelled := true;
    }
  }
}
