/** The Go client over a whole run. Its Run has no clean exit: a session that ended with SHUTDOWN
    is retried like one that failed. Durations are 64-bit integers. */
module GoRun {
  import opened Protocol
  import opened GoSession
  import Backoff

  const TWO63 := 0x8000_0000_0000_0000
  const TWO62 := 0x4000_0000_0000_0000

  /** maxAttempts not above 0 means no limit. */
  datatype Config = Config(
    reconnect: bool, reconnectDelay: int, maxReconnectDelay: int, maxAttempts: int, configId: string)

  datatype Verdict =
    | Unregistered(got: Command)
    | NotReconnecting(err: Option<Failure>)
    | LimitReached(count: int, err: Option<Failure>)
    | Stopped                  // the error of the cancelled context
    | Pending

  /** The sleeps are those that ran out; last is what the component is afterwards. */
  datatype Run = Run(ends: seq<Ended>, sleeps: seq<int>, verdict: Verdict, last: Machine)

  function Wrap64(x: int): int { (x + TWO63) % (2 * TWO63) - TWO63 }

  function MinDuration(a: int, b: int): int { if a < b then a else b }

  /** The delay after one of the given length, doubled in 64 bits. */
  function NextDelay(delay: int, most: int): int { MinDuration(Wrap64(delay * 2), most) }

  /** What Run returns after a connection, unless it tries again; the last question is whether the
      context is cancelled while Run sleeps. */
  function Decide(cfg: Config, cancelled: bool, err: Option<Failure>, failed: int): Option<Verdict> {
    if err == Some(ContextDone) then Some(Stopped)
    else if err.Some? && err.value.Refused? then Some(Unregistered(err.value.got))
    else if !cfg.reconnect then Some(NotReconnecting(err))
    else if cfg.maxAttempts > 0 && failed >= cfg.maxAttempts then Some(LimitReached(failed, err))
    else if cancelled then Some(Stopped)
    else None
  }

  function RunFrom(cfg: Config, m: Machine, links: seq<Link>, attempts: int, delay: int): Run
    decreases |links|
  {
    if links == [] then Run([], [], Pending, m)
    else
      var e := Session(cfg.configId, m, links[0]);
      match Decide(cfg, links[0].cancel.Some?, e.failure, attempts + 1)
      case Some(v) => Run([e], [], v, e.conn.me)
      case None =>
        var rest := RunFrom(cfg, e.conn.me, links[1..], attempts + 1, NextDelay(delay, cfg.maxReconnectDelay));
        Run([e] + rest.ends, [delay] + rest.sleeps, rest.verdict, rest.last)
  }

  /** A run, with a context that may be cancelled before it begins. */
  function RunAll(cfg: Config, m: Machine, links: seq<Link>, cancelled: bool): Run {
    if cancelled then Run([], [], Stopped, m) else RunFrom(cfg, m, links, 0, cfg.reconnectDelay)
  }

  // ----- no clean exit -----

  lemma {:induction false} NoCleanExitFrom(cfg: Config, m: Machine, links: seq<Link>, attempts: int, delay: int)
    ensures var r := RunFrom(cfg, m, links, attempts, delay);
      && (r.verdict.NotReconnecting? <==>
            !cfg.reconnect && links != [] && !r.verdict.Unregistered? && !r.verdict.Stopped?)
      && (cfg.reconnect && cfg.maxAttempts <= 0 && !r.verdict.Unregistered? && !r.verdict.Stopped? ==>
            r.verdict == Pending)
      && (r.verdict == Pending ==> |r.ends| == |links|)
      && (cfg.maxAttempts > 0 && attempts < cfg.maxAttempts ==> attempts + |r.ends| <= cfg.maxAttempts)
    decreases |links|
  {
    hide Session;
    if links != [] {
      var e := Session(cfg.configId, m, links[0]);
      if Decide(cfg, links[0].cancel.Some?, e.failure, attempts + 1).None? {
        NoCleanExitFrom(cfg, e.conn.me, links[1..], attempts + 1, NextDelay(delay, cfg.maxReconnectDelay));
      }
    }
  }

  /** With reconnection on and no limit, a run that is neither refused registration nor cancelled
      connects to every link there is, however many sessions were shut down by the daemon; only
      with reconnection off does a SHUTDOWN make Run return nil. */
  lemma NoCleanExit(cfg: Config, m: Machine, links: seq<Link>, cancelled: bool)
    ensures var r := RunAll(cfg, m, links, cancelled);
      && (cfg.reconnect && cfg.maxAttempts <= 0 && !r.verdict.Unregistered? && !r.verdict.Stopped? ==>
            r.verdict == Pending && |r.ends| == |links|)
      && (r.verdict == NotReconnecting(None) <==>
            !cancelled && !cfg.reconnect && links != [] && Session(cfg.configId, m, links[0]).failure == None)
      && (cfg.maxAttempts > 0 ==> |r.ends| <= cfg.maxAttempts)
  {
    NoCleanExitFrom(cfg, m, links, 0, cfg.reconnectDelay);
    hide Session;
  }

  // ----- connection after connection -----

  /** What the component is when its i-th connection starts. */
  function Before(m: Machine, ends: seq<Ended>, i: nat): Machine
    requires i <= |ends|
  {
    if i == 0 then m else ends[i - 1].conn.me
  }

  /** Each connection is a session on its own link, started from what the one before left, and the
      run leaves what its last one left; a sleep runs out after every connection but the last, and
      after that too when the links are used up. */
  predicate Chained(configId: string, m: Machine, links: seq<Link>, r: Run) {
    && |r.ends| <= |links|
    && (forall i | 0 <= i < |r.ends| :: r.ends[i] == Session(configId, Before(m, r.ends, i), links[i]))
    && r.last == Before(m, r.ends, |r.ends|)
    && |r.sleeps| == (if r.verdict == Pending then |links| else |r.ends| - 1)
    && (r.verdict == Pending ==> |r.ends| == |links|)
  }

  lemma ChainedCons(configId: string, m: Machine, links: seq<Link>, e: Ended, delay: int, rest: Run)
    requires links != [] && e == Session(configId, m, links[0])
    requires Chained(configId, e.conn.me, links[1..], rest)
    ensures Chained(configId, m, links, Run([e] + rest.ends, [delay] + rest.sleeps, rest.verdict, rest.last))
  {
    var ends := [e] + rest.ends;
    hide Session;
    forall i | 0 <= i < |ends|
      ensures ends[i] == Session(configId, Before(m, ends, i), links[i])
    {
      if i > 0 {
        assert rest.ends[i - 1] == Session(configId, Before(e.conn.me, rest.ends, i - 1), links[1..][i - 1]);
      }
    }
  }

  /** A run that is already some failures in, and why it returns: what the last connection says, the
      configuration and the count of failures decide, in this order. Only a refusal is passed on
      whatever the configuration. */
  predicate Telling(cfg: Config, attempts: int, r: Run) {
    && (!cfg.reconnect ==> |r.ends| <= 1)
    && (r.ends != [] ==>
          var f, failed := r.ends[|r.ends| - 1].failure, attempts + |r.ends|;
          var retried := (f == None || !f.value.Refused?) && f != Some(ContextDone);
          var reached := cfg.maxAttempts > 0 && failed >= cfg.maxAttempts;
          && (forall c :: r.verdict == Unregistered(c) <==> f == Some(Refused(c)))
          && (r.verdict == NotReconnecting(f) <==> retried && !cfg.reconnect)
          && (r.verdict.NotReconnecting? ==> r.verdict.err == f)
          && (r.verdict.LimitReached? <==> retried && cfg.reconnect && reached)
          && (r.verdict.LimitReached? ==> r.verdict == LimitReached(failed, f))
          && (r.verdict == Pending ==> retried && cfg.reconnect && !reached))
  }

  lemma TellingCons(cfg: Config, attempts: int, e: Ended, delay: int, cancelled: bool, rest: Run)
    requires Telling(cfg, attempts + 1, rest) && (rest.ends == [] ==> rest.verdict == Pending)
    requires Decide(cfg, cancelled, e.failure, attempts + 1) == None
    ensures Telling(cfg, attempts, Run([e] + rest.ends, [delay] + rest.sleeps, rest.verdict, rest.last))
  {
    var ends := [e] + rest.ends;
    if rest.ends == [] {
      assert ends == [e];
    } else {
      assert ends[|ends| - 1] == rest.ends[|rest.ends| - 1];
    }
  }

  lemma {:induction false} RunTells(cfg: Config, m: Machine, links: seq<Link>, attempts: int, delay: int)
    ensures var r := RunFrom(cfg, m, links, attempts, delay);
      && Chained(cfg.configId, m, links, r) && Telling(cfg, attempts, r)
      && (r.ends == [] ==> r.verdict == Pending)
    decreases |links|
  {
    hide Session;
    if links != [] {
      var e := Session(cfg.configId, m, links[0]);
      var cancelled := links[0].cancel.Some?;
      if Decide(cfg, cancelled, e.failure, attempts + 1).None? {
        var next := NextDelay(delay, cfg.maxReconnectDelay);
        RunTells(cfg, e.conn.me, links[1..], attempts + 1, next);
        var rest := RunFrom(cfg, e.conn.me, links[1..], attempts + 1, next);
        ChainedCons(cfg.configId, m, links, e, delay, rest);
        TellingCons(cfg, attempts, e, delay, cancelled, rest);
        hide Chained, Telling;
      }
    }
  }

  // ----- cancellation -----

  /** A run that is already some failures in. It makes no connection after the one during which, or
      in the sleep after which, the context is cancelled. It returns the context's error just when
      that one is its last and either its message loop saw the cancellation or nothing else made
      Run return first. */
  predicate HeedsCancel(cfg: Config, links: seq<Link>, attempts: int, r: Run) {
    && |r.ends| <= |links|
    && (forall i | 0 <= i < |r.ends| - 1 :: links[i].cancel == None)
    && (r.verdict == Pending ==> forall i | 0 <= i < |links| :: links[i].cancel == None)
    && (r.ends == [] ==> r.verdict == Pending)
    && (r.ends != [] ==>
          var n := |r.ends|;
          var e := r.ends[n - 1];
          && r.last == e.conn.me
          && (r.verdict == Stopped <==>
                || e.failure == Some(ContextDone)
                || (links[n - 1].cancel.Some? && cfg.reconnect
                    && !(e.failure.Some? && e.failure.value.Refused?)
                    && !(cfg.maxAttempts > 0 && attempts + n >= cfg.maxAttempts))))
  }

  lemma HeedsCons(cfg: Config, links: seq<Link>, attempts: int, e: Ended, delay: int, rest: Run)
    requires links != [] && HeedsCancel(cfg, links[1..], attempts + 1, rest)
    requires Decide(cfg, links[0].cancel.Some?, e.failure, attempts + 1) == None
    requires rest.ends == [] ==> rest.last == e.conn.me
    ensures HeedsCancel(cfg, links, attempts, Run([e] + rest.ends, [delay] + rest.sleeps, rest.verdict, rest.last))
  {
    var ends := [e] + rest.ends;
    assert forall i | 1 <= i < |links| :: links[i] == links[1..][i - 1];
    if rest.ends == [] {
      assert ends == [e];
    } else {
      assert ends[|ends| - 1] == rest.ends[|rest.ends| - 1];
    }
  }

  lemma {:induction false} HeedsFrom(cfg: Config, m: Machine, links: seq<Link>, attempts: int, delay: int)
    ensures var r := RunFrom(cfg, m, links, attempts, delay);
      HeedsCancel(cfg, links, attempts, r) && (r.ends == [] ==> r.last == m)
    decreases |links|
  {
    hide Session;
    if links != [] {
      var e := Session(cfg.configId, m, links[0]);
      if Decide(cfg, links[0].cancel.Some?, e.failure, attempts + 1).None? {
        var next := NextDelay(delay, cfg.maxReconnectDelay);
        HeedsFrom(cfg, e.conn.me, links[1..], attempts + 1, next);
        HeedsCons(cfg, links, attempts, e, delay, RunFrom(cfg, e.conn.me, links[1..], attempts + 1, next));
        hide HeedsCancel;
      }
    }
  }

  /** Cancellation ends a run: before it begins, without a connection and without a change; otherwise
      at the connection during which it comes. */
  lemma Cancellation(cfg: Config, m: Machine, links: seq<Link>, cancelled: bool)
    ensures var r := RunAll(cfg, m, links, cancelled);
      && (cancelled ==> r == Run([], [], Stopped, m))
      && (!cancelled ==> HeedsCancel(cfg, links, 0, r))
  {
    HeedsFrom(cfg, m, links, 0, cfg.reconnectDelay);
  }

  // ----- backoff -----

  /** The doubling of a delay is exact just below 2^62, and delays then stay below 2^63. */
  lemma ExactDoubling(delay: nat, most: nat)
    requires delay < 0x8000_0000_0000_0000 && most < 0x8000_0000_0000_0000
    ensures Wrap64(delay * 2) == delay * 2 <==> delay < 0x4000_0000_0000_0000
    ensures NextDelay(delay, most) == Backoff.Next(delay, most) <==> delay < 0x4000_0000_0000_0000
    ensures delay < 0x4000_0000_0000_0000 ==> 0 <= NextDelay(delay, most) < 0x8000_0000_0000_0000
  {
  }

  /** From 2^62 on, the next delay is negative. */
  lemma Overflow(delay: nat, most: nat)
    requires 0x4000_0000_0000_0000 <= delay < 0x8000_0000_0000_0000 && most < 0x8000_0000_0000_0000
    ensures NextDelay(delay, most) == delay * 2 - 2 * 0x8000_0000_0000_0000 < 0
  {
  }

  /** All but the last of n sleeps that start with the j-th delay are below 2^62. */
  predicate Fits(first: nat, most: nat, j: nat, n: nat) {
    forall k | j <= k < j + n - 1 :: Backoff.Delay(first, most, k) < TWO62
  }

  lemma FitsCons(first: nat, most: nat, j: nat, n: nat)
    requires n > 0
    ensures Fits(first, most, j, n + 1) <==> Backoff.Delay(first, most, j) < TWO62 && Fits(first, most, j + 1, n)
  {
    hide Backoff.Delay;
  }

  /** The tail of sleeps that follow the closed form follows it too. */
  lemma FollowTail(first: nat, most: nat, j: nat, sleeps: seq<int>)
    requires sleeps != []
    ensures Backoff.FollowFrom(first, most, j, sleeps) <==>
      sleeps[0] == Backoff.Delay(first, most, j) && Backoff.FollowFrom(first, most, j + 1, sleeps[1..])
  {
    hide Backoff.Delay;
    if sleeps[0] == Backoff.Delay(first, most, j) && Backoff.FollowFrom(first, most, j + 1, sleeps[1..]) {
      assert sleeps == [Backoff.Delay(first, most, j)] + sleeps[1..];
      Backoff.FollowCons(first, most, j, sleeps[1..]);
    }
    if Backoff.FollowFrom(first, most, j, sleeps) {
      assert sleeps[0] == Backoff.Delay(first, most, j + 0);
      forall k | 0 <= k < |sleeps[1..]|
        ensures sleeps[1..][k] == Backoff.Delay(first, most, j + 1 + k)
      {
        assert sleeps[k + 1] == Backoff.Delay(first, most, j + (k + 1));
      }
    }
  }

  lemma FirstSleep(cfg: Config, m: Machine, links: seq<Link>, attempts: int, delay: int)
    ensures var sleeps := RunFrom(cfg, m, links, attempts, delay).sleeps; sleeps != [] ==> sleeps[0] == delay
  {
    hide Session;
  }

  lemma {:induction false} SleepsFrom(cfg: Config, m: Machine, links: seq<Link>, attempts: int, j: nat)
    requires 0 <= cfg.reconnectDelay < TWO63 && 0 <= cfg.maxReconnectDelay < TWO63
    requires Backoff.Delay(cfg.reconnectDelay, cfg.maxReconnectDelay, j) < TWO63
    ensures var first, most := cfg.reconnectDelay, cfg.maxReconnectDelay;
      var sleeps := RunFrom(cfg, m, links, attempts, Backoff.Delay(first, most, j)).sleeps;
      Backoff.FollowFrom(first, most, j, sleeps) <==> Fits(first, most, j, |sleeps|)
    decreases |links|
  {
    hide Session;
    var first, most := cfg.reconnectDelay, cfg.maxReconnectDelay;
    var delay := Backoff.Delay(first, most, j);
    var sleeps := RunFrom(cfg, m, links, attempts, delay).sleeps;
    if sleeps != [] {
      var me, next := Session(cfg.configId, m, links[0]).conn.me, NextDelay(delay, most);
      var rest := RunFrom(cfg, me, links[1..], attempts + 1, next).sleeps;
      assert sleeps == [delay] + rest && sleeps[1..] == rest;
      FirstSleep(cfg, me, links[1..], attempts + 1, next);
      ExactDoubling(delay, most);
      Backoff.NextDelay(first, most, j);
      FollowTail(first, most, j, sleeps);
      hide RunFrom, NextDelay, Backoff.Delay, Backoff.FollowFrom, Fits;
      if rest == [] {
        OneSleep(first, most, j);
      } else {
        FitsCons(first, most, j, |rest|);
        FollowTail(first, most, j + 1, rest);
        if delay < TWO62 {
          SleepsFrom(cfg, me, links[1..], attempts + 1, j + 1);
        }
      }
    } else {
      NoSleep(first, most, j);
    }
  }

  lemma OneSleep(first: nat, most: nat, j: nat)
    ensures Backoff.FollowFrom(first, most, j + 1, []) && Fits(first, most, j, 1)
  {
  }

  lemma NoSleep(first: nat, most: nat, j: nat)
    ensures Backoff.FollowFrom(first, most, j, []) && Fits(first, most, j, 0)
  {
  }

  /** The sleeps of a run follow the closed form over unbounded integers just when that form puts
      every sleep but the last below 2^62; a session that succeeded resets nothing. */
  lemma SleepsFollowExactly(cfg: Config, m: Machine, links: seq<Link>, cancelled: bool)
    requires 0 <= cfg.reconnectDelay < 0x8000_0000_0000_0000 && 0 <= cfg.maxReconnectDelay < 0x8000_0000_0000_0000
    ensures var sleeps := RunAll(cfg, m, links, cancelled).sleeps;
      Backoff.Follow(cfg.reconnectDelay, cfg.maxReconnectDelay, sleeps) <==>
        forall k | 0 <= k < |sleeps| - 1 ::
          Backoff.Delay(cfg.reconnectDelay, cfg.maxReconnectDelay, k) < 0x4000_0000_0000_0000
  {
    SleepsFrom(cfg, m, links, 0, 0);
    hide RunFrom, Backoff.Delay;
  }

  lemma DelayBelow(first: nat, most: nat, k: nat)
    requires first < TWO62 && most < TWO62
    ensures Backoff.Delay(first, most, k) < TWO62
  {
  }

  /** So with both delays below 2^62 no doubling of a run ever overflows. */
  lemma SleepsFollow(cfg: Config, m: Machine, links: seq<Link>, cancelled: bool)
    requires 0 <= cfg.reconnectDelay < 0x4000_0000_0000_0000 && 0 <= cfg.maxReconnectDelay < 0x4000_0000_0000_0000
    ensures Backoff.Follow(cfg.reconnectDelay, cfg.maxReconnectDelay, RunAll(cfg, m, links, cancelled).sleeps)
  {
    SleepsFollowExactly(cfg, m, links, cancelled);
    forall k: nat
      ensures Backoff.Delay(cfg.reconnectDelay, cfg.maxReconnectDelay, k) < TWO62
    {
      DelayBelow(cfg.reconnectDelay, cfg.maxReconnectDelay, k);
    }
    hide RunAll, Backoff.Delay, Backoff.Follow;
  }
}
