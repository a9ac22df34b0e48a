/** The Rust client over a whole run: connection after connection, with sleeps between. */
module RustRun {
  import opened Protocol
  import opened RustSession
  import Backoff

  const U32 := 0x1_0000_0000

  /** maxAttempts 0 means no limit; envId is AEGIS_COMPONENT_ID or empty. */
  datatype Config = Config(
    reconnect: bool, firstDelay: nat, maxDelay: nat, maxAttempts: nat, envId: string)

  /** What run returned, or that it is still retrying when the given links are used up. */
  datatype Verdict = Returned | GaveUp(error: AegisError) | Crashed | Pending

  /** The connections a run made, how each ended, and the sleeps between them. */
  datatype Run = Run(ends: seq<Ended>, sleeps: seq<nat>, verdict: Verdict, last: Machine)

  /** Whether an end is followed by another attempt if the configuration allows it. */
  predicate Retryable(o: Outcome) { o.Failed? && !o.error.Registration? }

  predicate AllRetryable(ends: seq<Ended>) {
    forall i | 0 <= i < |ends| :: Retryable(ends[i].outcome)
  }

  predicate LimitReached(v: Verdict) {
    v.GaveUp? && v.error.Connection? && v.error.why.MaxAttempts?
  }

  /** What run returns after a connection, unless it tries again. */
  function Decide(cfg: Config, o: Outcome, failed: nat): Option<Verdict> {
    if o == Clean then Some(Returned)
    else if o == Panicked then Some(Crashed)
    else if !Retryable(o) then Some(GaveUp(o.error))
    else if !cfg.reconnect then Some(GaveUp(Connection(ReconnectDisabled)))
    else if cfg.maxAttempts > 0 && failed >= cfg.maxAttempts then Some(GaveUp(Connection(MaxAttempts(failed))))
    else None
  }

  /** A run that has failed some attempts, the last of which left m and the next delay. */
  function RunFrom(cfg: Config, m: Machine, links: seq<Link>, attempts: nat, delay: nat): Run
    decreases |links|
  {
    if links == [] then Run([], [], Pending, m)
    else
      var e := Session(cfg.envId, m, links[0]);
      var failed := (attempts + 1) % U32;
      match Decide(cfg, e.outcome, failed)
      case Some(v) => Run([e], [], v, e.conn.me)
      case None =>
        var rest := RunFrom(cfg, e.conn.me, links[1..], failed, Backoff.Next(delay, cfg.maxDelay));
        Run([e] + rest.ends, [delay] + rest.sleeps, rest.verdict, rest.last)
  }

  function RunAll(cfg: Config, m: Machine, links: seq<Link>): Run {
    RunFrom(cfg, m, links, 0, cfg.firstDelay)
  }

  /** What the component is when its i-th connection starts. */
  function Before(m: Machine, ends: seq<Ended>, i: nat): Machine
    requires i <= |ends|
  {
    if i == 0 then m else ends[i - 1].conn.me
  }

  /** Each connection is a session on its own link, started from what the one before left. */
  predicate Chained(envId: string, m: Machine, links: seq<Link>, ends: seq<Ended>) {
    && |ends| <= |links|
    && forall i | 0 <= i < |ends| :: ends[i] == Session(envId, Before(m, ends, i), links[i])
  }

  lemma ChainedCons(envId: string, m: Machine, links: seq<Link>, e: Ended, rest: seq<Ended>)
    requires links != [] && e == Session(envId, m, links[0])
    requires Chained(envId, e.conn.me, links[1..], rest)
    ensures Chained(envId, m, links, [e] + rest)
  {
    var ends := [e] + rest;
    hide Session;
    forall i | 0 <= i < |ends|
      ensures ends[i] == Session(envId, Before(m, ends, i), links[i])
    {
      if i > 0 {
        assert rest[i - 1] == Session(envId, Before(e.conn.me, rest, i - 1), links[1..][i - 1]);
      }
    }
  }

  /** A run is a chain of sessions of which all but the last failed in a way that is retried; the
      last is too when the run is pending. The run leaves what its last session left. */
  predicate WellRun(cfg: Config, m: Machine, links: seq<Link>, r: Run) {
    Chained(cfg.envId, m, links, r.ends) && Concluded(m, |links|, r)
  }

  predicate Concluded(m: Machine, available: nat, r: Run) {
    && (forall i | 0 <= i < |r.ends| - 1 :: Retryable(r.ends[i].outcome))
    && r.last == Before(m, r.ends, |r.ends|)
    && (r.verdict == Pending ==> r.ends == [] || Retryable(r.ends[|r.ends| - 1].outcome))
    && (r.verdict == Pending ==> |r.ends| == available && |r.sleeps| == |r.ends|)
    && (r.verdict != Pending ==> |r.sleeps| + 1 == |r.ends|)
    && (r.verdict == Returned <==> r.ends != [] && r.ends[|r.ends| - 1].outcome == Clean)
  }

  lemma ConcludedCons(m: Machine, available: nat, e: Ended, rest: Run, delay: nat)
    requires Retryable(e.outcome) && Concluded(e.conn.me, available, rest)
    ensures Concluded(m, available + 1, Run([e] + rest.ends, [delay] + rest.sleeps, rest.verdict, rest.last))
  {
    var ends := [e] + rest.ends;
    if rest.ends == [] {
      assert ends == [e];
    } else {
      assert ends[|ends| - 1] == rest.ends[|rest.ends| - 1];
    }
    assert forall i | 1 <= i < |ends| :: ends[i] == rest.ends[i - 1];
  }

  lemma WellRunCons(cfg: Config, m: Machine, links: seq<Link>, rest: Run, delay: nat)
    requires links != []
    requires var e := Session(cfg.envId, m, links[0]);
      Retryable(e.outcome) && WellRun(cfg, e.conn.me, links[1..], rest)
    ensures var e := Session(cfg.envId, m, links[0]);
      WellRun(cfg, m, links, Run([e] + rest.ends, [delay] + rest.sleeps, rest.verdict, rest.last))
  {
    var e := Session(cfg.envId, m, links[0]);
    ChainedCons(cfg.envId, m, links, e, rest.ends);
    ConcludedCons(m, |links[1..]|, e, rest, delay);
    hide Session, Chained, Concluded, Retryable;
  }

  lemma {:induction false} RunIsChain(cfg: Config, m: Machine, links: seq<Link>, attempts: nat, delay: nat)
    ensures WellRun(cfg, m, links, RunFrom(cfg, m, links, attempts, delay))
    decreases |links|
  {
    hide Session;
    if links != [] {
      var e := Session(cfg.envId, m, links[0]);
      var failed := (attempts + 1) % U32;
      if Decide(cfg, e.outcome, failed).None? {
        var next := Backoff.Next(delay, cfg.maxDelay);
        RunIsChain(cfg, e.conn.me, links[1..], failed, next);
        WellRunCons(cfg, m, links, RunFrom(cfg, e.conn.me, links[1..], failed, next), delay);
        hide WellRun;
      }
    }
  }

  /** A run that is already some failures in: what it says about itself is what its last connection
      says. A panic and a refused registration are passed on whatever the configuration. A failure
      of any other kind ends the run with one of two errors, and never with its own: that
      reconnection is disabled, or that the 32-bit count of failures reached the limit. */
  predicate Telling(cfg: Config, attempts: nat, r: Run) {
    && (!cfg.reconnect ==> |r.ends| <= 1)
    && (r.ends == [] ==> r.verdict == Pending)
    && (r.ends != [] ==>
          var o, failed := r.ends[|r.ends| - 1].outcome, (attempts + |r.ends|) % U32;
          var reached := cfg.maxAttempts > 0 && failed >= cfg.maxAttempts;
          && (r.verdict == Returned <==> o == Clean)
          && (r.verdict == Crashed <==> o == Panicked)
          && (forall c :: r.verdict == GaveUp(Registration(c)) <==> o == Failed(Registration(c)))
          && (r.verdict == GaveUp(Connection(ReconnectDisabled)) <==> Retryable(o) && !cfg.reconnect)
          && (LimitReached(r.verdict) <==> Retryable(o) && cfg.reconnect && reached)
          && (LimitReached(r.verdict) ==> r.verdict.error.why.count == failed)
          && (r.verdict == Pending <==> Retryable(o) && cfg.reconnect && !reached)
          && (r.verdict.GaveUp? ==>
                || r.verdict.error.Registration?
                || r.verdict == GaveUp(Connection(ReconnectDisabled))
                || LimitReached(r.verdict)))
  }

  lemma WrapStep(attempts: nat, n: nat)
    ensures ((attempts + 1) % U32 + n) % U32 == (attempts + (n + 1)) % U32
  {
  }

  lemma {:induction false} VerdictTells(cfg: Config, m: Machine, links: seq<Link>, attempts: nat, delay: nat)
    ensures Telling(cfg, attempts, RunFrom(cfg, m, links, attempts, delay))
    decreases |links|
  {
    hide Session;
    if links != [] {
      var e := Session(cfg.envId, m, links[0]);
      var failed := (attempts + 1) % U32;
      if Decide(cfg, e.outcome, failed).None? {
        var next := Backoff.Next(delay, cfg.maxDelay);
        VerdictTells(cfg, e.conn.me, links[1..], failed, next);
        var rest := RunFrom(cfg, e.conn.me, links[1..], failed, next);
        WrapStep(attempts, |rest.ends|);
        hide RunFrom;
        TellingCons(cfg, attempts, e, delay, rest);
      }
    }
  }

  lemma TellingCons(cfg: Config, attempts: nat, e: Ended, delay: nat, rest: Run)
    requires Telling(cfg, (attempts + 1) % U32, rest)
    requires Decide(cfg, e.outcome, (attempts + 1) % U32) == None
    ensures Telling(cfg, attempts, Run([e] + rest.ends, [delay] + rest.sleeps, rest.verdict, rest.last))
  {
    WrapStep(attempts, |rest.ends|);
    var ends := [e] + rest.ends;
    if rest.ends == [] {
      assert ends == [e];
    } else {
      assert ends[|ends| - 1] == rest.ends[|rest.ends| - 1];
    }
  }

  // ----- backoff -----

  lemma {:induction false} SleepsFrom(cfg: Config, m: Machine, links: seq<Link>, attempts: nat, j: nat)
    ensures Backoff.FollowFrom(cfg.firstDelay, cfg.maxDelay, j,
              RunFrom(cfg, m, links, attempts, Backoff.Delay(cfg.firstDelay, cfg.maxDelay, j)).sleeps)
    decreases |links|
  {
    hide Session;
    if links != [] {
      var e := Session(cfg.envId, m, links[0]);
      var failed := (attempts + 1) % U32;
      var delay := Backoff.Delay(cfg.firstDelay, cfg.maxDelay, j + 1);
      Backoff.NextDelay(cfg.firstDelay, cfg.maxDelay, j);
      SleepsFrom(cfg, e.conn.me, links[1..], failed, j + 1);
      Backoff.FollowCons(cfg.firstDelay, cfg.maxDelay, j, RunFrom(cfg, e.conn.me, links[1..], failed, delay).sleeps);
    }
  }

  /** Every sleep of a run follows the closed form; the delay is never reset. */
  lemma SleepsFollow(cfg: Config, m: Machine, links: seq<Link>)
    ensures Backoff.Follow(cfg.firstDelay, cfg.maxDelay, RunAll(cfg, m, links).sleeps)
  {
    SleepsFrom(cfg, m, links, 0, 0);
    assert Backoff.Delay(cfg.firstDelay, cfg.maxDelay, 0) == cfg.firstDelay;
  }

  // ----- retries -----

  /** What a limit on attempts means for a run that is already some failures in. */
  predicate Bounded(cfg: Config, available: nat, attempts: nat, r: Run) {
    && attempts + |r.ends| <= cfg.maxAttempts
    && attempts + |r.sleeps| < cfg.maxAttempts
    && (attempts + available >= cfg.maxAttempts ==> r.verdict != Pending)
    && (LimitReached(r.verdict) ==> r.verdict.error.why.count == cfg.maxAttempts)
    && (LimitReached(r.verdict) <==>
          && cfg.reconnect && attempts + |r.ends| == cfg.maxAttempts && r.ends != []
          && Retryable(r.ends[|r.ends| - 1].outcome))
  }

  lemma {:induction false} RetriesFrom(cfg: Config, m: Machine, links: seq<Link>, attempts: nat, delay: nat)
    requires 0 < cfg.maxAttempts < U32 && attempts < cfg.maxAttempts
    ensures Bounded(cfg, |links|, attempts, RunFrom(cfg, m, links, attempts, delay))
    decreases |links|
  {
    hide Session;
    if links != [] {
      var e := Session(cfg.envId, m, links[0]);
      assert (attempts + 1) % U32 == attempts + 1;
      if Retryable(e.outcome) && cfg.reconnect && attempts + 1 < cfg.maxAttempts {
        RetriesFrom(cfg, e.conn.me, links[1..], attempts + 1, Backoff.Next(delay, cfg.maxDelay));
      }
    }
  }

  lemma AllRetryableIff(cfg: Config, m: Machine, links: seq<Link>, r: Run)
    requires WellRun(cfg, m, links, r)
    ensures AllRetryable(r.ends) <==> r.ends == [] || Retryable(r.ends[|r.ends| - 1].outcome)
  {
    hide Chained, Session, Retryable;
  }

  /** With a limit of M attempts a run opens at most M connections and sleeps less often, ends
      within any M links, and reports that the limit was reached, naming M itself, just when
      reconnection is on and M connections failed, none at registration. */
  lemma RetryBound(cfg: Config, m: Machine, links: seq<Link>, r: Run)
    requires 0 < cfg.maxAttempts < 0x1_0000_0000 && r == RunAll(cfg, m, links)
    ensures |r.ends| <= cfg.maxAttempts && |r.sleeps| < cfg.maxAttempts
    ensures |links| >= cfg.maxAttempts ==> r.verdict != Pending
    ensures LimitReached(r.verdict) ==> r.verdict.error.why.count == cfg.maxAttempts
    ensures LimitReached(r.verdict) <==> cfg.reconnect && |r.ends| == cfg.maxAttempts && AllRetryable(r.ends)
  {
    RetriesFrom(cfg, m, links, 0, cfg.firstDelay);
    RunIsChain(cfg, m, links, 0, cfg.firstDelay);
    hide RunFrom, WellRun, Bounded, AllRetryable, LimitReached;
    AllRetryableIff(cfg, m, links, r);
    BoundedFromStart(cfg, |links|, r);
  }

  lemma BoundedFromStart(cfg: Config, available: nat, r: Run)
    requires Bounded(cfg, available, 0, r) && cfg.maxAttempts > 0
    requires AllRetryable(r.ends) <==> r.ends == [] || Retryable(r.ends[|r.ends| - 1].outcome)
    ensures |r.ends| <= cfg.maxAttempts && |r.sleeps| < cfg.maxAttempts
    ensures available >= cfg.maxAttempts ==> r.verdict != Pending
    ensures LimitReached(r.verdict) ==> r.verdict.error.why.count == cfg.maxAttempts
    ensures LimitReached(r.verdict) <==> cfg.reconnect && |r.ends| == cfg.maxAttempts && AllRetryable(r.ends)
  {
    hide AllRetryable, Retryable;
  }
}
