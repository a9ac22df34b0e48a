/** The reconnection loop of the Python client, whose delay starts over after each session that
    signalled READY. */
module PythonRun {
  import opened Protocol
  import Backoff

  datatype Config = Config(reconnect: bool, firstDelay: nat, maxDelay: nat, maxAttempts: nat)

  /** How a stage of an iteration goes: well, with an OSError, or with any other exception. */
  datatype Stage = Fine | OsError | Raises

  /** One iteration, as its environment decides it; refused is a RegistrationError, and left is the
      state in which a message loop that raises leaves the component. */
  datatype Iteration = Iteration(
    connect: Stage, refused: bool, register: Stage,
    sendInitializing: Stage, recvAck: Stage, sendReady: Stage, messageLoop: Stage, left: ComponentState)

  datatype End = Retry | Refusal | Uncaught

  datatype Verdict = Refused | NoReconnect | MaxReached(count: nat) | Propagated | Pending

  datatype Run = Run(sleeps: seq<nat>, used: nat, verdict: Verdict)

  /** The stages before the message loop, in order. */
  function Prelude(it: Iteration): seq<Stage> {
    [it.connect, it.register, it.sendInitializing, it.recvAck, it.sendReady]
  }

  /** The first stage that does not go well, if any does not. */
  function FirstTrouble(stages: seq<Stage>): Stage {
    if stages == [] then Fine else if stages[0] != Fine then stages[0] else FirstTrouble(stages[1..])
  }

  /** _signal_ready was reached and completed. */
  predicate Completed(it: Iteration) {
    !it.refused && FirstTrouble(Prelude(it)) == Fine
  }

  function EndOf(it: Iteration): End {
    if it.connect == Fine && it.refused then Refusal
    else if FirstTrouble(Prelude(it) + [it.messageLoop]) == Raises then Uncaught
    else Retry
  }

  /** The state after an iteration that starts in s: as far as its stages got. */
  function StateAfter(it: Iteration, s: ComponentState): ComponentState {
    if it.connect != Fine || it.refused || it.register != Fine then s
    else if it.sendInitializing != Fine then ComponentState.Registered
    else if it.recvAck != Fine || it.sendReady != Fine then Initializing
    else if it.messageLoop != Fine then it.left
    else ComponentState.Shutdown
  }

  function StateThrough(its: seq<Iteration>, s: ComponentState): ComponentState {
    if its == [] then s else StateAfter(its[|its| - 1], StateThrough(its[..|its| - 1], s))
  }

  lemma StateSnoc(its: seq<Iteration>, n: nat, s: ComponentState)
    requires n < |its|
    ensures StateThrough(its[..n + 1], s) == StateAfter(its[n], StateThrough(its[..n], s))
  {
    assert its[..n + 1][..n] == its[..n];
  }

  function RunFrom(cfg: Config, its: seq<Iteration>, attempts: nat, delay: nat): Run
    decreases |its|
  {
    if its == [] then Run([], 0, Pending)
    else match EndOf(its[0])
      case Uncaught => Run([], 1, Propagated)
      case Refusal => Run([], 1, Refused)
      case Retry =>
        var delay' := if Completed(its[0]) then cfg.firstDelay else delay;
        if !cfg.reconnect then Run([], 1, NoReconnect)
        else if cfg.maxAttempts > 0 && attempts + 1 >= cfg.maxAttempts then Run([], 1, MaxReached(attempts + 1))
        else
          var rest := RunFrom(cfg, its[1..], attempts + 1, Backoff.Next(delay', cfg.maxDelay));
          Run([delay'] + rest.sleeps, 1 + rest.used, rest.verdict)
  }

  // ----- the loop as it is written -----

  class AegisComponent {
    const cfg: Config
    var state: ComponentState
    var running: bool

    constructor (cfg: Config)
      ensures this.cfg == cfg && state == Init && !running
    {
      this.cfg, state, running := cfg, Init, false;
    }

    method SignalReady(it: Iteration) returns (s: Stage)
      modifies this`state
      ensures s == FirstTrouble([it.sendInitializing, it.recvAck, it.sendReady])
      ensures state == if it.sendInitializing != Fine then old(state) else if s != Fine then Initializing else Ready
    {
      FirstOfThree(it.sendInitializing, it.recvAck, it.sendReady);
      if it.sendInitializing != Fine {
        return it.sendInitializing;
      }
      state := Initializing;
      if it.recvAck != Fine {
        return it.recvAck;
      }
      if it.sendReady != Fine {
        return it.sendReady;
      }
      state := Ready;
      return Fine;
    }

    /** The body of the try statement, and its finally clause. */
    method Iterate(it: Iteration, delay: nat) returns (end: End, next: nat)
      modifies this
      ensures end == EndOf(it) && !running && state == StateAfter(it, old(state))
      ensures next == if Completed(it) then cfg.firstDelay else delay
    {
      next := delay;
      StagesInOrder(it);
      FirstOfThree(it.sendInitializing, it.recvAck, it.sendReady);
      running := false;
      if it.connect != Fine {
        return if it.connect == Raises then Uncaught else Retry, delay;
      }
      if it.refused {
        return Refusal, delay;
      }
      if it.register != Fine {
        return if it.register == Raises then Uncaught else Retry, delay;
      }
      state := ComponentState.Registered;
      var s := SignalReady(it);
      if s != Fine {
        return if s == Raises then Uncaught else Retry, delay;
      }
      running := true;
      next := cfg.firstDelay;
      state := if it.messageLoop == Fine then ComponentState.Shutdown else it.left;
      running := false;
      end := if it.messageLoop == Raises then Uncaught else Retry;
    }

    method Run(its: seq<Iteration>) returns (verdict: Verdict, sleeps: seq<nat>)
      modifies this
      ensures var r := RunFrom(cfg, its, 0, cfg.firstDelay);
        && verdict == r.verdict && sleeps == r.sleeps
        && r.used <= |its| && state == StateThrough(its[..r.used], old(state))
    {
      var attempts: nat, delay: nat, n: nat := 0, cfg.firstDelay, 0;
      sleeps := [];
      assert its[..0] == [];
      assert its[0..] == its;
      assert [] + RunFrom(cfg, its, 0, cfg.firstDelay).sleeps == RunFrom(cfg, its, 0, cfg.firstDelay).sleeps;
      hide EndOf, Completed, StateAfter, StateThrough;
      while true
        invariant n <= |its|
        invariant var r := RunFrom(cfg, its[n..], attempts, delay);
          var all := RunFrom(cfg, its, 0, cfg.firstDelay);
          all.verdict == r.verdict && all.sleeps == sleeps + r.sleeps && all.used == n + r.used
        invariant state == StateThrough(its[..n], old(state))
        decreases |its| - n
      {
        assert sleeps + [] == sleeps;
        if n == |its| {
          return Pending, sleeps;
        }
        assert its[n..][0] == its[n] && its[n..][1..] == its[n + 1..];
        StateSnoc(its, n, old(state));
        var end;
        end, delay := Iterate(its[n], delay);
        match end {
          case Uncaught =>
            return Propagated, sleeps;
          case Refusal =>
            return Refused, sleeps;
          case Retry =>
        }
        if !cfg.reconnect {
          return NoReconnect, sleeps;
        }
        attempts := attempts + 1;
        if cfg.maxAttempts > 0 && attempts >= cfg.maxAttempts {
          return MaxReached(attempts), sleeps;
        }
        Assoc(sleeps, [delay], RunFrom(cfg, its[n + 1..], attempts, Backoff.Next(delay, cfg.maxDelay)).sleeps);
        sleeps := sleeps + [delay];
        delay := Backoff.Next(delay, cfg.maxDelay);
        n := n + 1;
      }
    }
  }

  lemma FirstOfThree(a: Stage, b: Stage, c: Stage)
    ensures FirstTrouble([a, b, c]) == if a != Fine then a else if b != Fine then b else c
  {
    assert [a, b, c][1..] == [b, c] && [b, c][1..] == [c];
    FirstTroubleOne(c);
  }

  lemma FirstTroubleOne(s: Stage)
    ensures FirstTrouble([s]) == s
  {
    assert [s][1..] == [];
  }

  lemma FirstTroubleCons(s: Stage, stages: seq<Stage>)
    ensures FirstTrouble([s] + stages) == if s != Fine then s else FirstTrouble(stages)
  {
    ConsTail(s, stages);
  }

  /** What an iteration comes to, stage by stage. */
  lemma StagesInOrder(it: Iteration)
    ensures FirstTrouble(Prelude(it) + [it.messageLoop]) ==
      if it.connect != Fine then it.connect
      else if it.register != Fine then it.register
      else
        var s := FirstTrouble([it.sendInitializing, it.recvAck, it.sendReady]);
        if s != Fine then s else it.messageLoop
    ensures Completed(it) <==>
      && !it.refused && it.connect == Fine && it.register == Fine
      && FirstTrouble([it.sendInitializing, it.recvAck, it.sendReady]) == Fine
  {
    var signal := [it.sendInitializing, it.recvAck, it.sendReady];
    assert Prelude(it) + [it.messageLoop] == [it.connect] + ([it.register] + (signal + [it.messageLoop]));
    FirstTroubleCons(it.connect, [it.register] + (signal + [it.messageLoop]));
    FirstTroubleCons(it.register, signal + [it.messageLoop]);
    FirstOfThree(it.sendInitializing, it.recvAck, it.sendReady);
    assert signal + [it.messageLoop] == [it.sendInitializing] + ([it.recvAck] + ([it.sendReady] + [it.messageLoop]));
    FirstTroubleCons(it.sendInitializing, [it.recvAck] + ([it.sendReady] + [it.messageLoop]));
    FirstTroubleCons(it.recvAck, [it.sendReady] + [it.messageLoop]);
    FirstTroubleCons(it.sendReady, [it.messageLoop]);
    FirstTroubleOne(it.messageLoop);
    assert Prelude(it) == [it.connect] + ([it.register] + signal);
    FirstTroubleCons(it.connect, [it.register] + signal);
    FirstTroubleCons(it.register, signal);
  }

  // ----- how iterations and runs end -----

  /** The stages of an iteration, in the order in which they are tried. */
  function Stages(it: Iteration): seq<Stage> {
    [it.connect, it.register, it.sendInitializing, it.recvAck, it.sendReady, it.messageLoop]
  }

  /** The k-th stage is the first that does not go well, and no refusal comes before it. */
  predicate TroubleAt(it: Iteration, k: nat) {
    && k < 6 && Stages(it)[k] != Fine && (forall j | 0 <= j < k :: Stages(it)[j] == Fine)
    && (k > 0 ==> !it.refused)
  }

  predicate NoTrouble(it: Iteration) {
    !it.refused && forall k | 0 <= k < 6 :: Stages(it)[k] == Fine
  }

  /** An exception that run does not catch: what goes wrong first is no OSError. */
  predicate Escapes(it: Iteration) { exists k | 0 <= k < 6 :: TroubleAt(it, k) && Stages(it)[k] == Raises }

  /** The daemon refused the registration. */
  predicate TurnedAway(it: Iteration) { it.connect == Fine && it.refused }

  /** What goes wrong first is an OSError, or nothing is and the message loop returns. */
  predicate Disconnects(it: Iteration) {
    NoTrouble(it) || exists k | 0 <= k < 6 :: TroubleAt(it, k) && Stages(it)[k] == OsError
  }

  /** The first stage that does not go well, if any does not, with nothing refused before it. */
  lemma {:induction false} FirstTroubleIs(stages: seq<Stage>)
    ensures match FirstTrouble(stages)
      case Fine => forall k | 0 <= k < |stages| :: stages[k] == Fine
      case s => exists k | 0 <= k < |stages| :: stages[k] == s && forall j | 0 <= j < k :: stages[j] == Fine
  {
    if stages != [] && stages[0] == Fine {
      FirstTroubleIs(stages[1..]);
      if FirstTrouble(stages) != Fine {
        var k :| 0 <= k < |stages[1..]| && stages[1..][k] == FirstTrouble(stages)
          && forall j | 0 <= j < k :: stages[1..][j] == Fine;
        assert stages[k + 1] == FirstTrouble(stages);
        assert forall j | 1 <= j < k + 1 :: stages[j] == stages[1..][j - 1];
      } else {
        assert forall j | 1 <= j < |stages| :: stages[j] == stages[1..][j - 1];
      }
    }
  }

  /** The stages of an iteration have one first trouble. */
  lemma OneTrouble(it: Iteration, j: nat, k: nat)
    requires TroubleAt(it, j) && TroubleAt(it, k)
    ensures j == k
  {
  }

  /** Just one of the three holds of an iteration, and it tells how the iteration ends. */
  lemma EndTells(it: Iteration)
    ensures EndOf(it) == Uncaught <==> Escapes(it)
    ensures EndOf(it) == Refusal <==> TurnedAway(it)
    ensures EndOf(it) == Retry <==> Disconnects(it)
  {
    var stages := Stages(it);
    FirstTroubleIs(stages);
    assert Prelude(it) + [it.messageLoop] == stages;
    hide FirstTrouble;
    if FirstTrouble(stages) == Fine {
      assert stages[0] == Fine;
    } else {
      var k :| 0 <= k < |stages| && stages[k] == FirstTrouble(stages) && forall j | 0 <= j < k :: stages[j] == Fine;
      assert stages[0] == it.connect;
      assert it.connect == Fine <==> k > 0;
      if k == 0 || !it.refused {
        assert TroubleAt(it, k);
        forall j: nat | TroubleAt(it, j)
          ensures j == k
        {
          OneTrouble(it, j, k);
        }
      }
    }
  }

  /** READY is signalled just when the first five stages go well and nothing is refused. */
  lemma CompletedTells(it: Iteration)
    ensures Completed(it) <==> !it.refused && forall k | 0 <= k < 5 :: Stages(it)[k] == Fine
  {
    FirstTroubleIs(Prelude(it));
    assert forall k | 0 <= k < 5 :: Prelude(it)[k] == Stages(it)[k];
    hide FirstTrouble;
  }

  /** The state after an iteration, told of what goes wrong first: nothing changes before the daemon
      has answered; then it is REGISTERED, INITIALIZING once that is sent, whatever the message loop
      leaves when it raises, and SHUTDOWN when it returns. */
  lemma StateTells(it: Iteration, s: ComponentState, k: nat)
    ensures TurnedAway(it) ==> StateAfter(it, s) == s
    ensures NoTrouble(it) ==> StateAfter(it, s) == ComponentState.Shutdown
    ensures TroubleAt(it, k) ==>
      StateAfter(it, s) ==
        if k <= 1 then s else if k == 2 then ComponentState.Registered else if k <= 4 then Initializing else it.left
  {
    var stages := Stages(it);
    assert stages[0] == it.connect && stages[1] == it.register && stages[2] == it.sendInitializing;
    assert stages[3] == it.recvAck && stages[4] == it.sendReady && stages[5] == it.messageLoop;
  }

  /** A run that is already some failures in, and why it ends. All iterations but the last disconnect,
      each followed by a sleep. An exception and a refusal end the run; a disconnection ends it just
      when reconnection is off or the limit is reached, and is else followed by a sleep and another
      attempt. */
  predicate Telling(cfg: Config, its: seq<Iteration>, attempts: nat, r: Run) {
    && r.used <= |its|
    && (forall i | 0 <= i < r.used - 1 :: Disconnects(its[i]))
    && |r.sleeps| == (if r.verdict == Pending then r.used else r.used - 1)
    && (r.used == 0 ==> its == [] && r.verdict == Pending)
    && (r.used > 0 ==>
          var last, reached := its[r.used - 1], cfg.maxAttempts > 0 && attempts + r.used >= cfg.maxAttempts;
          && (r.verdict == Propagated <==> Escapes(last))
          && (r.verdict == Refused <==> TurnedAway(last))
          && (r.verdict == NoReconnect <==> Disconnects(last) && !cfg.reconnect)
          && (r.verdict.MaxReached? <==> Disconnects(last) && cfg.reconnect && reached)
          && (r.verdict.MaxReached? ==> r.verdict.count == attempts + r.used)
          && (r.verdict == Pending <==> Disconnects(last) && cfg.reconnect && !reached)
          && (r.verdict == Pending ==> r.used == |its|))
  }

  lemma TellingCons(cfg: Config, its: seq<Iteration>, attempts: nat, delay: nat, rest: Run)
    requires its != [] && Disconnects(its[0]) && Telling(cfg, its[1..], attempts + 1, rest)
    requires cfg.reconnect && !(cfg.maxAttempts > 0 && attempts + 1 >= cfg.maxAttempts)
    requires !Escapes(its[0]) && !TurnedAway(its[0])
    ensures Telling(cfg, its, attempts, Run([delay] + rest.sleeps, 1 + rest.used, rest.verdict))
  {
    hide Disconnects, Escapes, TurnedAway;
    assert forall i | 1 <= i < |its| :: its[i] == its[1..][i - 1];
  }

  lemma {:induction false} RunTells(cfg: Config, its: seq<Iteration>, attempts: nat, delay: nat)
    ensures Telling(cfg, its, attempts, RunFrom(cfg, its, attempts, delay))
    decreases |its|
  {
    if its != [] {
      EndTells(its[0]);
      hide EndOf, Completed, Disconnects, Escapes, TurnedAway;
      var delay' := if Completed(its[0]) then cfg.firstDelay else delay;
      if EndOf(its[0]) == Retry && cfg.reconnect && !(cfg.maxAttempts > 0 && attempts + 1 >= cfg.maxAttempts) {
        var next := Backoff.Next(delay', cfg.maxDelay);
        RunTells(cfg, its[1..], attempts + 1, next);
        TellingCons(cfg, its, attempts, delay', RunFrom(cfg, its[1..], attempts + 1, next));
        hide Telling;
      }
    }
  }

  // ----- backoff with reset -----

  /** Iterations since the last one that signalled READY, that one counting as 0; when there is none,
      since the start, which is j iterations after a delay was last the first. */
  function Since(its: seq<Iteration>, k: nat, j: nat): nat
    requires k < |its|
  {
    if Completed(its[k]) then 0 else if k == 0 then j else Since(its, k - 1, j) + 1
  }

  lemma {:induction false} SinceTail(its: seq<Iteration>, k: nat, j: nat)
    requires k + 1 < |its|
    ensures Since(its[1..], k, (if Completed(its[0]) then 0 else j) + 1) == Since(its, k + 1, j)
  {
    if !Completed(its[k + 1]) && k > 0 {
      SinceTail(its, k - 1, j);
    }
  }

  /** The k-th sleep follows the closed form from the last session that signalled READY. */
  predicate FollowSince(cfg: Config, its: seq<Iteration>, j: nat, sleeps: seq<nat>) {
    && |sleeps| <= |its|
    && forall k | 0 <= k < |sleeps| :: sleeps[k] == Backoff.Delay(cfg.firstDelay, cfg.maxDelay, Since(its, k, j))
  }

  lemma FollowSinceCons(cfg: Config, its: seq<Iteration>, j: nat, sleeps: seq<nat>)
    requires its != []
    requires var i := if Completed(its[0]) then 0 else j; FollowSince(cfg, its[1..], i + 1, sleeps)
    ensures var i := if Completed(its[0]) then 0 else j;
      FollowSince(cfg, its, j, [Backoff.Delay(cfg.firstDelay, cfg.maxDelay, i)] + sleeps)
  {
    var i := if Completed(its[0]) then 0 else j;
    var all := [Backoff.Delay(cfg.firstDelay, cfg.maxDelay, i)] + sleeps;
    forall k | 0 <= k < |all|
      ensures all[k] == Backoff.Delay(cfg.firstDelay, cfg.maxDelay, Since(its, k, j))
    {
      if k > 0 {
        assert sleeps[k - 1] == Backoff.Delay(cfg.firstDelay, cfg.maxDelay, Since(its[1..], k - 1, i + 1));
        SinceTail(its, k - 1, j);
      }
    }
  }

  lemma {:induction false} SleepsFrom(cfg: Config, its: seq<Iteration>, attempts: nat, j: nat)
    ensures FollowSince(cfg, its, j, RunFrom(cfg, its, attempts, Backoff.Delay(cfg.firstDelay, cfg.maxDelay, j)).sleeps)
    decreases |its|
  {
    hide EndOf, Completed;
    if its != [] {
      var i := if Completed(its[0]) then 0 else j;
      assert Backoff.Delay(cfg.firstDelay, cfg.maxDelay, 0) == cfg.firstDelay;
      Backoff.NextDelay(cfg.firstDelay, cfg.maxDelay, i);
      SleepsFrom(cfg, its[1..], attempts + 1, i + 1);
      FollowSinceCons(cfg, its, j,
        RunFrom(cfg, its[1..], attempts + 1, Backoff.Delay(cfg.firstDelay, cfg.maxDelay, i + 1)).sleeps);
    }
  }

  lemma {:induction false} BoundFrom(cfg: Config, its: seq<Iteration>, attempts: nat, delay: nat)
    requires attempts < cfg.maxAttempts
    ensures var r := RunFrom(cfg, its, attempts, delay);
      && r.used <= |its| && attempts + r.used <= cfg.maxAttempts && attempts + |r.sleeps| < cfg.maxAttempts
      && (attempts + |its| >= cfg.maxAttempts ==> r.verdict != Pending)
      && (r.verdict.MaxReached? <==>
            && cfg.reconnect && attempts + r.used == cfg.maxAttempts && r.used > 0
            && EndOf(its[r.used - 1]) == Retry)
      && (r.verdict.MaxReached? ==> r.verdict.count == cfg.maxAttempts)
    decreases |its|
  {
    hide EndOf, Completed;
    if its != [] && EndOf(its[0]) == Retry && cfg.reconnect && attempts + 1 < cfg.maxAttempts {
      var delay' := if Completed(its[0]) then cfg.firstDelay else delay;
      BoundFrom(cfg, its[1..], attempts + 1, Backoff.Next(delay', cfg.maxDelay));
    }
  }

  /** Every sleep follows the closed form from the last session that signalled READY, or from the
      start; yet successes do not reset the count of attempts, which bounds the whole run. */
  lemma ResetBackoff(cfg: Config, its: seq<Iteration>)
    ensures var r := RunFrom(cfg, its, 0, cfg.firstDelay);
      && FollowSince(cfg, its, 0, r.sleeps)
      && (cfg.maxAttempts > 0 ==>
            && r.used <= cfg.maxAttempts && |r.sleeps| < cfg.maxAttempts
            && (|its| >= cfg.maxAttempts ==> r.verdict != Pending)
            && (r.verdict.MaxReached? ==> r.used == r.verdict.count == cfg.maxAttempts))
  {
    assert Backoff.Delay(cfg.firstDelay, cfg.maxDelay, 0) == cfg.firstDelay;
    SleepsFrom(cfg, its, 0, 0);
    if cfg.maxAttempts > 0 {
      BoundFrom(cfg, its, 0, cfg.firstDelay);
    }
    hide RunFrom, FollowSince;
  }
}
