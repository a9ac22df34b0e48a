/** Concurrent calls of SendStateUpdate and SendError in the Go client. A call takes the send
    mutex, writes, releases the mutex and, for a state update, only then stores State. */
module GoRace {
  import opened Protocol

  datatype Phase =
    | Waiting                         // for the mutex
    | Holding                         // the mutex, nothing written yet
    | Written(at: nat)                // still holding it; the write is at this place in history
    | Leaving                         // holding it, with nothing to store: an error, or a failed write
    | Storing(at: nat)                // mutex released, State not stored yet
    | Done(at: nat, stored: nat)
    | Over

  /** update is the state that SendStateUpdate sends, or None for SendError. */
  datatype Call = Call(update: Option<ComponentState>, phase: Phase)

  /** State updates reaching the wire, and stores of State. */
  datatype Event = Wrote(call: nat, state: ComponentState) | Stored(call: nat, state: ComponentState)

  datatype World = World(calls: seq<Call>, mutex: Option<nat>, state: ComponentState, history: seq<Event>)

  datatype Action =
    | Begin(update: Option<ComponentState>)
    | Lock(i: nat)
    | Write(i: nat, ok: bool)
    | Unlock(i: nat)
    | Store(i: nat)

  function Fresh(s: ComponentState): World { World([], None, s, []) }

  function Enter(w: World, i: nat, p: Phase): World
    requires i < |w.calls|
  {
    w.(calls := w.calls[i := w.calls[i].(phase := p)])
  }

  /** The world after an action, if the action is possible. */
  function Next(w: World, a: Action): Option<World> {
    match a
    case Begin(update) => Some(w.(calls := w.calls + [Call(update, Phase.Waiting)]))
    case Lock(i) =>
      if i < |w.calls| && w.calls[i].phase == Phase.Waiting && w.mutex == None
      then Some(Enter(w, i, Holding).(mutex := Some(i))) else None
    case Write(i, ok) =>
      if i < |w.calls| && w.calls[i].phase == Holding then
        if ok && w.calls[i].update.Some?
        then Some(Enter(w, i, Written(|w.history|)).(history := w.history + [Event.Wrote(i, w.calls[i].update.value)]))
        else Some(Enter(w, i, Leaving))
      else None
    case Unlock(i) =>
      if i < |w.calls| && w.calls[i].phase.Written? then Some(Enter(w, i, Storing(w.calls[i].phase.at)).(mutex := None))
      else if i < |w.calls| && w.calls[i].phase == Leaving then Some(Enter(w, i, Over).(mutex := None))
      else None
    case Store(i) =>
      if i < |w.calls| && w.calls[i].phase.Storing? && w.calls[i].update.Some? then
        var s := w.calls[i].update.value;
        Some(Enter(w, i, Done(w.calls[i].phase.at, |w.history|)).(state := s, history := w.history + [Stored(i, s)]))
      else None
  }

  function Exec(w: World, actions: seq<Action>): Option<World>
    decreases |actions|
  {
    if actions == [] then Some(w)
    else match Next(w, actions[0])
      case None => None
      case Some(w') => Exec(w', actions[1..])
  }

  predicate Finished(c: Call) { c.phase.Done? || c.phase == Over }

  predicate Quiescent(w: World) { forall i | 0 <= i < |w.calls| :: Finished(w.calls[i]) }

  // ----- what every step keeps -----

  predicate HasWritten(p: Phase) { p.Written? || p.Storing? || p.Done? }

  /** A call's phase against the history. */
  predicate CallOk(w: World, i: nat)
    requires i < |w.calls|
  {
    var c := w.calls[i];
    && (HasWritten(c.phase) ==>
          && c.update.Some? && c.phase.at < |w.history| && w.history[c.phase.at] == Event.Wrote(i, c.update.value))
    && (c.phase.Done? ==>
          && c.phase.at < c.phase.stored < |w.history| && w.history[c.phase.stored] == Stored(i, c.update.value))
    && (c.phase.Holding? || c.phase.Written? || c.phase.Leaving? <==> w.mutex == Some(i))
  }

  /** A place in history against the phase of its call. */
  predicate EventOk(w: World, k: nat)
    requires k < |w.history|
  {
    var e := w.history[k];
    && e.call < |w.calls|
    && (e.Wrote? ==> HasWritten(w.calls[e.call].phase) && w.calls[e.call].phase.at == k)
    && (e.Stored? ==> w.calls[e.call].phase.Done? && w.calls[e.call].phase.stored == k)
  }

  function LastStore(history: seq<Event>): Option<nat> {
    if history == [] then None
    else if history[|history| - 1].Stored? then Some(|history| - 1)
    else LastStore(history[..|history| - 1])
  }

  function LastWrite(history: seq<Event>): Option<nat> {
    if history == [] then None
    else if history[|history| - 1].Wrote? then Some(|history| - 1)
    else LastWrite(history[..|history| - 1])
  }

  lemma {:induction false} LastStoreIs(history: seq<Event>)
    ensures match LastStore(history)
      case Some(k) => k < |history| && history[k].Stored? && forall m | k < m < |history| :: !history[m].Stored?
      case None => forall m | 0 <= m < |history| :: !history[m].Stored?
  {
    if history != [] && !history[|history| - 1].Stored? {
      LastStoreIs(history[..|history| - 1]);
    }
  }

  lemma {:induction false} LastWriteIs(history: seq<Event>)
    ensures match LastWrite(history)
      case Some(k) => k < |history| && history[k].Wrote? && forall m | k < m < |history| :: !history[m].Wrote?
      case None => forall m | 0 <= m < |history| :: !history[m].Wrote?
  {
    if history != [] && !history[|history| - 1].Wrote? {
      LastWriteIs(history[..|history| - 1]);
    }
  }

  predicate StateOk(w: World, initial: ComponentState) {
    w.state == match LastStore(w.history)
      case Some(k) => (if k < |w.history| then w.history[k].state else initial)
      case None => initial
  }

  predicate Inv(w: World, initial: ComponentState) {
    && (forall i | 0 <= i < |w.calls| :: CallOk(w, i))
    && (forall k | 0 <= k < |w.history| :: EventOk(w, k))
    && (w.mutex.Some? ==> w.mutex.value < |w.calls|)
    && StateOk(w, initial)
  }

  lemma StateKept(w: World, w': World, initial: ComponentState, e: Event)
    requires StateOk(w, initial) && w'.history == w.history + [e]
    requires w'.state == if e.Stored? then e.state else w.state
    ensures StateOk(w', initial)
  {
    assert w'.history[..|w.history|] == w.history;
    LastStoreIs(w.history);
  }

  /** A call that changes phase without touching the history. */
  lemma QuietStep(w: World, a: Action, initial: ComponentState)
    requires Inv(w, initial) && Next(w, a).Some? && (a.Begin? || a.Lock? || a.Unlock?)
    ensures Inv(Next(w, a).value, initial)
  {
    var w' := Next(w, a).value;
    hide StateOk;
    assert StateOk(w', initial) by { SameHistory(w, w', initial); }
    if a.Unlock? {
      assert CallOk(w, a.i);
    }
    forall i | 0 <= i < |w'.calls|
      ensures CallOk(w', i)
    {
      if i < |w.calls| {
        assert CallOk(w, i);
      }
    }
    forall k | 0 <= k < |w'.history|
      ensures EventOk(w', k)
    {
      assert EventOk(w, k);
    }
  }

  lemma SameHistory(w: World, w': World, initial: ComponentState)
    requires StateOk(w, initial) && w'.history == w.history && w'.state == w.state
    ensures StateOk(w', initial)
  {
  }

  lemma WriteStep(w: World, i: nat, ok: bool, initial: ComponentState)
    requires Inv(w, initial) && Next(w, Write(i, ok)).Some?
    ensures Inv(Next(w, Write(i, ok)).value, initial)
  {
    var w' := Next(w, Write(i, ok)).value;
    assert CallOk(w, i);
    if w'.history == w.history {
      SameHistory(w, w', initial);
    } else {
      StateKept(w, w', initial, w'.history[|w.history|]);
    }
    hide StateOk;
    forall j | 0 <= j < |w'.calls|
      ensures CallOk(w', j)
    {
      assert CallOk(w, j);
    }
    forall k | 0 <= k < |w'.history|
      ensures EventOk(w', k)
    {
      if k < |w.history| {
        assert EventOk(w, k);
      }
    }
  }

  lemma StoreStep(w: World, i: nat, initial: ComponentState)
    requires Inv(w, initial) && Next(w, Store(i)).Some?
    ensures Inv(Next(w, Store(i)).value, initial)
  {
    var w' := Next(w, Store(i)).value;
    assert CallOk(w, i);
    StateKept(w, w', initial, w'.history[|w.history|]);
    hide StateOk;
    forall j | 0 <= j < |w'.calls|
      ensures CallOk(w', j)
    {
      assert CallOk(w, j);
    }
    forall k | 0 <= k < |w'.history|
      ensures EventOk(w', k)
    {
      if k < |w.history| {
        assert EventOk(w, k);
      }
    }
  }

  lemma StepKeeps(w: World, a: Action, initial: ComponentState)
    requires Inv(w, initial) && Next(w, a).Some?
    ensures Inv(Next(w, a).value, initial)
  {
    hide Inv, Next;
    match a {
      case Write(i, ok) => WriteStep(w, i, ok, initial);
      case Store(i) => StoreStep(w, i, initial);
      case _ => QuietStep(w, a, initial);
    }
  }

  lemma {:induction false} Reachable(w: World, actions: seq<Action>, initial: ComponentState)
    requires Inv(w, initial) && Exec(w, actions).Some?
    ensures Inv(Exec(w, actions).value, initial)
    decreases |actions|
  {
    if actions != [] {
      StepKeeps(w, actions[0], initial);
      hide Next, Inv;
      Reachable(Next(w, actions[0]).value, actions[1..], initial);
    }
  }

  // ----- what is on the wire and what is stored -----

  /** The history against what was done so far: the updates on the wire are those whose write worked,
      and those stored are those whose store was reached. */
  predicate Accounts(w: World, actions: seq<Action>) {
    forall i | 0 <= i < |w.calls| ::
      var c := w.calls[i];
      && (HasWritten(c.phase) <==> Write(i, true) in actions && c.update.Some?)
      && (c.phase.Done? <==> Store(i) in actions)
      && (c.phase == Phase.Waiting || c.phase == Holding ==> forall ok :: Write(i, ok) !in actions)
      && (Write(i, false) in actions ==> c.phase == Leaving || c.phase == Over)
  }

  /** Only calls that have begun act. */
  predicate Begun(w: World, actions: seq<Action>) {
    forall a <- actions :: (a.Write? || a.Store?) ==> a.i < |w.calls|
  }

  lemma StepAccounts(w: World, a: Action, before: seq<Action>)
    requires Accounts(w, before) && Begun(w, before) && Next(w, a).Some?
    ensures Accounts(Next(w, a).value, before + [a]) && Begun(Next(w, a).value, before + [a])
  {
    assert forall b :: b in before + [a] <==> b in before || b == a;
  }

  lemma {:induction false} RunAccounts(w: World, before: seq<Action>, actions: seq<Action>)
    requires Accounts(w, before) && Begun(w, before) && Exec(w, actions).Some?
    ensures Accounts(Exec(w, actions).value, before + actions)
    decreases |actions|
  {
    if actions == [] {
      assert before + [] == before;
    } else {
      StepAccounts(w, actions[0], before);
      hide Next, Accounts, Begun;
      RunAccounts(Next(w, actions[0]).value, before + [actions[0]], actions[1..]);
      assert before + [actions[0]] + actions[1..] == before + actions;
    }
  }

  /** Over every interleaving, a call is on the wire just when it is a state update whose write
      worked, and stored just when it came to its store; so a call whose write failed, and one of
      SendError, is neither. */
  lemma HistoryIs(initial: ComponentState, actions: seq<Action>, w: World, i: nat)
    requires Exec(Fresh(initial), actions) == Some(w) && i < |w.calls|
    ensures (exists s :: Event.Wrote(i, s) in w.history) <==> Write(i, true) in actions && w.calls[i].update.Some?
    ensures (exists s :: Stored(i, s) in w.history) <==> Store(i) in actions
    ensures Write(i, false) in actions || w.calls[i].update == None ==> forall e <- w.history :: e.call != i
  {
    assert Inv(Fresh(initial), initial);
    Reachable(Fresh(initial), actions, initial);
    RunAccounts(Fresh(initial), [], actions);
    assert [] + actions == actions;
    hide Exec;
    assert CallOk(w, i);
    var c := w.calls[i];
    if HasWritten(c.phase) {
      assert w.history[c.phase.at] == Event.Wrote(i, c.update.value);
    }
    if c.phase.Done? {
      assert w.history[c.phase.stored] == Stored(i, c.update.value);
    }
    forall k | 0 <= k < |w.history| && w.history[k].call == i
      ensures HasWritten(c.phase) && (w.history[k].Stored? ==> c.phase.Done?)
    {
      assert EventOk(w, k);
    }
  }

  // ----- State against the wire -----

  /** The window of a finished state update, from its write to its store, lies inside another. */
  predicate Inside(w: World, inner: nat, outer: nat)
    requires inner < |w.calls| && outer < |w.calls|
  {
    var p, q := w.calls[inner].phase, w.calls[outer].phase;
    p.Done? && q.Done? && q.at < p.at < p.stored < q.stored
  }

  /** Whatever happened, something was written. */
  lemma SomeWrite(w: World, initial: ComponentState)
    requires Inv(w, initial)
    ensures w.history != [] ==> exists k | 0 <= k < |w.history| :: w.history[k].Wrote?
  {
    if w.history != [] {
      assert EventOk(w, |w.history| - 1);
      var call := w.history[|w.history| - 1].call;
      assert CallOk(w, call);
      assert w.history[w.calls[call].phase.at].Wrote?;
    }
  }

  /** After any interleaving, whenever no call is in flight: if nothing was written, State is what
      it was. Otherwise State is the update of the last call to store, and that is the last call to
      write just when the last writer's window does not lie wholly inside the last storer's. So State
      is what was last written just when that window does not, or both calls made the same update. */
  lemma StateAgainstWire(initial: ComponentState, actions: seq<Action>, w: World)
    requires Exec(Fresh(initial), actions) == Some(w) && Quiescent(w)
    ensures match LastWrite(w.history)
      case None => LastStore(w.history) == None && w.state == initial
      case Some(a) =>
        var d := LastStore(w.history);
        && a < |w.history| && d.Some? && d.value < |w.history|
        && var writer, storer := w.history[a].call, w.history[d.value].call;
           && writer < |w.calls| && storer < |w.calls|
           && w.state == w.history[d.value].state
           && (writer == storer <==> !Inside(w, writer, storer))
           && w.calls[writer].update == Some(w.history[a].state)
           && (w.state == w.history[a].state <==>
                 !Inside(w, writer, storer) || w.calls[writer].update == w.calls[storer].update)
  {
    assert Inv(Fresh(initial), initial);
    Reachable(Fresh(initial), actions, initial);
    LastWriteIs(w.history);
    LastStoreIs(w.history);
    hide Exec;
    match LastWrite(w.history)
    case None =>
      SomeWrite(w, initial);
    case Some(a) =>
      assert EventOk(w, a);
      var writer := w.history[a].call;
      assert Finished(w.calls[writer]) && CallOk(w, writer);
      var d := LastStore(w.history).value;
      assert EventOk(w, d);
      assert CallOk(w, w.history[d].call);
  }

  // ----- calls that do not overlap -----

  /** Each call begins when no other is in flight. */
  predicate Sequential(w: World, actions: seq<Action>)
    decreases |actions|
  {
    actions == [] ||
    (&& (actions[0].Begin? ==> Quiescent(w))
     && (Next(w, actions[0]).Some? ==> Sequential(Next(w, actions[0]).value, actions[1..])))
  }

  /** Every call but the last is finished, and stored before later calls wrote. */
  predicate InOrder(w: World) {
    forall i, j | 0 <= i < j < |w.calls| ::
      Ordered(w.calls[i], w.calls[j])
  }

  predicate Ordered(c: Call, d: Call) { Finished(c) && Before(c.phase, d.phase) }

  predicate Before(p: Phase, q: Phase) { p.Done? && HasWritten(q) ==> p.stored < q.at }

  lemma OrderStep(w: World, a: Action, initial: ComponentState)
    requires Inv(w, initial) && InOrder(w) && Next(w, a).Some? && (a.Begin? ==> Quiescent(w))
    ensures InOrder(Next(w, a).value)
  {
    var w' := Next(w, a).value;
    forall i, j | 0 <= i < j < |w'.calls|
      ensures Ordered(w'.calls[i], w'.calls[j])
    {
      assert CallOk(w, i);
      assert j < |w.calls| ==> Ordered(w.calls[i], w.calls[j]);
    }
  }

  lemma {:induction false} StaysInOrder(w: World, actions: seq<Action>, initial: ComponentState)
    requires Inv(w, initial) && InOrder(w) && Sequential(w, actions) && Exec(w, actions).Some?
    ensures InOrder(Exec(w, actions).value)
    decreases |actions|
  {
    if actions != [] {
      OrderStep(w, actions[0], initial);
      StepKeeps(w, actions[0], initial);
      hide Next, InOrder, Inv;
      StaysInOrder(Next(w, actions[0]).value, actions[1..], initial);
    }
  }

  /** When calls do not overlap, State is the last update written whenever none is in flight. */
  lemma SequentialAgrees(initial: ComponentState, actions: seq<Action>, w: World)
    requires Exec(Fresh(initial), actions) == Some(w) && Quiescent(w)
    requires Sequential(Fresh(initial), actions)
    ensures match LastWrite(w.history)
      case None => w.state == initial
      case Some(a) => a < |w.history| && w.state == w.history[a].state
  {
    assert Inv(Fresh(initial), initial);
    StaysInOrder(Fresh(initial), actions, initial);
    StateAgainstWire(initial, actions, w);
    Reachable(Fresh(initial), actions, initial);
    hide Exec, Sequential;
    match LastWrite(w.history) {
      case None =>
      case Some(a) =>
        var writer, storer := w.history[a].call, w.history[LastStore(w.history).value].call;
        assert EventOk(w, a) && CallOk(w, writer);
        NeverInside(w, writer, storer);
    }
  }

  lemma NeverInside(w: World, i: nat, j: nat)
    requires InOrder(w) && i < |w.calls| && j < |w.calls|
    ensures !Inside(w, i, j)
  {
    assert i < j ==> Ordered(w.calls[i], w.calls[j]);
    assert j < i ==> Ordered(w.calls[j], w.calls[i]);
  }

  // ----- a disagreement -----

  /** Two calls, for x and for y: the first to write is the last to store. */
  function Story(x: ComponentState, y: ComponentState): seq<Event> {
    [Event.Wrote(0, x), Event.Wrote(1, y), Stored(1, y), Stored(0, x)]
  }

  /** The two calls and the initial state. */
  datatype Plot = Plot(x: ComponentState, y: ComponentState, initial: ComponentState) {

    /** A world with those two calls, n events into their story. */
    function Two(p: Phase, q: Phase, mutex: Option<nat>, state: ComponentState, n: nat): World
      requires n <= 4
    {
      World([Call(Some(x), p), Call(Some(y), q)], mutex, state, Story(x, y)[..n])
    }

    function Overlap(): seq<Action> {
      [Begin(Some(x)), Begin(Some(y)), Lock(0), Write(0, true), Unlock(0),
       Lock(1), Write(1, true), Unlock(1), Store(1), Store(0)]
    }
  }

  /** One action of the overlap, from one given world to the next. */
  lemma OverlapStep(t: Plot, w: World, k: nat, next: World)
    requires k < |t.Overlap()| && Next(w, t.Overlap()[k]).Some?
    requires var n := Next(w, t.Overlap()[k]).value;
      n.calls == next.calls && n.mutex == next.mutex && n.state == next.state && n.history == next.history
    ensures Exec(w, t.Overlap()[k..]) == Exec(next, t.Overlap()[k + 1..])
  {
    assert t.Overlap()[k..][1..] == t.Overlap()[k + 1..];
  }

  lemma OverlapBegins(t: Plot)
    ensures Exec(Fresh(t.initial), t.Overlap()) ==
      Exec(t.Two(Phase.Waiting, Phase.Waiting, None, t.initial, 0), t.Overlap()[2..])
  {
    var w := World([Call(Some(t.x), Phase.Waiting)], None, t.initial, []);
    assert t.Overlap()[0..] == t.Overlap();
    hide Exec;
    OverlapStep(t, Fresh(t.initial), 0, w);
    OverlapStep(t, w, 1, t.Two(Phase.Waiting, Phase.Waiting, None, t.initial, 0));
  }

  lemma OverlapWrites(t: Plot)
    ensures Exec(t.Two(Phase.Waiting, Phase.Waiting, None, t.initial, 0), t.Overlap()[2..]) ==
      Exec(t.Two(Storing(0), Phase.Waiting, None, t.initial, 1), t.Overlap()[5..])
  {
    hide Exec;
    OverlapStep(t, t.Two(Phase.Waiting, Phase.Waiting, None, t.initial, 0), 2,
                t.Two(Holding, Phase.Waiting, Some(0), t.initial, 0));
    OverlapStep(t, t.Two(Holding, Phase.Waiting, Some(0), t.initial, 0), 3,
                t.Two(Written(0), Phase.Waiting, Some(0), t.initial, 1));
    OverlapStep(t, t.Two(Written(0), Phase.Waiting, Some(0), t.initial, 1), 4,
                t.Two(Storing(0), Phase.Waiting, None, t.initial, 1));
  }

  lemma OverlapOvertakes(t: Plot)
    ensures Exec(t.Two(Storing(0), Phase.Waiting, None, t.initial, 1), t.Overlap()[5..]) ==
      Exec(t.Two(Storing(0), Storing(1), None, t.initial, 2), t.Overlap()[8..])
  {
    hide Exec;
    OverlapStep(t, t.Two(Storing(0), Phase.Waiting, None, t.initial, 1), 5,
                t.Two(Storing(0), Holding, Some(1), t.initial, 1));
    OverlapStep(t, t.Two(Storing(0), Holding, Some(1), t.initial, 1), 6,
                t.Two(Storing(0), Written(1), Some(1), t.initial, 2));
    OverlapStep(t, t.Two(Storing(0), Written(1), Some(1), t.initial, 2), 7,
                t.Two(Storing(0), Storing(1), None, t.initial, 2));
  }

  lemma OverlapStores(t: Plot)
    ensures Exec(t.Two(Storing(0), Storing(1), None, t.initial, 2), t.Overlap()[8..]) ==
      Some(t.Two(Done(0, 3), Done(1, 2), None, t.x, 4))
  {
    assert t.Overlap()[10..] == [];
    OverlapStep(t, t.Two(Storing(0), Storing(1), None, t.initial, 2), 8,
                t.Two(Storing(0), Done(1, 2), None, t.y, 3));
    OverlapStep(t, t.Two(Storing(0), Done(1, 2), None, t.y, 3), 9,
                t.Two(Done(0, 3), Done(1, 2), None, t.x, 4));
  }

  /** Overlapping calls can disagree: whatever State was at first, and for any two different updates,
      a run of two calls ends with State at the one and the daemon last told the other. */
  lemma Disagreement(initial: ComponentState, x: ComponentState, y: ComponentState) returns (actions: seq<Action>)
    requires x != y
    ensures var w := Exec(Fresh(initial), actions);
      && w.Some? && Quiescent(w.value)
      && w.value.state == x
      && LastWrite(w.value.history) == Some(1) && w.value.history == Story(x, y)
  {
    var t := Plot(x, y, initial);
    actions := t.Overlap();
    OverlapBegins(t);
    OverlapWrites(t);
    OverlapOvertakes(t);
    OverlapStores(t);
    StoryEnds(x, y);
    hide Exec, LastWrite;
  }

  lemma StoryEnds(x: ComponentState, y: ComponentState)
    ensures Story(x, y)[..4] == Story(x, y) && LastWrite(Story(x, y)) == Some(1)
  {
    assert Story(x, y)[..3][..2] == Story(x, y)[..2];
  }
}
