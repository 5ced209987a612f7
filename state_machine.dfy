/**
 * The game's state machine (`src/engine/StateMachine.ts`): a current state
 * name, a table of registered states with optional enter/exit hooks, and
 * a list of listeners told about every transition.
 *
 * Hooks and listeners are code the machine calls but cannot see; here they
 * are opaque ids, and every call the machine makes (and the warning it
 * logs for an unknown state) is appended to an `effects` log, so that the
 * order of the calls is part of what is proved.
 */
module Engine {
  import opened Wrappers

  type StateId = string
  type HookId = nat
  type ListenerId = nat

  /** `StateHooks`: both hooks are optional. */
  datatype Hooks = Hooks(onEnter: Option<HookId>, onExit: Option<HookId>)

  const NoHooks := Hooks(None, None)

  /** One observable call made by the machine. `observed` is the state
      `getState()` would return while the hook runs. */
  datatype Effect =
    | Exited(hook: HookId, observed: StateId)
    | Entered(hook: HookId, observed: StateId)
    | Notified(listener: ListenerId, previous: StateId, next: StateId)
    | Warned(requested: StateId)

  datatype Machine = Machine(
    currentState: StateId,
    states: map<StateId, Hooks>,
    listeners: seq<ListenerId>,
    effects: seq<Effect>)

  /** The machine is always in a registered state. */
  ghost predicate ValidMachine(m: Machine) {
    m.currentState in m.states
  }

  // ---------------------------------------------------------------------
  // The operations as functions on values
  // ---------------------------------------------------------------------

  /** The constructor: the initial state is registered without hooks. */
  function Create(initial: StateId): (m: Machine)
    ensures ValidMachine(m) && m.currentState == initial
    ensures m.states == map[initial := NoHooks] && m.listeners == [] && m.effects == []
  {
    Machine(initial, map[initial := NoHooks], [], [])
  }

  /** `registerState`: adds the state, or replaces its hooks; a missing
      `hooks` argument stands for an empty hook set. */
  function Register(m: Machine, state: StateId, hooks: Option<Hooks>): Machine {
    m.(states := m.states[state := hooks.GetOr(NoHooks)])
  }

  /** The hooks `states.get` yields, an absent entry reading as no hooks. */
  function HooksOf(m: Machine, state: StateId): Hooks {
    if state in m.states then m.states[state] else NoHooks
  }

  function ExitCall(h: Hooks, observed: StateId): seq<Effect> {
    if h.onExit.Some? then [Exited(h.onExit.value, observed)] else []
  }

  function EnterCall(h: Hooks, observed: StateId): seq<Effect> {
    if h.onEnter.Some? then [Entered(h.onEnter.value, observed)] else []
  }

  /** `notifyListeners`: each listener in list order is called once. */
  function Notifications(listeners: seq<ListenerId>, previous: StateId, next: StateId): seq<Effect> {
    if listeners == [] then []
    else Notifications(listeners[..|listeners| - 1], previous, next)
         + [Notified(listeners[|listeners| - 1], previous, next)]
  }

  /** The calls one accepted transition makes: the old state's exit hook
      while the machine still reports the old state, then the new state's
      enter hook once it reports the new one, then the listeners. */
  function TransitionEffects(m: Machine, target: StateId): seq<Effect> {
    ExitCall(HooksOf(m, m.currentState), m.currentState)
    + EnterCall(HooksOf(m, target), target)
    + Notifications(m.listeners, m.currentState, target)
  }

  /** `changeState`. */
  function Change(m: Machine, target: StateId): (r: Machine)
    ensures r.states == m.states && r.listeners == m.listeners
    ensures m.effects <= r.effects
    ensures r.currentState == m.currentState || r.currentState == target
  {
    if target !in m.states then m.(effects := m.effects + [Warned(target)])
    else if m.currentState == target then m
    else m.(currentState := target, effects := m.effects + TransitionEffects(m, target))
  }

  function AddListener(m: Machine, l: ListenerId): Machine {
    m.(listeners := m.listeners + [l])
  }

  /** `listeners.filter(l => l !== listener)`. */
  function Without(listeners: seq<ListenerId>, l: ListenerId): (r: seq<ListenerId>)
    ensures |r| <= |listeners|
    ensures forall x | x in r :: x in listeners
  {
    if listeners == [] then []
    else if listeners[0] == l then Without(listeners[1..], l)
    else [listeners[0]] + Without(listeners[1..], l)
  }

  function RemoveListener(m: Machine, l: ListenerId): Machine {
    m.(listeners := Without(m.listeners, l))
  }

  // ---------------------------------------------------------------------
  // Properties
  // ---------------------------------------------------------------------

  /** Every listener present is called exactly once per position it holds,
      in list order, with the two states of the transition. */
  lemma {:induction false} NotificationsInOrder(listeners: seq<ListenerId>, previous: StateId, next: StateId)
    ensures |Notifications(listeners, previous, next)| == |listeners|
    ensures forall i | 0 <= i < |listeners| ::
      Notifications(listeners, previous, next)[i] == Notified(listeners[i], previous, next)
  {
    if listeners != [] {
      var init := listeners[..|listeners| - 1];
      NotificationsInOrder(init, previous, next);
      assert forall i | 0 <= i < |init| :: init[i] == listeners[i];
    }
  }

  /** A request for an unregistered state changes nothing but the log,
      which gains one warning; a request for the current state does
      nothing at all, so neither hook runs. */
  lemma RejectedChangesAreSilent(m: Machine, target: StateId)
    ensures target !in m.states ==>
      Change(m, target) == m.(effects := m.effects + [Warned(target)])
    ensures target == m.currentState && ValidMachine(m) ==> Change(m, target) == m
  {
  }

  /** After a request the machine is in the requested state exactly when
      that state is registered, and it stays in a registered state. */
  lemma ChangeReachesRegisteredTargets(m: Machine, target: StateId)
    requires ValidMachine(m)
    ensures ValidMachine(Change(m, target))
    ensures Change(m, target).currentState == target <==> target in m.states
    ensures Change(m, target).states == m.states && Change(m, target).listeners == m.listeners
  {
  }

  /** An accepted transition runs the exit hook (seeing the old state),
      then the enter hook (seeing the new one), then notifies each listener
      with (old, new); nothing is removed from the log. */
  lemma TransitionOrder(m: Machine, target: StateId, exitHook: HookId, enterHook: HookId)
    requires target in m.states && target != m.currentState
    requires HooksOf(m, m.currentState).onExit == Some(exitHook)
    requires HooksOf(m, target).onEnter == Some(enterHook)
    ensures var r := Change(m, target);
      && |r.effects| == |m.effects| + 2 + |m.listeners|
      && r.effects[..|m.effects|] == m.effects
      && r.effects[|m.effects|] == Exited(exitHook, m.currentState)
      && r.effects[|m.effects| + 1] == Entered(enterHook, target)
      && forall i | 0 <= i < |m.listeners| ::
           r.effects[|m.effects| + 2 + i] == Notified(m.listeners[i], m.currentState, target)
  {
    NotificationsInOrder(m.listeners, m.currentState, target);
  }

  /** Without hooks an accepted transition only notifies. */
  lemma HooklessTransitionOnlyNotifies(m: Machine, target: StateId)
    requires target in m.states && target != m.currentState
    requires HooksOf(m, m.currentState).onExit == None && HooksOf(m, target).onEnter == None
    ensures Change(m, target).effects == m.effects + Notifications(m.listeners, m.currentState, target)
  {
  }

  /** Registering leaves the current state alone, keeps the machine valid,
      and the last registration of a state wins. */
  lemma RegisterSpec(m: Machine, state: StateId, hooks: Option<Hooks>)
    ensures Register(m, state, hooks).currentState == m.currentState
    ensures ValidMachine(m) ==> ValidMachine(Register(m, state, hooks))
    ensures HooksOf(Register(m, state, hooks), state) == (if hooks.Some? then hooks.value else NoHooks)
    ensures forall s | s != state :: HooksOf(Register(m, state, hooks), s) == HooksOf(m, s)
  {
  }

  /** Filtering out a listener removes every copy of it and keeps every
      other listener as often as it was there (their order is kept too:
      `WithoutKeepsOrder`). */
  lemma {:induction false} WithoutSpec(listeners: seq<ListenerId>, l: ListenerId)
    ensures l !in Without(listeners, l)
    ensures forall x | x != l :: multiset(Without(listeners, l))[x] == multiset(listeners)[x]
    ensures |Without(listeners, l)| == |listeners| - multiset(listeners)[l]
  {
    if listeners != [] {
      WithoutSpec(listeners[1..], l);
      assert listeners == [listeners[0]] + listeners[1..];
      assert multiset(listeners) == multiset{listeners[0]} + multiset(listeners[1..]);
    }
  }

  /** Filtering keeps the remaining listeners in their order: it
      distributes over concatenation, and on a single listener it drops it
      exactly when it is the one removed. */
  lemma {:induction false} WithoutKeepsOrder(a: seq<ListenerId>, b: seq<ListenerId>, l: ListenerId)
    ensures Without(a + b, l) == Without(a, l) + Without(b, l)
    ensures forall x :: Without([x], l) == if x == l then [] else [x]
  {
    if a == [] {
      assert a + b == b;
    } else {
      assert (a + b)[0] == a[0] && (a + b)[1..] == a[1..] + b;
      WithoutKeepsOrder(a[1..], b, l);
    }
    forall x
      ensures Without([x], l) == if x == l then [] else [x]
    {
      assert [x][1..] == [];
    }
  }

  /** Filtering twice is filtering once. */
  lemma {:induction false} WithoutIsIdempotent(listeners: seq<ListenerId>, l: ListenerId)
    ensures Without(Without(listeners, l), l) == Without(listeners, l)
  {
    if listeners != [] {
      WithoutIsIdempotent(listeners[1..], l);
      if listeners[0] != l {
        assert ([listeners[0]] + Without(listeners[1..], l))[1..] == Without(listeners[1..], l);
      }
    }
  }

  /** Once removed, a listener hears of no later transition. */
  lemma RemovedListenerIsNotNotified(m: Machine, l: ListenerId, target: StateId)
    ensures var r := RemoveListener(m, l);
      forall e | e in Change(r, target).effects[|r.effects|..] :: !(e.Notified? && e.listener == l)
  {
    var r := RemoveListener(m, l);
    WithoutSpec(m.listeners, l);
    if target in r.states && target != r.currentState {
      NotificationsInOrder(r.listeners, r.currentState, target);
      var n := Notifications(r.listeners, r.currentState, target);
      assert Change(r, target).effects[|r.effects|..] == TransitionEffects(r, target);
      forall e | e in n
        ensures !(e.Notified? && e.listener == l)
      {
        var i :| 0 <= i < |n| && n[i] == e;
        assert r.listeners[i] in r.listeners;
      }
    } else {
      assert Change(r, target).effects[|r.effects|..] == Change(r, target).effects[|m.effects|..];
    }
  }

  /** The "remove state change listeners" scenario: the listener hears the
      first transition only, as BOOT to RUNNING. */
  lemma RemoveListenerScenario(l: ListenerId)
    ensures var m0 := Register(Register(Create("BOOT"), "RUNNING", None), "GAME_OVER", None);
      var m1 := Change(AddListener(m0, l), "RUNNING");
      var m2 := Change(RemoveListener(m1, l), "GAME_OVER");
      && m1.effects == [Notified(l, "BOOT", "RUNNING")]
      && m2.effects == m1.effects
      && m2.currentState == "GAME_OVER"
  {
    var m0 := Register(Register(Create("BOOT"), "RUNNING", None), "GAME_OVER", None);
    assert "BOOT" != "RUNNING" && "RUNNING" != "GAME_OVER";
    var m1 := Change(AddListener(m0, l), "RUNNING");
    assert Notifications([l], "BOOT", "RUNNING") == [Notified(l, "BOOT", "RUNNING")];
    assert Without([l], l) == [];
  }

  // ---------------------------------------------------------------------
  // The object
  // ---------------------------------------------------------------------

  class StateMachine {
    var currentState: StateId
    var states: map<StateId, Hooks>
    var listeners: seq<ListenerId>
    /** Every hook and listener call and every warning so far, in order. */
    var effects: seq<Effect>

    function Model(): Machine
      reads this
    {
      Machine(currentState, states, listeners, effects)
    }

    ghost predicate Valid()
      reads this
    {
      ValidMachine(Model())
    }

    constructor (initialState: StateId)
      ensures Valid() && Model() == Create(initialState)
    {
      currentState := initialState;
      states := map[];
      listeners := [];
      effects := [];
      new;
      RegisterState(initialState, None);
    }

    method RegisterState(state: StateId, hooks: Option<Hooks>)
      modifies this
      ensures Model() == Register(old(Model()), state, hooks)
    {
      states := states[state := hooks.GetOr(NoHooks)];
    }

    method GetState() returns (s: StateId)
      ensures s == currentState
    {
      s := currentState;
    }

    method ChangeState(newState: StateId)
      requires Valid()
      modifies this
      ensures Valid() && Model() == Change(old(Model()), newState)
    {
      if newState !in states {
        effects := effects + [Warned(newState)];
        return;
      }
      if currentState == newState {
        return;
      }
      var previousState := currentState;
      var currentHooks := states[previousState];
      if currentHooks.onExit.Some? {
        effects := effects + [Exited(currentHooks.onExit.value, currentState)];
      }
      currentState := newState;
      var newHooks := states[newState];
      if newHooks.onEnter.Some? {
        effects := effects + [Entered(newHooks.onEnter.value, currentState)];
      }
      NotifyListeners(previousState, newState);
    }

    method AddStateChangeListener(listener: ListenerId)
      modifies this
      ensures Model() == AddListener(old(Model()), listener)
    {
      listeners := listeners + [listener];
    }

    method RemoveStateChangeListener(listener: ListenerId)
      modifies this
      ensures Model() == RemoveListener(old(Model()), listener)
    {
      listeners := Without(listeners, listener);
    }

    method NotifyListeners(previousState: StateId, newState: StateId)
      modifies this`effects
      ensures effects == old(effects) + Notifications(listeners, previousState, newState)
    {
      var i := 0;
      while i < |listeners|
        invariant 0 <= i <= |listeners|
        invariant effects == old(effects) + Notifications(listeners[..i], previousState, newState)
      {
        effects := effects + [Notified(listeners[i], previousState, newState)];
        assert listeners[..i + 1][..i] == listeners[..i];
        i := i + 1;
      }
      assert listeners[..|listeners|] == listeners;
    }
  }
}
