/** The unified input handler of `src/InputManager.js`: keyboard, touch and
    mouse events are folded into one `{leftIntent, rightIntent, inputType}`
    record that is published to subscribers when an intent changes.

    The browser is replaced by parameters: each handler receives the clock
    reading `now` (milliseconds) that `Date.now()` would give, and the touch
    handlers receive the bounding rectangle of the document. Subscribers are
    opaque identifiers; every call of a subscriber is recorded, in order, in
    the `delivered` log together with the state it received.

    The file has two layers. `Manager` and the functions over it are the
    value-level specification of every handler; the class `InputManager`
    keeps the same fields, updates them in place as the source does, and each
    of its methods is proved to produce exactly the specified next state. */
module Input {
  import opened MathUtils

  // ---------------------------------------------------------------------
  // Data model
  // ---------------------------------------------------------------------

  /** `inputType`: 'none', 'keyboard' or 'touch'. */
  datatype InputType = NoInput | Keyboard | Touch

  /** The published record. */
  datatype InputState = InputState(leftIntent: bool, rightIntent: bool, inputType: InputType)

  const InitialState := InputState(false, false, NoInput)

  /** The two halves of the screen. */
  datatype Zone = Left | Right

  /** Keys of `activeTouches`: a touch identifier, or the string 'mouse'. */
  datatype TouchId = Finger(identifier: int) | Mouse

  /** One active contact, in coordinates relative to the document. Its zone is
      decided once, from the start position. */
  datatype Contact = Contact(startX: real, startY: real, currentX: real, currentY: real, zone: Zone)

  /** One entry of an event's `changedTouches`. */
  datatype TouchPoint = TouchPoint(identifier: int, clientX: real, clientY: real)

  /** The part of `getBoundingClientRect()` that the handlers read. */
  datatype Rect = Rect(left: real, top: real, width: real)

  /** A subscriber, known only by identity. */
  type CallbackId = nat

  /** One invocation of a subscriber with the state it was given. */
  datatype Delivery = Delivery(callback: CallbackId, state: InputState)

  /** A pair of intents, the part of the state that decides publication. */
  datatype Intents = Intents(left: bool, right: bool)

  const DeadZone: real := 10.0
  const SwipeThreshold: real := 30.0
  const DebounceDelay: int := 16

  // ---------------------------------------------------------------------
  // Keys
  // ---------------------------------------------------------------------

  function LowerChar(c: char): char {
    if 'A' <= c <= 'Z' then (c as int + 32) as char else c
  }

  /** `String.prototype.toLowerCase`, on the ASCII letters. */
  function ToLower(s: string): (r: string)
    ensures |r| == |s|
    ensures forall i | 0 <= i < |s| :: r[i] == LowerChar(s[i])
  {
    if s == [] then [] else [LowerChar(s[0])] + ToLower(s[1..])
  }

  /** Lower-casing a key that is already lower case changes nothing, so a key
      normalised once is stored and looked up under the same name. */
  lemma ToLowerIdempotent(s: string)
    ensures ToLower(ToLower(s)) == ToLower(s)
  {
    var once := ToLower(s);
    var twice := ToLower(once);
    assert |twice| == |once|;
    forall i | 0 <= i < |once|
      ensures twice[i] == once[i]
    {
      assert once[i] == LowerChar(s[i]);
    }
  }

  predicate IsLeftKey(key: string) {
    key == "a" || key == "arrowleft"
  }

  predicate IsRightKey(key: string) {
    key == "d" || key == "arrowright"
  }

  /** `isMovementKey`: the four recognised keys after lower-casing. */
  predicate IsMovementKey(key: string) {
    key == "a" || key == "d" || key == "arrowleft" || key == "arrowright"
  }

  /** Every movement key is already lower case, so the key a handler stores
      is the key a later lookup of the same key finds. */
  lemma MovementKeysAreLowerCase(key: string)
    requires IsMovementKey(key)
    ensures ToLower(key) == key
  {
    LowerCaseIsFixed(key);
  }

  /** A string without upper-case letters is its own lower-case form. */
  lemma LowerCaseIsFixed(s: string)
    requires forall i | 0 <= i < |s| :: !('A' <= s[i] <= 'Z')
    ensures ToLower(s) == s
  {
    var r := ToLower(s);
    assert forall i | 0 <= i < |s| :: r[i] == s[i];
  }

  /** Every movement key is an alias of exactly one direction, so the
      keyboard branch of the resolver covers every key it can hold. */
  lemma MovementKeysAreDirectionAliases(key: string)
    ensures IsMovementKey(key) <==> IsLeftKey(key) || IsRightKey(key)
    ensures !(IsLeftKey(key) && IsRightKey(key))
  {
  }

  /** Upper-case letters are recognised as their lower-case keys, and other
      keys are not movement keys. */
  lemma LetterKeysIgnoreCase()
    ensures IsLeftKey(ToLower("A")) && IsRightKey(ToLower("D"))
    ensures !IsMovementKey(ToLower("W")) && !IsMovementKey(ToLower("s")) && !IsMovementKey(ToLower("space"))
  {
    assert ToLower("A") == "a";
    assert ToLower("D") == "d";
    assert ToLower("W") == "w";
    assert ToLower("s") == "s";
    assert |ToLower("space")| == 5;
  }

  // ---------------------------------------------------------------------
  // Touch classification
  // ---------------------------------------------------------------------

  /** `getTouchZone(x, width)`. */
  function GetTouchZone(x: real, width: real): (z: Zone)
    ensures z == Left <==> 2.0 * x < width
  {
    if x < width / 2.0 then Left else Right
  }

  /** The screen is split at its midpoint; the midpoint itself belongs to
      the right half. */
  lemma TouchZoneSplitsAtMidpoint(x: real, width: real)
    ensures GetTouchZone(x, width) == Left <==> 2.0 * x < width
    ensures GetTouchZone(width / 2.0, width) == Right
    ensures GetTouchZone(100.0, 800.0) == Left && GetTouchZone(600.0, 800.0) == Right
    ensures GetTouchZone(400.0, 800.0) == Right
  {
  }

  /** How one contact is read: a swipe, a press held in its zone, or
      neither (its displacement lies between the dead zone and the swipe
      threshold). */
  datatype Gesture = Swipe(toward: Zone) | Hold(zone: Zone) | Undecided

  function Classify(c: Contact): Gesture {
    var deltaX := c.currentX - c.startX;
    if Abs(deltaX) > SwipeThreshold then Swipe(if deltaX > 0.0 then Right else Left)
    else if Abs(deltaX) <= DeadZone then Hold(c.zone)
    else Undecided
  }

  /** Whether contact `c` asks for movement toward `z`. */
  predicate Pushes(c: Contact, z: Zone) {
    Classify(c) == Swipe(z) || Classify(c) == Hold(z)
  }

  /** The per-contact rule: a swipe follows the sign of its displacement
      whatever the contact's zone, a press inside the dead zone follows the
      zone, and anything in between asks for nothing. */
  lemma ContactRule(c: Contact)
    ensures var dx := c.currentX - c.startX;
      && (dx > SwipeThreshold ==> Pushes(c, Right) && !Pushes(c, Left))
      && (dx < -SwipeThreshold ==> Pushes(c, Left) && !Pushes(c, Right))
      && (Abs(dx) <= DeadZone ==> (Pushes(c, Left) <==> c.zone == Left) && (Pushes(c, Right) <==> c.zone == Right))
      && (DeadZone < Abs(dx) <= SwipeThreshold ==> !Pushes(c, Left) && !Pushes(c, Right))
  {
  }

  /** The contact created for a point at `(clientX, clientY)`: it starts
      where it is, and its zone is read from that position. */
  function NewContact(clientX: real, clientY: real, r: Rect): (c: Contact)
    ensures c.currentX == c.startX && c.currentY == c.startY
    ensures c.zone == GetTouchZone(c.startX, r.width)
    ensures Pushes(c, c.zone)
  {
    var x := clientX - r.left;
    var y := clientY - r.top;
    Contact(x, y, x, y, GetTouchZone(x, r.width))
  }

  // ---------------------------------------------------------------------
  // Intent resolution
  // ---------------------------------------------------------------------

  function TouchIntents(touches: map<TouchId, Contact>): Intents {
    Intents(exists id | id in touches :: Pushes(touches[id], Left),
            exists id | id in touches :: Pushes(touches[id], Right))
  }

  function KeyIntents(keys: set<string>): Intents {
    Intents("a" in keys || "arrowleft" in keys, "d" in keys || "arrowright" in keys)
  }

  /** The intents `updateMovementIntents` computes: contacts take priority
      and are OR-ed together; the held keys count only when no contact is
      active. */
  function ResolveIntents(keys: set<string>, touches: map<TouchId, Contact>): Intents {
    if |touches| > 0 then TouchIntents(touches) else KeyIntents(keys)
  }

  /** The `inputType` a recomputation leaves behind, given the one before. */
  function ResolveType(keys: set<string>, touches: map<TouchId, Contact>, previous: InputType): InputType {
    if |touches| > 0 then Touch
    else if |keys| == 0 then NoInput
    else if KeyIntents(keys).left || KeyIntents(keys).right then Keyboard
    else previous
  }

  function IntentsOf(s: InputState): Intents {
    Intents(s.leftIntent, s.rightIntent)
  }

  // ---------------------------------------------------------------------
  // The manager as a value, and one function per handler
  // ---------------------------------------------------------------------

  datatype Manager = Manager(
    inputState: InputState,
    keysPressed: set<string>,
    activeTouches: map<TouchId, Contact>,
    callbacks: seq<CallbackId>,
    lastUpdate: int,
    delivered: seq<Delivery>)

  const Initial := Manager(InitialState, {}, map[], [], 0, [])

  predicate NoDuplicates(s: seq<CallbackId>) {
    forall i, j | 0 <= i < j < |s| :: s[i] != s[j]
  }

  /** What holds of every reachable manager: only movement keys are held,
      the subscriber set has no repeats, and an input type of 'none' comes
      with no intent. */
  predicate ValidManager(m: Manager) {
    && (forall k | k in m.keysPressed :: IsMovementKey(k))
    && NoDuplicates(m.callbacks)
    && (m.inputState.inputType == NoInput ==> !m.inputState.leftIntent && !m.inputState.rightIntent)
  }

  /** The debounce test of the handlers: `now - lastUpdate < debounceDelay`. */
  predicate Debounced(lastUpdate: int, now: int) {
    now - lastUpdate < DebounceDelay
  }

  /** One delivery per subscriber, in subscription order. */
  function Broadcast(callbacks: seq<CallbackId>, s: InputState): seq<Delivery> {
    if callbacks == [] then []
    else Broadcast(callbacks[..|callbacks| - 1], s) + [Delivery(callbacks[|callbacks| - 1], s)]
  }

  lemma {:induction false} BroadcastReachesEachOnce(callbacks: seq<CallbackId>, s: InputState)
    ensures |Broadcast(callbacks, s)| == |callbacks|
    ensures forall i | 0 <= i < |callbacks| :: Broadcast(callbacks, s)[i] == Delivery(callbacks[i], s)
  {
    if callbacks != [] {
      BroadcastReachesEachOnce(callbacks[..|callbacks| - 1], s);
    }
  }

  /** `updateMovementIntents`. It reads the keys, contacts and subscribers
      and never changes them, and the delivery log only grows. */
  function Recompute(m: Manager, now: int): (r: Manager)
    ensures r.keysPressed == m.keysPressed && r.activeTouches == m.activeTouches
    ensures r.callbacks == m.callbacks
    ensures m.delivered <= r.delivered
  {
    if Debounced(m.lastUpdate, now) then m
    else
      var i := ResolveIntents(m.keysPressed, m.activeTouches);
      var t := ResolveType(m.keysPressed, m.activeTouches, m.inputState.inputType);
      if i != IntentsOf(m.inputState) then
        var s := InputState(i.left, i.right, t);
        m.(inputState := s, lastUpdate := now, delivered := m.delivered + Broadcast(m.callbacks, s))
      else
        m.(inputState := m.inputState.(inputType := t))
  }

  /** The publication rule. A recomputation changes neither the keys, the
      contacts nor the subscribers. Inside the debounce window it changes
      nothing at all; outside it, the intents become the resolved ones. The
      timestamp moves and the subscribers are called, each once and in
      order, exactly when the intents change. */
  lemma RecomputePublishesOnlyChanges(m: Manager, now: int)
    ensures var r := Recompute(m, now);
      && r.keysPressed == m.keysPressed && r.activeTouches == m.activeTouches && r.callbacks == m.callbacks
      && (Debounced(m.lastUpdate, now) ==> r == m)
      && (!Debounced(m.lastUpdate, now) ==>
            && IntentsOf(r.inputState) == ResolveIntents(m.keysPressed, m.activeTouches)
            && r.inputState.inputType == ResolveType(m.keysPressed, m.activeTouches, m.inputState.inputType))
      && (IntentsOf(r.inputState) == IntentsOf(m.inputState) ==> r.lastUpdate == m.lastUpdate && r.delivered == m.delivered)
      && (IntentsOf(r.inputState) != IntentsOf(m.inputState) ==>
            && r.lastUpdate == now
            && r.delivered == m.delivered + Broadcast(m.callbacks, r.inputState))
  {
  }

  /** `handleKeyDown`. */
  function KeyDown(m: Manager, key: string, now: int): Manager {
    var k := ToLower(key);
    if IsMovementKey(k) && k !in m.keysPressed then
      Recompute(m.(keysPressed := m.keysPressed + {k}, inputState := m.inputState.(inputType := Keyboard)), now)
    else m
  }

  /** `handleKeyUp`. */
  function KeyUp(m: Manager, key: string, now: int): Manager {
    var k := ToLower(key);
    if IsMovementKey(k) then Recompute(m.(keysPressed := m.keysPressed - {k}), now) else m
  }

  /** No later entry of `points` names the same touch as entry `i`. */
  predicate LastMention(points: seq<TouchPoint>, i: int)
    requires 0 <= i < |points|
  {
    forall j | i < j < |points| :: points[j].identifier != points[i].identifier
  }

  /** The identifiers named by a list of changed touches. */
  function IdsOf(points: seq<TouchPoint>): set<TouchId> {
    set p | p in points :: Finger(p.identifier)
  }

  /** The contacts after `touchstart` records each changed touch in turn. */
  function StartContacts(touches: map<TouchId, Contact>, points: seq<TouchPoint>, r: Rect): map<TouchId, Contact> {
    if points == [] then touches
    else
      var p := points[|points| - 1];
      StartContacts(touches, points[..|points| - 1], r)[Finger(p.identifier) := NewContact(p.clientX, p.clientY, r)]
  }

  /** The contacts after `touchmove` updates the current position of each
      changed touch that is known; unknown identifiers are skipped. */
  function MoveContacts(touches: map<TouchId, Contact>, points: seq<TouchPoint>, r: Rect): map<TouchId, Contact> {
    if points == [] then touches
    else
      var p := points[|points| - 1];
      var before := MoveContacts(touches, points[..|points| - 1], r);
      var id := Finger(p.identifier);
      if id in before then before[id := before[id].(currentX := p.clientX - r.left, currentY := p.clientY - r.top)]
      else before
  }

  /** `handleTouchStart`. */
  function TouchStart(m: Manager, points: seq<TouchPoint>, r: Rect, now: int): Manager {
    if Debounced(m.lastUpdate, now) then m
    else
      Recompute(m.(inputState := m.inputState.(inputType := Touch),
                   activeTouches := StartContacts(m.activeTouches, points, r)), now)
  }

  /** `handleTouchMove`. */
  function TouchMove(m: Manager, points: seq<TouchPoint>, r: Rect, now: int): Manager {
    if Debounced(m.lastUpdate, now) then m
    else Recompute(m.(activeTouches := MoveContacts(m.activeTouches, points, r)), now)
  }

  /** `handleTouchEnd`: no debounce test of its own. */
  function TouchEnd(m: Manager, points: seq<TouchPoint>, now: int): Manager {
    Recompute(m.(activeTouches := m.activeTouches - IdsOf(points)), now)
  }

  /** `handleMouseDown`: the mouse acts as a contact named 'mouse'. */
  function MouseDown(m: Manager, clientX: real, clientY: real, r: Rect, now: int): Manager {
    Recompute(m.(activeTouches := m.activeTouches[Mouse := NewContact(clientX, clientY, r)],
                 inputState := m.inputState.(inputType := Touch)), now)
  }

  /** `handleMouseUp`. */
  function MouseUp(m: Manager, now: int): Manager {
    Recompute(m.(activeTouches := m.activeTouches - {Mouse}), now)
  }

  /** `Set.prototype.delete` on the subscriber set, kept in insertion
      order. */
  function RemoveCallback(callbacks: seq<CallbackId>, cb: CallbackId): seq<CallbackId> {
    if callbacks == [] then []
    else if callbacks[0] == cb then RemoveCallback(callbacks[1..], cb)
    else [callbacks[0]] + RemoveCallback(callbacks[1..], cb)
  }

  /** `subscribe`: the callback joins the set (a Set keeps one copy, at its
      first position) and is called once at once with the current state. */
  function Subscribed(m: Manager, cb: CallbackId): Manager {
    m.(callbacks := if cb in m.callbacks then m.callbacks else m.callbacks + [cb],
       delivered := m.delivered + [Delivery(cb, m.inputState)])
  }

  /** The function `subscribe` returns. */
  function Unsubscribed(m: Manager, cb: CallbackId): Manager {
    m.(callbacks := RemoveCallback(m.callbacks, cb))
  }

  /** `destroy`: only clearing the subscribers has an effect. */
  function Destroyed(m: Manager): Manager {
    m.(callbacks := [])
  }

  // ---------------------------------------------------------------------
  // Properties of the specification
  // ---------------------------------------------------------------------

  /** Every recomputation keeps the manager's invariant, provided the state
      it starts from holds only movement keys, no repeated subscriber, and no
      intent under input type 'none'. */
  lemma RecomputeKeepsValid(m: Manager, now: int)
    requires ValidManager(m)
    ensures ValidManager(Recompute(m, now))
  {
    var r := Recompute(m, now);
    if !Debounced(m.lastUpdate, now) && r.inputState.inputType == NoInput {
      assert |m.activeTouches| == 0 && |m.keysPressed| == 0;
      assert m.keysPressed == {};
      assert IntentsOf(r.inputState) == Intents(false, false);
    }
  }

  lemma KeyDownKeepsValid(m: Manager, key: string, now: int)
    requires ValidManager(m)
    ensures ValidManager(KeyDown(m, key, now))
  {
    var k := ToLower(key);
    if IsMovementKey(k) && k !in m.keysPressed {
      RecomputeKeepsValid(m.(keysPressed := m.keysPressed + {k}, inputState := m.inputState.(inputType := Keyboard)), now);
    }
  }

  lemma KeyUpKeepsValid(m: Manager, key: string, now: int)
    requires ValidManager(m)
    ensures ValidManager(KeyUp(m, key, now))
  {
    var k := ToLower(key);
    if IsMovementKey(k) {
      RecomputeKeepsValid(m.(keysPressed := m.keysPressed - {k}), now);
    }
  }

  lemma TouchStartKeepsValid(m: Manager, points: seq<TouchPoint>, r: Rect, now: int)
    requires ValidManager(m)
    ensures ValidManager(TouchStart(m, points, r, now))
  {
    if !Debounced(m.lastUpdate, now) {
      RecomputeKeepsValid(m.(inputState := m.inputState.(inputType := Touch),
                             activeTouches := StartContacts(m.activeTouches, points, r)), now);
    }
  }

  lemma TouchMoveKeepsValid(m: Manager, points: seq<TouchPoint>, r: Rect, now: int)
    requires ValidManager(m)
    ensures ValidManager(TouchMove(m, points, r, now))
  {
    if !Debounced(m.lastUpdate, now) {
      RecomputeKeepsValid(m.(activeTouches := MoveContacts(m.activeTouches, points, r)), now);
    }
  }

  lemma TouchEndKeepsValid(m: Manager, points: seq<TouchPoint>, now: int)
    requires ValidManager(m)
    ensures ValidManager(TouchEnd(m, points, now))
  {
    RecomputeKeepsValid(m.(activeTouches := m.activeTouches - IdsOf(points)), now);
  }

  lemma MouseDownKeepsValid(m: Manager, x: real, y: real, r: Rect, now: int)
    requires ValidManager(m)
    ensures ValidManager(MouseDown(m, x, y, r, now))
  {
    RecomputeKeepsValid(m.(activeTouches := m.activeTouches[Mouse := NewContact(x, y, r)],
                           inputState := m.inputState.(inputType := Touch)), now);
  }

  lemma MouseUpKeepsValid(m: Manager, now: int)
    requires ValidManager(m)
    ensures ValidManager(MouseUp(m, now))
  {
    RecomputeKeepsValid(m.(activeTouches := m.activeTouches - {Mouse}), now);
  }

  lemma {:induction false} RemoveCallbackSpec(callbacks: seq<CallbackId>, cb: CallbackId)
    ensures cb !in RemoveCallback(callbacks, cb)
    ensures forall c | c != cb :: c in RemoveCallback(callbacks, cb) <==> c in callbacks
    ensures NoDuplicates(callbacks) ==> NoDuplicates(RemoveCallback(callbacks, cb))
  {
    if callbacks != [] {
      RemoveCallbackSpec(callbacks[1..], cb);
      var rest := RemoveCallback(callbacks[1..], cb);
      if NoDuplicates(callbacks) {
        assert NoDuplicates(callbacks[1..]);
        assert callbacks[0] !in callbacks[1..];
        assert callbacks[0] !in rest;
      }
    }
  }

  /** Deleting a subscriber keeps the others in insertion order: it
      distributes over concatenation and drops exactly the matching one. */
  lemma {:induction false} RemoveCallbackKeepsOrder(a: seq<CallbackId>, b: seq<CallbackId>, cb: CallbackId)
    ensures RemoveCallback(a + b, cb) == RemoveCallback(a, cb) + RemoveCallback(b, cb)
    ensures forall c :: RemoveCallback([c], cb) == if c == cb then [] else [c]
  {
    if a == [] {
      assert a + b == b;
    } else {
      var ab := a + b;
      assert ab[0] == a[0];
      assert ab[1..] == a[1..] + b;
      RemoveCallbackKeepsOrder(a[1..], b, cb);
    }
    forall c
      ensures RemoveCallback([c], cb) == if c == cb then [] else [c]
    {
      assert [c][1..] == [];
    }
  }

  lemma ObserversKeepValid(m: Manager, cb: CallbackId)
    requires ValidManager(m)
    ensures ValidManager(Subscribed(m, cb))
    ensures ValidManager(Unsubscribed(m, cb))
    ensures ValidManager(Destroyed(m))
  {
    RemoveCallbackSpec(m.callbacks, cb);
  }

  /** `subscribe` registers the callback and calls it exactly once with the
      current state; the function it returns removes that callback and no
      other, keeping the rest. */
  lemma SubscribeThenUnsubscribe(m: Manager, cb: CallbackId)
    ensures cb in Subscribed(m, cb).callbacks
    ensures Subscribed(m, cb).delivered == m.delivered + [Delivery(cb, m.inputState)]
    ensures cb !in Unsubscribed(Subscribed(m, cb), cb).callbacks
    ensures forall c | c != cb :: c in Unsubscribed(Subscribed(m, cb), cb).callbacks <==> c in m.callbacks
  {
    RemoveCallbackSpec(Subscribed(m, cb).callbacks, cb);
  }

  /** While a contact is active the keyboard is ignored: the recomputed
      state is the same whatever keys are held, and its type is 'touch'. */
  lemma TouchTakesPriority(m: Manager, otherKeys: set<string>, now: int)
    requires |m.activeTouches| > 0 && !Debounced(m.lastUpdate, now)
    ensures Recompute(m, now).inputState == Recompute(m.(keysPressed := otherKeys), now).inputState
    ensures Recompute(m, now).inputState.inputType == Touch
    ensures IntentsOf(Recompute(m, now).inputState) == TouchIntents(m.activeTouches)
  {
  }

  /** With no contact, the intents are read from the held keys and the type
      is 'none' exactly when no key is held. */
  lemma KeyboardWhenNoContact(m: Manager, now: int)
    requires ValidManager(m)
    requires |m.activeTouches| == 0 && !Debounced(m.lastUpdate, now)
    ensures var s := Recompute(m, now).inputState;
      && (s.leftIntent <==> "a" in m.keysPressed || "arrowleft" in m.keysPressed)
      && (s.rightIntent <==> "d" in m.keysPressed || "arrowright" in m.keysPressed)
      && (s.inputType == NoInput <==> m.keysPressed == {})
  {
    var s := Recompute(m, now).inputState;
    if m.keysPressed != {} {
      var k :| k in m.keysPressed;
      MovementKeysAreDirectionAliases(k);
      assert KeyIntents(m.keysPressed).left || KeyIntents(m.keysPressed).right;
    }
  }

  /** Inside the debounce window the touch start and move handlers drop the
      event entirely: no contact is added or moved and nothing else changes. */
  lemma DebounceDropsTouchEvents(m: Manager, points: seq<TouchPoint>, r: Rect, now: int)
    requires Debounced(m.lastUpdate, now)
    ensures TouchStart(m, points, r, now) == m
    ensures TouchMove(m, points, r, now) == m
  {
  }

  /** A key that is already held: a repeated keydown changes nothing. */
  lemma RepeatedKeyDownIsIgnored(m: Manager, key: string, now: int)
    requires ToLower(key) in m.keysPressed
    ensures KeyDown(m, key, now) == m
  {
  }

  /** Key-up always forgets the key, and touch-end always forgets its
      contacts, even when the recomputation that follows is debounced. */
  lemma ReleasesAreAlwaysRecorded(m: Manager, key: string, points: seq<TouchPoint>, now: int)
    requires IsMovementKey(ToLower(key))
    ensures KeyUp(m, key, now).keysPressed == m.keysPressed - {ToLower(key)}
    ensures TouchEnd(m, points, now).activeTouches == m.activeTouches - IdsOf(points)
    ensures MouseUp(m, now).activeTouches == m.activeTouches - {Mouse}
  {
  }

  /** Every touch of a `touchstart` becomes a contact that has not moved yet
      and lies in the zone of its start position; contacts the event does
      not name are kept as they were. */
  lemma {:induction false} StartContactsSpec(touches: map<TouchId, Contact>, points: seq<TouchPoint>, r: Rect)
    ensures StartContacts(touches, points, r).Keys == touches.Keys + IdsOf(points)
    ensures forall id | id in IdsOf(points) ::
      var c := StartContacts(touches, points, r)[id];
      c.currentX == c.startX && c.currentY == c.startY && c.zone == GetTouchZone(c.startX, r.width)
    ensures forall id | id in touches && id !in IdsOf(points) :: StartContacts(touches, points, r)[id] == touches[id]
  {
    if points != [] {
      var init := points[..|points| - 1];
      var p := points[|points| - 1];
      StartContactsSpec(touches, init, r);
      assert points == init + [p];
      assert IdsOf(points) == IdsOf(init) + {Finger(p.identifier)};
    }
  }

  /** A `touchmove` only moves the current position of known contacts: the
      set of contacts, their start positions and their zones never change. */
  lemma {:induction false} MoveContactsKeepsStartAndZone(touches: map<TouchId, Contact>, points: seq<TouchPoint>, r: Rect)
    ensures MoveContacts(touches, points, r).Keys == touches.Keys
    ensures forall id | id in touches ::
      var c := MoveContacts(touches, points, r)[id];
      c.startX == touches[id].startX && c.startY == touches[id].startY && c.zone == touches[id].zone
  {
    if points != [] {
      MoveContactsKeepsStartAndZone(touches, points[..|points| - 1], r);
    }
  }

  /** A known contact a `touchmove` names ends where the last mention of
      it puts it; one the event does not name is left as it was. */
  lemma {:induction false} MoveContactsFollowsLastMention(touches: map<TouchId, Contact>, points: seq<TouchPoint>, r: Rect)
    ensures MoveContacts(touches, points, r).Keys == touches.Keys
    ensures forall i | 0 <= i < |points| && Finger(points[i].identifier) in touches && LastMention(points, i) ::
      var c := MoveContacts(touches, points, r)[Finger(points[i].identifier)];
      c.currentX == points[i].clientX - r.left && c.currentY == points[i].clientY - r.top
    ensures forall id | id in touches && id !in IdsOf(points) :: MoveContacts(touches, points, r)[id] == touches[id]
  {
    if points != [] {
      var init := points[..|points| - 1];
      MoveContactsKeepsStartAndZone(touches, init, r);
      MoveContactsFollowsLastMention(touches, init, r);
      forall i | 0 <= i < |init| && LastMention(points, i)
        ensures LastMention(init, i)
      {
      }
      assert points == init + [points[|points| - 1]];
      assert IdsOf(points) == IdsOf(init) + {Finger(points[|points| - 1].identifier)};
    }
  }

  /** A release inside the debounce window is recorded but not published.
      With one subscriber: pressing 'a' publishes the left intent; releasing
      it 10 ms later empties the key set while `leftIntent` stays true and
      nobody is told; pressing it again later publishes nothing either,
      because the recomputed intent equals the stale one. */
  lemma QuickReleaseLeavesStaleIntent()
    ensures var m0 := Subscribed(Initial, 7);
      var pressed := KeyDown(m0, "a", 1000);
      var released := KeyUp(pressed, "a", 1010);
      var again := KeyDown(released, "a", 2000);
      && pressed.inputState == InputState(true, false, Keyboard)
      && pressed.delivered == m0.delivered + [Delivery(7, pressed.inputState)]
      && released.keysPressed == {} && released.inputState.leftIntent
      && released.delivered == pressed.delivered
      && again.keysPressed == {"a"}
      && again.delivered == pressed.delivered && again.lastUpdate == pressed.lastUpdate
  {
    assert ToLower("a") == "a";
    var m0 := Subscribed(Initial, 7);
    assert m0.callbacks == [7];
    var m1 := m0.(keysPressed := {"a"}, inputState := m0.inputState.(inputType := Keyboard));
    assert ResolveIntents(m1.keysPressed, m1.activeTouches) == Intents(true, false);
    var pressed := KeyDown(m0, "a", 1000);
    assert pressed == Recompute(m1, 1000);
    assert Broadcast([7], pressed.inputState) == [Delivery(7, pressed.inputState)];
    var released := KeyUp(pressed, "a", 1010);
    assert Debounced(pressed.lastUpdate, 1010);
    assert released == pressed.(keysPressed := {});
    var m2 := released.(keysPressed := {"a"}, inputState := released.inputState.(inputType := Keyboard));
    assert ResolveIntents(m2.keysPressed, m2.activeTouches) == Intents(true, false);
  }

  /** A second key pressed inside the debounce window is held but not
      published: with one subscriber, after 'a' and then 'd' 5 ms apart,
      both keys are held, only the left intent is set, and the subscriber
      heard of the first key only. */
  lemma SecondKeyInsideWindowIsNotPublished()
    ensures var m0 := Subscribed(Initial, 7);
      var first := KeyDown(m0, "a", 1000);
      var both := KeyDown(first, "d", 1005);
      && first.delivered == m0.delivered + [Delivery(7, InputState(true, false, Keyboard))]
      && both.keysPressed == {"a", "d"}
      && both.inputState == InputState(true, false, Keyboard)
      && both.delivered == first.delivered && both.lastUpdate == first.lastUpdate
  {
    assert ToLower("a") == "a";
    assert ToLower("d") == "d";
    var m0 := Subscribed(Initial, 7);
    assert m0.callbacks == [7];
    var m1 := m0.(keysPressed := {"a"}, inputState := m0.inputState.(inputType := Keyboard));
    assert ResolveIntents(m1.keysPressed, m1.activeTouches) == Intents(true, false);
    var first := KeyDown(m0, "a", 1000);
    assert first == Recompute(m1, 1000);
    assert Broadcast([7], first.inputState) == [Delivery(7, first.inputState)];
    assert Debounced(first.lastUpdate, 1005);
  }

  /** With a single contact, the intents are that contact's own. */
  lemma SingleContactIntents(id: TouchId, c: Contact)
    ensures TouchIntents(map[id := c]) == Intents(Pushes(c, Left), Pushes(c, Right))
  {
    var m := map[id := c];
    assert m.Keys == {id};
  }

  /** From rest, a single finger touching down asks for the side of the
      surface it landed on, and nothing else. */
  lemma FirstTouchAsksForItsZone(p: TouchPoint, r: Rect, now: int)
    requires now >= DebounceDelay
    ensures var zone := GetTouchZone(p.clientX - r.left, r.width);
      TouchStart(Initial, [p], r, now).inputState == InputState(zone == Left, zone == Right, Touch)
  {
    var c := NewContact(p.clientX, p.clientY, r);
    assert [p][..|[p]| - 1] == [];
    var touches := StartContacts(map[], [p], r);
    assert touches == StartContacts(map[], [], r)[Finger(p.identifier) := c];
    assert touches.Keys == {Finger(p.identifier)};
    SingleContactIntents(Finger(p.identifier), c);
    var m1 := Initial.(inputState := InitialState.(inputType := Touch), activeTouches := touches);
    assert TouchStart(Initial, [p], r, now) == Recompute(m1, now);
    RecomputePublishesOnlyChanges(m1, now);
    assert ResolveIntents(m1.keysPressed, touches) == Intents(c.zone == Left, c.zone == Right);
  }

  /** A touch at x = 100 on a surface 800 wide asks for the left; one at
      x = 700 asks for the right. */
  lemma TouchExamples(now: int)
    requires now >= DebounceDelay
    ensures TouchStart(Initial, [TouchPoint(0, 100.0, 200.0)], Rect(0.0, 0.0, 800.0), now).inputState
      == InputState(true, false, Touch)
    ensures TouchStart(Initial, [TouchPoint(1, 700.0, 200.0)], Rect(0.0, 0.0, 800.0), now).inputState
      == InputState(false, true, Touch)
  {
    FirstTouchAsksForItsZone(TouchPoint(0, 100.0, 200.0), Rect(0.0, 0.0, 800.0), now);
    FirstTouchAsksForItsZone(TouchPoint(1, 700.0, 200.0), Rect(0.0, 0.0, 800.0), now);
  }

  // ---------------------------------------------------------------------
  // The object
  // ---------------------------------------------------------------------

  class InputManager {
    var inputState: InputState
    var keysPressed: set<string>
    var activeTouches: map<TouchId, Contact>
    var callbacks: seq<CallbackId>
    var lastUpdate: int
    /** Every subscriber call made so far, in order. */
    var delivered: seq<Delivery>

    function Model(): Manager
      reads this
    {
      Manager(inputState, keysPressed, activeTouches, callbacks, lastUpdate, delivered)
    }

    ghost predicate Valid()
      reads this
    {
      ValidManager(Model())
    }

    constructor ()
      ensures Valid() && Model() == Initial
    {
      inputState := InitialState;
      keysPressed := {};
      activeTouches := map[];
      callbacks := [];
      lastUpdate := 0;
      delivered := [];
    }

    method HandleKeyDown(key: string, now: int)
      requires Valid()
      modifies this
      ensures Valid() && Model() == KeyDown(old(Model()), key, now)
    {
      KeyDownKeepsValid(Model(), key, now);
      var k := ToLower(key);
      if IsMovementKey(k) {
        if k !in keysPressed {
          keysPressed := keysPressed + {k};
          inputState := inputState.(inputType := Keyboard);
          UpdateMovementIntents(now);
        }
      }
    }

    method HandleKeyUp(key: string, now: int)
      requires Valid()
      modifies this
      ensures Valid() && Model() == KeyUp(old(Model()), key, now)
    {
      KeyUpKeepsValid(Model(), key, now);
      var k := ToLower(key);
      if IsMovementKey(k) {
        keysPressed := keysPressed - {k};
        UpdateMovementIntents(now);
      }
    }

    method HandleTouchStart(points: seq<TouchPoint>, rect: Rect, now: int)
      requires Valid()
      modifies this
      ensures Valid() && Model() == TouchStart(old(Model()), points, rect, now)
    {
      ghost var m0 := Model();
      TouchStartKeepsValid(m0, points, rect, now);
      if now - lastUpdate < DebounceDelay {
        return;
      }
      inputState := inputState.(inputType := Touch);
      var touches := activeTouches;
      var i := 0;
      while i < |points|
        invariant 0 <= i <= |points|
        invariant touches == StartContacts(activeTouches, points[..i], rect)
      {
        var p := points[i];
        var x := p.clientX - rect.left;
        var zone := GetTouchZone(x, rect.width);
        touches := touches[Finger(p.identifier) := Contact(x, p.clientY - rect.top, x, p.clientY - rect.top, zone)];
        assert points[..i + 1][..i] == points[..i];
        i := i + 1;
      }
      assert points[..|points|] == points;
      activeTouches := touches;
      assert Model() == m0.(inputState := m0.inputState.(inputType := Touch),
                            activeTouches := StartContacts(m0.activeTouches, points, rect));
      UpdateMovementIntents(now);
    }

    method HandleTouchMove(points: seq<TouchPoint>, rect: Rect, now: int)
      requires Valid()
      modifies this
      ensures Valid() && Model() == TouchMove(old(Model()), points, rect, now)
    {
      ghost var m0 := Model();
      TouchMoveKeepsValid(m0, points, rect, now);
      if now - lastUpdate < DebounceDelay {
        return;
      }
      var touches := activeTouches;
      var i := 0;
      while i < |points|
        invariant 0 <= i <= |points|
        invariant touches == MoveContacts(activeTouches, points[..i], rect)
      {
        var p := points[i];
        var id := Finger(p.identifier);
        if id in touches {
          touches := touches[id := touches[id].(currentX := p.clientX - rect.left, currentY := p.clientY - rect.top)];
        }
        assert points[..i + 1][..i] == points[..i];
        i := i + 1;
      }
      assert points[..|points|] == points;
      activeTouches := touches;
      assert Model() == m0.(activeTouches := MoveContacts(m0.activeTouches, points, rect));
      UpdateMovementIntents(now);
    }

    method HandleTouchEnd(points: seq<TouchPoint>, now: int)
      requires Valid()
      modifies this
      ensures Valid() && Model() == TouchEnd(old(Model()), points, now)
    {
      TouchEndKeepsValid(Model(), points, now);
      var touches := activeTouches;
      var i := 0;
      while i < |points|
        invariant 0 <= i <= |points|
        invariant touches == activeTouches - IdsOf(points[..i])
      {
        touches := touches - {Finger(points[i].identifier)};
        assert IdsOf(points[..i + 1]) == IdsOf(points[..i]) + {Finger(points[i].identifier)} by {
          assert points[..i + 1] == points[..i] + [points[i]];
        }
        i := i + 1;
      }
      assert points[..|points|] == points;
      activeTouches := touches;
      UpdateMovementIntents(now);
    }

    method HandleMouseDown(clientX: real, clientY: real, rect: Rect, now: int)
      requires Valid()
      modifies this
      ensures Valid() && Model() == MouseDown(old(Model()), clientX, clientY, rect, now)
    {
      ghost var m0 := Model();
      MouseDownKeepsValid(m0, clientX, clientY, rect, now);
      var x := clientX - rect.left;
      var zone := GetTouchZone(x, rect.width);
      activeTouches := activeTouches[Mouse := Contact(x, clientY - rect.top, x, clientY - rect.top, zone)];
      inputState := inputState.(inputType := Touch);
      assert Model() == m0.(inputState := m0.inputState.(inputType := Touch),
                            activeTouches := m0.activeTouches[Mouse := NewContact(clientX, clientY, rect)]);
      UpdateMovementIntents(now);
    }

    method HandleMouseUp(now: int)
      requires Valid()
      modifies this
      ensures Valid() && Model() == MouseUp(old(Model()), now)
    {
      MouseUpKeepsValid(Model(), now);
      activeTouches := activeTouches - {Mouse};
      UpdateMovementIntents(now);
    }

    /** Recomputes the intents by walking the contacts, or reading the keys
        when there is none, and publishes them if they changed. */
    method UpdateMovementIntents(now: int)
      modifies this
      ensures Model() == Recompute(old(Model()), now)
    {
      if now - lastUpdate < DebounceDelay {
        return;
      }
      var leftIntent, rightIntent := false, false;
      if |activeTouches| > 0 {
        leftIntent, rightIntent := ContactIntents(activeTouches);
        inputState := inputState.(inputType := Touch);
      } else {
        if "a" in keysPressed || "arrowleft" in keysPressed {
          leftIntent := true;
          inputState := inputState.(inputType := Keyboard);
        }
        if "d" in keysPressed || "arrowright" in keysPressed {
          rightIntent := true;
          inputState := inputState.(inputType := Keyboard);
        }
        if |keysPressed| == 0 {
          inputState := inputState.(inputType := NoInput);
        }
      }
      if inputState.leftIntent != leftIntent || inputState.rightIntent != rightIntent {
        inputState := inputState.(leftIntent := leftIntent, rightIntent := rightIntent);
        lastUpdate := now;
        NotifyCallbacks();
      }
    }

    /** The loop of `updateMovementIntents` over the active contacts: each
        contact's contribution is OR-ed into the intents. */
    static method ContactIntents(touches: map<TouchId, Contact>) returns (leftIntent: bool, rightIntent: bool)
      ensures Intents(leftIntent, rightIntent) == TouchIntents(touches)
    {
      leftIntent, rightIntent := false, false;
      var pending := touches.Keys;
      while pending != {}
        invariant pending <= touches.Keys
        invariant leftIntent <==> exists id | id in touches && id !in pending :: Pushes(touches[id], Left)
        invariant rightIntent <==> exists id | id in touches && id !in pending :: Pushes(touches[id], Right)
        decreases |pending|
      {
        var id :| id in pending;
        var touch := touches[id];
        var deltaX := touch.currentX - touch.startX;
        if Abs(deltaX) > SwipeThreshold {
          if deltaX > 0.0 {
            rightIntent := true;
          } else {
            leftIntent := true;
          }
        } else if Abs(deltaX) <= DeadZone {
          if touch.zone == Left {
            leftIntent := true;
          } else {
            rightIntent := true;
          }
        }
        pending := pending - {id};
      }
    }

    /** A copy of the current state. */
    method GetState() returns (s: InputState)
      ensures s == inputState
    {
      s := inputState;
    }

    method Subscribe(cb: CallbackId)
      requires Valid()
      modifies this
      ensures Valid() && Model() == Subscribed(old(Model()), cb)
    {
      ObserversKeepValid(Model(), cb);
      if cb !in callbacks {
        callbacks := callbacks + [cb];
      }
      delivered := delivered + [Delivery(cb, inputState)];
    }

    /** The function returned by `subscribe`. */
    method Unsubscribe(cb: CallbackId)
      requires Valid()
      modifies this
      ensures Valid() && Model() == Unsubscribed(old(Model()), cb)
    {
      ObserversKeepValid(Model(), cb);
      callbacks := RemoveCallback(callbacks, cb);
    }

    /** Calls every subscriber with the current state, in subscription order. */
    method NotifyCallbacks()
      modifies this`delivered
      ensures delivered == old(delivered) + Broadcast(callbacks, inputState)
    {
      var i := 0;
      while i < |callbacks|
        invariant 0 <= i <= |callbacks|
        invariant delivered == old(delivered) + Broadcast(callbacks[..i], inputState)
      {
        assert callbacks[..i + 1][..i] == callbacks[..i];
        delivered := delivered + [Delivery(callbacks[i], inputState)];
        i := i + 1;
      }
      assert callbacks[..|callbacks|] == callbacks;
    }

    method Destroy()
      requires Valid()
      modifies this
      ensures Valid() && Model() == Destroyed(old(Model()))
    {
      callbacks := [];
    }
  }
}
