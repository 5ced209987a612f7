# Runner game and toilet finder: verified models of the decision logic

This project models, in Dafny, the five pieces of sequential decision logic of
a repository that is otherwise rendering, React Native screens and network
glue:

- **Input manager** (`src/InputManager.js`, module `Input`).
  - Keyboard, touch and mouse events are folded into one
    `{leftIntent, rightIntent, inputType}` record.
  - Touch has priority over the keyboard. Each contact is read as a swipe,
    as a press held in its screen half, or as nothing, and contacts are
    OR-ed together.
  - The keyboard aliases are `a`/`arrowleft` and `d`/`arrowright`.
  - The record is published to subscribers only when an intent changes,
    and nothing is recomputed inside a 16 ms debounce window.
- **State machine** (`src/engine/StateMachine.ts`, module `Engine`).
  - A registry of states with optional enter and exit hooks, a current
    state, and an ordered list of listeners.
  - A transition must name a registered state that differs from the
    current one.
  - Exit hook, enter hook and listener calls are logged, so their order is
    part of the model.
- **Lane controller** (`src/controllers/PlayerController.ts`, module
  `LaneControl`).
  - Lanes are laid out symmetrically about zero.
  - The lane index moves one step per rising edge of an intent.
  - The position glides towards the lane with a speed limit, a snap rule,
    an overshoot guard and a clamp into bounds.
- **DOM player mover** (`src/PlayerController.js`, module `DomControl`).
  - Intents become a velocity of -5, 0 or +5 pixels; both directions held
    gives 0.
  - The player's corner is clamped into the game area.
- **Toilet store** (`src/store/useToiletStore.js`, module `ToiletStore`).
  - The full list is filtered by up to four independent filters.
  - There are setters for the list, the selection and the filters, and a
    reset.

**Shared modules.** `Wrappers` holds `Option`. `MathUtils` holds the
clamp and interpolation helpers that the controllers use, which are
`THREE.MathUtils.clamp`, `lerp` and `Math.max`/`Math.min`.

**How each stateful part is modelled.** Every stateful part is a class
with the source's fields, updated in place. Each method is proved against a
value-level specification, in one of two shapes:

- **A whole-state specification.** The input manager and the state machine
  have a datatype for their whole state (`Input.Manager`, `Engine.Machine`)
  and one function per operation (`Input.KeyDown`, `Engine.Change`). Each
  method is proved to produce exactly the state that function gives.
- **Per-field specifications.** The lane controller, the DOM player mover
  and the toilet store have no state datatype. Each method ties every field
  it writes to a function of the old fields and the arguments:
  `LaneControl.NextLaneIndex` and `LaneControl.Approach`,
  `DomControl.VelocityFor` and `DomControl.Constrain`,
  `ToiletStore.Filtered`.

The properties are lemmas about those functions.

**Callbacks.** Subscribers, hooks and listeners are opaque identifiers.
Each call to one is appended to a log (`delivered`, `effects`).

**Things the model takes as parameters:**

- the clock (`now`);
- the document's bounding rectangle;
- the game area's size;
- the damping factor `1 - exp(-smoothing * deltaTime)` (`blend`).

**Behaviour of the code that the lemmas make explicit:**

- **Intents are not published inside the debounce window.** Take a key
  pressed, or released, within 16 ms of the last publication. It is
  recorded in the key set, but the intents are not recomputed. They stay
  stale until a later event outside the window.
  - `Input.QuickReleaseLeavesStaleIntent`: with one subscriber, pressing
    `a` is published, but releasing it 10 ms later is not: `leftIntent`
    stays true with no key held. A second press later publishes nothing
    and leaves the timestamp alone.
  - `Input.SecondKeyInsideWindowIsNotPublished`: with one subscriber,
    pressing `d` 5 ms after `a` leaves `rightIntent` false and tells the
    subscriber nothing.
  - The keyboard tests for simultaneous keys and for key release expect
    the opposite. They check it only inside a `setTimeout` callback.
- **When both rising edges arrive together, the lane controller steps
  left only** (`LaneControl.SimultaneousEdgesMoveLeft`). This is the
  code's `if … else if`.
- **`setToilets` does not re-apply the active filters**
  (`ToiletStore.SetToiletsIgnoresActiveFilters`). So the store's lasting
  invariant is only that the filtered list is an ordered sub-list of the
  full list.
- **In the store's reset test, the intermediate filtered list is empty,
  not one toilet long.** The round-the-clock filter is on, and neither
  test toilet has opening hours (`ToiletStore.ResetScenario`).

## Model

| member | source | states |
|---|---|---|
| `Input.ToLower` | src/InputManager.js:62 | lower-casing keeps the length and maps each character to its lower-case form |
| `Input.ToLowerIdempotent` | src/InputManager.js:62-72 | lower-casing twice is lower-casing once, so a stored key is found again under the same name |
| `Input.MovementKeysAreDirectionAliases` | src/InputManager.js:187-189 | a key is a movement key iff it is a left alias (`a`, `arrowleft`) or a right alias (`d`, `arrowright`), never both |
| `Input.MovementKeysAreLowerCase` | src/InputManager.js:187-189 | every movement key is its own lower-case form, so the key keydown stores is the key keyup deletes |
| `Input.LetterKeysIgnoreCase` | src/tests/InputManager.test.js:185-193 | `A` and `D` are recognised after lower-casing; `w`, `s` and `space` are not movement keys |
| `Input.GetTouchZone` | src/InputManager.js:194-197 | the zone is left iff the point lies left of the midpoint (`2x < width`) |
| `Input.TouchZoneSplitsAtMidpoint` | src/InputManager.js:194-197 | the zone is left iff `2x < width`; the midpoint is right; the test's 100/600/400 of 800 cases |
| `Input.ContactRule` | src/InputManager.js:214-233 | a swipe beyond 30 px follows the sign of the displacement; within 10 px the contact's zone decides; in between the contact asks for nothing |
| `Input.NewContact` | src/InputManager.js:103-114 | a new contact has not moved, its zone is read from its start x, and it asks for its own zone |
| `Input.BroadcastReachesEachOnce` | src/InputManager.js:288-292 | notification calls every subscriber once, in subscription order, with the current state |
| `Input.RecomputePublishesOnlyChanges` | src/InputManager.js:202-263 | keys, contacts and subscribers are untouched; inside the debounce window nothing changes; otherwise the intents and type are the resolved ones, and the timestamp moves and subscribers are called exactly when the intents change |
| `Input.Recompute` | src/InputManager.js:202-263 | a recomputation never changes the keys, the contacts or the subscribers, and only appends to the delivery log |
| `Input.RecomputeKeepsValid` | src/InputManager.js:202-263 | recomputation keeps the invariant: only movement keys held, no repeated subscriber, no intent under type 'none' |
| `Input.KeyDownKeepsValid` | src/InputManager.js:61-74 | keydown keeps the invariant |
| `Input.KeyUpKeepsValid` | src/InputManager.js:79-88 | keyup keeps the invariant |
| `Input.TouchStartKeepsValid` | src/InputManager.js:93-118 | touchstart keeps the invariant |
| `Input.TouchMoveKeepsValid` | src/InputManager.js:123-141 | touchmove keeps the invariant |
| `Input.TouchEndKeepsValid` | src/InputManager.js:146-154 | touchend keeps the invariant |
| `Input.MouseDownKeepsValid` | src/InputManager.js:159-174 | mousedown keeps the invariant |
| `Input.MouseUpKeepsValid` | src/InputManager.js:179-182 | mouseup keeps the invariant |
| `Input.RemoveCallbackSpec` | src/InputManager.js:280-282 | deleting a subscriber removes it, keeps every other one, and keeps the set free of repeats |
| `Input.RemoveCallbackKeepsOrder` | src/InputManager.js:280-282 | deleting a subscriber keeps the others in insertion order: it distributes over concatenation and drops exactly the matching entry |
| `Input.ObserversKeepValid` | src/InputManager.js:275-312 | subscribe, unsubscribe and destroy keep the invariant |
| `Input.SubscribeThenUnsubscribe` | src/InputManager.js:275-283 | subscribing adds the callback and calls it once with the current state; the returned function removes exactly that callback |
| `Input.TouchTakesPriority` | src/InputManager.js:213-235 | with a contact active the result does not depend on the held keys, its type is 'touch', and its intents are the OR of the contacts' |
| `Input.KeyboardWhenNoContact` | src/InputManager.js:237-250 | with no contact, left iff `a` or `arrowleft` is held, right iff `d` or `arrowright` is held, type 'none' iff no key is held |
| `Input.DebounceDropsTouchEvents` | src/InputManager.js:93-141 | inside the debounce window touchstart and touchmove change nothing at all |
| `Input.RepeatedKeyDownIsIgnored` | src/InputManager.js:68-72 | a keydown for a key already held changes nothing |
| `Input.ReleasesAreAlwaysRecorded` | src/InputManager.js:79-182 | keyup, touchend and mouseup always remove their key or contacts, even when the recomputation is debounced |
| `Input.StartContactsSpec` | src/InputManager.js:103-115 | touchstart adds one unmoved contact per changed touch, in the zone of its start, and keeps the other contacts |
| `Input.MoveContactsKeepsStartAndZone` | src/InputManager.js:131-138 | touchmove never adds or removes contacts and never changes a start position or a zone |
| `Input.MoveContactsFollowsLastMention` | src/InputManager.js:131-138 | a known contact the event names ends at the position of its last mention, relative to the surface; a contact it does not name is unchanged |
| `Input.QuickReleaseLeavesStaleIntent` | src/tests/InputManager.test.js:82-96 | with one subscriber: the press is delivered; a release 10 ms later leaves no key held, `leftIntent` true and nothing delivered; a later press delivers nothing and keeps the timestamp |
| `Input.SecondKeyInsideWindowIsNotPublished` | src/tests/InputManager.test.js:67-80 | with one subscriber: `a` is delivered; `d` pressed 5 ms later is held, but only the left intent is set and nothing more is delivered |
| `Input.SingleContactIntents` | src/InputManager.js:213-235 | with one contact the intents are that contact's own |
| `Input.FirstTouchAsksForItsZone` | src/InputManager.js:93-118 | from rest, one finger touching down yields exactly the intent of its screen half, type 'touch' |
| `Input.TouchExamples` | src/tests/InputManager.test.js:99-145 | a touch at x 100 of 800 asks for left only; one at x 700 asks for right only |
| `Input.InputManager.constructor` | src/InputManager.js:6-29 | the initial state: no intent, type 'none', no keys, contacts or subscribers |
| `Input.InputManager.HandleKeyDown` | src/InputManager.js:61-74 | the in-place handler produces the specified next state and keeps the invariant |
| `Input.InputManager.HandleKeyUp` | src/InputManager.js:79-88 | the in-place handler produces the specified next state and keeps the invariant |
| `Input.InputManager.HandleTouchStart` | src/InputManager.js:93-118 | the loop over changed touches produces the specified contacts and next state |
| `Input.InputManager.HandleTouchMove` | src/InputManager.js:123-141 | the loop over changed touches produces the specified contacts and next state |
| `Input.InputManager.HandleTouchEnd` | src/InputManager.js:146-154 | the loop deletes exactly the named contacts, then recomputes |
| `Input.InputManager.HandleMouseDown` | src/InputManager.js:159-174 | the mouse contact is set and the state recomputed as specified |
| `Input.InputManager.HandleMouseUp` | src/InputManager.js:179-182 | the mouse contact is removed and the state recomputed as specified |
| `Input.InputManager.UpdateMovementIntents` | src/InputManager.js:202-263 | the in-place recomputation produces exactly the specified one |
| `Input.InputManager.ContactIntents` | src/InputManager.js:213-233 | the loop over contacts ORs each contact's contribution into the intents |
| `Input.InputManager.GetState` | src/InputManager.js:268-270 | returns the current record |
| `Input.InputManager.Subscribe` | src/InputManager.js:275-278 | adds the callback and records its immediate call |
| `Input.InputManager.Unsubscribe` | src/InputManager.js:280-282 | removes the callback |
| `Input.InputManager.NotifyCallbacks` | src/InputManager.js:288-292 | the loop appends one delivery per subscriber, in order |
| `Input.InputManager.Destroy` | src/InputManager.js:297-312 | clears the subscribers |
| `Engine.Create` | src/engine/StateMachine.ts:16-21 | a new machine is in its initial state, which is registered without hooks, with no listeners |
| `Engine.Change` | src/engine/StateMachine.ts:31-54 | a request never changes the registry or the listeners, only appends to the log, and leaves the machine in its old state or the target |
| `Engine.Without` | src/engine/StateMachine.ts:60-62 | the filtered list is no longer than the original and holds only listeners that were there |
| `Engine.NotificationsInOrder` | src/engine/StateMachine.ts:64-68 | every listener is called once per position it holds, in list order, with (previous, new) |
| `Engine.RejectedChangesAreSilent` | src/engine/StateMachine.ts:31-39 | an unregistered target changes nothing but logs one warning; the current state as target does nothing at all |
| `Engine.ChangeReachesRegisteredTargets` | src/engine/StateMachine.ts:31-54 | after a request the machine is in the target iff it is registered, and always in a registered state |
| `Engine.TransitionOrder` | src/engine/StateMachine.ts:41-53 | an accepted transition logs the exit hook (seeing the old state), then the enter hook (seeing the new one), then each listener with (old, new) |
| `Engine.HooklessTransitionOnlyNotifies` | src/engine/StateMachine.ts:41-53 | without hooks an accepted transition only notifies the listeners |
| `Engine.RegisterSpec` | src/engine/StateMachine.ts:23-25 | registering never changes the current state, keeps the machine valid, and the last registration of a state wins |
| `Engine.WithoutSpec` | src/engine/StateMachine.ts:60-62 | removal deletes every copy of the listener and keeps every other one as often as it was there |
| `Engine.WithoutKeepsOrder` | src/engine/StateMachine.ts:60-62 | filtering keeps the remaining listeners in order: it distributes over concatenation and drops a single listener exactly when it is the one removed |
| `Engine.WithoutIsIdempotent` | src/engine/StateMachine.ts:60-62 | removing a listener twice is removing it once |
| `Engine.RemovedListenerIsNotNotified` | src/engine/StateMachine.ts:60-68 | a removed listener hears of no later transition |
| `Engine.RemoveListenerScenario` | src/engine/StateMachine.test.ts:70-83 | the listener hears BOOT to RUNNING once and nothing after its removal |
| `Engine.StateMachine.constructor` | src/engine/StateMachine.ts:16-21 | the object starts as the specified initial machine |
| `Engine.StateMachine.RegisterState` | src/engine/StateMachine.ts:23-25 | updates the registry as specified |
| `Engine.StateMachine.GetState` | src/engine/StateMachine.ts:27-29 | returns the current state |
| `Engine.StateMachine.ChangeState` | src/engine/StateMachine.ts:31-54 | the in-place transition produces the specified machine and keeps the current state registered |
| `Engine.StateMachine.AddStateChangeListener` | src/engine/StateMachine.ts:56-58 | appends the listener |
| `Engine.StateMachine.RemoveStateChangeListener` | src/engine/StateMachine.ts:60-62 | filters the listener out |
| `Engine.StateMachine.NotifyListeners` | src/engine/StateMachine.ts:64-68 | the loop appends one notification per listener, in order |
| `LaneControl.LaneCount` | src/controllers/PlayerController.ts:41 | the lane count is at least 1, and the floor of the requested count when that is at least 1 |
| `LaneControl.LanesAreSymmetric` | src/controllers/PlayerController.ts:72-85 | lane i and lane n-1-i sum to zero |
| `LaneControl.LanesAreEvenlySpaced` | src/controllers/PlayerController.ts:78-82 | neighbouring lanes are exactly one width apart |
| `LaneControl.MiddleLaneIsCentred` | src/controllers/PlayerController.ts:72-85 | with an odd lane count, including 1, the middle lane is at 0 |
| `LaneControl.FirstLaneIsLeftmost` | src/controllers/PlayerController.ts:45-49 | with a non-negative width every lane lies between the first and the last, so the default bounds are ordered |
| `LaneControl.CreateLanePositions` | src/controllers/PlayerController.ts:72-85 | the loop yields `count` lanes with lane i at `-((n-1)w)/2 + i*w` (a single lane at 0) |
| `LaneControl.InitialLane` | src/controllers/PlayerController.ts:54-58 | the initial index is valid, equals a valid requested index, and defaults to the middle lane |
| `LaneControl.NextLaneIndex` | src/controllers/PlayerController.ts:93-102 | a valid lane index stays valid |
| `LaneControl.LaneIndexIsEdgeTriggered` | src/controllers/PlayerController.ts:93-102 | the index stays valid, moves at most one lane, left iff left rises, right iff right rises without left rising |
| `LaneControl.HeldIntentMovesOnce` | src/controllers/PlayerController.ts:87-102 | a second tick with the same intents does not move the index again |
| `LaneControl.SimultaneousEdgesMoveLeft` | src/controllers/PlayerController.ts:94-101 | when both intents rise at once only the left step is taken |
| `LaneControl.DesiredVelocity` | src/controllers/PlayerController.ts:120-124 | the desired velocity lies within the speed limit and has the sign of the distance to go |
| `LaneControl.Damp` | src/controllers/PlayerController.ts:143-146 | a blend of 0 keeps the current value and a blend of 1 reaches the target |
| `LaneControl.DampStaysBetween` | src/controllers/PlayerController.ts:143-146 | a blend in [0, 1] lands between the current and the target velocity |
| `LaneControl.Approach` | src/controllers/PlayerController.ts:104-141 | within 1e-4 of the target the player snaps onto it and stops |
| `LaneControl.ApproachKeepsSpeedBounded` | src/controllers/PlayerController.ts:120-138 | with a blend in [0, 1], the new speed is at most the larger of the old speed and the speed limit |
| `LaneControl.GlideNeverPassesTarget` | src/controllers/PlayerController.ts:133-140 | at any velocity a step ends in bounds and not beyond the target on the side it came from |
| `LaneControl.ApproachNeverOvershoots` | src/controllers/PlayerController.ts:104-141 | a whole step, snapping or gliding, ends in bounds and not beyond the target |
| `LaneControl.OvershootStopsOnTarget` | src/controllers/PlayerController.ts:133-138 | a step that would pass the target ends on it at rest |
| `LaneControl.PlayerController.constructor` | src/controllers/PlayerController.ts:37-70 | lanes, bounds, speed, blend, the clamped initial index and the clamped start x, as the options and defaults give them |
| `LaneControl.PlayerController.Update` | src/controllers/PlayerController.ts:87-91 | the index steps as specified, the motion is the specified approach, the intents are remembered, and the object stays valid |
| `LaneControl.PlayerController.ConsumeIntents` | src/controllers/PlayerController.ts:93-102 | the in-place index update is the specified one and keeps it valid |
| `LaneControl.PlayerController.MoveTowardsLane` | src/controllers/PlayerController.ts:104-141 | the in-place motion is the specified approach and keeps the position in ordered bounds |
| `LaneControl.DefaultLayout` | src/controllers/PlayerController.ts:41-58 | the defaults give three lanes at -2, 0, 2, bounds [-2, 2], and start in the middle lane at x = 0 |
| `MathUtils.Clamp` | src/controllers/PlayerController.ts:140 | the clamp of `THREE.MathUtils`: inside ordered bounds, identity inside them, the lower bound when they are reversed |
| `MathUtils.ClampInt` | src/controllers/PlayerController.ts:54-58 | the same clamp on integers, with the value at each end |
| `DomControl.BoundsFor` | src/PlayerController.js:36-46 | the bounds are ordered iff the area is at least 50 by 50, and span the area less the player's size |
| `DomControl.CentreIsMidway` | src/PlayerController.js:51-59 | the centred corner is midway between the bounds on both axes, and inside well-formed bounds |
| `DomControl.Constrain` | src/PlayerController.js:98-101 | the clamped position lies in well-formed bounds, and a position already inside is unchanged |
| `DomControl.VelocityFor` | src/PlayerController.js:64-78 | the velocity is 0 or plus or minus the speed; with a positive speed it is negative iff only left is held and positive iff only right is held |
| `DomControl.StepIsBounded` | src/PlayerController.js:64-101 | one input-state change moves the player at most the speed horizontally and not at all vertically |
| `DomControl.HoldingLeftStopsAtTheEdge` | src/PlayerController.js:64-101 | with only left held the new x is the larger of the left edge and x - 5 |
| `DomControl.PlayerController.constructor` | src/PlayerController.js:5-31 | the immediate subscription call sets the velocity from the current intents, then the player is centred |
| `DomControl.PlayerController.Resize` | src/PlayerController.js:27-30 | new bounds, and the position clamped into them |
| `DomControl.PlayerController.CenterPlayer` | src/PlayerController.js:51-59 | the corner is put at the centre |
| `DomControl.PlayerController.HandleInputState` | src/PlayerController.js:64-82 | velocity x is -5 for left only, +5 for right only, 0 for both or neither; velocity y stays 0; the player then moves |
| `DomControl.PlayerController.UpdatePosition` | src/PlayerController.js:87-93 | the position moves by the velocity and is clamped, landing in well-formed bounds |
| `DomControl.PlayerController.ConstrainPlayerPosition` | src/PlayerController.js:98-101 | the position is clamped into the bounds |
| `DomControl.PlayerController.GetState` | src/PlayerController.js:116-121 | returns the position and the velocity |
| `ToiletStore.Keep` | src/store/useToiletStore.js:36-50 | one `filter` keeps only toilets of the list that meet its criterion, and never lengthens the list |
| `ToiletStore.Filtered` | src/store/useToiletStore.js:32-53 | the filtered list is no longer than the full list, and every toilet in it is from the full list and meets every active filter |
| `ToiletStore.FilteredIsKeepAll` | src/store/useToiletStore.js:32-53 | the chain of filters is one pass with the active filters, in source order |
| `ToiletStore.KeepAfterKeepAll` | src/store/useToiletStore.js:36-50 | one more `filter` after a pass is a pass with one more criterion |
| `ToiletStore.MatchesIsPassingActiveCriteria` | src/store/useToiletStore.js:36-50 | meeting every active filter is meeting the reference predicate |
| `ToiletStore.KeepAllIsPick` | src/store/useToiletStore.js:32-53 | a pass keeps the toilets its mask marks, in order |
| `ToiletStore.KeepAllCounts` | src/store/useToiletStore.js:32-53 | a pass keeps each passing toilet as often as it occurs and no other |
| `ToiletStore.FilteredIsSoundAndComplete` | src/store/useToiletStore.js:32-53 | the result is an ordered sub-list; every kept toilet meets every active filter; every toilet meeting them is kept, as often as it occurs |
| `ToiletStore.FilteredIsIdempotent` | src/store/useToiletStore.js:32-53 | filtering twice with the same filters is filtering once |
| `ToiletStore.DefaultFiltersKeepEverything` | src/store/useToiletStore.js:32-53 | with the default filters the whole list is kept |
| `ToiletStore.Store.constructor` | src/store/useToiletStore.js:7-22 | the store as `setToilets` leaves it from the defaults |
| `ToiletStore.Store.SetToilets` | src/store/useToiletStore.js:22 | both lists become the new list |
| `ToiletStore.Store.SetSelectedToilet` | src/store/useToiletStore.js:24 | only the selection changes |
| `ToiletStore.Store.SetFilters` | src/store/useToiletStore.js:26-30 | the filters are stored and the list re-filtered from the full list |
| `ToiletStore.Store.ApplyFilters` | src/store/useToiletStore.js:32-53 | the in-place chain yields the specified filtered list, an ordered sub-list of the full list |
| `ToiletStore.Store.ResetFilters` | src/store/useToiletStore.js:55-63 | default filters and the whole list, which is what the default filters select |
| `ToiletStore.SetToiletsIgnoresActiveFilters` | src/store/useToiletStore.js:22 | a list set under an active filter can hold a toilet that filter rejects |
| `ToiletStore.ResetScenario` | src/__tests__/store/useToiletStore.test.js:114-144 | with the test's filters both toilets drop out (no opening hours); the defaults bring both back |
| `ToiletStore.RatingScenario` | src/__tests__/store/useToiletStore.test.js:78-93 | a minimum rating of 4 keeps the 4.5 and 4.8 toilets, in order |

## Left out

- DOM and event wiring are not modelled:
  - listener registration, `preventDefault`, `getBoundingClientRect`;
  - the writes of the player's position into the element's style
    (`updatePlayerPosition`).

  `destroy` passes unbound methods to `removeEventListener`, so only its
  clearing of the subscribers has an effect; that clearing is all that is
  modelled.
- `Date.now()` is a `now` parameter of every handler.
- `Math.exp` in `damp` is not modelled. The caller supplies the blend
  factor, and arithmetic is over `real`, not floating point. No
  convergence rate is claimed.
- The player mesh, its y and z coordinates, `getMesh` and `dispose` of the
  lane controller are rendering and are not modelled.
- `LaneControl.PlayerController.constructor`: `initialLaneIndex` is an
  integer here. A fractional index, which three.js would clamp but not
  round, is not modelled.
- `Input.LetterKeysIgnoreCase`: lower-casing is modelled on the ASCII
  letters only. JavaScript's full Unicode case mapping is not modelled.
- `Input.Manager`: touch identifiers are integers and the mouse contact is
  a separate key. The source's map mixes numbers and the string 'mouse'.
- `Input.InputManager.ContactIntents`: the source visits the contacts in
  insertion order. The model visits them in any order, which is sound
  because their contributions are OR-ed.
- `Input.InputManager.Subscribe`: subscribers receive the live
  `inputState` object, which the handlers later change in place, including
  the `inputType` write on the path that publishes nothing. A delivery here
  records a copy of the state as it was at the call. What a subscriber sees
  when it reads its argument again later is not modelled.
- Subscribers, hooks and listeners are identifiers, not code. What a
  callback does when it runs, including re-entering the object, is not
  modelled.
- The toilet store's initial state literal names its filtered list
  `filteredToillets`, so `filteredToilets` is undefined until the first
  `setToilets`. The model starts from the state `setToilets` builds.
- The toilet store's `setIsLoading`, `setError` and the AsyncStorage cache
  operations are not modelled; the cache operations are asynchronous I/O.
- Toilets carry only the fields the filters read, plus `id` and `name`.
  Latitude, longitude and other fields are not modelled.
