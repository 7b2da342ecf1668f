# Dust Racing 2D: the pit-stop zone

This project models the `Pit` game object of Dust Racing 2D (`src/game/pit.cpp`).
A pit keeps a step counter, the *tag*, and a map from each car to the tag at
which that car last touched the pit.

- **Collision.** When a human-driven car slower than 25 km/h collides with the
  pit, the pit stores the car with the current tag. If the car was not stored
  before, the pit emits the `pitStop` signal. Any other collision is ignored.
- **Simulation step.** Each step first removes every entry whose stored tag `v`
  satisfies `v + 1 < tag`. Then it advances the tag by one.

Everything is in `pit.dfy`, module `GamePit`, in two layers:

- **Values.** `PitState`, with `Collide`, `Step` and `Run`, where `Run` applies a
  trace of engine events delivered one at a time. The properties are proved on
  this layer.
- **The class `Pit`.** Its fields `tag` and `pitting` are updated in place, as
  in the game. A ghost sequence `notified` logs the emitted signals. Each method
  is tied to the value layer by its `ensures` clauses.
  - `CollisionEvent` returns whether `pitStop` was emitted.
  - `StepTime` ages the map out with a loop over its keys, removing stale
    entries in place, and then increments the tag.
- **Scenario.** `ScenarioSlowHumanCar` is a client of the class. It exercises
  the entry, refresh, filter and ageing rules using only the method contracts.

Car identity is `CarId`, which stands for the car's address: the game keys its
map by `&car`. The other object of a collision arrives already classified as a
`CollidingObject`: its type name, its identity, its human flag and its speed in
whole km/h.

Timing of removal, as the code has it: the stale test runs before the tag
increment (`src/game/pit.cpp:54` before `:64`). So a car stored at tag `t`
survives two steps and is removed by the third step after its last contact
(`GraceAfterContact`).

## Model

| member | source | states |
|---|---|---|
| `GamePit.Initial` | src/game/pit.cpp:22-26 | a new pit has tag 0 and no pitting cars |
| `GamePit.Pit.constructor` | src/game/pit.cpp:22-26 | the constructed object's state is the initial state (tag 0, empty map), no signal has been emitted, and the time-window invariant holds |
| `GamePit.Collide` | src/game/pit.cpp:28-47 | the tag never changes. A qualifying collision (type "Car", human, speed < 25) stores the car with the current tag. No other car's entry changes. A non-qualifying collision changes nothing. `pitStop` is emitted exactly when the collision qualifies and the car was absent. The map grows by one exactly when `pitStop` is emitted |
| `GamePit.Pit.CollisionEvent` | src/game/pit.cpp:28-47 | the returned flag is true iff the collision qualifies and the car was absent. The new fields are those of `Collide`. The signal log grows by that car exactly when the flag is true. The time window is kept |
| `GamePit.Step` | src/game/pit.cpp:49-65 | the tag grows by exactly 1. The new map adds no key and changes no stored value. An old entry survives iff it is not stale (`v + 1 >= old tag`). Every surviving entry is within two steps of the new tag |
| `GamePit.Pit.StepTime` | src/game/pit.cpp:49-65 | the in-place ageing loop followed by the increment yields exactly `Step` of the old state, emits nothing and keeps the time window |
| `GamePit.CollidePreservesWindow` | src/game/pit.cpp:44 | a collision keeps every stored tag `v` within `v <= tag <= v + 2` |
| `GamePit.StepPreservesWindow` | src/game/pit.cpp:51-64 | a step keeps every stored tag within `v <= tag <= v + 2` |
| `GamePit.CollideIdempotent` | src/game/pit.cpp:39-44 | repeating a qualifying collision within one step leaves the state, including the map's size, unchanged and emits no second `pitStop` |
| `GamePit.RunCountsSteps` | src/game/pit.cpp:64 | after any trace, the tag has grown by exactly the number of simulation steps in the trace |
| `GamePit.RunPreservesWindow` | src/game/pit.cpp:28-65 | any trace that starts inside the time window ends inside it |
| `GamePit.ReachableWithinWindow` | src/game/pit.cpp:22-65 | every state reachable from a new pit satisfies the time-window invariant |
| `GamePit.PresenceNeedsContact` | src/game/pit.cpp:34-44 | a car present after a trace, and absent before it, had a qualifying collision in the trace |
| `GamePit.AgeingWithoutContact` | src/game/pit.cpp:51-64 | while a car has no qualifying collision, its stored tag stays the same. It stays present iff it was present and the steps taken are at most two past its stored tag |
| `GamePit.GraceAfterContact` | src/game/pit.cpp:44-64 | after a qualifying collision, while the car has no further contact, it is still present iff at most two steps have passed. It is removed by the third step, whatever other cars do |
| `GamePit.ApplyNotifiesOnEntry` | src/game/pit.cpp:39-44 | one event emits `pitStop` for a car exactly once if it takes that car from absent to present, and never otherwise |
| `GamePit.NotificationsMatchEntries` | src/game/pit.cpp:39-44 | along any trace, the number of `pitStop` signals for a car equals the number of times that car enters the map |

## Left out

- The rendering surface passed to the constructor and the engine base object `MCObject(surface, "Pit")`: they concern drawing, not bookkeeping.
- Collision detection and the engine's runtime type identification (`typeID`, `static_cast`): the colliding object arrives as an already-classified value with a type name.
- Qt signal/slot delivery of `pitStop`: only the fact and the order of emission are modelled, as a returned flag and a ghost log.
- The floating-point time delta of `stepTime`: the code ignores it.
- How a car computes `speedInKmh()`: the speed is a given integer.
- The width of `m_tag`: its declaration is in `pit.hpp`, which is not part of this model. The tag is an unbounded natural, so overflow of the fixed-width counter is not modelled.
- The iteration order of the C++ map in `stepTime`: the model's loop visits keys in an arbitrary order. The result does not depend on order, and the loop invariant proves this.
- All of `src/game/main.cpp`: process bootstrap, logger set-up, the OpenGL version check and its dialog, settings loading, window and scene sizing, and the hand-off to the Qt event loop. This is I/O, GUI and foreign-library code.
