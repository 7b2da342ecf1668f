/**
 * The pit-stop zone of Dust Racing 2D.
 *
 * A pit keeps a step counter (the tag) and a map from car identity to the
 * tag at which that car last touched the pit.  A slow, human-driven car that
 * collides with the pit is stored with the current tag, and the pit signals
 * a pit stop when the car was not stored before.  Each simulation step first
 * drops every entry that is more than one step behind and then advances the
 * tag.
 *
 * The module has two layers: the bookkeeping as values (PitState, Collide,
 * Step and Run over a trace of engine events), where the properties are
 * proved, and the class Pit, which updates its fields in place as the game
 * object does and is tied to the value layer by its method contracts.
 */
module GamePit {

  // ---------------------------------------------------------------------
  // Inputs
  // ---------------------------------------------------------------------

  /** Identity of a car; the game keys its map by the car's address. */
  datatype CarId = CarId(address: nat)

  /** The type name the pit reacts to. */
  const CarTypeName: string := "Car"

  /** A car must be strictly slower than this (in km/h) to be pitting. */
  const PitSpeedLimitKmh: int := 25

  /**
   * The other object of one collision, as the engine has classified it.
   * The fields id, isHuman and speedKmh are meaningful only when typeName
   * is CarTypeName.
   */
  datatype CollidingObject = CollidingObject(typeName: string, id: CarId, isHuman: bool, speedKmh: int)

  predicate IsCar(other: CollidingObject)
  {
    other.typeName == CarTypeName
  }

  /** The filter a collision must pass to create or refresh an entry. */
  predicate Qualifies(other: CollidingObject)
  {
    IsCar(other) && other.isHuman && other.speedKmh < PitSpeedLimitKmh
  }

  // ---------------------------------------------------------------------
  // The bookkeeping as values
  // ---------------------------------------------------------------------

  /** The two fields of the pit: the step counter and the pitting cars. */
  datatype PitState = PitState(tag: nat, pitting: map<CarId, nat>)

  /** What one collision produces: the new state and whether pitStop was emitted. */
  datatype CollisionOutcome = CollisionOutcome(state: PitState, pitStop: bool)

  /** A newly made pit. */
  function Initial(): (s: PitState)
    ensures s.tag == 0 && |s.pitting| == 0
  {
    PitState(0, map[])
  }

  /** An entry stored at tag `stored` is stale when the pit's tag is `tag`. */
  predicate IsStale(stored: nat, tag: nat)
  {
    stored + 1 < tag
  }

  /**
   * The time window every stored tag lies in: at most the current tag and
   * at most two steps behind it.
   */
  ghost predicate WithinWindow(s: PitState)
  {
    forall c :: c in s.pitting ==> s.pitting[c] <= s.tag <= s.pitting[c] + 2
  }

  /**
   * The map while the ageing pass is under way: the entries still to be
   * visited are all kept, the visited ones only when they are not stale.
   */
  function Pruned(m: map<CarId, nat>, tag: nat, unvisited: set<CarId>): map<CarId, nat>
  {
    map c | c in m && (c in unvisited || !IsStale(m[c], tag)) :: m[c]
  }

  /** One collision event. */
  function Collide(s: PitState, other: CollidingObject): (r: CollisionOutcome)
    ensures r.state.tag == s.tag
    ensures Qualifies(other) ==> other.id in r.state.pitting && r.state.pitting[other.id] == s.tag
    ensures forall c :: (c != other.id || !Qualifies(other)) ==>
      (c in r.state.pitting <==> c in s.pitting) &&
      (c in s.pitting ==> r.state.pitting[c] == s.pitting[c])
    ensures r.pitStop <==> Qualifies(other) && other.id !in s.pitting
    ensures |r.state.pitting| == |s.pitting| + (if r.pitStop then 1 else 0)
  {
    if Qualifies(other) then
      CollisionOutcome(PitState(s.tag, s.pitting[other.id := s.tag]), other.id !in s.pitting)
    else
      CollisionOutcome(s, false)
  }

  /** One simulation step: drop the stale entries, then advance the tag. */
  function Step(s: PitState): (r: PitState)
    ensures r.tag == s.tag + 1
    ensures r.pitting.Keys <= s.pitting.Keys
    ensures forall c :: c in s.pitting ==> (c in r.pitting <==> !IsStale(s.pitting[c], s.tag))
    ensures forall c :: c in r.pitting ==> r.pitting[c] == s.pitting[c]
    ensures forall c :: c in r.pitting ==> r.tag <= r.pitting[c] + 2
  {
    PitState(s.tag + 1, Pruned(s.pitting, s.tag, {}))
  }

  /** A collision never takes an entry out of the time window. */
  lemma CollidePreservesWindow(s: PitState, other: CollidingObject)
    requires WithinWindow(s)
    ensures WithinWindow(Collide(s, other).state)
  {
  }

  /** A step never takes an entry out of the time window. */
  lemma StepPreservesWindow(s: PitState)
    requires WithinWindow(s)
    ensures WithinWindow(Step(s))
  {
  }

  /**
   * Repeating a qualifying collision within the same step changes nothing
   * and emits no second pitStop.
   */
  lemma CollideIdempotent(s: PitState, other: CollidingObject)
    requires Qualifies(other)
    ensures Collide(Collide(s, other).state, other) == CollisionOutcome(Collide(s, other).state, false)
  {
  }

  // ---------------------------------------------------------------------
  // Traces of engine events
  // ---------------------------------------------------------------------

  /** What the engine delivers to the pit, one at a time, in order. */
  datatype Event = Collision(other: CollidingObject) | TimeStep

  /** A state after some events, with the cars signalled on the way, in order. */
  datatype RunResult = RunResult(state: PitState, notified: seq<CarId>)

  /** Whether an event is a qualifying collision of car c. */
  predicate IsContact(e: Event, c: CarId)
  {
    e.Collision? && Qualifies(e.other) && e.other.id == c
  }

  function Apply(s: PitState, e: Event): RunResult
  {
    match e
    case Collision(other) =>
      var r := Collide(s, other);
      RunResult(r.state, if r.pitStop then [other.id] else [])
    case TimeStep => RunResult(Step(s), [])
  }

  /** The events of a trace, delivered serially from state s. */
  function Run(s: PitState, events: seq<Event>): RunResult
    decreases |events|
  {
    if events == [] then RunResult(s, [])
    else
      var first := Apply(s, events[0]);
      var rest := Run(first.state, events[1..]);
      RunResult(rest.state, first.notified + rest.notified)
  }

  function StepCount(events: seq<Event>): nat
  {
    if events == [] then 0 else (if events[0].TimeStep? then 1 else 0) + StepCount(events[1..])
  }

  /** How many times car c goes from absent to present along a trace. */
  function Entries(s: PitState, events: seq<Event>, c: CarId): nat
    decreases |events|
  {
    if events == [] then 0
    else
      var next := Apply(s, events[0]).state;
      (if c !in s.pitting && c in next.pitting then 1 else 0) + Entries(next, events[1..], c)
  }

  /** The tag counts the simulation steps. */
  lemma {:induction false} RunCountsSteps(s: PitState, events: seq<Event>)
    ensures Run(s, events).state.tag == s.tag + StepCount(events)
    decreases |events|
  {
    if events != [] {
      RunCountsSteps(Apply(s, events[0]).state, events[1..]);
    }
  }

  /** The time window holds after any trace that starts inside it. */
  lemma {:induction false} RunPreservesWindow(s: PitState, events: seq<Event>)
    requires WithinWindow(s)
    ensures WithinWindow(Run(s, events).state)
    decreases |events|
  {
    if events != [] {
      var next := Apply(s, events[0]).state;
      match events[0] {
        case Collision(other) => CollidePreservesWindow(s, other);
        case TimeStep => StepPreservesWindow(s);
      }
      RunPreservesWindow(next, events[1..]);
    }
  }

  /** Every pit, whatever it has been through, keeps the time window. */
  lemma ReachableWithinWindow(events: seq<Event>)
    ensures WithinWindow(Run(Initial(), events).state)
  {
    RunPreservesWindow(Initial(), events);
  }

  /**
   * A car is present after a trace only if it was present before or had a
   * qualifying collision (human, slower than the limit) on the way.
   */
  lemma {:induction false} PresenceNeedsContact(s: PitState, events: seq<Event>, c: CarId)
    requires c in Run(s, events).state.pitting
    requires c !in s.pitting
    ensures exists i :: 0 <= i < |events| && IsContact(events[i], c)
    decreases |events|
  {
    if events == [] {
      assert false;
    } else {
      var next := Apply(s, events[0]).state;
      if IsContact(events[0], c) {
        assert IsContact(events[0], c);
      } else {
        assert c !in next.pitting;
        PresenceNeedsContact(next, events[1..], c);
        var i :| 0 <= i < |events[1..]| && IsContact(events[1..][i], c);
        assert IsContact(events[i + 1], c);
      }
    }
  }

  /**
   * Grace window: while car c has no qualifying collision, its entry keeps
   * its stored tag and survives exactly as long as the steps taken keep the
   * tag within two of it.
   */
  lemma {:induction false} AgeingWithoutContact(s: PitState, events: seq<Event>, c: CarId)
    requires WithinWindow(s)
    requires forall i :: 0 <= i < |events| ==> !IsContact(events[i], c)
    ensures c in Run(s, events).state.pitting <==>
      c in s.pitting && s.tag + StepCount(events) <= s.pitting[c] + 2
    ensures c in Run(s, events).state.pitting ==> Run(s, events).state.pitting[c] == s.pitting[c]
    decreases |events|
  {
    if events != [] {
      var next := Apply(s, events[0]).state;
      match events[0] {
        case Collision(other) => CollidePreservesWindow(s, other);
        case TimeStep => StepPreservesWindow(s);
      }
      assert forall i :: 0 <= i < |events[1..]| ==> !IsContact(events[1..][i], c) by {
        forall i | 0 <= i < |events[1..]| ensures !IsContact(events[1..][i], c) {
          assert events[1..][i] == events[i + 1];
        }
      }
      AgeingWithoutContact(next, events[1..], c);
    }
  }

  /**
   * After a qualifying collision the car survives the next two steps and is
   * removed by the third, whatever other cars do meanwhile.
   */
  lemma GraceAfterContact(s: PitState, other: CollidingObject, events: seq<Event>)
    requires WithinWindow(s)
    requires Qualifies(other)
    requires forall i :: 0 <= i < |events| ==> !IsContact(events[i], other.id)
    ensures other.id in Run(s, [Collision(other)] + events).state.pitting <==> StepCount(events) <= 2
  {
    var next := Collide(s, other).state;
    CollidePreservesWindow(s, other);
    assert ([Collision(other)] + events)[1..] == events;
    AgeingWithoutContact(next, events, other.id);
  }

  lemma ApplyNotifiesOnEntry(s: PitState, e: Event, c: CarId)
    ensures multiset(Apply(s, e).notified)[c] ==
      if c !in s.pitting && c in Apply(s, e).state.pitting then 1 else 0
  {
  }

  /**
   * Exactly-once notification: along any trace, pitStop is emitted for car c
   * exactly as many times as c enters the pitting map.
   */
  lemma {:induction false} NotificationsMatchEntries(s: PitState, events: seq<Event>, c: CarId)
    ensures multiset(Run(s, events).notified)[c] == Entries(s, events, c)
    decreases |events|
  {
    if events != [] {
      var first := Apply(s, events[0]);
      ApplyNotifiesOnEntry(s, events[0], c);
      NotificationsMatchEntries(first.state, events[1..], c);
      assert Run(s, events).notified == first.notified + Run(first.state, events[1..]).notified;
    }
  }

  // ---------------------------------------------------------------------
  // The game object
  // ---------------------------------------------------------------------

  class Pit {
    /** The step counter. */
    var tag: nat
    /** Each pitting car with the tag of its last qualifying collision. */
    var pitting: map<CarId, nat>
    /** The cars for which pitStop has been emitted, in emission order. */
    ghost var notified: seq<CarId>

    function State(): PitState
      reads this
    {
      PitState(tag, pitting)
    }

    ghost predicate Valid()
      reads this
    {
      WithinWindow(State())
    }

    constructor ()
      ensures Valid()
      ensures State() == Initial() && notified == []
    {
      tag := 0;
      pitting := map[];
      notified := [];
    }

    /** Reacts to one collision; returns whether pitStop was emitted. */
    method CollisionEvent(other: CollidingObject) returns (pitStop: bool)
      requires Valid()
      modifies this
      ensures Valid()
      ensures pitStop <==> Qualifies(other) && other.id !in old(pitting)
      ensures CollisionOutcome(State(), pitStop) == Collide(old(State()), other)
      ensures notified == old(notified) + (if pitStop then [other.id] else [])
    {
      pitStop := false;
      if IsCar(other) {
        if other.isHuman && other.speedKmh < PitSpeedLimitKmh {
          if other.id !in pitting {
            pitStop := true;
            notified := notified + [other.id];
          }
          pitting := pitting[other.id := tag];
        }
      }
    }

    /** Ages out the stale entries, then advances the tag. */
    method StepTime()
      requires Valid()
      modifies this
      ensures Valid()
      ensures tag == old(tag) + 1
      ensures State() == Step(old(State()))
      ensures notified == old(notified)
    {
      var unvisited := pitting.Keys;
      assert pitting == Pruned(pitting, tag, unvisited);
      while unvisited != {}
        invariant tag == old(tag) && notified == old(notified)
        invariant unvisited <= old(pitting).Keys
        invariant pitting == Pruned(old(pitting), tag, unvisited)
        decreases unvisited
      {
        var c :| c in unvisited;
        if IsStale(pitting[c], tag) {
          pitting := pitting - {c};
        }
        unvisited := unvisited - {c};
      }
      StepPreservesWindow(old(State()));
      tag := tag + 1;
    }
  }

  /**
   * A slow human car is signalled once, survives two steps and is gone
   * after the third; other collisions are ignored.
   */
  method ScenarioSlowHumanCar()
  {
    var a := CarId(1);
    var b := CarId(2);
    var pit := new Pit();
    var signalled := pit.CollisionEvent(CollidingObject("Car", a, true, 10));
    assert signalled && a in pit.pitting;
    signalled := pit.CollisionEvent(CollidingObject("Car", a, true, 10));
    assert !signalled && |pit.pitting| == 1;
    signalled := pit.CollisionEvent(CollidingObject("Car", b, false, 10));
    assert !signalled && b !in pit.pitting;
    signalled := pit.CollisionEvent(CollidingObject("Car", b, true, 30));
    assert !signalled && b !in pit.pitting;
    signalled := pit.CollisionEvent(CollidingObject("Wall", b, true, 0));
    assert !signalled && b !in pit.pitting;
    pit.StepTime();
    assert a in pit.pitting;
    pit.StepTime();
    assert a in pit.pitting;
    pit.StepTime();
    assert a !in pit.pitting && pit.tag == 3;
    assert pit.notified == [a];
  }
}
