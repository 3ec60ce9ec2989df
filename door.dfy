/**
 * The powered sliding door (SCPCBDunGen/SCPCBDoor.cs), on the server:
 * enemies entering and leaving its trigger, the per-frame decision to let
 * them through, the toggle and fast-open RPCs, and the two-step coroutine
 * `DoorToggleButtonUsable` that first clears the busy flag and then gives the
 * buttons back. Client RPCs are entries appended to `log`.
 */
module Door {
  import opened Common

  /** What `Update` reads of an enemy's `EnemyAI` through its collision-detect component. */
  datatype EnemyState = EnemyState(typeName: string, isDead: bool, openDoorSpeed: real)

  /** A collider touching the trigger: its tag and its `EnemyAICollisionDetect`, if any. */
  datatype DoorCollider = DoorCollider(tag: string, detect: Option<nat>)

  /** The speed an enemy opens doors at: Masked forced to 1.0, Crawler to 2.0. */
  function EffectiveSpeed(e: EnemyState): real
  {
    if e.typeName == "Crawler" then 2.0
    else if e.typeName == "MaskedPlayerEnemy" then 1.0
    else e.openDoorSpeed
  }

  function Max(a: real, b: real): (m: real)
    ensures m >= a && m >= b && (m == a || m == b)
  {
    if a >= b then a else b
  }

  /** `fHighestMult`: the running maximum from 0.0 over the live enemies in the trigger. */
  function HighestSpeed(ids: seq<nat>, states: nat -> EnemyState): (h: real)
    ensures h >= 0.0
    decreases |ids|
  {
    if ids == [] then 0.0
    else
      var prev := HighestSpeed(ids[..|ids| - 1], states);
      var e := states(ids[|ids| - 1]);
      if e.isDead then prev else Max(prev, EffectiveSpeed(e))
  }

  /** No live enemy is faster than the highest speed. */
  lemma {:induction false} HighestSpeedIsUpperBound(ids: seq<nat>, states: nat -> EnemyState)
    ensures forall k :: 0 <= k < |ids| && !states(ids[k]).isDead ==>
              EffectiveSpeed(states(ids[k])) <= HighestSpeed(ids, states)
    decreases |ids|
  {
    if ids != [] {
      var init := ids[..|ids| - 1];
      HighestSpeedIsUpperBound(init, states);
      assert forall k :: 0 <= k < |init| ==> ids[k] == init[k];
    }
  }

  /** The highest speed is 0.0 or the speed of some live enemy. */
  lemma {:induction false} HighestSpeedIsAttained(ids: seq<nat>, states: nat -> EnemyState)
    ensures HighestSpeed(ids, states) == 0.0 ||
            exists k :: 0 <= k < |ids| && !states(ids[k]).isDead &&
              EffectiveSpeed(states(ids[k])) == HighestSpeed(ids, states)
    decreases |ids|
  {
    if ids != [] {
      var init := ids[..|ids| - 1];
      HighestSpeedIsAttained(init, states);
      var h := HighestSpeed(init, states);
      if h != 0.0 && HighestSpeed(ids, states) == h {
        var k :| 0 <= k < |init| && !states(init[k]).isDead && EffectiveSpeed(states(init[k])) == h;
        assert ids[k] == init[k];
      }
    }
  }

  /** What an `Update` tick asks for. */
  datatype Decision = NoAction | OpenFast | Toggle

  function Decide(highest: real): Decision
  {
    if highest != 0.0 then (if highest > 1.5 then OpenFast else Toggle) else NoAction
  }

  /** Some live enemy in the trigger opens doors faster than `bound`. */
  ghost predicate SomeLiveFasterThan(ids: seq<nat>, states: nat -> EnemyState, bound: real)
  {
    exists k :: 0 <= k < |ids| && !states(ids[k]).isDead && EffectiveSpeed(states(ids[k])) > bound
  }

  /**
   * The decision rule in terms of the enemies: a fast open exactly when some
   * live enemy is faster than 1.5, a toggle when some live enemy has a
   * positive speed but none is faster than 1.5, and nothing otherwise.
   */
  lemma {:induction false} DecisionMeaning(ids: seq<nat>, states: nat -> EnemyState)
    ensures Decide(HighestSpeed(ids, states)) == OpenFast <==> SomeLiveFasterThan(ids, states, 1.5)
    ensures Decide(HighestSpeed(ids, states)) == Toggle <==>
              SomeLiveFasterThan(ids, states, 0.0) && !SomeLiveFasterThan(ids, states, 1.5)
    ensures Decide(HighestSpeed(ids, states)) == NoAction <==> !SomeLiveFasterThan(ids, states, 0.0)
  {
    HighestSpeedIsUpperBound(ids, states);
    HighestSpeedIsAttained(ids, states);
  }

  /** The `foreach` of `Update`. */
  method HighestMultiplier(ids: seq<nat>, states: nat -> EnemyState) returns (highest: real)
    ensures highest == HighestSpeed(ids, states)
  {
    highest := 0.0;
    var i := 0;
    while i < |ids|
      invariant 0 <= i <= |ids|
      invariant highest == HighestSpeed(ids[..i], states)
    {
      assert ids[..i + 1][..i] == ids[..i];
      var e := states(ids[i]);
      if !e.isDead {
        var speed := e.openDoorSpeed;
        if e.typeName == "MaskedPlayerEnemy" { speed := 1.0; }
        if e.typeName == "Crawler" { speed := 2.0; }
        highest := Max(highest, speed);
      }
      i := i + 1;
    }
    assert ids[..i] == ids;
  }

  datatype Event = OpenFastClient | ToggleClient(open: bool) | EnableButtonsClient

  /** `SCPDoorMover` on the server. */
  class DoorMover {
    var doorOpen: bool           // bDoorOpen
    var doorWaiting: bool        // bDoorWaiting
    var obstacleEnabled: bool    // navObstacle.enabled
    var enemies: seq<nat>        // EnemiesInCollider
    var pendingClear: nat        // DoorToggleButtonUsable coroutines before their first wait ends
    var pendingEnable: nat       // ... and before their second
    var log: seq<Event>

    /** The busy flag is set only while some coroutine is still going to clear it. */
    ghost predicate Valid()
      reads this
    {
      doorWaiting ==> pendingClear > 0
    }

    constructor (obstacleEnabled: bool)
      ensures Valid() && !doorOpen && !doorWaiting && enemies == [] && log == []
      ensures pendingClear == 0 && pendingEnable == 0 && this.obstacleEnabled == obstacleEnabled
    {
      doorOpen, doorWaiting := false, false;
      this.obstacleEnabled := obstacleEnabled;
      enemies := [];
      pendingClear, pendingEnable := 0, 0;
      log := [];
    }

    /** Only a server with a network manager tracks enemy colliders. */
    static predicate Tracked(singleton: bool, isServer: bool, other: DoorCollider)
    {
      singleton && isServer && other.tag == "Enemy" && other.detect.Some?
    }

    method OnTriggerEnter(singleton: bool, isServer: bool, other: DoorCollider)
      modifies this
      ensures enemies == if Tracked(singleton, isServer, other) then old(enemies) + [other.detect.value] else old(enemies)
      ensures doorOpen == old(doorOpen) && doorWaiting == old(doorWaiting) && obstacleEnabled == old(obstacleEnabled)
      ensures pendingClear == old(pendingClear) && pendingEnable == old(pendingEnable) && log == old(log)
    {
      if !singleton || !isServer || other.tag != "Enemy" { return; }
      if other.detect.None? { return; }
      enemies := enemies + [other.detect.value];
    }

    /** Removes one occurrence; `warned` when the enemy was not in the list. */
    method OnTriggerExit(singleton: bool, isServer: bool, other: DoorCollider) returns (warned: bool)
      modifies this
      ensures enemies == if Tracked(singleton, isServer, other) then RemoveFirst(old(enemies), other.detect.value) else old(enemies)
      ensures warned <==> Tracked(singleton, isServer, other) && other.detect.value !in old(enemies)
      ensures doorOpen == old(doorOpen) && doorWaiting == old(doorWaiting) && obstacleEnabled == old(obstacleEnabled)
      ensures pendingClear == old(pendingClear) && pendingEnable == old(pendingEnable) && log == old(log)
    {
      warned := false;
      if !singleton || !isServer || other.tag != "Enemy" { return; }
      if other.detect.None? { return; }
      var id := other.detect.value;
      warned := id !in enemies;
      enemies := RemoveFirst(enemies, id);
    }

    /** `OpenDoorFastServerRpc`: opens at once, whatever the flags say. */
    method OpenDoorFast()
      requires Valid()
      modifies this
      ensures Valid()
      ensures doorOpen && doorWaiting && !obstacleEnabled
      ensures log == old(log) + [OpenFastClient]
      ensures pendingClear == old(pendingClear) + 1 && pendingEnable == old(pendingEnable)
      ensures enemies == old(enemies)
    {
      doorWaiting := true;
      doorOpen := true;
      obstacleEnabled := false;
      log := log + [OpenFastClient];
      pendingClear := pendingClear + 1;
    }

    /** `ToggleDoorServerRpc`: ignored while busy; otherwise flips the door and blocks navigation iff it closes. */
    method ToggleDoor()
      requires Valid()
      modifies this
      ensures Valid()
      ensures old(doorWaiting) ==>
        && doorOpen == old(doorOpen) && doorWaiting && obstacleEnabled == old(obstacleEnabled)
        && log == old(log) && pendingClear == old(pendingClear)
      ensures !old(doorWaiting) ==>
        && doorOpen == !old(doorOpen) && doorWaiting && obstacleEnabled == !doorOpen
        && log == old(log) + [ToggleClient(doorOpen)] && pendingClear == old(pendingClear) + 1
      ensures pendingEnable == old(pendingEnable) && enemies == old(enemies)
    {
      if doorWaiting { return; }
      var opening := !doorOpen;
      doorWaiting := true;
      doorOpen := opening;
      obstacleEnabled := !opening;
      log := log + [ToggleClient(doorOpen)];
      pendingClear := pendingClear + 1;
    }

    /**
     * `Update` on one frame, with `states` the enemies' current `EnemyAI`
     * state. Enemies only ever open the door: it never closes here.
     */
    method Update(singleton: bool, isServer: bool, states: nat -> EnemyState) returns (decision: Decision)
      requires Valid()
      modifies this
      ensures Valid()
      ensures old(doorOpen) ==> doorOpen
      ensures decision == if singleton && isServer && !old(doorOpen) && !old(doorWaiting) && old(enemies) != []
                          then Decide(HighestSpeed(old(enemies), states)) else NoAction
      ensures decision == NoAction ==>
        && doorOpen == old(doorOpen) && doorWaiting == old(doorWaiting) && obstacleEnabled == old(obstacleEnabled)
        && log == old(log) && pendingClear == old(pendingClear)
      ensures decision == OpenFast ==>
        doorOpen && doorWaiting && !obstacleEnabled && log == old(log) + [OpenFastClient]
      ensures decision == Toggle ==>
        doorOpen && doorWaiting && !obstacleEnabled && log == old(log) + [ToggleClient(true)]
      ensures decision != NoAction ==> pendingClear == old(pendingClear) + 1
      ensures enemies == old(enemies) && pendingEnable == old(pendingEnable)
    {
      decision := NoAction;
      if !singleton || !isServer { return; }
      if doorOpen { return; }
      if doorWaiting { return; }
      if |enemies| == 0 { return; }
      var highest := HighestMultiplier(enemies, states);
      if highest != 0.0 {
        if highest > 1.5 {
          decision := OpenFast;
          OpenDoorFast();
        } else {
          decision := Toggle;
          ToggleDoor();
        }
      }
    }

    /** `DoorToggleButtonUsable` after its first second: the door takes requests again. */
    method ResumeClearWaiting()
      requires Valid() && pendingClear > 0
      modifies this
      ensures Valid() && !doorWaiting
      ensures pendingClear == old(pendingClear) - 1 && pendingEnable == old(pendingEnable) + 1
      ensures doorOpen == old(doorOpen) && obstacleEnabled == old(obstacleEnabled)
      ensures enemies == old(enemies) && log == old(log)
    {
      doorWaiting := false;
      pendingClear := pendingClear - 1;
      pendingEnable := pendingEnable + 1;
    }

    /** `DoorToggleButtonUsable` after its second second: the buttons come back on every client. */
    method ResumeEnableButtons()
      requires Valid() && pendingEnable > 0
      modifies this
      ensures Valid()
      ensures log == old(log) + [EnableButtonsClient] && pendingEnable == old(pendingEnable) - 1
      ensures doorOpen == old(doorOpen) && doorWaiting == old(doorWaiting) && obstacleEnabled == old(obstacleEnabled)
      ensures enemies == old(enemies) && pendingClear == old(pendingClear)
    {
      log := log + [EnableButtonsClient];
      pendingEnable := pendingEnable - 1;
    }
  }
}
