/**
 * The two-stop "nuclear" elevator (SCPCBDunGen/SCPCBElevNuclear.cs). On the
 * server a run closes the doors, waits, moves everything standing in the
 * departure cabin by the fixed height between the two floors, and opens the
 * other side. The coroutine `ConversionProcess` is split at its waits into
 * `StartMoving`, `Teleport` and `Finish`. The client RPCs that drive buttons
 * and doors are applied by `Panel`.
 */
module ElevNuclear {
  import opened Common

  /** `TeleDistanceMagic`: the height between the two cabin floors. */
  const TeleDistance: real := 15.36

  /** The vertical displacement of a run: down from the top stop, up from the bottom one. */
  function Displacement(atTop: bool): real
  {
    if atTop then -TeleDistance else TeleDistance
  }

  /** Two runs in a row move a thing back to the height it started at. */
  lemma RoundTripCancels(atTop: bool)
    ensures Displacement(atTop) + Displacement(!atTop) == 0.0
    ensures Displacement(atTop) < 0.0 <==> atTop
  {
  }

  /** A collider in the cabin and the components the loop asks it for. */
  datatype Collider = Collider(grabbable: Option<nat>, player: Option<nat>, parentEnemy: Option<nat>)

  /** What the loop takes a collider for. */
  datatype Target = GrabbableT(id: nat) | PlayerT(id: nat) | EnemyT(id: nat) | NoHandling

  /** The dispatch order: `GrabbableObject`, then `PlayerControllerB`, then the parent `EnemyAI`. */
  function Dispatch(c: Collider): (t: Target)
    ensures t.GrabbableT? <==> c.grabbable.Some?
    ensures t.PlayerT? <==> c.grabbable.None? && c.player.Some?
    ensures t.EnemyT? <==> c.grabbable.None? && c.player.None? && c.parentEnemy.Some?
  {
    if c.grabbable.Some? then GrabbableT(c.grabbable.value)
    else if c.player.Some? then PlayerT(c.player.value)
    else if c.parentEnemy.Some? then EnemyT(c.parentEnemy.value)
    else NoHandling
  }

  datatype Event =
    | ActivateClient(doorClosingTop: bool)
    | MoveSoundClient(top: bool)
    | TeleportItemClient(id: nat, dy: real)
    | TeleportPlayerClient(id: nat, dy: real)
    | TeleportEnemyClient(id: nat, dy: real)    // the target is then snapped onto the nav mesh
    | DingClient(top: bool)
    | FinishClient(openingTop: bool)

  function TeleportEvent(t: Target, dy: real): Event
    requires !t.NoHandling?
  {
    match t
    case GrabbableT(id) => TeleportItemClient(id, dy)
    case PlayerT(id) => TeleportPlayerClient(id, dy)
    case EnemyT(id) => TeleportEnemyClient(id, dy)
  }

  /** What one collider adds to the things moved so far. */
  function MovedAfter(moved: seq<Target>, c: Collider): seq<Target>
  {
    var t := Dispatch(c);
    if t.NoHandling? || t in moved then moved else moved + [t]
  }

  /**
   * The things the collider loop moves, in order: each handled target the
   * first time one of its colliders comes up, never again.
   */
  function Moved(colliders: seq<Collider>): (moved: seq<Target>)
    ensures NoHandling !in moved
    ensures forall j, k :: 0 <= j < k < |moved| ==> moved[j] != moved[k]
    decreases |colliders|
  {
    if colliders == [] then []
    else MovedAfter(Moved(colliders[..|colliders| - 1]), colliders[|colliders| - 1])
  }

  /** Exactly the handled targets of the cabin's colliders are moved. */
  lemma {:induction false} MovedIsWhatTheCabinHolds(colliders: seq<Collider>, t: Target)
    ensures t in Moved(colliders) <==> !t.NoHandling? && exists c :: c in colliders && Dispatch(c) == t
    decreases |colliders|
  {
    if colliders != [] {
      var init := colliders[..|colliders| - 1];
      var last := colliders[|colliders| - 1];
      assert colliders == init + [last];
      MovedIsWhatTheCabinHolds(init, t);
      if exists c :: c in colliders && Dispatch(c) == t {
        var c :| c in colliders && Dispatch(c) == t;
        if c != last {
          assert c in init;
        }
      }
    }
  }

  lemma MovedStep(colliders: seq<Collider>, i: nat)
    requires i < |colliders|
    ensures Moved(colliders[..i + 1]) == MovedAfter(Moved(colliders[..i]), colliders[i])
  {
    assert colliders[..i + 1][..i] == colliders[..i];
  }

  lemma TeleportEventsAppend(moved: seq<Target>, t: Target, dy: real)
    requires NoHandling !in moved && !t.NoHandling?
    ensures TeleportEvents(moved + [t], dy) == TeleportEvents(moved, dy) + [TeleportEvent(t, dy)]
  {
  }

  /** The teleport messages of one run. */
  function TeleportEvents(moved: seq<Target>, dy: real): (events: seq<Event>)
    requires NoHandling !in moved
    ensures |events| == |moved|
  {
    seq(|moved|, k requires 0 <= k < |moved| => TeleportEvent(moved[k], dy))
  }

  /** The three "already teleported" lists hold exactly the things moved so far. */
  ghost predicate Seen(grabbables: seq<nat>, players: seq<nat>, enemies: seq<nat>, moved: seq<Target>)
  {
    && (forall id :: id in grabbables <==> GrabbableT(id) in moved)
    && (forall id :: id in players <==> PlayerT(id) in moved)
    && (forall id :: id in enemies <==> EnemyT(id) in moved)
  }

  /** One pass of the collider loop: a thing already teleported is skipped. */
  method TeleportOne(c: Collider, dy: real, grabbables: seq<nat>, players: seq<nat>, enemies: seq<nat>,
                     ghost moved: seq<Target>)
    returns (grabbables': seq<nat>, players': seq<nat>, enemies': seq<nat>, sent: seq<Event>)
    requires NoHandling !in moved && Seen(grabbables, players, enemies, moved)
    ensures Seen(grabbables', players', enemies', MovedAfter(moved, c))
    ensures MovedAfter(moved, c) == moved ==> sent == []
    ensures MovedAfter(moved, c) != moved ==> sent == [TeleportEvent(Dispatch(c), dy)]
  {
    grabbables', players', enemies', sent := grabbables, players, enemies, [];
    if c.grabbable.Some? {
      var id := c.grabbable.value;
      if id !in grabbables {
        grabbables' := grabbables + [id];
        sent := [TeleportItemClient(id, dy)];
      }
    } else if c.player.Some? {
      var id := c.player.value;
      if id !in players {
        players' := players + [id];
        sent := [TeleportPlayerClient(id, dy)];
      }
    } else if c.parentEnemy.Some? {
      var id := c.parentEnemy.value;
      if id !in enemies {
        enemies' := enemies + [id];
        sent := [TeleportEnemyClient(id, dy)];
      }
    }
  }

  /** The `foreach` over the cabin's colliders, with its three "already teleported" lists. */
  method TeleportPass(colliders: seq<Collider>, atTop: bool) returns (events: seq<Event>)
    ensures events == TeleportEvents(Moved(colliders), Displacement(atTop))
  {
    var dy := if atTop then -TeleDistance else TeleDistance;
    var grabbables: seq<nat> := [];
    var players: seq<nat> := [];
    var enemies: seq<nat> := [];
    events := [];
    var i := 0;
    while i < |colliders|
      invariant 0 <= i <= |colliders|
      invariant events == TeleportEvents(Moved(colliders[..i]), dy)
      invariant Seen(grabbables, players, enemies, Moved(colliders[..i]))
    {
      MovedStep(colliders, i);
      ghost var moved := Moved(colliders[..i]);
      var sent;
      grabbables, players, enemies, sent := TeleportOne(colliders[i], dy, grabbables, players, enemies, moved);
      if sent != [] {
        TeleportEventsAppend(moved, Dispatch(colliders[i]), dy);
      }
      events := events + sent;
      i := i + 1;
    }
    assert colliders[..i] == colliders;
  }

  /**
   * One run moves every handled thing in the cabin exactly once, all by the
   * same displacement, and nothing that is not in the cabin.
   */
  lemma EachThingMovesOnce(colliders: seq<Collider>, atTop: bool, t: Target)
    requires !t.NoHandling?
    ensures var events := TeleportEvents(Moved(colliders), Displacement(atTop));
      |set k | 0 <= k < |events| && events[k] == TeleportEvent(t, Displacement(atTop))| ==
        if exists c :: c in colliders && Dispatch(c) == t then 1 else 0
  {
    var moved := Moved(colliders);
    var dy := Displacement(atTop);
    var events := TeleportEvents(moved, dy);
    var hits := set k | 0 <= k < |events| && events[k] == TeleportEvent(t, dy);
    MovedIsWhatTheCabinHolds(colliders, t);
    assert forall k :: 0 <= k < |events| ==> (events[k] == TeleportEvent(t, dy) <==> moved[k] == t) by {
      forall k | 0 <= k < |events|
        ensures events[k] == TeleportEvent(t, dy) <==> moved[k] == t
      {
        TeleportEventInjective(moved[k], t, dy);
      }
    }
    if t in moved {
      var k0 :| 0 <= k0 < |moved| && moved[k0] == t;
      assert hits == {k0};
    } else {
      assert hits == {};
    }
  }

  lemma TeleportEventInjective(a: Target, b: Target, dy: real)
    requires !a.NoHandling? && !b.NoHandling?
    ensures TeleportEvent(a, dy) == TeleportEvent(b, dy) <==> a == b
  {
  }

  /** Where the server's elevator run is. */
  datatype Phase = Idle | DoorsClosing | Moving | Arrived

  /** `SCPCBElevNuclearManager` on the server. */
  class Elevator {
    var isAtTop: bool     // IsAtTop
    var active: bool      // Active
    var phase: Phase
    var log: seq<Event>

    ghost predicate Valid()
      reads this
    {
      active <==> phase != Idle
    }

    constructor ()
      ensures Valid() && isAtTop && !active && phase == Idle && log == []
    {
      isAtTop := true;
      active := false;
      phase := Idle;
      log := [];
    }

    /** `ActivateServerRpc`: ignored during a run, otherwise closes the doors on the current side and starts one. */
    method Activate()
      requires Valid()
      modifies this
      ensures Valid() && active && isAtTop == old(isAtTop)
      ensures old(active) ==> phase == old(phase) && log == old(log)
      ensures !old(active) ==> phase == DoorsClosing && log == old(log) + [ActivateClient(isAtTop)]
    {
      if active { return; }
      active := true;
      log := log + [ActivateClient(isAtTop)];
      phase := DoorsClosing;
    }

    /** After the first second: the moving sound on the departure side. */
    method StartMoving()
      requires Valid() && phase == DoorsClosing
      modifies this
      ensures Valid() && phase == Moving && isAtTop == old(isAtTop)
      ensures log == old(log) + [MoveSoundClient(isAtTop)]
    {
      log := log + [MoveSoundClient(isAtTop)];
      phase := Moving;
    }

    /**
     * After ten more seconds: everything in the departure cabin (`top` when
     * at the top, else `bottom`) is moved to the other floor, then the bell
     * rings at the arrival side.
     */
    method Teleport(top: seq<Collider>, bottom: seq<Collider>)
      requires Valid() && phase == Moving
      modifies this
      ensures Valid() && phase == Arrived && isAtTop == old(isAtTop)
      ensures log == old(log) + TeleportEvents(Moved(if isAtTop then top else bottom), Displacement(isAtTop))
                              + [DingClient(!isAtTop)]
    {
      var cabin := if isAtTop then top else bottom;
      var events := TeleportPass(cabin, isAtTop);
      log := log + events + [DingClient(!isAtTop)];
      phase := Arrived;
    }

    /** After the last second: the arrival side opens, the stop flips and the guard is released. */
    method Finish()
      requires Valid() && phase == Arrived
      modifies this
      ensures Valid() && phase == Idle && !active
      ensures isAtTop == !old(isAtTop)
      ensures log == old(log) + [FinishClient(isAtTop)]
    {
      log := log + [FinishClient(!isAtTop)];
      isAtTop := !isAtTop;
      active := false;
      phase := Idle;
    }
  }

  /** The four buttons and two doors as each client sets them. */
  class Panel {
    var topIn: bool
    var topOut: bool
    var botIn: bool
    var botOut: bool
    var doorTopOpen: bool
    var doorBotOpen: bool

    constructor ()
      ensures topIn && topOut && botIn && botOut && !doorTopOpen && !doorBotOpen
    {
      topIn, topOut, botIn, botOut := true, true, true, true;
      doorTopOpen, doorBotOpen := false, false;
    }

    /** `ActivateClientRpc`: every button off, both doors shut. */
    method ActivateClient()
      modifies this
      ensures !topIn && !topOut && !botIn && !botOut && !doorTopOpen && !doorBotOpen
    {
      topIn, topOut, botIn, botOut := false, false, false, false;
      doorTopOpen, doorBotOpen := false, false;
    }

    /**
     * `FinishClientRpc(openingTop)`: exactly one door opens, the one at the
     * arrival side; both cabin buttons come back; of the two call buttons
     * only the one at the other floor does.
     */
    method FinishClient(openingTop: bool)
      modifies this
      ensures doorTopOpen <==> openingTop
      ensures doorBotOpen <==> !openingTop
      ensures doorTopOpen != doorBotOpen
      ensures topIn && botIn
      ensures topOut != botOut
      ensures topOut <==> !doorTopOpen
    {
      topOut := !openingTop;
      topIn := true;
      botOut := openingTop;
      botIn := true;
      doorTopOpen := openingTop;
      doorBotOpen := !openingTop;
    }
  }

  /** A whole run from an idle elevator, with the cabins' contents at teleport time. */
  method RunOnce(e: Elevator, top: seq<Collider>, bottom: seq<Collider>)
    requires e.Valid() && e.phase == Idle
    modifies e
    ensures e.Valid() && e.phase == Idle && e.isAtTop == !old(e.isAtTop)
    ensures e.log == old(e.log) + [ActivateClient(old(e.isAtTop)), MoveSoundClient(old(e.isAtTop))]
                    + TeleportEvents(Moved(if old(e.isAtTop) then top else bottom), Displacement(old(e.isAtTop)))
                    + [DingClient(!old(e.isAtTop)), FinishClient(!old(e.isAtTop))]
  {
    e.Activate();
    e.StartMoving();
    e.Teleport(top, bottom);
    e.Finish();
  }
}
