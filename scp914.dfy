/**
 * SCP-914 (SCPCBDunGen/SCPCB914.cs): the input trigger's containment list,
 * the five-position dial, the busy guard, the per-setting conversion tables
 * and the conversion run that turns what is inside into its outputs.
 *
 * The coroutine `ConversionProcess` is split at its waits: `Activate` starts
 * it, `Resolve` is what runs after the first seven seconds, `FinishRefining`
 * what runs after the second. Client RPCs, server-side spawns and destroys
 * are entries appended to `log`.
 */
module Scp914 {
  import opened Common

  /** The dial's positions, numbered 0..4 as `iCurrentState` holds them. */
  datatype Setting = Rough | Coarse | OneToOne | Fine | VeryFine

  function IndexOf(s: Setting): nat
  {
    match s
    case Rough => 0
    case Coarse => 1
    case OneToOne => 2
    case Fine => 3
    case VeryFine => 4
  }

  /** The cast `(SCP914Setting)iCurrentState`. */
  function SettingAt(i: nat): (s: Setting)
    requires i < 5
    ensures IndexOf(s) == i
  {
    if i == 0 then Rough else if i == 1 then Coarse else if i == 2 then OneToOne
    else if i == 3 then Fine else VeryFine
  }

  // ---------------------------------------------------------------------------
  // The dial
  // ---------------------------------------------------------------------------

  /** `TurnStateServerRpc`: the position after one turn of the knob. */
  function NextState(state: nat): (next: nat)
    requires state < 5
    ensures next < 5
    ensures next == if state == 4 then 0 else state + 1
  {
    (state + 1) % 5
  }

  /** The position after `k` turns. */
  function Turns(state: nat, k: nat): (s: nat)
    requires state < 5
    ensures s < 5
  {
    if k == 0 then state else NextState(Turns(state, k - 1))
  }

  lemma {:induction false} TurnsAreModular(state: nat, k: nat)
    requires state < 5
    ensures Turns(state, k) == (state + k) % 5
  {
    if k > 0 {
      TurnsAreModular(state, k - 1);
      ModFiveStep(state + k - 1);
    }
  }

  lemma ModFiveStep(n: nat)
    ensures (n + 1) % 5 == if n % 5 == 4 then 0 else n % 5 + 1
  {
    var q, r := n / 5, n % 5;
    assert n == 5 * q + r;
    if r == 4 {
      assert n + 1 == 5 * (q + 1);
    } else {
      assert n + 1 == 5 * q + (r + 1);
    }
  }

  /** Five turns bring the dial back to where it started. */
  lemma FiveTurnsRestore(state: nat)
    requires state < 5
    ensures Turns(state, 5) == state
  {
    TurnsAreModular(state, 5);
  }

  /** `bChargeBatteries = iCurrentState > 1`. */
  function ChargesBatteries(state: nat): (charge: bool)
    requires state < 5
    ensures charge <==> SettingAt(state) in {OneToOne, Fine, VeryFine}
  {
    state > 1
  }

  // ---------------------------------------------------------------------------
  // What the trigger holds, and what the converter emits
  // ---------------------------------------------------------------------------

  datatype NetRef = NetRef(id: nat)

  /** A `GrabbableObject` component. */
  datatype Grabbable = Grabbable(item: Item, isHeld: bool)

  /** A `PlayerControllerB` component, with what the conversion reads of it. */
  datatype Player = Player(id: nat, currentSuitID: int, allowDeath: bool)

  /**
   * The components a game object carries at the moment they are read. The
   * trigger list holds object handles; `world` maps each handle to its
   * components when the run looks them up.
   */
  datatype GameObj = GameObj(grabbable: Option<Grabbable>, player: Option<Player>)

  datatype Event =
    | ActivateClient                                       // ActivateClientRpc
    | TurnStateClient(newState: nat)                       // TurnStateClientRpc
    | DestroyObject(handle: nat)                           // Destroy(grabbable.gameObject)
    | SpawnObject(ref: NetRef, item: Item)                 // networkObject.Spawn
    | SpawnItemsClient(refs: seq<NetRef>, scrapValues: seq<int>, chargeBatteries: bool)
    | RefineFinishClient                                   // RefineFinishClientRpc
    | TeleportPlayerClient(player: nat)
    | KillPlayerClient(player: nat)
    | AlterHealthClient(player: nat, delta: int)
    | RandomSkinClient(player: nat, suitID: nat)
    | KillPlayerServer(player: nat)                        // KillPlayer in ConvertPlayerMasked
    | SpawnMasked(player: nat)                             // SpawnEnemyGameObject(Masked)
    | MaskedClient(player: nat)                            // ConvertPlayerMaskedClientRpc

  /**
   * What the engine lookups find during a run: the round manager, the map
   * props container, `StartOfRound`, the Titan level's Masked enemy type;
   * which unlockables carry a suit material; and the round's
   * `scrapValueMultiplier` as a scaling of drawn values.
   */
  datatype Env = Env(roundManager: bool, propsContainer: bool, startOfRound: bool,
                     maskedType: bool, suits: seq<bool>, scale: int -> int)

  /** One setting's table: an input item to its candidate outputs; `None` destroys. */
  type Table = map<Item, seq<Option<Item>>>

  /** `AddConversion` on one table: a known input gets the outputs appended, a new one is inserted. */
  function WithConversion(t: Table, input: Item, outputs: seq<Option<Item>>): (r: Table)
    ensures r.Keys == t.Keys + {input}
    ensures r[input] == (if input in t then t[input] else []) + outputs
    ensures forall k :: k in t && k != input ==> r[k] == t[k]
  {
    if input in t then t[input := t[input] + outputs] else t[input := outputs]
  }

  // ---------------------------------------------------------------------------
  // ConvertItem
  // ---------------------------------------------------------------------------

  datatype Spawn = Spawn(ref: NetRef, item: Item, value: int)

  /** The outcome of one item: what was logged, what was spawned, the rest of the random stream. */
  datatype ItemStep = ItemStep(events: seq<Event>, spawn: Option<Spawn>, stream: seq<nat>,
                               nextRef: nat, faulted: bool)

  /** An output whose scrap value cannot be drawn: `Random.Next(min, max)` throws when min > max. */
  predicate Undrawable(o: Option<Item>)
  {
    o.Some? && o.value.isScrap && o.value.minValue > o.value.maxValue
  }

  /** A scrap value drawn by `Next(minValue, maxValue)`. */
  predicate ValueDrawn(item: Item, v: int)
  {
    item.minValue <= v && (v < item.maxValue || v == item.minValue)
  }

  /** The tail of `ConvertItem` once `out` has been instantiated. */
  function SpawnOutput(out: Item, before: seq<Event>, stream: seq<nat>, nextRef: nat,
                       scale: int -> int): ItemStep
  {
    var ref := NetRef(nextRef);
    if !out.isScrap then
      ItemStep(before + [SpawnObject(ref, out)], Some(Spawn(ref, out, 0)), stream, nextRef + 1, false)
    else if out.minValue > out.maxValue then
      // Random.Next(min, max) throws when min > max
      ItemStep(before, None, stream, nextRef, true)
    else
      var d := Draw(stream, out.minValue, out.maxValue);
      ItemStep(before + [SpawnObject(ref, out)], Some(Spawn(ref, out, scale(d.0))), d.1, nextRef + 1, false)
  }

  /**
   * `ConvertItem` on the grabbable `g` of object `handle`: a held item is left
   * alone; a mapped item is destroyed and replaced by one candidate drawn
   * uniformly by index (nothing for `None`); an unmapped item is replaced by
   * a new instance of itself. `faulted` is an exception that ends the run:
   * an empty candidate list, or a scrap output with `minValue > maxValue`.
   */
  function ConvertItemStep(table: Table, handle: nat, g: Grabbable, stream: seq<nat>,
                           nextRef: nat, scale: int -> int): (r: ItemStep)
    ensures g.isHeld ==> r == ItemStep([], None, stream, nextRef, false)
    // a mapped item with no candidates: `Next(0)` consumes a sample, then indexing throws
    ensures !g.isHeld && g.item in table && |table[g.item]| == 0 ==>
              r.faulted && r.events == [] && r.stream == (if stream == [] then [] else stream[1..])
    // a mapped item: the candidate at the drawn index decides the outcome
    ensures !g.isHeld && g.item in table && |table[g.item]| > 0 ==>
              var c := table[g.item][Draw(stream, 0, |table[g.item]|).0];
              && (r.faulted <==> Undrawable(c))
              && (c.None? ==> r.spawn.None?)
              && (c.Some? && !r.faulted ==> r.spawn.Some? && r.spawn.value.item == c.value)
    // an unmapped item: a copy of itself
    ensures !g.isHeld && g.item !in table ==>
              && (r.faulted <==> Undrawable(Some(g.item)))
              && (!r.faulted ==> r.spawn.Some? && r.spawn.value.item == g.item)
    ensures !g.isHeld && !r.faulted ==> |r.events| >= 1 && r.events[0] == DestroyObject(handle)
    ensures r.spawn.None? && !r.faulted ==> r.nextRef == nextRef
    ensures r.spawn.None? && !r.faulted && !g.isHeld ==>
              r.events == [DestroyObject(handle)] && g.item in table && None in table[g.item]
    ensures r.spawn.Some? ==>
              && !r.faulted && r.spawn.value.ref == NetRef(nextRef) && r.nextRef == nextRef + 1
              && r.events == [DestroyObject(handle), SpawnObject(r.spawn.value.ref, r.spawn.value.item)]
    ensures r.spawn.Some? && g.item in table ==> Some(r.spawn.value.item) in table[g.item]
    ensures r.spawn.Some? && g.item !in table ==> r.spawn.value.item == g.item
    ensures r.spawn.Some? && !r.spawn.value.item.isScrap ==> r.spawn.value.value == 0
    ensures r.spawn.Some? && r.spawn.value.item.isScrap ==>
              exists v :: ValueDrawn(r.spawn.value.item, v) && r.spawn.value.value == scale(v)
    ensures r.faulted ==> !g.isHeld && r.spawn.None? && r.nextRef == nextRef
    // a fault on the output's scrap value comes after the input was destroyed
    ensures r.faulted && !(g.item in table && |table[g.item]| == 0) ==> r.events == [DestroyObject(handle)]
  {
    if g.isHeld then ItemStep([], None, stream, nextRef, false)
    else if g.item in table then
      var outputs := table[g.item];
      if |outputs| == 0 then
        // Next(0) is 0 and consumes a sample; indexing an empty list throws
        ItemStep([], None, Draw(stream, 0, 0).1, nextRef, true)
      else
        var d := Draw(stream, 0, |outputs|);
        match outputs[d.0]
        case None => ItemStep([DestroyObject(handle)], None, d.1, nextRef, false)
        case Some(out) => SpawnOutput(out, [DestroyObject(handle)], d.1, nextRef, scale)
    else
      SpawnOutput(g.item, [DestroyObject(handle)], stream, nextRef, scale)
  }

  // ---------------------------------------------------------------------------
  // ConvertPlayer
  // ---------------------------------------------------------------------------

  datatype PlayerStep = PlayerStep(events: seq<Event>, stream: seq<nat>)

  /** The indices of unlockables that carry a suit and are not `current`, in order. */
  function SuitCandidates(suits: seq<bool>, current: int): (ids: seq<nat>)
    ensures forall k :: 0 <= k < |ids| ==> ids[k] < |suits| && suits[ids[k]] && ids[k] != current
    ensures forall i :: 0 <= i < |suits| && suits[i] && i != current ==> i in ids
    ensures forall j, k :: 0 <= j < k < |ids| ==> ids[j] < ids[k]
    decreases |suits|
  {
    if suits == [] then []
    else
      var last := |suits| - 1;
      var prev := SuitCandidates(suits[..last], current);
      if suits[last] && last != current then prev + [last] else prev
  }

  /** `ConvertPlayerRandomSkin`: at most one suit change, only to a candidate suit. */
  function SkinStep(p: Player, env: Env, stream: seq<nat>): (r: PlayerStep)
    ensures |r.events| <= 1
    ensures forall e :: e in r.events ==>
              && e.RandomSkinClient? && e.player == p.id && e.suitID < |env.suits|
              && env.suits[e.suitID] && e.suitID != p.currentSuitID
    ensures r.events == [] <==> !env.startOfRound || SuitCandidates(env.suits, p.currentSuitID) == []
  {
    if !env.startOfRound then PlayerStep([], stream)
    else
      var ids := SuitCandidates(env.suits, p.currentSuitID);
      if |ids| == 0 then PlayerStep([], stream)
      else
        var d := Draw(stream, 0, |ids|);
        PlayerStep([RandomSkinClient(p.id, ids[d.0])], d.1)
  }

  /**
   * `ConvertPlayer`: the player is always teleported to the output first,
   * then the setting's fixed effect follows.
   */
  function ConvertPlayerStep(p: Player, setting: Setting, env: Env, stream: seq<nat>): (r: PlayerStep)
    ensures |r.events| >= 1 && r.events[0] == TeleportPlayerClient(p.id)
    ensures setting == Rough ==> r.events == [TeleportPlayerClient(p.id), KillPlayerClient(p.id)]
    ensures setting == Coarse ==> r.events == [TeleportPlayerClient(p.id), AlterHealthClient(p.id, 50)]
    ensures setting == OneToOne ==> r.events == [TeleportPlayerClient(p.id)] + SkinStep(p, env, stream).events
    ensures setting == Fine ==> r.events == [TeleportPlayerClient(p.id), AlterHealthClient(p.id, -50)]
    ensures setting == VeryFine && !p.allowDeath ==> r.events == [TeleportPlayerClient(p.id)]
    ensures setting == VeryFine && p.allowDeath ==>
              r.events[1..] == [KillPlayerServer(p.id)] +
                (if env.startOfRound && env.maskedType then [SpawnMasked(p.id), MaskedClient(p.id)] else [])
    ensures setting != OneToOne ==> r.stream == stream
  {
    var teleport := [TeleportPlayerClient(p.id)];
    match setting
    case Rough => PlayerStep(teleport + [KillPlayerClient(p.id)], stream)
    case Coarse => PlayerStep(teleport + [AlterHealthClient(p.id, 50)], stream)
    case OneToOne =>
      var s := SkinStep(p, env, stream);
      PlayerStep(teleport + s.events, s.stream)
    case Fine => PlayerStep(teleport + [AlterHealthClient(p.id, -50)], stream)
    case VeryFine =>
      if !p.allowDeath then PlayerStep(teleport, stream)
      else if env.startOfRound && env.maskedType then
        PlayerStep(teleport + [KillPlayerServer(p.id), SpawnMasked(p.id), MaskedClient(p.id)], stream)
      else
        PlayerStep(teleport + [KillPlayerServer(p.id)], stream)
  }

  // ---------------------------------------------------------------------------
  // One conversion run over the contained objects
  // ---------------------------------------------------------------------------

  /** The run's accumulators: `lNetworkObjectReferences`, `lScrapValues`, and the items spawned. */
  datatype Acc = Acc(events: seq<Event>, refs: seq<NetRef>, values: seq<int>, outputs: seq<Item>,
                     stream: seq<nat>, nextRef: nat, faulted: bool)

  function SpawnedRefs(r: ItemStep): seq<NetRef>
  {
    if r.spawn.Some? then [r.spawn.value.ref] else []
  }

  function SpawnedValues(r: ItemStep): seq<int>
  {
    if r.spawn.Some? then [r.spawn.value.value] else []
  }

  function SpawnedItems(r: ItemStep): seq<Item>
  {
    if r.spawn.Some? then [r.spawn.value.item] else []
  }

  /** The loop body of `ConversionProcess`: grabbables first, then players, anything else ignored. */
  function ObjectStep(acc: Acc, handle: nat, obj: GameObj, table: Table, setting: Setting, env: Env): Acc
  {
    if acc.faulted then acc
    else if obj.grabbable.Some? then
      var r := ConvertItemStep(table, handle, obj.grabbable.value, acc.stream, acc.nextRef, env.scale);
      Acc(acc.events + r.events, acc.refs + SpawnedRefs(r), acc.values + SpawnedValues(r),
          acc.outputs + SpawnedItems(r), r.stream, r.nextRef, r.faulted)
    else if obj.player.Some? then
      var r := ConvertPlayerStep(obj.player.value, setting, env, acc.stream);
      acc.(events := acc.events + r.events, stream := r.stream)
    else acc
  }

  /**
   * The conversion loop over the handles `objs`, in order, stopping at the
   * first exception; each object's components are looked up in `world` as
   * the loop reaches it.
   */
  function Run(objs: seq<nat>, world: nat -> GameObj, table: Table, setting: Setting, env: Env,
               stream: seq<nat>, nextRef: nat): Acc
    decreases |objs|
  {
    if objs == [] then Acc([], [], [], [], stream, nextRef, false)
    else
      var h := objs[|objs| - 1];
      ObjectStep(Run(objs[..|objs| - 1], world, table, setting, env, stream, nextRef),
                 h, world(h), table, setting, env)
  }

  /**
   * The two lists sent to clients stay parallel: one scrap value per spawned
   * reference, zero for an output that is not scrap, and the references are
   * fresh and consecutive.
   */
  lemma {:induction false} RunListsParallel(objs: seq<nat>, world: nat -> GameObj, table: Table,
                                            setting: Setting,
                                            env: Env, stream: seq<nat>, nextRef: nat)
    ensures var acc := Run(objs, world, table, setting, env, stream, nextRef);
      && |acc.refs| == |acc.values| == |acc.outputs|
      && acc.nextRef == nextRef + |acc.refs|
      && (forall k :: 0 <= k < |acc.refs| ==> acc.refs[k] == NetRef(nextRef + k))
      && (forall k :: 0 <= k < |acc.values| && !acc.outputs[k].isScrap ==> acc.values[k] == 0)
    decreases |objs|
  {
    if objs != [] {
      var init, h := objs[..|objs| - 1], objs[|objs| - 1];
      RunListsParallel(init, world, table, setting, env, stream, nextRef);
      var acc := Run(init, world, table, setting, env, stream, nextRef);
      var obj := world(h);
      assert Run(objs, world, table, setting, env, stream, nextRef)
             == ObjectStep(acc, h, obj, table, setting, env);
      if !acc.faulted && obj.grabbable.Some? {
        var r := ConvertItemStep(table, h, obj.grabbable.value, acc.stream, acc.nextRef, env.scale);
        assert r.nextRef == acc.nextRef + |SpawnedRefs(r)|;
        assert SpawnedRefs(r) == if r.spawn.Some? then [NetRef(acc.nextRef)] else [];
      }
    }
  }

  lemma RunStep(objs: seq<nat>, i: nat, world: nat -> GameObj, table: Table, setting: Setting, env: Env,
                stream: seq<nat>, nextRef: nat)
    requires i < |objs|
    ensures Run(objs[..i + 1], world, table, setting, env, stream, nextRef)
            == ObjectStep(Run(objs[..i], world, table, setting, env, stream, nextRef), objs[i], world(objs[i]),
                          table, setting, env)
  {
    assert objs[..i + 1][..i] == objs[..i];
  }

  /** Once a run has faulted, the remaining objects change nothing. */
  lemma {:induction false} RunFaultAbsorbs(objs: seq<nat>, i: nat, world: nat -> GameObj, table: Table,
                                           setting: Setting,
                                           env: Env, stream: seq<nat>, nextRef: nat)
    requires i <= |objs|
    requires Run(objs[..i], world, table, setting, env, stream, nextRef).faulted
    ensures Run(objs, world, table, setting, env, stream, nextRef)
            == Run(objs[..i], world, table, setting, env, stream, nextRef)
    decreases |objs| - i
  {
    if i < |objs| {
      assert objs[..i + 1][..i] == objs[..i];
      RunFaultAbsorbs(objs, i + 1, world, table, setting, env, stream, nextRef);
    } else {
      assert objs[..i] == objs;
    }
  }

  /** The handles of destroy events, in order. */
  function Destroyed(events: seq<Event>): seq<nat>
  {
    if events == [] then []
    else
      var e := events[|events| - 1];
      Destroyed(events[..|events| - 1]) + (if e.DestroyObject? then [e.handle] else [])
  }

  lemma {:induction false} DestroyedConcat(a: seq<Event>, b: seq<Event>)
    ensures Destroyed(a + b) == Destroyed(a) + Destroyed(b)
    decreases |b|
  {
    if b == [] {
      assert a + b == a;
    } else {
      assert (a + b)[..|a + b| - 1] == a + b[..|b| - 1];
      DestroyedConcat(a, b[..|b| - 1]);
    }
  }

  /** The entries of `objs` whose object carries a grabbable nobody holds, in order. */
  function Unheld(objs: seq<nat>, world: nat -> GameObj): seq<nat>
  {
    if objs == [] then []
    else
      var h := objs[|objs| - 1];
      var o := world(h);
      Unheld(objs[..|objs| - 1], world) +
        (if o.grabbable.Some? && !o.grabbable.value.isHeld then [h] else [])
  }

  /** One item destroys its own object, unless it is held. */
  lemma ItemStepDestroysItsObject(table: Table, handle: nat, g: Grabbable, stream: seq<nat>,
                                  nextRef: nat, scale: int -> int)
    requires !ConvertItemStep(table, handle, g, stream, nextRef, scale).faulted
    ensures Destroyed(ConvertItemStep(table, handle, g, stream, nextRef, scale).events)
            == if g.isHeld then [] else [handle]
  {
    var r := ConvertItemStep(table, handle, g, stream, nextRef, scale);
    if !g.isHeld {
      DestroyedConcat([DestroyObject(handle)], r.events[1..]);
      assert r.events == [DestroyObject(handle)] + r.events[1..];
      NoDestroyEvents(r.events[1..]);
      assert Destroyed([DestroyObject(handle)]) == Destroyed([]) + [handle];
    }
  }

  /**
   * A run that completes destroys one object per list entry whose item is
   * unheld when the run reads it, in list order, and nothing else. An object
   * listed twice is destroyed, and converted, twice.
   */
  lemma {:induction false} RunDestroysEachUnheldItemOnce(objs: seq<nat>, world: nat -> GameObj, table: Table,
                                                         setting: Setting,
                                                         env: Env, stream: seq<nat>, nextRef: nat)
    requires !Run(objs, world, table, setting, env, stream, nextRef).faulted
    ensures Destroyed(Run(objs, world, table, setting, env, stream, nextRef).events) == Unheld(objs, world)
    decreases |objs|
  {
    if objs != [] {
      var prefix := objs[..|objs| - 1];
      var h := objs[|objs| - 1];
      var o := world(h);
      var acc := Run(prefix, world, table, setting, env, stream, nextRef);
      assert Run(objs, world, table, setting, env, stream, nextRef)
             == ObjectStep(acc, h, o, table, setting, env);
      assert !acc.faulted;
      RunDestroysEachUnheldItemOnce(prefix, world, table, setting, env, stream, nextRef);
      if o.grabbable.Some? {
        var r := ConvertItemStep(table, h, o.grabbable.value, acc.stream, acc.nextRef, env.scale);
        DestroyedConcat(acc.events, r.events);
        ItemStepDestroysItsObject(table, h, o.grabbable.value, acc.stream, acc.nextRef, env.scale);
      } else if o.player.Some? {
        var r := ConvertPlayerStep(o.player.value, setting, env, acc.stream);
        DestroyedConcat(acc.events, r.events);
        PlayerEventsDestroyNothing(o.player.value, setting, env, acc.stream);
      }
    }
  }

  /**
   * An object listed twice is converted twice: an unheld item with no
   * mapping that is not scrap is destroyed twice and copied twice.
   */
  lemma DuplicateEntryConvertedTwice(h: nat, world: nat -> GameObj, table: Table, setting: Setting,
                                     env: Env, stream: seq<nat>, nextRef: nat)
    requires world(h).grabbable.Some? && !world(h).grabbable.value.isHeld
    requires world(h).grabbable.value.item !in table && !world(h).grabbable.value.item.isScrap
    ensures var acc := Run([h, h], world, table, setting, env, stream, nextRef);
      && !acc.faulted && Destroyed(acc.events) == [h, h]
      && acc.outputs == [world(h).grabbable.value.item, world(h).grabbable.value.item]
  {
    var once := Run([h], world, table, setting, env, stream, nextRef);
    assert [h, h][..1] == [h] && [h][..0] == [];
    UnmappedCopyStep(Run([], world, table, setting, env, stream, nextRef), h, world(h), table, setting, env);
    UnmappedCopyStep(once, h, world(h), table, setting, env);
    RunDestroysEachUnheldItemOnce([h, h], world, table, setting, env, stream, nextRef);
    assert Unheld([h], world) == [h];
  }

  /** One unheld, unmapped, non-scrap item adds its copy to the outputs. */
  lemma UnmappedCopyStep(acc: Acc, h: nat, obj: GameObj, table: Table, setting: Setting, env: Env)
    requires !acc.faulted && obj.grabbable.Some? && !obj.grabbable.value.isHeld
    requires obj.grabbable.value.item !in table && !obj.grabbable.value.item.isScrap
    ensures var a := ObjectStep(acc, h, obj, table, setting, env);
      !a.faulted && a.outputs == acc.outputs + [obj.grabbable.value.item]
  {
    var r := ConvertItemStep(table, h, obj.grabbable.value, acc.stream, acc.nextRef, env.scale);
    assert !r.faulted && r.spawn.Some?;
  }

  lemma PlayerEventsDestroyNothing(p: Player, setting: Setting, env: Env, stream: seq<nat>)
    ensures Destroyed(ConvertPlayerStep(p, setting, env, stream).events) == []
  {
    var evs := ConvertPlayerStep(p, setting, env, stream).events;
    NoDestroyEvents(evs);
  }

  lemma {:induction false} NoDestroyEvents(evs: seq<Event>)
    requires forall e :: e in evs ==> !e.DestroyObject?
    ensures Destroyed(evs) == []
    decreases |evs|
  {
    if evs != [] {
      NoDestroyEvents(evs[..|evs| - 1]);
    }
  }

  // ---------------------------------------------------------------------------
  // SCP914InputStore
  // ---------------------------------------------------------------------------

  /**
   * The input trigger's `lContainedObjects`, the handles of the game objects
   * inside; only the server tracks it.
   */
  class InputStore {
    var contained: seq<nat>

    constructor ()
      ensures contained == []
    {
      contained := [];
    }

    /** `OnTriggerEnter`: appends, without checking for duplicates. */
    method OnTriggerEnter(isServer: bool, obj: nat)
      modifies this
      ensures contained == if isServer then old(contained) + [obj] else old(contained)
    {
      if !isServer { return; }
      contained := contained + [obj];
    }

    /** `OnTriggerExit`: removes one occurrence of the same object. */
    method OnTriggerExit(isServer: bool, obj: nat)
      modifies this
      ensures contained == if isServer then RemoveFirst(old(contained), obj) else old(contained)
    {
      if !isServer { return; }
      contained := RemoveFirst(contained, obj);
    }

    method Clear()
      modifies this
      ensures contained == []
    {
      contained := [];
    }
  }

  // ---------------------------------------------------------------------------
  // SCP914Converter
  // ---------------------------------------------------------------------------

  /**
   * Where the `ConversionProcess` coroutine is. `Abandoned` is a coroutine
   * that ended early (`yield break` or an exception) and never cleared the guard.
   */
  datatype RunPhase = Idle | Closing | Settling | Abandoned

  class Converter {
    const input: InputStore
    var tables: seq<Table>      // arItemMappings, one per setting
    var state: nat              // iCurrentState
    var active: bool            // bActive
    var phase: RunPhase
    var nextRef: nat            // the next fresh network reference
    var log: seq<Event>

    ghost predicate Valid()
      reads this
    {
      |tables| == 5 && state < 5 && (active <==> phase != Idle)
    }

    constructor (input: InputStore)
      ensures Valid() && this.input == input
      ensures tables == [map[], map[], map[], map[], map[]]
      ensures state == 0 && !active && phase == Idle && log == []
    {
      this.input := input;
      tables := [map[], map[], map[], map[], map[]];
      state := 0;
      active := false;
      phase := Idle;
      nextRef := 0;
      log := [];
    }

    /** `GetItemMapping`: the table of the current dial position. */
    function GetItemMapping(): Table
      reads this
      requires Valid()
    {
      tables[state]
    }

    /** `AddConversion`: only the setting's own table changes. */
    method AddConversion(setting: Setting, itemInput: Item, outputs: seq<Option<Item>>)
      requires Valid()
      modifies this
      ensures Valid()
      ensures tables == old(tables)[IndexOf(setting) := WithConversion(old(tables)[IndexOf(setting)], itemInput, outputs)]
      ensures state == old(state) && active == old(active) && phase == old(phase)
      ensures nextRef == old(nextRef) && log == old(log)
    {
      var i := IndexOf(setting);
      tables := tables[i := WithConversion(tables[i], itemInput, outputs)];
    }

    /** `TurnStateServerRpc`, then `TurnStateClientRpc` applied on the host. No busy guard. */
    method TurnState()
      requires Valid()
      modifies this
      ensures Valid()
      ensures state == NextState(old(state))
      ensures log == old(log) + [TurnStateClient(state)]
      ensures tables == old(tables) && active == old(active) && phase == old(phase) && nextRef == old(nextRef)
    {
      var next := (state + 1) % 5;
      log := log + [TurnStateClient(next)];
      state := next;
    }

    /** `ActivateServerRpc`: ignored while a run holds the guard, else takes it and starts one run. */
    method Activate()
      requires Valid()
      modifies this
      ensures Valid()
      ensures old(active) ==> active && phase == old(phase) && log == old(log)
      ensures !old(active) ==> active && phase == Closing && log == old(log) + [ActivateClient]
      ensures tables == old(tables) && state == old(state) && nextRef == old(nextRef)
    {
      if active { return; }
      active := true;
      log := log + [ActivateClient];
      phase := Closing;
    }

    method ConvertItem(refs: seq<NetRef>, values: seq<int>, table: Table, handle: nat, g: Grabbable,
                       env: Env, rng: Random)
      returns (faulted: bool, refs': seq<NetRef>, values': seq<int>)
      modifies this, rng
      ensures var r := ConvertItemStep(table, handle, g, old(rng.stream), old(nextRef), env.scale);
        && faulted == r.faulted && log == old(log) + r.events && rng.stream == r.stream
        && nextRef == r.nextRef && refs' == refs + SpawnedRefs(r) && values' == values + SpawnedValues(r)
      ensures tables == old(tables) && state == old(state) && active == old(active) && phase == old(phase)
    {
      refs', values' := refs, values;
      faulted := false;
      if g.isHeld { return; }
      var out: Option<Item>;
      if g.item in table {
        var outputs := table[g.item];
        var idx := rng.Next(0, |outputs|);
        if |outputs| == 0 {
          // indexing the empty list throws
          faulted := true;
          return;
        }
        log := log + [DestroyObject(handle)];
        out := outputs[idx];
      } else {
        log := log + [DestroyObject(handle)];
        out := Some(g.item);
      }
      if out.None? { return; }
      var created := out.value;
      var value := 0;
      if created.isScrap {
        if created.minValue > created.maxValue {
          faulted := true;
          return;
        }
        var v := rng.Next(created.minValue, created.maxValue);
        value := env.scale(v);
      }
      var ref := NetRef(nextRef);
      nextRef := nextRef + 1;
      log := log + [SpawnObject(ref, created)];
      refs', values' := refs + [ref], values + [value];
    }

    /** The loop of `ConvertPlayerRandomSkin` that builds `lSuitIDs`. */
    static method CollectSuitIDs(suits: seq<bool>, current: int) returns (ids: seq<nat>)
      ensures ids == SuitCandidates(suits, current)
    {
      ids := [];
      var i := 0;
      while i < |suits|
        invariant 0 <= i <= |suits|
        invariant ids == SuitCandidates(suits[..i], current)
      {
        assert suits[..i + 1][..i] == suits[..i];
        if suits[i] && i != current {
          ids := ids + [i];
        }
        i := i + 1;
      }
      assert suits[..i] == suits;
    }

    method ConvertPlayerRandomSkin(p: Player, env: Env, rng: Random)
      modifies this, rng
      ensures var r := SkinStep(p, env, old(rng.stream)); log == old(log) + r.events && rng.stream == r.stream
      ensures tables == old(tables) && state == old(state) && active == old(active)
      ensures phase == old(phase) && nextRef == old(nextRef)
    {
      if !env.startOfRound { return; }
      var ids := CollectSuitIDs(env.suits, p.currentSuitID);
      if |ids| == 0 { return; }
      var k := rng.Next(0, |ids|);
      log := log + [RandomSkinClient(p.id, ids[k])];
    }

    method ConvertPlayer(p: Player, env: Env, rng: Random)
      requires Valid()
      modifies this, rng
      ensures var r := ConvertPlayerStep(p, SettingAt(old(state)), env, old(rng.stream));
        log == old(log) + r.events && rng.stream == r.stream
      ensures tables == old(tables) && state == old(state) && active == old(active)
      ensures phase == old(phase) && nextRef == old(nextRef)
    {
      // the teleport to the output always goes first
      var teleport := [TeleportPlayerClient(p.id)];
      match SettingAt(state)
      case Rough =>
        log := log + (teleport + [KillPlayerClient(p.id)]);
      case Coarse =>
        log := log + (teleport + [AlterHealthClient(p.id, 50)]);
      case OneToOne =>
        log := log + teleport;
        ConvertPlayerRandomSkin(p, env, rng);
        assert log == old(log) + (teleport + SkinStep(p, env, old(rng.stream)).events);
      case Fine =>
        log := log + (teleport + [AlterHealthClient(p.id, -50)]);
      case VeryFine =>
        if !p.allowDeath {
          log := log + teleport;
        } else if env.startOfRound && env.maskedType {
          log := log + (teleport + [KillPlayerServer(p.id), SpawnMasked(p.id), MaskedClient(p.id)]);
        } else {
          log := log + (teleport + [KillPlayerServer(p.id)]);
        }
    }

    /** One pass of the `foreach`, continuing the run `acc` whose events follow `log0` in the log. */
    method ConvertObject(handle: nat, obj: GameObj, table: Table, env: Env, rng: Random, refs: seq<NetRef>,
                         values: seq<int>, ghost acc: Acc, ghost log0: seq<Event>)
      returns (faulted: bool, refs': seq<NetRef>, values': seq<int>)
      requires Valid() && !acc.faulted && log == log0 + acc.events
      requires refs == acc.refs && values == acc.values && rng.stream == acc.stream && nextRef == acc.nextRef
      modifies this, rng
      ensures Valid()
      ensures var a := ObjectStep(acc, handle, obj, table, SettingAt(state), env);
        && faulted == a.faulted && refs' == a.refs && values' == a.values
        && log == log0 + a.events && rng.stream == a.stream && nextRef == a.nextRef
      ensures tables == old(tables) && state == old(state) && active == old(active) && phase == old(phase)
    {
      refs', values', faulted := refs, values, false;
      if obj.grabbable.Some? {
        ghost var r := ConvertItemStep(table, handle, obj.grabbable.value, acc.stream, acc.nextRef, env.scale);
        faulted, refs', values' := ConvertItem(refs, values, table, handle, obj.grabbable.value, env, rng);
        assert log == log0 + (acc.events + r.events);
      } else if obj.player.Some? {
        ghost var r := ConvertPlayerStep(obj.player.value, SettingAt(state), env, acc.stream);
        ConvertPlayer(obj.player.value, env, rng);
        assert log == log0 + (acc.events + r.events);
      }
    }

    /**
     * The `foreach` of `ConversionProcess` over the handles `objs`, reading
     * each object's components from `world`; an exception stops it.
     */
    method ConvertAll(objs: seq<nat>, world: nat -> GameObj, table: Table, env: Env, rng: Random)
      returns (faulted: bool, refs: seq<NetRef>, values: seq<int>)
      requires Valid()
      modifies this, rng
      ensures Valid()
      ensures var acc := Run(objs, world, table, SettingAt(state), env, old(rng.stream), old(nextRef));
        && faulted == acc.faulted && refs == acc.refs && values == acc.values
        && log == old(log) + acc.events && rng.stream == acc.stream && nextRef == acc.nextRef
      ensures tables == old(tables) && state == old(state) && active == old(active) && phase == old(phase)
    {
      refs, values, faulted := [], [], false;
      ghost var setting, log0, stream0, ref0 := SettingAt(state), log, rng.stream, nextRef;
      var i := 0;
      while i < |objs| && !faulted
        invariant 0 <= i <= |objs|
        invariant Valid() && tables == old(tables) && state == old(state)
        invariant active == old(active) && phase == old(phase)
        invariant var acc := Run(objs[..i], world, table, setting, env, stream0, ref0);
          && faulted == acc.faulted && log == log0 + acc.events && refs == acc.refs
          && values == acc.values && rng.stream == acc.stream && nextRef == acc.nextRef
      {
        RunStep(objs, i, world, table, setting, env, stream0, ref0);
        ghost var acc := Run(objs[..i], world, table, setting, env, stream0, ref0);
        faulted, refs, values :=
          ConvertObject(objs[i], world(objs[i]), table, env, rng, refs, values, acc, log0);
        i := i + 1;
      }
      if faulted {
        RunFaultAbsorbs(objs, i, world, table, setting, env, stream0, ref0);
      } else {
        assert objs[..i] == objs;
      }
    }

    /**
     * `ConversionProcess` after its first wait: the lookups, the loop over the
     * containment list as it is at this moment, with each object's components
     * as `world` has them now, the batch message, and the list cleared. A
     * failed lookup or an exception ends the coroutine with the guard still set.
     */
    method Resolve(env: Env, world: nat -> GameObj, rng: Random)
      requires Valid() && phase == Closing
      modifies this, input, rng
      ensures Valid() && active
      ensures tables == old(tables) && state == old(state)
      ensures !(env.roundManager && env.propsContainer) ==>
        && phase == Abandoned && log == old(log) && nextRef == old(nextRef)
        && rng.stream == old(rng.stream) && input.contained == old(input.contained)
      ensures env.roundManager && env.propsContainer ==>
        var acc := Run(old(input.contained), world, old(tables)[old(state)], SettingAt(old(state)), env,
                       old(rng.stream), old(nextRef));
        && rng.stream == acc.stream && nextRef == acc.nextRef
        && (acc.faulted ==>
              phase == Abandoned && log == old(log) + acc.events && input.contained == old(input.contained))
        && (!acc.faulted ==>
              && phase == Settling && input.contained == []
              && log == old(log) + acc.events + [SpawnItemsClient(acc.refs, acc.values, ChargesBatteries(old(state)))])
    {
      if !env.roundManager || !env.propsContainer {
        phase := Abandoned;
        return;
      }
      var charge := ChargesBatteries(state);
      var faulted, refs, values := ConvertAll(input.contained, world, GetItemMapping(), env, rng);
      if faulted {
        phase := Abandoned;
        return;
      }
      log := log + [SpawnItemsClient(refs, values, charge)];
      input.Clear();
      phase := Settling;
    }

    /** `ConversionProcess` after its second wait: doors reopen and the guard is released. */
    method FinishRefining()
      requires Valid() && phase == Settling
      modifies this
      ensures Valid() && !active && phase == Idle
      ensures log == old(log) + [RefineFinishClient]
      ensures tables == old(tables) && state == old(state) && nextRef == old(nextRef)
    {
      log := log + [RefineFinishClient];
      active := false;
      phase := Idle;
    }
  }
}
