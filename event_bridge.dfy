/** The decisions the script engine takes when the VM or the game asks it to
    act on the world: using an item, reacting to an item entering an NPC's
    inventory, and starting up a world. World side effects are returned as
    actions for the world to carry out. */
module EventBridge {
  import opened ScriptVM

  /** A handle into the world's entity system; `InvalidEntity` is the handle
      a failed lookup gives. */
  datatype EntityHandle = InvalidEntity | Entity(id: nat) {
    predicate IsValid() { Entity? }
  }

  /** Subtypes of the manipulate message used here. */
  datatype ManipulateSubType = UseItem | EquipItem

  /** The message put into an NPC's event manager. */
  datatype ManipulateMessage = ManipulateMessage(subType: ManipulateSubType, targetItem: Handle)

  /** An effect on a world entity (always an NPC here). */
  datatype WorldAction =
    | Teleport(npc: EntityHandle, waypoint: string)
    | SetupKeyBindings(npc: EntityHandle)
    | SetBodyMesh(npc: EntityHandle, mesh: string)
    | EquipWeapon(npc: EntityHandle, item: Handle)
    | SendMessage(npc: EntityHandle, msg: ManipulateMessage)

  /** `C_Item::on_state`: four function symbols, 0 meaning none. */
  type StateFunctions = s: seq<int> | |s| == 4 witness [0, 0, 0, 0]

  /** The fields of a script item (`C_Item`) that the engine reads. */
  datatype ItemData = ItemData(mainflag: bv32, onState: StateFunctions, onEquip: int, visualChange: string)

  /** Item category bits of `C_Item::mainflag`. */
  const ITM_CAT_NF: bv32 := 1 << 1
  const ITM_CAT_FF: bv32 := 1 << 2
  const ITM_CAT_ARMOR: bv32 := 1 << 4

  /** `size_t` arithmetic wraps modulo 2^64. */
  const SIZE_T_MODULUS: int := 0x1_0000_0000_0000_0000

  /** The result of `useItemOn`: whether the item could be used, and what
      was sent to the NPC. */
  datatype UseOutcome = UseOutcome(used: bool, sent: seq<WorldAction>)

  /** `useItemOn`: an item with neither an on-state function nor an on-equip
      function is refused with nothing sent; any other item sends exactly one
      manipulate message for that item to the NPC, "use" when it has an
      on-state function and "equip" otherwise. */
  function UseItemOn(data: ItemData, hitem: Handle, hnpc: EntityHandle): (r: UseOutcome)
    ensures !r.used <==> data.onState[0] == 0 && data.onEquip == 0
    ensures !r.used ==> r.sent == []
    ensures r.used ==> (&& |r.sent| == 1 && r.sent[0].SendMessage?
                        && r.sent[0].npc == hnpc && r.sent[0].msg.targetItem == hitem
                        && (r.sent[0].msg.subType == UseItem <==> data.onState[0] != 0))
  {
    if data.onState[0] == 0 && data.onEquip == 0 then
      UseOutcome(false, [])
    else
      var subType := if data.onState[0] != 0 then UseItem else EquipItem;
      UseOutcome(true, [SendMessage(hnpc, ManipulateMessage(subType, hitem))])
  }

  /** `s.substr(0, count)`: at most `count` characters from the start. */
  function Prefix(s: string, count: int): (r: string)
    requires 0 <= count
    ensures |r| <= |s| && r == s[..|r|]
  {
    if count < |s| then s[..count] else s
  }

  /** The body mesh of an armor: its `visual_change` with the last four
      characters (the file extension) replaced by ".MDM". The length
      `size() - 4` is `size_t` arithmetic: for a name shorter than four
      characters it wraps round to a huge count and the whole name is kept. */
  function ArmorMesh(visualChange: string): (mesh: string)
    requires |visualChange| < SIZE_T_MODULUS
    ensures |visualChange| >= 4 ==> mesh == visualChange[..|visualChange| - 4] + ".MDM"
    ensures |visualChange| < 4 ==> mesh == visualChange + ".MDM"
  {
    Prefix(visualChange, (|visualChange| - 4) % SIZE_T_MODULUS) + ".MDM"
  }

  predicate IsArmor(data: ItemData) {
    data.mainflag & ITM_CAT_ARMOR != 0
  }

  predicate IsWeapon(data: ItemData) {
    data.mainflag & (ITM_CAT_NF | ITM_CAT_FF) != 0
  }

  /** `onInventoryItemInserted`, given the entity the world found for the
      NPC: nothing for an invalid entity; otherwise the armor mesh when the
      item is armor, then the weapon equip when it is a near- or far-combat
      weapon. The two tests are independent and may both fire. */
  function OnInventoryItemInserted(item: Handle, data: ItemData, e: EntityHandle): (actions: seq<WorldAction>)
    requires |data.visualChange| < SIZE_T_MODULUS
    ensures !e.IsValid() ==> actions == []
    ensures forall a :: a in actions ==> a.npc == e && (a.SetBodyMesh? || a.EquipWeapon?)
    ensures SetBodyMesh(e, ArmorMesh(data.visualChange)) in actions <==> e.IsValid() && IsArmor(data)
    ensures EquipWeapon(e, item) in actions <==> e.IsValid() && IsWeapon(data)
    ensures |actions| == (if e.IsValid() && IsArmor(data) then 1 else 0)
                         + (if e.IsValid() && IsWeapon(data) then 1 else 0)
    ensures |actions| == 2 ==> actions[0].SetBodyMesh? && actions[1].EquipWeapon?
  {
    if !e.IsValid() then []
    else
      (if IsArmor(data) then [SetBodyMesh(e, ArmorMesh(data.visualChange))] else [])
      + (if IsWeapon(data) then [EquipWeapon(e, item)] else [])
  }

  // ---------------------------------------------------------------------
  // Starting up a world

  /** What `initForWorld` does, in order. `RunScript` is one
      `prepareRunFunction`/`runFunction(name)` pair; `InsertNpc` spawns an NPC
      instance at a waypoint; `InsertPlayer` spawns "PC_HERO" there and makes
      the new entity the player entity. */
  datatype InitAction =
    | RunScript(functionName: string)
    | InsertNpc(instance: string, waypoint: string)
    | InsertPlayer(waypoint: string)
    | ThirdPersonCamera

  const HERO_INSTANCE: string := "PC_HERO"
  const FALLBACK_INSTANCE: string := "PC_THIEF"
  const FALLBACK_WAYPOINT: string := "WP_INTRO_FALL3"

  function StartupFunction(world: string): string { "startup_" + world }
  function InitFunction(world: string): string { "init_" + world }

  lemma StartupIsNotInit(world: string)
    ensures StartupFunction(world) != InitFunction(world)
  {
  }

  /** The scripts part of `initForWorld`: with the `c` command-line flag the
      fallback NPC is spawned instead of any script; otherwise the startup
      function runs on a first start when it exists, then the init function
      runs when it exists. */
  function ScriptPhase(syms: seq<Symbol>, world: string, firstStart: bool, flagC: bool): (scripts: seq<InitAction>)
    ensures flagC ==> scripts == [InsertNpc(FALLBACK_INSTANCE, FALLBACK_WAYPOINT)]
    ensures forall a :: a in scripts ==> a.RunScript? || a.InsertNpc?
    ensures !flagC ==> forall a :: a in scripts ==> a.RunScript?
    ensures |scripts| <= 2
    ensures forall i, j :: 0 <= i < j < |scripts| ==> scripts[i] != scripts[j]
    ensures forall a :: a in scripts && a.RunScript? ==>
              a.functionName in {StartupFunction(world), InitFunction(world)}
    ensures !flagC ==>
              (RunScript(StartupFunction(world)) in scripts <==> firstStart && HasSymbol(syms, StartupFunction(world)))
    ensures !flagC ==> (RunScript(InitFunction(world)) in scripts <==> HasSymbol(syms, InitFunction(world)))
    ensures forall i, j :: 0 <= i < j < |scripts| && scripts[j] == RunScript(StartupFunction(world)) ==>
              scripts[i] != RunScript(InitFunction(world))
  {
    StartupIsNotInit(world);
    if flagC then [InsertNpc(FALLBACK_INSTANCE, FALLBACK_WAYPOINT)]
    else
      (if firstStart && HasSymbol(syms, StartupFunction(world)) then [RunScript(StartupFunction(world))] else [])
      + (if HasSymbol(syms, InitFunction(world)) then [RunScript(InitFunction(world))] else [])
  }

  /** The trace of `initForWorld` is the script phase, then the player
      insertion, then the camera, and keeps the scripts' relative order: no
      `first` action follows a `second` one. */
  lemma TraceKeepsOrder(scripts: seq<InitAction>, player: seq<InitAction>, first: InitAction, second: InitAction)
    requires first.RunScript?
    requires forall a :: a in player ==> a.InsertPlayer?
    requires forall i, j :: 0 <= i < j < |scripts| && scripts[j] == first ==> scripts[i] != second
    ensures var trace := scripts + player + [ThirdPersonCamera];
            forall i, j :: 0 <= i < j < |trace| && trace[j] == first ==> trace[i] != second
  {
    var trace := scripts + player + [ThirdPersonCamera];
    assert forall k :: |scripts| <= k < |trace| ==> trace[k] in player || trace[k] == ThirdPersonCamera;
  }

  /** The trace of `initForWorld` repeats no action when the script phase
      repeats none and at most one player is inserted; the camera comes only
      at the end, and nothing but the camera follows the player insertion. */
  lemma TraceDistinct(scripts: seq<InitAction>, player: seq<InitAction>)
    requires forall a :: a in scripts ==> a.RunScript? || a.InsertNpc?
    requires forall i, j :: 0 <= i < j < |scripts| ==> scripts[i] != scripts[j]
    requires |player| <= 1 && forall a :: a in player ==> a.InsertPlayer?
    ensures var trace := scripts + player + [ThirdPersonCamera];
            && (forall i, j :: 0 <= i < j < |trace| ==> trace[i] != trace[j])
            && (forall i :: 0 <= i < |trace| - 1 ==> trace[i] != ThirdPersonCamera)
            && (forall i, j :: 0 <= i < j < |trace| && trace[i].InsertPlayer? ==> trace[j] == ThirdPersonCamera)
  {
    var trace := scripts + player + [ThirdPersonCamera];
    forall k | 0 <= k < |scripts|
      ensures trace[k] == scripts[k] && !trace[k].InsertPlayer? && trace[k] != ThirdPersonCamera
    {
      assert scripts[k] in scripts;
    }
    forall k | |scripts| <= k < |trace| - 1
      ensures trace[k] == player[k - |scripts|] && trace[k].InsertPlayer?
    {
      assert player[k - |scripts|] in player;
    }
    assert |trace| - 1 <= |scripts| + 1;
  }

  /** Whether `initForWorld` spawns the player: on a first start, or when
      "PC_HERO" is bound to no valid NPC, provided the world has a start
      point. */
  predicate SpawnsPlayer(syms: seq<Symbol>, firstStart: bool, startpoints: seq<string>)
    requires HasSymbol(syms, HERO_INSTANCE)
  {
    (firstStart || !NpcFromSymbol(syms, HERO_INSTANCE).IsValid()) && startpoints != []
  }

  /** `initForWorld`. `syms` is the symbol table as the engine sees it when it
      looks for "PC_HERO" (scripts change payloads and bindings, never names,
      so the existence tests read the same names); `startpoints` are the
      names of the world's start waypoints, in the world's order. The trace
      ends with the camera; with the `c` flag it starts with the fallback
      NPC and runs no script. */
  function InitForWorld(syms: seq<Symbol>, world: string, firstStart: bool, flagC: bool,
                        startpoints: seq<string>): (trace: seq<InitAction>)
    requires HasSymbol(syms, HERO_INSTANCE)
    ensures trace != [] && trace[|trace| - 1] == ThirdPersonCamera
    ensures flagC ==> trace[0] == InsertNpc(FALLBACK_INSTANCE, FALLBACK_WAYPOINT)
    ensures flagC ==> forall a :: a in trace ==> !a.RunScript?
  {
    var scripts := ScriptPhase(syms, world, firstStart, flagC);
    var player := if SpawnsPlayer(syms, firstStart, startpoints) then [InsertPlayer(startpoints[0])] else [];
    scripts + player + [ThirdPersonCamera]
  }

  /** The scripts `initForWorld` runs: without the `c` flag, the startup
      function iff it is a first start and the function exists, and the
      init function iff it exists; no other function; startup before init. */
  lemma InitForWorldScripts(syms: seq<Symbol>, world: string, firstStart: bool, flagC: bool,
                            startpoints: seq<string>)
    requires HasSymbol(syms, HERO_INSTANCE)
    ensures var trace := InitForWorld(syms, world, firstStart, flagC, startpoints);
            && (!flagC ==> ((RunScript(StartupFunction(world)) in trace)
                              <==> firstStart && HasSymbol(syms, StartupFunction(world))))
            && (!flagC ==> (RunScript(InitFunction(world)) in trace <==> HasSymbol(syms, InitFunction(world))))
            && (forall a :: a in trace && a.RunScript? ==>
                  a.functionName in {StartupFunction(world), InitFunction(world)})
            && (forall i, j :: 0 <= i < j < |trace| && trace[j] == RunScript(StartupFunction(world)) ==>
                  trace[i] != RunScript(InitFunction(world)))
  {
    var scripts := ScriptPhase(syms, world, firstStart, flagC);
    var player := if SpawnsPlayer(syms, firstStart, startpoints) then [InsertPlayer(startpoints[0])] else [];
    TraceKeepsOrder(scripts, player, RunScript(StartupFunction(world)), RunScript(InitFunction(world)));
  }

  /** The shape of the trace of `initForWorld`: no action happens twice, the
      camera is set only at the end, nothing but the camera follows the
      player insertion (so the scripts and the fallback NPC come first), and
      the fallback NPC appears only with the `c` flag. */
  lemma InitForWorldOrder(syms: seq<Symbol>, world: string, firstStart: bool, flagC: bool,
                          startpoints: seq<string>)
    requires HasSymbol(syms, HERO_INSTANCE)
    ensures var trace := InitForWorld(syms, world, firstStart, flagC, startpoints);
            && (forall i, j :: 0 <= i < j < |trace| ==> trace[i] != trace[j])
            && (forall i :: 0 <= i < |trace| - 1 ==> trace[i] != ThirdPersonCamera)
            && (forall i, j :: 0 <= i < j < |trace| && trace[i].InsertPlayer? ==> trace[j] == ThirdPersonCamera)
            && (!flagC ==> forall a :: a in trace ==> !a.InsertNpc?)
  {
    var scripts := ScriptPhase(syms, world, firstStart, flagC);
    var player := if SpawnsPlayer(syms, firstStart, startpoints) then [InsertPlayer(startpoints[0])] else [];
    TraceDistinct(scripts, player);
  }

  /** The player `initForWorld` spawns: exactly when `SpawnsPlayer` holds,
      and then at the world's first start point. */
  lemma InitForWorldPlayer(syms: seq<Symbol>, world: string, firstStart: bool, flagC: bool,
                           startpoints: seq<string>)
    requires HasSymbol(syms, HERO_INSTANCE)
    ensures var trace := InitForWorld(syms, world, firstStart, flagC, startpoints);
            && ((exists wp :: InsertPlayer(wp) in trace) <==> SpawnsPlayer(syms, firstStart, startpoints))
            && (forall wp :: InsertPlayer(wp) in trace ==> wp == startpoints[0])
  {
    var scripts := ScriptPhase(syms, world, firstStart, flagC);
    assert forall a :: a in scripts ==> !a.InsertPlayer?;
  }
}
