/** The script engine: the object that owns the script VM, runs script
    functions with the prepare/run protocol, binds instances, saves and loads
    script globals, and keeps the registries of world entities it spawned. */
module Engine {
  import opened ScriptVM
  import opened CallProtocol
  import opened GlobalsCodec
  import opened EventBridge

  /** The script symbol the engine binds each NPC to before running its daily routine. */
  const SELF_SYMBOL: string := "self"

  /** The script symbol the engine binds to the player's NPC. */
  const HERO_SYMBOL: string := "hero"

  class ScriptEngine {
    // The VM's run state and its save-stack of snapshots (top at the end).
    var stack: seq<Int32>
    var currentInstance: nat
    var saved: seq<VMState>
    // Call operations placed into the VM and warnings logged.
    var callsPlaced: nat
    var warnings: nat
    // The loaded script file's symbol table.
    var symbols: seq<Symbol>
    // Registries of the world entities the engine tracks.
    var worldNPCs: set<EntityHandle>
    var worldItems: set<EntityHandle>
    var worldMobs: set<EntityHandle>
    var playerEntity: EntityHandle

    /** The call-protocol view of the engine's VM. */
    function CallState(): Machine
      reads this
    {
      Machine(VMState(stack, currentInstance), saved, callsPlaced, warnings)
    }

    /** An engine over a freshly loaded script file: nothing on the stacks,
        no entity registered, no player yet. */
    constructor (syms: seq<Symbol>)
      ensures symbols == syms
      ensures CallState() == Machine(VMState([], 0), [], 0, 0)
      ensures worldNPCs == {} && worldItems == {} && worldMobs == {}
      ensures playerEntity == InvalidEntity
    {
      stack, currentInstance, saved := [], 0, [];
      callsPlaced, warnings := 0, 0;
      symbols := syms;
      worldNPCs, worldItems, worldMobs := {}, {}, {};
      playerEntity := InvalidEntity;
    }

    // -------------------------------------------------------------------
    // Call protocol

    /** `pushInt`. */
    method PushInt(v: Int32)
      modifies this`stack
      ensures CallState() == CallProtocol.PushInt(old(CallState()), v)
    {
      stack := stack + [v];
    }

    /** `prepareRunFunction`: snapshot the run state, then seed a 0. */
    method PrepareRunFunction()
      modifies this`stack, this`saved
      ensures CallState() == Prepare(old(CallState()))
      ensures saved == old(saved) + [old(CallState().state)] && stack == old(stack) + [0]
    {
      saved := saved + [VMState(stack, currentInstance)];  // pushState
      PushInt(0);
    }

    /** `runFunction(addr)`: -1 for the null address without touching the VM;
        otherwise call, drain, take the result from the top of the stack (0
        and a warning when the callee left none) and restore the snapshot. */
    method RunFunction(addr: nat, drain: Drain) returns (ret: Int32)
      requires addr != NULL_ADDRESS ==> saved != []
      modifies this`stack, this`currentInstance, this`saved, this`callsPlaced, this`warnings
      ensures (CallState(), ret) == Run(old(CallState()), addr, drain)
    {
      if addr == NULL_ADDRESS {
        return FAILED;
      }
      callsPlaced := callsPlaced + 1;   // doCallOperation; clearCallStack
      stack := drain(addr, stack);      // while (doStack());
      ret := 0;
      if stack != [] {
        ret := stack[|stack| - 1];
        stack := stack[..|stack| - 1];
      } else {
        warnings := warnings + 1;
      }
      // popState
      stack, currentInstance := saved[|saved| - 1].stack, saved[|saved| - 1].currentInstance;
      saved := saved[..|saved| - 1];
    }

    /** `runFunction(name)`: run the function the name resolves to. */
    method RunFunctionByName(fname: string, drain: Drain) returns (ret: Int32)
      requires HasSymbol(symbols, fname)
      requires symbols[SymbolIndex(symbols, fname)].address != NULL_ADDRESS ==> saved != []
      modifies this`stack, this`currentInstance, this`saved, this`callsPlaced, this`warnings
      ensures (CallState(), ret) == Run(old(CallState()), symbols[SymbolIndex(symbols, fname)].address, drain)
    {
      ret := RunFunction(symbols[SymbolIndex(symbols, fname)].address, drain);
    }

    /** `runFunctionBySymIndex`: run the function of the symbol at an index. */
    method RunFunctionBySymIndex(symIdx: nat, drain: Drain) returns (ret: Int32)
      requires symIdx < |symbols|
      requires symbols[symIdx].address != NULL_ADDRESS ==> saved != []
      modifies this`stack, this`currentInstance, this`saved, this`callsPlaced, this`warnings
      ensures (CallState(), ret) == Run(old(CallState()), symbols[symIdx].address, drain)
    {
      ret := RunFunction(symbols[symIdx].address, drain);
    }

    // -------------------------------------------------------------------
    // Instance binding

    /** `setInstance(target, sourceIndex)`: bind `target` to the object the
        symbol at `source` is bound to. */
    method SetInstanceFromIndex(target: string, source: nat)
      requires HasSymbol(symbols, target) && source < |symbols|
      modifies this`symbols
      ensures symbols == Bind(old(symbols), target, old(symbols)[source].instanceHandle,
                              old(symbols)[source].instanceClass)
    {
      var sym := symbols[source];
      symbols := Bind(symbols, target, sym.instanceHandle, sym.instanceClass);
    }

    /** `setInstance(target, sourceName)`. */
    method SetInstance(target: string, source: string)
      requires HasSymbol(symbols, target) && HasSymbol(symbols, source)
      modifies this`symbols
      ensures var src := old(symbols)[SymbolIndex(old(symbols), source)];
              symbols == Bind(old(symbols), target, src.instanceHandle, src.instanceClass)
    {
      SetInstanceFromIndex(target, SymbolIndex(symbols, source));
    }

    /** `setInstanceNPC`: afterwards `target` resolves to `npc`. */
    method SetInstanceNPC(target: string, npc: Handle)
      requires HasSymbol(symbols, target)
      modifies this`symbols
      ensures symbols == Bind(old(symbols), target, npc, Npc)
      ensures HasSymbol(symbols, target) && NpcFromSymbol(symbols, target) == npc
    {
      ResolveBoundNpc(symbols, target, npc);
      symbols := Bind(symbols, target, npc, Npc);
    }

    /** `setInstanceItem`: afterwards `target` resolves to `item`. */
    method SetInstanceItem(target: string, item: Handle)
      requires HasSymbol(symbols, target)
      modifies this`symbols
      ensures symbols == Bind(old(symbols), target, item, Item)
      ensures HasSymbol(symbols, target) && ItemFromSymbol(symbols, target) == item
    {
      ResolveBoundItem(symbols, target, item);
      symbols := Bind(symbols, target, item, Item);
    }

    // -------------------------------------------------------------------
    // VM events

    /** `onNPCInserted`, given what the world reports: the entity created for
        the NPC, whether its vob could be found, whether the spawn waypoint
        exists, the NPC's instance symbol, and the entity of the NPC
        "PC_HERO" is bound to. The entity is always registered; a found vob
        is teleported to an existing waypoint; the hero becomes the player
        entity, gets its key bindings and is bound to "hero". */
    method OnNPCInserted(e: EntityHandle, spawnpoint: string, vobValid: bool, waypointExists: bool,
                         instanceSymbol: nat, heroEntity: EntityHandle) returns (effects: seq<WorldAction>)
      requires vobValid ==> HasSymbol(symbols, HERO_INSTANCE)
      requires vobValid && instanceSymbol == SymbolIndex(symbols, HERO_INSTANCE) ==> HasSymbol(symbols, HERO_SYMBOL)
      modifies this`worldNPCs, this`playerEntity, this`symbols
      ensures worldNPCs == old(worldNPCs) + {e}
      ensures var isHero := vobValid && instanceSymbol == SymbolIndex(old(symbols), HERO_INSTANCE);
              && effects == (if vobValid && waypointExists then [Teleport(e, spawnpoint)] else [])
                            + (if isHero then [SetupKeyBindings(heroEntity)] else [])
              && (isHero ==> && playerEntity == heroEntity
                             && HasSymbol(symbols, HERO_SYMBOL)
                             && symbols == Bind(old(symbols), HERO_SYMBOL, NpcFromSymbol(old(symbols), HERO_INSTANCE), Npc)
                             && NpcFromSymbol(symbols, HERO_SYMBOL) == NpcFromSymbol(old(symbols), HERO_INSTANCE))
              && (!isHero ==> playerEntity == old(playerEntity) && symbols == old(symbols))
    {
      worldNPCs := worldNPCs + {e};
      effects := [];
      if vobValid {
        if waypointExists {
          effects := effects + [Teleport(e, spawnpoint)];
        }
        if instanceSymbol == SymbolIndex(symbols, HERO_INSTANCE) {
          var hplayer := NpcFromSymbol(symbols, HERO_INSTANCE);
          playerEntity := heroEntity;
          effects := effects + [SetupKeyBindings(heroEntity)];
          SetInstanceNPC(HERO_SYMBOL, hplayer);
        }
      }
    }

    /** `onNPCInitialized`: an NPC with a daily routine gets one prepared
        call of it with "self" bound to the NPC and made the current
        instance. "self" stays bound afterwards. The run state and the
        save-stack come back as they were, unless the routine's address is
        null: then the snapshot and the seeded 0 stay behind and "self"
        stays the current instance. */
    method OnNPCInitialized(npc: Handle, dailyRoutine: nat, drain: Drain)
      requires dailyRoutine != 0 ==> HasSymbol(symbols, SELF_SYMBOL) && dailyRoutine < |symbols|
      modifies this`stack, this`currentInstance, this`saved, this`callsPlaced, this`warnings, this`symbols
      ensures dailyRoutine == 0 ==> CallState() == old(CallState()) && symbols == old(symbols)
      ensures dailyRoutine != 0 ==> symbols == Bind(old(symbols), SELF_SYMBOL, npc, Npc)
      ensures dailyRoutine != 0 && old(symbols)[dailyRoutine].address != NULL_ADDRESS ==>
                && CallState().state == old(CallState().state)
                && saved == old(saved)
                && callsPlaced == old(callsPlaced) + 1
      ensures dailyRoutine != 0 && old(symbols)[dailyRoutine].address == NULL_ADDRESS ==>
                && saved == old(saved) + [old(CallState().state)]
                && stack == old(stack) + [0]
                && currentInstance == SymbolIndex(old(symbols), SELF_SYMBOL)
                && callsPlaced == old(callsPlaced)
    {
      if dailyRoutine != 0 {
        PrepareRunFunction();
        BindKeepsTable(symbols, SELF_SYMBOL, npc, Npc);
        SetInstanceNPC(SELF_SYMBOL, npc);
        currentInstance := SymbolIndex(symbols, SELF_SYMBOL);   // setCurrentInstance
        var _ := RunFunctionBySymIndex(dailyRoutine, drain);
      }
    }

    // -------------------------------------------------------------------
    // Queries over the registered NPCs

    /** `getNPCsInRadius`, given each entity's squared distance from the
        center: exactly the registered NPCs strictly closer than `radius`;
        one at exactly `radius` is left out. */
    method GetNPCsInRadius(distSq: EntityHandle -> real, radius: real) returns (found: set<EntityHandle>)
      ensures found <= worldNPCs
      ensures forall e :: e in found <==> e in worldNPCs && distSq(e) < radius * radius
    {
      var radSq := radius * radius;
      found := {};
      var rest := worldNPCs;
      while rest != {}
        invariant rest <= worldNPCs
        invariant forall e :: e in found <==> e in worldNPCs - rest && distSq(e) < radSq
        decreases rest
      {
        var e :| e in rest;
        if distSq(e) < radSq {
          found := found + {e};
        }
        rest := rest - {e};
      }
    }

    // -------------------------------------------------------------------
    // Registries

    /** `registerItem`. */
    method RegisterItem(e: EntityHandle)
      modifies this`worldItems
      ensures worldItems == old(worldItems) + {e}
      ensures worldNPCs == old(worldNPCs) && worldMobs == old(worldMobs)
    {
      worldItems := worldItems + {e};
    }

    /** `unregisterItem`. */
    method UnregisterItem(e: EntityHandle)
      modifies this`worldItems
      ensures worldItems == old(worldItems) - {e}
      ensures worldNPCs == old(worldNPCs) && worldMobs == old(worldMobs)
    {
      worldItems := worldItems - {e};
    }

    /** `registerMob`. */
    method RegisterMob(e: EntityHandle)
      modifies this`worldMobs
      ensures worldMobs == old(worldMobs) + {e}
      ensures worldNPCs == old(worldNPCs) && worldItems == old(worldItems)
    {
      worldMobs := worldMobs + {e};
    }

    /** `unregisterMob`. */
    method UnregisterMob(e: EntityHandle)
      modifies this`worldMobs
      ensures worldMobs == old(worldMobs) - {e}
      ensures worldNPCs == old(worldNPCs) && worldItems == old(worldItems)
    {
      worldMobs := worldMobs - {e};
    }

    // -------------------------------------------------------------------
    // Save-game globals

    /** `exportScriptEngine`: append every persisted symbol's values, tagged
        with its name, to the `globals` array already present. */
    method ExportScriptEngine(globals: seq<Global>) returns (out: seq<Global>)
      ensures out == globals + Exported(symbols)
    {
      out := globals;
      var i := 0;
      while i < |symbols|
        invariant 0 <= i <= |symbols|
        invariant out == globals + Exported(symbols[..i])
      {
        var sym := symbols[i];
        ExportedPrefixStep(symbols, i);
        ghost var before := out;
        if sym.flags == 0 && sym.parType == IntType {
          var k := 0;
          while k < |sym.intData|
            invariant 0 <= k <= |sym.intData|
            invariant out == before + Entries(sym)[..k]
          {
            assert Entries(sym)[..k + 1] == Entries(sym)[..k] + [Global(sym.name, sym.intData[k])];
            out := out + [Global(sym.name, sym.intData[k])];
            k := k + 1;
          }
          assert Entries(sym)[..k] == Entries(sym);
        }
        assert out == before + Contribution(sym);
        i := i + 1;
      }
      assert symbols[..|symbols|] == symbols;
    }

    /** `importScriptEngine`: first clear every symbol the list names, then
        append each value to its symbol, in list order. */
    method ImportScriptEngine(globals: seq<Global>)
      requires Importable(symbols, globals)
      modifies this`symbols
      ensures symbols == Imported(old(symbols), globals)
    {
      ghost var before := symbols;
      var k := 0;
      while k < |globals|
        invariant 0 <= k <= |globals|
        invariant symbols == Staged(before, globals[..k], [])
      {
        assert HasSymbol(before, globals[k].name);
        var i := SymbolIndex(symbols, globals[k].name);
        ClearStep(before, globals, k);
        symbols := symbols[i := symbols[i].(intData := [])];
        k := k + 1;
      }
      assert globals[..|globals|] == globals;
      k := 0;
      while k < |globals|
        invariant 0 <= k <= |globals|
        invariant symbols == Staged(before, globals, globals[..k])
      {
        assert HasSymbol(before, globals[k].name);
        var i := SymbolIndex(symbols, globals[k].name);
        AppendStep(before, globals, k);
        symbols := symbols[i := symbols[i].(intData := symbols[i].intData + [globals[k].value])];
        k := k + 1;
      }
      assert globals[..|globals|] == globals;
    }
  }

  /** One step of the export loop: the first `i + 1` symbols export what the
      first `i` do, followed by the contribution of symbol `i`. */
  lemma ExportedPrefixStep(syms: seq<Symbol>, i: nat)
    requires i < |syms|
    ensures Exported(syms[..i + 1]) == Exported(syms[..i]) + Contribution(syms[i])
  {
    assert syms[..i + 1][..i] == syms[..i];
  }

  /** The table part-way through an import: the symbols `targets` names hold
      the values `g` pairs with their names; the others are untouched. */
  function Staged(syms: seq<Symbol>, targets: seq<Global>, g: seq<Global>): (r: seq<Symbol>)
    ensures |r| == |syms| && Names(r) == Names(syms)
  {
    var r := seq(|syms|, i requires 0 <= i < |syms| =>
      if Targeted(syms, targets, i) then syms[i].(intData := ValuesFor(g, syms[i].name)) else syms[i]);
    assert forall i :: 0 <= i < |syms| ==> Names(r)[i] == Names(syms)[i];
    r
  }

  /** One step of the clearing pass: it empties the payload of the symbol
      the `k`-th name resolves to, which is the one newly targeted. */
  lemma ClearStep(syms: seq<Symbol>, g: seq<Global>, k: nat)
    requires k < |g| && HasSymbol(syms, g[k].name)
    ensures var prev := Staged(syms, g[..k], []);
            var t := SymbolIndex(syms, g[k].name);
            && HasSymbol(prev, g[k].name) && SymbolIndex(prev, g[k].name) == t
            && Staged(syms, g[..k + 1], []) == prev[t := prev[t].(intData := [])]
  {
  }

  /** One step of the appending pass: it appends the `k`-th value to the
      symbol the `k`-th name resolves to. */
  lemma AppendStep(syms: seq<Symbol>, g: seq<Global>, k: nat)
    requires k < |g| && HasSymbol(syms, g[k].name)
    ensures var prev := Staged(syms, g, g[..k]);
            var t := SymbolIndex(syms, g[k].name);
            && HasSymbol(prev, g[k].name) && SymbolIndex(prev, g[k].name) == t
            && Staged(syms, g, g[..k + 1]) == prev[t := prev[t].(intData := prev[t].intData + [g[k].value])]
  {
    var n := g[k].name;
    var t := SymbolIndex(syms, n);
    var prev := Staged(syms, g, g[..k]);
    var next := Staged(syms, g, g[..k + 1]);
    assert Names(syms)[t] == Fold(syms[t].name);
    assert Mentions(g, syms[t].name);
    assert g[..k + 1][..k] == g[..k];
    forall i | 0 <= i < |syms|
      ensures next[i] == prev[t := prev[t].(intData := prev[t].intData + [g[k].value])][i]
    {
      assert Names(syms)[i] == Fold(syms[i].name);
    }
  }
}
