# REGoth script engine: a verified model

This project models the core of REGoth's `ScriptEngine` (`src/logic/ScriptEngine.cpp`).
That is the layer between the Daedalus script VM and the game world. It covers four parts:

- **Call protocol.** `prepareRunFunction` snapshots the VM's run state onto a save-stack
  and seeds the operand stack with a default result of 0. `runFunction` then does one of two things:
  - For the null address 0 it returns -1 at once.
  - For any other address it places the call and drains the interpreter. It takes the result from the top of the operand stack, or uses 0 and logs a warning when the callee emptied the stack. Finally it restores the snapshot.
  The early return for address 0 skips `popState`. A prepare/run pair on address 0 therefore leaves its snapshot and the seeded 0 behind. The model keeps that behaviour and proves what it does to the save-stack.
- **Instance binding.** Script symbols are bound to NPC or item handles (`setInstance*`). `getNPCFromSymbol` and `getItemFromSymbol` narrow a binding back to a handle after a class-tag check.
- **Save-game globals.** `exportScriptEngine` writes every integer symbol with no flags as one `[name, value]` pair per element of its payload. The order is symbol-table order, then array order. `importScriptEngine` first clears every symbol the list names, then appends the values in list order. The model proves the round trip: importing an export leaves the table unchanged, provided symbol names are unique.
- **Event bridge.** This covers the registries of NPC, item and mob entities and the decisions of `useItemOn`, `onInventoryItemInserted`, `onNPCInserted`, `onNPCInitialized`, `getNPCsInRadius` and `initForWorld`. World side effects are returned as actions.

Files:

- `script_vm.dfy` (module `ScriptVM`): 32-bit values, handles, the symbol table, name lookup and instance binding.
- `call_protocol.dfy` (module `CallProtocol`): the run state, the save-stack and the protocol as pure functions (`Prepare`, `Run`, `RunPairs`), with lemmas about them.
- `globals_codec.dfy` (module `GlobalsCodec`): the export and import as functions (`Exported`, `Imported`), with the round trip.
- `event_bridge.dfy` (module `EventBridge`): item use, item insertion, the armor mesh name and the world start-up trace.
- `script_engine.dfy` (module `Engine`): the class `ScriptEngine`. It holds the run state, the save-stack, the symbol table, the three registries and the player entity. Each method is proved against the functions above.

The interpreter loop `while (m_pVM->doStack());` is a parameter of type `Drain`. It maps the called address and the operand stack on entry to the operand stack the callee leaves. It does not touch the save-stack. A nested prepare/run pair made by an external during the drain is therefore taken to be balanced. `CallProtocol.NestedNullCallMisrestores` shows what an unbalanced one, on address 0, does to the outer call.

Symbol names are looked up ignoring case, as Daedalus identifiers are. The engine asks for "self", "hero" and "startup_" + world in the same table as "PC_HERO". The model compares names after ASCII upper-casing (`ScriptVM.Fold`).

## Model

| member | source | states |
|---|---|---|
| ScriptVM.SymbolIndex | src/logic/ScriptEngine.cpp:269-272 | the index a name resolves to holds a symbol whose name matches it ignoring case, and no earlier symbol's name matches |
| ScriptVM.SymbolIndexOfOwnName | src/logic/ScriptEngine.cpp:269-272 | with names unique ignoring case, every symbol's own name resolves to that symbol |
| ScriptVM.NpcFromSymbol | src/logic/ScriptEngine.cpp:378-386 | a valid result comes only from a symbol tagged NPC; a symbol tagged NPC yields exactly its bound handle |
| ScriptVM.ItemFromSymbol | src/logic/ScriptEngine.cpp:388-396 | a valid result comes only from a symbol tagged Item; a symbol tagged Item yields exactly its bound handle |
| ScriptVM.BindKeepsTable | src/logic/ScriptEngine.cpp:146-153 | binding an instance keeps every name, payload and address, and changes no symbol other than the target |
| ScriptVM.ResolveBoundNpc | src/logic/ScriptEngine.cpp:155-160 | after binding a symbol to an NPC, resolving it as an NPC gives that NPC back and resolving it as an item gives the invalid handle |
| ScriptVM.ResolveBoundItem | src/logic/ScriptEngine.cpp:162-167 | after binding a symbol to an item, resolving it as an item gives that item back and resolving it as an NPC gives the invalid handle |
| CallProtocol.Prepare | src/logic/ScriptEngine.cpp:57-64 | the save-stack gains a snapshot of the run state, the operand stack gains a 0, the current instance and the counters are unchanged |
| CallProtocol.Run | src/logic/ScriptEngine.cpp:74-98 | for address 0, the machine unchanged and -1; otherwise one call placed, the result is the callee's top of stack (or 0 with one warning when it left none), and the top snapshot replaces the whole run state and is dropped from the save-stack |
| CallProtocol.NullAddressIsNoOp | src/logic/ScriptEngine.cpp:76-77 | running address 0 returns -1 and leaves the run state, save-stack, call count and warnings untouched |
| CallProtocol.PreparedCallRestores | src/logic/ScriptEngine.cpp:57-98 | a prepared call to a non-null address returns the callee's top of stack (or 0 with exactly one warning if it left none), places one call, and restores exactly the run state and save-stack from before the prepare |
| CallProtocol.PreparedNullCallLeaks | src/logic/ScriptEngine.cpp:57-77 | a prepared call to address 0 returns -1 and leaves its snapshot on the save-stack and the seeded 0 on the operand stack |
| CallProtocol.NestedNullCallMisrestores | src/logic/ScriptEngine.cpp:57-98 | a prepare/run pair on address 0 nested inside a prepared outer call leaves its snapshot behind, so the outer call restores the nested snapshot: the outer snapshot stays on the save-stack and the operand stack keeps the outer 0 |
| CallProtocol.RunPairsSaveStack | src/logic/ScriptEngine.cpp:57-98 | after any sequence of prepare/run pairs the save-stack has grown by exactly the number of null addresses, and the snapshots below are untouched |
| CallProtocol.RunPairsRestore | src/logic/ScriptEngine.cpp:57-98 | a sequence of prepare/run pairs to non-null addresses restores the run state and save-stack and places one call per pair |
| GlobalsCodec.Exported | src/logic/ScriptEngine.cpp:534-544 | the export is, in symbol-table order, one name/value pair per payload element, in array order, of every symbol whose flags are 0 and whose type is integer |
| GlobalsCodec.Imported | src/logic/ScriptEngine.cpp:554-564 | the table after an import has the same length; a symbol that its own name resolves to and that the list names (ignoring case) holds the values paired with its name, in list order; every other symbol is kept |
| GlobalsCodec.ExportedValuesFor | src/logic/ScriptEngine.cpp:534-544 | under a name carried by one symbol only (ignoring case), the export holds exactly that symbol's payload in array order if it is a flag-free integer, and nothing otherwise |
| GlobalsCodec.ExportedUnnamed | src/logic/ScriptEngine.cpp:534-544 | a name carried by no symbol, in any case, contributes nothing to the export |
| GlobalsCodec.ExportedFrom | src/logic/ScriptEngine.cpp:534-544 | every exported pair comes from a flag-free integer symbol of that name and carries one of its values |
| GlobalsCodec.ExportedImportable | src/logic/ScriptEngine.cpp:525-566 | every name in an export is a symbol of the table, so the import's lookups succeed |
| GlobalsCodec.ImportedSymbol | src/logic/ScriptEngine.cpp:555-564 | with names unique ignoring case, a symbol named in the list (in any case) ends with exactly the values paired with its name, in list order; any other symbol is unchanged |
| GlobalsCodec.RoundTrip | src/logic/ScriptEngine.cpp:525-566 | with names unique ignoring case, importing the export of a table leaves every symbol of the table unchanged |
| EventBridge.UseItemOn | src/logic/ScriptEngine.cpp:419-445 | returns false with no message iff `on_state[0]` and `on_equip` are both 0; otherwise sends exactly one message to the NPC for that item, subtype use iff `on_state[0]` is non-zero, else equip |
| EventBridge.ArmorMesh | src/logic/ScriptEngine.cpp:292 | a name of four or more characters loses its last four and gains ".MDM"; a shorter name is kept whole (the `size_t` subtraction wraps) and gains ".MDM" |
| EventBridge.OnInventoryItemInserted | src/logic/ScriptEngine.cpp:283-302 | nothing happens for an invalid entity; otherwise the armor mesh is set iff the armor bit is set and the weapon is equipped iff the near- or far-combat bit is set; both can fire, armor first, and only on that NPC |
| EventBridge.ScriptPhase | src/logic/ScriptEngine.cpp:171-191 | with the `c` flag, only the fallback NPC is spawned; otherwise only scripts run: startup iff it is a first start and the symbol exists, init iff its symbol exists, no other function, each at most once, and startup before init |
| EventBridge.InitForWorld | src/logic/ScriptEngine.cpp:170-220 | the trace ends with the camera; with the `c` flag it starts with the fallback NPC and runs no script |
| EventBridge.InitForWorldScripts | src/logic/ScriptEngine.cpp:171-191 | without the `c` flag the trace runs startup iff it is a first start and the symbol exists, and init iff its symbol exists; it runs no other function, and never init before startup |
| EventBridge.InitForWorldOrder | src/logic/ScriptEngine.cpp:170-220 | no action happens twice; the camera is set only at the end; nothing but the camera follows the player insertion, so the scripts and the fallback NPC come before it; without the `c` flag no fallback NPC is spawned |
| EventBridge.InitForWorldPlayer | src/logic/ScriptEngine.cpp:195-212 | the player is spawned iff (first start or "PC_HERO" has no valid NPC) and a start point exists, and then at the first start point |
| Engine.ScriptEngine.constructor | src/logic/ScriptEngine.cpp:20-25 | a new engine has empty stacks, empty registries and no player entity |
| Engine.ScriptEngine.PushInt | src/logic/ScriptEngine.cpp:117-120 | the value is pushed onto the operand stack and nothing else changes |
| Engine.ScriptEngine.PrepareRunFunction | src/logic/ScriptEngine.cpp:57-64 | the save-stack gains a snapshot of the current run state and the operand stack gains a 0 |
| Engine.ScriptEngine.RunFunction | src/logic/ScriptEngine.cpp:74-98 | the new run state, save-stack, counters and result are those of `Run`, whose behaviour the CallProtocol lemmas establish |
| Engine.ScriptEngine.RunFunctionByName | src/logic/ScriptEngine.cpp:67-72 | runs the address of the symbol the name resolves to |
| Engine.ScriptEngine.RunFunctionBySymIndex | src/logic/ScriptEngine.cpp:100-113 | runs the address of the symbol at the index |
| Engine.ScriptEngine.SetInstanceFromIndex | src/logic/ScriptEngine.cpp:146-153 | the target is bound to the source symbol's handle and class |
| Engine.ScriptEngine.SetInstance | src/logic/ScriptEngine.cpp:137-144 | the target is bound to the handle and class of the symbol the source name resolves to |
| Engine.ScriptEngine.SetInstanceNPC | src/logic/ScriptEngine.cpp:155-160 | the target is bound to the NPC and afterwards resolves to it |
| Engine.ScriptEngine.SetInstanceItem | src/logic/ScriptEngine.cpp:162-167 | the target is bound to the item and afterwards resolves to it |
| Engine.ScriptEngine.OnNPCInserted | src/logic/ScriptEngine.cpp:222-262 | the entity always joins the NPC registry; a found vob is teleported iff its waypoint exists; the hero NPC becomes the player entity, gets key bindings once, and "hero" resolves to the same handle as "PC_HERO" |
| Engine.ScriptEngine.OnNPCInitialized | src/logic/ScriptEngine.cpp:305-323 | with no daily routine nothing changes; otherwise "self" is bound to the NPC; for a non-null routine address the run state and save-stack come back as before; for a null address the snapshot and the 0 stay and "self" stays current |
| Engine.ScriptEngine.GetNPCsInRadius | src/logic/ScriptEngine.cpp:325-339 | the result is exactly the registered NPCs whose squared distance is strictly below the squared radius (one at exactly the radius is excluded) |
| Engine.ScriptEngine.RegisterItem | src/logic/ScriptEngine.cpp:398-401 | the item registry gains the handle (so registering twice equals once); the NPC and mob registries are unchanged |
| Engine.ScriptEngine.UnregisterItem | src/logic/ScriptEngine.cpp:403-406 | the handle is no longer in the item registry; the other registries are unchanged |
| Engine.ScriptEngine.RegisterMob | src/logic/ScriptEngine.cpp:408-411 | the mob registry gains the handle; the other registries are unchanged |
| Engine.ScriptEngine.UnregisterMob | src/logic/ScriptEngine.cpp:413-416 | the handle is no longer in the mob registry; the other registries are unchanged |
| Engine.ScriptEngine.ExportScriptEngine | src/logic/ScriptEngine.cpp:525-546 | the result is the existing globals followed by the table's export |
| Engine.ScriptEngine.ImportScriptEngine | src/logic/ScriptEngine.cpp:548-566 | the new symbol table is the old one with the list imported |
| Engine.ExportedPrefixStep | src/logic/ScriptEngine.cpp:534-544 | each pass of the export loop appends the contribution of the next symbol to the export of the symbols before it |
| Engine.ClearStep | src/logic/ScriptEngine.cpp:554-558 | each step of the clearing pass empties the payload of the symbol its name resolves to |
| Engine.AppendStep | src/logic/ScriptEngine.cpp:560-564 | each step of the appending pass appends its value to the symbol its name resolves to |

## Left out

- The bytecode interpreter (`doCallOperation`, `clearCallStack`, `doStack`, the push and pop internals) is not modelled. Draining is the `Drain` parameter, which acts on the operand stack only. The program counter and the call stack are not modelled.
- CallProtocol.PreparedCallRestores: the restore holds only when every nested prepare/run pair made during the drain is balanced. A nested pair on address 0, as `onNPCInitialized` makes for an NPC whose routine address is 0 when a script inserts it, leaves a snapshot that the outer `popState` restores instead of its own (`CallProtocol.NestedNullCallMisrestores`). The drain cannot express this, because it acts on the operand stack only.
- Engine.ScriptEngine.RunFunction: the callee cannot change the symbol table, the registries or the current instance. Those effects happen in script code and in externals, which are not part of this model.
- `pushState` is taken to copy the run state (operand stack and current instance) without clearing it. The VM's own source is not part of this model.
- `pushString` and both `pushSymbol` overloads: the operand stack holds only integers here. String entries and variable references are not modelled.
- `loadDAT` loads a file and registers externals from other libraries. The constructor takes the loaded symbol table instead. The destructor only deletes the VM, and memory is not modelled. `getGameState`, `getVM` and `hasSymbol` are plain accessors; `hasSymbol` is the predicate `ScriptVM.HasSymbol`.
- Lookup by name returns the first symbol whose name matches ignoring case. The DAT file's name index is not part of this model, so the case-insensitive match is modelled as equality after ASCII upper-casing (`ScriptVM.Fold`); any other folding the VM applies is not captured. The round trip assumes names unique ignoring case, as a compiled script file has them.
- `findWorldNPCsNameLike` depends on `Utils::containsLike`, which is not part of this model.
- `onLogEntryAdded` (UI printing) and all logging are left out. Only the warning of `runFunction` is counted.
- The profiling functions (`startProfiling`, `stopProfiling`, `resetProfilingData`, `onFrameStart`, `onFrameEnd`) are left out. They use clocks and floating point. `PROFILE_SCRIPT_CALLS` is 0, so the bodies of `onFrameStart` and `onFrameEnd` and the profiling calls in `runFunctionBySymIndex` are compiled out. `startProfiling`, `stopProfiling` and `resetProfilingData` are compiled but never called.
- Engine.ScriptEngine.GetNPCsInRadius: the float vector maths is replaced by a real-valued squared distance per entity. The radius is squared in reals, so float rounding is not modelled.
- Engine.ScriptEngine.OnNPCInserted: the world's answers are parameters. These are the created entity, whether its vob is valid, whether the spawn waypoint exists, the NPC's instance symbol, and the entity of the NPC bound to "PC_HERO". The engine's `assert(player.isValid())` is not modelled. "hero" is bound to the NPC handle "PC_HERO" resolves to, where the source binds the script handle of the vob found for that NPC. The two are taken to be the same handle, which holds whenever that vob lookup succeeds. Teleporting and key-binding setup are returned as actions.
- EventBridge.InitForWorld: the result is a trace of actions. The scripts' own effects and the camera controller are not modelled. The `m_PlayerEntity` assignment appears as the `InsertPlayer` action. The symbol table passed in is the one seen at the "PC_HERO" check, because scripts never change names.
- EventBridge.UseItemOn: the NPC vob lookup, and a null player controller on an invalid NPC entity, are not modelled. The message is returned as addressed to the NPC entity.
- The item category bits are taken from the Gothic item flags: near combat = bit 1, far combat = bit 2, armor = bit 4. The header that defines them is not part of this model. `size_t` is taken as 64 bits wide.
- JSON handling in the save codec is not modelled. The `globals` array is a sequence of name/value pairs, and malformed JSON (a non-string name, a non-integer value) is not covered.
