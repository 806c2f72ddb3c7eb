/** The part of the Daedalus script VM that the script engine reads and
    writes directly: 32-bit script values, handles of script objects and the
    symbol table with its instance bindings. */
module ScriptVM {

  /** A Daedalus integer: every value on the operand stack and in a symbol's
      integer payload is an `int32_t`. */
  type Int32 = x: int | -0x8000_0000 <= x < 0x8000_0000

  /** A handle of a script object (an NPC or an item) in the VM's object
      tables. The widening (`toBigHandle`) and narrowing (`handleCast`)
      casts keep the slot, so one type stands for the NPC, item and generic
      handles alike; `Invalid` is the default-constructed handle. */
  datatype Handle = Invalid | Handle(index: nat) {
    predicate IsValid() { Handle? }
  }

  /** The element type recorded in a symbol's properties (`EParType_*`). */
  datatype ParType =
    | VoidType | FloatType | IntType | StringType
    | ClassType | FuncType | PrototypeType | InstanceType

  /** The class tag of the object an instance symbol is bound to. */
  datatype InstanceClass = NoClass | Npc | Item | OtherClass(tag: nat)

  /** One slot of the symbol table. Only `intData`, `instanceClass` and
      `instanceHandle` ever change after the script file is loaded. */
  datatype Symbol = Symbol(
    name: string,
    flags: nat,
    parType: ParType,
    intData: seq<Int32>,
    address: nat,
    instanceClass: InstanceClass,
    instanceHandle: Handle)

  /** ASCII upper-casing of one character. */
  function UpperChar(c: char): char {
    if 'a' <= c <= 'z' then (c as int - 32) as char else c
  }

  /** The key under which the VM looks a name up: Daedalus identifiers
      ignore case, so "self" and "SELF" name the same symbol. */
  function Fold(name: string): (key: string)
    ensures |key| == |name|
    ensures forall k :: 0 <= k < |name| ==> key[k] == UpperChar(name[k])
  {
    seq(|name|, k requires 0 <= k < |name| => UpperChar(name[k]))
  }

  /** Two spellings that name the same symbol. */
  predicate SameName(a: string, b: string) {
    Fold(a) == Fold(b)
  }

  /** The lookup keys of the symbol table, in table order. */
  function Names(syms: seq<Symbol>): (keys: seq<string>)
    ensures |keys| == |syms|
    ensures forall i :: 0 <= i < |syms| ==> keys[i] == Fold(syms[i].name)
  {
    seq(|syms|, i requires 0 <= i < |syms| => Fold(syms[i].name))
  }

  /** `hasSymbolName`. */
  predicate HasSymbol(syms: seq<Symbol>, name: string) {
    Fold(name) in Names(syms)
  }

  /** Every name stands for one symbol only, ignoring case, as in a script
      file produced by the Daedalus compiler. */
  predicate UniqueNames(syms: seq<Symbol>) {
    forall i, j :: 0 <= i < j < |syms| ==> !SameName(syms[i].name, syms[j].name)
  }

  /** The position of the first occurrence of `key`. */
  function IndexOf(keys: seq<string>, key: string): (i: nat)
    requires key in keys
    ensures i < |keys| && keys[i] == key
    ensures forall j :: 0 <= j < i ==> keys[j] != key
  {
    if keys[0] == key then 0 else 1 + IndexOf(keys[1..], key)
  }

  /** `getSymbolIndexByName`: the symbol a name resolves to, the first one
      whose name matches ignoring case. */
  function SymbolIndex(syms: seq<Symbol>, name: string): (i: nat)
    requires HasSymbol(syms, name)
    ensures i < |syms| && SameName(syms[i].name, name)
    ensures forall j :: 0 <= j < i ==> !SameName(syms[j].name, name)
  {
    IndexOf(Names(syms), Fold(name))
  }

  /** With unique names, a symbol's own name resolves to that symbol. */
  lemma SymbolIndexOfOwnName(syms: seq<Symbol>, i: nat)
    requires UniqueNames(syms) && i < |syms|
    ensures HasSymbol(syms, syms[i].name)
    ensures SymbolIndex(syms, syms[i].name) == i
  {
  }

  /** `getNPCFromSymbol`: the NPC bound to a symbol, or the invalid handle
      when the symbol is not bound to an object of class NPC. */
  function NpcFromSymbol(syms: seq<Symbol>, name: string): (h: Handle)
    requires HasSymbol(syms, name)
    ensures h.IsValid() ==> syms[SymbolIndex(syms, name)].instanceClass == Npc
    ensures syms[SymbolIndex(syms, name)].instanceClass == Npc ==>
              h == syms[SymbolIndex(syms, name)].instanceHandle
  {
    var sym := syms[SymbolIndex(syms, name)];
    if sym.instanceClass != Npc then Invalid else sym.instanceHandle
  }

  /** `getItemFromSymbol`: the item bound to a symbol, or the invalid handle
      when the symbol is not bound to an object of class Item. */
  function ItemFromSymbol(syms: seq<Symbol>, name: string): (h: Handle)
    requires HasSymbol(syms, name)
    ensures h.IsValid() ==> syms[SymbolIndex(syms, name)].instanceClass == Item
    ensures syms[SymbolIndex(syms, name)].instanceClass == Item ==>
              h == syms[SymbolIndex(syms, name)].instanceHandle
  {
    var sym := syms[SymbolIndex(syms, name)];
    if sym.instanceClass != Item then Invalid else sym.instanceHandle
  }

  /** The VM's `setInstance(target, handle, class)`: the symbol `target`
      resolves to is rebound to the given object; nothing else changes. */
  function Bind(syms: seq<Symbol>, target: string, h: Handle, cls: InstanceClass): (r: seq<Symbol>)
    requires HasSymbol(syms, target)
  {
    var i := SymbolIndex(syms, target);
    syms[i := syms[i].(instanceHandle := h, instanceClass := cls)]
  }

  /** Binding keeps the names (so every lookup by name), the payloads and the
      addresses, and touches no symbol but the target. */
  lemma BindKeepsTable(syms: seq<Symbol>, target: string, h: Handle, cls: InstanceClass)
    requires HasSymbol(syms, target)
    ensures |Bind(syms, target, h, cls)| == |syms|
    ensures Names(Bind(syms, target, h, cls)) == Names(syms)
    ensures forall i :: 0 <= i < |syms| ==>
              Bind(syms, target, h, cls)[i].intData == syms[i].intData &&
              Bind(syms, target, h, cls)[i].address == syms[i].address
    ensures forall i :: 0 <= i < |syms| && i != SymbolIndex(syms, target) ==>
              Bind(syms, target, h, cls)[i] == syms[i]
  {
  }

  /** Binding a symbol to an NPC and resolving it again gives back that NPC,
      and resolving it as an item gives the invalid handle. */
  lemma ResolveBoundNpc(syms: seq<Symbol>, target: string, npc: Handle)
    requires HasSymbol(syms, target)
    ensures HasSymbol(Bind(syms, target, npc, Npc), target)
    ensures NpcFromSymbol(Bind(syms, target, npc, Npc), target) == npc
    ensures ItemFromSymbol(Bind(syms, target, npc, Npc), target) == Invalid
  {
    BindKeepsTable(syms, target, npc, Npc);
  }

  /** Binding a symbol to an item and resolving it again gives back that
      item, and resolving it as an NPC gives the invalid handle. */
  lemma ResolveBoundItem(syms: seq<Symbol>, target: string, item: Handle)
    requires HasSymbol(syms, target)
    ensures HasSymbol(Bind(syms, target, item, Item), target)
    ensures ItemFromSymbol(Bind(syms, target, item, Item), target) == item
    ensures NpcFromSymbol(Bind(syms, target, item, Item), target) == Invalid
  {
    BindKeepsTable(syms, target, item, Item);
  }
}
