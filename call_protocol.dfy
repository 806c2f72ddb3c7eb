/** The call protocol of the script engine: `prepareRunFunction` followed by
    `runFunction`, stated over the VM's run state and its save-stack of
    snapshots. The bytecode interpreter is opaque; its effect is a `Drain`. */
module CallProtocol {
  import opened ScriptVM

  /** The run state that `pushState` saves and `popState` restores: the
      operand stack (top at the end) and the current-instance symbol. */
  datatype VMState = VMState(stack: seq<Int32>, currentInstance: nat)

  /** The run state, the save-stack of snapshots (top at the end), and two
      observations: call operations placed into the VM, warnings logged. */
  datatype Machine = Machine(state: VMState, saved: seq<VMState>, callsPlaced: nat, warnings: nat)

  /** What `while (doStack());` does: given the address called and the
      operand stack on entry, the operand stack once the interpreter reports
      no more pending instructions. It acts on the operand stack alone, so a
      nested prepare/run pair that an external makes during the drain is
      taken to be balanced; `NestedNullCallMisrestores` shows what an
      unbalanced one does. */
  type Drain = (nat, seq<Int32>) -> seq<Int32>

  /** The null function address, for which `runFunction` does not enter the VM. */
  const NULL_ADDRESS: nat := 0

  /** The result `runFunction` reports for the null address. */
  const FAILED: Int32 := -1

  /** `pushState`: snapshot the run state onto the save-stack. */
  function PushState(m: Machine): Machine {
    m.(saved := m.saved + [m.state])
  }

  /** `popState`: restore the top snapshot and drop it. */
  function PopState(m: Machine): Machine
    requires m.saved != []
  {
    m.(state := m.saved[|m.saved| - 1], saved := m.saved[..|m.saved| - 1])
  }

  /** `pushInt`: push one value onto the operand stack. */
  function PushInt(m: Machine, v: Int32): Machine {
    m.(state := m.state.(stack := m.state.stack + [v]))
  }

  /** `prepareRunFunction`: snapshot, then seed the stack with the default
      result 0 for functions that do not return a value. */
  function Prepare(m: Machine): (r: Machine)
    ensures r.saved == m.saved + [m.state]
    ensures r.state == VMState(m.state.stack + [0], m.state.currentInstance)
    ensures r.callsPlaced == m.callsPlaced && r.warnings == m.warnings
  {
    PushInt(PushState(m), 0)
  }

  /** `runFunction(addr)`: the machine afterwards and the value returned.
      For a non-null address whatever the callee left below its result is
      dropped, because the top snapshot replaces the whole run state. */
  function Run(m: Machine, addr: nat, drain: Drain): (r: (Machine, Int32))
    requires addr != NULL_ADDRESS ==> m.saved != []
    ensures addr == NULL_ADDRESS ==> r == (m, FAILED)
    ensures addr != NULL_ADDRESS ==>
              var after := drain(addr, m.state.stack);
              && r.0.state == m.saved[|m.saved| - 1]
              && r.0.saved == m.saved[..|m.saved| - 1]
              && r.0.callsPlaced == m.callsPlaced + 1
              && r.1 == (if after != [] then after[|after| - 1] else 0)
              && r.0.warnings == m.warnings + (if after != [] then 0 else 1)
  {
    if addr == NULL_ADDRESS then (m, FAILED)
    else
      var called := m.(callsPlaced := m.callsPlaced + 1);
      var after := drain(addr, m.state.stack);
      if after != [] then
        var popped := called.(state := called.state.(stack := after[..|after| - 1]));
        (PopState(popped), after[|after| - 1])
      else
        var warned := called.(state := called.state.(stack := after), warnings := called.warnings + 1);
        (PopState(warned), 0)
  }

  /** The null address returns -1 and leaves everything as it was: no call
      operation, no instruction stepping, nothing popped. */
  lemma NullAddressIsNoOp(m: Machine, drain: Drain)
    ensures Run(m, NULL_ADDRESS, drain) == (m, FAILED)
  {
  }

  /** A prepared call to a non-null address returns the top of the operand
      stack the callee left (or 0 with one warning when it left none) and
      puts back exactly the run state and save-stack seen before
      `prepareRunFunction`. */
  lemma PreparedCallRestores(m: Machine, addr: nat, drain: Drain)
    requires addr != NULL_ADDRESS
    ensures var after := drain(addr, m.state.stack + [0]);
            var (m', ret) := Run(Prepare(m), addr, drain);
            && m'.state == m.state
            && m'.saved == m.saved
            && m'.callsPlaced == m.callsPlaced + 1
            && (after != [] ==> ret == after[|after| - 1] && m'.warnings == m.warnings)
            && (after == [] ==> ret == 0 && m'.warnings == m.warnings + 1)
  {
  }

  /** A prepared call to the null address returns -1 without popping the
      snapshot: the save-stack keeps it and the seeded 0 stays on the
      operand stack. */
  lemma PreparedNullCallLeaks(m: Machine, drain: Drain)
    ensures var (m', ret) := Run(Prepare(m), NULL_ADDRESS, drain);
            && ret == FAILED
            && m'.saved == m.saved + [m.state]
            && m'.state.stack == m.state.stack + [0]
            && m'.state.currentInstance == m.state.currentInstance
            && m'.callsPlaced == m.callsPlaced
            && m'.warnings == m.warnings
  {
  }

  /** A prepare/run pair on the null address nested inside a prepared outer
      call (an external such as `Wld_InsertNpc` reaching `onNPCInitialized`
      for a routine at address 0) leaves its snapshot on the save-stack. The
      outer call's `popState` then restores the nested snapshot instead of
      its own: the outer snapshot stays behind, and the operand stack keeps
      the 0 the outer prepare seeded. */
  lemma NestedNullCallMisrestores(m: Machine, addr: nat, drain: Drain)
    requires addr != NULL_ADDRESS
    ensures var nested := Run(Prepare(Prepare(m)), NULL_ADDRESS, drain).0;
            var (m', _) := Run(nested, addr, drain);
            && m'.saved == m.saved + [m.state]
            && m'.state == VMState(m.state.stack + [0], m.state.currentInstance)
            && m'.state != m.state
  {
  }

  /** Several prepare/run pairs issued one after another, as the engine does
      for a world's startup and init functions. */
  function RunPairs(m: Machine, addrs: seq<nat>, drain: Drain): Machine
    decreases addrs
  {
    if addrs == [] then m
    else RunPairs(Run(Prepare(m), addrs[0], drain).0, addrs[1..], drain)
  }

  /** How many of the addresses are the null address. */
  function NullCount(addrs: seq<nat>): nat
  {
    if addrs == [] then 0
    else (if addrs[0] == NULL_ADDRESS then 1 else 0) + NullCount(addrs[1..])
  }

  /** Each pair to a non-null address is balanced, each pair to the null
      address leaves one snapshot behind: after any sequence of pairs the
      save-stack has grown by exactly the number of null addresses, and the
      snapshots below stay untouched. */
  lemma {:induction false} RunPairsSaveStack(m: Machine, addrs: seq<nat>, drain: Drain)
    ensures |RunPairs(m, addrs, drain).saved| == |m.saved| + NullCount(addrs)
    ensures RunPairs(m, addrs, drain).saved[..|m.saved|] == m.saved
    decreases addrs
  {
    if addrs != [] {
      var next := Run(Prepare(m), addrs[0], drain).0;
      if addrs[0] == NULL_ADDRESS {
        PreparedNullCallLeaks(m, drain);
      } else {
        PreparedCallRestores(m, addrs[0], drain);
      }
      RunPairsSaveStack(next, addrs[1..], drain);
      assert next.saved[..|m.saved|] == m.saved;
    }
  }

  /** When no address is null, any sequence of pairs leaves the run state and
      the save-stack exactly as they were. */
  lemma {:induction false} RunPairsRestore(m: Machine, addrs: seq<nat>, drain: Drain)
    requires forall k :: 0 <= k < |addrs| ==> addrs[k] != NULL_ADDRESS
    ensures RunPairs(m, addrs, drain).state == m.state
    ensures RunPairs(m, addrs, drain).saved == m.saved
    ensures RunPairs(m, addrs, drain).callsPlaced == m.callsPlaced + |addrs|
    decreases addrs
  {
    if addrs != [] {
      PreparedCallRestores(m, addrs[0], drain);
      RunPairsRestore(Run(Prepare(m), addrs[0], drain).0, addrs[1..], drain);
    }
  }
}
