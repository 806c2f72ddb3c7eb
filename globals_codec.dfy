/** The save-game codec for script globals: which integer symbols are
    written out, in what order, and how a saved list is applied back onto
    the symbol table. */
module GlobalsCodec {
  import opened ScriptVM

  /** One element of the saved `globals` array: `[symbol name, value]`. */
  datatype Global = Global(name: string, value: Int32)

  /** A symbol the save format keeps: a plain integer with no flags (so no
      constant, no class member, no external). */
  predicate Persisted(s: Symbol) {
    s.flags == 0 && s.parType == IntType
  }

  /** Every element of a symbol's payload, in array order, tagged with the
      symbol's name. */
  function Entries(s: Symbol): (g: seq<Global>)
    ensures |g| == |s.intData|
    ensures forall k :: 0 <= k < |g| ==> g[k] == Global(s.name, s.intData[k])
  {
    seq(|s.intData|, k requires 0 <= k < |s.intData| => Global(s.name, s.intData[k]))
  }

  /** What one symbol adds to the export. */
  function Contribution(s: Symbol): seq<Global> {
    if Persisted(s) then Entries(s) else []
  }

  /** The export of a symbol table: contributions in symbol-table order. */
  function Exported(syms: seq<Symbol>): seq<Global>
    decreases |syms|
  {
    if syms == [] then []
    else Exported(syms[..|syms| - 1]) + Contribution(syms[|syms| - 1])
  }

  /** The values paired with `name` (in any case), in list order. */
  function ValuesFor(g: seq<Global>, name: string): seq<Int32>
    decreases |g|
  {
    if g == [] then []
    else ValuesFor(g[..|g| - 1], name) + (if SameName(g[|g| - 1].name, name) then [g[|g| - 1].value] else [])
  }

  /** `name` occurs in the list, in any case. */
  predicate Mentions(g: seq<Global>, name: string) {
    exists k :: 0 <= k < |g| && SameName(g[k].name, name)
  }

  /** Every name in the list is a symbol of the table (`getSymbolByName`
      asserts this). */
  predicate Importable(syms: seq<Symbol>, g: seq<Global>) {
    forall k :: 0 <= k < |g| ==> HasSymbol(syms, g[k].name)
  }

  /** The symbol at `i` is the one its name resolves to, and the list names it. */
  predicate Targeted(syms: seq<Symbol>, g: seq<Global>, i: nat)
    requires i < |syms|
  {
    assert Names(syms)[i] == Fold(syms[i].name);
    SymbolIndex(syms, syms[i].name) == i && Mentions(g, syms[i].name)
  }

  /** The symbol table after an import of `g`: a targeted symbol's payload
      becomes the values paired with its name; every other symbol is kept. */
  function Imported(syms: seq<Symbol>, g: seq<Global>): (r: seq<Symbol>)
    ensures |r| == |syms|
  {
    seq(|syms|, i requires 0 <= i < |syms| =>
      if Targeted(syms, g, i) then syms[i].(intData := ValuesFor(g, syms[i].name)) else syms[i])
  }

  // ---------------------------------------------------------------------
  // Properties of the values of one name

  lemma {:induction false} ValuesForAppend(a: seq<Global>, b: seq<Global>, name: string)
    ensures ValuesFor(a + b, name) == ValuesFor(a, name) + ValuesFor(b, name)
    decreases |b|
  {
    if b != [] {
      var b' := b[..|b| - 1];
      assert (a + b)[..|a + b| - 1] == a + b';
      ValuesForAppend(a, b', name);
    } else {
      assert a + b == a;
    }
  }

  /** A name has values in the list exactly when the list mentions it. */
  lemma {:induction false} MentionsIffValues(g: seq<Global>, name: string)
    ensures Mentions(g, name) <==> ValuesFor(g, name) != []
    decreases |g|
  {
    if g != [] {
      var g' := g[..|g| - 1];
      MentionsIffValues(g', name);
      if Mentions(g', name) {
        var k :| 0 <= k < |g'| && SameName(g'[k].name, name);
        assert SameName(g[k].name, name);
      }
      if Mentions(g, name) && !SameName(g[|g| - 1].name, name) {
        var k :| 0 <= k < |g| && SameName(g[k].name, name);
        assert SameName(g'[k].name, name);
      }
    }
  }

  /** A symbol's own entries give back its payload under its name, and
      nothing under any name that differs from it other than in case. */
  lemma {:induction false} ValuesForEntries(s: Symbol, name: string)
    ensures ValuesFor(Entries(s), name) == if SameName(s.name, name) then s.intData else []
    decreases |s.intData|
  {
    if s.intData != [] {
      var s' := s.(intData := s.intData[..|s.intData| - 1]);
      assert Entries(s)[..|Entries(s)| - 1] == Entries(s');
      ValuesForEntries(s', name);
    }
  }

  // ---------------------------------------------------------------------
  // Properties of the export

  /** A name that no symbol of the table carries, in any case, has no values
      in the export. */
  lemma {:induction false} ExportedUnnamed(syms: seq<Symbol>, name: string)
    requires forall j :: 0 <= j < |syms| ==> !SameName(syms[j].name, name)
    ensures ValuesFor(Exported(syms), name) == []
    decreases |syms|
  {
    if syms != [] {
      var init := syms[..|syms| - 1];
      ExportedUnnamed(init, name);
      ValuesForAppend(Exported(init), Contribution(syms[|syms| - 1]), name);
      ValuesForEntries(syms[|syms| - 1], name);
    }
  }

  /** Under a name that only symbol `i` carries (ignoring case), the export holds exactly
      that symbol's payload, in order, if the symbol is persisted, and
      nothing otherwise. */
  lemma {:induction false} ExportedValuesFor(syms: seq<Symbol>, i: nat)
    requires i < |syms|
    requires forall j :: 0 <= j < |syms| && j != i ==> !SameName(syms[j].name, syms[i].name)
    ensures ValuesFor(Exported(syms), syms[i].name) ==
              if Persisted(syms[i]) then syms[i].intData else []
    decreases |syms|
  {
    var n := |syms| - 1;
    var init := syms[..n];
    ValuesForAppend(Exported(init), Contribution(syms[n]), syms[i].name);
    ValuesForEntries(syms[n], syms[i].name);
    if i == n {
      ExportedUnnamed(init, syms[i].name);
    } else {
      ExportedValuesFor(init, i);
    }
  }

  /** Every exported entry comes from a persisted symbol of that name and
      carries one of its values. */
  lemma {:induction false} ExportedFrom(syms: seq<Symbol>, k: nat)
    requires k < |Exported(syms)|
    ensures exists j :: 0 <= j < |syms| && Persisted(syms[j])
              && syms[j].name == Exported(syms)[k].name
              && Exported(syms)[k].value in syms[j].intData
    decreases |syms|
  {
    var n := |syms| - 1;
    var init := syms[..n];
    if k < |Exported(init)| {
      ExportedFrom(init, k);
      var j :| 0 <= j < |init| && Persisted(init[j])
                && init[j].name == Exported(init)[k].name
                && Exported(init)[k].value in init[j].intData;
      assert syms[j] == init[j];
    } else {
      var e := Exported(syms)[k];
      assert e == Contribution(syms[n])[k - |Exported(init)|];
      assert e.value == syms[n].intData[k - |Exported(init)|];
    }
  }

  /** The export can always be imported back into the same table. */
  lemma ExportedImportable(syms: seq<Symbol>)
    ensures Importable(syms, Exported(syms))
  {
  }

  // ---------------------------------------------------------------------
  // Properties of the import

  /** With unique names, importing `g` sets each symbol named in `g` (in
      any case) to exactly the values paired with its name, in list order, and keeps
      every other symbol; no other field of any symbol changes. */
  lemma ImportedSymbol(syms: seq<Symbol>, g: seq<Global>, i: nat)
    requires UniqueNames(syms) && i < |syms|
    ensures Imported(syms, g)[i] ==
              if Mentions(g, syms[i].name)
              then syms[i].(intData := ValuesFor(g, syms[i].name))
              else syms[i]
  {
  }

  /** Round trip: with unique names, importing the export of a table
      leaves every symbol of the table as it was. */
  lemma {:induction false} RoundTrip(syms: seq<Symbol>)
    requires UniqueNames(syms)
    ensures Importable(syms, Exported(syms))
    ensures Imported(syms, Exported(syms)) == syms
  {
    ExportedImportable(syms);
    var g := Exported(syms);
    forall i | 0 <= i < |syms|
      ensures Imported(syms, g)[i] == syms[i]
    {
      ImportedSymbol(syms, g, i);
      ExportedValuesFor(syms, i);
      MentionsIffValues(g, syms[i].name);
    }
  }
}
