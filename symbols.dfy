/** The symbol table and its merger rule, shared by the Teochew and the
    Cantonese renderers (`_lookup_terminal`).

    A category of TERMINALS maps a symbolic name to its spelling per scheme;
    a category of MERGERS maps a symbolic name, per scheme, to another
    symbolic name whose DIRECT spelling it takes.  Merger entries override
    direct entries, and a merger target is looked up among the direct
    entries only: at most one hop. */
module Symbols {
  import opened Common

  /** one category of TERMINALS: name -> (scheme -> spelling) */
  type Terminals = map<string, map<string, string>>

  /** one category of MERGERS: name -> (scheme -> target name) */
  type Mergers = map<string, map<string, string>>

  /** TERMINALS and MERGERS, keyed by category ("initial", "medial", ...) */
  datatype Tables = Tables(terminals: map<string, Terminals>, mergers: map<string, Mergers>)

  /** the dictionary comprehension: every name with a spelling for `system` */
  function DirectTable(terms: Terminals, system: string): (d: map<string, string>)
    ensures forall n :: n in d <==> n in terms && system in terms[n]
    ensures forall n :: n in d ==> d[n] == terms[n][system]
  {
    map n | n in terms && system in terms[n] :: terms[n][system]
  }

  predicate HasMerger(merg: Mergers, system: string, n: string) {
    n in merg && system in merg[n]
  }

  predicate HasDirect(terms: Terminals, system: string, n: string) {
    n in terms && system in terms[n]
  }

  /** A merger entry of `system` can be followed: its target has a direct
      spelling for `system`. */
  predicate Resolves(terms: Terminals, merg: Mergers, system: string, n: string)
    requires HasMerger(merg, system, n)
  {
    HasDirect(terms, system, merg[n][system])
  }

  /** Every merger entry of `system` can be followed; otherwise the merger
      loop raises before any name is looked up. */
  predicate MergersResolve(terms: Terminals, merg: Mergers, system: string) {
    forall n :: n in merg && system in merg[n] ==> Resolves(terms, merg, system, n)
  }

  /** the spelling `trdict` ends with for a name, after the loop over `done` */
  function Spelling(terms: Terminals, merg: Mergers, system: string, done: set<string>, n: string): string
    requires HasMerger(merg, system, n) && n in done ==> Resolves(terms, merg, system, n)
    requires (HasMerger(merg, system, n) && n in done) || HasDirect(terms, system, n)
  {
    if HasMerger(merg, system, n) && n in done then terms[merg[n][system]][system]
    else terms[n][system]
  }

  /** `trdict` after the merger loop has visited the names in `done`
      (each of which resolves). */
  function PartialTable(terms: Terminals, merg: Mergers, system: string, done: set<string>): map<string, string>
    requires forall n :: n in done && HasMerger(merg, system, n) ==> Resolves(terms, merg, system, n)
  {
    map n | n in terms.Keys + (done * merg.Keys)
            && (HasDirect(terms, system, n) || (n in done && HasMerger(merg, system, n)))
      :: Spelling(terms, merg, system, done, n)
  }

  lemma PartialTableEmpty(terms: Terminals, merg: Mergers, system: string)
    ensures PartialTable(terms, merg, system, {}) == DirectTable(terms, system)
  {
  }

  /** One iteration of the merger loop: visiting `n` overwrites the entry of
      `n` when `n` is merged for `system`, and changes nothing otherwise. */
  lemma PartialTableStep(terms: Terminals, merg: Mergers, system: string, done: set<string>, n: string)
    requires forall m :: m in done && HasMerger(merg, system, m) ==> Resolves(terms, merg, system, m)
    requires n in merg && n !in done
    requires HasMerger(merg, system, n) ==> Resolves(terms, merg, system, n)
    ensures HasMerger(merg, system, n) ==>
      PartialTable(terms, merg, system, done + {n})
        == PartialTable(terms, merg, system, done)[n := terms[merg[n][system]][system]]
    ensures !HasMerger(merg, system, n) ==>
      PartialTable(terms, merg, system, done + {n}) == PartialTable(terms, merg, system, done)
  {
    var before := PartialTable(terms, merg, system, done);
    var after := PartialTable(terms, merg, system, done + {n});
    if HasMerger(merg, system, n) {
      var expected := before[n := terms[merg[n][system]][system]];
      assert after.Keys == expected.Keys;
      forall m | m in after ensures after[m] == expected[m] {
      }
    } else {
      assert after.Keys == before.Keys;
      forall m | m in after ensures after[m] == before[m] {
      }
    }
  }

  /** `trdict` once the whole merger loop has run, or the KeyError it raises */
  function MergedTable(terms: Terminals, merg: Mergers, system: string, which: string): Result<map<string, string>> {
    if MergersResolve(terms, merg, system) then Ok(PartialTable(terms, merg, system, merg.Keys))
    else Err(BrokenMerger(which, system))
  }

  /** The dictionary comprehension followed by the loop over MERGERS[which]
      that overwrites each merged name with its target's direct spelling. */
  method BuildTable(terms: Terminals, merg: Mergers, system: string, which: string)
    returns (r: Result<map<string, string>>)
    ensures r == MergedTable(terms, merg, system, which)
  {
    var trdict := map n | n in terms && system in terms[n] :: terms[n][system];
    PartialTableEmpty(terms, merg, system);
    var rest := merg.Keys;
    while rest != {}
      invariant rest <= merg.Keys
      invariant forall n :: n in merg.Keys - rest && HasMerger(merg, system, n) ==> Resolves(terms, merg, system, n)
      invariant trdict == PartialTable(terms, merg, system, merg.Keys - rest)
      decreases rest
    {
      var n :| n in rest;
      ghost var done := merg.Keys - rest;
      if system in merg[n] {
        var mergedTo := merg[n][system];
        if !(mergedTo in terms && system in terms[mergedTo]) {
          assert !Resolves(terms, merg, system, n);
          return Err(BrokenMerger(which, system));
        }
        PartialTableStep(terms, merg, system, done, n);
        trdict := trdict[n := terms[mergedTo][system]];
      } else {
        PartialTableStep(terms, merg, system, done, n);
      }
      rest := rest - {n};
      assert merg.Keys - rest == done + {n};
    }
    assert merg.Keys - rest == merg.Keys;
    return Ok(trdict);
  }

  /** `_lookup_terminal(items, which)` for the symbolic name `name`; what
      it returns is stated by `LookupResult`. */
  function LookupTerminal(tables: Tables, which: string, system: string, name: string): (r: Result<string>)
    ensures which !in tables.terminals || which !in tables.mergers ==> r == Err(MissingCategory(which))
  {
    if which !in tables.terminals || which !in tables.mergers then Err(MissingCategory(which))
    else
      var d :- MergedTable(tables.terminals[which], tables.mergers[which], system, which);
      if name in d then Ok(d[name]) else Err(MissingTerminal(which, name, system))
  }

  /** The lookup succeeds only when every merger entry of the scheme
      resolves; a merger entry then wins over a direct entry and its
      target's DIRECT spelling is used; a name with neither entry is the
      KeyError. */
  lemma LookupResult(tables: Tables, which: string, system: string, name: string)
    ensures var r := LookupTerminal(tables, which, system, name);
      (r.Ok? ==> which in tables.terminals && which in tables.mergers
                 && MergersResolve(tables.terminals[which], tables.mergers[which], system))
      && (r.Ok? && HasMerger(tables.mergers[which], system, name) ==>
            var target := tables.mergers[which][name][system];
            HasDirect(tables.terminals[which], system, target) && r.value == tables.terminals[which][target][system])
      && (r.Ok? && !HasMerger(tables.mergers[which], system, name) ==>
            HasDirect(tables.terminals[which], system, name) && r.value == tables.terminals[which][name][system])
      && ((which in tables.terminals && which in tables.mergers
           && MergersResolve(tables.terminals[which], tables.mergers[which], system)) ==>
            (r.Ok? <==> HasMerger(tables.mergers[which], system, name) || HasDirect(tables.terminals[which], system, name)))
      && (r.Err? && r.error.MissingTerminal? ==> r.error == MissingTerminal(which, name, system))
  {
  }

  /** `TERMINALS[which][name][system]` without mergers (NASAL, the tone rules,
      and the dieghv tables the rime renderer reads). */
  function DirectSpelling(tables: Tables, which: string, system: string, name: string): (r: Result<string>)
    ensures r.Ok? <==> which in tables.terminals && HasDirect(tables.terminals[which], system, name)
    ensures r.Ok? ==> r.value == tables.terminals[which][name][system]
  {
    if which !in tables.terminals then Err(MissingCategory(which))
    else if !HasDirect(tables.terminals[which], system, name) then Err(MissingTerminal(which, name, system))
    else Ok(tables.terminals[which][name][system])
  }

  /** A merged name renders exactly as its target does, as long as the target
      is not itself merged (merger fallback). */
  lemma MergerFallback(tables: Tables, which: string, system: string, name: string)
    requires which in tables.terminals && which in tables.mergers
    requires HasMerger(tables.mergers[which], system, name)
    requires !HasMerger(tables.mergers[which], system, tables.mergers[which][name][system])
    ensures LookupTerminal(tables, which, system, name)
         == LookupTerminal(tables, which, system, tables.mergers[which][name][system])
  {
    var target := tables.mergers[which][name][system];
    var terms, merg := tables.terminals[which], tables.mergers[which];
    if MergersResolve(terms, merg, system) {
      assert Resolves(terms, merg, system, name);
      var d := PartialTable(terms, merg, system, merg.Keys);
      assert name in d && d[name] == terms[target][system];
      assert target in d && d[target] == terms[target][system];
    }
  }

  /** An illustration of the one-hop rule that `LookupResult` states for
      all tables: with `A` merged to `B` and `B` merged to `C`, `A` takes
      the direct spelling of `B`, not the spelling `B` renders as. */
  lemma MergersDoNotChain()
    ensures var tables := Tables(
              map["initial" := map["A" := map["s" := "a"], "B" := map["s" := "b"], "C" := map["s" := "c"]]],
              map["initial" := map["A" := map["s" := "B"], "B" := map["s" := "C"]]]);
      LookupTerminal(tables, "initial", "s", "A") == Ok("b")
      && LookupTerminal(tables, "initial", "s", "B") == Ok("c")
  {
    var terms := map["A" := map["s" := "a"], "B" := map["s" := "b"], "C" := map["s" := "c"]];
    var merg := map["A" := map["s" := "B"], "B" := map["s" := "C"]];
    assert MergersResolve(terms, merg, "s") by {
      forall n | HasMerger(merg, "s", n) ensures Resolves(terms, merg, "s", n) {
        assert n == "A" || n == "B";
      }
    }
    var d := PartialTable(terms, merg, "s", merg.Keys);
    assert d["A"] == "b";
    assert d["B"] == "c";
  }
}
