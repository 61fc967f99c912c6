/** The grammar text `load_parser_data` assembles for each input scheme of
    src/parsetc/parsetc.py: the shared rules, the scheme's extension rules,
    and one terminal definition per symbol the scheme spells.  The JSON
    objects are ordered, as Python dictionaries are, so they are sequences
    of pairs here; the Lark grammar compiler that reads the text is not part
    of this model. */
module Grammar {
  import opened Common

  /** one symbol's spellings, by scheme */
  type Spellings = map<string, string>

  /** the terms of one group of the terminals file, in file order */
  type Group = seq<(string, Spellings)>

  /** the groups of the terminals file, in file order */
  type TerminalData = seq<(string, Group)>

  /** `f'{term} : "{spelling}"'` */
  function TermLine(term: string, spelling: string): (r: string)
    ensures |r| == |term| + |spelling| + 5
    ensures r[..|term|] == term && r[|term|..|term| + 4] == " : \""
    ensures r[|term| + 4..|r| - 1] == spelling && r[|r| - 1] == '"'
  {
    term + " : \"" + spelling + "\""
  }

  /** the definition a term contributes, if the scheme spells it */
  function EntryLines(entry: (string, Spellings), scheme: string): seq<string> {
    if scheme in entry.1 then [TermLine(entry.0, entry.1[scheme])] else []
  }

  /** the definitions contributed by one group, in order */
  function GroupLines(group: Group, scheme: string): seq<string> {
    if group == [] then []
    else GroupLines(group[..|group| - 1], scheme) + EntryLines(group[|group| - 1], scheme)
  }

  /** the definitions contributed by all groups, in order */
  function TermLines(groups: TerminalData, scheme: string): seq<string> {
    if groups == [] then []
    else TermLines(groups[..|groups| - 1], scheme) + GroupLines(groups[|groups| - 1].1, scheme)
  }

  /** `lark_rules` before the loops: the shared rules and the extensions */
  function RuleHead(shared: string, extensions: map<string, seq<string>>, scheme: string): seq<string> {
    if scheme in extensions then [shared] + extensions[scheme] else [shared]
  }

  /** `lark_rules` once the loops are done */
  function GrammarRules(shared: string, extensions: map<string, seq<string>>, groups: TerminalData, scheme: string): seq<string> {
    RuleHead(shared, extensions, scheme) + TermLines(groups, scheme)
  }

  lemma GroupLinesPrefix(group: Group, k: nat, scheme: string)
    requires k < |group|
    ensures GroupLines(group[..k + 1], scheme) == GroupLines(group[..k], scheme) + EntryLines(group[k], scheme)
  {
    assert group[..k + 1][..k] == group[..k];
  }

  /** The inner loop over one group's terms: the definition of every term
      the scheme spells, appended in order. */
  method AppendGroup(rules: seq<string>, group: Group, scheme: string) returns (out: seq<string>)
    ensures out == rules + GroupLines(group, scheme)
  {
    out := rules;
    for k := 0 to |group|
      invariant out == rules + GroupLines(group[..k], scheme)
    {
      if scheme in group[k].1 {
        out := out + [TermLine(group[k].0, group[k].1[scheme])];
      }
      GroupLinesPrefix(group, k, scheme);
    }
    assert group[..|group|] == group;
  }

  lemma TermLinesPrefix(groups: TerminalData, g: nat, scheme: string)
    requires g < |groups|
    ensures TermLines(groups[..g + 1], scheme) == TermLines(groups[..g], scheme) + GroupLines(groups[g].1, scheme)
  {
    assert groups[..g + 1][..g] == groups[..g];
  }

  /** The rule list of one scheme, built by appending as the source does:
      the shared rules and extensions first, then for each group and each
      term the definition of every term the scheme spells. */
  method BuildRules(shared: string, extensions: map<string, seq<string>>, groups: TerminalData, scheme: string)
    returns (rules: seq<string>)
    ensures rules == GrammarRules(shared, extensions, groups, scheme)
  {
    rules := RuleHead(shared, extensions, scheme);
    for g := 0 to |groups|
      invariant rules == RuleHead(shared, extensions, scheme) + TermLines(groups[..g], scheme)
    {
      rules := AppendGroup(rules, groups[g].1, scheme);
      TermLinesPrefix(groups, g, scheme);
    }
    assert groups[..|groups|] == groups;
  }

  /** `load_parser_data`'s loop over the schemes: the grammar text of each,
      its rules separated by newlines. */
  method LoadGrammars(shared: string, extensions: map<string, seq<string>>, groups: TerminalData, systems: seq<string>)
    returns (larkDict: map<string, string>)
    ensures larkDict.Keys == set s | s in systems
    ensures forall s :: s in larkDict ==> larkDict[s] == Join("\n", GrammarRules(shared, extensions, groups, s))
  {
    larkDict := map[];
    for i := 0 to |systems|
      invariant larkDict.Keys == set s | s in systems[..i]
      invariant forall s :: s in larkDict ==> larkDict[s] == Join("\n", GrammarRules(shared, extensions, groups, s))
    {
      var rules := BuildRules(shared, extensions, groups, systems[i]);
      larkDict := larkDict[systems[i] := Join("\n", rules)];
      assert systems[..i + 1] == systems[..i] + [systems[i]];
    }
    assert systems[..|systems|] == systems;
  }

  /** The shared rules come first and the scheme's extensions right after. */
  lemma RulesStartWithSharedAndExtends(shared: string, extensions: map<string, seq<string>>, groups: TerminalData, scheme: string)
    ensures var rules := GrammarRules(shared, extensions, groups, scheme);
      |rules| >= 1 && rules[0] == shared
      && (scheme in extensions ==> |rules| >= 1 + |extensions[scheme]| && rules[1..1 + |extensions[scheme]|] == extensions[scheme])
      && (scheme !in extensions ==> rules[1..] == TermLines(groups, scheme))
  {
  }

  lemma {:induction false} GroupLinesComplete(group: Group, scheme: string, k: nat)
    requires k < |group| && scheme in group[k].1
    ensures TermLine(group[k].0, group[k].1[scheme]) in GroupLines(group, scheme)
  {
    var last := |group| - 1;
    assert GroupLines(group, scheme) == GroupLines(group[..last], scheme) + EntryLines(group[last], scheme);
    if k < last {
      assert group[k] == group[..last][k];
      GroupLinesComplete(group[..last], scheme, k);
    }
  }

  lemma {:induction false} GroupLinesSound(group: Group, scheme: string, line: string) returns (k: nat)
    requires line in GroupLines(group, scheme)
    ensures k < |group| && scheme in group[k].1 && line == TermLine(group[k].0, group[k].1[scheme])
  {
    var last := |group| - 1;
    assert GroupLines(group, scheme) == GroupLines(group[..last], scheme) + EntryLines(group[last], scheme);
    if line in EntryLines(group[last], scheme) {
      k := last;
    } else {
      k := GroupLinesSound(group[..last], scheme, line);
      assert group[..last][k] == group[k];
    }
  }

  lemma GroupLinesExact(group: Group, scheme: string)
    ensures forall k :: 0 <= k < |group| && scheme in group[k].1 ==>
      TermLine(group[k].0, group[k].1[scheme]) in GroupLines(group, scheme)
    ensures forall line :: line in GroupLines(group, scheme) ==>
      exists k :: 0 <= k < |group| && scheme in group[k].1 && line == TermLine(group[k].0, group[k].1[scheme])
  {
    forall k | 0 <= k < |group| && scheme in group[k].1
      ensures TermLine(group[k].0, group[k].1[scheme]) in GroupLines(group, scheme)
    {
      GroupLinesComplete(group, scheme, k);
    }
    forall line | line in GroupLines(group, scheme)
      ensures exists k :: 0 <= k < |group| && scheme in group[k].1 && line == TermLine(group[k].0, group[k].1[scheme])
    {
      var k := GroupLinesSound(group, scheme, line);
    }
  }

  lemma {:induction false} TermLinesComplete(groups: TerminalData, scheme: string, g: nat, k: nat)
    requires g < |groups| && k < |groups[g].1| && scheme in groups[g].1[k].1
    ensures TermLine(groups[g].1[k].0, groups[g].1[k].1[scheme]) in TermLines(groups, scheme)
  {
    var last := |groups| - 1;
    assert TermLines(groups, scheme) == TermLines(groups[..last], scheme) + GroupLines(groups[last].1, scheme);
    if g < last {
      assert groups[g] == groups[..last][g];
      TermLinesComplete(groups[..last], scheme, g, k);
    } else {
      GroupLinesComplete(groups[g].1, scheme, k);
    }
  }

  lemma {:induction false} TermLinesSound(groups: TerminalData, scheme: string, line: string) returns (g: nat, k: nat)
    requires line in TermLines(groups, scheme)
    ensures g < |groups| && k < |groups[g].1| && scheme in groups[g].1[k].1
    ensures line == TermLine(groups[g].1[k].0, groups[g].1[k].1[scheme])
  {
    var last := |groups| - 1;
    assert TermLines(groups, scheme) == TermLines(groups[..last], scheme) + GroupLines(groups[last].1, scheme);
    if line in GroupLines(groups[last].1, scheme) {
      g := last;
      k := GroupLinesSound(groups[last].1, scheme, line);
    } else {
      g, k := TermLinesSound(groups[..last], scheme, line);
      assert groups[..last][g] == groups[g];
    }
  }

  /** Exactly the terms the scheme spells have a definition: each of them
      contributes its line, and every line comes from one of them. */
  lemma TermLinesExact(groups: TerminalData, scheme: string)
    ensures forall g, k :: 0 <= g < |groups| && 0 <= k < |groups[g].1| && scheme in groups[g].1[k].1 ==>
      TermLine(groups[g].1[k].0, groups[g].1[k].1[scheme]) in TermLines(groups, scheme)
    ensures forall line :: line in TermLines(groups, scheme) ==>
      exists g, k :: 0 <= g < |groups| && 0 <= k < |groups[g].1| && scheme in groups[g].1[k].1
        && line == TermLine(groups[g].1[k].0, groups[g].1[k].1[scheme])
  {
    forall g, k | 0 <= g < |groups| && 0 <= k < |groups[g].1| && scheme in groups[g].1[k].1
      ensures TermLine(groups[g].1[k].0, groups[g].1[k].1[scheme]) in TermLines(groups, scheme)
    {
      TermLinesComplete(groups, scheme, g, k);
    }
    forall line | line in TermLines(groups, scheme)
      ensures exists g, k :: (0 <= g < |groups| && 0 <= k < |groups[g].1| && scheme in groups[g].1[k].1
                              && line == TermLine(groups[g].1[k].0, groups[g].1[k].1[scheme]))
    {
      var g, k := TermLinesSound(groups, scheme, line);
    }
  }
}
