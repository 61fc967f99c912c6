# parsetc rendering core, modelled in Dafny

parsetc transliterates Teochew and Cantonese text from one romanization
scheme into another. A parser turns the input into a syllable tree shared by
all schemes of a language. A renderer for the output scheme then turns the
tree back into text. This project models the parts around the parser and
proves properties of them:

- **Symbol lookup with mergers** (`Symbols`). A renderer spells a symbolic
  name (`INIT_K`, `MED_A`, `COD_NG`, ...) by reading one scheme's column of
  the terminal table. The merger table then redirects some names to the
  direct spelling of another name. That redirect is one hop and overrides
  any direct entry. The loop that builds the lookup dictionary is a method
  proved against a specification function.
- **The parse tree** (`Tree`): sentence, word, syllable (initial?, final,
  tone?), final (medial?, nasal?, coda?) and tone (citation, changed?).
- **The current Teochew renderers** (`Teochew`, `TeochewTables`,
  `TeochewProperties`):
  - Gengdang Pêng'im, Gaginang Peng'im and Dieghv, which write numeric
    tones as `c` or `c(s)`;
  - Duffus and Tie-lo, which write a combining tone mark after the first
    vowel or, failing that, after the first `n`/`m`;
  - Sinwenz, with its `i`→`j` and `u`→`w` rewrite;
  - the rime-dictionary scheme (`15`), with its rime classes and corner
    brackets;
  - the Nosefirst test scheme, which puts the nasal marker first.
- **The legacy Teochew renderers** of `translit.py` (`Legacy`,
  `LegacyTables`, `LegacyProperties`). These keep their spellings in the
  code, and where they differ from the current ones is proved.
- **The Cantonese renderers** (`Cantonese`, `CantoneseProperties`):
  - Jyutping and Cantonese Pinyin;
  - Yale, which spells tones with a diacritic plus an `h`, and cannot
    spell toneless input.
- **Processing around the parser** in `src/parsetc/parsetc.py`:
  - `Grammar`: building each scheme's grammar text, with its loops as
    methods;
  - `Preprocess`: reading tone diacritics back as tone numbers, the
    `preprocess` split and conversion loop, and the superscript
    tone-digit loop.
- **Reading back** (`RoundTrip`): a syllable marked by the Duffus or Tie-lo
  renderer and read by the diacritic reader gives back the syllable and its
  tone. The exceptions are tones 1, 4 and 0, which read as 1, and Tie-lo
  tone 8, which reads as 5.

Every Python exception on a path the code can take is a `Result` error
here: a missing key, a missing mark, a syllable with nothing to carry the
mark, and Yale's toneless syllable. Where a precondition appears, it is one
the source itself demands of its callers.

## Model

| member | source | states |
|---|---|---|
| Common.Get | src/parsetc/Teochew/translit.py:279 | indexing a dictionary succeeds exactly when the key is present and gives its value; otherwise it is the given KeyError |
| Common.StrOrNone | src/parsetc/Teochew/translit.py:15-32 | an absent part contributes the empty string and a present part its text |
| Common.Concat | src/parsetc/Teochew/translit.py:111-115 | `"".join` of no parts is empty |
| Common.Join | src/parsetc/Teochew/translit.py:283-293 | `sep.join` of a single part is that part |
| Common.Without | src/parsetc/Teochew/translit.py:283-293 | the filter `i != "-"` leaves no element equal to the dropped one and keeps every other element as often as it occurs |
| Common.WithoutAppend | src/parsetc/Teochew/translit.py:283-293 | the filter keeps the order: filtering a concatenation filters each half, and one element is kept exactly when it is not the dropped one |
| Common.ConcatAppend | src/parsetc/Teochew/translit.py:53-60 | joining two lists of pieces is the concatenation of their joins |
| Common.WithoutAbsent | src/parsetc/Teochew/translit.py:283-293 | filtering a list that lacks the dropped element returns it unchanged |
| Common.JoinUnfolds | src/parsetc/Teochew/translit.py:283-293 | a separator-join is the first part, then each later part preceded by exactly one separator |
| Text.FirstWhere | src/parsetc/Teochew/translit.py:271-278 | the leftmost index whose character is in the class; no character before it is; None exactly when no character is |
| Text.LowerChar | src/parsetc/parsetc.py:152 | an ASCII capital becomes its own small letter (code point plus 32), and every other character is unchanged |
| Text.Lower | src/parsetc/parsetc.py:152 | lower-casing keeps the length and lower-cases each character in place |
| Text.LowerIdempotent | src/parsetc/parsetc.py:152-156 | lower-casing twice is lower-casing once; it never changes whether a character is a separator |
| Symbols.DirectTable | src/parsetc/Teochew/translit.py:134-138 | a name is in the direct table exactly when the category has a spelling for the scheme, and maps to that spelling |
| Symbols.PartialTableEmpty | src/parsetc/Teochew/translit.py:134-138 | before the merger loop, the dictionary is the direct table |
| Symbols.PartialTableStep | src/parsetc/Teochew/translit.py:139-143 | one merger iteration overwrites only the visited name, with its target's direct spelling, and only when that name is merged for the scheme |
| Symbols.BuildTable | src/parsetc/Teochew/translit.py:134-143 | the comprehension and merger loop give the merged table, or the KeyError of a merger whose target has no direct spelling |
| Symbols.LookupTerminal | src/parsetc/Teochew/translit.py:117-144 | a category missing from either table fails with that category's KeyError |
| Symbols.LookupResult | src/parsetc/Teochew/translit.py:117-144 | a merger entry wins over a direct entry and takes its target's direct spelling; otherwise the direct spelling is used; with resolvable mergers the lookup succeeds exactly when one of the two entries exists, and otherwise fails with the name's KeyError |
| Symbols.DirectSpelling | src/parsetc/Teochew/translit.py:77-103 | the NASAL and tone callbacks succeed exactly when the table has the name for the scheme, and give that entry |
| Symbols.MergerFallback | src/parsetc/Teochew/translit.py:139-143 | a merged name renders exactly as its target, when the target is not itself merged |
| Symbols.MergersDoNotChain | src/parsetc/Teochew/translit.py:139-143 | an illustration of the one-hop rule of `LookupResult`: with A merged to B and B to C, A gets B's direct spelling, not C's |
| Teochew.SchemeNamed | src/parsetc/Teochew/translit.py:794-803 | exactly the seven listed identifiers name an output scheme; Nosefirst is not reachable |
| Teochew.RimeOrSelf | src/parsetc/Teochew/translit.py:670-674 | a final that is a rime-table key becomes its rime class, and any other final stays itself |
| Teochew.ToneChildren | src/parsetc/Teochew/translit.py:71-103 | a tone node has one rendered child, or two when a changed tone is present, each being its tone rule's callback |
| Teochew.AnchorEnd | src/parsetc/Teochew/translit.py:271-278 | the insertion point lies inside the syllable, after at least one character |
| Teochew.AnchorPlacement | src/parsetc/Teochew/translit.py:271-278 | the mark goes right after the first vowel; with no vowel, right after the first `n` or `m`; there is no position exactly when there is neither |
| Teochew.InsertToneMark | src/parsetc/Teochew/translit.py:271-280 | succeeds exactly when there is an anchor; the text before and after the anchor is kept and the mark sits between them, so the length grows by the mark's length; otherwise it is the failed `re.search` |
| Teochew.GlideRewrite | src/parsetc/Teochew/translit.py:466-473 | a leading `i` becomes `j` and a leading `u` becomes `w`, only in syllables longer than one character; nothing after index 0 changes and the length is kept; an empty syllable fails on `pre[0]` |
| Teochew.GlideRewriteInPlace | src/parsetc/Teochew/translit.py:468-472 | the in-place list edit leaves the array holding the rewritten syllable, or leaves an empty list untouched and reports failure |
| Teochew.RimeSyllable | src/parsetc/Teochew/translit.py:720-732 | a rime-dictionary syllable is bracketed in `【…】`, with `英` for the null initial |
| Teochew.PartsText | src/parsetc/Teochew/translit.py:111-115 | a word's children render one-to-one and in order, and the word fails exactly when some child fails |
| TeochewProperties.NumericToneRoundTrip | src/parsetc/Teochew/translit.py:165-181 | `c` and `c(s)` can be read back to the citation and the changed tone when the citation spelling has no `(` |
| TeochewProperties.NumericToneShape | src/parsetc/Teochew/translit.py:165-199 | Gdpi, Ggnn, Dieghv and Nosefirst write the citation tone alone, or followed by the changed tone in parentheses |
| TeochewProperties.ChangedToneDropped | src/parsetc/Teochew/translit.py:238-244 | Duffus, Tie-lo, Sinwenz and the rime scheme render a syllable with a changed tone as if it had only the citation tone |
| TeochewProperties.SameToneTextSameSyllable | src/parsetc/Teochew/translit.py:246-281 | a syllable depends on its tone only through the rendered tone text |
| TeochewProperties.ToneMarkRemovable | src/parsetc/Teochew/translit.py:279 | removing the mark's characters at the anchor gives back the toneless syllable |
| TeochewProperties.MarkTables | src/parsetc/Teochew/translit.py:258-268 | tones 1, 4 and 0 carry the empty mark in Duffus and Tie-lo; Tie-lo spells tones 5 and 8 alike and Duffus does not; both tables are keyed by the digits 0 to 8 |
| TeochewProperties.DiacriticSyllable | src/parsetc/Teochew/translit.py:246-281 | a Duffus or Tie-lo syllable is the toneless syllable with the tone's mark at the anchor, composed; a syllable without an anchor fails first (the failed `re.search`), and only then a tone without a mark |
| TeochewProperties.UnmarkedTonesLeaveSyllable | src/parsetc/Teochew/translit.py:258-280 | in tones 1, 4 and 0 a Duffus or Tie-lo syllable is the composed toneless syllable |
| TeochewProperties.GlideRewriteIdempotent | src/parsetc/Teochew/translit.py:466-482 | the Sinwenz rewrite applied twice is the rewrite applied once |
| TeochewProperties.HyphensDropSeparators | src/parsetc/Teochew/translit.py:283-293 | once separators render as `-`, dropping the hyphens leaves exactly the rendered syllables in order |
| TeochewProperties.HyphenatedWordIsJoin | src/parsetc/Teochew/translit.py:283-293 | a Duffus, Tie-lo or Sinwenz word is its syllables joined by exactly one hyphen, whatever separators the input had |
| TeochewProperties.SeparatorsIrrelevant | src/parsetc/Teochew/translit.py:231-236 | two words with the same syllables and different separators render alike in the hyphenating schemes |
| TeochewProperties.RimeSyllableBracketed | src/parsetc/Teochew/translit.py:720-732 | every rime-dictionary syllable starts with `【` and ends with `】` |
| TeochewProperties.RimeGangLaterWins | src/parsetc/Teochew/translit.py:584-623 | `ang` and `ak`, listed twice, keep the later class 江, not 干 |
| TeochewProperties.RimeGiaLaterWins | src/parsetc/Teochew/translit.py:582-655 | `ia` and `iah` keep the later class 京, not 佳 |
| TeochewProperties.RimeGiangLaterWins | src/parsetc/Teochew/translit.py:575-662 | `iang` and `iak` keep the later class 姜, not 堅 |
| TeochewProperties.RimeDuplicatesLaterWin | src/parsetc/Teochew/translit.py:571-669 | every key listed twice in the rime table resolves to its later entry |
| TeochewProperties.RimeWordConcat | src/parsetc/Teochew/translit.py:734-742 | a rime-dictionary word is its rendered children side by side with the `-` separators dropped; every other separator stays as written, in place |
| TeochewProperties.RimeDropsHyphens | src/parsetc/Teochew/translit.py:734-742 | dropping `-` from a rime-dictionary word's rendered children removes exactly its `-` separators, since no syllable renders as a bare hyphen |
| TeochewProperties.DropHyphenSeps | src/parsetc/Teochew/translit.py:734-742 | the word's children without its `-` separators: no `-` separator is left, and every other child is kept |
| TeochewProperties.RimeHyphenatedWord | src/parsetc/Teochew/translit.py:734-742 | with `-` as its only separator, a rime-dictionary word is its bracketed syllables side by side |
| TeochewProperties.SyllablesWithoutHyphens | src/parsetc/Teochew/translit.py:734-742 | dropping the `-` separators keeps a word's syllables |
| TeochewProperties.NosefirstPartsAreDieghv | src/parsetc/Teochew/translit.py:752-773 | Nosefirst spells medials and codas as Dieghv does |
| TeochewProperties.NosefirstFinalWithoutNasal | src/parsetc/Teochew/translit.py:782-790 | a final without a nasal renders in Nosefirst as in Dieghv |
| TeochewProperties.FinalTextOf | src/parsetc/Teochew/translit.py:65-69 | a final renders exactly when its three parts do; it is medial, nasal and coda in that order, except that Nosefirst puts the nasal first |
| TeochewProperties.NosefirstNasalRenders | src/parsetc/Teochew/translit.py:782-790 | a Nosefirst final with the nasal renders exactly when the same final without it does |
| TeochewProperties.NosefirstNasalLeads | src/parsetc/Teochew/translit.py:782-790 | in a Nosefirst final `N` comes first, followed by the rest of the final in its usual order |
| TeochewProperties.NosefirstInitialAndTone | src/parsetc/Teochew/translit.py:752-753 | Nosefirst reads the Dieghv column for initials and tones |
| TeochewProperties.NosefirstSyllable | src/parsetc/Teochew/translit.py:745-790 | a syllable without a nasal renders in Nosefirst as in Dieghv |
| TeochewProperties.NosefirstParts | src/parsetc/Teochew/translit.py:745-790 | a word without nasalised finals renders in Nosefirst as in Dieghv |
| TeochewProperties.NosefirstAgreesWithoutNasal | src/parsetc/Teochew/translit.py:745-790 | a sentence without nasalised finals renders alike in Nosefirst and Dieghv |
| Legacy.NasalMarker | translit.py:9-10 | the NASAL callback of each legacy scheme is a constant: `n` (Gdpi, 9-10), `ñ` (Ggnn, 108-109), `nn` (Tie-lo, 206-207) and `ⁿ` (Duffus, 331-332) |
| Legacy.ToneText | translit.py:84-90 | Gdpi and Ggnn write `c` or `c(s)`; Tie-lo and Duffus (284-286, 409-411) keep only the citation tone |
| Legacy.AnchorEnd | translit.py:303-312 | the legacy mark goes after the first vowel, or after the first character when there is no vowel; an empty syllable has no position |
| Legacy.MarkSyllable | translit.py:288-313 | succeeds exactly on a non-empty syllable with a known tone, placing the mark at the legacy anchor and keeping the text on both sides; an empty syllable fails on `syllab[0]` before the mark is looked up |
| Legacy.PartsText | translit.py:318-322 | a legacy word's children render one-to-one and in order, and the word fails exactly when some child fails |
| LegacyProperties.GdpiMergesTAndN | translit.py:64-79 | legacy Gdpi writes `COD_T` as `g` and `COD_N` as `ng`, like `COD_K` and `COD_NG`; the other legacy schemes keep `t` and `n` |
| LegacyProperties.LegacyChangedToneDropped | translit.py:284-286 | legacy Tie-lo and Duffus render a syllable with a changed tone as if it had only the citation tone |
| LegacyProperties.LegacyUnmarkedTones | translit.py:291-301 | tones 1, 4 and 0 leave a non-empty legacy syllable unchanged |
| LegacyProperties.LegacyMarksAgree | translit.py:291-301 | the legacy Tie-lo and Duffus mark tables equal the current ones |
| LegacyProperties.AnchorsAgreeOnVowels | translit.py:303-309 | in a syllable with a vowel, the legacy and current renderers mark the same position |
| LegacyProperties.AnchorsDifferWithoutVowel | translit.py:310-312 | without a vowel they differ: `hng` is marked after `h` by the legacy renderers and after `n` by the current ones |
| LegacyProperties.LegacyHyphensDropSeparators | translit.py:318-322 | dropping the hyphens from a legacy Tie-lo or Duffus word's children leaves exactly its syllables |
| LegacyProperties.LegacyHyphenatedWordIsJoin | translit.py:318-322 | a legacy Tie-lo or Duffus word is its syllables joined by exactly one hyphen |
| LegacyProperties.NumericWordKeepsSeparators | translit.py:98-99 | a legacy Gdpi or Ggnn word keeps each separator verbatim and is its children side by side |
| Cantonese.SchemeNamed | src/parsetc/Cantonese/translit.py:311-315 | exactly `jp`, `cpy` and `yale` name a Cantonese output scheme |
| Cantonese.ToneLeaf | src/parsetc/Cantonese/translit.py:84-112 | a tone rule returns the pair of its name and its table spelling, and succeeds whenever that spelling exists |
| Cantonese.ToneText | src/parsetc/Cantonese/translit.py:75-81 | Jyutping and Cantonese Pinyin take the spelling half of the tone pair |
| Cantonese.YaleLookup | src/parsetc/Cantonese/translit.py:198-230 | the Yale lookup is the shared merger lookup, tagged with its category |
| Cantonese.YaleInitial | src/parsetc/Cantonese/translit.py:303-306 | the initial contributes its merged-lookup spelling, or nothing for a null initial |
| Cantonese.YaleParts | src/parsetc/Cantonese/translit.py:244-248 | a Yale final is keyed by category: medial exactly when present, nasal coda exactly when present, and stop coda exactly when the final is entering |
| Cantonese.YaleFinalText | src/parsetc/Cantonese/translit.py:286-302 | with a medial: medial, mark, `h` in tones 4 to 6 (tone 9 when entering), then the coda; a nasal-only final is its coda then its mark; a missing part or mark is the KeyError |
| Cantonese.YaleSyllableText | src/parsetc/Cantonese/translit.py:258-307 | a toned Yale syllable renders exactly when its initial, final, tone and final text do, and is the composed initial spelling followed by the final text with the tone; a toneless syllable (187-196) has no Yale spelling |
| Cantonese.PartsText | src/parsetc/Cantonese/translit.py:120-124 | an empty word renders as the empty string |
| Cantonese.SentenceText | src/parsetc/Cantonese/translit.py:57-64 | an empty sentence renders as the empty string |
| CantoneseProperties.YaleMarkSharing | src/parsetc/Cantonese/translit.py:271-282 | tones 1b and 4 share the grave, 2 and 5 the acute, 1a and 7 the macron; 3, 6, 8 and 9 are unmarked; the table covers exactly the ten tone rules |
| CantoneseProperties.ToneSpellingDecodes | src/parsetc/Cantonese/translit.py:287-302 | the tone's share of a Yale final (mark plus `h`) determines the tone, given whether the final is entering |
| CantoneseProperties.YaleFinalForm | src/parsetc/Cantonese/translit.py:287-302 | a Yale final with a medial is the medial, then the tone's share, then the coda |
| CantoneseProperties.YaleTonesDistinct | src/parsetc/Cantonese/translit.py:258-302 | different tones of the same Yale final with a medial are spelled differently before composition |
| CantoneseProperties.YaleHPlacement | src/parsetc/Cantonese/translit.py:287-302 | the `h` stands right after the medial and mark, before the coda, exactly in the low register (tone 9 when entering) |
| CantoneseProperties.YaleRejectsTonelessWord | src/parsetc/Cantonese/translit.py:187-196 | a word with a toneless syllable anywhere has no Yale spelling |
| CantoneseProperties.YaleRejectsToneless | src/parsetc/Cantonese/translit.py:187-196 | a sentence with a toneless syllable anywhere has no Yale spelling |
| CantoneseProperties.DefaultSyllable | src/parsetc/Cantonese/translit.py:114-118 | in Jyutping and Cantonese Pinyin a syllable is its initial, final and tone spelling side by side |
| Grammar.TermLine | src/parsetc/parsetc.py:57 | a terminal definition is the term, ` : "`, the spelling and a closing quote |
| Grammar.AppendGroup | src/parsetc/parsetc.py:55-57 | the inner loop appends one definition per term of the group that the scheme spells, in order |
| Grammar.BuildRules | src/parsetc/parsetc.py:53-57 | the rule list is the shared rules, the scheme's extensions, then the definitions group by group |
| Grammar.LoadGrammars | src/parsetc/parsetc.py:52-58 | every requested scheme gets a grammar text, its rules joined by newlines, and no other key is added |
| Grammar.RulesStartWithSharedAndExtends | src/parsetc/parsetc.py:53 | the shared rules come first and the scheme's extensions, when present, right after |
| Grammar.GroupLinesComplete | src/parsetc/parsetc.py:55-57 | every term of a group that the scheme spells contributes its definition |
| Grammar.GroupLinesSound | src/parsetc/parsetc.py:55-57 | every definition of a group comes from a term the scheme spells |
| Grammar.GroupLinesExact | src/parsetc/parsetc.py:55-57 | a group's definitions are exactly those of the terms the scheme spells |
| Grammar.TermLinesComplete | src/parsetc/parsetc.py:54-57 | every (group, term) the scheme spells contributes its definition |
| Grammar.TermLinesSound | src/parsetc/parsetc.py:54-57 | every definition comes from a (group, term) the scheme spells |
| Grammar.TermLinesExact | src/parsetc/parsetc.py:54-57 | the definitions are exactly those of the (group, term) pairs the scheme spells; terms lacking the scheme contribute none |
| Preprocess.ToneMarkValues | src/parsetc/parsetc.py:96-114 | every mark reads as tone 2, 3, 5, 6, 7 or 8 (never 4) |
| Preprocess.TonesIn | src/parsetc/parsetc.py:120 | the tones found are values of the mark table, at most one per code point |
| Preprocess.Untoned | src/parsetc/parsetc.py:126 | the base string keeps no tone mark and is no longer than the input |
| Preprocess.ParseDecomposed | src/parsetc/parsetc.py:117-128 | exactly one mark gives its tone; none or several give tone 1; the tone is between 1 and 8 and never 4 or 0; the base is the input with the marks removed |
| Preprocess.Digit | src/parsetc/parsetc.py:158 | `str(tone)` is the decimal digit of the tone |
| Preprocess.WordLengthMaximal | src/parsetc/parsetc.py:155 | a chunk is the longest prefix without a separator |
| Preprocess.RunLengthMaximal | src/parsetc/parsetc.py:155 | a run is the longest prefix of separators |
| Preprocess.SplitRuns | src/parsetc/parsetc.py:155 | the split has at least one piece |
| Preprocess.SplitRunsOdd | src/parsetc/parsetc.py:155 | the split has an odd number of pieces |
| Preprocess.SplitRunsConcat | src/parsetc/parsetc.py:155 | joining the pieces of the split gives the text back |
| Preprocess.SplitRunsAlternating | src/parsetc/parsetc.py:155 | the split is a chunk without separators followed by pairs of a non-empty run and a chunk |
| Preprocess.SplitRunsAlternate | src/parsetc/parsetc.py:155-156 | even pieces hold no separator and odd pieces are non-empty separator runs |
| Preprocess.SplitRunsMaximal | src/parsetc/parsetc.py:155 | only the first and last chunks can be empty, so runs are maximal |
| Preprocess.ConvertAll | src/parsetc/parsetc.py:155-161 | each element of the split is converted on its own, in order |
| Preprocess.Preprocess | src/parsetc/parsetc.py:132-164 | the loop over the split computes the lower-cased, converted text |
| Preprocess.ChunkGainsDigit | src/parsetc/parsetc.py:156-159 | a syllable chunk becomes its base letters followed by exactly one tone digit from 1 to 8 |
| Preprocess.PreprocessPieces | src/parsetc/parsetc.py:153-162 | separator runs come through unchanged, and every non-empty chunk gains exactly one tone digit after its base letters |
| Preprocess.PreprocessPlain | src/parsetc/parsetc.py:163-164 | for the other schemes `preprocess` only lower-cases, and its result is already lower-case |
| Preprocess.SuperChar | src/parsetc/parsetc.py:227-237 | exactly the digits 0 to 8 change, each to its entry of the substitution table |
| Preprocess.Superscript | src/parsetc/parsetc.py:226-240 | superscripting keeps the length and maps each character on its own |
| Preprocess.ReplaceChar | src/parsetc/parsetc.py:239 | `str.replace` of one character swaps exactly its occurrences |
| Preprocess.SuperscriptTones | src/parsetc/parsetc.py:238-239 | replacing one digit at a time in table order gives the simultaneous substitution |
| Preprocess.SuperscriptIdempotent | src/parsetc/parsetc.py:226-240 | superscripting twice is superscripting once; `9` and non-digits are untouched; no digit 0 to 8 survives |
| RoundTrip.SingleMark | src/parsetc/parsetc.py:120-126 | a lone mark reads as its tone and leaves nothing of the base string |
| RoundTrip.UnmarkedText | src/parsetc/parsetc.py:120-126 | text without marks has no tones and keeps all its characters |
| RoundTrip.MarkIsRead | src/parsetc/Teochew/translit.py:258-268 | each Duffus or Tie-lo mark is empty exactly for tones 1, 4 and 0, and is otherwise one code point the matching reader maps back to the tone |
| RoundTrip.MarkedTextReads | src/parsetc/parsetc.py:117-128 | one mark between unmarked texts is the tone read, and removing it joins the texts |
| RoundTrip.InsertedMarkReads | src/parsetc/parsetc.py:117-128 | a mark inserted anywhere in unmarked text is the tone read, and the base string is the original text |
| RoundTrip.MarkReadsBack | src/parsetc/Teochew/translit.py:258-281 | a Duffus or Tie-lo syllable read back gives the syllable and its tone, except that tones 1, 4 and 0 read as 1 and Tie-lo 8 reads as 5 |
| RoundTrip.DuffusReadsBack | src/parsetc/Teochew/translit.py:258-281 | every marked Duffus tone reads back as itself |
| RoundTrip.TloFiveAndEightCollide | src/parsetc/Teochew/translit.py:317-327 | Tie-lo tones 5 and 8 give the same marked text |
| RoundTrip.TwoMarksReadAsToneOne | src/parsetc/parsetc.py:119-124 | a syllable with two marks reads as tone 1 with both marks removed |

## Left out

- The Lark parser. This covers grammar compilation (`Lark(...)` at
  src/parsetc/parsetc.py:59), `.parse`, the grammar files and the JSON
  tables. The parse tree is an input datatype, and the symbol tables and
  grammar parts are parameters.
- The Transformer's visitor dispatch and Token `.type`. Each rule callback
  is a function matching on the scheme, and children are rendered left to
  right, so the first failing child decides the error.
- Unicode normalisation. NFC (the diacritic renderers) and NFD (the
  diacritic reader) are function parameters, and nothing is assumed about
  them. The round trips are stated on the marked text before composition:
  composing and then decomposing is taken to give the same code points
  back.
- Text.Lower: lower-cases ASCII letters only, whereas Python's `str.lower`
  covers all of Unicode.
- Teochew.NasalText: `Sinwz.NASAL` (src/parsetc/Teochew/translit.py:355-358)
  depends on Lark Token internals and is an error here.
- Cantonese.YaleParts: a Yale final with a NASAL token is an error here.
  The source would take the token text apart character by character.
- Symbols.BuildTable: a broken merger is reported as a `BrokenMerger`
  error of the category and scheme. The model does not keep the missing
  target's name, which Python's KeyError would carry.
- The rime-dictionary scheme maps only non-entering finals to their rime
  class. The source's `Zapngou` overrides `final` but not
  `final_entering`, and the model follows the code.
- The legacy renderers take the same tree as the current ones, with tone
  digits as tone names. An absent initial contributes nothing, as it does
  in a parse tree without placeholders for absent optional children. A
  tree with a `None` child, on which the legacy `"".join` would raise, is
  not modelled.
- The `nosefirst` entry of the TRANSFORMER_DICT in src/parsetc/parsetc.py
  is not modelled. `Teochew.SchemeNamed` follows the Teochew module's own
  dictionary, where Nosefirst is commented out.
- `transliterate_all`, the command line, argument parsing, stdin and
  stdout, file reading, `print` and the handling of `KeyError` by printing.
  All of parsetc.py at the repository root is left out, for the same
  reason: I/O and thin parser wrappers.
- Teochew.AnchorEnd: its own contract states only the bounds of the
  position. Where the mark goes is stated by `Teochew.AnchorPlacement`.
- Cantonese.PartsText and Cantonese.SentenceText: their own contracts
  state only the empty case. What a Yale word or sentence does with a
  toneless syllable is stated by the `YaleRejectsToneless` lemmas.
