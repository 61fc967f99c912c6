/** What the legacy renderers of translit.py promise, and how they differ
    from the current ones. */
module LegacyProperties {
  import opened Common
  import opened Text
  import opened Tree
  import opened Legacy
  import LegacyTables
  import TeochewTables
  import Teochew

  /** Gengdang Pêng'im has neither a stop `-t` nor a coda `-n`: they are
      written as `-g` and `-ng`, like `COD_K` and `COD_NG`.  The other legacy
      schemes keep `t` and `n`. */
  lemma GdpiMergesTAndN()
    ensures CodaText(Gdpi, StopCoda("COD_T")) == Ok("g") == CodaText(Gdpi, StopCoda("COD_K"))
    ensures CodaText(Gdpi, NasalCoda("COD_N")) == Ok("ng") == CodaText(Gdpi, NasalCoda("COD_NG"))
    ensures forall s :: s != Gdpi ==> CodaText(s, StopCoda("COD_T")) == Ok("t")
    ensures forall s :: s != Gdpi ==> CodaText(s, NasalCoda("COD_N")) == Ok("n")
  {
  }

  /** Tie-lo and Duffus ignore the changed tone. */
  lemma LegacyChangedToneDropped(s: Scheme, syl: Syllable)
    requires Diacritic(s) && syl.tone.Some?
    ensures SyllableText(s, syl) == SyllableText(s, syl.(tone := Some(Tone(syl.tone.value.citation, None))))
  {
  }

  /** Tones 1, 4 and 0 leave a non-empty legacy syllable as it is. */
  lemma LegacyUnmarkedTones(s: Scheme, syllab: string, tn: string)
    requires Diacritic(s) && |syllab| > 0 && tn in ["1", "4", "0"]
    ensures MarkSyllable(s, syllab, tn) == Ok(syllab)
  {
    var p := AnchorEnd(syllab).value;
    assert Marks(s)[tn] == "";
    assert syllab[..p] + "" + syllab[p..] == syllab;
  }

  /** The legacy mark tables are the ones the current Duffus and Tie-lo
      renderers use. */
  lemma LegacyMarksAgree()
    ensures LegacyTables.TloMarks() == TeochewTables.TloMarks()
    ensures LegacyTables.DuffusMarks() == TeochewTables.DuffusMarks()
  {
  }

  /** In a syllable with a vowel the legacy and the current renderers put
      the tone mark in the same place. */
  lemma AnchorsAgreeOnVowels(syllab: string)
    requires exists j :: 0 <= j < |syllab| && IsVowel(syllab[j])
    ensures Legacy.AnchorEnd(syllab) == Teochew.AnchorEnd(syllab)
  {
    Teochew.AnchorPlacement(syllab);
  }

  /** Without a vowel they differ: the legacy renderers mark the first
      character, the current ones the first `n` or `m`, so a syllabic
      `hng` is marked after `h` in the one and after `n` in the other. */
  lemma AnchorsDifferWithoutVowel()
    ensures Legacy.AnchorEnd("hng") == Some(1)
    ensures Teochew.AnchorEnd("hng") == Some(2)
  {
    assert !IsVowel("hng"[0]) && !IsVowel("hng"[1]) && !IsVowel("hng"[2]);
    assert !IsNasalLetter("hng"[0]) && IsNasalLetter("hng"[1]);
  }

  function SyllableTexts(s: Scheme, syls: seq<Syllable>): (r: Result<seq<string>>)
    ensures r.Ok? ==> |r.value| == |syls|
    ensures r.Ok? ==> forall i :: 0 <= i < |syls| ==> SyllableText(s, syls[i]) == Ok(r.value[i])
  {
    if syls == [] then Ok([])
    else
      var first := SyllableText(s, syls[0]);
      var rest := SyllableTexts(s, syls[1..]);
      if first.Err? then Err(first.error)
      else if rest.Err? then Err(rest.error)
      else Ok([first.value] + rest.value)
  }

  predicate NoHyphenSyllable(s: Scheme, parts: seq<WordPart>) {
    forall i :: 0 <= i < |parts| && parts[i].Syl? ==> SyllableText(s, parts[i].syllable) != Ok("-")
  }

  lemma {:induction false} LegacyHyphensDropSeparators(s: Scheme, parts: seq<WordPart>)
    requires Diacritic(s)
    requires PartsText(s, parts).Ok?
    requires NoHyphenSyllable(s, parts)
    ensures SyllableTexts(s, Syllables(parts)).Ok?
    ensures Without(PartsText(s, parts).value, "-") == SyllableTexts(s, Syllables(parts)).value
  {
    if parts != [] {
      assert NoHyphenSyllable(s, parts[1..]) by {
        forall i | 0 <= i < |parts[1..]| && parts[1..][i].Syl?
          ensures SyllableText(s, parts[1..][i].syllable) != Ok("-")
        {
          assert parts[1..][i] == parts[i + 1];
        }
      }
      LegacyHyphensDropSeparators(s, parts[1..]);
      var pieces := PartsText(s, parts).value;
      assert pieces[1..] == PartsText(s, parts[1..]).value;
      match parts[0]
      case Sep(_) =>
      case Syl(syl) =>
        assert pieces[0] != "-";
        assert Syllables(parts) == [syl] + Syllables(parts[1..]);
        assert Syllables(parts)[1..] == Syllables(parts[1..]);
    }
  }

  /** A legacy Tie-lo or Duffus word is its syllables joined by single
      hyphens, whatever separators the input had. */
  lemma LegacyHyphenatedWordIsJoin(s: Scheme, parts: seq<WordPart>)
    requires Diacritic(s)
    requires PartsText(s, parts).Ok?
    requires NoHyphenSyllable(s, parts)
    ensures SyllableTexts(s, Syllables(parts)).Ok?
    ensures WordText(s, parts) == Ok(Join("-", SyllableTexts(s, Syllables(parts)).value))
  {
    LegacyHyphensDropSeparators(s, parts);
  }

  /** A legacy Gengdang or Gaginang word keeps its separators verbatim. */
  lemma NumericWordKeepsSeparators(s: Scheme, parts: seq<WordPart>)
    requires !Diacritic(s)
    requires PartsText(s, parts).Ok?
    ensures forall i :: 0 <= i < |parts| && parts[i].Sep? ==> PartsText(s, parts).value[i] == parts[i].text
    ensures WordText(s, parts) == Ok(Concat(PartsText(s, parts).value))
  {
  }
}
