/** What the Teochew renderers promise, stated over the node renderers of
    module Teochew. */
module TeochewProperties {
  import opened Common
  import opened Text
  import opened Tree
  import opened Symbols
  import opened TeochewTables
  import opened Teochew

  // ---------------------------------------------------------------- tones

  /** Reads a numeric tone back: the text before the first `(` is the
      citation tone and, when the text ends in `)`, what lies between is the
      changed tone. */
  function ParseNumericTone(r: string): (p: (string, Option<string>))
    ensures FirstWhere(r, c => c == '(').None? ==> p == (r, None)
  {
    match FirstWhere(r, c => c == '(')
    case Some(i) =>
      if |r| >= i + 2 && r[|r| - 1] == ')' then (r[..i], Some(r[i + 1..|r| - 1]))
      else (r, None)
    case None => (r, None)
  }

  predicate NoParen(s: string) {
    forall j :: 0 <= j < |s| ==> s[j] != '('
  }

  /** `c` and `c(s)` are decodable: as long as the citation spelling holds
      no `(`, the numeric tone text gives back both tones. */
  lemma NumericToneRoundTrip(c: string, changed: Option<string>)
    requires NoParen(c)
    ensures changed.None? ==> ParseNumericTone(NumericTone([c])) == (c, None)
    ensures changed.Some? ==> ParseNumericTone(NumericTone([c, changed.value])) == (c, changed)
  {
    if changed.Some? {
      var x := changed.value;
      var r := c + "(" + x + ")";
      assert NumericTone([c, x]) == r;
      assert r[|c|] == '(';
      assert forall j :: 0 <= j < |c| ==> r[j] == c[j];
      assert FirstWhere(r, ch => ch == '(') == Some(|c|);
      assert r[..|c|] == c;
      assert r[|c| + 1..|r| - 1] == x;
    }
  }

  /** Gdpi, Ggnn, Dieghv and Nosefirst write the citation tone alone, or the
      citation tone followed by the changed tone in parentheses. */
  lemma NumericToneShape(t: Tables, s: Scheme, tone: Tone)
    requires NumericTones(s)
    ensures tone.changed.None? ==> ToneText(t, s, tone) == ToneLeaf(t, s, tone.citation)
    ensures tone.changed.Some? && ToneLeaf(t, s, tone.citation).Ok? && ToneLeaf(t, s, tone.changed.value).Ok? ==>
      ToneText(t, s, tone) == Ok(ToneLeaf(t, s, tone.citation).value + "(" + ToneLeaf(t, s, tone.changed.value).value + ")")
  {
  }

  /** The citation-only schemes (Duffus, Tie-lo, Sinwenz and the rime
      dictionary) render the tone of a syllable with a changed tone exactly
      as if it had none: the changed tone is evaluated and then dropped. */
  lemma ChangedToneDropped(t: Tables, s: Scheme, nfc: string -> string, syl: Syllable)
    requires !NumericTones(s)
    requires syl.tone.Some? && syl.tone.value.changed.Some?
    requires ToneLeaf(t, s, syl.tone.value.changed.value).Ok?
    ensures SyllableText(t, s, nfc, syl)
         == SyllableText(t, s, nfc, syl.(tone := Some(Tone(syl.tone.value.citation, None))))
  {
    var plain := syl.(tone := Some(Tone(syl.tone.value.citation, None)));
    assert ToneText(t, s, syl.tone.value) == ToneText(t, s, plain.tone.value);
    SameToneTextSameSyllable(t, s, nfc, syl.initial, syl.final, syl.tone.value, plain.tone.value);
  }

  /** A syllable's text depends on its tone only through the tone's text. */
  lemma SameToneTextSameSyllable(t: Tables, s: Scheme, nfc: string -> string, i: Option<string>, f: Final, a: Tone, b: Tone)
    requires ToneText(t, s, a) == ToneText(t, s, b)
    ensures SyllableText(t, s, nfc, Syllable(i, f, Some(a))) == SyllableText(t, s, nfc, Syllable(i, f, Some(b)))
  {
    var x, y := Syllable(i, f, Some(a)), Syllable(i, f, Some(b));
    assert InitialPart(t, s, x) == InitialPart(t, s, y);
  }

  // --------------------------------------------------------- tone marks

  /** The tone mark can be taken out again: removing `|mark|` characters at
      the anchor restores the toneless syllable. */
  lemma ToneMarkRemovable(syllab: string, mark: string)
    requires InsertToneMark(syllab, mark).Ok?
    ensures var p := AnchorEnd(syllab).value;
      var r := InsertToneMark(syllab, mark).value;
      r[..p] == syllab[..p] && r[p..p + |mark|] == mark && r[p + |mark|..] == syllab[p..]
  {
  }

  /** Tones 1, 4 and 0 carry the empty mark in both diacritic schemes, and
      Tie-lo spells tones 5 and 8 alike. */
  lemma MarkTables()
    ensures forall s :: DiacriticTones(s) ==> Marks(s)["1"] == "" && Marks(s)["4"] == "" && Marks(s)["0"] == ""
    ensures TloMarks()["5"] == TloMarks()["8"] == "\U{0302}"
    ensures DuffusMarks()["5"] != DuffusMarks()["8"]
    ensures forall s :: DiacriticTones(s) ==> Marks(s).Keys == {"0", "1", "2", "3", "4", "5", "6", "7", "8"}
  {
  }

  /** A Duffus or Tie-lo syllable whose parts render is the toneless
      syllable with the tone's mark inserted at the anchor, composed.  A
      syllable without an anchor fails first, before the tone's mark is
      looked up; a tone without a mark fails next. */
  lemma DiacriticSyllable(t: Tables, s: Scheme, nfc: string -> string, syl: Syllable)
    requires DiacriticTones(s) && syl.tone.Some?
    requires InitialPart(t, s, syl).Ok? && FinalText(t, s, syl.final).Ok? && ToneText(t, s, syl.tone.value).Ok?
    ensures var base := StrOrNone(InitialPart(t, s, syl).value) + FinalText(t, s, syl.final).value;
      var tn := ToneText(t, s, syl.tone.value).value;
      SyllableText(t, s, nfc, syl)
      == if AnchorEnd(base).None? then Err(NoAnchor(base))
         else if tn !in Marks(s) then Err(MissingMark(tn))
         else Ok(nfc(InsertToneMark(base, Marks(s)[tn]).value))
  {
  }

  lemma EmptyMarkInserted(x: string, p: nat)
    requires p <= |x|
    ensures x[..p] + "" + x[p..] == x
  {
    assert x[..p] + "" == x[..p];
  }

  /** A Duffus or Tie-lo syllable in tone 1, 4 or 0 is the composed toneless
      syllable: marking it inserts nothing. */
  lemma UnmarkedTonesLeaveSyllable(t: Tables, s: Scheme, nfc: string -> string, syl: Syllable)
    requires DiacriticTones(s) && syl.tone.Some?
    requires InitialPart(t, s, syl).Ok? && FinalText(t, s, syl.final).Ok?
    requires ToneText(t, s, syl.tone.value) in [Ok("1"), Ok("4"), Ok("0")]
    ensures var base := StrOrNone(InitialPart(t, s, syl).value) + FinalText(t, s, syl.final).value;
      SyllableText(t, s, nfc, syl) == (if AnchorEnd(base).Some? then Ok(nfc(base)) else Err(NoAnchor(base)))
  {
    var base := StrOrNone(InitialPart(t, s, syl).value) + FinalText(t, s, syl.final).value;
    var tn := ToneText(t, s, syl.tone.value).value;
    DiacriticSyllable(t, s, nfc, syl);
    assert tn == "1" || tn == "4" || tn == "0";
    MarkTables();
    if AnchorEnd(base).Some? {
      EmptyMarkInserted(base, AnchorEnd(base).value);
    }
  }

  // ------------------------------------------------------------- Sinwenz

  /** The Sinwenz glide rewrite is idempotent: a syllable that already
      starts with `j` or `w` is left as it is. */
  lemma GlideRewriteIdempotent(pre: string)
    requires GlideRewrite(pre).Ok?
    ensures GlideRewrite(GlideRewrite(pre).value) == GlideRewrite(pre)
  {
  }

  // ------------------------------------------------------ words, hyphens

  function SyllableTexts(t: Tables, s: Scheme, nfc: string -> string, syls: seq<Syllable>): (r: Result<seq<string>>)
    ensures r.Ok? ==> |r.value| == |syls|
    ensures r.Ok? ==> forall i :: 0 <= i < |syls| ==> SyllableText(t, s, nfc, syls[i]) == Ok(r.value[i])
  {
    if syls == [] then Ok([])
    else
      var first := SyllableText(t, s, nfc, syls[0]);
      var rest := SyllableTexts(t, s, nfc, syls[1..]);
      if first.Err? then Err(first.error)
      else if rest.Err? then Err(rest.error)
      else Ok([first.value] + rest.value)
  }

  /** no syllable of the word renders as a lone hyphen */
  predicate NoHyphenSyllable(t: Tables, s: Scheme, nfc: string -> string, parts: seq<WordPart>) {
    forall i :: 0 <= i < |parts| && parts[i].Syl? ==> SyllableText(t, s, nfc, parts[i].syllable) != Ok("-")
  }

  /** With every separator rendered as `-`, dropping the hyphens from the
      rendered parts leaves exactly the rendered syllables. */
  lemma {:induction false} HyphensDropSeparators(t: Tables, s: Scheme, nfc: string -> string, parts: seq<WordPart>)
    requires Hyphenating(s)
    requires PartsText(t, s, nfc, parts).Ok?
    requires NoHyphenSyllable(t, s, nfc, parts)
    ensures SyllableTexts(t, s, nfc, Syllables(parts)).Ok?
    ensures Without(PartsText(t, s, nfc, parts).value, "-") == SyllableTexts(t, s, nfc, Syllables(parts)).value
  {
    if parts != [] {
      assert NoHyphenSyllable(t, s, nfc, parts[1..]) by {
        forall i | 0 <= i < |parts[1..]| && parts[1..][i].Syl?
          ensures SyllableText(t, s, nfc, parts[1..][i].syllable) != Ok("-")
        {
          assert parts[1..][i] == parts[i + 1];
        }
      }
      HyphensDropSeparators(t, s, nfc, parts[1..]);
      var pieces := PartsText(t, s, nfc, parts).value;
      assert pieces[1..] == PartsText(t, s, nfc, parts[1..]).value;
      match parts[0]
      case Sep(_) =>
      case Syl(syl) =>
        assert pieces[0] != "-";
        assert Syllables(parts) == [syl] + Syllables(parts[1..]);
        assert Syllables(parts)[1..] == Syllables(parts[1..]);
    }
  }

  /** Duffus, Tie-lo and Sinwenz separate the syllables of a word by exactly
      one hyphen, whatever separators (or none) the input had between them. */
  lemma HyphenatedWordIsJoin(t: Tables, s: Scheme, nfc: string -> string, parts: seq<WordPart>)
    requires Hyphenating(s)
    requires PartsText(t, s, nfc, parts).Ok?
    requires NoHyphenSyllable(t, s, nfc, parts)
    ensures SyllableTexts(t, s, nfc, Syllables(parts)).Ok?
    ensures WordText(t, s, nfc, parts) == Ok(Join("-", SyllableTexts(t, s, nfc, Syllables(parts)).value))
  {
    HyphensDropSeparators(t, s, nfc, parts);
  }

  /** So two spellings of a word that differ only in their separators
      render alike in the hyphenating schemes. */
  lemma SeparatorsIrrelevant(t: Tables, s: Scheme, nfc: string -> string, a: seq<WordPart>, b: seq<WordPart>)
    requires Hyphenating(s)
    requires Syllables(a) == Syllables(b)
    requires PartsText(t, s, nfc, a).Ok? && PartsText(t, s, nfc, b).Ok?
    requires NoHyphenSyllable(t, s, nfc, a) && NoHyphenSyllable(t, s, nfc, b)
    ensures WordText(t, s, nfc, a) == WordText(t, s, nfc, b)
  {
    HyphenatedWordIsJoin(t, s, nfc, a);
    HyphenatedWordIsJoin(t, s, nfc, b);
  }

  // ------------------------------------------------------- rime dictionary

  /** Every rime-dictionary syllable is bracketed, whatever its tone. */
  lemma RimeSyllableBracketed(t: Tables, nfc: string -> string, syl: Syllable)
    requires SyllableText(t, Zapngou, nfc, syl).Ok?
    ensures var r := SyllableText(t, Zapngou, nfc, syl).value;
      |r| >= 2 && r[0] == '【' && r[|r| - 1] == '】'
  {
  }

  /** Keys listed twice in the rime table keep their later rime class. */
  lemma RimeGangLaterWins()
    ensures RimeClasses()["ang"] == "江" && RimeClasses()["ak"] == "江"
  {
    GangInBlock3();
    GangNotInBlock4();
    GangNotInBlock5();
  }

  lemma GangInBlock3()
    ensures RimeBlock3()["ang"] == "江" && RimeBlock3()["ak"] == "江"
  {
  }

  lemma GangNotInBlock4()
    ensures "ang" !in RimeBlock4() && "ak" !in RimeBlock4()
  {
  }

  lemma GangNotInBlock5()
    ensures "ang" !in RimeBlock5() && "ak" !in RimeBlock5()
  {
  }

  lemma RimeGiaLaterWins()
    ensures RimeClasses()["ia"] == "京" && RimeClasses()["iah"] == "京"
  {
    assert RimeBlock5()["ia"] == "京" && RimeBlock5()["iah"] == "京";
  }

  lemma RimeGiangLaterWins()
    ensures RimeClasses()["iang"] == "姜" && RimeClasses()["iak"] == "姜"
  {
    assert RimeBlock5()["iang"] == "姜" && RimeBlock5()["iak"] == "姜";
  }

  lemma RimeDuplicatesLaterWin()
    ensures RimeClasses()["ang"] == "江" && RimeClasses()["ak"] == "江"
    ensures RimeClasses()["ia"] == "京" && RimeClasses()["iah"] == "京"
    ensures RimeClasses()["iang"] == "姜" && RimeClasses()["iak"] == "姜"
  {
    RimeGangLaterWins();
    RimeGiaLaterWins();
    RimeGiangLaterWins();
  }

  /** the word's children without its `-` separators; every other
      separator and every syllable stays, in order */
  function DropHyphenSeps(parts: seq<WordPart>): (r: seq<WordPart>)
    ensures |r| <= |parts|
    ensures forall i :: 0 <= i < |r| ==> r[i] != Sep("-")
    ensures forall p :: p in r <==> p in parts && p != Sep("-")
  {
    if parts == [] then []
    else if parts[0] == Sep("-") then DropHyphenSeps(parts[1..])
    else [parts[0]] + DropHyphenSeps(parts[1..])
  }

  /** Dropping `-` from a rime-dictionary word's rendered children removes
      exactly its `-` separators: no syllable renders as a bare hyphen, and
      any other separator is copied through as written. */
  lemma {:induction false} RimeDropsHyphens(t: Tables, nfc: string -> string, parts: seq<WordPart>)
    requires PartsText(t, Zapngou, nfc, parts).Ok?
    ensures PartsText(t, Zapngou, nfc, DropHyphenSeps(parts)).Ok?
    ensures Without(PartsText(t, Zapngou, nfc, parts).value, "-") == PartsText(t, Zapngou, nfc, DropHyphenSeps(parts)).value
  {
    if parts != [] {
      RimeDropsHyphens(t, nfc, parts[1..]);
      var pieces := PartsText(t, Zapngou, nfc, parts).value;
      var rest := DropHyphenSeps(parts[1..]);
      assert pieces[1..] == PartsText(t, Zapngou, nfc, parts[1..]).value;
      assert pieces[0] == PartText(t, Zapngou, nfc, parts[0]).value;
      if parts[0] == Sep("-") {
        assert pieces[0] == "-";
      } else {
        assert pieces[0] != "-" by {
          match parts[0]
          case Sep(text) =>
          case Syl(syl) => RimeSyllableBracketed(t, nfc, syl);
        }
        var kept := [parts[0]] + rest;
        assert kept[0] == parts[0] && kept[1..] == rest;
      }
    }
  }

  /** A rime-dictionary word is its rendered children side by side with the
      `-` separators dropped; other separators stay where they were. */
  lemma RimeWordConcat(t: Tables, nfc: string -> string, parts: seq<WordPart>)
    requires PartsText(t, Zapngou, nfc, parts).Ok?
    ensures PartsText(t, Zapngou, nfc, DropHyphenSeps(parts)).Ok?
    ensures WordText(t, Zapngou, nfc, parts) == Ok(Concat(PartsText(t, Zapngou, nfc, DropHyphenSeps(parts)).value))
  {
    RimeDropsHyphens(t, nfc, parts);
  }

  /** A word made of syllables only renders as its syllables. */
  lemma {:induction false} SyllablePartsText(t: Tables, s: Scheme, nfc: string -> string, parts: seq<WordPart>)
    requires forall i :: 0 <= i < |parts| ==> parts[i].Syl?
    ensures PartsText(t, s, nfc, parts) == SyllableTexts(t, s, nfc, Syllables(parts))
  {
    if parts != [] {
      assert forall i :: 0 <= i < |parts[1..]| ==> parts[1..][i] == parts[i + 1];
      SyllablePartsText(t, s, nfc, parts[1..]);
      assert Syllables(parts) == [parts[0].syllable] + Syllables(parts[1..]);
      assert Syllables(parts)[1..] == Syllables(parts[1..]);
    }
  }

  /** Dropping separators does not change a word's syllables. */
  lemma {:induction false} SyllablesWithoutHyphens(parts: seq<WordPart>)
    ensures Syllables(DropHyphenSeps(parts)) == Syllables(parts)
  {
    if parts != [] {
      SyllablesWithoutHyphens(parts[1..]);
      if parts[0] != Sep("-") {
        var kept := [parts[0]] + DropHyphenSeps(parts[1..]);
        assert kept[0] == parts[0] && kept[1..] == DropHyphenSeps(parts[1..]);
      }
    }
  }

  /** With `-` as its only separator, a rime-dictionary word is its
      bracketed syllables side by side. */
  lemma RimeHyphenatedWord(t: Tables, nfc: string -> string, parts: seq<WordPart>)
    requires forall i :: 0 <= i < |parts| && parts[i].Sep? ==> parts[i].text == "-"
    requires PartsText(t, Zapngou, nfc, parts).Ok?
    ensures SyllableTexts(t, Zapngou, nfc, Syllables(parts)).Ok?
    ensures WordText(t, Zapngou, nfc, parts) == Ok(Concat(SyllableTexts(t, Zapngou, nfc, Syllables(parts)).value))
  {
    RimeWordConcat(t, nfc, parts);
    SyllablesWithoutHyphens(parts);
    var kept := DropHyphenSeps(parts);
    forall i | 0 <= i < |kept| ensures kept[i].Syl? {
      assert kept[i] in parts;
    }
    SyllablePartsText(t, Zapngou, nfc, kept);
  }

  // ------------------------------------------------------------ Nosefirst

  /** Nosefirst reads the Dieghv column for the medial and the coda. */
  lemma NosefirstPartsAreDieghv(t: Tables, f: Final)
    ensures MedialPart(t, Nosefirst, f) == MedialPart(t, Dieghv, f)
    ensures CodaPart(t, Nosefirst, f) == CodaPart(t, Dieghv, f)
  {
    if f.coda.Some? {
      match f.coda.value
      case NasalCoda(_) =>
      case StopCoda(_) =>
    }
  }

  /** A final without a nasal renders in Nosefirst exactly as in Dieghv,
      whose tables Nosefirst reads. */
  lemma NosefirstFinalWithoutNasal(t: Tables, f: Final)
    requires f.nasal.None?
    ensures FinalText(t, Nosefirst, f) == FinalText(t, Dieghv, f)
  {
    NosefirstPartsAreDieghv(t, f);
    if MedialPart(t, Dieghv, f).Ok? && CodaPart(t, Dieghv, f).Ok? {
      var m, c := MedialPart(t, Dieghv, f).value, CodaPart(t, Dieghv, f).value;
      assert "" + m + c == m + "" + c;
    }
  }

  /** A final renders when its three parts do; Nosefirst puts the nasal
      first and every scheme but the rime renderer keeps the order. */
  lemma FinalTextOf(t: Tables, s: Scheme, f: Final)
    requires !s.Zapngou?
    ensures FinalText(t, s, f).Ok? <==> MedialPart(t, s, f).Ok? && NasalPart(t, s, f).Ok? && CodaPart(t, s, f).Ok?
    ensures FinalText(t, s, f).Ok? ==>
      var m, n, c := MedialPart(t, s, f).value, NasalPart(t, s, f).value, CodaPart(t, s, f).value;
      FinalText(t, s, f).value == if s.Nosefirst? then n + m + c else m + n + c
  {
  }

  lemma PrefixRegroups(n: string, m: string, c: string)
    ensures n + m + c == n + ("" + m + c)
  {
    assert "" + m == m;
  }

  /** A Nosefirst final with the nasal renders exactly when the same final
      without it does. */
  lemma NosefirstNasalRenders(t: Tables, f: Final)
    requires f.nasal.Some?
    ensures FinalText(t, Nosefirst, f).Ok? <==> FinalText(t, Nosefirst, f.(nasal := None)).Ok?
  {
    var g := f.(nasal := None);
    assert g.medial == f.medial && g.coda == f.coda;
    assert NasalPart(t, Nosefirst, f) == Ok("N") && NasalPart(t, Nosefirst, g) == Ok("");
  }

  /** The nasal marker `N` comes first in a Nosefirst final, before the
      medial and the coda, which keep their order. */
  lemma NosefirstNasalLeads(t: Tables, f: Final)
    requires f.nasal.Some?
    ensures FinalText(t, Nosefirst, f).Ok? ==>
      FinalText(t, Nosefirst, f) == Ok("N" + FinalText(t, Nosefirst, f.(nasal := None)).value)
  {
    if FinalText(t, Nosefirst, f).Ok? {
      PrefixRegroups("N", MedialPart(t, Nosefirst, f).value, CodaPart(t, Nosefirst, f).value);
    }
  }

  predicate NasalFreeParts(parts: seq<WordPart>) {
    forall i :: 0 <= i < |parts| && parts[i].Syl? ==> parts[i].syllable.final.nasal.None?
  }

  predicate NasalFree(sentence: Sentence) {
    forall i :: 0 <= i < |sentence| && sentence[i].Word? ==> NasalFreeParts(sentence[i].parts)
  }

  /** Nosefirst reads the Dieghv column for the initial and the tones. */
  lemma NosefirstInitialAndTone(t: Tables, syl: Syllable)
    ensures InitialPart(t, Nosefirst, syl) == InitialPart(t, Dieghv, syl)
    ensures syl.tone.Some? ==> ToneText(t, Nosefirst, syl.tone.value) == ToneText(t, Dieghv, syl.tone.value)
  {
    if syl.tone.Some? {
      assert ToneChildren(t, Nosefirst, syl.tone.value) == ToneChildren(t, Dieghv, syl.tone.value);
    }
  }

  lemma NosefirstSyllable(t: Tables, nfc: string -> string, syl: Syllable)
    requires syl.final.nasal.None?
    ensures SyllableText(t, Nosefirst, nfc, syl) == SyllableText(t, Dieghv, nfc, syl)
  {
    NosefirstFinalWithoutNasal(t, syl.final);
    NosefirstInitialAndTone(t, syl);
  }

  lemma {:induction false} NosefirstParts(t: Tables, nfc: string -> string, parts: seq<WordPart>)
    requires NasalFreeParts(parts)
    ensures PartsText(t, Nosefirst, nfc, parts) == PartsText(t, Dieghv, nfc, parts)
  {
    if parts != [] {
      if parts[0].Syl? {
        NosefirstSyllable(t, nfc, parts[0].syllable);
      }
      assert NasalFreeParts(parts[1..]) by {
        forall i | 0 <= i < |parts[1..]| && parts[1..][i].Syl?
          ensures parts[1..][i].syllable.final.nasal.None?
        {
          assert parts[1..][i] == parts[i + 1];
        }
      }
      NosefirstParts(t, nfc, parts[1..]);
    }
  }

  /** Nosefirst differs from Dieghv only in where it puts the nasal: a
      sentence without nasalised finals renders alike in the two. */
  lemma {:induction false} NosefirstAgreesWithoutNasal(t: Tables, nfc: string -> string, sentence: Sentence)
    requires NasalFree(sentence)
    ensures SentenceText(t, Nosefirst, nfc, sentence) == SentenceText(t, Dieghv, nfc, sentence)
  {
    if sentence != [] {
      if sentence[0].Word? {
        NosefirstParts(t, nfc, sentence[0].parts);
      }
      assert NasalFree(sentence[1..]) by {
        forall i | 0 <= i < |sentence[1..]| && sentence[1..][i].Word?
          ensures NasalFreeParts(sentence[1..][i].parts)
        {
          assert sentence[1..][i] == sentence[i + 1];
        }
      }
      NosefirstAgreesWithoutNasal(t, nfc, sentence[1..]);
    }
  }
}
