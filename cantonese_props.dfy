/** What the Cantonese renderers promise. */
module CantoneseProperties {
  import opened Common
  import opened Tree
  import opened Symbols
  import opened Cantonese

  /** Yale marks share their diacritics in pairs and leaves tones 3, 6, 8
      and 9 unmarked. */
  lemma YaleMarkSharing()
    ensures YaleMarks()["tone_1b"] == YaleMarks()["tone_4"] == "\U{0300}"
    ensures YaleMarks()["tone_2"] == YaleMarks()["tone_5"] == "\U{0301}"
    ensures YaleMarks()["tone_1a"] == YaleMarks()["tone_7"] == "\U{0304}"
    ensures forall n :: n in ["tone_3", "tone_6", "tone_8", "tone_9"] ==> YaleMarks()[n] == ""
    ensures forall n :: n in YaleMarks() <==> IsToneRule(n)
  {
  }

  /** the tone's share of a Yale final: its mark and the `h`, if any */
  function ToneSpelling(entering: bool, tone: string): string
    requires tone in YaleMarks()
  {
    YaleMarks()[tone] + (if (!entering && LowRegister(tone)) || (entering && tone == "tone_9") then "h" else "")
  }

  /** Reads the tone back from its share of a Yale final. */
  function SpelledTone(entering: bool, spelling: string): string {
    if entering then
      if spelling == "\U{0304}" then "tone_7"
      else if spelling == "" then "tone_8"
      else "tone_9"
    else
      if spelling == "\U{0304}" then "tone_1a"
      else if spelling == "\U{0300}" then "tone_1b"
      else if spelling == "\U{0301}" then "tone_2"
      else if spelling == "" then "tone_3"
      else if spelling == "\U{0300}h" then "tone_4"
      else if spelling == "\U{0301}h" then "tone_5"
      else "tone_6"
  }

  /** The tone's share of a Yale final determines the tone, given whether
      the final is entering. */
  lemma ToneSpellingDecodes(entering: bool, tone: string)
    requires !entering ==> tone in ["tone_1a", "tone_1b", "tone_2", "tone_3", "tone_4", "tone_5", "tone_6"]
    requires entering ==> tone in ["tone_7", "tone_8", "tone_9"]
    ensures SpelledTone(entering, ToneSpelling(entering, tone)) == tone
  {
    var x := ToneSpelling(entering, tone);
    if entering {
      if tone == "tone_7" {
        assert x == "\U{0304}";
      } else if tone == "tone_8" {
        assert x == "";
      } else {
        assert x == "h" && x[0] != "\U{0304}"[0];
      }
    } else if tone == "tone_1a" {
      assert x == "\U{0304}";
    } else if tone == "tone_1b" {
      assert x == "\U{0300}" && x[0] != "\U{0304}"[0];
    } else if tone == "tone_2" {
      assert x == "\U{0301}" && x[0] != "\U{0304}"[0] && x[0] != "\U{0300}"[0];
    } else if tone == "tone_3" {
      assert x == "";
    } else if tone == "tone_4" {
      assert x == "\U{0300}h" && |x| == 2;
    } else if tone == "tone_5" {
      assert x == "\U{0301}h" && |x| == 2 && x[0] != "\U{0300}"[0];
    } else {
      assert x == "h" && x[0] != "\U{0304}"[0] && x[0] != "\U{0300}"[0] && x[0] != "\U{0301}"[0];
    }
  }

  lemma {:induction false} CancelAround(a: string, x: string, y: string, c: string)
    requires a + x + c == a + y + c
    ensures x == y
  {
    var l, r := a + x + c, a + y + c;
    assert |x| == |y|;
    forall i | 0 <= i < |x| ensures x[i] == y[i] {
      assert l[|a| + i] == x[i];
      assert r[|a| + i] == y[i];
    }
  }

  function YaleCoda(parts: map<string, string>, entering: bool): string
    requires entering ==> "codastop" in parts
  {
    if entering then parts["codastop"] else if "codanasal" in parts then parts["codanasal"] else ""
  }

  /** A Yale final with a medial is the medial, the tone's share and the
      coda. */
  lemma YaleFinalForm(parts: map<string, string>, entering: bool, tone: string)
    requires "medial" in parts && tone in YaleMarks() && (entering ==> "codastop" in parts)
    ensures YaleFinalText(parts, entering, tone) == Ok(parts["medial"] + ToneSpelling(entering, tone) + YaleCoda(parts, entering))
  {
    var m, mark, c := parts["medial"], YaleMarks()[tone], YaleCoda(parts, entering);
    if (!entering && LowRegister(tone)) || (entering && tone == "tone_9") {
      assert m + mark + "h" + c == m + (mark + "h") + c;
    } else {
      assert ToneSpelling(entering, tone) == mark + "" == mark;
      assert "codanasal" !in parts && !entering ==> m + mark + c == m + mark;
    }
  }

  /** Different tones of a Yale syllable with a medial are spelled
      differently: the `h` tells apart the tones that share a mark (1b and
      4, 2 and 5, 3 and 6 in open and nasal finals; 8 and 9 in entering
      ones).  This holds of the text before composition. */
  lemma YaleTonesDistinct(parts: map<string, string>, entering: bool, a: string, b: string)
    requires "medial" in parts && (entering ==> "codastop" in parts)
    requires !entering ==> (a in ["tone_1a", "tone_1b", "tone_2", "tone_3", "tone_4", "tone_5", "tone_6"]
                            && b in ["tone_1a", "tone_1b", "tone_2", "tone_3", "tone_4", "tone_5", "tone_6"])
    requires entering ==> a in ["tone_7", "tone_8", "tone_9"] && b in ["tone_7", "tone_8", "tone_9"]
    requires a != b
    ensures YaleFinalText(parts, entering, a).Ok? && YaleFinalText(parts, entering, b).Ok?
    ensures YaleFinalText(parts, entering, a) != YaleFinalText(parts, entering, b)
  {
    YaleFinalForm(parts, entering, a);
    YaleFinalForm(parts, entering, b);
    ToneSpellingDecodes(entering, a);
    ToneSpellingDecodes(entering, b);
    var m, c := parts["medial"], YaleCoda(parts, entering);
    if m + ToneSpelling(entering, a) + c == m + ToneSpelling(entering, b) + c {
      CancelAround(m, ToneSpelling(entering, a), ToneSpelling(entering, b), c);
    }
  }

  /** A Yale final carries its `h` exactly in the low register (in tone 9
      for an entering final), right after the medial and its mark and before
      the coda; otherwise the coda follows the mark directly. */
  lemma YaleHPlacement(parts: map<string, string>, entering: bool, tone: string)
    requires "medial" in parts && tone in YaleMarks() && (entering ==> "codastop" in parts)
    ensures var r := YaleFinalText(parts, entering, tone).value;
      var pre := parts["medial"] + YaleMarks()[tone];
      var coda := if entering then parts["codastop"] else if "codanasal" in parts then parts["codanasal"] else "";
      ((if entering then tone == "tone_9" else LowRegister(tone)) ==> r == pre + "h" + coda && r[|pre|] == 'h')
      && (!(if entering then tone == "tone_9" else LowRegister(tone)) ==> r == pre + coda)
  {
  }

  /** Toneless input has no Yale spelling, wherever in the sentence it is. */
  lemma {:induction false} YaleRejectsTonelessWord(t: Tables, nfc: string -> string, parts: seq<CWordPart>, i: nat)
    requires i < |parts| && parts[i].CSyl? && parts[i].syllable.tone.None?
    ensures PartsText(t, Yale, nfc, parts).Err?
  {
    if i > 0 {
      YaleRejectsTonelessWord(t, nfc, parts[1..], i - 1);
    }
  }

  lemma {:induction false} YaleRejectsToneless(t: Tables, nfc: string -> string, sentence: seq<CItem>, w: nat, i: nat)
    requires w < |sentence| && sentence[w].CWord?
    requires i < |sentence[w].parts| && sentence[w].parts[i].CSyl? && sentence[w].parts[i].syllable.tone.None?
    ensures SentenceText(t, Yale, nfc, sentence).Err?
  {
    if w == 0 {
      YaleRejectsTonelessWord(t, nfc, sentence[0].parts, i);
    } else {
      YaleRejectsToneless(t, nfc, sentence[1..], w - 1, i);
    }
  }

  /** The default schemes render a syllable as its three rendered parts
      side by side, the tone by its spelling in the tables. */
  lemma DefaultSyllable(t: Tables, s: Scheme, syl: CSyllable)
    requires !s.Yale? && syl.tone.Some? && SyllableText(t, s, syl).Ok?
    ensures IsToneRule(syl.tone.value)
    ensures DirectSpelling(t, "tones", System(s), syl.tone.value).Ok?
    ensures SyllableText(t, s, syl).value
         == Part(t, s, "initial", syl.initial).value + FinalText(t, s, syl.final).value
            + DirectSpelling(t, "tones", System(s), syl.tone.value).value
  {
  }
}
