/** The Cantonese renderers of src/parsetc/Cantonese/translit.py: Jyutping
    and Cantonese Pinyin, which read the shared tables the default way, and
    Yale, which spells part of the tone with letters and so needs to see the
    parts of the final before joining them. */
module Cantonese {
  import opened Common
  import opened Tree
  import opened Symbols

  datatype Scheme = Jp | Cpy | Yale

  /** TRANSFORMER_DICT */
  function SchemeNamed(id: string): (r: Option<Scheme>)
    ensures r.Some? <==> id in ["jp", "cpy", "yale"]
  {
    match id
    case "jp" => Some(Jp)
    case "cpy" => Some(Cpy)
    case "yale" => Some(Yale)
    case _ => None
  }

  function System(s: Scheme): string {
    match s
    case Jp => "jp"
    case Cpy => "cpy"
    case Yale => "yale"
  }

  /** A Cantonese syllable: there is no changed tone, and the tone is the
      name of a tone rule (`tone_1a` ... `tone_9`). */
  datatype CSyllable = CSyllable(initial: Option<string>, final: Final, tone: Option<string>)

  datatype CWordPart = CSyl(syllable: CSyllable) | CSep(text: string)

  datatype CItem = CWord(parts: seq<CWordPart>) | CPunct(text: string)

  predicate IsToneRule(name: string) {
    name in ["tone_1a", "tone_1b", "tone_2", "tone_3", "tone_4", "tone_5", "tone_6", "tone_7", "tone_8", "tone_9"]
  }

  /** A tone rule's callback returns the pair of its name and its spelling. */
  function ToneLeaf(t: Tables, s: Scheme, name: string): (r: Result<(string, string)>)
    ensures r.Ok? ==> r.value.0 == name && IsToneRule(name)
    ensures r.Ok? ==> DirectSpelling(t, "tones", System(s), name) == Ok(r.value.1)
    ensures IsToneRule(name) && DirectSpelling(t, "tones", System(s), name).Ok? ==> r.Ok?
  {
    if !IsToneRule(name) then Err(UnknownTone(name))
    else
      var spelling :- DirectSpelling(t, "tones", System(s), name);
      Ok((name, spelling))
  }

  // --------------------------------------------- Jyutping, Cantonese Pinyin

  /** `tone_citation` / `tone_entering` of the default schemes: the spelling
      half of the pair */
  function ToneText(t: Tables, s: Scheme, name: string): (r: Result<string>)
    ensures r.Ok? <==> ToneLeaf(t, s, name).Ok?
    ensures r.Ok? ==> r.value == ToneLeaf(t, s, name).value.1
  {
    var leaf :- ToneLeaf(t, s, name);
    Ok(leaf.1)
  }

  function Part(t: Tables, s: Scheme, which: string, name: Option<string>): Result<string> {
    if name.Some? then LookupTerminal(t, which, System(s), name.value) else Ok("")
  }

  /** `final` / `final_entering`: the rendered children side by side; a
      NASAL token has no callback and stands for itself. */
  function FinalText(t: Tables, s: Scheme, f: Final): Result<string> {
    var m :- Part(t, s, "medial", f.medial);
    var c :- if f.coda.None? then Ok("")
             else if f.coda.value.NasalCoda? then LookupTerminal(t, "codanasal", System(s), f.coda.value.name)
             else LookupTerminal(t, "codastop", System(s), f.coda.value.name);
    Ok(m + StrOrNone(f.nasal) + c)
  }

  /** `syllable_tone` / `syllable_toneless` of the default schemes */
  function SyllableText(t: Tables, s: Scheme, syl: CSyllable): Result<string>
    requires !s.Yale?
  {
    var init :- Part(t, s, "initial", syl.initial);
    var fin :- FinalText(t, s, syl.final);
    var tn :- if syl.tone.Some? then ToneText(t, s, syl.tone.value) else Ok("");
    Ok(init + fin + tn)
  }

  // ------------------------------------------------------------------ Yale

  /** `Yale._lookup_terminal`: the spelling tagged with its category */
  function YaleLookup(t: Tables, which: string, name: string): (r: Result<(string, string)>)
    ensures r.Ok? <==> LookupTerminal(t, which, "yale", name).Ok?
    ensures r.Ok? ==> r.value == (which, LookupTerminal(t, which, "yale", name).value)
  {
    var spelling :- LookupTerminal(t, which, "yale", name);
    Ok((which, spelling))
  }

  /** `Yale.final` / `Yale.final_entering`: the parts of the final keyed by
      their category.  A NASAL token would be taken apart character by
      character here, which this model does not follow. */
  function YaleParts(t: Tables, f: Final): (r: Result<map<string, string>>)
    ensures r.Ok? ==> ("medial" in r.value <==> f.medial.Some?)
    ensures r.Ok? ==> ("codanasal" in r.value <==> f.coda.Some? && f.coda.value.NasalCoda?)
    ensures r.Ok? ==> ("codastop" in r.value <==> f.Entering())
    ensures r.Ok? ==> f.nasal.None?
  {
    var med :- if f.medial.Some? then
                 (var m :- YaleLookup(t, "medial", f.medial.value); Ok(map["medial" := m.1]))
               else Ok(map[]);
    if f.nasal.Some? then Err(NotModelled("Yale NASAL"))
    else
      match f.coda
      case None => Ok(med)
      case Some(NasalCoda(n)) =>
        var c :- YaleLookup(t, "codanasal", n);
        Ok(med["codanasal" := c.1])
      case Some(StopCoda(n)) =>
        var c :- YaleLookup(t, "codastop", n);
        Ok(med["codastop" := c.1])
  }

  /** the tone marks, by tone rule; tones 3, 6, 8 and 9 are unmarked */
  function YaleMarks(): map<string, string> {
    map["tone_1a" := "\U{0304}", "tone_1b" := "\U{0300}", "tone_2" := "\U{0301}", "tone_3" := "",
        "tone_4" := "\U{0300}", "tone_5" := "\U{0301}", "tone_6" := "", "tone_7" := "\U{0304}",
        "tone_8" := "", "tone_9" := ""]
  }

  /** the low-register tones whose non-entering syllables take an `h` */
  predicate LowRegister(tone: string) {
    tone in ["tone_4", "tone_5", "tone_6"]
  }

  /** The final with its tone spelling, as `syllable_tone` builds
      `final_text`: in a non-entering final, the medial, its mark, `h` in the
      low register and then the nasal coda, or for a nasal alone the coda and
      its mark; in an entering final, the medial, its mark, `h` in tone 9 and
      then the stop. */
  function YaleFinalText(parts: map<string, string>, entering: bool, tone: string): (r: Result<string>)
    ensures !entering && "medial" in parts && tone in YaleMarks() ==>
      r == Ok(parts["medial"] + YaleMarks()[tone] + (if LowRegister(tone) then "h" else "")
              + (if "codanasal" in parts then parts["codanasal"] else ""))
    ensures !entering && "medial" !in parts ==>
      r == (if "codanasal" !in parts then Err(MissingPart("codanasal"))
            else if tone !in YaleMarks() then Err(MissingMark(tone))
            else Ok(parts["codanasal"] + YaleMarks()[tone]))
    ensures entering && "medial" in parts && "codastop" in parts && tone in YaleMarks() ==>
      r == Ok(parts["medial"] + YaleMarks()[tone] + (if tone == "tone_9" then "h" else "") + parts["codastop"])
    ensures entering && "medial" !in parts ==> r == Err(MissingPart("medial"))
    ensures tone !in YaleMarks() && ("medial" in parts || "codanasal" in parts) ==> r.Err?
  {
    if !entering then
      if "medial" in parts then
        var mark :- Get(YaleMarks(), tone, MissingMark(tone));
        var text := parts["medial"] + mark;
        var text := if LowRegister(tone) then text + "h" else text;
        assert text == parts["medial"] + mark + (if LowRegister(tone) then "h" else "");
        var text := if "codanasal" in parts then text + parts["codanasal"] else text;
        assert "codanasal" !in parts ==> text + "" == text;
        Ok(text)
      else
        if "codanasal" !in parts then Err(MissingPart("codanasal"))
        else
          var mark :- Get(YaleMarks(), tone, MissingMark(tone));
          Ok(parts["codanasal"] + mark)
    else
      if "medial" !in parts then Err(MissingPart("medial"))
      else
        var mark :- Get(YaleMarks(), tone, MissingMark(tone));
        var text := parts["medial"] + mark;
        var text := if tone == "tone_9" then text + "h" else text;
        assert text == parts["medial"] + mark + (if tone == "tone_9" then "h" else "");
        if "codastop" !in parts then Err(MissingPart("codastop"))
        else Ok(text + parts["codastop"])
  }

  /** the initial's spelling, or nothing for a null initial */
  function YaleInitial(t: Tables, initial: Option<string>): (r: Result<string>)
    ensures initial.None? ==> r == Ok("")
    ensures initial.Some? ==> (r.Ok? <==> LookupTerminal(t, "initial", "yale", initial.value).Ok?)
    ensures initial.Some? && r.Ok? ==> r.value == LookupTerminal(t, "initial", "yale", initial.value).value
  {
    if initial.Some? then
      var i :- YaleLookup(t, "initial", initial.value);
      Ok(i.1)
    else Ok("")
  }

  /** `Yale.syllable_tone` / `Yale.syllable_toneless`: the initial's
      spelling (nothing for a null initial) and the final text, composed;
      a syllable without a tone cannot be spelled at all. */
  function YaleSyllableText(t: Tables, nfc: string -> string, syl: CSyllable): (r: Result<string>)
    ensures syl.tone.None? ==> r.Err?
    ensures syl.tone.Some? ==>
      (r.Ok? <==> YaleInitial(t, syl.initial).Ok? && YaleParts(t, syl.final).Ok?
                  && ToneLeaf(t, Yale, syl.tone.value).Ok?
                  && YaleFinalText(YaleParts(t, syl.final).value, syl.final.Entering(), syl.tone.value).Ok?)
    ensures syl.tone.Some? && r.Ok? ==>
      r.value == nfc(YaleInitial(t, syl.initial).value
                     + YaleFinalText(YaleParts(t, syl.final).value, syl.final.Entering(), syl.tone.value).value)
  {
    var init :- YaleInitial(t, syl.initial);
    var parts :- YaleParts(t, syl.final);
    match syl.tone
    case None => Err(Unrepresentable)
    case Some(name) =>
      var leaf :- ToneLeaf(t, Yale, name);
      var fin :- YaleFinalText(parts, syl.final.Entering(), leaf.0);
      Ok(nfc(init + fin))
  }

  // ------------------------------------------------------- words, sentences

  function CSyllableText(t: Tables, s: Scheme, nfc: string -> string, syl: CSyllable): Result<string> {
    if s.Yale? then YaleSyllableText(t, nfc, syl) else SyllableText(t, s, syl)
  }

  function PartsText(t: Tables, s: Scheme, nfc: string -> string, parts: seq<CWordPart>): (r: Result<string>)
    ensures parts == [] ==> r == Ok("")
  {
    if parts == [] then Ok("")
    else
      var first :- match parts[0]
                   case CSyl(syl) => CSyllableText(t, s, nfc, syl)
                   case CSep(text) => Ok(text);
      var rest :- PartsText(t, s, nfc, parts[1..]);
      Ok(first + rest)
  }

  /** `start` / `sentence` over words (`word_sep` / `word_tone`) and the
      tokens between them: everything side by side */
  function SentenceText(t: Tables, s: Scheme, nfc: string -> string, sentence: seq<CItem>): (r: Result<string>)
    ensures sentence == [] ==> r == Ok("")
  {
    if sentence == [] then Ok("")
    else
      var first :- match sentence[0]
                   case CWord(parts) => PartsText(t, s, nfc, parts)
                   case CPunct(text) => Ok(text);
      var rest :- SentenceText(t, s, nfc, sentence[1..]);
      Ok(first + rest)
  }
}
