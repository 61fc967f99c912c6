/** The Teochew renderers of src/parsetc/Teochew/translit.py.

    Each Transformer subclass is one `Scheme`; the visitor's per-rule
    callbacks become one function per node kind that matches on the scheme
    where a subclass overrides the default.  Children are rendered left to
    right, so the first failing child decides the error, as the bottom-up
    Transformer does.  `nfc` is Unicode canonical composition, applied last
    by the diacritic renderers; it is a parameter and nothing is assumed
    about it. */
module Teochew {
  import opened Common
  import opened Text
  import opened Tree
  import opened Symbols
  import opened TeochewTables

  datatype Scheme = Gdpi | Ggnn | Dieghv | Duffus | Tlo | Sinwz | Zapngou | Nosefirst

  /** TRANSFORMER_DICT: the output schemes a caller can name; Nosefirst is
      not among them. */
  function SchemeNamed(id: string): (r: Option<Scheme>)
    ensures r.Some? <==> id in ["gdpi", "ggnn", "dieghv", "tlo", "duffus", "sinwz", "15"]
    ensures r != Some(Nosefirst)
  {
    match id
    case "gdpi" => Some(Gdpi)
    case "ggnn" => Some(Ggnn)
    case "dieghv" => Some(Dieghv)
    case "tlo" => Some(Tlo)
    case "duffus" => Some(Duffus)
    case "sinwz" => Some(Sinwz)
    case "15" => Some(Zapngou)
    case _ => None
  }

  /** `self.system`, the column of the symbol table a scheme reads; the rime
      renderer has none. */
  function System(s: Scheme): string
    requires !s.Zapngou?
  {
    match s
    case Gdpi => "gdpi"
    case Ggnn => "ggnn"
    case Dieghv => "dieghv"
    case Duffus => "duffus"
    case Tlo => "tlo"
    case Sinwz => "sinwz"
    case Nosefirst => "dieghv"
  }

  /** schemes that write tones as numbers, `c` or `c(s)` (Gdpi and its subclasses) */
  predicate NumericTones(s: Scheme) {
    s.Gdpi? || s.Ggnn? || s.Dieghv? || s.Nosefirst?
  }

  /** schemes that turn every syllable separator into a hyphen */
  predicate Hyphenating(s: Scheme) {
    s.Duffus? || s.Tlo? || s.Sinwz?
  }

  /** schemes that put a combining tone mark on the syllable */
  predicate DiacriticTones(s: Scheme) {
    s.Duffus? || s.Tlo?
  }

  function Initial(t: Tables, s: Scheme, name: string): Result<string> {
    match s
    case Sinwz => Get(SinwzInitials(), name, MissingTerminal("initial", name, "sinwz"))
    case Zapngou => Get(ZapngouInitials(), name, MissingTerminal("initial", name, "15"))
    case _ => LookupTerminal(t, "initial", System(s), name)
  }

  /** the dieghv column of one category, which the rime renderer reads
      without mergers */
  function DieghvColumn(t: Tables, which: string): Result<map<string, string>> {
    if which in t.terminals then Ok(DirectTable(t.terminals[which], "dieghv"))
    else Err(MissingCategory(which))
  }

  function Medial(t: Tables, s: Scheme, name: string): Result<string> {
    match s
    case Sinwz => Get(SinwzMedials(), name, MissingTerminal("medial", name, "sinwz"))
    case Zapngou =>
      var d :- DieghvColumn(t, "medial");
      Get(d, name, MissingTerminal("medial", name, "dieghv"))
    case _ => LookupTerminal(t, "medial", System(s), name)
  }

  function CodaText(t: Tables, s: Scheme, c: Coda): Result<string> {
    match c
    case NasalCoda(name) =>
      (match s
       case Sinwz => Get(SinwzNasalCodas(), name, MissingTerminal("codanasal", name, "sinwz"))
       case Zapngou =>
         // dieghv has no coda n
         var d :- DieghvColumn(t, "codanasal");
         Get(d["COD_N" := "ng"], name, MissingTerminal("codanasal", name, "dieghv"))
       case _ => LookupTerminal(t, "codanasal", System(s), name))
    case StopCoda(name) =>
      (match s
       case Sinwz => Get(SinwzStops(), name, MissingTerminal("codastop", name, "sinwz"))
       case Zapngou =>
         // dieghv has no stop t
         var d :- DieghvColumn(t, "codastop");
         Get(d["COD_T" := "g"], name, MissingTerminal("codastop", name, "dieghv"))
       case _ => LookupTerminal(t, "codastop", System(s), name))
  }

  /** the NASAL token's callback */
  function NasalText(t: Tables, s: Scheme): Result<string> {
    match s
    case Sinwz => Err(NotModelled("Sinwz.NASAL"))
    case Zapngou => Ok("n")
    case Nosefirst => Ok("N")
    case _ => DirectSpelling(t, "nasal", System(s), "NASAL")
  }

  /** a rime class for the concatenated final, or the final itself */
  function RimeOrSelf(pre: string): (r: string)
    ensures pre in RimeClasses() ==> r == RimeClasses()[pre]
    ensures pre !in RimeClasses() ==> r == pre
  {
    if pre in RimeClasses() then RimeClasses()[pre] else pre
  }

  function MedialPart(t: Tables, s: Scheme, f: Final): Result<string> {
    if f.medial.Some? then Medial(t, s, f.medial.value) else Ok("")
  }

  function NasalPart(t: Tables, s: Scheme, f: Final): Result<string> {
    if f.nasal.Some? then NasalText(t, s) else Ok("")
  }

  function CodaPart(t: Tables, s: Scheme, f: Final): Result<string> {
    if f.coda.Some? then CodaText(t, s, f.coda.value) else Ok("")
  }

  /** `final` / `final_entering`: the rendered children in order, except that
      Nosefirst puts the nasal first and the rime renderer replaces a
      non-entering final by its rime class. */
  function FinalText(t: Tables, s: Scheme, f: Final): Result<string> {
    var m :- MedialPart(t, s, f);
    var n :- NasalPart(t, s, f);
    var c :- CodaPart(t, s, f);
    match s
    case Nosefirst => Ok(n + m + c)
    case Zapngou => if f.Entering() then Ok(m + n + c) else Ok(RimeOrSelf(m + n + c))
    case _ => Ok(m + n + c)
  }

  /** the callback of a tone rule (`tone_1` ... `tone_8`) */
  function ToneLeaf(t: Tables, s: Scheme, name: string): Result<string> {
    if !IsToneRule(name) then Err(UnknownTone(name))
    else match s
      case Sinwz => Ok(SinwzTones()[name])
      case Zapngou => Ok(ZapngouTones()[name])
      case _ => DirectSpelling(t, "tones", System(s), name)
  }

  /** the rendered children of a `tone` node: the citation tone and, when
      present, the changed tone */
  function ToneChildren(t: Tables, s: Scheme, tone: Tone): (r: Result<seq<string>>)
    ensures r.Ok? ==> |r.value| == (if tone.changed.Some? then 2 else 1)
    ensures r.Ok? ==> ToneLeaf(t, s, tone.citation) == Ok(r.value[0])
    ensures r.Ok? && tone.changed.Some? ==> ToneLeaf(t, s, tone.changed.value) == Ok(r.value[1])
  {
    var c :- ToneLeaf(t, s, tone.citation);
    if tone.changed.Some? then
      var x :- ToneLeaf(t, s, tone.changed.value);
      Ok([c, x])
    else Ok([c])
  }

  /** `Gdpi.tone` / `Gdpi.tone_entering`, on the list of rendered children */
  function NumericTone(items: seq<string>): string {
    if |items| == 1 then items[0]
    else if |items| == 2 then items[0] + "(" + items[1] + ")"
    else ""
  }

  /** `tone` / `tone_entering` */
  function ToneText(t: Tables, s: Scheme, tone: Tone): Result<string> {
    var items :- ToneChildren(t, s, tone);
    if NumericTones(s) then Ok(NumericTone(items))
    else if s.Zapngou? then Ok(if |items| >= 1 then items[0] else "")
    else Ok(items[0])
  }

  /** Where Duffus and Tie-lo put the tone mark: just after the first vowel
      letter, or, in a syllable without one, just after the first `n` or `m`. */
  function AnchorEnd(syllab: string): (r: Option<nat>)
    ensures r.Some? ==> 1 <= r.value <= |syllab|
  {
    match FirstWhere(syllab, IsVowel)
    case Some(i) => Some(i + 1)
    case None =>
      match FirstWhere(syllab, IsNasalLetter)
      case Some(i) => Some(i + 1)
      case None => None
  }

  /** The mark goes after the first vowel letter, or after the first `n` or
      `m` when there is no vowel, and nowhere when there is neither. */
  lemma AnchorPlacement(syllab: string)
    ensures var r := AnchorEnd(syllab);
      (exists j :: 0 <= j < |syllab| && IsVowel(syllab[j])) ==>
      r.Some? && IsVowel(syllab[r.value - 1])
      && forall j :: 0 <= j < r.value - 1 ==> !IsVowel(syllab[j])
    ensures var r := AnchorEnd(syllab);
      ((forall j :: 0 <= j < |syllab| ==> !IsVowel(syllab[j]))
             && (exists j :: 0 <= j < |syllab| && IsNasalLetter(syllab[j]))) ==>
      r.Some? && IsNasalLetter(syllab[r.value - 1])
      && forall j :: 0 <= j < r.value - 1 ==> !IsNasalLetter(syllab[j])
    ensures var r := AnchorEnd(syllab);
      r.None? <==> forall j :: 0 <= j < |syllab| ==> !IsVowel(syllab[j]) && !IsNasalLetter(syllab[j])
  {
  }

  /** `syllab[0:inspos] + mark + syllab[inspos:]`; a syllable with neither a
      vowel nor a nasal letter makes `re.search` return None and fails. */
  function InsertToneMark(syllab: string, mark: string): (r: Result<string>)
    ensures r.Ok? <==> AnchorEnd(syllab).Some?
    ensures r.Ok? ==> var p := AnchorEnd(syllab).value;
      r.value == syllab[..p] + mark + syllab[p..]
    ensures r.Ok? ==> |r.value| == |syllab| + |mark|
    ensures r.Err? ==> r.error == NoAnchor(syllab)
  {
    match AnchorEnd(syllab)
    case Some(p) => Ok(syllab[..p] + mark + syllab[p..])
    case None => Err(NoAnchor(syllab))
  }

  function Marks(s: Scheme): map<string, string>
    requires DiacriticTones(s)
  {
    if s.Duffus? then DuffusMarks() else TloMarks()
  }

  /** `Sinwz.syllable_tone`: a leading `i` becomes `j` and a leading `u`
      becomes `w` in a syllable longer than one letter. */
  function GlideRewrite(pre: string): (r: Result<string>)
    ensures r.Ok? <==> |pre| > 0
    ensures r.Ok? ==> |r.value| == |pre| && r.value[1..] == pre[1..]
    ensures r.Ok? ==> r.value[0] == (if |pre| > 1 && pre[0] == 'i' then 'j'
                                     else if |pre| > 1 && pre[0] == 'u' then 'w'
                                     else pre[0])
    ensures r.Err? ==> r.error == EmptySyllable
  {
    if |pre| == 0 then Err(EmptySyllable)
    else if pre[0] == 'i' && |pre| > 1 then Ok(pre[0 := 'j'])
    else if pre[0] == 'u' && |pre| > 1 then Ok(pre[0 := 'w'])
    else Ok(pre)
  }

  /** The list edit of `Sinwz.syllable_tone` (`pre[0] = "j"`), on the
      character list in place; `ok` is false where `pre[0]` raises. */
  method GlideRewriteInPlace(pre: array<char>) returns (ok: bool)
    modifies pre
    ensures ok <==> pre.Length > 0
    ensures ok ==> GlideRewrite(old(pre[..])) == Ok(pre[..])
    ensures !ok ==> pre[..] == old(pre[..])
  {
    if pre.Length == 0 {
      return false;
    }
    if pre[0] == 'i' && pre.Length > 1 {
      pre[0] := 'j';
    } else if pre[0] == 'u' && pre.Length > 1 {
      pre[0] := 'w';
    }
    assert pre[..] == old(pre[..])[0 := pre[0]];
    return true;
  }

  /** `Zapngou.syllable_tone`: the syllable in corner brackets, the null
      initial written 英. */
  function RimeSyllable(initial: Option<string>, rest: string): (r: string)
    ensures |r| >= 2 && r[0] == '【' && r[|r| - 1] == '】'
    ensures initial.None? ==> r == "【英" + rest + "】"
    ensures initial.Some? ==> r == "【" + initial.value + rest + "】"
  {
    if initial.None? then "【" + "英" + rest + "】"
    else "【" + initial.value + rest + "】"
  }

  function InitialPart(t: Tables, s: Scheme, syl: Syllable): Result<Option<string>> {
    if syl.initial.Some? then
      var x :- Initial(t, s, syl.initial.value);
      Ok(Some(x))
    else Ok(None)
  }

  /** `syllable_tone` / `syllable_toneless` */
  function SyllableText(t: Tables, s: Scheme, nfc: string -> string, syl: Syllable): Result<string> {
    var init :- InitialPart(t, s, syl);
    var fin :- FinalText(t, s, syl.final);
    match syl.tone
    case None =>
      (match s
       case Sinwz => GlideRewrite(StrOrNone(init) + fin)
       case Zapngou => Ok(RimeSyllable(init, fin))
       case _ => Ok(StrOrNone(init) + fin))
    case Some(tone) =>
      var tn :- ToneText(t, s, tone);
      if DiacriticTones(s) then
        // the insertion point is found before the mark is looked up
        var base := StrOrNone(init) + fin;
        if AnchorEnd(base).None? then Err(NoAnchor(base))
        else
          var mark :- Get(Marks(s), tn, MissingMark(tn));
          var marked :- InsertToneMark(base, mark);
          Ok(nfc(marked))
      else
        match s
        case Sinwz => GlideRewrite(StrOrNone(init) + fin + tn)
        case Zapngou => Ok(RimeSyllable(init, fin + tn))
        case _ => Ok(StrOrNone(init) + fin + tn)
  }

  /** the SYLLABLE_SEP token's callback */
  function SepText(s: Scheme, text: string): string {
    if Hyphenating(s) then "-" else text
  }

  function PartText(t: Tables, s: Scheme, nfc: string -> string, p: WordPart): Result<string> {
    match p
    case Syl(syl) => SyllableText(t, s, nfc, syl)
    case Sep(text) => Ok(SepText(s, text))
  }

  /** the rendered children of a word, in order */
  function PartsText(t: Tables, s: Scheme, nfc: string -> string, parts: seq<WordPart>): (r: Result<seq<string>>)
    ensures r.Ok? ==> |r.value| == |parts|
    ensures r.Ok? ==> forall i :: 0 <= i < |parts| ==> PartText(t, s, nfc, parts[i]) == Ok(r.value[i])
    ensures r.Err? <==> exists i :: 0 <= i < |parts| && PartText(t, s, nfc, parts[i]).Err?
  {
    if parts == [] then Ok([])
    else
      var first := PartText(t, s, nfc, parts[0]);
      var rest := PartsText(t, s, nfc, parts[1..]);
      if first.Err? then Err(first.error)
      else if rest.Err? then Err(rest.error)
      else
        Ok([first.value] + rest.value)
  }

  /** `word_sep` / `word_tone` */
  function WordText(t: Tables, s: Scheme, nfc: string -> string, parts: seq<WordPart>): Result<string> {
    var pieces :- PartsText(t, s, nfc, parts);
    if Hyphenating(s) then Ok(Join("-", Without(pieces, "-")))
    else if s.Zapngou? then Ok(Concat(Without(pieces, "-")))
    else Ok(Concat(pieces))
  }

  function ItemText(t: Tables, s: Scheme, nfc: string -> string, item: Item): Result<string> {
    match item
    case Word(parts) => WordText(t, s, nfc, parts)
    case Punct(text) => Ok(text)
  }

  /** `start` / `sentence`: the rendered items, concatenated */
  function SentenceText(t: Tables, s: Scheme, nfc: string -> string, sentence: Sentence): Result<string> {
    if sentence == [] then Ok("")
    else
      var first :- ItemText(t, s, nfc, sentence[0]);
      var rest :- SentenceText(t, s, nfc, sentence[1..]);
      Ok(first + rest)
  }
}
