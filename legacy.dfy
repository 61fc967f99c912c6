/** The legacy renderers of translit.py: Gengdang Pêng'im, Gaginang
    Peng'im, Tie-lo and Duffus with their spellings written into the
    renderer.  They take the same parse tree as the current renderers, with
    the tone digits themselves as the tone names, and apply no Unicode
    normalisation. */
module Legacy {
  import opened Common
  import opened Text
  import opened Tree
  import opened LegacyTables
  import Teochew

  datatype Scheme = Gdpi | Ggnn | Tlo | Duffus

  /** Tie-lo and Duffus mark tones with diacritics and write hyphens
      between syllables. */
  predicate Diacritic(s: Scheme) {
    s.Tlo? || s.Duffus?
  }

  function Name(s: Scheme): string {
    match s
    case Gdpi => "gdpi"
    case Ggnn => "ggnn"
    case Tlo => "tlo"
    case Duffus => "duffus"
  }

  /** The NASAL token's callback: a constant per scheme. */
  function NasalMarker(s: Scheme): (r: string)
    ensures s.Gdpi? ==> r == "n"
    ensures s.Ggnn? ==> r == "\U{00F1}"
    ensures s.Tlo? ==> r == "nn"
    ensures s.Duffus? ==> r == "\U{207F}"
  {
    match s
    case Gdpi => "n"
    case Ggnn => "\U{00F1}"
    case Tlo => "nn"
    case Duffus => "\U{207F}"
  }

  function Initials(s: Scheme): map<string, string> {
    match s
    case Gdpi => GdpiInitials()
    case Ggnn => GgnnInitials()
    case Tlo => TloInitials()
    case Duffus => DuffusInitials()
  }

  function Medials(s: Scheme): map<string, string> {
    match s
    case Gdpi => GdpiMedials()
    case Ggnn => GgnnMedials()
    case Tlo => TloMedials()
    case Duffus => DuffusMedials()
  }

  function Stops(s: Scheme): map<string, string> {
    match s
    case Gdpi => GdpiStops()
    case Ggnn => GgnnStops()
    case Tlo => TloStops()
    case Duffus => DuffusStops()
  }

  function NasalCodas(s: Scheme): map<string, string> {
    match s
    case Gdpi => GdpiNasalCodas()
    case Ggnn => GgnnNasalCodas()
    case Tlo => TloNasalCodas()
    case Duffus => DuffusNasalCodas()
  }

  function Marks(s: Scheme): map<string, string>
    requires Diacritic(s)
  {
    if s.Tlo? then TloMarks() else DuffusMarks()
  }

  function CodaText(s: Scheme, c: Coda): Result<string> {
    match c
    case NasalCoda(name) => Get(NasalCodas(s), name, MissingTerminal("codanasal", name, Name(s)))
    case StopCoda(name) => Get(Stops(s), name, MissingTerminal("codastops", name, Name(s)))
  }

  /** `final`: medial, nasal marker and coda, side by side */
  function FinalText(s: Scheme, f: Final): Result<string> {
    var m :- if f.medial.Some? then Get(Medials(s), f.medial.value, MissingTerminal("medial", f.medial.value, Name(s))) else Ok("");
    var c :- if f.coda.Some? then CodaText(s, f.coda.value) else Ok("");
    Ok(m + (if f.nasal.Some? then NasalMarker(s) else "") + c)
  }

  /** `tone`: the numeric schemes write `c` or `c(s)`, the diacritic schemes
      keep the citation tone only. */
  function ToneText(s: Scheme, tone: Tone): (r: string)
    ensures Diacritic(s) ==> r == tone.citation
    ensures !Diacritic(s) && tone.changed.None? ==> r == tone.citation
    ensures !Diacritic(s) && tone.changed.Some? ==> r == tone.citation + "(" + tone.changed.value + ")"
  {
    var items := if tone.changed.Some? then [tone.citation, tone.changed.value] else [tone.citation];
    if Diacritic(s) then items[0] else Teochew.NumericTone(items)
  }

  /** Where the legacy renderers put the tone mark: just after the first
      vowel letter or, in a syllable without one, after its first
      character. */
  function AnchorEnd(syllab: string): (r: Option<nat>)
    ensures r.None? <==> |syllab| == 0
    ensures r.Some? ==> 1 <= r.value <= |syllab|
    ensures (exists j :: 0 <= j < |syllab| && IsVowel(syllab[j])) ==>
      r.Some? && IsVowel(syllab[r.value - 1]) && forall j :: 0 <= j < r.value - 1 ==> !IsVowel(syllab[j])
    ensures |syllab| > 0 && (forall j :: 0 <= j < |syllab| ==> !IsVowel(syllab[j])) ==> r == Some(1)
  {
    match FirstWhere(syllab, IsVowel)
    case Some(i) => Some(i + 1)
    case None => if |syllab| == 0 then None else Some(1)
  }

  /** `syllable_tone` of Tie-lo and Duffus.  In a syllable with no vowel,
      `syllab[0]` is taken before the mark is looked up, so an empty
      syllable fails on the index first. */
  function MarkSyllable(s: Scheme, syllab: string, tn: string): (r: Result<string>)
    requires Diacritic(s)
    ensures r.Ok? <==> |syllab| > 0 && tn in Marks(s)
    ensures r.Ok? ==> var p := AnchorEnd(syllab).value;
      r.value == syllab[..p] + Marks(s)[tn] + syllab[p..]
    ensures |syllab| == 0 ==> r == Err(EmptySyllable)
    ensures |syllab| > 0 && tn !in Marks(s) ==> r == Err(MissingMark(tn))
  {
    match FirstWhere(syllab, IsVowel)
    case Some(i) =>
      var mark :- Get(Marks(s), tn, MissingMark(tn));
      Ok(syllab[..i + 1] + mark + syllab[i + 1..])
    case None =>
      if |syllab| == 0 then Err(EmptySyllable)
      else
        var mark :- Get(Marks(s), tn, MissingMark(tn));
        Ok(syllab[..1] + mark + syllab[1..])
  }

  /** `syllable_tone` / `syllable_toneless` */
  function SyllableText(s: Scheme, syl: Syllable): Result<string> {
    var init :- if syl.initial.Some? then Get(Initials(s), syl.initial.value, MissingTerminal("initial", syl.initial.value, Name(s))) else Ok("");
    var fin :- FinalText(s, syl.final);
    match syl.tone
    case None => Ok(init + fin)
    case Some(tone) =>
      var tn := ToneText(s, tone);
      if Diacritic(s) then MarkSyllable(s, init + fin, tn) else Ok(init + fin + tn)
  }

  function SepText(s: Scheme, text: string): string {
    if Diacritic(s) then "-" else text
  }

  function PartText(s: Scheme, p: WordPart): Result<string> {
    match p
    case Syl(syl) => SyllableText(s, syl)
    case Sep(text) => Ok(SepText(s, text))
  }

  function PartsText(s: Scheme, parts: seq<WordPart>): (r: Result<seq<string>>)
    ensures r.Ok? ==> |r.value| == |parts|
    ensures r.Ok? ==> forall i :: 0 <= i < |parts| ==> PartText(s, parts[i]) == Ok(r.value[i])
    ensures r.Err? <==> exists i :: 0 <= i < |parts| && PartText(s, parts[i]).Err?
  {
    if parts == [] then Ok([])
    else
      var first := PartText(s, parts[0]);
      var rest := PartsText(s, parts[1..]);
      if first.Err? then Err(first.error)
      else if rest.Err? then Err(rest.error)
      else Ok([first.value] + rest.value)
  }

  /** `word_sep` */
  function WordText(s: Scheme, parts: seq<WordPart>): Result<string> {
    var pieces :- PartsText(s, parts);
    if Diacritic(s) then Ok(Join("-", Without(pieces, "-"))) else Ok(Concat(pieces))
  }

  function ItemText(s: Scheme, item: Item): Result<string> {
    match item
    case Word(parts) => WordText(s, parts)
    case Punct(text) => Ok(text)
  }

  /** `sentence` */
  function SentenceText(s: Scheme, sentence: Sentence): Result<string> {
    if sentence == [] then Ok("")
    else
      var first :- ItemText(s, sentence[0]);
      var rest :- SentenceText(s, sentence[1..]);
      Ok(first + rest)
  }
}
