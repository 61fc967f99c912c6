/** The parse tree the grammar produces and every renderer consumes.

    Symbolic names (`INIT_K`, `MED_A`, `COD_NG`, `tone_2`, ...) are kept as
    strings: they are the terminal alphabet shared by all schemes of one
    language.  A final whose coda is a stop is the grammar's `final_entering`
    and its tone the grammar's `tone_entering`. */
module Tree {
  import opened Common

  datatype Coda = NasalCoda(name: string) | StopCoda(name: string)

  /** `nasal` holds the text of the NASAL token (the nasalisation marker)
      as it stood in the input. */
  datatype Final = Final(medial: Option<string>, nasal: Option<string>, coda: Option<Coda>) {
    predicate Entering() {
      coda.Some? && coda.value.StopCoda?
    }
  }

  /** A citation tone and, when the input marks one, the changed tone.
      The names are tone rules (`tone_1`, ...) in the current renderers and
      the tone digits themselves in the legacy ones. */
  datatype Tone = Tone(citation: string, changed: Option<string>)

  datatype Syllable = Syllable(initial: Option<string>, final: Final, tone: Option<Tone>)

  /** Inside a word: a syllable or a SYLLABLE_SEP token (its text). */
  datatype WordPart = Syl(syllable: Syllable) | Sep(text: string)

  /** A sentence holds words and the punctuation and space tokens between them. */
  datatype Item = Word(parts: seq<WordPart>) | Punct(text: string)

  type Sentence = seq<Item>

  /** the syllables of a word, separators dropped */
  function Syllables(parts: seq<WordPart>): (r: seq<Syllable>)
    ensures |r| <= |parts|
  {
    if parts == [] then []
    else match parts[0]
      case Syl(s) => [s] + Syllables(parts[1..])
      case Sep(_) => Syllables(parts[1..])
  }
}
