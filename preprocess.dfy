/** The text processing around the parser in src/parsetc/parsetc.py:
    reading a tone diacritic back as a tone number, `preprocess`, and the
    superscripting of tone digits after rendering.  Canonical decomposition
    (NFD) is a parameter. */
module Preprocess {
  import opened Common
  import opened Text

  // ------------------------------------------------ diacritics to numbers

  datatype Input = TloInput | DuffusInput

  /** The tone numbers of the combining marks each scheme reads.  Tie-lo
      also takes the caron for tone 6, as it is often typed for the breve;
      Duffus takes the vertical line above or the dot above for tone 8. */
  function ToneMarks(s: Input): map<char, nat> {
    match s
    case TloInput =>
      map['\U{0301}' := 2, '\U{0300}' := 3, '\U{0302}' := 5, '\U{0306}' := 6, '\U{030C}' := 6, '\U{0304}' := 7]
    case DuffusInput =>
      map['\U{0301}' := 2, '\U{0300}' := 3, '\U{0302}' := 5, '\U{0303}' := 6, '\U{0304}' := 7,
          '\U{030D}' := 8, '\U{0307}' := 8]
  }

  /** Every tone a mark stands for is 2, 3, 5, 6, 7 or 8. */
  lemma ToneMarkValues(s: Input)
    ensures forall c :: c in ToneMarks(s) ==> 2 <= ToneMarks(s)[c] <= 8 && ToneMarks(s)[c] != 4
  {
  }

  /** `[tonemarks[system][i] for i in decomp if i in tonemarks[system]]` */
  function TonesIn(marks: map<char, nat>, decomp: string): (r: seq<nat>)
    ensures |r| <= |decomp|
    ensures forall k :: 0 <= k < |r| ==> r[k] in marks.Values
  {
    if decomp == [] then []
    else if decomp[0] in marks then [marks[decomp[0]]] + TonesIn(marks, decomp[1..])
    else TonesIn(marks, decomp[1..])
  }

  /** `[chr(i) for i in decomp if i not in tonemarks[system]]` */
  function Untoned(marks: map<char, nat>, decomp: string): (r: string)
    ensures |r| <= |decomp|
    ensures forall k :: 0 <= k < |r| ==> r[k] !in marks
  {
    if decomp == [] then []
    else if decomp[0] in marks then Untoned(marks, decomp[1..])
    else [decomp[0]] + Untoned(marks, decomp[1..])
  }

  /** Base string and tone of a decomposed syllable, as
      `diacritics_syllable_parse` computes them after its NFD step: the
      tone of the single tone mark present, or tone 1 when there is none or
      more than one. */
  function ParseDecomposed(s: Input, decomp: string): (r: (string, nat))
    ensures 1 <= r.1 <= 8 && r.1 != 4
    ensures |TonesIn(ToneMarks(s), decomp)| == 1 ==> r.1 == TonesIn(ToneMarks(s), decomp)[0]
    ensures |TonesIn(ToneMarks(s), decomp)| != 1 ==> r.1 == 1
    ensures r.0 == Untoned(ToneMarks(s), decomp)
  {
    var tones := TonesIn(ToneMarks(s), decomp);
    ToneMarkValues(s);
    (Untoned(ToneMarks(s), decomp), if |tones| == 1 then tones[0] else 1)
  }

  /** `diacritics_syllable_parse(syllable, system)` */
  function DiacriticsSyllableParse(s: Input, nfd: string -> string, syllable: string): (string, nat) {
    ParseDecomposed(s, nfd(syllable))
  }

  /** `str(tone)` for a tone number */
  function Digit(n: nat): (c: char)
    requires n <= 9
    ensures '0' <= c <= '9' && c as int - '0' as int == n
  {
    ('0' as int + n) as char
  }

  // ------------------------------------------------------------ splitting

  // The splitting is stated for any character class `sep`; `preprocess`
  // uses `IsSeparator`.

  /** length of the longest prefix of `s` without a separator */
  function WordLength(s: string, sep: char -> bool): (n: nat)
    ensures n <= |s|
  {
    if s == [] || sep(s[0]) then 0 else 1 + WordLength(s[1..], sep)
  }

  /** length of the longest prefix of `s` made of separators */
  function RunLength(s: string, sep: char -> bool): (n: nat)
    ensures n <= |s|
  {
    if s == [] || !sep(s[0]) then 0 else 1 + RunLength(s[1..], sep)
  }

  /** The word is the longest prefix without a separator. */
  lemma {:induction false} WordLengthMaximal(s: string, sep: char -> bool)
    ensures var n := WordLength(s, sep);
      NoSeparator(s[..n], sep) && (n < |s| ==> sep(s[n]))
  {
    if s != [] && !sep(s[0]) {
      WordLengthMaximal(s[1..], sep);
      var n := WordLength(s, sep);
      forall k | 0 <= k < n ensures !sep(s[..n][k]) {
        if k > 0 { assert s[..n][k] == s[1..][..n - 1][k - 1]; }
      }
    }
  }

  /** The run is the longest prefix of separators. */
  lemma {:induction false} RunLengthMaximal(s: string, sep: char -> bool)
    ensures var n := RunLength(s, sep);
      (forall k :: 0 <= k < n ==> sep(s[k])) && (n < |s| ==> !sep(s[n]))
  {
    if s != [] && sep(s[0]) {
      RunLengthMaximal(s[1..], sep);
      var n := RunLength(s, sep);
      forall k | 0 <= k < n ensures sep(s[k]) {
        if k > 0 { assert s[k] == s[1..][k - 1]; }
      }
    }
  }

  /** `re.split(r"([\s,\.\'\"\?\!\-]+)", text)` for the class `sep`: the
      chunks between maximal runs of separators, with the runs themselves
      kept in between. */
  function SplitRuns(text: string, sep: char -> bool): (r: seq<string>)
    ensures |r| >= 1
    decreases |text|
  {
    var i := WordLength(text, sep);
    if i == |text| then [text]
    else
      var j := i + RunLength(text[i..], sep);
      [text[..i], text[i..j]] + SplitRuns(text[j..], sep)
  }

  predicate IsRun(x: string, sep: char -> bool) {
    |x| > 0 && forall k :: 0 <= k < |x| ==> sep(x[k])
  }

  predicate NoSeparator(x: string, sep: char -> bool) {
    forall k :: 0 <= k < |x| ==> !sep(x[k])
  }

  /** one step of the split: a chunk and a run, then the split of the rest */
  lemma SplitRunsStep(text: string, sep: char -> bool) returns (i: nat, j: nat)
    ensures i == WordLength(text, sep) && i <= j <= |text|
    ensures i == |text| ==> SplitRuns(text, sep) == [text]
    ensures i < |text| ==> (j == i + RunLength(text[i..], sep)
                            && SplitRuns(text, sep) == [text[..i], text[i..j]] + SplitRuns(text[j..], sep))
  {
    i := WordLength(text, sep);
    j := if i < |text| then i + RunLength(text[i..], sep) else i;
  }


  lemma {:induction false} SplitRunsLength(text: string, sep: char -> bool) returns (runs: nat)
    ensures |SplitRuns(text, sep)| == 2 * runs + 1
    decreases |text|
  {
    var i := WordLength(text, sep);
    if i == |text| {
      runs := 0;
    } else {
      var j := i + RunLength(text[i..], sep);
      var tail := SplitRuns(text[j..], sep);
      var more := SplitRunsLength(text[j..], sep);
      assert SplitRuns(text, sep) == [text[..i], text[i..j]] + tail;
      runs := more + 1;
    }
  }

  /** The split has an odd number of pieces: chunks, with runs between. */
  lemma SplitRunsOdd(text: string, sep: char -> bool)
    ensures |SplitRuns(text, sep)| % 2 == 1
  {
    var runs := SplitRunsLength(text, sep);
  }

  /** The split loses nothing: joining the pieces gives the text back. */
  lemma ConcatPair(a: string, b: string, tail: seq<string>)
    ensures Concat([a, b] + tail) == a + b + Concat(tail)
  {
    var l := [a, b] + tail;
    assert l[0] == a && l[1..][0] == b && l[1..][1..] == tail;
  }

  lemma {:induction false} SplitRunsConcat(text: string, sep: char -> bool)
    ensures Concat(SplitRuns(text, sep)) == text
    decreases |text|
  {
    var i := WordLength(text, sep);
    if i < |text| {
      var j := i + RunLength(text[i..], sep);
      var tail := SplitRuns(text[j..], sep);
      assert SplitRuns(text, sep) == [text[..i], text[i..j]] + tail;
      SplitRunsConcat(text[j..], sep);
      ConcatPair(text[..i], text[i..j], tail);
      assert text[..i] + text[i..j] + text[j..] == text;
    }
  }

  /** The first two pieces of a split with a separator in it are a chunk
      without a separator and a non-empty run. */
  lemma HeadPieces(text: string, sep: char -> bool, i: nat, j: nat)
    requires i == WordLength(text, sep) < |text| && j == i + RunLength(text[i..], sep)
    ensures NoSeparator(text[..i], sep) && IsRun(text[i..j], sep)
  {
    WordLengthMaximal(text, sep);
    RunLengthMaximal(text[i..], sep);
    assert sep(text[i]);
    forall k | 0 <= k < j - i ensures sep(text[i..j][k]) {
      assert text[i..j][k] == text[i..][k];
    }
  }

  /** The shape of a split: a chunk without a separator, then pairs of a
      non-empty run and a chunk, where every chunk but the last that follows
      a run is non-empty. */
  predicate Alternating(p: seq<string>, sep: char -> bool)
    decreases |p|
  {
    |p| >= 1 && NoSeparator(p[0], sep)
    && (|p| == 1 || (|p| >= 3 && IsRun(p[1], sep) && (|p| > 3 ==> p[2] != "") && Alternating(p[2..], sep)))
  }

  /** the chunk after the first run, when another run follows it */
  lemma SecondChunkNonEmpty(text: string, sep: char -> bool, i: nat, j: nat)
    requires i == WordLength(text, sep) < |text| && j == i + RunLength(text[i..], sep)
    requires |SplitRuns(text[j..], sep)| > 1
    ensures SplitRuns(text[j..], sep)[0] != ""
  {
    var rest := text[j..];
    var w := WordLength(rest, sep);
    assert w < |rest|;
    assert SplitRuns(rest, sep)[0] == rest[..w];
    RunLengthMaximal(text[i..], sep);
    assert text[i..][j - i] == rest[0];
  }

  lemma {:induction false} SplitRunsAlternating(text: string, sep: char -> bool)
    ensures Alternating(SplitRuns(text, sep), sep)
    decreases |text|
  {
    var i, j := SplitRunsStep(text, sep);
    if i < |text| {
      var tail := SplitRuns(text[j..], sep);
      assert Alternating(tail, sep) by {
        SplitRunsAlternating(text[j..], sep);
      }
      assert NoSeparator(text[..i], sep) && IsRun(text[i..j], sep) by {
        HeadPieces(text, sep, i, j);
      }
      assert |tail| > 1 ==> tail[0] != "" by {
        if |tail| > 1 {
          SecondChunkNonEmpty(text, sep, i, j);
        }
      }
      assert SplitRuns(text, sep)[2..] == tail;
    } else {
      WordLengthMaximal(text, sep);
      assert text[..i] == text;
    }
  }

  /** In an alternating list, piece `2 * m` is a chunk, piece `2 * m + 1` a
      run, and an interior chunk is non-empty. */
  lemma {:induction false} AlternatingAt(p: seq<string>, sep: char -> bool, m: nat)
    requires Alternating(p, sep) && 2 * m < |p|
    ensures NoSeparator(p[2 * m], sep)
    ensures 2 * m + 1 < |p| ==> IsRun(p[2 * m + 1], sep)
    ensures 0 < 2 * m < |p| - 1 ==> p[2 * m] != ""
  {
    if m > 0 {
      AlternatingAt(p[2..], sep, m - 1);
      assert p[2 * m] == p[2..][2 * (m - 1)];
      if 2 * m + 1 < |p| {
        assert p[2 * m + 1] == p[2..][2 * (m - 1) + 1];
      }
    }
  }

  /** The split alternates between chunks without a separator (even
      positions) and non-empty separator runs (odd positions). */
  lemma SplitRunsAlternate(text: string, sep: char -> bool)
    ensures forall k :: 0 <= k < |SplitRuns(text, sep)| && k % 2 == 0 ==> NoSeparator(SplitRuns(text, sep)[k], sep)
    ensures forall k :: 0 <= k < |SplitRuns(text, sep)| && k % 2 == 1 ==> IsRun(SplitRuns(text, sep)[k], sep)
  {
    var p := SplitRuns(text, sep);
    SplitRunsAlternating(text, sep);
    forall k | 0 <= k < |p|
      ensures (k % 2 == 0 ==> NoSeparator(p[k], sep)) && (k % 2 == 1 ==> IsRun(p[k], sep))
    {
      AlternatingAt(p, sep, k / 2);
    }
  }

  /** The runs are maximal: only the first and the last chunk can be empty,
      so two runs never stand next to each other. */
  lemma SplitRunsMaximal(text: string, sep: char -> bool)
    ensures forall k :: 0 < k < |SplitRuns(text, sep)| - 1 && k % 2 == 0 ==> SplitRuns(text, sep)[k] != ""
  {
    var p := SplitRuns(text, sep);
    SplitRunsAlternating(text, sep);
    forall k | 0 < k < |p| - 1 && k % 2 == 0 ensures p[k] != "" {
      AlternatingAt(p, sep, k / 2);
    }
  }

  // ------------------------------------------------------------ preprocess

  /** what `preprocess` appends for one element of the split */
  function ConvertElement(s: Input, nfd: string -> string, elem: string): string {
    if elem != "" && !(|elem| > 0 && IsSeparator(elem[0])) then
      var p := DiacriticsSyllableParse(s, nfd, elem);
      p.0 + [Digit(p.1)]
    else elem
  }

  function ConvertAll(s: Input, nfd: string -> string, elems: seq<string>): (r: seq<string>)
    ensures |r| == |elems|
    ensures forall k :: 0 <= k < |elems| ==> r[k] == ConvertElement(s, nfd, elems[k])
  {
    if elems == [] then [] else [ConvertElement(s, nfd, elems[0])] + ConvertAll(s, nfd, elems[1..])
  }

  /** `preprocess(text, system)`: lower-cased text, and for a diacritic
      input scheme every syllable chunk replaced by its base letters and
      tone number.  `diacritic` is `None` for the other input schemes. */
  function PreprocessText(text: string, diacritic: Option<Input>, nfd: string -> string): string {
    var low := Lower(text);
    if diacritic.None? then low
    else Concat(ConvertAll(diacritic.value, nfd, SplitRuns(low, IsSeparator)))
  }

  /** `preprocess`, with its loop over the split that appends to `out`. */
  method Preprocess(text: string, diacritic: Option<Input>, nfd: string -> string) returns (r: string)
    ensures r == PreprocessText(text, diacritic, nfd)
  {
    var low := Lower(text);
    if diacritic.None? {
      return low;
    }
    var elems := SplitRuns(low, IsSeparator);
    var out: seq<string> := [];
    for k := 0 to |elems|
      invariant out == ConvertAll(diacritic.value, nfd, elems[..k])
    {
      var elem := elems[k];
      if elem != "" && !IsSeparator(elem[0]) {
        var p := DiacriticsSyllableParse(diacritic.value, nfd, elem);
        out := out + [p.0 + [Digit(p.1)]];
      } else {
        out := out + [elem];
      }
      assert elems[..k + 1] == elems[..k] + [elems[k]];
      ConvertAllAppend(diacritic.value, nfd, elems[..k], elems[k]);
    }
    assert elems[..|elems|] == elems;
    return Concat(out);
  }

  lemma {:induction false} ConvertAllAppend(s: Input, nfd: string -> string, elems: seq<string>, e: string)
    ensures ConvertAll(s, nfd, elems + [e]) == ConvertAll(s, nfd, elems) + [ConvertElement(s, nfd, e)]
  {
    var l := ConvertAll(s, nfd, elems + [e]);
    var r := ConvertAll(s, nfd, elems) + [ConvertElement(s, nfd, e)];
    assert |l| == |r|;
    forall k | 0 <= k < |l| ensures l[k] == r[k] {
      assert (elems + [e])[k] == if k < |elems| then elems[k] else e;
    }
  }

  /** A syllable chunk comes out of `preprocess` as its base letters, marks
      removed, followed by exactly one tone digit between 1 and 8. */
  lemma ChunkGainsDigit(s: Input, nfd: string -> string, elem: string)
    requires elem != "" && NoSeparator(elem, IsSeparator)
    ensures var out := ConvertElement(s, nfd, elem);
      |out| >= 1 && '1' <= out[|out| - 1] <= '8' && out[..|out| - 1] == Untoned(ToneMarks(s), nfd(elem))
  {
    var p := DiacriticsSyllableParse(s, nfd, elem);
    var out := ConvertElement(s, nfd, elem);
    assert !IsSeparator(elem[0]);
    assert out == p.0 + [Digit(p.1)];
    assert out[..|out| - 1] == p.0;
  }

  /** Separator runs come through `preprocess` unchanged and every other
      non-empty chunk gains exactly one tone digit; the converted pieces
      line up with the split of the lower-cased text. */
  lemma PreprocessPieces(text: string, s: Input, nfd: string -> string)
    ensures PreprocessText(text, Some(s), nfd) == Concat(ConvertAll(s, nfd, SplitRuns(Lower(text), IsSeparator)))
    ensures var elems := SplitRuns(Lower(text), IsSeparator);
      forall k :: 0 <= k < |elems| && k % 2 == 1 ==> ConvertAll(s, nfd, elems)[k] == elems[k]
    ensures var elems := SplitRuns(Lower(text), IsSeparator);
      forall k :: 0 <= k < |elems| && k % 2 == 0 && elems[k] != "" ==>
        var out := ConvertAll(s, nfd, elems)[k];
        |out| >= 1 && '1' <= out[|out| - 1] <= '8' && out[..|out| - 1] == Untoned(ToneMarks(s), nfd(elems[k]))
  {
    var elems := SplitRuns(Lower(text), IsSeparator);
    SplitRunsAlternate(Lower(text), IsSeparator);
    forall k | 0 <= k < |elems| && k % 2 == 1 ensures ConvertAll(s, nfd, elems)[k] == elems[k] {
      assert IsRun(elems[k], IsSeparator);
    }
    forall k | 0 <= k < |elems| && k % 2 == 0 && elems[k] != ""
      ensures var out := ConvertAll(s, nfd, elems)[k];
        |out| >= 1 && '1' <= out[|out| - 1] <= '8' && out[..|out| - 1] == Untoned(ToneMarks(s), nfd(elems[k]))
    {
      ChunkGainsDigit(s, nfd, elems[k]);
    }
  }

  /** For the other input schemes `preprocess` only lower-cases. */
  lemma PreprocessPlain(text: string, nfd: string -> string)
    ensures PreprocessText(text, None, nfd) == Lower(text)
    ensures Lower(PreprocessText(text, None, nfd)) == PreprocessText(text, None, nfd)
  {
    LowerIdempotent(text);
  }

  // --------------------------------------------------------- superscripts

  /** the substitution table of `transliterate`, in its order */
  function SuperscriptTable(): seq<(char, char)> {
    [('1', '\U{00B9}'), ('2', '\U{00B2}'), ('3', '\U{00B3}'), ('4', '\U{2074}'), ('5', '\U{2075}'),
     ('6', '\U{2076}'), ('7', '\U{2077}'), ('8', '\U{2078}'), ('0', '\U{2070}')]
  }

  /** a tone digit's superscript form, and nothing else changed */
  function SuperChar(c: char): (r: char)
    ensures r != c <==> '0' <= c <= '8'
    ensures forall k :: 0 <= k < |SuperscriptTable()| && SuperscriptTable()[k].0 == c ==> r == SuperscriptTable()[k].1
  {
    if c == '1' then '\U{00B9}'
    else if c == '2' then '\U{00B2}'
    else if c == '3' then '\U{00B3}'
    else if '4' <= c <= '8' then (c as int - '4' as int + 0x2074) as char
    else if c == '0' then '\U{2070}'
    else c
  }

  /** the whole text with every tone digit superscripted at once */
  function Superscript(s: string): (r: string)
    ensures |r| == |s|
    ensures forall i :: 0 <= i < |s| ==> r[i] == SuperChar(s[i])
  {
    seq(|s|, i requires 0 <= i < |s| => SuperChar(s[i]))
  }

  /** `str.replace` of one character by another */
  function ReplaceChar(s: string, a: char, b: char): (r: string)
    ensures |r| == |s|
    ensures forall i :: 0 <= i < |s| ==> r[i] == (if s[i] == a then b else s[i])
  {
    seq(|s|, i requires 0 <= i < |s| => if s[i] == a then b else s[i])
  }

  /** A character after the first `k` replacements of the loop. */
  function AfterSteps(c: char, k: nat): char
    requires k <= |SuperscriptTable()|
  {
    if exists j :: 0 <= j < k && SuperscriptTable()[j].0 == c then SuperChar(c) else c
  }

  /** The loop `for num in subst: out = out.replace(num, subst[num])`.
      Replacing one digit at a time gives the simultaneous substitution,
      because no superscript form is a digit that a later step replaces. */
  method SuperscriptTones(text: string) returns (out: string)
    ensures out == Superscript(text)
  {
    var table := SuperscriptTable();
    out := text;
    for k := 0 to |table|
      invariant |out| == |text|
      invariant forall i :: 0 <= i < |text| ==> out[i] == AfterSteps(text[i], k)
    {
      out := ReplaceChar(out, table[k].0, table[k].1);
      forall i | 0 <= i < |text| ensures out[i] == AfterSteps(text[i], k + 1) {
        var c := text[i];
        if exists j :: 0 <= j < k && table[j].0 == c {
          assert SuperChar(c) != table[k].0;
        } else if table[k].0 == c {
          assert table[k].1 == SuperChar(c);
        }
      }
    }
    forall i | 0 <= i < |text| ensures out[i] == SuperChar(text[i]) {
      var c := text[i];
      if '0' <= c <= '8' {
        assert c == table[if c == '0' then 8 else c as int - '1' as int].0;
      }
    }
  }

  /** Superscripting is idempotent, leaves `9` and every other character
      alone, and keeps the length. */
  lemma SuperscriptIdempotent(s: string)
    ensures Superscript(Superscript(s)) == Superscript(s)
    ensures forall i :: 0 <= i < |s| && !('0' <= s[i] <= '8') ==> Superscript(s)[i] == s[i]
    ensures forall i :: 0 <= i < |s| && '0' <= s[i] <= '8' ==> !('0' <= Superscript(s)[i] <= '9')
  {
  }
}
