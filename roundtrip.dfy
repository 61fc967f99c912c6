/** Reading back what the Tie-lo and Duffus renderers write: a syllable
    marked by `InsertToneMark` and read by `ParseDecomposed` gives the
    syllable and its tone again.  This is stated on the marked text before
    composition; composing and then decomposing it again (NFC, then NFD) is
    a parameter of the model and is assumed to give the same code points
    back. */
module RoundTrip {
  import opened Common
  import Teochew
  import Preprocess

  /** the input scheme that reads an output scheme's marks */
  function InputOf(s: Teochew.Scheme): Preprocess.Input
    requires Teochew.DiacriticTones(s)
  {
    if s.Duffus? then Preprocess.DuffusInput else Preprocess.TloInput
  }

  /** the tone a reader gets back for tone `d`: tone 1 for the unmarked
      tones 1, 4 and 0, tone 5 for the Tie-lo tone 8 whose circumflex it
      shares with tone 5, and `d` itself otherwise */
  function ReadBack(s: Teochew.Scheme, d: string): nat
    requires |d| == 1 && '0' <= d[0] <= '9'
  {
    if d in ["1", "4", "0"] then 1
    else if s.Tlo? && d == "8" then 5
    else (d[0] as int - '0' as int)
  }

  /** no tone mark of the scheme in the text */
  predicate Unmarked(marks: map<char, nat>, x: string) {
    forall k :: 0 <= k < |x| ==> x[k] !in marks
  }

  lemma {:induction false} TonesInAppend(marks: map<char, nat>, a: string, b: string)
    ensures Preprocess.TonesIn(marks, a + b) == Preprocess.TonesIn(marks, a) + Preprocess.TonesIn(marks, b)
  {
    if a == [] {
      assert a + b == b;
    } else {
      assert (a + b)[0] == a[0] && (a + b)[1..] == a[1..] + b;
      TonesInAppend(marks, a[1..], b);
    }
  }

  lemma {:induction false} UntonedAppend(marks: map<char, nat>, a: string, b: string)
    ensures Preprocess.Untoned(marks, a + b) == Preprocess.Untoned(marks, a) + Preprocess.Untoned(marks, b)
  {
    if a == [] {
      assert a + b == b;
    } else {
      assert (a + b)[0] == a[0] && (a + b)[1..] == a[1..] + b;
      UntonedAppend(marks, a[1..], b);
    }
  }

  /** A single mark is read as its tone and removed. */
  lemma SingleMark(marks: map<char, nat>, c: char)
    requires c in marks
    ensures Preprocess.TonesIn(marks, [c]) == [marks[c]]
    ensures Preprocess.Untoned(marks, [c]) == []
  {
    assert [c][1..] == [];
  }

  /** Text without marks has no tones and loses nothing. */
  lemma {:induction false} UnmarkedText(marks: map<char, nat>, x: string)
    requires Unmarked(marks, x)
    ensures Preprocess.TonesIn(marks, x) == [] && Preprocess.Untoned(marks, x) == x
  {
    if x != [] {
      assert Unmarked(marks, x[1..]) by {
        forall k | 0 <= k < |x[1..]| ensures x[1..][k] !in marks {
          assert x[1..][k] == x[k + 1];
        }
      }
      UnmarkedText(marks, x[1..]);
      assert x == [x[0]] + x[1..];
    }
  }

  /** Each mark of an output scheme is nothing, or one mark its input
      scheme reads as the tone `ReadBack` names. */
  lemma MarkIsRead(s: Teochew.Scheme, d: string)
    requires Teochew.DiacriticTones(s) && d in Teochew.Marks(s)
    ensures |d| == 1 && '0' <= d[0] <= '9'
    ensures var m := Teochew.Marks(s)[d];
      (m == "" <==> d in ["1", "4", "0"])
      && (m != "" ==> |m| == 1 && m[0] in Preprocess.ToneMarks(InputOf(s))
                      && Preprocess.ToneMarks(InputOf(s))[m[0]] == ReadBack(s, d))
  {
  }

  lemma UnmarkedSlices(marks: map<char, nat>, x: string, p: nat)
    requires p <= |x| && Unmarked(marks, x)
    ensures Unmarked(marks, x[..p]) && Unmarked(marks, x[p..])
  {
    forall k | 0 <= k < p ensures x[..p][k] !in marks {
      assert x[..p][k] == x[k];
    }
    forall k | 0 <= k < |x| - p ensures x[p..][k] !in marks {
      assert x[p..][k] == x[p + k];
    }
  }

  /** A mark of at most one character between unmarked text is what the
      reader finds, and removing it gives the text back. */
  lemma MarkedTextReads(marks: map<char, nat>, pre: string, m: string, post: string, n: nat)
    requires Preprocess.TonesIn(marks, pre) == [] && Preprocess.Untoned(marks, pre) == pre
    requires Preprocess.TonesIn(marks, post) == [] && Preprocess.Untoned(marks, post) == post
    requires m != "" ==> |m| == 1 && m[0] in marks && marks[m[0]] == n
    ensures Preprocess.TonesIn(marks, pre + m + post) == (if m == "" then [] else [n])
    ensures Preprocess.Untoned(marks, pre + m + post) == pre + post
  {
    var tm, um := Preprocess.TonesIn(marks, m), Preprocess.Untoned(marks, m);
    if m != "" {
      assert m == [m[0]];
      SingleMark(marks, m[0]);
    }
    assert tm == (if m == "" then [] else [n]) && um == [];
    var pm := pre + m;
    TonesInAppend(marks, pre, m);
    assert Preprocess.TonesIn(marks, pm) == [] + tm == tm;
    TonesInAppend(marks, pm, post);
    assert Preprocess.TonesIn(marks, pm + post) == tm + [] == tm;
    UntonedAppend(marks, pre, m);
    assert Preprocess.Untoned(marks, pm) == pre + [] == pre;
    UntonedAppend(marks, pm, post);
  }

  /** A mark inserted anywhere in unmarked text is what the reader finds,
      and removing it gives the text back. */
  lemma InsertedMarkReads(marks: map<char, nat>, syllab: string, p: nat, m: string, n: nat)
    requires p <= |syllab| && Unmarked(marks, syllab)
    requires m != "" ==> |m| == 1 && m[0] in marks && marks[m[0]] == n
    ensures Preprocess.TonesIn(marks, syllab[..p] + m + syllab[p..]) == (if m == "" then [] else [n])
    ensures Preprocess.Untoned(marks, syllab[..p] + m + syllab[p..]) == syllab
  {
    UnmarkedSlices(marks, syllab, p);
    UnmarkedText(marks, syllab[..p]);
    UnmarkedText(marks, syllab[p..]);
    MarkedTextReads(marks, syllab[..p], m, syllab[p..], n);
    assert syllab[..p] + syllab[p..] == syllab;
  }

  /** A marked syllable reads back as the syllable and its tone, or tone 1
      for tones 1, 4 and 0, and tone 5 for a Tie-lo tone 8. */
  lemma MarkReadsBack(s: Teochew.Scheme, syllab: string, d: string)
    requires Teochew.DiacriticTones(s) && d in Teochew.Marks(s)
    requires Teochew.AnchorEnd(syllab).Some?
    requires Unmarked(Preprocess.ToneMarks(InputOf(s)), syllab)
    ensures Teochew.InsertToneMark(syllab, Teochew.Marks(s)[d]).Ok?
    ensures |d| == 1 && '0' <= d[0] <= '9'
    ensures Preprocess.ParseDecomposed(InputOf(s), Teochew.InsertToneMark(syllab, Teochew.Marks(s)[d]).value)
         == (syllab, ReadBack(s, d))
  {
    var m := Teochew.Marks(s)[d];
    MarkIsRead(s, d);
    var p := Teochew.AnchorEnd(syllab).value;
    InsertedMarkReads(Preprocess.ToneMarks(InputOf(s)), syllab, p, m, ReadBack(s, d));
  }

  /** Every Duffus tone with a mark reads back as itself. */
  lemma DuffusReadsBack(syllab: string, d: string)
    requires d in ["2", "3", "5", "6", "7", "8"]
    requires Teochew.AnchorEnd(syllab).Some? && Unmarked(Preprocess.ToneMarks(Preprocess.DuffusInput), syllab)
    ensures Teochew.InsertToneMark(syllab, Teochew.Marks(Teochew.Duffus)[d]).Ok?
    ensures Preprocess.ParseDecomposed(Preprocess.DuffusInput, Teochew.InsertToneMark(syllab, Teochew.Marks(Teochew.Duffus)[d]).value)
         == (syllab, d[0] as int - '0' as int)
  {
    MarkReadsBack(Teochew.Duffus, syllab, d);
  }

  /** Two different Tie-lo tones may write the same text: tones 5 and 8
      share the circumflex. */
  lemma TloFiveAndEightCollide(syllab: string)
    requires Teochew.AnchorEnd(syllab).Some?
    ensures Teochew.InsertToneMark(syllab, Teochew.Marks(Teochew.Tlo)["5"])
         == Teochew.InsertToneMark(syllab, Teochew.Marks(Teochew.Tlo)["8"])
  {
  }

  /** A syllable carrying two marks is read as tone 1. */
  lemma TwoMarksReadAsToneOne()
    ensures Preprocess.ParseDecomposed(Preprocess.TloInput, "a\U{0301}\U{0300}") == ("a", 1)
  {
    var x := "a\U{0301}\U{0300}";
    assert x[0] !in Preprocess.ToneMarks(Preprocess.TloInput);
    assert x[1..][1..][1..] == [];
    assert x[1] in Preprocess.ToneMarks(Preprocess.TloInput) && x[2] in Preprocess.ToneMarks(Preprocess.TloInput);
    var marks := Preprocess.ToneMarks(Preprocess.TloInput);
    assert Preprocess.Untoned(marks, x[1..][1..][1..]) == [];
    assert Preprocess.Untoned(marks, x) == "a";
    assert |Preprocess.TonesIn(marks, x)| == 2;
  }
}
