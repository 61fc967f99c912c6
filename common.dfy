/** Values shared by every part of the transliterator: optional values, the
    failure-compatible result of a rendering step, the error taxonomy, and the
    few string operations the Python code uses through `str.join`. */
module Common {

  datatype Option<+T> = None | Some(value: T)

  /** The ways one conversion can fail.  Each constructor stands for the Python
      exception the source raises at that point. */
  datatype Error =
    /** `TERMINALS[which]` or `MERGERS[which]` on a category the tables lack */
    | MissingCategory(category: string)
    /** `trdict[...]` on a symbolic name with neither a direct nor a merged spelling */
    | MissingTerminal(category: string, name: string, system: string)
    /** a merger entry of the system whose target has no direct spelling */
    | BrokenMerger(category: string, system: string)
    /** a tone spelling that is not a key of a diacritic scheme's mark table */
    | MissingMark(tone: string)
    /** `re.search` found neither a vowel nor a nasal to carry the tone mark */
    | NoAnchor(syllable: string)
    /** indexing the first character of an empty syllable */
    | EmptySyllable
    /** a rendered final lacks the part that the Yale spelling indexes */
    | MissingPart(part: string)
    /** a tone rule for which the renderer has no callback */
    | UnknownTone(name: string)
    /** Yale cannot spell a syllable without a tone */
    | Unrepresentable
    /** a callback whose behaviour this model does not capture */
    | NotModelled(what: string)

  datatype Result<+T> = Ok(value: T) | Err(error: Error) {
    predicate IsFailure() { Err? }

    function PropagateFailure<U>(): Result<U>
      requires Err?
    {
      Err(error)
    }

    function Extract(): T
      requires Ok?
    {
      value
    }
  }

  /** `m[k]` on a dictionary, raising `e` when the key is absent */
  function Get(m: map<string, string>, k: string, e: Error): (r: Result<string>)
    ensures r.Ok? <==> k in m
    ensures r.Ok? ==> r.value == m[k]
    ensures r.Err? ==> r.error == e
  {
    if k in m then Ok(m[k]) else Err(e)
  }

  /** `str_or_None`: a null initial contributes the empty string. */
  function StrOrNone(s: Option<string>): (r: string)
    ensures s.None? ==> r == ""
    ensures s.Some? ==> r == s.value
  {
    match s
    case None => ""
    case Some(v) => v
  }

  /** `"".join(parts)` */
  function Concat(parts: seq<string>): (r: string)
    ensures parts == [] ==> r == ""
  {
    if parts == [] then "" else parts[0] + Concat(parts[1..])
  }

  /** `sep.join(parts)` */
  function Join(sep: string, parts: seq<string>): (r: string)
    ensures |parts| == 1 ==> r == parts[0]
  {
    if parts == [] then ""
    else if |parts| == 1 then parts[0]
    else parts[0] + sep + Join(sep, parts[1..])
  }

  /** `[i for i in parts if i != x]`: every occurrence of `x` is dropped and
      every other element kept as often as it occurs */
  function Without(parts: seq<string>, x: string): (r: seq<string>)
    ensures forall i :: 0 <= i < |r| ==> r[i] != x
    ensures |r| <= |parts|
    ensures multiset(r) == multiset(parts)[x := 0]
  {
    if parts == [] then []
    else
      assert parts == [parts[0]] + parts[1..];
      assert multiset(parts) == multiset{parts[0]} + multiset(parts[1..]);
      if parts[0] == x then Without(parts[1..], x)
      else [parts[0]] + Without(parts[1..], x)
  }

  lemma {:induction false} ConcatAppend(a: seq<string>, b: seq<string>)
    ensures Concat(a + b) == Concat(a) + Concat(b)
  {
    if a == [] {
      assert a + b == b;
    } else {
      assert (a + b)[1..] == a[1..] + b;
      ConcatAppend(a[1..], b);
    }
  }

  /** The filter keeps the order: filtering a concatenation filters each
      half, and a single element is kept exactly when it is not `x`. */
  lemma {:induction false} WithoutAppend(a: seq<string>, b: seq<string>, x: string)
    ensures Without(a + b, x) == Without(a, x) + Without(b, x)
    ensures forall y :: Without([y], x) == (if y == x then [] else [y])
  {
    if a != [] {
      var ab := a + b;
      assert ab[0] == a[0] && ab[1..] == a[1..] + b;
      WithoutAppend(a[1..], b, x);
      if a[0] != x {
        assert Without(ab, x) == [a[0]] + (Without(a[1..], x) + Without(b, x));
      }
    } else {
      assert a + b == b;
    }
    forall y ensures Without([y], x) == (if y == x then [] else [y]) {
      WithoutSingle(y, x);
    }
  }

  lemma WithoutSingle(y: string, x: string)
    ensures Without([y], x) == (if y == x then [] else [y])
  {
    assert [y][1..] == [];
  }

  lemma {:induction false} WithoutAbsent(parts: seq<string>, x: string)
    requires forall i :: 0 <= i < |parts| ==> parts[i] != x
    ensures Without(parts, x) == parts
  {
    if parts != [] {
      WithoutAbsent(parts[1..], x);
    }
  }

  /** Joining with a separator puts exactly one separator between neighbours:
      the result is the first part followed, for every later part, by the
      separator and that part. */
  lemma {:induction false} JoinUnfolds(sep: string, parts: seq<string>)
    requires |parts| > 0
    ensures Join(sep, parts) == parts[0] + Concat(Interleave(sep, parts[1..]))
  {
    if |parts| == 1 {
      assert parts[1..] == [];
    } else {
      JoinUnfolds(sep, parts[1..]);
      assert parts[1..][1..] == parts[2..];
      assert Interleave(sep, parts[1..]) == [sep + parts[1]] + Interleave(sep, parts[2..]);
      assert Concat(Interleave(sep, parts[1..])) == sep + parts[1] + Concat(Interleave(sep, parts[2..]));
    }
  }

  /** each part preceded by the separator */
  function Interleave(sep: string, parts: seq<string>): (r: seq<string>)
    ensures |r| == |parts|
    ensures forall i :: 0 <= i < |parts| ==> r[i] == sep + parts[i]
  {
    if parts == [] then [] else [sep + parts[0]] + Interleave(sep, parts[1..])
  }
}
