/** Character classes and the index scans that stand in for the regular
    expressions of the source (`re.search(r"[aeiou]", ...)`, the separator
    class of `preprocess`, `str.lower`). */
module Text {
  import opened Common

  /** the class `[aeiou]` */
  predicate IsVowel(c: char) {
    c == 'a' || c == 'e' || c == 'i' || c == 'o' || c == 'u'
  }

  /** the class `[nm]` */
  predicate IsNasalLetter(c: char) {
    c == 'n' || c == 'm'
  }

  /** Index of the first character of `s` satisfying `p`, as `re.search`
      finds it by scanning from the left. */
  function FirstWhere(s: string, p: char -> bool): (r: Option<nat>)
    ensures r.Some? ==> r.value < |s| && p(s[r.value])
    ensures r.Some? ==> forall j :: 0 <= j < r.value ==> !p(s[j])
    ensures r.None? <==> forall j :: 0 <= j < |s| ==> !p(s[j])
  {
    if s == [] then None
    else if p(s[0]) then Some(0)
    else match FirstWhere(s[1..], p)
      case None => None
      case Some(k) => Some(k + 1)
  }

  /** `c.isspace()`, the characters Python's `\s` matches in a `str` pattern */
  predicate IsSpace(c: char) {
    || c == ' ' || c == '\t' || c == '\n' || c == '\r'
    || c == '\U{0B}' || c == '\U{0C}'
    || ('\U{1C}' <= c <= '\U{1F}')
    || c == '\U{85}' || c == '\U{A0}' || c == '\U{1680}'
    || ('\U{2000}' <= c <= '\U{200A}')
    || c == '\U{2028}' || c == '\U{2029}' || c == '\U{202F}'
    || c == '\U{205F}' || c == '\U{3000}'
  }

  /** the class `[\s,\.\'\"\?\!\-]` that `preprocess` splits on */
  predicate IsSeparator(c: char) {
    IsSpace(c) || c == ',' || c == '.' || c == '\'' || c == '"' || c == '?' || c == '!' || c == '-'
  }

  function LowerChar(c: char): (r: char)
    ensures 'A' <= c <= 'Z' ==> 'a' <= r <= 'z' && r as int == c as int + 32
    ensures !('A' <= c <= 'Z') ==> r == c
  {
    if 'A' <= c <= 'Z' then (c as int + 32) as char else c
  }

  /** `str.lower`, on the ASCII letters */
  function Lower(s: string): (r: string)
    ensures |r| == |s|
    ensures forall i :: 0 <= i < |s| ==> r[i] == LowerChar(s[i])
  {
    seq(|s|, i requires 0 <= i < |s| => LowerChar(s[i]))
  }

  /** Lower-casing twice is lower-casing once, and it never turns a separator
      into a letter or a letter into a separator. */
  lemma LowerIdempotent(s: string)
    ensures Lower(Lower(s)) == Lower(s)
    ensures forall i :: 0 <= i < |s| ==> (IsSeparator(Lower(s)[i]) <==> IsSeparator(s[i]))
  {
  }
}
