/**
 * `sanitize_filename`: turns a system name into a file-name stem. Python evaluates it in
 * two passes: a generator expression keeps letters, digits, space, '_' and '-' and
 * turns every other character into '_', then `str.replace` turns every space into '_'.
 */
module Sanitize {

  /** `str.isalnum`, restricted to ASCII letters and digits. */
  predicate IsAlnum(c: char) {
    'a' <= c <= 'z' || 'A' <= c <= 'Z' || '0' <= c <= '9'
  }

  /** Characters the first pass leaves alone. */
  predicate IsKept(c: char) {
    IsAlnum(c) || c == ' ' || c == '_' || c == '-'
  }

  /** Characters that can appear in a sanitised name. */
  predicate IsSafe(c: char) {
    IsAlnum(c) || c == '_' || c == '-'
  }

  predicate AllSafe(s: string) {
    forall i :: 0 <= i < |s| ==> IsSafe(s[i])
  }

  /** The first pass: the generator expression joined into a string. */
  function KeepOrUnderscore(s: string): (r: string)
    ensures |r| == |s|
    ensures forall i :: 0 <= i < |s| ==> r[i] == if IsKept(s[i]) then s[i] else '_'
  {
    if s == [] then [] else [if IsKept(s[0]) then s[0] else '_'] + KeepOrUnderscore(s[1..])
  }

  /** The second pass: `.replace(" ", "_")`. */
  function ReplaceSpaces(s: string): (r: string)
    ensures |r| == |s|
    ensures forall i :: 0 <= i < |s| ==> r[i] == if s[i] == ' ' then '_' else s[i]
  {
    if s == [] then [] else [if s[0] == ' ' then '_' else s[0]] + ReplaceSpaces(s[1..])
  }

  /**
   * `sanitize_filename(name)`. Its contract is the one-pass reading of the two passes:
   * each position keeps a safe character and holds '_' for any other, space included.
   */
  function SanitizeFilename(name: string): (r: string)
    ensures |r| == |name|
    ensures forall i :: 0 <= i < |name| ==> r[i] == if IsSafe(name[i]) then name[i] else '_'
  {
    ReplaceSpaces(KeepOrUnderscore(name))
  }

  /** Only letters, digits, '_' and '-' survive; in particular no space does. */
  lemma SanitizeAlphabet(name: string)
    ensures AllSafe(SanitizeFilename(name))
    ensures forall i :: 0 <= i < |name| ==> SanitizeFilename(name)[i] != ' '
  {
  }

  /** A name is its own sanitisation exactly when every character is already safe. */
  lemma SanitizeFixedPoint(name: string)
    ensures SanitizeFilename(name) == name <==> AllSafe(name)
  {
    if !AllSafe(name) {
      var i :| 0 <= i < |name| && !IsSafe(name[i]);
      assert SanitizeFilename(name)[i] == '_' != name[i];
    }
  }

  /** Sanitising twice changes nothing more. */
  lemma SanitizeIdempotent(name: string)
    ensures SanitizeFilename(SanitizeFilename(name)) == SanitizeFilename(name)
  {
    SanitizeAlphabet(name);
    SanitizeFixedPoint(SanitizeFilename(name));
  }

  /** The slash of "Alpha/Beta 7" and its space both become '_'. */
  lemma SanitizeAlphaBeta(name: string)
    requires name == "Alpha/Beta 7"
    ensures SanitizeFilename(name) == "Alpha_Beta_7"
  {
    var r := SanitizeFilename(name);
    assert !IsSafe(name[5]) && !IsSafe(name[10]);
    assert r[5] == '_' && r[10] == '_';
    assert forall i :: 0 <= i < 12 && i != 5 && i != 10 ==> IsSafe(name[i]);
  }
}
