/**
 * The two string operations rankBySimilarity applies to its context before
 * querying: Java's String.trim, used for the emptiness test, and the
 * replacement of every character outside [A-Za-z0-9 ] by a space.
 * Strings are sequences of code points, which is how Java's regular
 * expressions see them.
 */
module ContextText {

  /** Java's trim drops leading and trailing characters up to U+0020. */
  predicate IsTrimmed(c: char) { c <= ' ' }

  /** All characters are ones trim removes. */
  predicate IsBlank(s: string) {
    forall i :: 0 <= i < |s| ==> IsTrimmed(s[i])
  }

  function TrimStart(s: string): (r: string)
    ensures |r| <= |s| && r == s[|s| - |r|..]
    ensures forall i :: 0 <= i < |s| - |r| ==> IsTrimmed(s[i])
    ensures r != [] ==> !IsTrimmed(r[0])
  {
    if s != [] && IsTrimmed(s[0]) then TrimStart(s[1..]) else s
  }

  function TrimEnd(s: string): (r: string)
    ensures |r| <= |s| && r == s[..|r|]
    ensures forall i :: |r| <= i < |s| ==> IsTrimmed(s[i])
    ensures r != [] ==> !IsTrimmed(r[|r| - 1])
  {
    if s != [] && IsTrimmed(s[|s| - 1]) then TrimEnd(s[..|s| - 1]) else s
  }

  /** String.trim: the string with its leading and trailing characters up to U+0020 removed. */
  function Trim(s: string): (r: string)
    ensures r != [] ==> !IsTrimmed(r[0]) && !IsTrimmed(r[|r| - 1])
    ensures exists i, j :: 0 <= i <= j <= |s| && r == s[i..j] && IsBlank(s[..i]) && IsBlank(s[j..])
  {
    var t := TrimStart(s);
    var r := TrimEnd(t);
    var i := |s| - |t|;
    assert r == s[i..i + |r|] && IsBlank(s[..i]) && IsBlank(s[i + |r|..]);
    r
  }

  /** context.trim().isEmpty() holds exactly for the contexts made only of characters up to U+0020. */
  lemma TrimEmptyIffBlank(s: string)
    ensures Trim(s) == [] <==> IsBlank(s)
  {
    var t := TrimStart(s);
    if t != [] {
      assert !IsTrimmed(t[0]);
      assert !IsTrimmed(s[|s| - |t|]);
      assert TrimEnd(t) != [];
    }
  }

  /** The characters the regular expression [^A-Za-z0-9 ] leaves in place. */
  predicate IsQueryChar(c: char) {
    ('A' <= c <= 'Z') || ('a' <= c <= 'z') || ('0' <= c <= '9') || c == ' '
  }

  /** context.replaceAll("[^A-Za-z0-9 ]", " "). */
  function Normalize(s: string): (r: string)
    ensures |r| == |s|
    ensures forall i :: 0 <= i < |r| ==> IsQueryChar(r[i])
  {
    if s == [] then [] else [if IsQueryChar(s[0]) then s[0] else ' '] + Normalize(s[1..])
  }

  /** Normalising keeps the length and maps each character on its own. */
  lemma {:induction false} NormalizeAt(s: string)
    ensures |Normalize(s)| == |s|
    ensures forall i :: 0 <= i < |s| ==> Normalize(s)[i] == if IsQueryChar(s[i]) then s[i] else ' '
  {
    if s != [] {
      NormalizeAt(s[1..]);
    }
  }

  /** Only letters, digits and spaces survive, and those already allowed stay as they were. */
  lemma NormalizeOnlyQueryChars(s: string)
    ensures |Normalize(s)| == |s|
    ensures forall i :: 0 <= i < |s| ==> IsQueryChar(Normalize(s)[i])
    ensures forall i :: 0 <= i < |s| && IsQueryChar(s[i]) ==> Normalize(s)[i] == s[i]
  {
    NormalizeAt(s);
  }

  /** A string made only of allowed characters is left unchanged. */
  lemma NormalizeFixesQueryStrings(s: string)
    requires forall i :: 0 <= i < |s| ==> IsQueryChar(s[i])
    ensures Normalize(s) == s
  {
    NormalizeAt(s);
  }

  /** Normalising twice is normalising once. */
  lemma NormalizeIdempotent(s: string)
    ensures Normalize(Normalize(s)) == Normalize(s)
  {
    NormalizeOnlyQueryChars(s);
    NormalizeFixesQueryStrings(Normalize(s));
  }
}
