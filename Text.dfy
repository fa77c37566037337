/** The two string helpers of NewLife that the fallback rule is written with. */
module Text {
  import opened Wrappers

  /** A C# string reference: None is null. */
  type NString = Option<string>

  /** Folds an ASCII upper-case letter to lower case and leaves every other character alone. */
  function FoldChar(c: char): char
  {
    if 'A' <= c <= 'Z' then (c as int + 32) as char else c
  }

  /** The ASCII lower-case form of a string. */
  function Lower(s: string): (r: string)
    ensures |r| == |s|
    ensures forall i :: 0 <= i < |s| ==> r[i] == FoldChar(s[i])
  {
    seq(|s|, i requires 0 <= i < |s| => FoldChar(s[i]))
  }

  /** `IsNullOrEmpty`: the reference is null or the string has no characters. */
  predicate IsNullOrEmpty(s: NString)
    ensures IsNullOrEmpty(s) <==> s == None || s == Some("")
  {
    s.None? || |s.value| == 0
  }

  /** `EqualIgnoreCase`, modelled as an ASCII case-insensitive ordinal comparison. */
  predicate EqualIgnoreCase(a: string, b: string)
    ensures EqualIgnoreCase(a, b) <==> Lower(a) == Lower(b)
    ensures a == b ==> EqualIgnoreCase(a, b)
  {
    EqualIgnoreCaseIsLowerEquality(a, b);
    |a| == |b| && forall i :: 0 <= i < |a| ==> FoldChar(a[i]) == FoldChar(b[i])
  }

  /** Two strings are equal ignoring case exactly when their lower-case forms are equal. */
  lemma EqualIgnoreCaseIsLowerEquality(a: string, b: string)
    ensures (|a| == |b| && forall i :: 0 <= i < |a| ==> FoldChar(a[i]) == FoldChar(b[i]))
      <==> Lower(a) == Lower(b)
  {
    if Lower(a) == Lower(b) {
      forall i | 0 <= i < |a|
        ensures FoldChar(a[i]) == FoldChar(b[i])
      {
        assert Lower(a)[i] == Lower(b)[i];
      }
    }
  }
}
