/** The character functions of the C locale and the string helpers built on them. */
module Text {

  predicate IsLower(c: char) {
    'a' <= c <= 'z'
  }

  predicate IsUpper(c: char) {
    'A' <= c <= 'Z'
  }

  /** `std::isspace` */
  predicate IsSpace(c: char) {
    c == ' ' || 9 <= c as int <= 13
  }

  function ToUpperChar(c: char): (r: char)
    ensures !IsLower(r)
  {
    if IsLower(c) then (c as int - 32) as char else c
  }

  function ToLowerChar(c: char): (r: char)
    ensures !IsUpper(r)
  {
    if IsUpper(c) then (c as int + 32) as char else c
  }

  /** The case functions keep a letter's place in the alphabet, and keep every other character. */
  lemma LettersChangeCase(c: char)
    ensures 'a' <= c <= 'z' ==> ToUpperChar(c) as int - 'A' as int == c as int - 'a' as int
    ensures 'A' <= c <= 'Z' ==> ToLowerChar(c) as int - 'a' as int == c as int - 'A' as int
    ensures !('a' <= c <= 'z') ==> ToUpperChar(c) == c
    ensures !('A' <= c <= 'Z') ==> ToLowerChar(c) == c
  {
  }

  function ToUpper(s: string): (r: string)
    ensures |r| == |s|
    ensures forall i :: 0 <= i < |s| ==> r[i] == ToUpperChar(s[i])
  {
    seq(|s|, i requires 0 <= i < |s| => ToUpperChar(s[i]))
  }

  function ToLower(s: string): (r: string)
    ensures |r| == |s|
    ensures forall i :: 0 <= i < |s| ==> r[i] == ToLowerChar(s[i])
  {
    seq(|s|, i requires 0 <= i < |s| => ToLowerChar(s[i]))
  }

  predicate NoLower(s: string) {
    forall c :: c in s ==> !IsLower(c)
  }

  lemma ToUpperIdempotent(s: string)
    ensures NoLower(ToUpper(s))
    ensures NoLower(s) ==> ToUpper(s) == s
  {
    if NoLower(s) {
      forall i | 0 <= i < |s| ensures ToUpper(s)[i] == s[i] {
        assert s[i] in s;
      }
    }
  }

  /** Lower-casing loses nothing on text that has no lower-case letters. */
  lemma ToLowerInjective(s: string, t: string)
    requires NoLower(s) && NoLower(t) && ToLower(s) == ToLower(t)
    ensures s == t
  {
    forall i | 0 <= i < |s| ensures s[i] == t[i] {
      assert ToLower(s)[i] == ToLower(t)[i];
      assert s[i] in s && t[i] in t;
    }
  }

  /** The text up to the first separator, and what follows, are determined. */
  lemma SplitAtSeparator(a: string, b: string, separator: char, x: string, y: string)
    requires separator !in a && separator !in b
    requires a + [separator] + x == b + [separator] + y
    ensures a == b && x == y
  {
    var s := a + [separator] + x;
    assert s[|a|] == separator && s[|b|] == separator;
    assert forall i :: 0 <= i < |a| ==> s[i] == a[i] && a[i] in a;
    assert forall i :: 0 <= i < |b| ==> s[i] == b[i] && b[i] in b;
    assert a == s[..|a|] && b == s[..|b|];
    assert x == s[|a| + 1..] && y == s[|b| + 1..];
  }
}
