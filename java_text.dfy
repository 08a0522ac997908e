/**
 * The character and string predicates of the JDK and of Spring's StringUtils that the core
 * relies on, modelled on ASCII: upper and lower case are the letters A-Z and a-z, and
 * white space is the set of ASCII characters Character.isWhitespace accepts.
 */
module JavaText {

  predicate IsUpperCase(c: char) {
    'A' <= c <= 'Z'
  }

  predicate IsLowerCase(c: char) {
    'a' <= c <= 'z'
  }

  function ToLowerCase(c: char): (r: char)
    ensures IsUpperCase(c) ==> IsLowerCase(r) && r as int == c as int + 32
    ensures !IsUpperCase(c) ==> r == c
  {
    if IsUpperCase(c) then (c as int + 32) as char else c
  }

  function ToUpperCase(c: char): (r: char)
    ensures IsLowerCase(c) ==> IsUpperCase(r) && r as int + 32 == c as int
    ensures !IsLowerCase(c) ==> r == c
  {
    if IsLowerCase(c) then (c as int - 32) as char else c
  }

  /** Character.isWhitespace on ASCII: tab, line feed, vertical tab, form feed, carriage return, the four separators 0x1C-0x1F and space. */
  predicate IsWhitespace(c: char)
    ensures IsWhitespace(c) ==> c as int <= 32 && !IsUpperCase(c) && !IsLowerCase(c)
    ensures c == ' ' || c == '\t' || c == '\n' || c == '\r' ==> IsWhitespace(c)
  {
    (9 <= c as int <= 13) || (28 <= c as int <= 31) || c == ' '
  }

  /** StringUtils.hasLength: not null and not empty. */
  predicate HasLength(s: string)
    ensures HasLength(s) <==> s != []
  {
    |s| > 0
  }

  /** StringUtils.hasText: contains at least one character that is not white space. */
  predicate HasText(s: string)
    ensures HasText(s) ==> HasLength(s)
    ensures (forall i :: 0 <= i < |s| ==> IsWhitespace(s[i])) ==> !HasText(s)
    ensures |s| > 0 && !IsWhitespace(s[0]) ==> HasText(s)
  {
    exists i :: 0 <= i < |s| && !IsWhitespace(s[i])
  }

  /** One position of String.regionMatches with ignoreCase: equal, or equal after upper-casing, or after upper- then lower-casing. */
  predicate CharEqualsIgnoreCase(a: char, b: char) {
    a == b || ToUpperCase(a) == ToUpperCase(b) || ToLowerCase(ToUpperCase(a)) == ToLowerCase(ToUpperCase(b))
  }

  /** String.equalsIgnoreCase on two non-null strings. */
  predicate EqualsIgnoreCase(a: string, b: string)
    ensures EqualsIgnoreCase(a, b) ==> |a| == |b|
    ensures a == b ==> EqualsIgnoreCase(a, b)
  {
    |a| == |b| && forall i :: 0 <= i < |a| ==> CharEqualsIgnoreCase(a[i], b[i])
  }

  /** Comparing one character ignoring case is comparing the upper-cased characters. */
  lemma CharEqualsIgnoreCaseIsUpperCaseEquality(a: char, b: char)
    ensures CharEqualsIgnoreCase(a, b) <==> ToUpperCase(a) == ToUpperCase(b)
  {
  }

  /** equalsIgnoreCase is an equivalence: reflexive, symmetric and transitive. */
  lemma EqualsIgnoreCaseIsEquivalence(a: string, b: string, c: string)
    ensures EqualsIgnoreCase(a, a)
    ensures EqualsIgnoreCase(a, b) <==> EqualsIgnoreCase(b, a)
    ensures EqualsIgnoreCase(a, b) && EqualsIgnoreCase(b, c) ==> EqualsIgnoreCase(a, c)
  {
    forall x: char, y: char ensures CharEqualsIgnoreCase(x, y) <==> ToUpperCase(x) == ToUpperCase(y) {
      CharEqualsIgnoreCaseIsUpperCaseEquality(x, y);
    }
  }
}
