/** Case folding used when order-point statuses are compared.
    Only the ASCII letters are folded. */
module Text {

  predicate IsUpper(c: char) {
    'A' <= c <= 'Z'
  }

  /** Lower-case of one character: ASCII upper-case letters move to
      lower-case, every other character is kept. */
  function LowerChar(c: char): (r: char)
    ensures !IsUpper(r)
    ensures IsUpper(c) ==> r as int == c as int + 32
    ensures !IsUpper(c) ==> r == c
  {
    if IsUpper(c) then (c as int + 32) as char else c
  }

  /** `String.prototype.toLowerCase` restricted to ASCII letters. */
  function Lower(s: string): (r: string)
    ensures |r| == |s|
    ensures forall i :: 0 <= i < |s| ==> r[i] == LowerChar(s[i])
  {
    if |s| == 0 then "" else [LowerChar(s[0])] + Lower(s[1..])
  }

  /** `a.toLowerCase() === b.toLowerCase()`. */
  predicate EqualsIgnoringCase(a: string, b: string) {
    Lower(a) == Lower(b)
  }

  /** Lower-casing twice is lower-casing once. */
  lemma LowerIdempotent(s: string)
    ensures Lower(Lower(s)) == Lower(s)
  {
  }

  /** Two strings are equal ignoring case exactly when they have the same
      length and agree character by character after folding. */
  lemma EqualsIgnoringCasePointwise(a: string, b: string)
    ensures EqualsIgnoringCase(a, b) <==>
              |a| == |b| && forall i :: 0 <= i < |a| ==> LowerChar(a[i]) == LowerChar(b[i])
  {
  }

  /** Case-insensitive equality is an equivalence relation. */
  lemma EqualsIgnoringCaseEquivalence(a: string, b: string, c: string)
    ensures EqualsIgnoringCase(a, a)
    ensures EqualsIgnoringCase(a, b) ==> EqualsIgnoringCase(b, a)
    ensures EqualsIgnoringCase(a, b) && EqualsIgnoringCase(b, c) ==> EqualsIgnoringCase(a, c)
  {
  }

  /** Strings that differ only in the case of ASCII letters match. */
  lemma StatusCaseExample()
    ensures EqualsIgnoringCase("Success", "SUCCESS")
    ensures !EqualsIgnoringCase("Success", "Failed")
  {
  }
}
