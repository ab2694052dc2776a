/** Character classes and string helpers shared by the parser, the title matcher and the validators. */
module Text {

  /** An ASCII decimal digit, the part of the regular-expression class `\d` this model covers. */
  predicate IsDigit(c: char) {
    '0' <= c <= '9'
  }

  function DigitValue(c: char): (d: nat)
    requires IsDigit(c)
    ensures d < 10
  {
    (c as int) - ('0' as int)
  }

  /** The decimal value of a run of digits, most significant first. */
  function DigitsValue(ds: string): nat
    requires forall t :: 0 <= t < |ds| ==> IsDigit(ds[t])
  {
    if |ds| == 0 then 0 else 10 * DigitsValue(ds[..|ds| - 1]) + DigitValue(ds[|ds| - 1])
  }

  /** The code points Python's `str.isspace` accepts, which is what `\s` matches in a text pattern. */
  predicate IsSpace(c: char) {
    var n := c as int;
    || n == 0x20 || 0x09 <= n <= 0x0D || 0x1C <= n <= 0x1F
    || n == 0x85 || n == 0xA0 || n == 0x1680 || 0x2000 <= n <= 0x200A
    || n == 0x2028 || n == 0x2029 || n == 0x202F || n == 0x205F || n == 0x3000
  }

  /** Lower-casing of one character, restricted to the ASCII letters. */
  function LowerChar(c: char): (r: char)
    ensures 'A' <= c <= 'Z' ==> r as int == c as int + 32
    ensures !('A' <= c <= 'Z') ==> r == c
  {
    if 'A' <= c <= 'Z' then (c as int + 32) as char else c
  }

  function UpperChar(c: char): (r: char)
    ensures 'a' <= c <= 'z' ==> r as int == c as int - 32
    ensures !('a' <= c <= 'z') ==> r == c
  {
    if 'a' <= c <= 'z' then (c as int - 32) as char else c
  }

  /** Python's `str.lower()` on ASCII text: every letter mapped, nothing else touched, length kept. */
  function Lower(s: string): (r: string)
    ensures |r| == |s|
    ensures forall t :: 0 <= t < |s| ==> r[t] == LowerChar(s[t])
  {
    seq(|s|, t requires 0 <= t < |s| => LowerChar(s[t]))
  }

  function Upper(s: string): (r: string)
    ensures |r| == |s|
    ensures forall t :: 0 <= t < |s| ==> r[t] == UpperChar(s[t])
  {
    seq(|s|, t requires 0 <= t < |s| => UpperChar(s[t]))
  }

  /** Lower-casing is idempotent. */
  lemma LowerIdempotent(s: string)
    ensures Lower(Lower(s)) == Lower(s)
  {
  }

  /** Upper-casing first loses nothing that lower-casing keeps: the two texts compare equal case-insensitively. */
  lemma LowerOfUpper(s: string)
    ensures Lower(Upper(s)) == Lower(s)
  {
  }

  /** `w` occurs in `s` starting at index `i`. */
  ghost predicate OccursAt(s: string, w: string, i: int) {
    0 <= i && i + |w| <= |s| && s[i..i + |w|] == w
  }

  /** Python's substring test `w in s` (see `ContainsIsSubstring`). */
  function Contains(s: string, w: string): bool {
    ContainsFrom(s, w, 0)
  }

  /** Whether `w` occurs in `s` at index `i` or later. */
  function ContainsFrom(s: string, w: string, i: nat): bool
    decreases |s| - i
  {
    if i + |w| > |s| then false
    else if s[i..i + |w|] == w then true
    else ContainsFrom(s, w, i + 1)
  }

  lemma {:induction false} ContainsFromOccurs(s: string, w: string, i: nat)
    ensures ContainsFrom(s, w, i) <==> exists k :: i <= k && OccursAt(s, w, k)
    decreases |s| - i
  {
    if i + |w| > |s| {
    } else if s[i..i + |w|] == w {
      assert OccursAt(s, w, i);
    } else {
      ContainsFromOccurs(s, w, i + 1);
    }
  }

  /** The substring test holds exactly when `w` occurs somewhere in `s`. */
  lemma ContainsIsSubstring(s: string, w: string)
    ensures Contains(s, w) <==> exists i :: OccursAt(s, w, i)
  {
    ContainsFromOccurs(s, w, 0);
  }
}
