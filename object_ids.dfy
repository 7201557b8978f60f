/** The textual form of MongoDB ObjectIds, as the document store casts them.
    A query by id accepts 24 hexadecimal digits in either case; the id a stored
    document carries prints back as 24 lower-case digits. */
module ObjectIds {

  predicate IsHexDigit(c: char) {
    '0' <= c <= '9' || 'a' <= c <= 'f' || 'A' <= c <= 'F'
  }

  predicate IsLowerHexDigit(c: char) {
    '0' <= c <= '9' || 'a' <= c <= 'f'
  }

  /** Text that casts to an ObjectId. */
  predicate IsObjectIdText(s: string) {
    |s| == 24 && forall i :: 0 <= i < |s| ==> IsHexDigit(s[i])
  }

  /** Text as an ObjectId prints itself. */
  predicate IsCanonicalId(s: string) {
    |s| == 24 && forall i :: 0 <= i < |s| ==> IsLowerHexDigit(s[i])
  }

  function LowerHex(c: char): char {
    if 'A' <= c <= 'F' then (c as int - 'A' as int + 'a' as int) as char else c
  }

  /** The id a piece of text casts to, in its printed form. */
  function CanonicalId(s: string): (r: string)
    ensures |r| == |s|
    ensures IsObjectIdText(s) ==> IsCanonicalId(r)
    ensures IsCanonicalId(s) ==> r == s
  {
    seq(|s|, i requires 0 <= i < |s| => LowerHex(s[i]))
  }

  /** The upper-case form of a lower-case hex letter; any other character is
      left as it is. */
  function UpperHex(c: char): char {
    if 'a' <= c <= 'f' then (c as int - 'a' as int + 'A' as int) as char else c
  }

  /** The two texts differ at most in the case of their hex letters. */
  predicate SameUpToCase(a: string, b: string) {
    |a| == |b| && forall i :: 0 <= i < |a| ==> a[i] == b[i] || a[i] == UpperHex(b[i]) || b[i] == UpperHex(a[i])
  }

  /** Two id texts name the same ObjectId exactly when they differ only in
      the case of their hex letters. */
  lemma SameIdExactlyUpToCase(a: string, b: string)
    requires IsObjectIdText(a) && IsObjectIdText(b)
    ensures CanonicalId(a) == CanonicalId(b) <==> SameUpToCase(a, b)
  {
    if CanonicalId(a) == CanonicalId(b) {
      forall i | 0 <= i < |a|
        ensures a[i] == b[i] || a[i] == UpperHex(b[i]) || b[i] == UpperHex(a[i])
      {
        assert LowerHex(a[i]) == CanonicalId(a)[i] == CanonicalId(b)[i] == LowerHex(b[i]);
      }
    }
    if SameUpToCase(a, b) {
      forall i | 0 <= i < |a| ensures CanonicalId(a)[i] == CanonicalId(b)[i] {
        assert IsHexDigit(a[i]) && IsHexDigit(b[i]);
      }
    }
  }
}
