/** Character classes of the scanner.

    The Go code classifies one-byte strings by comparing them with Go's
    string order (byte-wise lexicographic), and `peek` hands the classifiers
    a two-byte sentinel at end of input. Both are modelled literally here, so
    that "the sentinel is in no class" is proved rather than assumed. */
module CharClass {

  /** Go's `a <= b` on strings: byte-wise lexicographic order. */
  predicate LessEq(a: string, b: string) {
    if a == [] then true
    else if b == [] then false
    else if a[0] != b[0] then a[0] < b[0]
    else LessEq(a[1..], b[1..])
  }

  /** On one-byte strings Go's order is the order of the bytes. */
  lemma OneByteOrder(a: char, c: string)
    ensures |c| == 1 ==> (LessEq([a], c) <==> a <= c[0])
    ensures |c| == 1 ==> (LessEq(c, [a]) <==> c[0] <= a)
  {
    if |c| == 1 {
      assert [a][1..] == [] && c[1..] == [];
    }
  }

  /** What `peek` and `peekNext` return past the end of the source: the two
      bytes backslash and zero. */
  const Sentinel: string := "\\0"

  /** The classes on single characters, used by the reference scanner. */
  predicate DigitChar(c: char) {
    '0' <= c <= '9'
  }

  predicate AlphaChar(c: char) {
    'a' <= c <= 'z' || 'A' <= c <= 'Z' || c == '_'
  }

  predicate AlphaNumericChar(c: char) {
    AlphaChar(c) || DigitChar(c)
  }

  /** `isDigit`: on a one-byte string it is the decimal digits; the sentinel
      is not a digit. */
  predicate IsDigit(c: string)
    ensures |c| == 1 ==> (IsDigit(c) <==> DigitChar(c[0]))
    ensures c == Sentinel ==> !IsDigit(c)
  {
    OneByteOrder('0', c); OneByteOrder('9', c);
    LessEq("0", c) && LessEq(c, "9")
  }

  /** `isAlpha`: on a one-byte string it is the ASCII letters and the
      underscore; the sentinel is not alphabetic. */
  predicate IsAlpha(c: string)
    ensures |c| == 1 ==> (IsAlpha(c) <==> AlphaChar(c[0]))
    ensures c == Sentinel ==> !IsAlpha(c)
  {
    OneByteOrder('a', c); OneByteOrder('z', c); OneByteOrder('A', c); OneByteOrder('Z', c);
    (LessEq("a", c) && LessEq(c, "z")) || (LessEq("A", c) && LessEq(c, "Z")) || c == "_"
  }

  /** `isAlphaNumeric`: letters, underscore and digits; not the sentinel. */
  predicate IsAlphaNumeric(c: string)
    ensures |c| == 1 ==> (IsAlphaNumeric(c) <==> AlphaNumericChar(c[0]))
    ensures c == Sentinel ==> !IsAlphaNumeric(c)
  {
    IsAlpha(c) || IsDigit(c)
  }
}
