/** Character classes used by the string handling of the helpers. */
module Text {

  /** The characters Python 2's `str.strip()` removes. */
  predicate IsSpace(c: char)
  {
    c == ' ' || c == '\t' || c == '\n' || c == '\r' || c == '\U{000B}' || c == '\U{000C}'
  }

  /** Neither the first nor the last character is whitespace (vacuous for ""). */
  predicate NoOuterWhitespace(s: string)
  {
    s == [] || (!IsSpace(s[0]) && !IsSpace(s[|s| - 1]))
  }

  /** A lower-case hexadecimal digit, as in `hexdigest()` and `str(uuid)`. */
  predicate IsHexChar(c: char)
  {
    ('0' <= c <= '9') || ('a' <= c <= 'f')
  }

  /** The text of a SHA-1 `hexdigest()`: forty lower-case hex digits. */
  predicate IsHexDigest(s: string)
  {
    |s| == 40 && forall i :: 0 <= i < |s| ==> IsHexChar(s[i])
  }
}
