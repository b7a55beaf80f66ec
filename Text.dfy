/**
  Character classes of JavaScript regular expressions and the invariant that
  every text the calculator puts on its display satisfies.
 */
module Text {

  /** The sentinel the display shows after a domain error. */
  const ErrorText: string := "Error"

  /** A line terminator: a character that `.` in a regular expression does not match. */
  predicate IsLineTerminator(c: char) {
    c == '\n' || c == '\r' || c == '\U{2028}' || c == '\U{2029}'
  }

  /** A character matched by `\s`: the ECMAScript white space and line terminators. */
  predicate IsWhitespace(c: char) {
    || IsLineTerminator(c)
    || c == '\t' || c == '\U{000B}' || c == '\U{000C}' || c == ' '
    || c == '\U{00A0}' || c == '\U{1680}' || ('\U{2000}' <= c <= '\U{200A}')
    || c == '\U{202F}' || c == '\U{205F}' || c == '\U{3000}' || c == '\U{FEFF}'
  }

  predicate SingleLine(s: string) {
    forall i :: 0 <= i < |s| ==> !IsLineTerminator(s[i])
  }

  predicate AtMostOneDot(s: string) {
    forall i, j :: 0 <= i < j < |s| && s[i] == '.' ==> s[j] != '.'
  }

  /**
    Display text: never empty, no leading white space, no `=`, on one line,
    with at most one decimal point.  Number texts produced by JavaScript have
    this shape, and so does every text the engine assembles from them.
   */
  predicate IsDisplay(s: string) {
    && s != []
    && !IsWhitespace(s[0])
    && '=' !in s
    && SingleLine(s)
    && AtMostOneDot(s)
  }
}
