/**
 * Python's `re.escape` (Python 3.7 and later), which puts a backslash in front
 * of every character of a fixed special set and leaves all others alone.
 * Only the produced string is modelled, not what a regex engine makes of it.
 */
module RegexEscape {

  /** The characters `re.escape` prefixes with a backslash. */
  predicate IsSpecial(c: char) {
    || c == '(' || c == ')' || c == '[' || c == ']' || c == '{' || c == '}'
    || c == '?' || c == '*' || c == '+' || c == '-' || c == '|' || c == '^'
    || c == '$' || c == '\\' || c == '.' || c == '&' || c == '~' || c == '#'
    || c == ' ' || c == '\t' || c == '\n' || c == '\r' || c == '\U{B}' || c == '\U{C}'
  }

  /**
   * A pattern in which every special character is escaped and every backslash
   * escapes a special character: one that can only stand for a literal string.
   */
  predicate IsLiteralPattern(p: string)
    decreases |p|
  {
    if p == [] then true
    else if IsSpecial(p[0]) then p[0] == '\\' && |p| >= 2 && IsSpecial(p[1]) && IsLiteralPattern(p[2..])
    else IsLiteralPattern(p[1..])
  }

  function EscapeChar(c: char): string {
    if IsSpecial(c) then ['\\', c] else [c]
  }

  /** `re.escape(s)`. */
  function Escape(s: string): (p: string)
    ensures IsLiteralPattern(p)
    ensures |p| >= |s|
  {
    if s == [] then [] else EscapeChar(s[0]) + Escape(s[1..])
  }

  /** Reads a literal pattern back: drops the backslash in front of each escaped character. */
  function Unescape(p: string): (s: string)
    decreases |p|
  {
    if p == [] then []
    else if p[0] == '\\' && |p| >= 2 then [p[1]] + Unescape(p[2..])
    else [p[0]] + Unescape(p[1..])
  }

  /** Escaping loses nothing: unescaping gives the original string back. */
  lemma {:induction false} UnescapeEscape(s: string)
    ensures Unescape(Escape(s)) == s
  {
    if s != [] {
      var rest := Escape(s[1..]);
      var p := EscapeChar(s[0]) + rest;
      if IsSpecial(s[0]) {
        assert p[0] == '\\' && p[1] == s[0] && p[2..] == rest;
      } else {
        assert s[0] != '\\';
        assert p[0] == s[0] && p[1..] == rest;
      }
      UnescapeEscape(s[1..]);
      assert s == [s[0]] + s[1..];
    }
  }

  /** A literal pattern is the escape of what it reads back to. */
  lemma {:induction false} EscapeUnescape(p: string)
    requires IsLiteralPattern(p)
    ensures Escape(Unescape(p)) == p
    decreases |p|
  {
    if p != [] {
      if IsSpecial(p[0]) {
        var u := Unescape(p[2..]);
        EscapeUnescape(p[2..]);
        assert Unescape(p) == [p[1]] + u;
        assert ([p[1]] + u)[1..] == u;
        assert p == ['\\', p[1]] + p[2..];
      } else {
        var u := Unescape(p[1..]);
        EscapeUnescape(p[1..]);
        assert Unescape(p) == [p[0]] + u;
        assert ([p[0]] + u)[1..] == u;
        assert p == [p[0]] + p[1..];
      }
    }
  }

  /** Distinct paths give distinct escaped patterns. */
  lemma EscapeInjective(a: string, b: string)
    requires Escape(a) == Escape(b)
    ensures a == b
  {
  }

  /** A string with no special character, such as `/from`, is its own escape. */
  lemma {:induction false} EscapeKeepsPlain(s: string)
    requires forall i :: 0 <= i < |s| ==> !IsSpecial(s[i])
    ensures Escape(s) == s
  {
    if s != [] {
      EscapeKeepsPlain(s[1..]);
      assert s == [s[0]] + s[1..];
    }
  }

  /** Slashes, letters and digits are never special. */
  lemma PlainCharacters(c: char)
    requires c == '/' || 'a' <= c <= 'z' || 'A' <= c <= 'Z' || '0' <= c <= '9'
    ensures !IsSpecial(c)
  {
  }
}
