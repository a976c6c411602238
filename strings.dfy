/**
 * The few Python string operations the charm relies on: `str.strip()` with no
 * argument, `str.startswith`, and substring containment (`in`).
 */
module Strings {

  import opened Wrappers

  /**
   * Python's `str.isspace()` for one character, which is the set `str.strip()`
   * removes: the ASCII controls TAB to CR and FS to US, SPACE, NEL, NO-BREAK
   * SPACE, OGHAM SPACE MARK, EN QUAD to HAIR SPACE, LINE and PARAGRAPH
   * SEPARATOR, NARROW NO-BREAK SPACE, MEDIUM MATHEMATICAL SPACE and
   * IDEOGRAPHIC SPACE.
   */
  predicate IsSpace(c: char) {
    || ('\t' <= c <= '\r')
    || ('\U{1C}' <= c <= '\U{1F}')
    || c == ' '
    || c == '\U{85}'
    || c == '\U{A0}'
    || c == '\U{1680}'
    || ('\U{2000}' <= c <= '\U{200A}')
    || c == '\U{2028}'
    || c == '\U{2029}'
    || c == '\U{202F}'
    || c == '\U{205F}'
    || c == '\U{3000}'
  }

  predicate AllSpace(s: string) {
    forall i :: 0 <= i < |s| ==> IsSpace(s[i])
  }

  /** Neither end of `s` is whitespace. */
  predicate Trimmed(s: string) {
    s == [] || (!IsSpace(s[0]) && !IsSpace(s[|s| - 1]))
  }

  /** Python's `s.startswith(prefix)`. */
  predicate StartsWith(s: string, prefix: string) {
    |prefix| <= |s| && s[..|prefix|] == prefix
  }

  /** Python's `sub in s`. */
  predicate Contains(s: string, sub: string)
    decreases |s|
  {
    StartsWith(s, sub) || (s != [] && Contains(s[1..], sub))
  }

  /** Python's `s.lstrip()`: the suffix of `s` left once leading whitespace is dropped. */
  function StripLeft(s: string): (r: string)
    ensures |r| <= |s|
    ensures r == [] || !IsSpace(r[0])
  {
    if |s| > 0 && IsSpace(s[0]) then StripLeft(s[1..]) else s
  }

  /** Python's `s.rstrip()`: the prefix of `s` left once trailing whitespace is dropped. */
  function StripRight(s: string): (r: string)
    ensures |r| <= |s| && r == s[..|r|]
    ensures r == [] || !IsSpace(r[|r| - 1])
  {
    if |s| > 0 && IsSpace(s[|s| - 1]) then StripRight(s[..|s| - 1]) else s
  }

  /** Python's `s.strip()`. */
  function Strip(s: string): (r: string)
    ensures Trimmed(r)
    ensures |r| <= |s|
    ensures Trimmed(s) ==> r == s
  {
    StripRight(StripLeft(s))
  }

  /** Whitespace in front of a string does not change what `lstrip` keeps. */
  lemma {:induction false} StripLeftSkipsSpaces(lead: string, s: string)
    requires AllSpace(lead)
    ensures StripLeft(lead + s) == StripLeft(s)
  {
    if lead != [] {
      var t := lead + s;
      assert t[0] == lead[0];
      assert IsSpace(t[0]);
      assert StripLeft(t) == StripLeft(t[1..]);
      assert t[1..] == lead[1..] + s;
      StripLeftSkipsSpaces(lead[1..], s);
    } else {
      assert lead + s == s;
    }
  }

  /** Whitespace behind a string does not change what `rstrip` keeps. */
  lemma {:induction false} StripRightSkipsSpaces(s: string, trail: string)
    requires AllSpace(trail)
    ensures StripRight(s + trail) == StripRight(s)
  {
    if trail != [] {
      var t := trail[..|trail| - 1];
      assert (s + trail)[|s + trail| - 1] == trail[|trail| - 1] && IsSpace(trail[|trail| - 1]);
      assert (s + trail)[..|s + trail| - 1] == s + t;
      StripRightSkipsSpaces(s, t);
    } else {
      assert s + trail == s;
    }
  }

  /** Once `lstrip` stops inside `s`, whatever follows `s` is kept as it is. */
  lemma {:induction false} StripLeftAppend(s: string, t: string)
    requires StripLeft(s) != []
    ensures StripLeft(s + t) == StripLeft(s) + t
  {
    assert (s + t)[0] == s[0];
    if IsSpace(s[0]) {
      assert (s + t)[1..] == s[1..] + t;
      StripLeftAppend(s[1..], t);
    }
  }

  /** Exactly the strings made only of whitespace strip to nothing. */
  lemma {:induction false} StripsToEmptyIffAllSpace(s: string)
    ensures StripLeft(s) == [] <==> AllSpace(s)
  {
    if s != [] {
      StripsToEmptyIffAllSpace(s[1..]);
      assert AllSpace(s) <==> IsSpace(s[0]) && AllSpace(s[1..]);
    }
  }

  /**
   * Surrounding whitespace never survives `strip`: padding a string on either
   * side with whitespace leaves its stripped form as it was.
   */
  lemma StripIgnoresPadding(lead: string, s: string, trail: string)
    requires AllSpace(lead) && AllSpace(trail)
    ensures Strip(lead + s + trail) == Strip(s)
  {
    var st := s + trail;
    assert lead + s + trail == lead + st;
    StripLeftSkipsSpaces(lead, st);
    var l := StripLeft(s);
    if l == [] {
      StripsToEmptyIffAllSpace(s);
      assert AllSpace(st);
      StripsToEmptyIffAllSpace(st);
    } else {
      StripLeftAppend(s, trail);
      StripRightSkipsSpaces(l, trail);
    }
  }

  /** `strip` is idempotent. */
  lemma StripIdempotent(s: string)
    ensures Strip(Strip(s)) == Strip(s)
  {
  }

  /** Cutting a known head and tail off `s`; `None` when `s` does not have them. */
  function Unwrap(head: string, s: string, tail: string): (r: Option<string>)
    ensures r.Some? ==> head + r.value + tail == s
  {
    if |head| + |tail| <= |s| && s[..|head|] == head && s[|s| - |tail|..] == tail
    then Some(s[|head|..|s| - |tail|])
    else None
  }

  /** `Unwrap` takes back exactly what was put between the head and the tail. */
  lemma UnwrapWrap(head: string, middle: string, tail: string)
    ensures Unwrap(head, head + middle + tail, tail) == Some(middle)
  {
  }
}
