/**
 * String helpers shared by the form handlers: the white-space trimming of
 * `String.prototype.trim`, the case folding of `toLowerCase` (restricted to
 * ASCII letters) and the substring test of `String.prototype.includes`.
 */
module Text {

  /** The characters `trim` removes: ECMAScript WhiteSpace and LineTerminator. */
  predicate IsJsWhitespace(c: char) {
    || c == ' '
    || ('\t' <= c <= '\r')          // tab, line feed, vertical tab, form feed, carriage return
    || c == '\U{00A0}' || c == '\U{1680}'
    || ('\U{2000}' <= c <= '\U{200A}')
    || c == '\U{2028}' || c == '\U{2029}'
    || c == '\U{202F}' || c == '\U{205F}' || c == '\U{3000}' || c == '\U{FEFF}'
  }

  /** `trimStart`: drops the longest white-space prefix. */
  function TrimStart(s: string): string
    decreases |s|
  {
    if s != [] && IsJsWhitespace(s[0]) then TrimStart(s[1..]) else s
  }

  /** What `trimStart` leaves: a suffix not starting with white space, after a white-space prefix. */
  lemma {:induction false} TrimStartSpec(s: string)
    ensures var r := TrimStart(s);
      && |r| <= |s| && r == s[|s| - |r|..]
      && (r == [] || !IsJsWhitespace(r[0]))
      && forall i :: 0 <= i < |s| - |r| ==> IsJsWhitespace(s[i])
    decreases |s|
  {
    if s != [] && IsJsWhitespace(s[0]) {
      TrimStartSpec(s[1..]);
      var r := TrimStart(s);
      forall i | 1 <= i < |s| - |r| ensures IsJsWhitespace(s[i]) {
        assert s[i] == s[1..][i - 1];
      }
    }
  }

  /** `trimEnd`: drops the longest white-space suffix. */
  function TrimEnd(s: string): string
    decreases |s|
  {
    if s != [] && IsJsWhitespace(s[|s| - 1]) then TrimEnd(s[..|s| - 1]) else s
  }

  /** What `trimEnd` leaves: a prefix not ending in white space, before a white-space suffix. */
  lemma {:induction false} TrimEndSpec(s: string)
    ensures var r := TrimEnd(s);
      && |r| <= |s| && r == s[..|r|]
      && (r == [] || !IsJsWhitespace(r[|r| - 1]))
      && forall i :: |r| <= i < |s| ==> IsJsWhitespace(s[i])
    decreases |s|
  {
    if s != [] && IsJsWhitespace(s[|s| - 1]) {
      TrimEndSpec(s[..|s| - 1]);
      var r := TrimEnd(s);
      forall i | |r| <= i < |s| - 1 ensures IsJsWhitespace(s[i]) {
        assert s[i] == s[..|s| - 1][i];
      }
    }
  }

  /**
   * `trim`: both ends. The result is the slice of `s` left after a
   * white-space prefix and a white-space suffix are cut, and it neither
   * starts nor ends with white space; it is empty exactly when `s` is all
   * white space.
   */
  function Trim(s: string): (r: string)
    ensures |r| <= |s|
    ensures exists a, b ::
      && 0 <= a <= b <= |s| && r == s[a..b]
      && (forall i :: 0 <= i < a ==> IsJsWhitespace(s[i]))
      && (forall i :: b <= i < |s| ==> IsJsWhitespace(s[i]))
    ensures r == [] || (!IsJsWhitespace(r[0]) && !IsJsWhitespace(r[|r| - 1]))
    ensures r == [] <==> forall i :: 0 <= i < |s| ==> IsJsWhitespace(s[i])
  {
    var t := TrimStart(s);
    TrimStartSpec(s);
    var r := TrimEnd(t);
    TrimEndSpec(t);
    var a := |s| - |t|;
    var b := a + |r|;
    assert r == s[a..b] by {
      assert t == s[a..];
      assert r == t[..|r|];
    }
    assert forall i :: b <= i < |s| ==> IsJsWhitespace(s[i]) by {
      forall i | b <= i < |s| ensures IsJsWhitespace(s[i]) {
        assert s[i] == t[i - a];
      }
    }
    assert r != [] ==> r[0] == t[0] && r[0] == s[|s| - |t|];
    r
  }

  /** A JavaScript string is falsy after trimming exactly when it is blank. */
  predicate IsBlank(s: string) {
    Trim(s) == []
  }

  /** Trimming an already trimmed string changes nothing. */
  lemma TrimIdempotent(s: string)
    ensures Trim(Trim(s)) == Trim(s)
  {
    var t := Trim(s);
    TrimStartSpec(t);
    TrimEndSpec(t);
    assert TrimStart(t) == t;
    assert TrimEnd(t) == t;
  }

  /** A non-empty trimmed string is never blank. */
  lemma TrimmedNotBlank(s: string)
    requires Trim(s) != []
    ensures !IsBlank(Trim(s))
  {
    TrimIdempotent(s);
  }

  /** ASCII `toLowerCase` on one character. */
  function LowerChar(c: char): (d: char)
    ensures 'A' <= c <= 'Z' ==> d as int == c as int + 32
    ensures !('A' <= c <= 'Z') ==> d == c
  {
    if 'A' <= c <= 'Z' then (c as int + 32) as char else c
  }

  /** ASCII `toLowerCase` on a string, character by character. */
  function Lower(s: string): (r: string)
    ensures |r| == |s|
    ensures forall i :: 0 <= i < |s| ==> r[i] == LowerChar(s[i])
  {
    seq(|s|, i requires 0 <= i < |s| => LowerChar(s[i]))
  }

  /** Lower-casing twice is lower-casing once. */
  lemma LowerIdempotent(s: string)
    ensures Lower(Lower(s)) == Lower(s)
  {
  }

  /** `hay.includes(needle)`: `needle` occurs in `hay` as a contiguous block. */
  predicate Contains(hay: string, needle: string)
    decreases |hay|
  {
    needle <= hay || (hay != [] && Contains(hay[1..], needle))
  }

  /** `needle` occurs in `hay` starting at index `i`. */
  predicate OccursAt(hay: string, needle: string, i: int) {
    0 <= i <= |hay| - |needle| && hay[i..i + |needle|] == needle
  }

  /** Contains agrees with the positional definition of an occurrence. */
  lemma {:induction false} ContainsAt(hay: string, needle: string)
    ensures Contains(hay, needle) <==> exists i :: OccursAt(hay, needle, i)
    decreases |hay|
  {
    if needle <= hay {
      assert OccursAt(hay, needle, 0);
    } else if hay == [] {
      // needle is not a prefix of "", so it is non-empty and cannot fit
    } else {
      ContainsAt(hay[1..], needle);
      if exists i :: OccursAt(hay, needle, i) {
        var i :| OccursAt(hay, needle, i);
        assert i != 0;
        assert hay[1..][i - 1..i - 1 + |needle|] == hay[i..i + |needle|];
        assert OccursAt(hay[1..], needle, i - 1);
      }
      if Contains(hay[1..], needle) {
        var j :| OccursAt(hay[1..], needle, j);
        assert hay[1..][j..j + |needle|] == hay[j + 1..j + 1 + |needle|];
        assert OccursAt(hay, needle, j + 1);
      }
    }
  }

  /** Every string includes the empty string, so an empty search matches everything. */
  lemma ContainsEmpty(hay: string)
    ensures Contains(hay, "")
  {
  }

  /** `hay.toLowerCase().includes(term.toLowerCase())`. */
  predicate MentionsIgnoringCase(hay: string, term: string) {
    Contains(Lower(hay), Lower(term))
  }

  /** The empty search term is mentioned by every text. */
  lemma EmptyTermMentioned(hay: string)
    ensures MentionsIgnoringCase(hay, "")
  {
    assert Lower("") == "";
    ContainsEmpty(Lower(hay));
  }

  /** Some entry of the list mentions the term, ignoring case (`list.some(...)`). */
  predicate SomeMentions(list: seq<string>, term: string) {
    exists i :: 0 <= i < |list| && MentionsIgnoringCase(list[i], term)
  }
}
