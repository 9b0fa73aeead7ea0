/**
 * Value-level building blocks shared by the chat pipeline: optional values,
 * Python-style raised exceptions, and the three string operations the
 * pipeline applies to text (`str.strip()`, `str.lower()` and the `in`
 * substring test).
 */
module Common {

  /** Python's `None` or a value. */
  datatype Option<+T> = None | Some(value: T)

  /** The outcome of a Python call that either returns or raises; `message` is `str(e)`. */
  datatype Result<+T> = Ok(value: T) | Raised(message: string)

  /** `bool(x)` for an optional list: `None` and `[]` are both falsy. */
  predicate Truthy<T>(xs: Option<seq<T>>) {
    xs.Some? && |xs.value| > 0
  }

  // ---------------------------------------------------------------------------
  // str.strip()
  // ---------------------------------------------------------------------------

  /** The characters Python's `str.strip()` (no argument) removes. */
  predicate IsSpace(c: char) {
    c == ' ' || c == '\t' || c == '\n' || c == '\r' || c == '\U{B}' || c == '\U{C}'
    || ('\U{1C}' <= c <= '\U{1F}') || c == '\U{85}' || c == '\U{A0}' || c == '\U{1680}'
    || ('\U{2000}' <= c <= '\U{200A}') || c == '\U{2028}' || c == '\U{2029}' || c == '\U{202F}'
    || c == '\U{205F}' || c == '\U{3000}'
  }

  /** Every character of `s` is whitespace (the empty string included). */
  predicate IsBlank(s: string) {
    forall i :: 0 <= i < |s| ==> IsSpace(s[i])
  }

  /** `s.lstrip()`: the suffix of `s` left after dropping leading whitespace. */
  function StripStart(s: string): (r: string)
    ensures |r| <= |s| && r == s[|s| - |r|..]
    ensures IsBlank(s[..|s| - |r|])
    ensures r != [] ==> !IsSpace(r[0])
  {
    if s != [] && IsSpace(s[0]) then
      var r := StripStart(s[1..]);
      assert s[1..][..|s| - 1 - |r|] == s[1..|s| - |r|];
      r
    else
      s
  }

  /** `s.rstrip()`: the prefix of `s` left after dropping trailing whitespace. */
  function StripEnd(s: string): (r: string)
    ensures |r| <= |s| && r == s[..|r|]
    ensures IsBlank(s[|r|..])
    ensures r != [] ==> !IsSpace(r[|r| - 1])
  {
    if s != [] && IsSpace(s[|s| - 1]) then
      var init := s[..|s| - 1];
      var r := StripEnd(init);
      assert IsBlank(s[|r|..]) by {
        forall i | 0 <= i < |s| - |r| ensures IsSpace(s[|r|..][i]) {
          if i < |s| - 1 - |r| {
            assert s[|r|..][i] == init[|r|..][i];
          }
        }
      }
      r
    else
      s
  }

  /**
   * `s.strip()`. The result is empty exactly when `s` is blank, and
   * otherwise starts and ends with a non-whitespace character.
   */
  function Strip(s: string): (r: string)
    ensures r == [] <==> IsBlank(s)
    ensures r != [] ==> !IsSpace(r[0]) && !IsSpace(r[|r| - 1])
  {
    var a := StripStart(s);
    var r := StripEnd(a);
    assert r == [] ==> IsBlank(s) by {
      if r == [] {
        var k := |s| - |a|;
        assert a[|r|..] == a;
        assert a == [];
        assert s[..k] == s;
      }
    }
    r
  }

  /** What `s.strip()` keeps is a contiguous piece of `s`: only the two ends are cut. */
  lemma StripIsPiece(s: string)
    ensures exists k :: OccursAt(s, Strip(s), k) && IsBlank(s[..k]) && IsBlank(s[k + |Strip(s)|..])
  {
    var a := StripStart(s);
    var r := StripEnd(a);
    var k := |s| - |a|;
    assert a == s[k..];
    assert s[k..k + |r|] == a[..|r|];
    assert s[k + |r|..] == a[|r|..];
    assert OccursAt(s, r, k);
  }

  // ---------------------------------------------------------------------------
  // str.lower() and the `in` operator on strings
  // ---------------------------------------------------------------------------

  /** `c.lower()` for the ASCII letters; every other character is left alone. */
  function LowerChar(c: char): (d: char)
    ensures 'A' <= c <= 'Z' ==> d as int == c as int + 32
    ensures !('A' <= c <= 'Z') ==> d == c
  {
    if 'A' <= c <= 'Z' then (c as int + 32) as char else c
  }

  /** `s.lower()`, position by position. */
  function Lower(s: string): (r: string)
    ensures |r| == |s|
    ensures forall i :: 0 <= i < |s| ==> r[i] == LowerChar(s[i])
  {
    seq(|s|, i requires 0 <= i < |s| => LowerChar(s[i]))
  }

  /** `needle` occurs in `hay` starting at position `i`. */
  predicate OccursAt(hay: string, needle: string, i: int) {
    0 <= i <= |hay| - |needle| && hay[i..i + |needle|] == needle
  }

  /** `needle in hay`: some window of `hay` spells `needle`. */
  function Contains(hay: string, needle: string): (b: bool)
    ensures b <==> exists i :: OccursAt(hay, needle, i)
    decreases |hay|
  {
    if |needle| > |hay| then false
    else if hay[..|needle|] == needle then
      assert OccursAt(hay, needle, 0);
      true
    else
      var b := Contains(hay[1..], needle);
      assert b ==> exists i :: OccursAt(hay, needle, i) by {
        if b {
          var j :| OccursAt(hay[1..], needle, j);
          assert hay[j + 1..j + 1 + |needle|] == hay[1..][j..j + |needle|];
          assert OccursAt(hay, needle, j + 1);
        }
      }
      assert (exists i :: OccursAt(hay, needle, i)) ==> b by {
        if exists i :: OccursAt(hay, needle, i) {
          var i :| OccursAt(hay, needle, i);
          assert i != 0;
          assert hay[1..][i - 1..i - 1 + |needle|] == hay[i..i + |needle|];
          assert OccursAt(hay[1..], needle, i - 1);
        }
      }
      b
  }

  /** An occurrence in `b` is one in `a + b`, shifted by `|a|`. */
  lemma OccursInSuffix(a: string, b: string, needle: string, k: int)
    requires OccursAt(b, needle, k)
    ensures OccursAt(a + b, needle, |a| + k)
  {
    assert (a + b)[|a| + k..|a| + k + |needle|] == b[k..k + |needle|];
  }

  /** An occurrence in `a` is one in `a + b` at the same place. */
  lemma OccursInPrefix(a: string, b: string, needle: string, k: int)
    requires OccursAt(a, needle, k)
    ensures OccursAt(a + b, needle, k)
  {
    assert (a + b)[k..k + |needle|] == a[k..k + |needle|];
  }

  /** Concatenation is associative; stated once so that proofs can regroup pieces. */
  lemma AppendAssoc(a: string, b: string, c: string)
    ensures (a + b) + c == a + (b + c)
  {
  }
}
