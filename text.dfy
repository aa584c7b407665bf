/** String operations the vault relies on: `str.lower()`, the substring test
    `q in s` and `sep.join(parts)`. Strings are sequences of Unicode scalar values,
    as Python's `str` is. */
module Text {

  import opened Lists

  /** Python's lowercase mapping, restricted to the ASCII letters A-Z. */
  function LowerChar(c: char): char
  {
    if 'A' <= c <= 'Z' then (c as int + 32) as char else c
  }

  /** `s.lower()`: same length, every character lowercased in place. */
  function Lower(s: string): (r: string)
    ensures |r| == |s|
    ensures forall i :: 0 <= i < |s| ==> r[i] == LowerChar(s[i])
    ensures forall i :: 0 <= i < |r| ==> !('A' <= r[i] <= 'Z')
  {
    if s == [] then [] else [LowerChar(s[0])] + Lower(s[1..])
  }

  /** `needle` occurs in `haystack` starting at position `i`. */
  ghost predicate OccursAt(haystack: string, needle: string, i: int)
  {
    0 <= i && i + |needle| <= |haystack| && haystack[i..i + |needle|] == needle
  }

  /** Python's `needle in haystack` for strings, as a left-to-right scan. */
  predicate Contains(haystack: string, needle: string)
    ensures IsPrefix(needle, haystack) ==> Contains(haystack, needle)
    ensures Contains(haystack, needle) ==> |needle| <= |haystack|
    decreases |haystack|
  {
    IsPrefix(needle, haystack) || (haystack != [] && Contains(haystack[1..], needle))
  }

  /** The scan finds the needle exactly when it occurs at some position. */
  lemma {:induction false} ContainsIffOccurs(haystack: string, needle: string)
    ensures Contains(haystack, needle) <==> exists i :: OccursAt(haystack, needle, i)
  {
    if haystack != [] {
      ContainsIffOccurs(haystack[1..], needle);
    }
    if Contains(haystack, needle) {
      if IsPrefix(needle, haystack) {
        assert OccursAt(haystack, needle, 0);
      } else {
        var i :| OccursAt(haystack[1..], needle, i);
        assert haystack[i + 1..i + 1 + |needle|] == haystack[1..][i..i + |needle|];
        assert OccursAt(haystack, needle, i + 1);
      }
    }
    if exists i :: OccursAt(haystack, needle, i) {
      var i :| OccursAt(haystack, needle, i);
      if i > 0 {
        assert haystack[i..i + |needle|] == haystack[1..][i - 1..i - 1 + |needle|];
        assert OccursAt(haystack[1..], needle, i - 1);
      } else {
        assert IsPrefix(needle, haystack);
      }
    }
  }

  /** The empty string is in every string, so an empty search matches everything. */
  lemma EmptyIsContained(haystack: string)
    ensures Contains(haystack, "")
  {
    assert IsPrefix("", haystack);
  }

  /** The summed lengths of `parts`. */
  function TotalLength(parts: seq<string>): nat
  {
    if parts == [] then 0 else |parts[0]| + TotalLength(parts[1..])
  }

  /** `sep.join(parts)`: the parts in order with one separator between neighbours, so it
      starts with the first part and is as long as the parts plus the separators. */
  function Join(sep: string, parts: seq<string>): (r: string)
    ensures parts == [] ==> r == ""
    ensures parts != [] ==> |r| == TotalLength(parts) + (|parts| - 1) * |sep|
    ensures parts != [] ==> IsPrefix(parts[0], r)
    decreases |parts|
  {
    if |parts| == 0 then ""
    else if |parts| == 1 then parts[0]
    else parts[0] + sep + Join(sep, parts[1..])
  }

  /** Joining a concatenation joins each half and puts one separator between them; with
      the one-part case this fixes every position of the result. */
  lemma {:induction false} JoinAppend(sep: string, a: seq<string>, b: seq<string>)
    requires a != [] && b != []
    ensures Join(sep, a + b) == Join(sep, a) + sep + Join(sep, b)
    decreases |a|
  {
    if |a| == 1 {
      assert (a + b)[1..] == b;
    } else {
      assert (a + b)[1..] == a[1..] + b;
      JoinAppend(sep, a[1..], b);
    }
  }

  /** Iterating over a Python string yields its characters as one-character strings. */
  function Chars(s: string): (r: seq<string>)
    ensures |r| == |s|
    ensures forall i :: 0 <= i < |s| ==> r[i] == [s[i]]
  {
    seq(|s|, i requires 0 <= i < |s| => [s[i]])
  }

  /** `sep.join(s)` on a string with a one-character separator interleaves its characters:
      every character of `s` sits at an even position and the separator at every odd one. */
  lemma {:induction false} JoinCharsInterleaves(sep: char, s: string)
    requires s != []
    ensures |Join([sep], Chars(s))| == 2 * |s| - 1
    ensures forall i :: 0 <= i < |s| ==> Join([sep], Chars(s))[2 * i] == s[i]
    ensures forall i :: 0 <= i < |s| - 1 ==> Join([sep], Chars(s))[2 * i + 1] == sep
  {
    if |s| > 1 {
      JoinCharsInterleaves(sep, s[1..]);
      assert Chars(s)[1..] == Chars(s[1..]);
      var rest := Join([sep], Chars(s[1..]));
      assert Join([sep], Chars(s)) == [s[0]] + [sep] + rest;
      forall i | 1 <= i < |s|
        ensures Join([sep], Chars(s))[2 * i] == s[i]
      {
        assert rest[2 * (i - 1)] == s[1..][i - 1];
      }
      forall i | 1 <= i < |s| - 1
        ensures Join([sep], Chars(s))[2 * i + 1] == sep
      {
        assert rest[2 * (i - 1) + 1] == sep;
      }
    }
  }
}
