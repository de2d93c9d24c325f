/**
 * The JavaScript string operations the pages rely on: `trim`, the `\s` class
 * of regular expressions, `replace(/\s/g, '')`, `toLowerCase` and `includes`.
 */
module Text {
  import opened Lists

  /** JavaScript white space and line terminators: exactly the characters that
      `\s` matches and that `trim` removes. */
  const Whitespace: set<char> := {
    '\t', '\n', '\U{000B}', '\U{000C}', '\r', ' ', '\U{00A0}', '\U{1680}',
    '\U{2000}', '\U{2001}', '\U{2002}', '\U{2003}', '\U{2004}', '\U{2005}',
    '\U{2006}', '\U{2007}', '\U{2008}', '\U{2009}', '\U{200A}',
    '\U{2028}', '\U{2029}', '\U{202F}', '\U{205F}', '\U{3000}', '\U{FEFF}'
  }

  predicate IsSpace(c: char) {
    c in Whitespace
  }

  predicate AllSpace(s: string) {
    forall i :: 0 <= i < |s| ==> IsSpace(s[i])
  }

  predicate NoSpace(s: string) {
    forall i :: 0 <= i < |s| ==> !IsSpace(s[i])
  }

  /** Number of white-space characters at the start of `s`. */
  function LeadingSpaces(s: string): (n: nat)
    ensures n <= |s|
    ensures AllSpace(s[..n])
    ensures n == |s| || !IsSpace(s[n])
  {
    if s == [] || !IsSpace(s[0]) then 0
    else
      var n := 1 + LeadingSpaces(s[1..]);
      assert s[..n] == [s[0]] + s[1..][..n - 1];
      n
  }

  /** Number of white-space characters at the end of `s`. */
  function TrailingSpaces(s: string): (n: nat)
    ensures n <= |s|
    ensures AllSpace(s[|s| - n..])
    ensures n == |s| || !IsSpace(s[|s| - n - 1])
  {
    if s == [] || !IsSpace(s[|s| - 1]) then 0
    else
      var prefix := s[..|s| - 1];
      var n := 1 + TrailingSpaces(prefix);
      assert s[|s| - n..] == prefix[|prefix| - (n - 1)..] + [s[|s| - 1]];
      n
  }

  /** `String.prototype.trim`: `s` with the white space at both ends removed. */
  function Trim(s: string): (r: string)
    ensures |r| <= |s|
    ensures exists i, j :: 0 <= i <= j <= |s| && r == s[i..j] && AllSpace(s[..i]) && AllSpace(s[j..])
    ensures r == [] <==> AllSpace(s)
    ensures r != [] ==> !IsSpace(r[0]) && !IsSpace(r[|r| - 1])
  {
    var lead := LeadingSpaces(s);
    var rest := s[lead..];
    var trail := TrailingSpaces(rest);
    var r := rest[..|rest| - trail];
    assert r == s[lead..lead + |r|] && rest[|rest| - trail..] == s[lead + |r|..];
    assert r == [] ==> AllSpace(s) by {
      assert |rest| > 0 ==> rest[0] == s[lead];
      assert s[..|s|] == s;
    }
    r
  }

  /** The characters `replace(/\s/g, '')` keeps. */
  function KeepChar(c: char): bool {
    !IsSpace(c)
  }

  /** `s.replace(/\s/g, '')`: every white-space character deleted, every other
      character kept in order. */
  function RemoveSpaces(s: string): (r: string)
    ensures r == Filter(s, KeepChar)
    ensures NoSpace(r)
  {
    if s == [] then []
    else if IsSpace(s[0]) then RemoveSpaces(s[1..])
    else [s[0]] + RemoveSpaces(s[1..])
  }

  /** Deleting white space empties exactly the blank strings and leaves a string
      without white space as it is. */
  lemma RemoveSpacesBlank(s: string)
    ensures RemoveSpaces(s) == [] <==> AllSpace(s)
    ensures NoSpace(s) ==> RemoveSpaces(s) == s
  {
    var r := RemoveSpaces(s);
    assert r != [] ==> !AllSpace(s) by {
      if r != [] {
        assert r[0] in s && !IsSpace(r[0]);
      }
    }
    assert !AllSpace(s) ==> r != [] by {
      if !AllSpace(s) {
        var i :| 0 <= i < |s| && !IsSpace(s[i]);
        assert s[i] in r;
      }
    }
    assert NoSpace(s) ==> r == s by {
      if NoSpace(s) {
        FilterAll(s, KeepChar);
      }
    }
  }

  /** `s.length`: JavaScript counts UTF-16 code units, so a character outside the
      Basic Multilingual Plane (a surrogate pair) counts twice. */
  function Utf16Length(s: string): (n: nat)
    ensures |s| <= n <= 2 * |s|
  {
    if s == [] then 0
    else (if (s[0] as int) < 0x1_0000 then 1 else 2) + Utf16Length(s[1..])
  }

  /** Within the Basic Multilingual Plane the UTF-16 length is the number of
      characters; one character outside it already counts as two. */
  lemma {:induction false} Utf16LengthOfBmp(s: string)
    ensures (forall i :: 0 <= i < |s| ==> (s[i] as int) < 0x1_0000) ==> Utf16Length(s) == |s|
    ensures (exists i :: 0 <= i < |s| && (s[i] as int) >= 0x1_0000) ==> Utf16Length(s) > |s|
  {
    if s != [] {
      Utf16LengthOfBmp(s[1..]);
      assert forall i :: 0 <= i < |s[1..]| ==> s[1..][i] == s[i + 1];
      if exists i :: 0 <= i < |s| && (s[i] as int) >= 0x1_0000 {
        var i :| 0 <= i < |s| && (s[i] as int) >= 0x1_0000;
        if i > 0 {
          assert (s[1..][i - 1] as int) >= 0x1_0000;
        }
      }
    }
  }

  function LowerChar(c: char): char {
    if 'A' <= c <= 'Z' then (c as int + 32) as char else c
  }

  /** `toLowerCase`, restricted to the ASCII letters: each character lowered on
      its own. */
  function Lower(s: string): (r: string)
    ensures |r| == |s|
    ensures forall i :: 0 <= i < |s| ==> r[i] == LowerChar(s[i])
    ensures forall i :: 0 <= i < |r| ==> !('A' <= r[i] <= 'Z')
  {
    seq(|s|, i requires 0 <= i < |s| => LowerChar(s[i]))
  }

  ghost predicate OccursAt(hay: string, needle: string, i: int) {
    0 <= i && i + |needle| <= |hay| && hay[i..i + |needle|] == needle
  }

  /** `hay.includes(needle)`: true exactly when the needle occurs at some index. */
  function Contains(hay: string, needle: string): (r: bool)
    ensures r <==> exists i :: OccursAt(hay, needle, i)
    decreases |hay|
  {
    if |needle| > |hay| then false
    else if hay[..|needle|] == needle then
      assert OccursAt(hay, needle, 0);
      true
    else
      var rest := Contains(hay[1..], needle);
      assert rest ==> exists i :: OccursAt(hay, needle, i) by {
        if rest {
          var i :| OccursAt(hay[1..], needle, i);
          assert hay[1..][i..i + |needle|] == hay[i + 1..i + 1 + |needle|];
          assert OccursAt(hay, needle, i + 1);
        }
      }
      assert (exists i :: OccursAt(hay, needle, i)) ==> rest by {
        forall i | OccursAt(hay, needle, i) ensures rest {
          assert i != 0;
          assert hay[1..][i - 1..i - 1 + |needle|] == hay[i..i + |needle|];
          assert OccursAt(hay[1..], needle, i - 1);
        }
      }
      rest
  }

  /** `hay.toLowerCase().includes(needle.toLowerCase())`: the listing pages' search. */
  function ContainsIgnoringCase(hay: string, needle: string): (r: bool)
    ensures r <==> exists i :: OccursAt(Lower(hay), Lower(needle), i)
    ensures needle == "" ==> r
  {
    assert needle == "" ==> OccursAt(Lower(hay), Lower(needle), 0);
    Contains(Lower(hay), Lower(needle))
  }
}
