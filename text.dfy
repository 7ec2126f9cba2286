/** The JavaScript string operations the core relies on, restricted to
    ASCII: `toLowerCase`, `toUpperCase`, `includes`, `startsWith`, `trim`. */
module Text {

  function LowerChar(c: char): char
  {
    if 'A' <= c <= 'Z' then (c as int + 32) as char else c
  }

  function UpperChar(c: char): char
  {
    if 'a' <= c <= 'z' then (c as int - 32) as char else c
  }

  /** `s.toLowerCase()` on ASCII letters. */
  function Lower(s: string): (r: string)
    ensures |r| == |s|
    ensures forall i :: 0 <= i < |s| ==> r[i] == LowerChar(s[i])
  {
    seq(|s|, i requires 0 <= i < |s| => LowerChar(s[i]))
  }

  /** needle occurs in hay starting at index i. */
  predicate OccursAt(hay: string, needle: string, i: int)
  {
    0 <= i <= |hay| - |needle| && hay[i..i + |needle|] == needle
  }

  /** `hay.includes(needle)`: needle occurs in hay at some position. */
  predicate Contains(hay: string, needle: string)
  {
    exists i | 0 <= i <= |hay| - |needle| :: OccursAt(hay, needle, i)
  }

  /** `s.startsWith(prefix)`. */
  predicate StartsWith(s: string, prefix: string)
  {
    |prefix| <= |s| && s[..|prefix|] == prefix
  }

  /** The characters `trim` removes, restricted to ASCII: space, tab, line
      feed, vertical tab, form feed and carriage return. */
  predicate IsSpace(c: char)
  {
    c == ' ' || '\t' <= c <= '\r'
  }

  /** Drops the leading white space. */
  function TrimStart(s: string): (r: string)
    ensures |r| <= |s| && r == s[|s| - |r|..]
    ensures r == [] || !IsSpace(r[0])
    ensures forall i :: 0 <= i < |s| - |r| ==> IsSpace(s[i])
  {
    if s != [] && IsSpace(s[0]) then TrimStart(s[1..]) else s
  }

  /** Drops the trailing white space. */
  function TrimEnd(s: string): (r: string)
    ensures |r| <= |s| && r == s[..|r|]
    ensures r == [] || !IsSpace(r[|r| - 1])
    ensures forall i :: |r| <= i < |s| ==> IsSpace(s[i])
  {
    if s != [] && IsSpace(s[|s| - 1]) then TrimEnd(s[..|s| - 1]) else s
  }

  /** `s.trim()`. */
  function Trim(s: string): string
  {
    TrimEnd(TrimStart(s))
  }

  /** `!s.trim()`: the string is empty or all white space. */
  predicate IsBlank(s: string)
  {
    forall i :: 0 <= i < |s| ==> IsSpace(s[i])
  }

  /** What `trim` keeps is a slice of the input, and what it drops on
      either side of that slice is white space. */
  lemma TrimSlice(s: string)
    ensures exists lo :: OccursAt(s, Trim(s), lo) && IsBlank(s[..lo]) && IsBlank(s[lo + |Trim(s)|..])
  {
    var a := TrimStart(s);
    var r := TrimEnd(a);
    var lo := |s| - |a|;
    PrefixOfSuffix(s, a, r);
    BlankHead(s, lo);
    BlankTail(s, a, r);
    assert OccursAt(s, r, lo) && IsBlank(s[..lo]) && IsBlank(s[lo + |r|..]);
  }

  lemma BlankHead(s: string, lo: int)
    requires 0 <= lo <= |s| && forall i :: 0 <= i < lo ==> IsSpace(s[i])
    ensures IsBlank(s[..lo])
  {
  }

  /** What a suffix a of s drops after its prefix r is a blank tail of s. */
  lemma BlankTail(s: string, a: string, r: string)
    requires |a| <= |s| && a == s[|s| - |a|..]
    requires |r| <= |a| && forall i :: |r| <= i < |a| ==> IsSpace(a[i])
    ensures IsBlank(s[|s| - |a| + |r|..])
  {
    var lo := |s| - |a|;
    forall j | lo + |r| <= j < |s| ensures IsSpace(s[j]) {
      assert s[j] == a[j - lo];
    }
  }

  /** A prefix of a suffix of s occurs in s where the suffix starts. */
  lemma PrefixOfSuffix(s: string, a: string, r: string)
    requires |a| <= |s| && a == s[|s| - |a|..]
    requires |r| <= |a| && r == a[..|r|]
    ensures OccursAt(s, r, |s| - |a|)
  {
    assert r == s[|s| - |a|..][..|r|];
  }

  /** What `trim` keeps neither starts nor ends with white space. */
  lemma TrimEnds(s: string)
    ensures Trim(s) == [] || (!IsSpace(Trim(s)[0]) && !IsSpace(Trim(s)[|Trim(s)| - 1]))
  {
    var a := TrimStart(s);
    var r := TrimEnd(a);
    if r != [] {
      assert r[0] == a[0];
    }
  }

  /** `!s.trim()` holds exactly for blank strings. */
  lemma TrimEmptyIffBlank(s: string)
    ensures Trim(s) == [] <==> IsBlank(s)
  {
    var a := TrimStart(s);
    var lo := |s| - |a|;
    assert a == s[lo..];
    if TrimEnd(a) == [] {
      forall i | 0 <= i < |s| ensures IsSpace(s[i]) {
        if i >= lo {
          assert s[i] == a[i - lo];
        }
      }
    }
  }

  /** What `trim` keeps is a slice of the input that neither starts nor ends
      with white space, with only white space dropped before and after it,
      and it is empty exactly when the input is blank. */
  lemma TrimSpec(s: string)
    ensures exists lo :: OccursAt(s, Trim(s), lo) && IsBlank(s[..lo]) && IsBlank(s[lo + |Trim(s)|..])
    ensures Trim(s) == [] || (!IsSpace(Trim(s)[0]) && !IsSpace(Trim(s)[|Trim(s)| - 1]))
    ensures Trim(s) == [] <==> IsBlank(s)
  {
    TrimSlice(s);
    TrimEnds(s);
    TrimEmptyIffBlank(s);
  }

  /** What `trim` keeps of a string that is not blank. */
  lemma TrimNonBlank(s: string)
    requires !IsBlank(s)
    ensures var n := Trim(s);
      && n != [] && !IsSpace(n[0]) && !IsSpace(n[|n| - 1])
      && exists lo :: OccursAt(s, n, lo) && IsBlank(s[..lo]) && IsBlank(s[lo + |n|..])
  {
    TrimSlice(s);
    TrimEnds(s);
    TrimEmptyIffBlank(s);
  }
}
