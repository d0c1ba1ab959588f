/** Strings: their order, removal of a pattern, and sorted sets of them. */
module Text {

  /** Lexicographic order by code point. */
  predicate StrLe(a: string, b: string) {
    if a == [] then true
    else if b == [] then false
    else if a[0] == b[0] then StrLe(a[1..], b[1..])
    else a[0] < b[0]
  }

  lemma {:induction false} StrLeTotal(a: string, b: string)
    ensures StrLe(a, b) || StrLe(b, a)
  {
    if a != [] && b != [] && a[0] == b[0] {
      StrLeTotal(a[1..], b[1..]);
    }
  }

  lemma {:induction false} StrLeAntisymmetric(a: string, b: string)
    requires StrLe(a, b) && StrLe(b, a)
    ensures a == b
  {
    if a != [] && b != [] {
      StrLeAntisymmetric(a[1..], b[1..]);
      assert a == [a[0]] + a[1..] && b == [b[0]] + b[1..];
    }
  }

  lemma {:induction false} StrLeTransitive(a: string, b: string, c: string)
    requires StrLe(a, b) && StrLe(b, c)
    ensures StrLe(a, c)
  {
    if a != [] && b != [] && c != [] && a[0] == b[0] && b[0] == c[0] {
      StrLeTransitive(a[1..], b[1..], c[1..]);
    }
  }

  /** The texts agree up to a place where the first has the smaller character. */
  ghost predicate SmallerAt(a: string, b: string, i: nat) {
    i < |a| && i < |b| && a[..i] == b[..i] && a[i] < b[i]
  }

  lemma SameStart(a: string, b: string, i: nat)
    requires 0 < i <= |a| && i <= |b| && a[..i] == b[..i]
    ensures a[0] == b[0]
  {
    assert a[..i][0] == b[..i][0];
  }

  /** A text precedes those it is a prefix of; otherwise the first difference decides. */
  lemma {:induction false} StrLeIff(a: string, b: string)
    ensures StrLe(a, b) <==> a <= b || exists i :: SmallerAt(a, b, i)
  {
    if a != [] && b != [] {
      assert a == [a[0]] + a[1..] && b == [b[0]] + b[1..];
      if a[0] == b[0] {
        StrLeIff(a[1..], b[1..]);
        if i: nat :| SmallerAt(a, b, i) {
          assert a[1..][..i - 1] == a[..i][1..] && b[1..][..i - 1] == b[..i][1..];
          assert SmallerAt(a[1..], b[1..], i - 1);
        }
        if i: nat :| SmallerAt(a[1..], b[1..], i) {
          assert a[..i + 1] == [a[0]] + a[1..][..i] && b[..i + 1] == [b[0]] + b[1..][..i];
          assert SmallerAt(a, b, i + 1);
        }
      } else {
        forall i: nat | SmallerAt(a, b, i)
          ensures i == 0
        {
          if i > 0 {
            SameStart(a, b, i);
          }
        }
        if a[0] < b[0] {
          assert SmallerAt(a, b, 0);
        }
      }
    }
  }

  /** The text with every occurrence of the pattern removed, from left to right. */
  function Without(text: string, pattern: string): string
    requires pattern != []
  {
    if |text| < |pattern| then text
    else if text[..|pattern|] == pattern then Without(text[|pattern|..], pattern)
    else [text[0]] + Without(text[1..], pattern)
  }

  lemma {:induction false} NothingToRemove(text: string, pattern: string)
    requires pattern != [] && pattern[0] !in text
    ensures Without(text, pattern) == text
  {
    if |text| >= |pattern| {
      assert text[..|pattern|][0] == text[0];
      NothingToRemove(text[1..], pattern);
    }
  }

  ghost predicate OccursAt(text: string, pattern: string, i: nat) {
    i + |pattern| <= |text| && text[i..i + |pattern|] == pattern
  }

  ghost predicate FirstOccursAt(text: string, pattern: string, i: nat) {
    OccursAt(text, pattern, i) && forall j: nat :: j < i ==> !OccursAt(text, pattern, j)
  }

  lemma OccursLater(text: string, pattern: string, i: nat)
    requires text != []
    ensures OccursAt(text[1..], pattern, i) <==> OccursAt(text, pattern, i + 1)
  {
    if i + 1 + |pattern| <= |text| {
      assert text[1..][i..i + |pattern|] == text[i + 1..i + 1 + |pattern|];
    }
  }

  /** A pattern at the very end goes if it cannot begin anywhere before. */
  lemma {:induction false} SuffixGoes(text: string, pattern: string)
    requires pattern != [] && pattern[0] !in text
    ensures Without(text + pattern, pattern) == text
  {
    if text == [] {
      assert text + pattern == pattern && pattern[..|pattern|] == pattern;
    } else {
      var all := text + pattern;
      assert all[..|pattern|][0] == text[0];
      assert all[1..] == text[1..] + pattern;
      SuffixGoes(text[1..], pattern);
    }
  }

  /** A text without an occurrence of the pattern stays. */
  lemma {:induction false} NothingOccurs(text: string, pattern: string)
    requires pattern != [] && forall i: nat :: !OccursAt(text, pattern, i)
    ensures Without(text, pattern) == text
  {
    if |text| >= |pattern| {
      assert !OccursAt(text, pattern, 0);
      forall i: nat
        ensures !OccursAt(text[1..], pattern, i)
      {
        OccursLater(text, pattern, i);
      }
      NothingOccurs(text[1..], pattern);
    }
  }

  /** What goes is the first occurrence, and then whatever goes from the text behind it. */
  lemma {:induction false} FirstGoes(text: string, pattern: string, i: nat)
    requires pattern != [] && FirstOccursAt(text, pattern, i)
    ensures Without(text, pattern) == text[..i] + Without(text[i + |pattern|..], pattern)
  {
    if i == 0 {
      GoesAtOnce(text, pattern);
    } else {
      var tail := Without(text[i + |pattern|..], pattern);
      FirstIsLater(text, pattern, i);
      OneLater(text, i, i + |pattern|, tail);
      FirstGoes(text[1..], pattern, i - 1);
      assert Without(text[1..], pattern) == text[1..][..i - 1] + tail;
      SkipsOne(text, pattern);
    }
  }

  lemma OneLater(text: string, i: nat, j: nat, tail: string)
    requires 0 < i <= j <= |text|
    ensures text[1..][j - 1..] == text[j..]
    ensures [text[0]] + (text[1..][..i - 1] + tail) == text[..i] + tail
  {
  }

  lemma GoesAtOnce(text: string, pattern: string)
    requires pattern != [] && OccursAt(text, pattern, 0)
    ensures Without(text, pattern) == text[..0] + Without(text[|pattern|..], pattern)
  {
    assert text[0..|pattern|] == text[..|pattern|] && text[..0] == [];
  }

  lemma SkipsOne(text: string, pattern: string)
    requires pattern != [] && text != [] && !OccursAt(text, pattern, 0)
    ensures Without(text, pattern) == [text[0]] + Without(text[1..], pattern)
  {
    if |text| >= |pattern| {
      assert text[0..|pattern|] == text[..|pattern|];
    } else {
      assert text == [text[0]] + text[1..];
    }
  }

  lemma FirstIsLater(text: string, pattern: string, i: nat)
    requires FirstOccursAt(text, pattern, i) && i > 0 && text != []
    ensures FirstOccursAt(text[1..], pattern, i - 1) && !OccursAt(text, pattern, 0)
  {
    OccursLater(text, pattern, i - 1);
    forall j: nat | j < i - 1
      ensures !OccursAt(text[1..], pattern, j)
    {
      OccursLater(text, pattern, j);
    }
  }

  predicate IsLeast(x: string, s: set<string>) {
    x in s && forall y :: y in s ==> StrLe(x, y)
  }

  lemma {:induction false} LeastExists(s: set<string>)
    requires s != {}
    ensures exists x :: IsLeast(x, s)
  {
    var x :| x in s;
    var rest := s - {x};
    StrLeTotal(x, x);
    if rest == {} {
      assert s == {x};
      assert IsLeast(x, s);
    } else {
      LeastExists(rest);
      var least :| IsLeast(least, rest);
      StrLeTotal(x, least);
      if StrLe(x, least) {
        forall y | y in s
          ensures StrLe(x, y)
        {
          if y != x {
            StrLeTransitive(x, least, y);
          }
        }
        assert IsLeast(x, s);
      } else {
        assert IsLeast(least, s);
      }
    }
  }

  lemma LeastIsUnique(s: set<string>)
    ensures forall x, y :: IsLeast(x, s) && IsLeast(y, s) ==> x == y
  {
    forall x, y | IsLeast(x, s) && IsLeast(y, s)
      ensures x == y
    {
      StrLeAntisymmetric(x, y);
    }
  }

  function Least(s: set<string>): (least: string)
    requires s != {}
    ensures IsLeast(least, s)
  {
    LeastExists(s);
    LeastIsUnique(s);
    var least :| IsLeast(least, s);
    least
  }

  /** The members of a set in ascending order. */
  function SortedMembers(s: set<string>): (members: seq<string>)
    ensures forall x :: x in members <==> x in s
    ensures |members| == |s|
    ensures forall i, j :: 0 <= i < j < |members| ==> members[i] != members[j] && StrLe(members[i], members[j])
  {
    if s == {} then [] else [Least(s)] + SortedMembers(s - {Least(s)})
  }

  /** White space as str.strip() sees it. */
  predicate IsSpace(c: char) {
    var n := c as int;
    9 <= n <= 13 || 28 <= n <= 32 || n == 0x85 || n == 0xA0 || n == 0x1680 || 0x2000 <= n <= 0x200A
    || n == 0x2028 || n == 0x2029 || n == 0x202F || n == 0x205F || n == 0x3000
  }

  /** The code points of the 29 white-space characters. */
  lemma SpacesAre(c: char)
    ensures IsSpace(c) <==> c as int in {
      0x9, 0xA, 0xB, 0xC, 0xD, 0x1C, 0x1D, 0x1E, 0x1F, 0x20, 0x85, 0xA0, 0x1680, 0x2000, 0x2001, 0x2002, 0x2003, 0x2004,
      0x2005, 0x2006, 0x2007, 0x2008, 0x2009, 0x200A, 0x2028, 0x2029, 0x202F, 0x205F, 0x3000}
  {
  }

  function Strip(s: string): string {
    if s == [] then []
    else if IsSpace(s[0]) then Strip(s[1..])
    else if IsSpace(s[|s| - 1]) then Strip(s[..|s| - 1])
    else s
  }

  /** Stripping takes exactly the white space off both ends. */
  lemma {:induction false} StripTakesSpaceOff(s: string) returns (i: nat, j: nat)
    ensures i <= j <= |s| && Strip(s) == s[i..j]
    ensures forall k :: 0 <= k < i || j <= k < |s| ==> IsSpace(s[k])
    ensures i < j ==> !IsSpace(s[i]) && !IsSpace(s[j - 1])
  {
    if s == [] {
      i, j := 0, 0;
    } else if IsSpace(s[0]) {
      i, j := StripTakesSpaceOff(s[1..]);
      assert forall k :: 1 <= k < |s| ==> s[k] == s[1..][k - 1];
      i, j := i + 1, j + 1;
    } else if IsSpace(s[|s| - 1]) {
      i, j := StripTakesSpaceOff(s[..|s| - 1]);
    } else {
      i, j := 0, |s|;
    }
  }
}
