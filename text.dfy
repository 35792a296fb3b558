/** The string operations the core borrows from Python's `str`: `lower()`,
    `title()`, the substring test `k in s`, `split()[0]`, the ordering of
    strings by code point, and `sorted` on a list of strings. Case mapping is
    modelled on ASCII letters; every other character is left as it is. */
module Text {
  import opened Values

  // ---------------------------------------------------------------- case

  predicate IsUpper(c: char) { 'A' <= c <= 'Z' }
  predicate IsLower(c: char) { 'a' <= c <= 'z' }
  predicate IsLetter(c: char) { IsUpper(c) || IsLower(c) }

  function LowerChar(c: char): (r: char)
    ensures !IsUpper(r)
    ensures IsLetter(c) <==> IsLetter(r)
    ensures !IsUpper(c) ==> r == c
  {
    if IsUpper(c) then (c as int + 32) as char else c
  }

  function UpperChar(c: char): (r: char)
    ensures !IsLower(r)
    ensures IsLetter(c) <==> IsLetter(r)
    ensures !IsLower(c) ==> r == c
  {
    if IsLower(c) then (c as int - 32) as char else c
  }

  /** `s.lower()`: no upper-case letter survives, and nothing else changes. */
  function Lower(s: string): (r: string)
    ensures |r| == |s|
    ensures forall i :: 0 <= i < |r| ==> r[i] == LowerChar(s[i])
  {
    seq(|s|, i requires 0 <= i < |s| => LowerChar(s[i]))
  }

  /** `s.title()`: a letter is upper-cased when the character before it is not
      a letter (or it starts the string) and lower-cased otherwise. */
  function Title(s: string): (r: string)
    ensures |r| == |s|
  {
    TitleFrom(s, false)
  }

  function TitleFrom(s: string, prevCased: bool): (r: string)
    ensures |r| == |s|
    ensures |s| > 0 ==> r[0] == if prevCased then LowerChar(s[0]) else UpperChar(s[0])
  {
    if |s| == 0 then ""
    else [if prevCased then LowerChar(s[0]) else UpperChar(s[0])] + TitleFrom(s[1..], IsLetter(s[0]))
  }

  /** Title-casing never changes what `lower()` sees: the title-cased description
      and the raw description match the same lower-case keywords. */
  lemma {:induction false} LowerOfTitleFrom(s: string, prevCased: bool)
    ensures Lower(TitleFrom(s, prevCased)) == Lower(s)
  {
    if |s| > 0 {
      LowerOfTitleFrom(s[1..], IsLetter(s[0]));
      var t := TitleFrom(s, prevCased);
      assert t == [t[0]] + TitleFrom(s[1..], IsLetter(s[0]));
      forall i | 0 <= i < |s| ensures Lower(t)[i] == Lower(s)[i] {
        if i > 0 {
          assert Lower(t)[i] == Lower(TitleFrom(s[1..], IsLetter(s[0])))[i - 1];
        }
      }
    }
  }

  // ---------------------------------------------------------------- substring

  /** `k` occurs in `s` starting at index `i`. */
  predicate OccursAt(k: string, s: string, i: int)
  {
    0 <= i <= |s| - |k| && s[i..i + |k|] == k
  }

  /** Python's `k in s` for two strings. */
  predicate IsSubstring(k: string, s: string)
  {
    exists i | 0 <= i <= |s| - |k| :: OccursAt(k, s, i)
  }

  /** A keyword holding an upper-case letter never occurs in a lower-cased text. */
  lemma UpperKeywordNotInLower(k: string, s: string, j: int)
    requires 0 <= j < |k| && IsUpper(k[j])
    ensures !IsSubstring(k, Lower(s))
  {
  }

  // ---------------------------------------------------------------- split()[0]

  /** The characters `str.split()` with no argument treats as separators. */
  predicate IsSpace(c: char)
  {
    ('\t' <= c <= '\r') || ('\U{1C}' <= c <= '\U{1F}') || c == ' '
    || c == '\U{85}' || c == '\U{A0}' || c == '\U{1680}'
    || ('\U{2000}' <= c <= '\U{200A}') || c == '\U{2028}' || c == '\U{2029}'
    || c == '\U{202F}' || c == '\U{205F}' || c == '\U{3000}'
  }

  /** The leading run of non-space characters of `s`. */
  function TakeToken(s: string): (r: string)
    ensures |r| <= |s|
  {
    if |s| > 0 && !IsSpace(s[0]) then [s[0]] + TakeToken(s[1..]) else ""
  }

  /** `TakeToken` is a maximal run: a prefix of `s` without spaces, followed by
      a space or the end of `s`. */
  lemma {:induction false} TakeTokenIsRun(s: string)
    ensures TakeToken(s) == s[..|TakeToken(s)|]
    ensures forall i :: 0 <= i < |TakeToken(s)| ==> !IsSpace(TakeToken(s)[i])
    ensures |TakeToken(s)| < |s| ==> IsSpace(s[|TakeToken(s)|])
  {
    if |s| > 0 && !IsSpace(s[0]) {
      TakeTokenIsRun(s[1..]);
      var t := TakeToken(s[1..]);
      assert TakeToken(s) == [s[0]] + t;
      assert s == [s[0]] + s[1..];
    }
  }

  /** `tok` stands at index `k` of `s`, preceded only by spaces and followed by
      a space or the end of `s`. */
  ghost predicate TokenAt(s: string, k: int, tok: string)
  {
    && 0 <= k && k + |tok| <= |s|
    && (forall i :: 0 <= i < k ==> IsSpace(s[i]))
    && s[k..k + |tok|] == tok
    && (k + |tok| == |s| || IsSpace(s[k + |tok|]))
  }

  /** `s.split()[0]`; `None` stands for the IndexError raised when `s` is blank. */
  function FirstToken(s: string): (r: Option<string>)
    ensures |s| == 0 ==> r.None?
  {
    if |s| == 0 then None
    else if IsSpace(s[0]) then FirstToken(s[1..])
    else Some(TakeToken(s))
  }

  /** `FirstToken` is the first maximal run of non-space characters, preceded
      only by spaces, and it is missing exactly when `s` is blank. */
  lemma {:induction false} FirstTokenIsSplitHead(s: string)
    ensures FirstToken(s).None? <==> forall i :: 0 <= i < |s| ==> IsSpace(s[i])
    ensures FirstToken(s).Some? ==>
      && |FirstToken(s).value| > 0
      && (forall i :: 0 <= i < |FirstToken(s).value| ==> !IsSpace(FirstToken(s).value[i]))
      && exists k :: TokenAt(s, k, FirstToken(s).value)
  {
    if |s| > 0 {
      if IsSpace(s[0]) {
        FirstTokenIsSplitHead(s[1..]);
        assert forall i :: 0 < i < |s| ==> s[i] == s[1..][i - 1];
        if FirstToken(s).Some? {
          var tok := FirstToken(s).value;
          var k :| TokenAt(s[1..], k, tok);
          assert s[k + 1..k + 1 + |tok|] == s[1..][k..k + |tok|];
          assert TokenAt(s, k + 1, tok);
        }
      } else {
        TakeTokenIsRun(s);
        var tok := TakeToken(s);
        assert tok == [s[0]] + TakeToken(s[1..]);
        assert TokenAt(s, 0, tok);
      }
    }
  }

  // ---------------------------------------------------------------- ordering

  /** Python's `a <= b` on strings: code point by code point, a proper prefix first. */
  predicate LexLe(a: string, b: string)
    decreases |a|
  {
    |a| == 0 || (|b| > 0 && (a[0] < b[0] || (a[0] == b[0] && LexLe(a[1..], b[1..]))))
  }

  /** Python's `a < b` on strings. */
  predicate LexLt(a: string, b: string)
  {
    LexLe(a, b) && a != b
  }

  lemma {:induction false} LexLeRefl(a: string)
    ensures LexLe(a, a)
  {
    if |a| > 0 { LexLeRefl(a[1..]); }
  }

  lemma {:induction false} LexLeTotal(a: string, b: string)
    ensures LexLe(a, b) || LexLe(b, a)
  {
    if |a| > 0 && |b| > 0 && a[0] == b[0] { LexLeTotal(a[1..], b[1..]); }
  }

  lemma {:induction false} LexLeAntisym(a: string, b: string)
    requires LexLe(a, b) && LexLe(b, a)
    ensures a == b
  {
    if |a| > 0 && |b| > 0 {
      LexLeAntisym(a[1..], b[1..]);
      assert a == [a[0]] + a[1..] && b == [b[0]] + b[1..];
    }
  }

  lemma {:induction false} LexLeTrans(a: string, b: string, c: string)
    requires LexLe(a, b) && LexLe(b, c)
    ensures LexLe(a, c)
  {
    if |a| > 0 && |b| > 0 && |c| > 0 && a[0] == b[0] == c[0] {
      LexLeTrans(a[1..], b[1..], c[1..]);
    }
  }

  // ---------------------------------------------------------------- sorted()

  ghost predicate Sorted(s: seq<string>)
  {
    forall i, j :: 0 <= i < j < |s| ==> LexLe(s[i], s[j])
  }

  ghost predicate StrictlySorted(s: seq<string>)
  {
    forall i, j :: 0 <= i < j < |s| ==> LexLt(s[i], s[j])
  }

  ghost predicate Distinct<T>(s: seq<T>)
  {
    forall i, j :: 0 <= i < j < |s| ==> s[i] != s[j]
  }

  function Insert(x: string, s: seq<string>): (r: seq<string>)
    requires Sorted(s)
    ensures Sorted(r)
    ensures multiset(r) == multiset(s) + multiset{x}
  {
    if |s| == 0 then [x]
    else if LexLe(x, s[0]) then
      assert Sorted([x] + s) by {
        forall i, j | 0 <= i < j < |s| + 1 ensures LexLe(([x] + s)[i], ([x] + s)[j]) {
          if i == 0 && j > 1 { LexLeTrans(x, s[0], s[j - 1]); }
        }
      }
      [x] + s
    else
      var rest := Insert(x, s[1..]);
      assert s == [s[0]] + s[1..];
      LexLeTotal(x, s[0]);
      assert forall y | y in multiset(rest) :: LexLe(s[0], y) by {
        forall y | y in multiset(rest) ensures LexLe(s[0], y) {
          if y != x {
            assert y in multiset(s[1..]);
            var j :| 0 <= j < |s[1..]| && s[1..][j] == y;
            assert s[j + 1] == y;
          }
        }
      }
      assert Sorted([s[0]] + rest) by {
        forall i, j | 0 <= i < j < |rest| + 1 ensures LexLe(([s[0]] + rest)[i], ([s[0]] + rest)[j]) {
          if i == 0 { assert rest[j - 1] in multiset(rest); }
        }
      }
      [s[0]] + rest
  }

  /** Python's `sorted(xs)` on strings: ordered, and a permutation of `xs`. */
  function Sort(s: seq<string>): (r: seq<string>)
    ensures Sorted(r)
    ensures multiset(r) == multiset(s)
    ensures |r| == |s|
  {
    if |s| == 0 then []
    else
      assert s == [s[0]] + s[1..];
      Insert(s[0], Sort(s[1..]))
  }

  /** Sorting distinct strings gives a strictly increasing list of the same strings. */
  lemma SortDistinct(s: seq<string>)
    requires Distinct(s)
    ensures StrictlySorted(Sort(s))
    ensures forall x :: x in Sort(s) <==> x in s
  {
    var r := Sort(s);
    forall x ensures x in r <==> x in s {
      assert x in r <==> x in multiset(r);
      assert x in s <==> x in multiset(s);
    }
    forall i, j | 0 <= i < j < |r| ensures LexLt(r[i], r[j]) {
      if r[i] == r[j] {
        RepeatCountsTwo(r, i, j);
        DistinctCountsOne(s, r[i]);
        assert false;
      }
    }
  }

  /** A value at two positions occurs at least twice. */
  lemma RepeatCountsTwo<T>(r: seq<T>, i: int, j: int)
    requires 0 <= i < j < |r| && r[i] == r[j]
    ensures multiset(r)[r[i]] >= 2
  {
    assert r == r[..i] + [r[i]] + r[i + 1..j] + [r[j]] + r[j + 1..];
  }

  lemma {:induction false} DistinctCountsOne<T>(s: seq<T>, x: T)
    requires Distinct(s)
    ensures multiset(s)[x] <= 1
  {
    if |s| > 0 {
      assert s == [s[0]] + s[1..];
      DistinctCountsOne(s[1..], x);
      if s[0] == x {
        assert x !in s[1..];
      }
    }
  }
}
