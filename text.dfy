/** The string operations the source relies on: `Trim`, `ToLower`, `Contains`, `Split` and
    `string.IsNullOrEmpty`, restricted to ASCII. */
module Text {
  import opened Wrappers

  /** `char.IsWhiteSpace` on ASCII: tab, line feed, vertical tab, form feed, carriage return, space. */
  predicate IsWhiteSpace(c: char) {
    c == ' ' || (9 <= c as int <= 13)
  }

  /** `string.IsNullOrEmpty`. */
  predicate IsNullOrEmpty(s: Option<string>) {
    s.None? || s.value == ""
  }

  /** `string.IsNullOrWhiteSpace`. */
  predicate IsNullOrWhiteSpace(s: Option<string>) {
    s.None? || forall i :: 0 <= i < |s.value| ==> IsWhiteSpace(s.value[i])
  }

  // ---------------------------------------------------------------- Trim

  /** The end of the run of white space that starts at `i`. */
  function SkipWhiteSpace(s: string, i: nat): (j: nat)
    requires i <= |s|
    ensures i <= j <= |s|
    ensures forall k :: i <= k < j ==> IsWhiteSpace(s[k])
    ensures j < |s| ==> !IsWhiteSpace(s[j])
    decreases |s| - i
  {
    if i < |s| && IsWhiteSpace(s[i]) then SkipWhiteSpace(s, i + 1) else i
  }

  /** The start of the run of white space that ends at `j`, going no further left than `lo`. */
  function SkipWhiteSpaceBack(s: string, lo: nat, j: nat): (i: nat)
    requires lo <= j <= |s|
    ensures lo <= i <= j
    ensures forall k :: i <= k < j ==> IsWhiteSpace(s[k])
    ensures i > lo ==> !IsWhiteSpace(s[i - 1])
    decreases j
  {
    if j > lo && IsWhiteSpace(s[j - 1]) then SkipWhiteSpaceBack(s, lo, j - 1) else j
  }

  /** `r` is `s` with some white space cut from its start and some from its end. */
  predicate IsWhiteSpaceCut(s: string, r: string) {
    exists a, b :: 0 <= a <= b <= |s| && r == s[a..b] &&
      (forall k :: 0 <= k < a ==> IsWhiteSpace(s[k])) &&
      (forall k :: b <= k < |s| ==> IsWhiteSpace(s[k]))
  }

  /** `string.Trim()`: the infix of `s` left after removing white space at both ends. */
  function Trim(s: string): (r: string)
    ensures IsWhiteSpaceCut(s, r)
    ensures r != [] ==> !IsWhiteSpace(r[0]) && !IsWhiteSpace(r[|r| - 1])
    ensures r == [] ==> forall i :: 0 <= i < |s| ==> IsWhiteSpace(s[i])
  {
    var a := SkipWhiteSpace(s, 0);
    var b := SkipWhiteSpaceBack(s, a, |s|);
    assert forall k :: 0 <= k < a ==> IsWhiteSpace(s[k]);
    s[a..b]
  }

  /** The contract of `Trim` determines its result: a cut of white space from both ends that
      leaves no white space at either end is the trim. */
  lemma TrimUnique(s: string, r: string)
    requires IsWhiteSpaceCut(s, r)
    requires r != [] ==> !IsWhiteSpace(r[0]) && !IsWhiteSpace(r[|r| - 1])
    requires r == [] ==> forall i :: 0 <= i < |s| ==> IsWhiteSpace(s[i])
    ensures r == Trim(s)
  {
    if r != [] {
      var a, b :| 0 <= a <= b <= |s| && r == s[a..b] &&
        (forall k :: 0 <= k < a ==> IsWhiteSpace(s[k])) &&
        (forall k :: b <= k < |s| ==> IsWhiteSpace(s[k]));
      var a' := SkipWhiteSpace(s, 0);
      assert !IsWhiteSpace(s[a]);
      assert a' == a;
      var b' := SkipWhiteSpaceBack(s, a', |s|);
      assert !IsWhiteSpace(s[b - 1]);
      assert b' == b;
    }
  }

  /** Trimming a string that has no white space at either end changes nothing. */
  lemma TrimClean(s: string)
    requires s != [] ==> !IsWhiteSpace(s[0]) && !IsWhiteSpace(s[|s| - 1])
    ensures Trim(s) == s
  {
    assert SkipWhiteSpace(s, 0) == 0;
    assert SkipWhiteSpaceBack(s, 0, |s|) == |s|;
  }

  /** Trimming is idempotent. */
  lemma TrimIdempotent(s: string)
    ensures Trim(Trim(s)) == Trim(s)
  {
    TrimClean(Trim(s));
  }

  // ---------------------------------------------------------------- ToLower

  /** `char.ToLowerInvariant` on ASCII letters; every other character is kept. */
  function LowerChar(c: char): char {
    if 'A' <= c <= 'Z' then (c as int + 32) as char else c
  }

  /** `string.ToLower()` restricted to ASCII. */
  function AsciiLower(s: string): (r: string)
    ensures |r| == |s|
    ensures forall i :: 0 <= i < |s| ==> r[i] == LowerChar(s[i])
  {
    seq(|s|, i requires 0 <= i < |s| => LowerChar(s[i]))
  }

  /** Lower-casing twice is lower-casing once, and leaves no upper-case ASCII letter. */
  lemma AsciiLowerIdempotent(s: string)
    ensures AsciiLower(AsciiLower(s)) == AsciiLower(s)
    ensures forall i :: 0 <= i < |s| ==> !('A' <= AsciiLower(s)[i] <= 'Z')
  {
  }

  // ---------------------------------------------------------------- Contains

  /** `string.Contains(sub)`, written as a scan over the start positions. */
  predicate Contains(s: string, sub: string)
    decreases |s|
  {
    sub <= s || (s != [] && Contains(s[1..], sub))
  }

  /** `sub` occurs in `s` starting at position `i`. */
  predicate OccursAt(s: string, sub: string, i: int) {
    0 <= i <= |s| - |sub| && s[i..i + |sub|] == sub
  }

  /** The scan agrees with the definition "`sub` occurs at some position of `s`". */
  lemma {:induction false} ContainsIff(s: string, sub: string)
    ensures Contains(s, sub) <==> exists i :: OccursAt(s, sub, i)
    decreases |s|
  {
    if sub <= s {
      assert OccursAt(s, sub, 0);
    } else if s != [] {
      ContainsIff(s[1..], sub);
      assert !OccursAt(s, sub, 0) by {
        assert |sub| <= |s| ==> s[..|sub|] != sub;
      }
      forall i | OccursAt(s, sub, i) ensures OccursAt(s[1..], sub, i - 1) {
        assert s[i..i + |sub|] == s[1..][i - 1..i - 1 + |sub|];
      }
      forall i | OccursAt(s[1..], sub, i) ensures OccursAt(s, sub, i + 1) {
        assert s[i + 1..i + 1 + |sub|] == s[1..][i..i + |sub|];
      }
    }
  }

  // ---------------------------------------------------------------- Split

  /** How many times `c` occurs in `s`. */
  function Occurrences(s: string, c: char): nat {
    multiset(s)[c]
  }

  /** The position of the first `c` in `s`. */
  function IndexOf(s: string, c: char): (i: nat)
    requires c in s
    ensures i < |s| && s[i] == c && c !in s[..i]
  {
    if s[0] == c then 0 else 1 + IndexOf(s[1..], c)
  }

  /** `string.Split(sep)`: the maximal runs between separators, empty runs included. */
  function Split(s: string, sep: char): (parts: seq<string>)
    ensures |parts| == Occurrences(s, sep) + 1
    ensures forall k :: 0 <= k < |parts| ==> sep !in parts[k]
    decreases |s|
  {
    if sep !in s then
      assert multiset(s)[sep] == 0;
      [s]
    else
      var i := IndexOf(s, sep);
      OccurrencesAround(s, i, sep);
      [s[..i]] + Split(s[i + 1..], sep)
  }

  /** Past the first separator there is one separator fewer. */
  lemma OccurrencesAround(s: string, i: nat, sep: char)
    requires i < |s| && s[i] == sep && sep !in s[..i]
    ensures Occurrences(s[i + 1..], sep) + 1 == Occurrences(s, sep)
  {
    assert s == s[..i] + [sep] + s[i + 1..];
    assert multiset(s) == multiset(s[..i]) + multiset([sep]) + multiset(s[i + 1..]);
  }

  /** `string.Join(sep, parts)`. */
  function Join(parts: seq<string>, sep: char): string
    requires parts != []
  {
    if |parts| == 1 then parts[0] else parts[0] + [sep] + Join(parts[1..], sep)
  }

  /** Joining the parts of a split gives back the original string. */
  lemma {:induction false} JoinSplit(s: string, sep: char)
    ensures Join(Split(s, sep), sep) == s
    decreases |s|
  {
    if sep in s {
      var i := IndexOf(s, sep);
      JoinSplit(s[i + 1..], sep);
      assert s == s[..i] + [sep] + s[i + 1..];
    }
  }

  /** The first part of a split is the text before the first separator (all of `s` if none). */
  lemma SplitFirst(s: string, sep: char)
    ensures Split(s, sep)[0] <= s
    ensures sep in s ==> Split(s, sep)[0] == s[..IndexOf(s, sep)]
    ensures sep !in s ==> Split(s, sep)[0] == s
  {
  }
}
