/** The string operations the application calls: case mapping, `includes`, `startsWith`,
    `split(c)[0]`, `trim` and the `\S` character class of its regular expressions. */
module Text {

  /** The characters JavaScript's `\s` and `trim` treat as white space. */
  predicate IsSpace(c: char) {
    var n := c as int;
    (9 <= n <= 13) || n == 0x20 || n == 0xA0 || n == 0x1680 || (0x2000 <= n <= 0x200A)
    || n == 0x2028 || n == 0x2029 || n == 0x202F || n == 0x205F || n == 0x3000 || n == 0xFEFF
  }

  function UpperChar(c: char): char {
    if 'a' <= c <= 'z' then (c as int - 32) as char else c
  }

  function LowerChar(c: char): char {
    if 'A' <= c <= 'Z' then (c as int + 32) as char else c
  }

  /** `toUpperCase`, on the ASCII letters. */
  function Upper(s: string): (r: string)
    ensures |r| == |s|
    ensures forall i :: 0 <= i < |s| ==> r[i] == UpperChar(s[i])
  {
    seq(|s|, i requires 0 <= i < |s| => UpperChar(s[i]))
  }

  /** `toLowerCase`, on the ASCII letters. */
  function Lower(s: string): (r: string)
    ensures |r| == |s|
    ensures forall i :: 0 <= i < |s| ==> r[i] == LowerChar(s[i])
  {
    seq(|s|, i requires 0 <= i < |s| => LowerChar(s[i]))
  }

  /** Upper-casing forgets the case the text was written in. */
  lemma UpperOfLower(s: string)
    ensures Upper(Lower(s)) == Upper(s)
  {
  }

  /** Lower-casing forgets the case the text was written in. */
  lemma LowerOfUpper(s: string)
    ensures Lower(Upper(s)) == Lower(s)
  {
  }

  /** `sub` occurs in `s` starting at index `i`. */
  ghost predicate OccursAt(s: string, sub: string, i: int) {
    0 <= i && i + |sub| <= |s| && s[i..i + |sub|] == sub
  }

  /** `s.includes(sub)`. */
  function Contains(s: string, sub: string): (r: bool)
    ensures r <==> exists i :: OccursAt(s, sub, i)
    decreases |s|
  {
    if |sub| > |s| then false
    else if s[..|sub|] == sub then (assert OccursAt(s, sub, 0); true)
    else
      var rest := Contains(s[1..], sub);
      ShiftOccurrence(s, sub);
      rest
  }

  /** An occurrence in `s` past its first character is an occurrence in `s[1..]`, and back. */
  lemma ShiftOccurrence(s: string, sub: string)
    requires |sub| <= |s| && s[..|sub|] != sub
    ensures (exists i :: OccursAt(s, sub, i)) <==> (exists i :: OccursAt(s[1..], sub, i))
  {
    if exists i :: OccursAt(s, sub, i) {
      var i :| OccursAt(s, sub, i);
      assert i != 0;
      assert s[1..][i - 1..i - 1 + |sub|] == s[i..i + |sub|];
      assert OccursAt(s[1..], sub, i - 1);
    }
    if exists i :: OccursAt(s[1..], sub, i) {
      var i :| OccursAt(s[1..], sub, i);
      assert s[i + 1..i + 1 + |sub|] == s[1..][i..i + |sub|];
      assert OccursAt(s, sub, i + 1);
    }
  }

  /** `s.toLowerCase().includes(term.toLowerCase())`: the title search of the list pages. */
  predicate MatchesSearch(s: string, term: string) {
    Contains(Lower(s), Lower(term))
  }

  /** The empty search matches every text. */
  lemma EmptySearchMatches(s: string)
    ensures MatchesSearch(s, "")
  {
    assert OccursAt(Lower(s), Lower(""), 0);
  }

  /** The search ignores the letter case of the text and of the term. */
  lemma SearchIgnoresCase(s: string, term: string)
    ensures MatchesSearch(s, term) == MatchesSearch(s, Upper(term)) == MatchesSearch(Upper(s), term)
  {
    LowerOfUpper(term);
    LowerOfUpper(s);
  }

  /** A term found in the text as written is found by the search. */
  lemma SearchFindsOccurrence(s: string, term: string, i: int)
    requires OccursAt(s, term, i)
    ensures MatchesSearch(s, term)
  {
    assert Lower(s)[i..i + |term|] == Lower(term);
    assert OccursAt(Lower(s), Lower(term), i);
  }

  /** `s.startsWith(prefix)`. */
  predicate StartsWith(s: string, prefix: string) {
    |prefix| <= |s| && s[..|prefix|] == prefix
  }

  /** `s.split(c)[0]`: the text before the first `c`, or all of `s` when there is none. */
  function BeforeFirst(s: string, c: char): (r: string)
    ensures StartsWith(s, r)
    ensures c !in r
    ensures |r| < |s| ==> s[|r|] == c
    decreases |s|
  {
    if s == [] then []
    else if s[0] == c then []
    else [s[0]] + BeforeFirst(s[1..], c)
  }

  /** Every character is white space (the empty text included). */
  ghost predicate AllSpace(s: string) {
    forall i :: 0 <= i < |s| ==> IsSpace(s[i])
  }

  /** `trimStart`. */
  function TrimStart(s: string): (r: string)
    ensures r == [] <==> AllSpace(s)
    ensures r != [] ==> !IsSpace(r[0]) && r[|r| - 1] == s[|s| - 1]
    decreases |s|
  {
    if s != [] && IsSpace(s[0]) then
      var r := TrimStart(s[1..]);
      assert AllSpace(s) <==> AllSpace(s[1..]) by {
        assert forall i :: 0 <= i < |s[1..]| ==> s[1..][i] == s[i + 1];
      }
      r
    else s
  }

  /** `trimEnd`. */
  function TrimEnd(s: string): (r: string)
    ensures r == [] <==> AllSpace(s)
    ensures r != [] ==> !IsSpace(r[|r| - 1]) && r[0] == s[0]
    decreases |s|
  {
    if s != [] && IsSpace(s[|s| - 1]) then
      var r := TrimEnd(s[..|s| - 1]);
      assert AllSpace(s) <==> AllSpace(s[..|s| - 1]) by {
        assert forall i :: 0 <= i < |s[..|s| - 1]| ==> s[..|s| - 1][i] == s[i];
      }
      r
    else s
  }

  /** `trim`: the text is blank exactly when it is made of white space only. */
  function Trim(s: string): (r: string)
    ensures r == [] <==> AllSpace(s)
    ensures r != [] ==> !IsSpace(r[0]) && !IsSpace(r[|r| - 1])
  {
    TrimEnd(TrimStart(s))
  }

  /** The regular expression `\S+@\S+\.\S+`, unanchored, matches with the `@` at index `a`
      and the `.` at index `d`: a non-space just before the `@`, at least one character
      between them, none of them white space, and a non-space right after the `.`. */
  ghost predicate EmailWitness(s: string, a: int, d: int) {
    1 <= a && a + 1 < d && d + 1 < |s|
    && s[a] == '@' && s[d] == '.'
    && !IsSpace(s[a - 1]) && !IsSpace(s[d + 1])
    && (forall k :: a < k < d ==> !IsSpace(s[k]))
  }

  /** Searches for the `.` of a match whose `@` is at `a`, scanning from `k` through the
      run of non-space characters after the `@`. */
  function DotInRun(s: string, a: nat, k: nat): (r: bool)
    requires 1 <= a < k <= |s| && s[a] == '@' && !IsSpace(s[a - 1])
    requires forall j :: a < j < k ==> !IsSpace(s[j])
    ensures r <==> exists d :: k <= d && EmailWitness(s, a, d)
    decreases |s| - k
  {
    if k + 1 >= |s| then false
    else if IsSpace(s[k]) then false
    else if s[k] == '.' && a + 2 <= k && !IsSpace(s[k + 1]) then (assert EmailWitness(s, a, k); true)
    else DotInRun(s, a, k + 1)
  }

  /** A match whose `@` is at index `a`. */
  function MatchAt(s: string, a: nat): (r: bool)
    ensures r <==> exists d :: EmailWitness(s, a, d)
  {
    if 1 <= a && a + 1 < |s| && s[a] == '@' && !IsSpace(s[a - 1]) then DotInRun(s, a, a + 1)
    else false
  }

  /** A match whose `@` is at index `a` or later. */
  function MatchFrom(s: string, a: nat): (r: bool)
    ensures r <==> exists a', d :: a <= a' && EmailWitness(s, a', d)
    decreases |s| - a
  {
    if a >= |s| then false
    else MatchAt(s, a) || MatchFrom(s, a + 1)
  }

  /** `/\S+@\S+\.\S+/.test(s)`. */
  function IsEmailShaped(s: string): (r: bool)
    ensures r <==> exists a, d :: EmailWitness(s, a, d)
  {
    MatchFrom(s, 0)
  }
}
