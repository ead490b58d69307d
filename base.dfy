/** Helpers shared by the model: an Option type, byte strings, and the few
    Python string operations the bot relies on (`lower`, `upper`, `strip`,
    `in`, `split`, `str(int)`), written out over `seq<char>`. */
module Base {

  datatype Option<+T> = None | Some(value: T)

  /** File contents and HTTP response bodies. */
  type Bytes = seq<bv8>

  // ---------------------------------------------------------------- case

  function LowerChar(c: char): char {
    if 'A' <= c <= 'Z' then (c as int + 32) as char else c
  }

  function UpperChar(c: char): char {
    if 'a' <= c <= 'z' then (c as int - 32) as char else c
  }

  /** `str.lower()`, on ASCII letters (other characters are kept). */
  function Lower(s: string): string {
    seq(|s|, i requires 0 <= i < |s| => LowerChar(s[i]))
  }

  /** `str.upper()`, on ASCII letters (other characters are kept). */
  function Upper(s: string): string {
    seq(|s|, i requires 0 <= i < |s| => UpperChar(s[i]))
  }

  /** `Upper(s)` is `t` when they agree character by character. */
  lemma UpperByChars(s: string, t: string)
    requires |s| == |t| && forall i :: 0 <= i < |s| ==> UpperChar(s[i]) == t[i]
    ensures Upper(s) == t
  {
  }

  predicate IsLower(s: string) {
    forall i :: 0 <= i < |s| ==> !('A' <= s[i] <= 'Z')
  }

  lemma LowerIsLower(s: string)
    ensures IsLower(Lower(s)) && |Lower(s)| == |s|
  {
  }

  lemma LowerOfLower(s: string)
    requires IsLower(s)
    ensures Lower(s) == s
  {
    assert forall i :: 0 <= i < |s| ==> Lower(s)[i] == s[i];
  }

  /** Lower-casing twice is lower-casing once. */
  lemma LowerIdempotent(s: string)
    ensures Lower(Lower(s)) == Lower(s)
  {
    LowerIsLower(s);
    LowerOfLower(Lower(s));
  }

  lemma LowerAppend(a: string, b: string)
    ensures Lower(a + b) == Lower(a) + Lower(b)
  {
    assert forall i :: 0 <= i < |a + b| ==> Lower(a + b)[i] == (Lower(a) + Lower(b))[i];
  }

  // ---------------------------------------------------------- substrings

  /** Python's `t in s` on strings. */
  predicate Contains(s: string, t: string) {
    exists i | 0 <= i <= |s| - |t| :: t <= s[i..]
  }

  /** Python's `t in s` for a list of tokens: some token occurs in `s`. */
  predicate ContainsAny(s: string, tokens: seq<string>) {
    exists t | t in tokens :: Contains(s, t)
  }

  /** A token that contains another is only found where the shorter one is. */
  lemma {:induction false} ContainsWeaken(s: string, t: string, u: string)
    requires Contains(s, t) && u <= t
    ensures Contains(s, u)
  {
    var i :| 0 <= i <= |s| - |t| && t <= s[i..];
    assert u <= s[i..];
  }

  /** What occurs inside an occurring token occurs too. */
  lemma ContainsInner(s: string, t: string, u: string, j: nat)
    requires Contains(s, t) && j + |u| <= |t| && u <= t[j..]
    ensures Contains(s, u)
  {
    var i :| 0 <= i <= |s| - |t| && t <= s[i..];
    forall m | 0 <= m < |u| ensures s[i + j..][m] == u[m] {
      assert s[i + j..][m] == s[i..][j + m] == t[j + m];
    }
    assert u <= s[i + j..];
  }

  // ---------------------------------------------------------- whitespace

  /** `str.isspace()` for one character. */
  predicate IsSpace(c: char) {
    var n := c as int;
    (9 <= n <= 13) || (28 <= n <= 32) || n == 0x85 || n == 0xA0 || n == 0x1680
    || (0x2000 <= n <= 0x200A) || n == 0x2028 || n == 0x2029 || n == 0x202F
    || n == 0x205F || n == 0x3000
  }

  function TrimStart(s: string): (r: string)
    ensures |r| <= |s| && r == s[|s| - |r|..]
    ensures |r| > 0 ==> !IsSpace(r[0])
    ensures forall i :: 0 <= i < |s| - |r| ==> IsSpace(s[i])
  {
    if |s| > 0 && IsSpace(s[0]) then TrimStart(s[1..]) else s
  }

  function TrimEnd(s: string): (r: string)
    ensures |r| <= |s| && r == s[..|r|]
    ensures |r| > 0 ==> !IsSpace(r[|r| - 1])
    ensures forall i :: |r| <= i < |s| ==> IsSpace(s[i])
  {
    if |s| > 0 && IsSpace(s[|s| - 1]) then TrimEnd(s[..|s| - 1]) else s
  }

  /** `str.strip()`: drops leading and trailing whitespace. */
  function Strip(s: string): string {
    TrimEnd(TrimStart(s))
  }

  // ------------------------------------------------------------ splitting

  /** Index of the first `c` in `s`, or `|s|` when there is none. */
  function IndexOfChar(s: string, c: char): (k: nat)
    ensures k <= |s|
    ensures k < |s| ==> s[k] == c
    ensures k == |s| <==> c !in s
  {
    if |s| == 0 then 0
    else if s[0] == c then 0
    else 1 + IndexOfChar(s[1..], c)
  }

  /** No `c` comes before `IndexOfChar(s, c)`. */
  lemma {:induction false} IndexOfCharFirst(s: string, c: char)
    ensures c !in s[..IndexOfChar(s, c)]
  {
    if |s| > 0 && s[0] != c {
      IndexOfCharFirst(s[1..], c);
      assert s[..IndexOfChar(s, c)] == [s[0]] + s[1..][..IndexOfChar(s[1..], c)];
    }
  }

  /** Python's `s.split(c)` for a one-character separator. */
  function Split(s: string, c: char): (parts: seq<string>)
    ensures |parts| >= 1
    decreases |s|
  {
    var k := IndexOfChar(s, c);
    if k == |s| then [s] else [s[..k]] + Split(s[k + 1..], c)
  }

  /** The first `c` is at `k` when `s[k]` is `c` and none comes before. */
  lemma IndexOfCharAt(s: string, c: char, k: nat)
    requires k < |s| && s[k] == c && c !in s[..k]
    ensures IndexOfChar(s, c) == k
  {
    var j := IndexOfChar(s, c);
    IndexOfCharFirst(s, c);
    assert s[..j + 1][j] == c || j == |s|;
    assert j <= k;
    assert s[..k + 1][k] == c;
  }

  /** A string without the separator is a single field. */
  lemma SplitNone(s: string, c: char)
    ensures |Split(s, c)| == 1 <==> c !in s
    ensures c !in s ==> Split(s, c) == [s]
  {
  }

  /** After a prefix whose only separator is its last character, splitting
      gives the prefix's text and then the fields of the rest. */
  lemma SplitAfterPrefix(t: string, pre: string, c: char)
    requires |pre| >= 1 && pre <= t && pre[|pre| - 1] == c && c !in pre[..|pre| - 1]
    ensures Split(t, c) == [pre[..|pre| - 1]] + Split(t[|pre|..], c)
  {
    var k := |pre| - 1;
    assert t[..k] == pre[..k];
    IndexOfCharAt(t, c, k);
  }

  /** Python's `c.join(parts)`. */
  function JoinWith(parts: seq<string>, c: char): string
    requires |parts| >= 1
  {
    if |parts| == 1 then parts[0] else parts[0] + [c] + JoinWith(parts[1..], c)
  }

  lemma JoinCons(a: string, parts: seq<string>, c: char)
    requires |parts| >= 1
    ensures JoinWith([a] + parts, c) == a + [c] + JoinWith(parts, c)
  {
    assert ([a] + parts)[1..] == parts;
  }

  /** Splitting and joining again gives back the string. */
  lemma {:induction false} SplitJoin(s: string, c: char)
    ensures JoinWith(Split(s, c), c) == s
    decreases |s|
  {
    var k := IndexOfChar(s, c);
    if k < |s| {
      var rest := s[k + 1..];
      assert Split(s, c) == [s[..k]] + Split(rest, c);
      SplitJoin(rest, c);
      JoinCons(s[..k], Split(rest, c), c);
      assert s == s[..k] + [c] + rest;
    }
  }

  /** The second field is the longest separator-free prefix of the text
      after the first separator. */
  lemma SecondField(t: string, c: char)
    requires c in t
    ensures var rest := t[IndexOfChar(t, c) + 1..]; var f := Split(t, c);
      |f| >= 2 && f[1] <= rest && c !in f[1] && (|f[1]| == |rest| || rest[|f[1]|] == c)
  {
    var k := IndexOfChar(t, c);
    var rest := t[k + 1..];
    assert |Split(t, c)| >= 2 && Split(t, c)[1] == Split(rest, c)[0] by {
      assert Split(t, c) == [t[..k]] + Split(rest, c);
    }
    var j := IndexOfChar(rest, c);
    SplitHead(rest, c);
    assert Split(t, c)[1] == rest[..j] && |rest[..j]| == j;
  }

  /** The first field is the text before the first separator. */
  lemma SplitHead(s: string, c: char)
    ensures var j := IndexOfChar(s, c);
      Split(s, c)[0] == s[..j] && c !in s[..j] && (j == |s| || s[j] == c)
  {
    IndexOfCharFirst(s, c);
  }

  /** No field contains the separator. */
  lemma {:induction false} SplitFieldsLackSeparator(s: string, c: char, i: nat)
    requires i < |Split(s, c)|
    ensures c !in Split(s, c)[i]
    decreases |s|
  {
    var k := IndexOfChar(s, c);
    if k < |s| {
      var rest := s[k + 1..];
      assert Split(s, c) == [s[..k]] + Split(rest, c);
      if i == 0 {
        IndexOfCharFirst(s, c);
      } else {
        SplitFieldsLackSeparator(rest, c, i - 1);
      }
    }
  }

  /** Counting `c` around position `k`. */
  lemma MultisetAround(s: string, k: nat, c: char)
    requires k < |s|
    ensures multiset(s)[c] == multiset(s[..k])[c] + (if s[k] == c then 1 else 0) + multiset(s[k + 1..])[c]
  {
    assert s == s[..k] + [s[k]] + s[k + 1..];
  }

  /** There are as many fields as separators plus one. */
  lemma {:induction false} SplitCount(s: string, c: char)
    ensures |Split(s, c)| == 1 + multiset(s)[c]
    decreases |s|
  {
    var k := IndexOfChar(s, c);
    if k < |s| {
      var rest := s[k + 1..];
      assert Split(s, c) == [s[..k]] + Split(rest, c);
      SplitCount(rest, c);
      IndexOfCharFirst(s, c);
      assert multiset(s[..k])[c] == 0;
      MultisetAround(s, k, c);
    } else {
      assert multiset(s)[c] == 0;
    }
  }

  /** A string with exactly one separator splits into the text before it and the text after it. */
  lemma SplitOnce(s: string, c: char)
    requires multiset(s)[c] == 1
    ensures IndexOfChar(s, c) < |s|
    ensures Split(s, c) == [s[..IndexOfChar(s, c)], s[IndexOfChar(s, c) + 1..]]
  {
    assert c in s by {
      assert c in multiset(s);
    }
    var k := IndexOfChar(s, c);
    var rest := s[k + 1..];
    IndexOfCharFirst(s, c);
    assert multiset(s[..k])[c] == 0;
    MultisetAround(s, k, c);
    assert c !in rest by {
      assert multiset(rest)[c] == 0;
    }
    assert Split(s, c) == [s[..k]] + Split(rest, c);
    SplitNone(rest, c);
  }

  // -------------------------------------------------------------- numbers

  function DigitChar(d: nat): char
    requires d < 10
  {
    "0123456789"[d]
  }

  /** `str(n)` for a non-negative integer. */
  function NatToString(n: nat): (r: string)
    ensures |r| >= 1
    ensures forall i :: 0 <= i < |r| ==> '0' <= r[i] <= '9'
    ensures n < 10 <==> |r| == 1
  {
    if n < 10 then [DigitChar(n)] else NatToString(n / 10) + [DigitChar(n % 10)]
  }

  /** Different numbers print differently. */
  lemma {:induction false} NatToStringInjective(a: nat, b: nat)
    requires NatToString(a) == NatToString(b)
    ensures a == b
  {
    if a >= 10 && b >= 10 {
      var ra, rb := NatToString(a), NatToString(b);
      assert ra[|ra| - 1] == rb[|rb| - 1];
      assert ra[..|ra| - 1] == NatToString(a / 10);
      assert rb[..|rb| - 1] == NatToString(b / 10);
      NatToStringInjective(a / 10, b / 10);
    }
  }

  // ------------------------------------------------------------ sequences

  /** `a` is `b` with some elements left out, the rest in the same order. */
  predicate IsSubsequence<T(==)>(a: seq<T>, b: seq<T>) {
    a == [] || (b != [] && ((a[0] == b[0] && IsSubsequence(a[1..], b[1..])) || IsSubsequence(a, b[1..])))
  }
}
