/** The string operations of JavaScript that the front end relies on:
    `split` and `join` with a one-character separator, ASCII case mapping,
    `includes`, `startsWith`, `endsWith` and the blank test `!s.trim()`. */
module Text {

  /** `s.split(c)`: the maximal runs between separators, always at least one
      (`"".split(c)` is `[""]`). */
  function Split(s: string, c: char): (parts: seq<string>)
    ensures |parts| >= 1
    ensures forall i :: 0 <= i < |parts| ==> c !in parts[i]
    decreases |s|
  {
    if s == [] then [[]]
    else
      var rest := Split(s[1..], c);
      if s[0] == c then [[]] + rest
      else [[s[0]] + rest[0]] + rest[1..]
  }

  /** `parts.join(c)` (`[].join(c)` is `""`). */
  function Join(parts: seq<string>, c: char): string
    decreases |parts|
  {
    if parts == [] then []
    else if |parts| == 1 then parts[0]
    else parts[0] + [c] + Join(parts[1..], c)
  }

  lemma {:induction false} SplitNoSeparator(s: string, c: char)
    requires c !in s
    ensures Split(s, c) == [s]
    decreases |s|
  {
    if s != [] {
      SplitNoSeparator(s[1..], c);
      assert [s[0]] + s[1..] == s;
    }
  }

  /** The text splits into more than one part exactly when it holds the
      separator. */
  lemma {:induction false} SplitSeparated(s: string, c: char)
    ensures |Split(s, c)| >= 2 <==> c in s
    decreases |s|
  {
    if c !in s {
      SplitNoSeparator(s, c);
    } else if s[0] != c {
      assert c in s[1..];
      SplitSeparated(s[1..], c);
    }
  }

  lemma SplitCons(x: char, s: string, c: char)
    ensures Split([x] + s, c)
         == if x == c then [[]] + Split(s, c) else [[x] + Split(s, c)[0]] + Split(s, c)[1..]
  {
    assert ([x] + s)[0] == x && ([x] + s)[1..] == s;
  }

  /** Splitting at one separator splits the two sides independently. */
  lemma {:induction false} SplitConcat(a: string, b: string, c: char)
    ensures Split(a + [c] + b, c) == Split(a, c) + Split(b, c)
    decreases |a|
  {
    if a == [] {
      assert a + [c] + b == [c] + b;
      SplitCons(c, b, c);
      assert Split(a, c) == [[]];
    } else {
      SplitConcat(a[1..], b, c);
      SplitConcatStep(a, b, c);
    }
  }

  lemma SplitConcatStep(a: string, b: string, c: char)
    requires a != [] && Split(a[1..] + [c] + b, c) == Split(a[1..], c) + Split(b, c)
    ensures Split(a + [c] + b, c) == Split(a, c) + Split(b, c)
  {
    var t := a[1..] + [c] + b;
    assert a + [c] + b == [a[0]] + t;
    SplitCons(a[0], t, c);
    if a[0] == c {
      ConsAssoc([], Split(a[1..], c), Split(b, c));
    } else {
      HeadAssoc(a[0], Split(a[1..], c), Split(b, c));
    }
  }

  /** A separator-free first field splits off whole. */
  lemma SplitTagged(tag: string, rest: string, c: char)
    requires c !in tag
    ensures Split(tag + [c] + rest, c) == [tag] + Split(rest, c)
  {
    SplitConcat(tag, rest, c);
    SplitNoSeparator(tag, c);
  }

  lemma ConsAssoc(h: string, ra: seq<string>, rb: seq<string>)
    ensures [h] + (ra + rb) == ([h] + ra) + rb
  {
  }

  lemma HeadAssoc(x: char, ra: seq<string>, rb: seq<string>)
    requires |ra| >= 1
    ensures [[x] + (ra + rb)[0]] + (ra + rb)[1..] == ([[x] + ra[0]] + ra[1..]) + rb
  {
    assert (ra + rb)[0] == ra[0];
    assert (ra + rb)[1..] == ra[1..] + rb;
    ConsAssoc([x] + ra[0], ra[1..], rb);
  }

  /** Splitting a joined list gives the list back, provided no element holds
      the separator and the list is not empty (`[].join(c).split(c)` is `[""]`). */
  lemma {:induction false} SplitJoin(parts: seq<string>, c: char)
    requires |parts| >= 1
    requires forall i :: 0 <= i < |parts| ==> c !in parts[i]
    ensures Split(Join(parts, c), c) == parts
    decreases |parts|
  {
    if |parts| == 1 {
      SplitNoSeparator(parts[0], c);
    } else {
      SplitJoin(parts[1..], c);
      SplitConcat(parts[0], Join(parts[1..], c), c);
      SplitNoSeparator(parts[0], c);
      assert [parts[0]] + parts[1..] == parts;
    }
  }

  /** Joining the pieces of a split gives the string back. */
  lemma {:induction false} JoinSplit(s: string, c: char)
    ensures Join(Split(s, c), c) == s
    decreases |s|
  {
    if s != [] {
      JoinSplit(s[1..], c);
      var rest := Split(s[1..], c);
      if s[0] == c {
        assert Split(s, c) == [[]] + rest;
        assert ([[]] + rest)[1..] == rest;
        assert [c] + s[1..] == s;
      } else {
        var head := [s[0]] + rest[0];
        assert Split(s, c) == [head] + rest[1..];
        assert ([head] + rest[1..])[1..] == rest[1..];
        if |rest| == 1 {
          assert s == [s[0]] + s[1..];
        } else {
          assert rest == [rest[0]] + rest[1..];
          assert Join(rest, c) == rest[0] + [c] + Join(rest[1..], c);
          assert s == [s[0]] + s[1..];
        }
      }
    }
  }

  /** A character other than the separator that no part holds is not in the join. */
  lemma {:induction false} JoinAvoids(parts: seq<string>, c: char, d: char)
    requires d != c
    requires forall i :: 0 <= i < |parts| ==> d !in parts[i]
    ensures d !in Join(parts, c)
    decreases |parts|
  {
    if |parts| > 1 {
      JoinAvoids(parts[1..], c, d);
    }
  }

  predicate IsAsciiUpper(c: char) { 'A' <= c <= 'Z' }
  predicate IsAsciiLower(c: char) { 'a' <= c <= 'z' }

  function LowerChar(c: char): char {
    if IsAsciiUpper(c) then (c as int + 32) as char else c
  }

  function UpperChar(c: char): char {
    if IsAsciiLower(c) then (c as int - 32) as char else c
  }

  /** `s.toLowerCase()` restricted to ASCII letters. */
  function Lower(s: string): string {
    seq(|s|, i requires 0 <= i < |s| => LowerChar(s[i]))
  }

  /** `s.toUpperCase()` restricted to ASCII letters. */
  function Upper(s: string): string {
    seq(|s|, i requires 0 <= i < |s| => UpperChar(s[i]))
  }

  predicate StartsWith(s: string, prefix: string) {
    |prefix| <= |s| && s[..|prefix|] == prefix
  }

  predicate EndsWith(s: string, suffix: string) {
    |suffix| <= |s| && s[|s| - |suffix|..] == suffix
  }

  /** `s.includes(sub)`. */
  predicate Contains(s: string, sub: string)
    decreases |s|
  {
    StartsWith(s, sub) || (s != [] && Contains(s[1..], sub))
  }

  /** The characters `String.prototype.trim` removes: white space and line
      terminators. */
  predicate IsJsWhiteSpace(c: char) {
    c == ' ' || c == '\t' || c == '\n' || c == '\r' || c == '\U{000B}' || c == '\U{000C}'
    || c == '\U{00A0}' || c == '\U{FEFF}' || c == '\U{1680}' || ('\U{2000}' <= c <= '\U{200A}')
    || c == '\U{2028}' || c == '\U{2029}' || c == '\U{202F}' || c == '\U{205F}' || c == '\U{3000}'
  }

  /** `!s.trim()`: the string is empty after trimming. */
  predicate IsBlank(s: string) {
    forall i :: 0 <= i < |s| ==> IsJsWhiteSpace(s[i])
  }

  /** The case-insensitive market-pair search of the spot-trading page and of
      `useMarketPairs`: the symbol or the base asset includes the query. The
      query is not trimmed for the comparison, only for the blank test. */
  predicate PairMatches(symbol: string, baseAsset: string, query: string) {
    Contains(Lower(symbol), Lower(query)) || Contains(Lower(baseAsset), Lower(query))
  }

  lemma {:induction false} ContainsEmpty(s: string)
    ensures Contains(s, [])
  {
    assert StartsWith(s, []);
  }
}
