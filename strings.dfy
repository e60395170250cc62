/** The string operations the transform relies on: the unanchored regular
    expression tests (`/x/.test(s)` is "s contains x"), `String.replace` with a
    string pattern, `toLowerCase`, splitting on a separator and joining. */
module Strings {

  predicate StartsWith(s: string, prefix: string) {
    |prefix| <= |s| && s[..|prefix|] == prefix
  }

  /** `/sub/.test(s)` for a pattern without metacharacters. */
  predicate Contains(s: string, sub: string)
    decreases |s|
  {
    StartsWith(s, sub) || (|s| > 0 && Contains(s[1..], sub))
  }

  /** `/a|b|c/.test(s)`. */
  predicate ContainsAny(s: string, subs: seq<string>) {
    exists i :: 0 <= i < |subs| && Contains(s, subs[i])
  }

  lemma {:induction false} ContainsAt(s: string, sub: string, i: nat)
    requires i + |sub| <= |s| && s[i..i + |sub|] == sub
    ensures Contains(s, sub)
    decreases i
  {
    if i > 0 {
      assert s[1..][i - 1..i - 1 + |sub|] == s[i..i + |sub|];
      ContainsAt(s[1..], sub, i - 1);
    }
  }

  lemma {:induction false} ContainsWitness(s: string, sub: string) returns (i: nat)
    requires Contains(s, sub)
    ensures i + |sub| <= |s| && s[i..i + |sub|] == sub
    decreases |s|
  {
    if StartsWith(s, sub) {
      i := 0;
    } else {
      var j := ContainsWitness(s[1..], sub);
      assert s[1..][j..j + |sub|] == s[j + 1..j + 1 + |sub|];
      i := j + 1;
    }
  }

  /** No string holds a two-letter pair that its text lacks. */
  lemma NotContainsPair(s: string, sub: string)
    requires |sub| >= 2
    requires forall j :: 0 <= j < |s| - 1 ==> s[j] != sub[0] || s[j + 1] != sub[1]
    ensures !Contains(s, sub)
  {
    if Contains(s, sub) {
      var i := ContainsWitness(s, sub);
      assert false;
    }
  }

  /** No string holds a pattern whose first character it lacks. */
  lemma NotContainsFirst(s: string, sub: string)
    requires |sub| >= 1 && sub[0] !in s
    ensures !Contains(s, sub)
  {
    if Contains(s, sub) {
      var i := ContainsWitness(s, sub);
      assert false;
    }
  }

  /** The extension of `Contains` to a longer string: a match stays a match. */
  lemma ContainsInfix(a: string, s: string, b: string, sub: string)
    requires Contains(s, sub)
    ensures Contains(a + s + b, sub)
  {
    var i := ContainsWitness(s, sub);
    assert (a + s + b)[|a| + i..|a| + i + |sub|] == s[i..i + |sub|];
    ContainsAt(a + s + b, sub, |a| + i);
  }

  function LowerChar(c: char): char {
    if 'A' <= c <= 'Z' then (c as int + 32) as char else c
  }

  predicate NoUpper(s: string) {
    forall i :: 0 <= i < |s| ==> !('A' <= s[i] <= 'Z')
  }

  /** `toLowerCase` on the ASCII letters: no capital is left, each capital
      becomes its small letter, and every other character is kept in
      place. */
  function ToLower(s: string): (r: string)
    ensures |r| == |s| && NoUpper(r)
    ensures forall i :: 0 <= i < |s| && 'A' <= s[i] <= 'Z' ==> 'a' <= r[i] <= 'z' && r[i] as int == s[i] as int + 32
    ensures forall i :: 0 <= i < |s| && !('A' <= s[i] <= 'Z') ==> r[i] == s[i]
  {
    seq(|s|, i requires 0 <= i < |s| => LowerChar(s[i]))
  }

  /** Lower-casing keeps a match, lower-cased. */
  lemma ToLowerContains(s: string, sub: string)
    requires Contains(s, sub)
    ensures Contains(ToLower(s), ToLower(sub))
  {
    var i := ContainsWitness(s, sub);
    assert ToLower(s)[i..i + |sub|] == ToLower(sub);
    ContainsAt(ToLower(s), ToLower(sub), i);
  }

  /** `s.replace(pattern, replacement)` with a string pattern: only the first
      occurrence is replaced. */
  function ReplaceFirst(s: string, pattern: string, replacement: string): string
    decreases |s|
  {
    if StartsWith(s, pattern) then replacement + s[|pattern|..]
    else if |s| == 0 then s
    else [s[0]] + ReplaceFirst(s[1..], pattern, replacement)
  }

  lemma {:induction false} ReplaceFirstAbsent(s: string, pattern: string, replacement: string)
    requires !Contains(s, pattern)
    ensures ReplaceFirst(s, pattern, replacement) == s
    decreases |s|
  {
    if |s| > 0 {
      ReplaceFirstAbsent(s[1..], pattern, replacement);
    }
  }

  /** The first occurrence of `pattern` in `s` is at `i`. */
  predicate FirstAt(s: string, pattern: string, i: nat) {
    i + |pattern| <= |s| && s[i..i + |pattern|] == pattern &&
    forall j :: 0 <= j < i ==> !StartsWith(s[j..], pattern)
  }

  /** `replace` with a string pattern replaces its first occurrence and
      keeps the rest. */
  lemma {:induction false} ReplaceFirstAt(s: string, pattern: string, replacement: string, i: nat)
    requires FirstAt(s, pattern, i)
    ensures ReplaceFirst(s, pattern, replacement) == s[..i] + replacement + s[i + |pattern|..]
    decreases i
  {
    if i == 0 {
      assert StartsWith(s, pattern);
    } else {
      var t := s[1..];
      assert !StartsWith(s[0..], pattern);
      assert s[0..] == s;
      assert ReplaceFirst(s, pattern, replacement) == [s[0]] + ReplaceFirst(t, pattern, replacement);
      assert FirstAt(t, pattern, i - 1) by {
        assert t[i - 1..i - 1 + |pattern|] == s[i..i + |pattern|];
        forall j | 0 <= j < i - 1 ensures !StartsWith(t[j..], pattern) {
          assert t[j..] == s[j + 1..];
        }
      }
      ReplaceFirstAt(t, pattern, replacement, i - 1);
      assert [s[0]] + t[..i - 1] == s[..i];
      assert t[i - 1 + |pattern|..] == s[i + |pattern|..];
    }
  }

  /** `parts.join(sep)`. */
  function JoinWith(parts: seq<string>, sep: string): string
    decreases |parts|
  {
    if |parts| == 0 then ""
    else if |parts| == 1 then parts[0]
    else parts[0] + sep + JoinWith(parts[1..], sep)
  }

  /** `s.split(c)`: always at least one piece, and no piece holds `c`. */
  function Split(s: string, c: char): (r: seq<string>)
    ensures |r| >= 1
    ensures forall i :: 0 <= i < |r| ==> c !in r[i]
    decreases |s|
  {
    if |s| == 0 then [""]
    else
      var rest := Split(s[1..], c);
      if s[0] == c then [""] + rest else [[s[0]] + rest[0]] + rest[1..]
  }

  lemma {:induction false} JoinConsHead(x: string, parts: seq<string>, sep: string)
    requires |parts| >= 1
    ensures JoinWith([x + parts[0]] + parts[1..], sep) == x + JoinWith(parts, sep)
  {
    var p := [x + parts[0]] + parts[1..];
    if |parts| > 1 {
      assert p[1..] == parts[1..];
    }
  }

  /** Joining one more piece adds the separator and the piece at the end. */
  lemma {:induction false} JoinWithSnoc(parts: seq<string>, x: string, sep: string)
    requires |parts| >= 1
    ensures JoinWith(parts + [x], sep) == JoinWith(parts, sep) + sep + x
    decreases |parts|
  {
    if |parts| == 1 {
      assert (parts + [x])[1..] == [x];
    } else {
      assert (parts + [x])[1..] == parts[1..] + [x];
      JoinWithSnoc(parts[1..], x, sep);
    }
  }

  /** Splitting at a last separator ends the pieces with what follows it. */
  lemma {:induction false} SplitSnoc(a: string, c: char, b: string)
    requires c !in b
    ensures Split(a + [c] + b, c) == Split(a, c) + [b]
    decreases |a|
  {
    var s := a + [c] + b;
    if |a| == 0 {
      assert s == [c] + b && s[1..] == b;
      SplitJoin([b], c);
    } else {
      assert s[0] == a[0] && s[1..] == a[1..] + [c] + b;
      SplitSnoc(a[1..], c, b);
      var rest := Split(a[1..], c);
      if a[0] != c {
        assert (rest + [b])[0] == rest[0] && (rest + [b])[1..] == rest[1..] + [b];
      }
    }
  }

  /** Joining the pieces of a split with the separator gives the string back. */
  lemma {:induction false} JoinSplit(s: string, c: char)
    ensures JoinWith(Split(s, c), [c]) == s
    decreases |s|
  {
    if |s| > 0 {
      var rest := Split(s[1..], c);
      JoinSplit(s[1..], c);
      if s[0] == c {
        var r := [""] + rest;
        assert r[1..] == rest;
        assert JoinWith(r, [c]) == "" + [c] + JoinWith(rest, [c]);
        assert s == [s[0]] + s[1..];
      } else {
        JoinConsHead([s[0]], rest, [c]);
        assert s == [s[0]] + s[1..];
      }
    }
  }

  /** Splitting a join of separator-free, non-empty-list pieces gives the
      pieces back. */
  lemma {:induction false} SplitJoin(parts: seq<string>, c: char)
    requires |parts| >= 1
    requires forall i :: 0 <= i < |parts| ==> c !in parts[i]
    ensures Split(JoinWith(parts, [c]), c) == parts
    decreases |parts|, |parts[0]|
  {
    var x := parts[0];
    if |x| > 0 {
      // peel the first character of the first piece
      var parts' := [x[1..]] + parts[1..];
      assert parts'[1..] == parts[1..];
      forall i | 0 <= i < |parts'| ensures c !in parts'[i] {
        if i == 0 {
          assert forall k :: 0 <= k < |x[1..]| ==> x[1..][k] == x[k + 1];
        }
      }
      SplitJoin(parts', c);
      JoinConsHead([x[0]], parts', [c]);
      assert [x[0]] + x[1..] == x;
      assert [[x[0]] + parts'[0]] + parts'[1..] == [[x[0]] + x[1..]] + parts[1..];
      assert [[x[0]] + x[1..]] + parts[1..] == parts;
      var j := JoinWith(parts, [c]);
      assert j == [x[0]] + JoinWith(parts', [c]);
      assert j[0] == x[0] && j[1..] == JoinWith(parts', [c]);
    } else if |parts| == 1 {
    } else {
      var j := JoinWith(parts, [c]);
      assert j == [c] + JoinWith(parts[1..], [c]);
      assert j[1..] == JoinWith(parts[1..], [c]);
      SplitJoin(parts[1..], c);
      assert [x] + parts[1..] == parts;
    }
  }

  function DigitChar(d: nat): char
    requires d < 10
  {
    "0123456789"[d]
  }

  /** `String(n)` for a natural number. */
  function NatToString(n: nat): (r: string)
    ensures |r| >= 1
    decreases n
  {
    if n < 10 then [DigitChar(n)] else NatToString(n / 10) + [DigitChar(n % 10)]
  }

  /** `\w`: letters, digits and underscore. */
  predicate IsWordChar(c: char) {
    ('a' <= c <= 'z') || ('A' <= c <= 'Z') || ('0' <= c <= '9') || c == '_'
  }

  predicate AllWordChars(s: string) {
    forall i :: 0 <= i < |s| ==> IsWordChar(s[i])
  }
}
