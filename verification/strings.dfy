/** The few Python string operations the adapter relies on: `str.split` on a
    one-character separator, `str.replace` of a character, and `str.upper`
    restricted to ASCII letters. */
module Strings {

  /** Number of occurrences of `c` in `s`. */
  function Occurrences(s: string, c: char): nat {
    multiset(s)[c]
  }

  lemma OccurrencesCons(s: string, c: char)
    requires |s| > 0
    ensures Occurrences(s, c) == (if s[0] == c then 1 else 0) + Occurrences(s[1..], c)
  {
    assert s == [s[0]] + s[1..];
    assert multiset(s) == multiset([s[0]]) + multiset(s[1..]);
  }

  /** Occurrences in a concatenation add up. */
  lemma OccurrencesAppend(a: string, b: string, c: char)
    ensures Occurrences(a + b, c) == Occurrences(a, c) + Occurrences(b, c)
  {
  }

  /** Python's `s.split(sep)` for a one-character separator: the pieces between
      consecutive separators, empty pieces included, so `""` splits into `[""]`. */
  function Split(s: string, sep: char): (parts: seq<string>)
    ensures |parts| >= 1
    ensures forall i :: 0 <= i < |parts| ==> sep !in parts[i]
    decreases |s|
  {
    if |s| == 0 then [""]
    else
      var rest := Split(s[1..], sep);
      if s[0] == sep then [""] + rest
      else [[s[0]] + rest[0]] + rest[1..]
  }

  /** Python's `sep.join(parts)`. */
  function Join(parts: seq<string>, sep: string): string
    decreases |parts|
  {
    if |parts| == 0 then ""
    else if |parts| == 1 then parts[0]
    else parts[0] + sep + Join(parts[1..], sep)
  }

  /** Python's `s.replace(target, replacement)` for a one-character target. */
  function Replace(s: string, target: char, replacement: string): (r: string)
    ensures target !in replacement ==> target !in r
    ensures forall c :: c in r ==> c in s || c in replacement
    decreases |s|
  {
    if |s| == 0 then ""
    else (if s[0] == target then replacement else [s[0]]) + Replace(s[1..], target, replacement)
  }

  /** A string splits into one more piece than it has separators. */
  lemma {:induction false} SplitLength(s: string, sep: char)
    ensures |Split(s, sep)| == Occurrences(s, sep) + 1
    decreases |s|
  {
    if |s| > 0 {
      SplitLength(s[1..], sep);
      OccurrencesCons(s, sep);
    }
  }

  /** Joining a piece onto the front of the first of several pieces. */
  lemma {:induction false} JoinPrependToFirst(p: string, parts: seq<string>, sep: string)
    requires |parts| >= 1
    ensures Join([p + parts[0]] + parts[1..], sep) == p + Join(parts, sep)
  {
  }

  /** Splitting on a separator and joining the pieces back with it gives the
      original string. */
  lemma {:induction false} JoinSplit(s: string, sep: char)
    ensures Join(Split(s, sep), [sep]) == s
    decreases |s|
  {
    if |s| > 0 {
      var rest := Split(s[1..], sep);
      JoinSplit(s[1..], sep);
      if s[0] == sep {
        assert ([""] + rest)[1..] == rest;
      } else {
        JoinPrependToFirst([s[0]], rest, [sep]);
      }
      assert s == [s[0]] + s[1..];
    }
  }

  /** `s.replace(c, r)` is `r.join(s.split(c))`: replacing is splitting on the
      target and joining with the replacement. */
  lemma {:induction false} ReplaceIsJoinOfSplit(s: string, target: char, replacement: string)
    ensures Replace(s, target, replacement) == Join(Split(s, target), replacement)
    decreases |s|
  {
    if |s| > 0 {
      var rest := Split(s[1..], target);
      ReplaceIsJoinOfSplit(s[1..], target, replacement);
      if s[0] == target {
        assert ([""] + rest)[1..] == rest;
      } else {
        JoinPrependToFirst([s[0]], rest, replacement);
      }
    }
  }

  /** Every target grows into the whole replacement; every other character stays. */
  lemma {:induction false} ReplaceLength(s: string, target: char, replacement: string)
    ensures |Replace(s, target, replacement)| + Occurrences(s, target)
         == |s| + Occurrences(s, target) * |replacement|
    decreases |s|
  {
    if |s| > 0 {
      ReplaceLength(s[1..], target, replacement);
      OccurrencesCons(s, target);
      var o := Occurrences(s[1..], target);
      assert (o + 1) * |replacement| == o * |replacement| + |replacement|;
    }
  }

  /** Replacing distributes over concatenation. */
  lemma {:induction false} ReplaceAppend(a: string, b: string, target: char, replacement: string)
    ensures Replace(a + b, target, replacement) == Replace(a, target, replacement) + Replace(b, target, replacement)
    decreases |a|
  {
    if |a| > 0 {
      assert (a + b)[1..] == a[1..] + b;
      ReplaceAppend(a[1..], b, target, replacement);
    } else {
      assert a + b == b;
    }
  }

  /** A string without the target is left unchanged. */
  lemma {:induction false} ReplaceAbsent(s: string, target: char, replacement: string)
    requires target !in s
    ensures Replace(s, target, replacement) == s
    decreases |s|
  {
    if |s| > 0 {
      assert target !in s[1..] by {
        assert forall k :: 0 <= k < |s| - 1 ==> s[1..][k] == s[k + 1];
      }
      ReplaceAbsent(s[1..], target, replacement);
      assert s == [s[0]] + s[1..];
    }
  }

  /** `c.upper()` for ASCII: lower-case letters `a`..`z` map to `A`..`Z`,
      every other character is left alone. */
  function UpperAscii(c: char): char {
    if 'a' <= c <= 'z' then (c as int - 'a' as int + 'A' as int) as char else c
  }

  /** `s.upper()`, restricted to ASCII case mapping. */
  function ToUpperAscii(s: string): (r: string)
    ensures |r| == |s|
    decreases |s|
  {
    if |s| == 0 then "" else [UpperAscii(s[0])] + ToUpperAscii(s[1..])
  }

  lemma {:induction false} ToUpperAsciiAt(s: string, i: nat)
    requires i < |s|
    ensures ToUpperAscii(s)[i] == UpperAscii(s[i])
    decreases |s|
  {
    if i > 0 {
      ToUpperAsciiAt(s[1..], i - 1);
    }
  }
}
