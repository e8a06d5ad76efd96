/**
 * The few functions of Go's `strings` package that the webhook relies on:
 * `HasPrefix`, `ReplaceAll`, `Join`, `IndexRune`/`LastIndex` for a single
 * character, and `Split` on a one-character separator (used only to state
 * that the annotation written by the webhook can be read back).
 * Strings are sequences of characters; one character stands for one UTF-8
 * sequence of Go.
 */
module GoStrings {

  /** `strings.HasPrefix(s, prefix)`. */
  predicate HasPrefix(s: string, prefix: string)
    ensures HasPrefix(s, prefix) <==> |prefix| <= |s| && s == prefix + s[|prefix|..]
  {
    |prefix| <= |s| && s[..|prefix|] == prefix
  }

  /** `pattern` occurs in `s` starting at index `i`. */
  predicate OccursAt(s: string, pattern: string, i: nat) {
    i + |pattern| <= |s| && s[i..i + |pattern|] == pattern
  }

  /** `strings.Contains(s, pattern)`. */
  ghost predicate Contains(s: string, pattern: string) {
    exists i: nat :: OccursAt(s, pattern, i)
  }

  /**
   * `strings.IndexRune(s, c)`: the first index of `c` in `s`, or -1.
   */
  function IndexOf(s: string, c: char): (r: int)
    ensures -1 <= r < |s|
    ensures r == -1 <==> c !in s
    ensures r >= 0 ==> s[r] == c && c !in s[..r]
  {
    if |s| == 0 then -1
    else if s[0] == c then 0
    else
      var r := IndexOf(s[1..], c);
      assert r >= 0 ==> s[..r + 1] == [s[0]] + s[1..][..r];
      if r == -1 then -1 else r + 1
  }

  /**
   * `strings.LastIndex(s, string(c))`: the last index of `c` in `s`, or -1.
   */
  function LastIndex(s: string, c: char): (r: int)
    ensures -1 <= r < |s|
    ensures r == -1 <==> c !in s
    ensures r >= 0 ==> s[r] == c && c !in s[r + 1..]
  {
    if |s| == 0 then -1
    else if s[|s| - 1] == c then |s| - 1
    else
      var front := s[..|s| - 1];
      assert s == front + [s[|s| - 1]];
      var r := LastIndex(front, c);
      assert r >= 0 ==> s[r + 1..] == front[r + 1..] + [s[|s| - 1]];
      r
  }

  /** The first occurrence of a character is the unique one with none before it. */
  lemma IndexOfUnique(s: string, c: char, i: nat)
    requires i < |s| && s[i] == c && c !in s[..i]
    ensures IndexOf(s, c) == i
  {
    assert s[..i + 1][i] == c;
  }

  /** The last occurrence of a character is the unique one with none after it. */
  lemma LastIndexUnique(s: string, c: char, i: nat)
    requires i < |s| && s[i] == c && c !in s[i + 1..]
    ensures LastIndex(s, c) == i
  {
    assert s[i..][0] == c;
  }

  /**
   * `strings.ReplaceAll(s, pattern, replacement)`: every non-overlapping
   * occurrence of `pattern`, scanning left to right, is replaced. An empty
   * pattern matches at the start and after every character.
   */
  function ReplaceAll(s: string, pattern: string, replacement: string): (r: string)
    ensures pattern != [] && |pattern| == |replacement| ==> |r| == |s|
    decreases |s|
  {
    if pattern == [] then Interleave(s, replacement)
    else if |s| == 0 then []
    else if HasPrefix(s, pattern) then replacement + ReplaceAll(s[|pattern|..], pattern, replacement)
    else [s[0]] + ReplaceAll(s[1..], pattern, replacement)
  }

  /** `sep` before every character of `s` and once more at the end. */
  function Interleave(s: string, sep: string): string {
    if s == [] then sep else sep + [s[0]] + Interleave(s[1..], sep)
  }

  /** Replacing a pattern by itself changes nothing. */
  lemma {:induction false} ReplaceAllIdentity(s: string, pattern: string)
    ensures ReplaceAll(s, pattern, pattern) == s
    decreases |s|
  {
    if pattern == [] {
      InterleaveEmpty(s);
    } else if |s| == 0 {
    } else if HasPrefix(s, pattern) {
      ReplaceAllIdentity(s[|pattern|..], pattern);
      assert s == pattern + s[|pattern|..];
    } else {
      ReplaceAllIdentity(s[1..], pattern);
      assert s == [s[0]] + s[1..];
    }
  }

  lemma {:induction false} InterleaveEmpty(s: string)
    ensures Interleave(s, []) == s
  {
    if s != [] {
      InterleaveEmpty(s[1..]);
      assert s == [s[0]] + s[1..];
    }
  }

  /** A string in which a non-empty pattern does not occur is left as it is. */
  lemma {:induction false} ReplaceAllAbsent(s: string, pattern: string, replacement: string)
    requires pattern != []
    requires !Contains(s, pattern)
    ensures ReplaceAll(s, pattern, replacement) == s
    decreases |s|
  {
    if |s| != 0 {
      assert !OccursAt(s, pattern, 0);
      assert !HasPrefix(s, pattern);
      forall i: nat | OccursAt(s[1..], pattern, i) ensures OccursAt(s, pattern, i + 1) {
        assert s[i + 1..i + 1 + |pattern|] == s[1..][i..i + |pattern|];
      }
      ReplaceAllAbsent(s[1..], pattern, replacement);
      assert s == [s[0]] + s[1..];
    }
  }

  /** A string that lacks one of the pattern's characters is left as it is. */
  lemma {:induction false} ReplaceAllMissingChar(s: string, pattern: string, replacement: string, c: char)
    requires c in pattern && c !in s
    ensures ReplaceAll(s, pattern, replacement) == s
    decreases |s|
  {
    if |s| != 0 {
      assert !HasPrefix(s, pattern) by {
        if |pattern| <= |s| {
          var j :| 0 <= j < |pattern| && pattern[j] == c;
          assert s[..|pattern|][j] == s[j] != c;
        }
      }
      ReplaceAllMissingChar(s[1..], pattern, replacement, c);
      assert s == [s[0]] + s[1..];
    }
  }

  /** When the pattern is a prefix, the result starts with the replacement. */
  lemma ReplaceAllAtPrefix(s: string, pattern: string, replacement: string)
    requires HasPrefix(s, pattern)
    ensures HasPrefix(ReplaceAll(s, pattern, replacement), replacement)
  {
    if pattern == [] {
      assert s == [] || Interleave(s, replacement) == replacement + ([s[0]] + Interleave(s[1..], replacement));
    }
  }

  /** `strings.Join(items, sep)`. */
  function Join(items: seq<string>, sep: string): (r: string)
    ensures |items| > 0 ==> HasPrefix(r, items[0])
    ensures forall c :: c !in sep && (forall i | 0 <= i < |items| :: c !in items[i]) ==> c !in r
  {
    if |items| == 0 then []
    else if |items| == 1 then items[0]
    else items[0] + sep + Join(items[1..], sep)
  }

  /** `strings.Split(s, string(sep))` for a one-character separator. */
  function Split(s: string, sep: char): (parts: seq<string>)
    ensures |parts| >= 1
    decreases |s|
  {
    var i := IndexOf(s, sep);
    if i < 0 then [s] else [s[..i]] + Split(s[i + 1..], sep)
  }

  /** Splitting on the separator undoes a join, when no item holds the separator. */
  lemma {:induction false} SplitJoin(items: seq<string>, sep: char)
    requires |items| >= 1
    requires forall i :: 0 <= i < |items| ==> sep !in items[i]
    ensures Split(Join(items, [sep]), sep) == items
  {
    if |items| == 1 {
      assert IndexOf(items[0], sep) == -1;
    } else {
      var head, rest := items[0], Join(items[1..], [sep]);
      var s := head + [sep] + rest;
      assert s[|head|] == sep && s[..|head|] == head;
      IndexOfUnique(s, sep, |head|);
      assert s[|head| + 1..] == rest;
      SplitJoin(items[1..], sep);
    }
  }
}
