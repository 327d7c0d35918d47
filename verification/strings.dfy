/** String helpers shared by the model: joining, splitting, replacing, capitalising. */
module Strings {

  /** `[String].joined(separator:)`. */
  function Join(parts: seq<string>, sep: string): string
  {
    if |parts| == 0 then ""
    else if |parts| == 1 then parts[0]
    else parts[0] + sep + Join(parts[1..], sep)
  }

  /** Splits `s` at every occurrence of `c`; never returns an empty list. */
  function Split(s: string, c: char): (r: seq<string>)
    ensures |r| >= 1
  {
    if |s| == 0 then [""]
    else if s[0] == c then [""] + Split(s[1..], c)
    else
      var rest := Split(s[1..], c);
      [[s[0]] + rest[0]] + rest[1..]
  }

  /** Splitting a chunk free of `c`, followed by `c` and more text, peels the chunk off. */
  lemma {:induction false} SplitAfterChunk(x: string, c: char, y: string)
    requires c !in x
    ensures Split(x + [c] + y, c) == [x] + Split(y, c)
  {
    if |x| == 0 {
      assert x + [c] + y == [c] + y;
      assert ([c] + y)[1..] == y;
    } else {
      SplitAfterChunk(x[1..], c, y);
      assert (x + [c] + y)[1..] == x[1..] + [c] + y;
      assert [x[0]] + x[1..] == x;
    }
  }

  /** A chunk free of `c` splits to itself. */
  lemma {:induction false} SplitChunk(x: string, c: char)
    requires c !in x
    ensures Split(x, c) == [x]
  {
    if |x| > 0 {
      SplitChunk(x[1..], c);
      assert [x[0]] + x[1..] == x;
    }
  }

  /** Joining with a one-character separator and splitting on it is a round trip,
      as long as no part contains the separator. */
  lemma {:induction false} SplitJoin(parts: seq<string>, c: char)
    requires |parts| >= 1
    requires forall i :: 0 <= i < |parts| ==> c !in parts[i]
    ensures Split(Join(parts, [c]), c) == parts
  {
    if |parts| == 1 {
      SplitChunk(parts[0], c);
    } else {
      SplitJoin(parts[1..], c);
      SplitAfterChunk(parts[0], c, Join(parts[1..], [c]));
      assert [parts[0]] + parts[1..] == parts;
    }
  }

  /** True when `p` occurs in `s` at position `i`. */
  predicate OccursAt(s: string, p: string, i: nat)
  {
    i + |p| <= |s| && s[i..i + |p|] == p
  }

  /** True when `p` occurs anywhere in `s`. */
  predicate Contains(s: string, p: string)
  {
    exists i: nat | i <= |s| :: OccursAt(s, p, i)
  }

  /** An occurrence in either half is an occurrence in the concatenation. */
  lemma ContainsConcat(a: string, b: string, p: string)
    ensures Contains(a, p) ==> Contains(a + b, p)
    ensures Contains(b, p) ==> Contains(a + b, p)
  {
    if Contains(a, p) {
      var i: nat :| i <= |a| && OccursAt(a, p, i);
      assert (a + b)[i..i + |p|] == a[i..i + |p|];
      assert OccursAt(a + b, p, i);
    }
    if Contains(b, p) {
      var i: nat :| i <= |b| && OccursAt(b, p, i);
      assert (a + b)[|a| + i..|a| + i + |p|] == b[i..i + |p|];
      assert OccursAt(a + b, p, |a| + i);
    }
  }

  /** Every part occurs in the joined text. */
  lemma {:induction false} JoinContains(parts: seq<string>, sep: string, i: nat)
    requires i < |parts|
    ensures Contains(Join(parts, sep), parts[i])
  {
    if |parts| == 1 {
      assert OccursAt(parts[0], parts[0], 0);
    } else if i == 0 {
      assert OccursAt(parts[0], parts[0], 0);
      ContainsConcat(parts[0], sep + Join(parts[1..], sep), parts[0]);
      assert parts[0] + sep + Join(parts[1..], sep) == parts[0] + (sep + Join(parts[1..], sep));
    } else {
      JoinContains(parts[1..], sep, i - 1);
      ContainsConcat(parts[0] + sep, Join(parts[1..], sep), parts[i]);
    }
  }

  /** `String.replacingOccurrences(of:with:)`: left-to-right, non-overlapping; an empty
      target leaves the text unchanged. */
  function ReplaceAll(s: string, p: string, r: string): string
    decreases |s|
  {
    if |p| == 0 || |s| < |p| then s
    else if s[..|p|] == p then r + ReplaceAll(s[|p|..], p, r)
    else [s[0]] + ReplaceAll(s[1..], p, r)
  }

  /** Text without the target comes back unchanged. */
  lemma {:induction false} ReplaceAbsent(s: string, p: string, r: string)
    requires !Contains(s, p)
    ensures ReplaceAll(s, p, r) == s
    decreases |s|
  {
    if |p| == 0 || |s| < |p| {
    } else {
      assert !OccursAt(s, p, 0);
      assert s[0..|p|] == s[..|p|];
      assert !Contains(s[1..], p) by {
        forall i: nat | i <= |s[1..]| && OccursAt(s[1..], p, i)
          ensures false
        {
          assert s[1..][i..i + |p|] == s[i + 1..i + 1 + |p|];
          assert OccursAt(s, p, i + 1);
        }
      }
      ReplaceAbsent(s[1..], p, r);
      assert [s[0]] + s[1..] == s;
    }
  }

  /** A character of the target that the text lacks rules the target out. */
  lemma AbsentByChar(s: string, p: string, x: char)
    requires x in p && x !in s
    ensures !Contains(s, p)
  {
    forall i: nat | i <= |s|
      ensures !OccursAt(s, p, i)
    {
      if i + |p| <= |s| {
        assert x !in s[i..i + |p|];
      }
    }
  }

  /** Text that starts with the target has it replaced first. */
  lemma ReplaceHead(p: string, t: string, r: string)
    requires |p| > 0
    ensures ReplaceAll(p + t, p, r) == r + ReplaceAll(t, p, r)
  {
    assert (p + t)[..|p|] == p && (p + t)[|p|..] == t;
  }

  /** A target free of the separator cannot start before the separator and reach past it. */
  lemma NoMatchAcross(a: string, sep: string, b: string, p: string)
    requires |sep| == 1 && sep[0] !in p
    ensures |a| < |p| <= |a + sep + b| ==> (a + sep + b)[..|p|] != p
  {
    var s := a + sep + b;
    if |a| < |p| <= |s| {
      assert s[..|p|][|a|] == sep[0];
    }
  }

  /** A one-character separator the target does not contain splits the replacement in two. */
  lemma {:induction false} ReplaceSplit(a: string, sep: string, b: string, p: string, r: string)
    requires |sep| == 1 && sep[0] !in p
    ensures ReplaceAll(a + sep + b, p, r) == ReplaceAll(a, p, r) + sep + ReplaceAll(b, p, r)
    decreases |a|
  {
    var s := a + sep + b;
    NoMatchAcross(a, sep, b, p);
    if |p| == 0 || |s| < |p| {
    } else if s[..|p|] == p {
      ReplaceSplitMatch(a, sep, b, p, r);
    } else if |a| == 0 {
      assert s == sep + b && s[1..] == b && sep == [s[0]];
    } else {
      ReplaceSplitStep(a, sep, b, p, r);
    }
  }

  /** The step of `ReplaceSplit` where the target starts the text. */
  lemma {:induction false} ReplaceSplitMatch(a: string, sep: string, b: string, p: string, r: string)
    requires |sep| == 1 && sep[0] !in p
    requires 0 < |p| <= |a| && a[..|p|] == p
    ensures ReplaceAll(a + sep + b, p, r) == ReplaceAll(a, p, r) + sep + ReplaceAll(b, p, r)
    decreases |a|, 1
  {
    var s := a + sep + b;
    assert s[..|p|] == a[..|p|];
    assert s[|p|..] == a[|p|..] + sep + b;
    ReplaceSplit(a[|p|..], sep, b, p, r);
  }

  /** The step of `ReplaceSplit` where the first character is kept. */
  lemma {:induction false} ReplaceSplitStep(a: string, sep: string, b: string, p: string, r: string)
    requires |sep| == 1 && sep[0] !in p && 0 < |p| <= |a + sep + b|
    requires 0 < |a| && (a + sep + b)[..|p|] != p
    ensures ReplaceAll(a + sep + b, p, r) == ReplaceAll(a, p, r) + sep + ReplaceAll(b, p, r)
    decreases |a|, 1
  {
    var s := a + sep + b;
    assert s[1..] == a[1..] + sep + b;
    ReplaceSplit(a[1..], sep, b, p, r);
    var head, tail := ReplaceAll(a[1..], p, r), ReplaceAll(b, p, r);
    assert ReplaceAll(s, p, r) == [a[0]] + (head + sep + tail);
    assert ReplaceAll(a, p, r) == [a[0]] + head by {
      if |a| < |p| {
        assert [a[0]] + a[1..] == a;
      } else {
        assert a[..|p|] == s[..|p|];
      }
    }
    assert [a[0]] + (head + sep + tail) == [a[0]] + head + sep + tail;
  }

  /** Replacing a target by itself changes nothing. */
  lemma {:induction false} ReplaceBySelf(s: string, p: string)
    ensures ReplaceAll(s, p, p) == s
    decreases |s|
  {
    if |p| == 0 || |s| < |p| {
    } else if s[..|p|] == p {
      ReplaceBySelf(s[|p|..], p);
      assert s[..|p|] + s[|p|..] == s;
    } else {
      ReplaceBySelf(s[1..], p);
      assert [s[0]] + s[1..] == s;
    }
  }

  /** ASCII upper-casing of one character. */
  function UpperChar(c: char): (u: char)
    ensures 'a' <= c <= 'z' ==> 'A' <= u <= 'Z'
    ensures !('a' <= c <= 'z') ==> u == c
  {
    if 'a' <= c <= 'z' then (c as int - 32) as char else c
  }

  /** ASCII lower-casing of one character. */
  function LowerChar(c: char): (l: char)
    ensures 'A' <= c <= 'Z' ==> 'a' <= l <= 'z'
    ensures !('A' <= c <= 'Z') ==> l == c
  {
    if 'A' <= c <= 'Z' then (c as int + 32) as char else c
  }

  function Lower(s: string): (r: string)
    ensures |r| == |s|
  {
    if |s| == 0 then "" else [LowerChar(s[0])] + Lower(s[1..])
  }

  /** Lower-casing text without upper-case ASCII letters changes nothing. */
  lemma {:induction false} LowerOfLower(s: string)
    requires forall i :: 0 <= i < |s| ==> !('A' <= s[i] <= 'Z')
    ensures Lower(s) == s
  {
    if |s| > 0 {
      LowerOfLower(s[1..]);
      assert [s[0]] + s[1..] == s;
    }
  }

  /** `String.capitalized` for a single ASCII word: first letter upper-cased, the rest
      lower-cased. */
  function Capitalized(s: string): (r: string)
    ensures |r| == |s|
  {
    if |s| == 0 then "" else [UpperChar(s[0])] + Lower(s[1..])
  }
}
