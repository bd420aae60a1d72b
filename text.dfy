/** The Python string operations the modelled code relies on, on `seq<char>`:
    `sep.join(parts)`, `s.split(c)` for a one-character separator,
    `s.replace(old, new)` and `s.lower()` (ASCII letters only). */
module Text {

  /** `sep.join(parts)`. */
  function Join(parts: seq<string>, sep: string): string
  {
    if |parts| == 0 then ""
    else if |parts| == 1 then parts[0]
    else parts[0] + sep + Join(parts[1..], sep)
  }

  /** Appending one more part to a non-empty join adds the separator and the part:
      the step that grows a joined string one element at a time. */
  lemma {:induction false} JoinAppend(parts: seq<string>, p: string, sep: string)
    requires |parts| > 0
    ensures Join(parts + [p], sep) == Join(parts, sep) + sep + p
  {
    if |parts| == 1 {
      assert (parts + [p])[1..] == [p];
    } else {
      assert (parts + [p])[1..] == parts[1..] + [p];
      JoinAppend(parts[1..], p, sep);
    }
  }

  /** `s.split(c)`: the pieces between the occurrences of `c`. There is always
      at least one piece, and no piece contains the separator. */
  function Split(s: string, c: char): (r: seq<string>)
    ensures |r| >= 1
    ensures forall i :: 0 <= i < |r| ==> c !in r[i]
  {
    if |s| == 0 then [""]
    else
      var rest := Split(s[1..], c);
      if s[0] == c then [""] + rest
      else [[s[0]] + rest[0]] + rest[1..]
  }

  /** Splitting and joining back with the same separator gives the input back. */
  lemma {:induction false} JoinSplit(s: string, c: char)
    ensures Join(Split(s, c), [c]) == s
  {
    if |s| > 0 {
      var rest := Split(s[1..], c);
      JoinSplit(s[1..], c);
      if s[0] == c {
        assert Split(s, c) == [""] + rest;
        assert ([""] + rest)[1..] == rest;
        assert s == [c] + s[1..];
      } else {
        var r := Split(s, c);
        assert r == [[s[0]] + rest[0]] + rest[1..];
        if |rest| == 1 {
          assert s == [s[0]] + s[1..];
        } else {
          assert r[1..] == rest[1..];
          assert s == [s[0]] + s[1..];
        }
      }
    }
  }

  /** There are at least two pieces exactly when the separator occurs. */
  lemma {:induction false} SplitCount(s: string, c: char)
    ensures |Split(s, c)| >= 2 <==> c in s
  {
    if |s| > 0 {
      SplitCount(s[1..], c);
      assert c in s <==> s[0] == c || c in s[1..] by {
        assert s == [s[0]] + s[1..];
      }
    }
  }

  /** `s[|s| - |t|..] == t`. */
  predicate IsSuffix(t: string, s: string) {
    |t| <= |s| && s[|s| - |t|..] == t
  }

  /** The last piece of `s.split(c)`. */
  function LastPiece(s: string, c: char): string {
    var r := Split(s, c);
    r[|r| - 1]
  }

  /** The last piece of `s.split(c)` is the part of `s` after its last `c`:
      all of `s` when there is no `c`, otherwise a proper suffix of `s`
      directly preceded by `c`. */
  lemma LastPieceIsTail(s: string, c: char)
    ensures var r := Split(s, c);
            var last := r[|r| - 1];
            && IsSuffix(last, s)
            && (|r| == 1 ==> last == s)
            && (|r| > 1 ==> |last| < |s| && s[|s| - |last| - 1] == c)
  {
    LastPieceSuffix(s, c);
    LastPieceWhole(s, c);
    LastPiecePreceded(s, c);
  }

  /** The last piece is a suffix of the input. */
  lemma {:induction false} LastPieceSuffix(s: string, c: char)
    ensures IsSuffix(LastPiece(s, c), s)
  {
    if |s| > 0 {
      LastPieceSuffix(s[1..], c);
      LastPieceStep(s, c);
      SuffixOfTail(LastPiece(s[1..], c), s);
      if |Split(s[1..], c)| == 1 && s[0] != c {
        LastPieceWhole(s[1..], c);
        assert s == [s[0]] + s[1..];
      }
    }
  }

  /** With a single piece, that piece is the whole input. */
  lemma {:induction false} LastPieceWhole(s: string, c: char)
    ensures |Split(s, c)| == 1 ==> LastPiece(s, c) == s
  {
    if |s| > 0 && s[0] != c {
      LastPieceWhole(s[1..], c);
      LastPieceStep(s, c);
      assert s == [s[0]] + s[1..];
    }
  }

  /** With several pieces, the last one is directly preceded by the separator. */
  lemma {:induction false} LastPiecePreceded(s: string, c: char)
    ensures var last := LastPiece(s, c);
            |Split(s, c)| > 1 ==> |last| < |s| && s[|s| - |last| - 1] == c
  {
    if |s| > 0 {
      var t := LastPiece(s[1..], c);
      LastPieceStep(s, c);
      if |Split(s[1..], c)| == 1 {
        if s[0] == c {
          LastPieceWhole(s[1..], c);
          assert LastPiece(s, c) == s[1..];
        }
      } else {
        LastPiecePreceded(s[1..], c);
        LastPieceSuffix(s[1..], c);
        SuffixOfTail(t, s);
        assert LastPiece(s, c) == t;
      }
    }
  }

  /** How the pieces of `s` relate to those of `s[1..]`: one more piece when
      `s` starts with the separator, the same number otherwise; the last
      piece is the same unless there is only one. */
  lemma LastPieceStep(s: string, c: char)
    requires |s| > 0
    ensures var rest := Split(s[1..], c);
            var r := Split(s, c);
            && (s[0] == c ==> |r| == |rest| + 1 && LastPiece(s, c) == LastPiece(s[1..], c))
            && (s[0] != c ==> |r| == |rest| && (|rest| > 1 ==> LastPiece(s, c) == LastPiece(s[1..], c)))
            && (s[0] != c && |rest| == 1 ==> LastPiece(s, c) == [s[0]] + rest[0])
  {
  }

  /** A suffix of `s[1..]` is a suffix of `s`, at the same distance from the end. */
  lemma SuffixOfTail(t: string, s: string)
    requires |s| > 0 && IsSuffix(t, s[1..])
    ensures IsSuffix(t, s)
    ensures |s| - |t| - 1 > 0 ==> s[|s| - |t| - 1] == s[1..][|s| - |t| - 2]
  {
    assert s[|s| - |t|..] == s[1..][|s| - 1 - |t|..];
  }

  /** `s.replace(a, b)` for one-character strings: every `a` becomes `b`,
      every other character is kept, and no `a` is left. */
  function ReplaceChar(s: string, a: char, b: char): (r: string)
    ensures |r| == |s|
    ensures forall i :: 0 <= i < |s| && s[i] != a ==> r[i] == s[i]
    ensures forall i :: 0 <= i < |s| && s[i] == a ==> r[i] == b
    ensures a != b ==> a !in r
  {
    seq(|s|, i requires 0 <= i < |s| => if s[i] == a then b else s[i])
  }

  /** `pat` occurs in `s` at position `i`. */
  predicate OccursAt(s: string, pat: string, i: int) {
    0 <= i && i + |pat| <= |s| && s[i..i + |pat|] == pat
  }

  /** `pat` occurs in `s` at some position. */
  ghost predicate Occurs(s: string, pat: string) {
    exists i :: OccursAt(s, pat, i)
  }

  /** `s.replace(pat, rep)`: every occurrence of `pat`, left to right and not
      overlapping, replaced by `rep`. */
  function ReplaceAll(s: string, pat: string, rep: string): string
    requires |pat| > 0
    decreases |s|
  {
    if |s| < |pat| then s
    else if s[..|pat|] == pat then rep + ReplaceAll(s[|pat|..], pat, rep)
    else [s[0]] + ReplaceAll(s[1..], pat, rep)
  }

  /** Replacing a pattern that does not occur changes nothing. */
  lemma {:induction false} ReplaceAllAbsent(s: string, pat: string, rep: string)
    requires |pat| > 0 && !Occurs(s, pat)
    ensures ReplaceAll(s, pat, rep) == s
  {
    if |s| >= |pat| {
      assert !OccursAt(s, pat, 0);
      assert s[0..0 + |pat|] == s[..|pat|];
      if Occurs(s[1..], pat) {
        var i :| OccursAt(s[1..], pat, i);
        assert s[1..][i..i + |pat|] == s[i + 1..i + 1 + |pat|];
        assert OccursAt(s, pat, i + 1);
        assert false;
      }
      ReplaceAllAbsent(s[1..], pat, rep);
      assert s == [s[0]] + s[1..];
    }
  }

  /** Where the pattern occurs, the replacement shows up in the result. */
  lemma {:induction false} ReplaceAllInserts(s: string, pat: string, rep: string)
    requires |pat| > 0 && Occurs(s, pat)
    ensures Occurs(ReplaceAll(s, pat, rep), rep)
  {
    var i :| OccursAt(s, pat, i);
    var r := ReplaceAll(s, pat, rep);
    if s[..|pat|] == pat {
      assert r[0..0 + |rep|] == rep;
      assert OccursAt(r, rep, 0);
    } else {
      assert i != 0;
      assert s[1..][i - 1..i - 1 + |pat|] == s[i..i + |pat|];
      assert OccursAt(s[1..], pat, i - 1);
      ReplaceAllInserts(s[1..], pat, rep);
      var t := ReplaceAll(s[1..], pat, rep);
      var j :| OccursAt(t, rep, j);
      assert r == [s[0]] + t;
      assert r[j + 1..j + 1 + |rep|] == t[j..j + |rep|];
      assert OccursAt(r, rep, j + 1);
    }
  }

  /** No character of `rep` occurs in `pat`. */
  predicate Disjoint(rep: string, pat: string) {
    forall k :: 0 <= k < |rep| ==> rep[k] !in pat
  }

  /** Before the first inserted replacement, the result is the input unchanged:
      a prefix of the result made of characters outside `rep` is a prefix of
      the input. */
  lemma {:induction false} ReplaceAllKeepsPrefix(s: string, pat: string, rep: string, m: nat)
    requires |pat| > 0 && |rep| > 0
    requires m <= |ReplaceAll(s, pat, rep)|
    requires forall k :: 0 <= k < m ==> ReplaceAll(s, pat, rep)[k] !in rep
    ensures m <= |s| && s[..m] == ReplaceAll(s, pat, rep)[..m]
    decreases |s|
  {
    var r := ReplaceAll(s, pat, rep);
    if |s| < |pat| {
    } else if s[..|pat|] == pat {
      assert r[0] == rep[0];
      assert m == 0;
    } else if m > 0 {
      var t := ReplaceAll(s[1..], pat, rep);
      assert r == [s[0]] + t;
      forall k | 0 <= k < m - 1
        ensures t[k] !in rep
      {
        assert t[k] == r[k + 1];
      }
      ReplaceAllKeepsPrefix(s[1..], pat, rep, m - 1);
      assert s[..m] == [s[0]] + s[1..][..m - 1];
    }
  }

  /** With a non-empty replacement that shares no character with `p`, every
      occurrence of `p` in the result was already in the input. */
  lemma {:induction false} ReplaceAllOccurrence(s: string, pat: string, rep: string, p: string, j: int)
    requires |pat| > 0 && |rep| > 0 && |p| > 0 && Disjoint(rep, p)
    requires OccursAt(ReplaceAll(s, pat, rep), p, j)
    ensures Occurs(s, p)
    decreases |s|, 1
  {
    if |s| < |pat| {
      assert OccursAt(s, p, j);
    } else if s[..|pat|] == pat {
      OccurrenceAfterMatch(s, pat, rep, p, j);
    } else {
      OccurrenceAfterSkip(s, pat, rep, p, j);
    }
  }

  /** `ReplaceAllOccurrence` when `s` starts with the pattern. */
  lemma {:induction false} OccurrenceAfterMatch(s: string, pat: string, rep: string, p: string, j: int)
    requires |pat| > 0 && |rep| > 0 && |p| > 0 && Disjoint(rep, p)
    requires |pat| <= |s| && s[..|pat|] == pat
    requires OccursAt(rep + ReplaceAll(s[|pat|..], pat, rep), p, j)
    ensures Occurs(s, p)
    decreases |s|, 0
  {
    var t := ReplaceAll(s[|pat|..], pat, rep);
    NotInReplacement(rep, t, p, j);
    OccursInTail(rep, t, p, j);
    ReplaceAllOccurrence(s[|pat|..], pat, rep, p, j - |rep|);
    var i :| OccursAt(s[|pat|..], p, i);
    OccursInTail(s[..|pat|], s[|pat|..], p, i + |pat|);
    assert s[..|pat|] + s[|pat|..] == s;
  }

  /** `ReplaceAllOccurrence` when the first character of `s` is kept. */
  lemma {:induction false} OccurrenceAfterSkip(s: string, pat: string, rep: string, p: string, j: int)
    requires |pat| > 0 && |rep| > 0 && |p| > 0 && Disjoint(rep, p)
    requires |s| > 0
    requires OccursAt([s[0]] + ReplaceAll(s[1..], pat, rep), p, j)
    ensures Occurs(s, p)
    decreases |s|, 0
  {
    var t := ReplaceAll(s[1..], pat, rep);
    if j == 0 {
      assert ([s[0]] + t)[..|p|] == [s[0]] + t[..|p| - 1];
      PrefixOutsideReplacement(s[1..], pat, rep, p);
      assert s[..|p|] == [s[0]] + s[1..][..|p| - 1];
      assert OccursAt(s, p, 0);
    } else {
      OccursInTail([s[0]], t, p, j);
      ReplaceAllOccurrence(s[1..], pat, rep, p, j - 1);
      var i :| OccursAt(s[1..], p, i);
      OccursInTail([s[0]], s[1..], p, i + 1);
      assert [s[0]] + s[1..] == s;
    }
  }

  /** An occurrence in `a + t` that starts at or after `|a|` is an
      occurrence in `t`, and the other way round. */
  lemma OccursInTail(a: string, t: string, p: string, j: int)
    requires j >= |a|
    ensures OccursAt(a + t, p, j) <==> OccursAt(t, p, j - |a|)
  {
    if j + |p| <= |a + t| {
      assert (a + t)[j..j + |p|] == t[j - |a|..j - |a| + |p|];
    }
  }

  /** An occurrence of `p` in `rep + t` cannot start inside `rep` when they
      share no character. */
  lemma NotInReplacement(rep: string, t: string, p: string, j: int)
    requires |p| > 0 && Disjoint(rep, p) && OccursAt(rep + t, p, j)
    ensures j >= |rep|
  {
    var r := rep + t;
    assert r[j] == p[0];
    assert forall x :: 0 <= x < |rep| ==> r[x] == rep[x];
  }

  /** The step of `ReplaceAllOccurrence` for an occurrence at the very start
      of a result that begins with a kept character. */
  lemma PrefixOutsideReplacement(s: string, pat: string, rep: string, p: string)
    requires |pat| > 0 && |rep| > 0 && |p| > 0 && Disjoint(rep, p)
    requires |p| - 1 <= |ReplaceAll(s, pat, rep)| && ReplaceAll(s, pat, rep)[..|p| - 1] == p[1..]
    ensures |p| - 1 <= |s| && s[..|p| - 1] == p[1..]
  {
    var t := ReplaceAll(s, pat, rep);
    forall k | 0 <= k < |p| - 1
      ensures t[k] !in rep
    {
      assert t[k] == p[k + 1] && p[k + 1] in p;
      assert forall x :: 0 <= x < |rep| ==> rep[x] != t[k];
    }
    ReplaceAllKeepsPrefix(s, pat, rep, |p| - 1);
  }

  /** With a non-empty replacement that shares no character with the pattern,
      no occurrence of the pattern is left. */
  lemma {:induction false} ReplaceAllRemoves(s: string, pat: string, rep: string, j: int)
    requires |pat| > 0 && |rep| > 0 && Disjoint(rep, pat)
    ensures !OccursAt(ReplaceAll(s, pat, rep), pat, j)
    decreases |s|
  {
    if |s| < |pat| {
    } else if s[..|pat|] == pat {
      var t := ReplaceAll(s[|pat|..], pat, rep);
      if OccursAt(rep + t, pat, j) {
        NotInReplacement(rep, t, pat, j);
        OccursInTail(rep, t, pat, j);
      }
      ReplaceAllRemoves(s[|pat|..], pat, rep, j - |rep|);
    } else {
      var t := ReplaceAll(s[1..], pat, rep);
      if j == 0 && OccursAt([s[0]] + t, pat, 0) {
        assert ([s[0]] + t)[..|pat|] == [s[0]] + t[..|pat| - 1];
        PrefixOutsideReplacement(s[1..], pat, rep, pat);
        assert false;
      }
      if j > 0 {
        OccursInTail([s[0]], t, pat, j);
      }
      ReplaceAllRemoves(s[1..], pat, rep, j - 1);
    }
  }

  /** `ReplaceAllRemoves` at every position. */
  lemma ReplaceAllLeavesNone(s: string, pat: string, rep: string)
    requires |pat| > 0 && |rep| > 0 && Disjoint(rep, pat)
    ensures !Occurs(ReplaceAll(s, pat, rep), pat)
  {
    forall j ensures !OccursAt(ReplaceAll(s, pat, rep), pat, j) {
      ReplaceAllRemoves(s, pat, rep, j);
    }
  }

  /** `ReplaceAllOccurrence` read the other way: a pattern absent from the
      input stays absent. */
  lemma ReplaceAllKeepsAbsent(s: string, pat: string, rep: string, p: string)
    requires |pat| > 0 && |rep| > 0 && |p| > 0 && Disjoint(rep, p) && !Occurs(s, p)
    ensures !Occurs(ReplaceAll(s, pat, rep), p)
  {
    forall j ensures !OccursAt(ReplaceAll(s, pat, rep), p, j) {
      if OccursAt(ReplaceAll(s, pat, rep), p, j) {
        ReplaceAllOccurrence(s, pat, rep, p, j);
        assert false;
      }
    }
  }

  /** ASCII lower-casing of one character. */
  function LowerChar(c: char): char {
    if 'A' <= c <= 'Z' then (c as int + 32) as char else c
  }

  /** `s.lower()` on ASCII text. */
  function Lower(s: string): (r: string)
    ensures |r| == |s|
    ensures forall i :: 0 <= i < |s| ==> r[i] == LowerChar(s[i])
    ensures forall i :: 0 <= i < |r| ==> !('A' <= r[i] <= 'Z')
    ensures forall i :: 0 <= i < |s| && !('A' <= s[i] <= 'Z') ==> r[i] == s[i]
    ensures forall i :: 0 <= i < |s| && 'A' <= s[i] <= 'Z' ==> 'a' <= r[i] <= 'z' && r[i] as int - s[i] as int == 32
  {
    seq(|s|, i requires 0 <= i < |s| => LowerChar(s[i]))
  }
}
