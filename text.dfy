/** String operations the tool relies on: `sep.join(parts)` and the literal replace-all
    that `re.sub` performs for a pattern without metacharacters, with the split into
    pieces that characterises it. */
module Text {

  /** `sep.join(parts)`. */
  function JoinWith(parts: seq<string>, sep: string): string
  {
    if |parts| == 0 then []
    else if |parts| == 1 then parts[0]
    else parts[0] + sep + JoinWith(parts[1..], sep)
  }

  /** `pat` occurs in `s` starting at index `i`. */
  predicate IsAt(s: string, pat: string, i: nat) {
    i + |pat| <= |s| && s[i..i + |pat|] == pat
  }

  /** `pat in s`. */
  ghost predicate Contains(s: string, pat: string) {
    exists i: nat :: IsAt(s, pat, i)
  }

  /** `re.sub(pat, rep, s)` for a literal, non-empty `pat` and a `rep` without escapes: the
      string is scanned left to right; at each position where `pat` starts it is replaced
      and the scan resumes after it, otherwise one character is copied. */
  function ReplaceAll(s: string, pat: string, rep: string): string
    requires |pat| > 0
    decreases |s|
  {
    if |s| < |pat| then s
    else if s[..|pat|] == pat then rep + ReplaceAll(s[|pat|..], pat, rep)
    else [s[0]] + ReplaceAll(s[1..], pat, rep)
  }

  /** The pieces between the occurrences of `pat` that the same scan finds: the text
      before the first match, between consecutive matches, and after the last one. */
  function Split(s: string, pat: string): (pieces: seq<string>)
    requires |pat| > 0
    ensures |pieces| >= 1
    ensures |pieces| == 1 ==> pieces[0] == s
    decreases |s|
  {
    if |s| < |pat| then [s]
    else if s[..|pat|] == pat then [[]] + Split(s[|pat|..], pat)
    else
      var rest := Split(s[1..], pat);
      [[s[0]] + rest[0]] + rest[1..]
  }

  lemma JoinWithConsChar(c: char, first: string, rest: seq<string>, sep: string)
    ensures JoinWith([[c] + first] + rest, sep) == [c] + JoinWith([first] + rest, sep)
  {
    if |rest| > 0 {
      assert ([[c] + first] + rest)[1..] == rest;
      assert ([first] + rest)[1..] == rest;
    }
  }

  lemma JoinWithConsEmpty(rest: seq<string>, sep: string)
    requires |rest| > 0
    ensures JoinWith([[]] + rest, sep) == sep + JoinWith(rest, sep)
  {
    assert ([[]] + rest)[1..] == rest;
  }

  lemma IsAtTail(s: string, pat: string, i: nat)
    requires |s| > 0
    ensures IsAt(s[1..], pat, i) <==> IsAt(s, pat, i + 1)
  {
    if i + |pat| <= |s| - 1 {
      assert s[1..][i..i + |pat|] == s[i + 1..i + 1 + |pat|];
    }
  }

  /** Joining the pieces with the pattern gives the string back. */
  lemma {:induction false} JoinSplit(s: string, pat: string)
    requires |pat| > 0
    ensures JoinWith(Split(s, pat), pat) == s
    decreases |s|
  {
    if |s| < |pat| {
    } else if s[..|pat|] == pat {
      JoinSplit(s[|pat|..], pat);
      JoinWithConsEmpty(Split(s[|pat|..], pat), pat);
      assert s == pat + s[|pat|..];
    } else {
      var rest := Split(s[1..], pat);
      JoinSplit(s[1..], pat);
      JoinWithConsChar(s[0], rest[0], rest[1..], pat);
      assert [rest[0]] + rest[1..] == rest;
      assert s == [s[0]] + s[1..];
    }
  }

  /** Replacing every occurrence is joining the same pieces with the replacement. */
  lemma {:induction false} ReplaceAllIsJoin(s: string, pat: string, rep: string)
    requires |pat| > 0
    ensures ReplaceAll(s, pat, rep) == JoinWith(Split(s, pat), rep)
    decreases |s|
  {
    if |s| < |pat| {
    } else if s[..|pat|] == pat {
      ReplaceAllIsJoin(s[|pat|..], pat, rep);
      JoinWithConsEmpty(Split(s[|pat|..], pat), rep);
    } else {
      var rest := Split(s[1..], pat);
      ReplaceAllIsJoin(s[1..], pat, rep);
      JoinWithConsChar(s[0], rest[0], rest[1..], rep);
      assert [rest[0]] + rest[1..] == rest;
    }
  }

  /** The first piece is a prefix of the string. */
  lemma {:induction false} SplitFirstIsPrefix(s: string, pat: string)
    requires |pat| > 0
    ensures |Split(s, pat)[0]| <= |s| && Split(s, pat)[0] == s[..|Split(s, pat)[0]|]
    decreases |s|
  {
    if |s| < |pat| {
    } else if s[..|pat|] == pat {
    } else {
      SplitFirstIsPrefix(s[1..], pat);
    }
  }

  /** No piece contains the pattern, so every occurrence of it outside the matches was
      found; that the matches are taken leftmost first is `SplitIsLeftmost`. */
  lemma {:induction false} SplitPiecesAreClean(s: string, pat: string)
    requires |pat| > 0
    ensures forall j :: 0 <= j < |Split(s, pat)| ==> !Contains(Split(s, pat)[j], pat)
    decreases |s|
  {
    var pieces := Split(s, pat);
    if |s| < |pat| {
      forall i: nat ensures !IsAt(s, pat, i) { }
    } else if s[..|pat|] == pat {
      SplitPiecesAreClean(s[|pat|..], pat);
      forall i: nat ensures !IsAt([], pat, i) { }
      assert forall j :: 1 <= j < |pieces| ==> pieces[j] == Split(s[|pat|..], pat)[j - 1];
    } else {
      var rest := Split(s[1..], pat);
      SplitPiecesAreClean(s[1..], pat);
      SplitFirstIsPrefix(s[1..], pat);
      var first := [s[0]] + rest[0];
      forall i: nat ensures !IsAt(first, pat, i) {
        if i == 0 {
          if |pat| <= |first| {
            assert first[..|pat|] == s[..|pat|];
          }
        } else {
          IsAtTail(first, pat, i - 1);
          assert first[1..] == rest[0];
        }
      }
      assert forall j :: 1 <= j < |pieces| ==> pieces[j] == rest[j];
    }
  }

  /** The scan takes the leftmost occurrence: the first piece runs up to the first place
      the pattern occurs, and the remaining pieces are the split of what follows that
      occurrence; with a single piece the pattern does not occur at all. So the matches
      are the leftmost non-overlapping occurrences, also for a pattern that overlaps
      itself. */
  lemma SplitIsLeftmost(s: string, pat: string)
    requires |pat| > 0
    ensures var pieces := Split(s, pat); var first := pieces[0];
      && (forall i: nat :: i < |first| ==> !IsAt(s, pat, i))
      && (|pieces| == 1 ==> !Contains(s, pat))
      && (|pieces| > 1 ==> IsAt(s, pat, |first|) && pieces[1..] == Split(s[|first| + |pat|..], pat))
  {
    SplitFirstBeforeMatch(s, pat);
    SplitSingleNoMatch(s, pat);
    SplitNextMatch(s, pat);
  }

  lemma {:induction false} SplitFirstBeforeMatch(s: string, pat: string)
    requires |pat| > 0
    ensures forall i: nat :: i < |Split(s, pat)[0]| ==> !IsAt(s, pat, i)
    decreases |s|
  {
    if |s| >= |pat| && s[..|pat|] != pat {
      var rest := Split(s[1..], pat);
      SplitFirstBeforeMatch(s[1..], pat);
      forall i: nat | i < |Split(s, pat)[0]| ensures !IsAt(s, pat, i) {
        if i >= 1 {
          IsAtTail(s, pat, i - 1);
        }
      }
    }
  }

  lemma {:induction false} SplitSingleNoMatch(s: string, pat: string)
    requires |pat| > 0
    ensures |Split(s, pat)| == 1 ==> forall i: nat :: !IsAt(s, pat, i)
    decreases |s|
  {
    if |s| >= |pat| && s[..|pat|] != pat && |Split(s, pat)| == 1 {
      SplitSingleNoMatch(s[1..], pat);
      forall i: nat ensures !IsAt(s, pat, i) {
        if i >= 1 {
          IsAtTail(s, pat, i - 1);
        }
      }
    }
  }

  lemma {:induction false} SplitNextMatch(s: string, pat: string)
    requires |pat| > 0
    ensures var pieces := Split(s, pat);
      |pieces| > 1 ==> IsAt(s, pat, |pieces[0]|) && pieces[1..] == Split(s[|pieces[0]| + |pat|..], pat)
    decreases |s|
  {
    var pieces := Split(s, pat);
    if |s| < |pat| {
    } else if s[..|pat|] == pat {
      assert IsAt(s, pat, 0);
      assert pieces[1..] == Split(s[|pat|..], pat);
    } else {
      var rest := Split(s[1..], pat);
      assert pieces == [[s[0]] + rest[0]] + rest[1..];
      if |rest| > 1 {
        SplitNextMatch(s[1..], pat);
        var k := |rest[0]|;
        assert |pieces[0]| == k + 1;
        IsAtTail(s, pat, k);
        assert s[1..][k + |pat|..] == s[k + 1 + |pat|..];
        assert pieces[1..] == rest[1..];
      }
    }
  }

  /** A string without the pattern is left as it is. */
  lemma {:induction false} ReplaceAllNoMatch(s: string, pat: string, rep: string)
    requires |pat| > 0
    requires !Contains(s, pat)
    ensures ReplaceAll(s, pat, rep) == s
    decreases |s|
  {
    if |s| >= |pat| {
      assert !IsAt(s, pat, 0);
      forall i: nat ensures !IsAt(s[1..], pat, i) {
        IsAtTail(s, pat, i);
      }
      ReplaceAllNoMatch(s[1..], pat, rep);
    }
  }

  /** Splitting a joined list on a one-character separator that no part contains gives the
      parts back; used for the comma-joined jar list. */
  lemma {:induction false} SplitJoinChar(parts: seq<string>, c: char)
    requires |parts| > 0
    requires forall j :: 0 <= j < |parts| ==> c !in parts[j]
    ensures Split(JoinWith(parts, [c]), [c]) == parts
    decreases |parts|
  {
    if |parts| == 1 {
      SplitNoSeparator(parts[0], c);
    } else {
      SplitJoinChar(parts[1..], c);
      SplitAtSeparator(parts[0], c, JoinWith(parts[1..], [c]));
      assert [parts[0]] + parts[1..] == parts;
    }
  }

  lemma {:induction false} SplitNoSeparator(p: string, c: char)
    requires c !in p
    ensures Split(p, [c]) == [p]
    decreases |p|
  {
    if |p| > 0 {
      assert p[..1] == [p[0]];
      SplitNoSeparator(p[1..], c);
      assert [p[0]] + p[1..] == p;
    }
  }

  lemma {:induction false} SplitAtSeparator(p: string, c: char, rest: string)
    requires c !in p
    ensures Split(p + [c] + rest, [c]) == [p] + Split(rest, [c])
    decreases |p|
  {
    var s := p + [c] + rest;
    if |p| == 0 {
      assert s[..1] == [c];
      assert s[1..] == rest;
    } else {
      assert s[..1] == [p[0]];
      assert s[1..] == p[1..] + [c] + rest;
      SplitAtSeparator(p[1..], c, rest);
      assert [p[0]] + p[1..] == p;
    }
  }
}
