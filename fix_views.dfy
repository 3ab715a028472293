/**
 * The one-off repair script fix_views.py: a single pass over the lines of a
 * file that keeps the first line starting with a target prefix and drops
 * every later such line together with the 4 lines after it.
 */
module FixViews {
  import opened Strings

  /** The prefix the script looks for (the start of the duplicated statement). */
  const TargetLineStart: string := "        harvest_sums = Harvest.objects.filter(producer=user).values("

  /** How many lines after a duplicate are dropped with it. */
  const LinesAfterDuplicate: nat := 4

  /** The loop's two variables, `skip_count` and `found_first`. */
  datatype Scan = Scan(skipCount: nat, foundFirst: bool)

  const Start: Scan := Scan(0, false)

  /** One iteration: the next state, and whether the line is appended to `new_lines`. */
  function Step(st: Scan, line: string, target: string): (Scan, bool) {
    if st.skipCount > 0 then (Scan(st.skipCount - 1, st.foundFirst), false)
    else if StartsWith(line, target) then
      if st.foundFirst then (Scan(LinesAfterDuplicate, true), false)
      else (Scan(0, true), true)
    else (st, true)
  }

  /** The state at the start of iteration `i`. */
  function StateBefore(lines: seq<string>, target: string, i: nat): Scan
    requires i <= |lines|
  {
    if i == 0 then Start else Step(StateBefore(lines, target, i - 1), lines[i - 1], target).0
  }

  /** Line `i` reaches `new_lines`. */
  predicate Kept(lines: seq<string>, target: string, i: nat)
    requires i < |lines|
  {
    Step(StateBefore(lines, target, i), lines[i], target).1
  }

  /** `new_lines` after the first `n` iterations. */
  function Filtered(lines: seq<string>, target: string, n: nat): seq<string>
    requires n <= |lines|
  {
    if n == 0 then [] else Filtered(lines, target, n - 1) + (if Kept(lines, target, n - 1) then [lines[n - 1]] else [])
  }

  /** The loop of fix_views.py, with `lines` read and `new_lines` written by the caller. */
  method RemoveDuplicateBlock(lines: seq<string>, target: string) returns (newLines: seq<string>)
    ensures newLines == Filtered(lines, target, |lines|)
  {
    newLines := [];
    var skipCount: nat := 0;
    var foundFirst := false;
    for i := 0 to |lines|
      invariant Scan(skipCount, foundFirst) == StateBefore(lines, target, i)
      invariant newLines == Filtered(lines, target, i)
    {
      var line := lines[i];
      if skipCount > 0 {
        skipCount := skipCount - 1;
        continue;
      }
      if StartsWith(line, target) {
        if foundFirst {
          skipCount := LinesAfterDuplicate;
          continue;
        } else {
          foundFirst := true;
        }
      }
      newLines := newLines + [line];
    }
  }

  predicate Matches(lines: seq<string>, target: string, j: nat)
    requires j < |lines|
  {
    StartsWith(lines[j], target)
  }

  /** Some line before `i` starts with the target. */
  predicate MatchBefore(lines: seq<string>, target: string, i: nat)
    requires i <= |lines|
  {
    exists j :: 0 <= j < i && Matches(lines, target, j)
  }

  /**
   * The state always has `skip_count` in 0..4, skips only after a first match,
   * and `found_first` holds exactly when an earlier line started with the target.
   */
  lemma {:induction false} StateInvariant(lines: seq<string>, target: string, i: nat)
    requires i <= |lines|
    ensures StateBefore(lines, target, i).skipCount <= LinesAfterDuplicate
    ensures StateBefore(lines, target, i).skipCount > 0 ==> StateBefore(lines, target, i).foundFirst
    ensures StateBefore(lines, target, i).foundFirst <==> MatchBefore(lines, target, i)
  {
    if i > 0 {
      StateInvariant(lines, target, i - 1);
      if MatchBefore(lines, target, i - 1) {
        var j :| 0 <= j < i - 1 && Matches(lines, target, j);
        assert 0 <= j < i && Matches(lines, target, j);
      }
      if Matches(lines, target, i - 1) {
        assert MatchBefore(lines, target, i);
      }
      if MatchBefore(lines, target, i) {
        var j :| 0 <= j < i && Matches(lines, target, j);
        if j < i - 1 { assert MatchBefore(lines, target, i - 1); }
      }
    }
  }

  /** `new_lines` only grows: an earlier value is a prefix of a later one. */
  lemma {:induction false} FilteredPrefix(lines: seq<string>, target: string, n: nat, m: nat)
    requires n <= m <= |lines|
    ensures Filtered(lines, target, n) <= Filtered(lines, target, m)
    decreases m - n
  {
    if n < m {
      FilteredPrefix(lines, target, n, m - 1);
    }
  }

  /** The positions of the kept lines among the first `n`, in increasing order. */
  function KeptIndices(lines: seq<string>, target: string, n: nat): (idx: seq<nat>)
    requires n <= |lines|
    ensures forall k :: 0 <= k < |idx| ==> idx[k] < n
  {
    if n == 0 then [] else KeptIndices(lines, target, n - 1) + (if Kept(lines, target, n - 1) then [n - 1] else [])
  }

  /** The output is a subsequence of the input: kept lines, unaltered, in their order. */
  lemma {:induction false} OutputIsSubsequence(lines: seq<string>, target: string, n: nat)
    requires n <= |lines|
    ensures |KeptIndices(lines, target, n)| == |Filtered(lines, target, n)|
    ensures forall k :: 0 <= k < |Filtered(lines, target, n)| ==>
              Filtered(lines, target, n)[k] == lines[KeptIndices(lines, target, n)[k]]
    ensures forall k, l :: 0 <= k < l < |KeptIndices(lines, target, n)| ==>
              KeptIndices(lines, target, n)[k] < KeptIndices(lines, target, n)[l]
  {
    if n > 0 {
      OutputIsSubsequence(lines, target, n - 1);
    }
  }

  /** How many of the first `n` lines are dropped. */
  function RemovedCount(lines: seq<string>, target: string, n: nat): nat
    requires n <= |lines|
  {
    if n == 0 then 0 else RemovedCount(lines, target, n - 1) + (if Kept(lines, target, n - 1) then 0 else 1)
  }

  /** Output length is input length minus the dropped lines, so never more than the input. */
  lemma {:induction false} OutputLength(lines: seq<string>, target: string, n: nat)
    requires n <= |lines|
    ensures |Filtered(lines, target, n)| == n - RemovedCount(lines, target, n)
    ensures |Filtered(lines, target, n)| <= n
  {
    if n > 0 {
      OutputLength(lines, target, n - 1);
    }
  }

  /** Up to and including the first line that starts with the target, every line is kept. */
  lemma {:induction false} KeepsThroughFirstMatch(lines: seq<string>, target: string, n: nat)
    requires n <= |lines|
    requires forall j :: 0 <= j < n - 1 ==> !Matches(lines, target, j)
    ensures Filtered(lines, target, n) == lines[..n]
    ensures n > 0 ==> StateBefore(lines, target, n - 1) == Start
  {
    if n > 0 {
      KeepsThroughFirstMatch(lines, target, n - 1);
      if n > 1 {
        assert !Matches(lines, target, n - 2);
        assert StateBefore(lines, target, n - 1) == Step(Start, lines[n - 2], target).0;
      }
      assert Kept(lines, target, n - 1);
      assert lines[..n] == lines[..n - 1] + [lines[n - 1]];
    }
  }

  /** The first line that starts with the target, and every line before it, opens the output. */
  lemma FirstMatchKept(lines: seq<string>, target: string, f: nat)
    requires f < |lines| && Matches(lines, target, f)
    requires forall j :: 0 <= j < f ==> !Matches(lines, target, j)
    ensures lines[..f + 1] <= Filtered(lines, target, |lines|)
  {
    KeepsThroughFirstMatch(lines, target, f + 1);
    FilteredPrefix(lines, target, f + 1, |lines|);
  }

  /** With at most one line starting with the target, `skip_count` stays 0 and every line is kept. */
  lemma {:induction false} AtMostOneMatchKeepsAll(lines: seq<string>, target: string, n: nat)
    requires n <= |lines|
    requires forall i, j :: 0 <= i < j < |lines| && Matches(lines, target, i) ==> !Matches(lines, target, j)
    ensures Filtered(lines, target, n) == lines[..n]
    ensures StateBefore(lines, target, n).skipCount == 0
  {
    if n > 0 {
      AtMostOneMatchKeepsAll(lines, target, n - 1);
      StateInvariant(lines, target, n - 1);
      if StateBefore(lines, target, n - 1).foundFirst && Matches(lines, target, n - 1) {
        assert false;
      }
      assert lines[..n] == lines[..n - 1] + [lines[n - 1]];
    }
  }

  /** A file with no duplicated target line comes out unchanged. */
  lemma NoDuplicateNoChange(lines: seq<string>, target: string)
    requires forall i, j :: 0 <= i < j < |lines| && Matches(lines, target, i) ==> !Matches(lines, target, j)
    ensures Filtered(lines, target, |lines|) == lines
  {
    AtMostOneMatchKeepsAll(lines, target, |lines|);
    assert lines[..|lines|] == lines;
  }

  /** While the counter runs, lines are dropped one per iteration and the counter falls by one each. */
  lemma {:induction false} SkipRun(lines: seq<string>, target: string, i: nat, k: nat)
    requires i + k <= |lines| && k <= StateBefore(lines, target, i).skipCount
    ensures StateBefore(lines, target, i + k)
         == Scan(StateBefore(lines, target, i).skipCount - k, StateBefore(lines, target, i).foundFirst)
    ensures forall j :: i <= j < i + k ==> !Kept(lines, target, j)
  {
    if k > 0 {
      SkipRun(lines, target, i, k - 1);
    }
  }

  /**
   * A line that starts with the target after an earlier one did, and is not
   * itself being skipped, is dropped with the 4 lines after it (fewer at the
   * end of the file), after which scanning resumes normally.
   */
  lemma DuplicateRemoved(lines: seq<string>, target: string, i: nat)
    requires i < |lines| && Matches(lines, target, i) && MatchBefore(lines, target, i)
    requires StateBefore(lines, target, i).skipCount == 0
    ensures forall j :: i <= j <= i + LinesAfterDuplicate && j < |lines| ==> !Kept(lines, target, j)
    ensures i + LinesAfterDuplicate + 1 <= |lines| ==> StateBefore(lines, target, i + LinesAfterDuplicate + 1) == Scan(0, true)
  {
    StateInvariant(lines, target, i);
    var room := if |lines| - (i + 1) < LinesAfterDuplicate then |lines| - (i + 1) else LinesAfterDuplicate;
    SkipRun(lines, target, i + 1, room);
  }

  /** Line `i` is a duplicate that the loop acts on: it starts with the target, an earlier line did, and it is not being skipped. */
  predicate DuplicateAt(lines: seq<string>, target: string, i: nat)
    requires i < |lines|
  {
    Matches(lines, target, i) && MatchBefore(lines, target, i) && StateBefore(lines, target, i).skipCount == 0
  }

  /** A running counter was set by a duplicate, as many lines back as it has already counted down. */
  lemma {:induction false} SkipOrigin(lines: seq<string>, target: string, j: nat)
    requires j <= |lines| && StateBefore(lines, target, j).skipCount > 0
    ensures exists i :: 0 <= i < j && DuplicateAt(lines, target, i)
                        && j - i - 1 + StateBefore(lines, target, j).skipCount == LinesAfterDuplicate
  {
    var prev := StateBefore(lines, target, j - 1);
    if prev.skipCount > 0 {
      SkipOrigin(lines, target, j - 1);
      var i :| 0 <= i < j - 1 && DuplicateAt(lines, target, i)
               && j - 1 - i - 1 + prev.skipCount == LinesAfterDuplicate;
      assert StateBefore(lines, target, j).skipCount == prev.skipCount - 1;
    } else {
      StateInvariant(lines, target, j - 1);
      assert DuplicateAt(lines, target, j - 1);
    }
  }

  /** A line is dropped only if it is a duplicate or one of the 4 lines after one. */
  lemma RemovedOnlyNearDuplicate(lines: seq<string>, target: string, j: nat)
    requires j < |lines| && !Kept(lines, target, j)
    ensures exists i :: 0 <= i <= j <= i + LinesAfterDuplicate && DuplicateAt(lines, target, i)
  {
    if StateBefore(lines, target, j).skipCount > 0 {
      SkipOrigin(lines, target, j);
    } else {
      StateInvariant(lines, target, j);
      assert DuplicateAt(lines, target, j);
    }
  }

  /** Changing a line the counter skips changes no state before or after it. */
  lemma {:induction false} SkippedLineStates(lines: seq<string>, target: string, i: nat, other: string, n: nat)
    requires i < |lines| && StateBefore(lines, target, i).skipCount > 0 && n <= |lines|
    ensures StateBefore(lines[i := other], target, n) == StateBefore(lines, target, n)
  {
    if n > 0 {
      SkippedLineStates(lines, target, i, other, n - 1);
    }
  }

  /** Lines consumed by the skip counter are never compared with the target. */
  lemma {:induction false} SkippedLineIgnored(lines: seq<string>, target: string, i: nat, other: string, n: nat)
    requires i < |lines| && StateBefore(lines, target, i).skipCount > 0 && n <= |lines|
    ensures Filtered(lines[i := other], target, n) == Filtered(lines, target, n)
    ensures !Kept(lines, target, i)
  {
    SkippedLineStates(lines, target, i, other, i);
    if n > 0 {
      SkippedLineIgnored(lines, target, i, other, n - 1);
      SkippedLineStates(lines, target, i, other, n - 1);
    }
  }
}
