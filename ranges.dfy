/**
 * Date ranges of src/data/index.ts: sorting them by start, merging the ones
 * that overlap or touch (`mergeOverlappingRanges`) and summing their lengths
 * (`calculateTotalExperience`). A range is half-open, `start <= t < end`, in
 * milliseconds; nothing forces `start <= end`.
 */
module Ranges {

  datatype DateRange = DateRange(start: int, end: int)

  function Max(a: int, b: int): int {
    if a >= b then a else b
  }

  function Length(r: DateRange): int {
    r.end - r.start
  }

  /** The instant `t` lies in the range. */
  predicate Within(r: DateRange, t: int) {
    r.start <= t < r.end
  }

  /** `t` lies in some range of `s`. */
  predicate Covers(s: seq<DateRange>, t: int) {
    exists r :: r in s && Within(r, t)
  }

  /** Every range runs forward. */
  predicate Forward(s: seq<DateRange>) {
    forall i :: 0 <= i < |s| ==> s[i].start <= s[i].end
  }

  predicate SortedByStart(s: seq<DateRange>) {
    forall i, j :: 0 <= i < j < |s| ==> s[i].start <= s[j].start
  }

  /** Each range starts after the one before it ends. */
  predicate Separated(s: seq<DateRange>) {
    forall k :: 0 <= k < |s| - 1 ==> s[k].end < s[k + 1].start
  }

  // ---------------------------------------------------------------- total

  /** `calculateTotalExperience`: the sum of the lengths, added up from the left as `reduce` does. */
  function Total(s: seq<DateRange>): int {
    if s == [] then 0 else Total(s[..|s| - 1]) + Length(s[|s| - 1])
  }

  lemma TotalSnoc(s: seq<DateRange>, r: DateRange)
    ensures Total(s + [r]) == Total(s) + Length(r)
  {
    assert (s + [r])[..|s|] == s;
  }

  /** Ranges that all run forward add up to a non-negative total. */
  lemma {:induction false} TotalNonNegative(s: seq<DateRange>)
    requires Forward(s)
    ensures Total(s) >= 0
  {
    if s != [] {
      TotalNonNegative(s[..|s| - 1]);
    }
  }

  // ---------------------------------------------------------------- sort

  /**
   * Insertion of `x` into `t` after every range that starts no later than it,
   * so that ranges with equal starts keep their order (a stable sort, as
   * `Array.prototype.sort` is).
   */
  function InsertByStart(t: seq<DateRange>, x: DateRange): (r: seq<DateRange>)
    ensures |r| == |t| + 1
  {
    if t == [] || t[|t| - 1].start <= x.start then t + [x]
    else InsertByStart(t[..|t| - 1], x) + [t[|t| - 1]]
  }

  /** `ranges.sort((a, b) => a.start - b.start)`. */
  function SortByStart(s: seq<DateRange>): (r: seq<DateRange>)
    ensures |r| == |s|
  {
    if s == [] then [] else InsertByStart(SortByStart(s[..|s| - 1]), s[|s| - 1])
  }

  /** Insertion adds `x` and keeps every range of `t`. */
  lemma {:induction false} InsertByStartPermutes(t: seq<DateRange>, x: DateRange)
    ensures multiset(InsertByStart(t, x)) == multiset(t) + multiset{x}
    decreases |t|
  {
    if !(t == [] || t[|t| - 1].start <= x.start) {
      InsertByStartPermutes(t[..|t| - 1], x);
      assert t == t[..|t| - 1] + [t[|t| - 1]];
    }
  }

  /** The sort is a permutation. */
  lemma {:induction false} SortByStartPermutes(s: seq<DateRange>)
    ensures multiset(SortByStart(s)) == multiset(s)
  {
    if s != [] {
      SortByStartPermutes(s[..|s| - 1]);
      InsertByStartPermutes(SortByStart(s[..|s| - 1]), s[|s| - 1]);
      assert s == s[..|s| - 1] + [s[|s| - 1]];
    }
  }

  lemma {:induction false} InsertByStartSorted(t: seq<DateRange>, x: DateRange)
    requires SortedByStart(t)
    ensures SortedByStart(InsertByStart(t, x))
    decreases |t|
  {
    if t == [] || t[|t| - 1].start <= x.start {
    } else {
      var last := t[|t| - 1];
      var front := InsertByStart(t[..|t| - 1], x);
      InsertByStartSorted(t[..|t| - 1], x);
      InsertByStartPermutes(t[..|t| - 1], x);
      forall y | y in front ensures y.start <= last.start {
        assert y in multiset(front);
        if y != x {
          assert y in t[..|t| - 1];
        }
      }
      var r := front + [last];
      forall i, j | 0 <= i < j < |r| ensures r[i].start <= r[j].start {
        if j == |r| - 1 {
          assert r[i] in front;
        }
      }
    }
  }

  /** The sorted ranges are in order of start. */
  lemma {:induction false} SortByStartSorted(s: seq<DateRange>)
    ensures SortedByStart(SortByStart(s))
  {
    if s != [] {
      SortByStartSorted(s[..|s| - 1]);
      InsertByStartSorted(SortByStart(s[..|s| - 1]), s[|s| - 1]);
    }
  }

  /** Ranges already in order of start are left as they are. */
  lemma {:induction false} SortByStartSortedNoop(s: seq<DateRange>)
    requires SortedByStart(s)
    ensures SortByStart(s) == s
  {
    if s != [] {
      var front := s[..|s| - 1];
      var x := s[|s| - 1];
      SortedFront(s);
      SortByStartSortedNoop(front);
      assert s == front + [x];
      NoopStep(front, x);
    }
  }

  /** All but the last of sorted ranges are sorted, and the last starts no earlier than them. */
  lemma SortedFront(s: seq<DateRange>)
    requires SortedByStart(s) && s != []
    ensures SortedByStart(s[..|s| - 1])
    ensures |s| == 1 || s[..|s| - 1][|s| - 2].start <= s[|s| - 1].start
  {
  }

  /** The sort inserts the last range into the sorted rest. */
  lemma SortByStartSnoc(front: seq<DateRange>, x: DateRange)
    ensures SortByStart(front + [x]) == InsertByStart(SortByStart(front), x)
  {
    assert (front + [x])[..|front|] == front;
  }

  /** The last range stays last when the rest is left as it is and starts no later. */
  lemma NoopStep(front: seq<DateRange>, x: DateRange)
    requires SortByStart(front) == front
    requires front == [] || front[|front| - 1].start <= x.start
    ensures SortByStart(front + [x]) == front + [x]
  {
    SortByStartSnoc(front, x);
    InsertAtEnd(front, x);
  }

  /** A range that starts no earlier than the last one goes at the end. */
  lemma InsertAtEnd(t: seq<DateRange>, x: DateRange)
    requires t == [] || t[|t| - 1].start <= x.start
    ensures InsertByStart(t, x) == t + [x]
  {
  }

  lemma {:induction false} InsertByStartTotal(t: seq<DateRange>, x: DateRange)
    ensures Total(InsertByStart(t, x)) == Total(t) + Length(x)
    decreases |t|
  {
    if t == [] || t[|t| - 1].start <= x.start {
      TotalSnoc(t, x);
    } else {
      InsertByStartTotal(t[..|t| - 1], x);
      TotalSnoc(InsertByStart(t[..|t| - 1], x), t[|t| - 1]);
    }
  }

  /** Sorting does not change the total. */
  lemma {:induction false} SortByStartTotal(s: seq<DateRange>)
    ensures Total(SortByStart(s)) == Total(s)
  {
    if s != [] {
      SortByStartTotal(s[..|s| - 1]);
      InsertByStartTotal(SortByStart(s[..|s| - 1]), s[|s| - 1]);
    }
  }

  /** Moving the insertion point left past a range that starts later than `x`. */
  lemma InsertByStartShift(t: seq<DateRange>, x: DateRange, j: int)
    requires 0 < j <= |t| && t[j - 1].start > x.start
    ensures InsertByStart(t[..j], x) + t[j..] == InsertByStart(t[..j - 1], x) + t[j - 1..]
  {
    assert t[..j][..j - 1] == t[..j - 1] && t[..j][j - 1] == t[j - 1];
    assert t[j - 1..] == [t[j - 1]] + t[j..];
  }

  /** The insertion point is reached once the range before it starts no later than `x`. */
  lemma InsertByStartStop(t: seq<DateRange>, x: DateRange, j: int)
    requires 0 <= j <= |t| && (j == 0 || t[j - 1].start <= x.start)
    ensures InsertByStart(t[..j], x) == t[..j] + [x]
  {
    if j > 0 {
      assert t[..j][j - 1] == t[j - 1];
    }
  }

  /** The array contents while the insertion loop shifts ranges one place right. */
  lemma ShiftRight(t: seq<DateRange>, y: DateRange, j: int, rest: seq<DateRange>)
    requires 0 < j <= |t|
    ensures (t[..j] + [y] + t[j..] + rest)[j := t[j - 1]] == t[..j - 1] + [t[j - 1]] + t[j - 1..] + rest
  {
    var u := (t[..j] + [y] + t[j..] + rest)[j := t[j - 1]];
    var v := t[..j - 1] + [t[j - 1]] + t[j - 1..] + rest;
    assert |u| == |v|;
    forall k | 0 <= k < |u| ensures u[k] == v[k] {
      if k < j - 1 {
      } else if k == j - 1 || k == j {
      } else if k <= |t| {
        assert u[k] == t[k - 1] && v[k] == t[k - 1];
      } else {
        assert u[k] == rest[k - |t| - 1];
      }
    }
  }

  /** Writing `x` into the gap the shifting left. */
  lemma FillGap(t: seq<DateRange>, y: DateRange, x: DateRange, j: int, rest: seq<DateRange>)
    requires 0 <= j <= |t|
    ensures (t[..j] + [y] + t[j..] + rest)[j := x] == t[..j] + [x] + t[j..] + rest
  {
    var u := (t[..j] + [y] + t[j..] + rest)[j := x];
    var v := t[..j] + [x] + t[j..] + rest;
    forall k | 0 <= k < |u| ensures u[k] == v[k] {
      if k > |t| {
        assert u[k] == rest[k - |t| - 1];
      }
    }
  }

  /** Shifts the sorted prefix `a[..i]` right until `a[i]` fits, and puts it there. */
  method InsertInPlace(a: array<DateRange>, i: int)
    requires 0 <= i < a.Length
    modifies a
    ensures a[..] == InsertByStart(old(a[..i]), old(a[i])) + old(a[i + 1..])
  {
    var x := a[i];
    ghost var t := a[..i];
    ghost var rest := a[i + 1..];
    assert a[..] == t + [x] + rest;
    var j := i;
    assert t[..j] == t && t[j..] == [];
    while j > 0 && a[j - 1].start > x.start
      invariant 0 <= j <= i == |t|
      invariant a[..] == t[..j] + [a[j]] + t[j..] + rest
      invariant InsertByStart(t, x) == InsertByStart(t[..j], x) + t[j..]
    {
      ghost var before := a[..];
      ShiftStep(t, x, before[j], j, rest);
      a[j] := a[j - 1];
      assert a[..] == before[j := t[j - 1]];
      j := j - 1;
    }
    ghost var before := a[..];
    FillStep(t, x, before[j], j, rest);
    a[j] := x;
    assert a[..] == before[j := x];
  }

  /** One turn of the shifting loop: the contents and the insertion point both move one place left. */
  lemma ShiftStep(t: seq<DateRange>, x: DateRange, y: DateRange, j: int, rest: seq<DateRange>)
    requires 0 < j <= |t| && t[j - 1].start > x.start
    requires InsertByStart(t, x) == InsertByStart(t[..j], x) + t[j..]
    ensures (t[..j] + [y] + t[j..] + rest)[j - 1] == t[j - 1]
    ensures (t[..j] + [y] + t[j..] + rest)[j := t[j - 1]] == t[..j - 1] + [t[j - 1]] + t[j - 1..] + rest
    ensures InsertByStart(t, x) == InsertByStart(t[..j - 1], x) + t[j - 1..]
  {
    InsertByStartShift(t, x, j);
    ShiftRight(t, y, j, rest);
  }

  /** The end of the shifting: `x` goes into the gap at its insertion point. */
  lemma FillStep(t: seq<DateRange>, x: DateRange, y: DateRange, j: int, rest: seq<DateRange>)
    requires 0 <= j <= |t|
    requires j == 0 || (t[..j] + [y] + t[j..] + rest)[j - 1].start <= x.start
    requires InsertByStart(t, x) == InsertByStart(t[..j], x) + t[j..]
    ensures (t[..j] + [y] + t[j..] + rest)[j := x] == InsertByStart(t, x) + rest
  {
    if j > 0 {
      assert (t[..j] + [y] + t[j..] + rest)[j - 1] == t[j - 1];
    }
    InsertByStartStop(t, x, j);
    FillGap(t, y, x, j, rest);
  }

  /** One turn of the outer sort loop, on the array contents `cur`. */
  lemma SortStep(input: seq<DateRange>, i: int, cur: seq<DateRange>)
    requires 0 <= i < |input| && cur == SortByStart(input[..i]) + input[i..]
    ensures cur[..i] == SortByStart(input[..i]) && cur[i] == input[i] && cur[i + 1..] == input[i + 1..]
    ensures SortByStart(input[..i + 1]) == InsertByStart(cur[..i], cur[i])
  {
    assert input[..i + 1][..i] == input[..i];
  }

  /** The in-place sort of `mergeOverlappingRanges`, as an insertion sort. */
  method SortRanges(a: array<DateRange>)
    modifies a
    ensures a[..] == SortByStart(old(a[..]))
  {
    ghost var input := a[..];
    var i := 0;
    while i < a.Length
      invariant 0 <= i <= a.Length == |input|
      invariant a[..] == SortByStart(input[..i]) + input[i..]
    {
      SortStep(input, i, a[..]);
      InsertInPlace(a, i);
      i := i + 1;
    }
    assert input[..a.Length] == input;
  }

  // ---------------------------------------------------------------- merge

  /**
   * One turn of the merge loop: a range that starts no later than the last
   * merged range ends extends it to the later of the two ends; any other
   * range is appended.
   */
  function MergeStep(merged: seq<DateRange>, current: DateRange): (r: seq<DateRange>)
    ensures |r| >= 1
  {
    if merged != [] && current.start <= merged[|merged| - 1].end then
      var last := merged[|merged| - 1];
      merged[..|merged| - 1] + [DateRange(last.start, Max(last.end, current.end))]
    else merged + [current]
  }

  /** The result of the merge loop over `s`, taken in the order given. */
  function Merged(s: seq<DateRange>): (r: seq<DateRange>)
    ensures |r| <= |s|
    ensures s != [] ==> r != []
  {
    if s == [] then [] else MergeStep(Merged(s[..|s| - 1]), s[|s| - 1])
  }

  /**
   * `mergeOverlappingRanges`: sorts `ranges` in place by start and merges them
   * one by one into a fresh list.
   */
  method MergeOverlappingRanges(ranges: array<DateRange>) returns (merged: seq<DateRange>)
    modifies ranges
    ensures ranges[..] == SortByStart(old(ranges[..]))
    ensures merged == Merged(ranges[..])
    ensures ranges.Length == 0 ==> merged == []
  {
    if ranges.Length == 0 {
      return [];
    }
    SortRanges(ranges);
    merged := [ranges[0]];
    assert ranges[..1][..0] == [];
    var i := 1;
    while i < ranges.Length
      invariant 1 <= i <= ranges.Length
      invariant merged == Merged(ranges[..i])
    {
      var current := ranges[i];
      var last := merged[|merged| - 1];
      if current.start <= last.end {
        merged := merged[..|merged| - 1] + [DateRange(last.start, Max(last.end, current.end))];
      } else {
        merged := merged + [current];
      }
      assert ranges[..i + 1][..i] == ranges[..i];
      i := i + 1;
    }
    assert ranges[..] == ranges[..ranges.Length];
  }

  /** Each merged range starts after the previous one ends, whatever the input. */
  lemma {:induction false} MergedSeparated(s: seq<DateRange>)
    ensures Separated(Merged(s))
  {
    if s != [] {
      MergedSeparated(s[..|s| - 1]);
    }
  }

  /** Every merged range starts at the start of one of the inputs. */
  lemma {:induction false} MergedStarts(s: seq<DateRange>, r: DateRange)
    requires r in Merged(s)
    ensures exists i :: 0 <= i < |s| && s[i].start == r.start
  {
    var front := s[..|s| - 1];
    var m := Merged(front);
    var x := s[|s| - 1];
    if r == x {
      assert s[|s| - 1].start == r.start;
    } else {
      var q: DateRange :| q in m && q.start == r.start;
      MergedStarts(front, q);
      var i :| 0 <= i < |front| && front[i].start == q.start;
      assert s[i] == front[i];
    }
  }

  /** Sorted input gives merged ranges in order of start. */
  lemma {:induction false} MergedSorted(s: seq<DateRange>)
    requires SortedByStart(s)
    ensures SortedByStart(Merged(s))
  {
    if s != [] {
      var front := s[..|s| - 1];
      assert SortedByStart(front);
      MergedSorted(front);
      var m := Merged(front);
      var x := s[|s| - 1];
      forall q | q in m ensures q.start <= x.start {
        MergedStarts(front, q);
      }
      var r := Merged(s);
      forall i, j | 0 <= i < j < |r| ensures r[i].start <= r[j].start {
        if j == |r| - 1 {
          if |r| == |m| {
            assert r[i] == m[i] && r[j].start == m[j].start;
          } else {
            assert r[i] == m[i] && r[j] == x;
          }
        } else {
          assert r[i] == m[i] && r[j] == m[j];
        }
      }
    }
  }

  /** With sorted input, the merged ranges cover exactly the instants the inputs cover. */
  lemma {:induction false} MergedCovers(s: seq<DateRange>, t: int)
    requires SortedByStart(s)
    ensures Covers(Merged(s), t) <==> Covers(s, t)
  {
    if s != [] {
      var front := s[..|s| - 1];
      var x := s[|s| - 1];
      SortedFront(s);
      MergedCovers(front, t);
      LastMergedStart(s);
      MergeStepCovers(Merged(front), x, t);
      assert s == front + [x];
      MergedSnoc(front, x);
      CoversSnoc(front, x, t);
    }
  }

  /** With sorted input, the last merged range of all but the last input starts no later than it. */
  lemma LastMergedStart(s: seq<DateRange>)
    requires SortedByStart(s) && s != []
    ensures var m := Merged(s[..|s| - 1]); m == [] || m[|m| - 1].start <= s[|s| - 1].start
  {
    var front := s[..|s| - 1];
    var m := Merged(front);
    if m != [] {
      MergedStarts(front, m[|m| - 1]);
    }
  }

  /** A merge step covers what was covered before and what the new range covers. */
  lemma MergeStepCovers(m: seq<DateRange>, x: DateRange, t: int)
    requires m == [] || m[|m| - 1].start <= x.start
    ensures Covers(MergeStep(m, x), t) <==> Covers(m, t) || Within(x, t)
  {
    if m != [] && x.start <= m[|m| - 1].end {
      var last := m[|m| - 1];
      var joined := DateRange(last.start, Max(last.end, x.end));
      assert Within(joined, t) <==> Within(last, t) || Within(x, t);
      CoversSnoc(m[..|m| - 1], joined, t);
      assert m == m[..|m| - 1] + [last];
      CoversSnoc(m[..|m| - 1], last, t);
    } else {
      CoversSnoc(m, x, t);
    }
  }

  /** One more range covers the instants it contains as well. */
  lemma CoversSnoc(s: seq<DateRange>, x: DateRange, t: int)
    ensures Covers(s + [x], t) <==> Covers(s, t) || Within(x, t)
  {
    if Covers(s + [x], t) {
      var q :| q in s + [x] && Within(q, t);
      if q != x { assert q in s; }
    }
    if Covers(s, t) {
      var q :| q in s && Within(q, t);
      assert q in s + [x];
    }
    if Within(x, t) {
      assert x in s + [x];
    }
  }

  /** Merging ranges that run forward never increases the total. */
  lemma {:induction false} MergedTotal(s: seq<DateRange>)
    requires Forward(s)
    ensures Total(Merged(s)) <= Total(s)
  {
    if s != [] {
      var front := s[..|s| - 1];
      var x := s[|s| - 1];
      assert Forward(front);
      MergedTotal(front);
      var m := Merged(front);
      if m != [] && x.start <= m[|m| - 1].end {
        var last := m[|m| - 1];
        assert m == m[..|m| - 1] + [last];
        TotalSnoc(m[..|m| - 1], last);
        TotalSnoc(m[..|m| - 1], DateRange(last.start, Max(last.end, x.end)));
      } else {
        TotalSnoc(m, x);
      }
    }
  }

  /** Ranges that neither overlap nor touch come out of the merge unchanged. */
  lemma {:induction false} MergedSeparatedNoop(s: seq<DateRange>)
    requires Separated(s)
    ensures Merged(s) == s
  {
    if s != [] {
      var front := s[..|s| - 1];
      assert Separated(front);
      MergedSeparatedNoop(front);
      assert s == front + [s[|s| - 1]];
    }
  }

  /** The merge of forward ranges runs forward. */
  lemma {:induction false} MergedForward(s: seq<DateRange>)
    requires Forward(s)
    ensures Forward(Merged(s))
  {
    if s != [] {
      var front := s[..|s| - 1];
      assert Forward(front);
      MergedForward(front);
    }
  }

  /** Forward, separated ranges are pairwise disjoint: every later range starts after every earlier one ends. */
  lemma {:induction false} SeparatedDisjoint(s: seq<DateRange>, i: int, j: int)
    requires Forward(s) && Separated(s)
    requires 0 <= i < j < |s|
    ensures s[i].end < s[j].start
    decreases j - i
  {
    if i + 1 < j {
      SeparatedDisjoint(s, i + 1, j);
    }
  }

  /** Without forward ranges the total can grow: a backward range merged into a forward one. */
  lemma BackwardRangeRaisesTotal()
    ensures Merged([DateRange(0, 10), DateRange(5, 3)]) == [DateRange(0, 10)]
    ensures Total([DateRange(0, 10)]) == 10 && Total([DateRange(0, 10), DateRange(5, 3)]) == 8
  {
    assert [DateRange(0, 10), DateRange(5, 3)][..1] == [DateRange(0, 10)];
    assert [DateRange(0, 10)][..0] == [];
  }

  /** Two ranges apart from each other, one of them backward, still merge once sorted, and the total changes. */
  lemma BackwardApartMerged()
    ensures PairwiseApart([DateRange(4, 10), DateRange(5, 3)])
    ensures Merged(SortByStart([DateRange(4, 10), DateRange(5, 3)])) == [DateRange(4, 10)]
    ensures Total([DateRange(4, 10)]) == 6 && Total([DateRange(4, 10), DateRange(5, 3)]) == 4
  {
    assert [DateRange(4, 10), DateRange(5, 3)][..1] == [DateRange(4, 10)];
    assert [DateRange(4, 10)][..0] == [];
  }

  /** Sorting keeps the ranges, so it keeps the covered instants. */
  lemma SortByStartCovers(s: seq<DateRange>, t: int)
    ensures Covers(SortByStart(s), t) <==> Covers(s, t)
  {
    var r := SortByStart(s);
    SortByStartPermutes(s);
    if Covers(r, t) {
      var q :| q in r && Within(q, t);
      assert q in multiset(r);
    }
    if Covers(s, t) {
      var q :| q in s && Within(q, t);
      assert q in multiset(s);
    }
  }

  /**
   * What `mergeOverlappingRanges` returns for any list of ranges: in order of
   * start, each after the previous one ends, covering the same instants, and,
   * when every range runs forward, pairwise disjoint with a total no larger
   * than the inputs'.
   */
  lemma MergeOverlappingRangesSpec(s: seq<DateRange>)
    ensures var r := Merged(SortByStart(s));
      && SortedByStart(r) && Separated(r)
      && (forall t :: Covers(r, t) <==> Covers(s, t))
      && (Forward(s) ==> Forward(r) && Total(r) <= Total(s) && Total(r) >= 0)
  {
    var sorted := SortByStart(s);
    SortByStartSorted(s);
    MergedSorted(sorted);
    MergedSeparated(sorted);
    forall t ensures Covers(Merged(sorted), t) <==> Covers(s, t) {
      MergedCovers(sorted, t);
      SortByStartCovers(s, t);
    }
    if Forward(s) {
      SortByStartPermutes(s);
      assert Forward(sorted) by {
        forall i | 0 <= i < |sorted| ensures sorted[i].start <= sorted[i].end {
          assert sorted[i] in multiset(s);
        }
      }
      MergedForward(sorted);
      MergedTotal(sorted);
      SortByStartTotal(s);
      TotalNonNegative(Merged(sorted));
    }
  }

  /** Ranges that neither overlap nor touch keep their total through the merge. */
  lemma SeparatedTotalKept(s: seq<DateRange>)
    requires SortedByStart(s) && Separated(s)
    ensures Total(Merged(SortByStart(s))) == Total(s)
  {
    SortByStartSortedNoop(s);
    MergedSeparatedNoop(s);
  }

  /** Two ranges neither overlap nor touch: one ends before the other starts. */
  predicate ApartRanges(x: DateRange, y: DateRange) {
    x.end < y.start || y.end < x.start
  }

  /** No two ranges of `s`, at different positions, overlap or touch; they may come in any order. */
  predicate PairwiseApart(s: seq<DateRange>) {
    forall i, j :: 0 <= i < |s| && 0 <= j < |s| && i != j ==> ApartRanges(s[i], s[j])
  }

  /**
   * Forward ranges that neither overlap nor touch, in any order, keep their
   * total through the sort and the merge.
   */
  lemma ApartTotalKept(s: seq<DateRange>)
    requires Forward(s) && PairwiseApart(s)
    ensures Total(Merged(SortByStart(s))) == Total(s)
  {
    SortApartSeparated(s);
    MergedSeparatedNoop(SortByStart(s));
    SortByStartTotal(s);
  }

  /** Sorting forward ranges that are pairwise apart gives forward, separated ranges. */
  lemma {:induction false} SortApartSeparated(s: seq<DateRange>)
    requires Forward(s) && PairwiseApart(s)
    ensures Forward(SortByStart(s)) && Separated(SortByStart(s))
  {
    if s != [] {
      var front, x := s[..|s| - 1], s[|s| - 1];
      assert PairwiseApart(front) by {
        forall i, j | 0 <= i < |front| && 0 <= j < |front| && i != j ensures ApartRanges(front[i], front[j]) {
          assert front[i] == s[i] && front[j] == s[j];
        }
      }
      SortApartSeparated(front);
      var t := SortByStart(front);
      SortByStartPermutes(front);
      forall z | z in t ensures ApartRanges(x, z) {
        assert z in multiset(front);
        var i :| 0 <= i < |front| && front[i] == z;
        assert s[i] == z;
      }
      InsertApartSeparated(t, x);
    }
  }

  /** Inserting a forward range apart from every range of forward, separated `t` keeps them forward and separated. */
  lemma {:induction false} InsertApartSeparated(t: seq<DateRange>, x: DateRange)
    requires Forward(t) && Separated(t) && x.start <= x.end
    requires forall z :: z in t ==> ApartRanges(x, z)
    ensures Forward(InsertByStart(t, x)) && Separated(InsertByStart(t, x))
    decreases |t|
  {
    if t == [] || t[|t| - 1].start <= x.start {
      assert t != [] ==> t[|t| - 1] in t;
    } else {
      var front, last := t[..|t| - 1], t[|t| - 1];
      assert last in t;
      assert forall z :: z in front ==> z in t;
      InsertApartSeparated(front, x);
      var u := InsertByStart(front, x);
      assert u[|u| - 1] == x || (front != [] && u[|u| - 1] == front[|front| - 1]);
      assert InsertByStart(t, x) == u + [last];
    }
  }

  /** One more range is merged into what the loop has built so far. */
  lemma MergedSnoc(s: seq<DateRange>, r: DateRange)
    ensures Merged(s + [r]) == MergeStep(Merged(s), r)
  {
    assert (s + [r])[..|s|] == s;
  }

  /**
   * A range that starts inside the last merged range and ends after it
   * stretches that range to its own end; the earlier ranges stay as they are.
   */
  lemma MergeIntoLast(s: seq<DateRange>, r: DateRange)
    requires Separated(s) && s != []
    requires r.start <= s[|s| - 1].end <= r.end
    ensures Merged(s + [r]) == s[..|s| - 1] + [DateRange(s[|s| - 1].start, r.end)]
  {
    MergedSeparatedNoop(s);
    MergedSnoc(s, r);
    StretchLast(s, r);
  }

  /** The merge step that stretches the last range to the end of `r`. */
  lemma StretchLast(s: seq<DateRange>, r: DateRange)
    requires s != [] && r.start <= s[|s| - 1].end <= r.end
    ensures MergeStep(s, r) == s[..|s| - 1] + [DateRange(s[|s| - 1].start, r.end)]
  {
  }
}
