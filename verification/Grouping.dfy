/**
 Grouping text units into chunks under two limits, and the optimality of the greedy grouping.
 */
module Grouping {
  import opened Sequences
  import opened Rendering
  import opened SheetUnits

  datatype RawLimits = Limits(
    maxChars: nat, rowsPerChunk: nat, maxChunks: nat, maxPages: nat, maxSheets: nat, maxRows: nat, maxCells: nat)

  type Limits = l: RawLimits |
      && 32 <= l.maxChars && 1 <= l.rowsPerChunk && 1 <= l.maxChunks && 1 <= l.maxPages && 1 <= l.maxSheets
      && 1 <= l.maxRows && 1 <= l.maxCells
    witness Limits(2000, 25, 5000, 1000, 100, 100000, 500000)

  function Contents(units: seq<Unit>): (r: seq<string>)
    ensures |r| == |units| && forall i :: 0 <= i < |r| ==> r[i] == units[i].content
  {
    seq(|units|, i requires 0 <= i < |units| => units[i].content)
  }

  /** The text of a chunk. */
  function Text(units: seq<Unit>): string {
    Join(Contents(units), '\n')
  }

  function Rows(units: seq<Unit>): set<nat> {
    set i | 0 <= i < |units| :: units[i].row
  }

  /** The units may share a chunk. */
  predicate Feasible(units: seq<Unit>, limits: Limits) {
    |Text(units)| <= limits.maxChars && |Rows(units)| <= limits.rowsPerChunk
  }

  /** How far the chunk that starts with the first `n` units extends. */
  function Extent(units: seq<Unit>, limits: Limits, n: nat): (m: nat)
    requires n <= |units|
    ensures n <= m <= |units|
    ensures forall k :: n < k <= m ==> Feasible(units[..k], limits)
    ensures m < |units| ==> !Feasible(units[..m + 1], limits)
    decreases |units| - n
  {
    if n < |units| && Feasible(units[..n + 1], limits) then Extent(units, limits, n + 1) else n
  }

  /** Greedy grouping: every chunk takes as many of the remaining units as it may. */
  function Greedy(units: seq<Unit>, limits: Limits): seq<seq<Unit>>
    decreases |units|
  {
    if units == [] then []
    else
      var m := Extent(units, limits, 1);
      [units[..m]] + Greedy(units[m..], limits)
  }

  /** A division of the units into contiguous, non-empty chunks within the limits. */
  ghost predicate Division(groups: seq<seq<Unit>>, units: seq<Unit>, limits: Limits) {
    && Flatten(groups) == units
    && forall i :: 0 <= i < |groups| ==> groups[i] != [] && Feasible(groups[i], limits)
  }

  // ---------------------------------------------------------------- feasibility is inherited

  lemma {:induction false} JoinGrows(parts: seq<string>, n: nat)
    requires n <= |parts|
    ensures |Join(parts[..n], '\n')| <= |Join(parts, '\n')|
    ensures |Join(parts[n..], '\n')| <= |Join(parts, '\n')|
  {
    if n == 0 {
      assert parts[n..] == parts;
    } else if n == |parts| {
      assert parts[..n] == parts;
    } else {
      assert parts == parts[..n] + parts[n..];
      JoinConcat(parts[..n], parts[n..], '\n');
    }
  }

  lemma RowsShrink(units: seq<Unit>, i: nat, j: nat)
    requires i <= j <= |units|
    ensures |Rows(units[i..j])| <= |Rows(units)|
  {
    var part := units[i..j];
    forall r | r in Rows(part) ensures r in Rows(units) {
      var k :| 0 <= k < |part| && part[k].row == r;
      assert units[i + k].row == r;
    }
    SubsetSize(Rows(part), Rows(units));
  }

  lemma SubsetSize(a: set<nat>, b: set<nat>)
    requires a <= b
    ensures |a| <= |b|
  {
    assert b == a + (b - a);
    assert |a + (b - a)| == |a| + |b - a|;
  }

  /** Any run of neighbours out of a feasible chunk is feasible. */
  lemma FeasibleInherited(units: seq<Unit>, limits: Limits, i: nat, j: nat)
    requires Feasible(units, limits) && i <= j <= |units|
    ensures Feasible(units[i..j], limits)
  {
    var all := Contents(units);
    assert Contents(units[i..j]) == all[i..j];
    JoinGrows(all, j);
    JoinGrows(all[..j], i);
    assert all[..j][i..] == all[i..j];
    RowsShrink(units, i, j);
  }

  // ---------------------------------------------------------------- what greedy grouping gives

  lemma {:induction false} GreedyProperties(units: seq<Unit>, limits: Limits)
    requires forall i :: 0 <= i < |units| ==> |units[i].content| <= limits.maxChars
    ensures Division(Greedy(units, limits), units, limits)
    decreases |units|
  {
    hide Feasible;
    if units != [] {
      var m := Extent(units, limits, 1);
      GreedyProperties(units[m..], limits);
      var rest := Greedy(units[m..], limits);
      assert ([units[..m]] + rest)[1..] == rest;
      assert units == units[..m] + units[m..];
      SingleFeasible(units[0], limits);
      assert units[..1] == [units[0]];
    }
  }

  lemma SingleFeasible(u: Unit, limits: Limits)
    requires |u.content| <= limits.maxChars
    ensures Feasible([u], limits)
  {
    assert Contents([u]) == [u.content];
    assert Rows([u]) == {u.row} by {
      assert [u][0].row == u.row;
    }
  }

  lemma {:induction false} FlattenHead(groups: seq<seq<Unit>>, units: seq<Unit>)
    requires groups != [] && Flatten(groups) == units
    ensures |groups[0]| <= |units| && units[..|groups[0]|] == groups[0] && units[|groups[0]|..] == Flatten(groups[1..])
  {
  }

  lemma {:induction false} ExtentReaches(units: seq<Unit>, limits: Limits, n: nat)
    requires 1 <= n <= |units| && forall j :: 1 < j <= n ==> Feasible(units[..j], limits)
    ensures Extent(units, limits, 1) >= n
  {
    hide Feasible;
  }

  /**
   Greedy stays ahead: started anywhere in a sequence that some division covers, it needs no more chunks than the
   whole division has.
   */
  lemma {:induction false} GreedyAhead(groups: seq<seq<Unit>>, units: seq<Unit>, limits: Limits, k: nat)
    requires Division(groups, units, limits) && k <= |units|
    ensures |Greedy(units[k..], limits)| <= |groups|
    decreases |groups|, |units| - k
  {
    hide Feasible;
    var rest := units[k..];
    if rest != [] {
      assert groups != [];
      FlattenHead(groups, units);
      var n := |groups[0]|;
      var tail := units[n..];
      assert Division(groups[1..], tail, limits);
      if k >= n {
        assert tail[k - n..] == rest;
        GreedyAhead(groups[1..], tail, limits, k - n);
      } else {
        var m := Extent(rest, limits, 1);
        forall j | 1 < j <= n - k ensures Feasible(rest[..j], limits) {
          FeasibleInherited(groups[0], limits, k, k + j);
          assert groups[0][k..k + j] == rest[..j];
        }
        ExtentReaches(rest, limits, n - k);
        assert rest[m..] == tail[k + m - n..];
        GreedyAhead(groups[1..], tail, limits, k + m - n);
      }
    }
  }

  /** No division into chunks within the limits has fewer chunks than the greedy one. */
  lemma {:induction false} GreedyOptimal(units: seq<Unit>, limits: Limits, groups: seq<seq<Unit>>)
    requires Division(groups, units, limits)
    ensures |Greedy(units, limits)| <= |groups|
  {
    assert units[0..] == units;
    GreedyAhead(groups, units, limits, 0);
  }

  // ---------------------------------------------------------------- the loop

  datatype Chunk = Chunk(content: string, rowStart: nat, rowEnd: nat, cellStart: string, cellEnd: string)

  function ChunkOf(group: seq<Unit>): Chunk
    requires group != []
  {
    var first, last := group[0], group[|group| - 1];
    Chunk(Text(group), first.row, last.row, first.cellStart, last.cellEnd)
  }

  /** The grouping loop, one unit at a time, with the rows of the current chunk in a set. */
  method GroupUnits(units: seq<Unit>, limits: Limits) returns (groups: seq<seq<Unit>>)
    ensures groups == Greedy(units, limits)
    ensures forall i :: 0 <= i < |groups| ==> groups[i] != []
  {
    hide Text, Rows, Feasible, Resumed, Greedy, Extent;
    groups := [];
    var current: seq<Unit> := [];
    var rows: set<nat> := {};
    ResumedStart(units, limits);
    for i := 0 to |units|
      invariant rows == Rows(current)
      invariant current == [] ==> i == 0
      invariant forall j :: 0 <= j < |groups| ==> groups[j] != []
      invariant Greedy(units, limits) == groups + Resumed(current, units[i..], limits)
    {
      var unit := units[i];
      FeasibleMeans(current, unit, limits);
      TailStep(units, i);
      assert [] + [unit] == [units[i..][0]];
      if current != [] && !(|Text(current + [unit])| <= limits.maxChars && |rows + {unit.row}| <= limits.rowsPerChunk) {
        ResumedStops(current, units[i..], limits);
        assert groups + ([current] + Greedy(units[i..], limits)) == groups + [current] + Greedy(units[i..], limits);
        groups := groups + [current];
        current := [];
        rows := {};
        NoRows();
        StartGroup(units[i..], limits);
      } else if current != [] {
        ResumedGoesOn(current, units[i..], limits);
      } else {
        StartGroup(units[i..], limits);
      }
      RowsAppend(current, unit);
      current := current + [unit];
      rows := rows + {unit.row};
    }
    ResumedEnd(current, limits);
    assert units[|units|..] == [];
    if current != [] {
      groups := groups + [current];
    }
  }

  lemma NoRows()
    ensures Rows([]) == {}
  {
  }

  lemma {:induction false} ResumedStart(units: seq<Unit>, limits: Limits)
    ensures Greedy(units, limits) == [] + Resumed([], units[0..], limits) && Rows([]) == {}
  {
    assert units[0..] == units;
  }

  lemma ResumedEnd(current: seq<Unit>, limits: Limits)
    ensures Resumed(current, [], limits) == if current == [] then [] else [current]
  {
    assert current + [] == current;
  }

  lemma FeasibleMeans(current: seq<Unit>, unit: Unit, limits: Limits)
    ensures Feasible(current + [unit], limits) <==>
            |Text(current + [unit])| <= limits.maxChars && |Rows(current) + {unit.row}| <= limits.rowsPerChunk
  {
    RowsAppend(current, unit);
  }

  /** The groups still to come when a chunk already holds `current` and `rest` follows. */
  function Resumed(current: seq<Unit>, rest: seq<Unit>, limits: Limits): seq<seq<Unit>> {
    if current == [] then Greedy(rest, limits)
    else
      var all := current + rest;
      var m := Extent(all, limits, |current|);
      [all[..m]] + Greedy(all[m..], limits)
  }

  lemma RowsAppend(current: seq<Unit>, unit: Unit)
    ensures Rows(current + [unit]) == Rows(current) + {unit.row}
  {
    var all := current + [unit];
    forall r | r in Rows(current) + {unit.row} ensures r in Rows(all) {
      if r == unit.row {
        assert all[|current|].row == r;
      } else {
        var k :| 0 <= k < |current| && current[k].row == r;
        assert all[k].row == r;
      }
    }
    forall r | r in Rows(all) ensures r in Rows(current) + {unit.row} {
      var k :| 0 <= k < |all| && all[k].row == r;
      if k < |current| { assert current[k].row == r; }
    }
  }

  lemma TailStep(units: seq<Unit>, i: nat)
    requires i < |units|
    ensures units[i..] == [units[i]] + units[i + 1..] && units[i..][1..] == units[i + 1..]
  {
  }

  /** The next unit does not fit: the chunk is complete. */
  lemma {:induction false} ResumedStops(current: seq<Unit>, rest: seq<Unit>, limits: Limits)
    requires current != [] && rest != [] && !Feasible(current + [rest[0]], limits)
    ensures Resumed(current, rest, limits) == [current] + Greedy(rest, limits)
  {
    hide Feasible;
    var all := current + rest;
    assert all[..|current| + 1] == current + [rest[0]];
    assert all[..|current|] == current && all[|current|..] == rest;
  }

  /** The next unit fits: the chunk goes on with it. */
  lemma ResumedGoesOn(current: seq<Unit>, rest: seq<Unit>, limits: Limits)
    requires current != [] && rest != [] && Feasible(current + [rest[0]], limits)
    ensures Resumed(current, rest, limits) == Resumed(current + [rest[0]], rest[1..], limits)
  {
    hide Feasible;
    var all := current + rest;
    assert all[..|current| + 1] == current + [rest[0]];
    assert current + [rest[0]] + rest[1..] == all;
  }

  /** A new chunk always takes its first unit. */
  lemma {:induction false} StartGroup(rest: seq<Unit>, limits: Limits)
    requires rest != []
    ensures Greedy(rest, limits) == Resumed([rest[0]], rest[1..], limits)
    ensures Resumed([], rest, limits) == Resumed([rest[0]], rest[1..], limits)
  {
    hide Feasible;
    assert [rest[0]] + rest[1..] == rest;
  }
}
