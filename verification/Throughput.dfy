/** Batched throughput: task groups, padded batches, and check groups around reference samples. */
module Throughput {
  import opened Wrappers

  function Concat<T>(lists: seq<seq<T>>): seq<T> {
    if lists == [] then [] else Concat(lists[..|lists| - 1]) + lists[|lists| - 1]
  }

  lemma ConcatMore<T>(lists: seq<seq<T>>, list: seq<T>)
    ensures Concat(lists + [list]) == Concat(lists) + list
  {
    assert (lists + [list])[..|lists|] == lists;
  }

  /** The indices from `lo` up to `hi`. */
  function Range(lo: nat, hi: nat): (r: seq<nat>)
    requires lo <= hi
    ensures |r| == hi - lo && forall k :: 0 <= k < |r| ==> r[k] == lo + k
  {
    seq(hi - lo, k requires 0 <= k => lo + k)
  }

  lemma RangeMore(lo: nat, mid: nat, hi: nat)
    requires lo <= mid <= hi
    ensures Range(lo, mid) + Range(mid, hi) == Range(lo, hi)
  {
  }

  // ---- task groups ----

  /** All indices of a group carry one task. */
  predicate OneTask<M(==)>(group: seq<nat>, tasks: seq<M>) {
    && group != [] && group[0] < |tasks|
    && forall k :: 0 <= k < |group| ==> group[k] < |tasks| && tasks[group[k]] == tasks[group[0]]
  }

  /** The groups are the maximal runs of equal tasks, in dataset order. */
  ghost predicate AreGroups<M>(groups: seq<seq<nat>>, tasks: seq<M>, n: nat)
    requires n <= |tasks|
  {
    && Concat(groups) == Range(0, n)
    && (forall g :: 0 <= g < |groups| ==> OneTask(groups[g], tasks))
    && (forall g :: 0 <= g < |groups| - 1 ==> tasks[groups[g][0]] != tasks[groups[g + 1][0]])
  }

  /** The end of the run of equal tasks that starts at `start`. */
  method RunEnd<M(==)>(tasks: seq<M>, start: nat) returns (end: nat)
    requires start < |tasks|
    ensures start < end <= |tasks| && (forall k :: start <= k < end ==> tasks[k] == tasks[start])
    ensures end < |tasks| ==> tasks[end] != tasks[start]
  {
    end := start + 1;
    while end < |tasks| && tasks[end] == tasks[start]
      invariant start < end <= |tasks| && forall k :: start <= k < end ==> tasks[k] == tasks[start]
    {
      end := end + 1;
    }
  }

  lemma RunIsTask<M>(tasks: seq<M>, start: nat, end: nat)
    requires start < end <= |tasks| && forall k :: start <= k < end ==> tasks[k] == tasks[start]
    ensures OneTask(Range(start, end), tasks) && Range(start, end)[0] == start
  {
  }

  lemma GroupsMore<M>(groups: seq<seq<nat>>, tasks: seq<M>, start: nat, end: nat, group: seq<nat>)
    requires start < end <= |tasks| && AreGroups(groups, tasks, start)
    requires OneTask(group, tasks) && group[0] == start && Range(0, start) + group == Range(0, end)
    requires groups != [] ==> tasks[groups[|groups| - 1][0]] != tasks[start]
    ensures AreGroups(groups + [group], tasks, end)
  {
    ConcatMore(groups, group);
  }

  method TaskGroups<M(==)>(tasks: seq<M>) returns (groups: seq<seq<nat>>)
    ensures AreGroups(groups, tasks, |tasks|)
  {
    groups := [];
    var start := 0;
    while start < |tasks|
      invariant start <= |tasks| && AreGroups(groups, tasks, start)
      invariant groups != [] && start < |tasks| ==> tasks[groups[|groups| - 1][0]] != tasks[start]
    {
      var end := RunEnd(tasks, start);
      RunIsTask(tasks, start, end);
      RangeMore(0, start, end);
      GroupsMore(groups, tasks, start, end, Range(start, end));
      groups, start := groups + [Range(start, end)], end;
    }
  }

  // ---- batches ----

  /** The batches of the first groups: single-task, nonempty, no larger than the batch size. */
  ghost predicate AreBatches<M>(rows: seq<seq<nat>>, tasks: seq<M>, size: nat) {
    forall r :: 0 <= r < |rows| ==> 1 <= |rows[r]| <= size && OneTask(rows[r], tasks)
  }

  lemma SubTask<M>(group: seq<nat>, tasks: seq<M>, lo: nat, hi: nat)
    requires OneTask(group, tasks) && lo < hi <= |group|
    ensures OneTask(group[lo..hi], tasks)
  {
    assert tasks[group[lo]] == tasks[group[0]];
  }

  lemma SliceMore<T>(list: seq<T>, lo: nat, hi: nat)
    requires lo <= hi <= |list|
    ensures list[..lo] + list[lo..hi] == list[..hi]
  {
  }

  /** Cuts one group into batches; only the last may be short. */
  method BatchGroup<M(==)>(group: seq<nat>, tasks: seq<M>, size: nat) returns (rows: seq<seq<nat>>)
    requires size >= 1 && OneTask(group, tasks)
    ensures Concat(rows) == group && AreBatches(rows, tasks, size)
    ensures forall r :: 0 <= r < |rows| - 1 ==> |rows[r]| == size
  {
    rows := [];
    var start := 0;
    while start < |group|
      invariant start <= |group| && Concat(rows) == group[..start] && AreBatches(rows, tasks, size)
      invariant forall r :: 0 <= r < |rows| ==> |rows[r]| == size || (r == |rows| - 1 && start == |group|)
    {
      var end := if start + size <= |group| then start + size else |group|;
      SubTask(group, tasks, start, end);
      ConcatMore(rows, group[start..end]);
      SliceMore(group, start, end);
      rows, start := rows + [group[start..end]], end;
    }
    assert group[..|group|] == group;
  }

  lemma {:induction false} ConcatAppend<T>(a: seq<seq<T>>, b: seq<seq<T>>)
    ensures Concat(a + b) == Concat(a) + Concat(b)
    decreases |b|
  {
    if b == [] {
      assert a + b == a;
    } else {
      ConcatAppend(a, b[..|b| - 1]);
      assert a + b == (a + b[..|b| - 1]) + [b[|b| - 1]];
      ConcatMore(a + b[..|b| - 1], b[|b| - 1]);
    }
  }

  /** A row short of the batch size is the last one, or the next row has another task. */
  ghost predicate ShortAtChange<M>(rows: seq<seq<nat>>, tasks: seq<M>, size: nat) {
    AreBatches(rows, tasks, size)
    && forall r :: 0 <= r < |rows| - 1 ==> |rows[r]| == size || tasks[rows[r][0]] != tasks[rows[r + 1][0]]
  }

  /** The last row has the task of the group. */
  ghost predicate EndsWithTask<M>(rows: seq<seq<nat>>, tasks: seq<M>, group: seq<nat>) {
    && rows != [] && OneTask(rows[|rows| - 1], tasks) && OneTask(group, tasks)
    && tasks[rows[|rows| - 1][0]] == tasks[group[0]]
  }

  /** The row runs through consecutive samples of one task from `start` on. */
  ghost predicate RunsFrom<M>(row: seq<nat>, start: nat, tasks: seq<M>) {
    && start + |row| <= |tasks|
    && forall k :: 0 <= k < |row| ==> row[k] == start + k && tasks[row[k]] == tasks[start]
  }

  /** Where row `r` starts when the rows are laid end to end. */
  ghost function StartOf<T>(rows: seq<seq<T>>, r: nat): nat
    requires r <= |rows|
  {
    if r == 0 then 0 else StartOf(rows, r - 1) + |rows[r - 1]|
  }

  /** The rows take all samples in turn, none empty or too large, and none short but the last unless
      the task changes. */
  ghost predicate InTurn<M>(rows: seq<seq<nat>>, tasks: seq<M>, size: nat) {
    && StartOf(rows, |rows|) == |tasks|
    && (forall r :: 0 <= r < |rows| ==> 1 <= |rows[r]| <= size && RunsFrom(rows[r], StartOf(rows, r), tasks))
    && forall r :: 0 <= r < |rows| - 1 ==> |rows[r]| == size || TaskChanges(rows, r, tasks)
  }

  ghost predicate TaskChanges<M>(rows: seq<seq<nat>>, r: nat, tasks: seq<M>)
    requires r < |rows|
  {
    StartOf(rows, r) < |tasks| && StartOf(rows, r + 1) < |tasks|
    && tasks[StartOf(rows, r)] != tasks[StartOf(rows, r + 1)]
  }

  lemma {:induction false} StartPrefix<T>(rows: seq<seq<T>>, n: nat, r: nat)
    requires r <= n <= |rows|
    ensures StartOf(rows[..n], r) == StartOf(rows, r)
  {
    if r > 0 {
      StartPrefix(rows, n, r - 1);
    }
  }

  lemma {:induction false} StartIsLength<T>(rows: seq<seq<T>>)
    ensures StartOf(rows, |rows|) == |Concat(rows)|
  {
    if rows != [] {
      StartIsLength(rows[..|rows| - 1]);
      StartPrefix(rows, |rows| - 1, |rows| - 1);
    }
  }

  /** Laid end to end, row `r` is found where it starts. */
  lemma {:induction false} PieceOf<T>(rows: seq<seq<T>>, r: nat)
    requires r < |rows|
    ensures StartOf(rows, r) + |rows[r]| <= |Concat(rows)|
    ensures forall k :: 0 <= k < |rows[r]| ==> Concat(rows)[StartOf(rows, r) + k] == rows[r][k]
    decreases |rows|
  {
    var n := |rows| - 1;
    StartPrefix(rows, n, r);
    StartIsLength(rows[..n]);
    if r < n {
      PieceOf(rows[..n], r);
    }
  }

  lemma RowTask<M>(group: seq<nat>, rows: seq<seq<nat>>, tasks: seq<M>, r: nat)
    requires OneTask(group, tasks) && Concat(rows) == group && r < |rows| && OneTask(rows[r], tasks)
    ensures tasks[rows[r][0]] == tasks[group[0]]
  {
    PieceOf(rows, r);
    assert group[StartOf(rows, r) + 0] == rows[r][0];
  }

  lemma GroupRows<M>(group: seq<nat>, rows: seq<seq<nat>>, tasks: seq<M>)
    requires OneTask(group, tasks) && Concat(rows) == group
             && forall r :: 0 <= r < |rows| ==> OneTask(rows[r], tasks)
    ensures EndsWithTask(rows, tasks, group) && OneTask(rows[0], tasks) && tasks[rows[0][0]] == tasks[group[0]]
  {
    RowTask(group, rows, tasks, 0);
    RowTask(group, rows, tasks, |rows| - 1);
  }

  lemma ShortMore<M>(rows: seq<seq<nat>>, more: seq<seq<nat>>, tasks: seq<M>, size: nat)
    requires ShortAtChange(rows, tasks, size) && AreBatches(more, tasks, size) && more != []
    requires forall r :: 0 <= r < |more| - 1 ==> |more[r]| == size
    requires rows != [] ==> tasks[rows[|rows| - 1][0]] != tasks[more[0][0]]
    ensures ShortAtChange(rows + more, tasks, size)
  {
  }

  lemma RowsInTurn<M>(rows: seq<seq<nat>>, tasks: seq<M>, size: nat)
    requires Concat(rows) == Range(0, |tasks|) && ShortAtChange(rows, tasks, size)
    ensures InTurn(rows, tasks, size)
  {
    StartIsLength(rows);
    forall r | 0 <= r < |rows| ensures RunsFrom(rows[r], StartOf(rows, r), tasks) && rows[r][0] == StartOf(rows, r) {
      PieceOf(rows, r);
      forall k | 0 <= k < |rows[r]| ensures rows[r][k] == StartOf(rows, r) + k {
        assert Concat(rows)[StartOf(rows, r) + k] == rows[r][k];
      }
      assert OneTask(rows[r], tasks);
    }
    forall r | 0 <= r < |rows| - 1 && |rows[r]| != size ensures TaskChanges(rows, r, tasks) {
      assert rows[r + 1][0] == StartOf(rows, r + 1);
    }
  }

  /** The measured rows: every sample exactly once, in dataset order, one task per batch. */
  method MeasuredRows<M(==)>(tasks: seq<M>, size: nat) returns (rows: seq<seq<nat>>)
    requires size >= 1
    ensures Concat(rows) == Range(0, |tasks|) && AreBatches(rows, tasks, size)
    ensures InTurn(rows, tasks, size)
  {
    var groups := TaskGroups(tasks);
    rows := [];
    for g := 0 to |groups|
      invariant Concat(rows) == Concat(groups[..g]) && AreBatches(rows, tasks, size)
      invariant ShortAtChange(rows, tasks, size)
      invariant if g == 0 then rows == [] else EndsWithTask(rows, tasks, groups[g - 1])
    {
      var more := BatchGroup(groups[g], tasks, size);
      GroupRows(groups[g], more, tasks);
      ShortMore(rows, more, tasks, size);
      ConcatAppend(rows, more);
      TakeMore(groups, g);
      ConcatMore(groups[..g], groups[g]);
      rows := rows + more;
    }
    assert groups[..|groups|] == groups;
    RowsInTurn(rows, tasks, size);
  }

  function Observations(rows: seq<seq<nat>>): nat {
    if rows == [] then 0 else Observations(rows[..|rows| - 1]) + |rows[|rows| - 1]|
  }

  lemma {:induction false} ConcatLength(rows: seq<seq<nat>>)
    ensures |Concat(rows)| == Observations(rows)
  {
    if rows != [] {
      ConcatLength(rows[..|rows| - 1]);
    }
  }

  /** Counting the samples of every row, and no padding, gives the size of the dataset. */
  lemma MeasurementComplete(rows: seq<seq<nat>>, n: nat)
    requires Concat(rows) == Range(0, n)
    ensures Observations(rows) == n
  {
    ConcatLength(rows);
  }

  // ---- padding ----

  /** What one observation brings: its token count and its rows under one input key. */
  datatype Prepared<R> = Prepared(tokens: nat, rows: seq<R>)

  function Padded<T>(items: seq<T>, size: nat): (r: seq<T>)
    requires items != []
    ensures |r| == if |items| < size then size else |items|
    decreases size - |items|
  {
    if |items| < size then Padded(items + [items[|items| - 1]], size) else items
  }

  lemma {:induction false} PaddedKeeps<T>(items: seq<T>, size: nat)
    requires items != []
    ensures items <= Padded(items, size)
    ensures forall k :: |items| <= k < |Padded(items, size)| ==> Padded(items, size)[k] == items[|items| - 1]
    decreases size - |items|
  {
    if |items| < size {
      PaddedKeeps(items + [items[|items| - 1]], size);
    }
  }

  function RowsOf<R>(items: seq<Prepared<R>>): (r: seq<seq<R>>)
    ensures |r| == |items| && forall k :: 0 <= k < |r| ==> r[k] == items[k].rows
  {
    seq(|items|, k requires 0 <= k < |items| => items[k].rows)
  }

  /** Pads with the last observation, refuses unequal token counts and concatenates the rows. */
  method Collate<R>(prepared: seq<Prepared<R>>, size: nat) returns (r: Option<seq<R>>)
    requires prepared != []
    ensures r.Some? <==> forall k :: 0 <= k < |prepared| ==> prepared[k].tokens == prepared[0].tokens
    ensures r.Some? ==> r.value == Concat(RowsOf(Padded(prepared, size)))
  {
    var batches := prepared;
    while |batches| < size
      invariant batches != [] && Padded(batches, size) == Padded(prepared, size)
      invariant |prepared| <= |batches|
                && forall k :: 0 <= k < |batches| ==>
                     batches[k] == prepared[if k < |prepared| then k else |prepared| - 1]
    {
      batches := batches + [batches[|batches| - 1]];
    }
    if exists k :: 0 <= k < |batches| && batches[k].tokens != batches[0].tokens {
      return None;
    }
    assert forall k :: 0 <= k < |prepared| ==> batches[k] == prepared[k];
    return Some(Concat(RowsOf(batches)));
  }

  // ---- check groups ----

  method IndexOf(group: seq<nat>, index: nat) returns (at: nat)
    requires index in group
    ensures at < |group| && group[at] == index && forall k :: 0 <= k < at ==> group[k] != index
  {
    at := 0;
    while group[at] != index
      invariant at < |group| && forall k :: 0 <= k < at ==> group[k] != index
      decreases |group| - at
    {
      assert exists k :: 0 <= k < |group| && group[k] == index;
      at := at + 1;
    }
  }

  lemma WrapsTo(at: int, slot: int, n: int)
    requires 0 <= at < n
    ensures (at - slot + slot) % n == at
  {
  }

  /** The samples batched with a reference sample: it sits at its slot, and all others are of its
      group, taken cyclically from place `at` of the reference. */
  ghost predicate Around(indices: seq<nat>, slot: nat, at: nat, group: seq<nat>, index: nat, ordinal: nat, size: nat) {
    && size >= 1 && slot == ordinal % size && slot < size == |indices|
    && at < |group| && group[at] == index && indices[slot] == index
    && forall k :: 0 <= k < size ==> indices[k] == group[(at - slot + k) % |group|]
  }

  /** Forms the batch around a reference sample. */
  method CheckGroup(group: seq<nat>, index: nat, ordinal: nat, size: nat)
    returns (slot: nat, indices: seq<nat>, ghost at: nat)
    requires index in group && size >= 1
    ensures slot == ordinal % size && |indices| == size && indices[slot] == index
    ensures forall k :: 0 <= k < size ==> indices[k] in group
    ensures Around(indices, slot, at, group, index, ordinal, size)
  {
    slot := ordinal % size;
    var found := IndexOf(group, index);
    at := found;
    var start := found - slot;
    indices := [];
    for offset := 0 to size
      invariant |indices| == offset && forall k :: 0 <= k < offset ==> indices[k] == group[(start + k) % |group|]
    {
      indices := indices + [group[(start + offset) % |group|]];
    }
    WrapsTo(at, slot, |group|);
  }

  // ---- slicing one observation out of the batch ----

  ghost predicate EqualRows<R>(items: seq<seq<R>>, rows: nat) {
    forall k :: 0 <= k < |items| ==> |items[k]| == rows
  }

  lemma {:induction false} EqualLength<R>(items: seq<seq<R>>, rows: nat)
    requires EqualRows(items, rows)
    ensures |Concat(items)| == |items| * rows
  {
    if items != [] {
      EqualLength(items[..|items| - 1], rows);
      assert |items| * rows == (|items| - 1) * rows + rows;
    }
  }

  /** With equal rows per observation the slice at `slot * rows` is observation `slot`, and the
      batch has the layout the check demands. */
  lemma {:induction false} SliceIsObservation<R>(items: seq<seq<R>>, rows: nat, slot: nat)
    requires EqualRows(items, rows) && slot < |items|
    ensures |Concat(items)| == |items| * rows && slot * rows + rows <= |Concat(items)|
    ensures Concat(items)[slot * rows..slot * rows + rows] == items[slot]
  {
    EqualLength(items, rows);
    var rest, last := items[..|items| - 1], items[|items| - 1];
    EqualLength(rest, rows);
    if slot == |items| - 1 {
      assert slot * rows == |Concat(rest)|;
    } else {
      SliceIsObservation(rest, rows, slot);
      assert Concat(items)[slot * rows..slot * rows + rows] == Concat(rest)[slot * rows..slot * rows + rows];
    }
  }

  /** So the check finds the reference's own rows: prepare and batch the samples around it, and
      slice at its slot, as many rows as its own preparation has. */
  lemma ReferenceRecovered<R>(group: seq<nat>, index: nat, ordinal: nat, size: nat, slot: nat, indices: seq<nat>,
                              at: nat,
                              prepare: nat -> Prepared<R>, prepared: seq<Prepared<R>>)
    requires Around(indices, slot, at, group, index, ordinal, size)
    requires |prepared| == |indices| && forall k :: 0 <= k < |prepared| ==> prepared[k] == prepare(indices[k])
    requires forall k :: 0 <= k < |group| ==> |prepare(group[k]).rows| == |prepare(index).rows|
    ensures var batch, rows := Concat(RowsOf(Padded(prepared, size))), |prepare(index).rows|;
            && |batch| == size * rows && slot * rows + rows <= |batch|
            && batch[slot * rows..slot * rows + rows] == prepare(index).rows
  {
    var rows := |prepare(index).rows|;
    forall k | 0 <= k < size ensures |prepared[k].rows| == rows {
      assert indices[k] == group[(at - slot + k) % |group|];
    }
    SliceIsObservation(RowsOf(prepared), rows, slot);
  }
}
