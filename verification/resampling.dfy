/** The bootstrap's outcome in full: which task fills each slot of each resample, and which
    order statistics the interval reports. */
module Resampling {
  import opened Wrappers
  import opened Samples
  import opened HeldoutDesign
  import opened Bootstrap
  import Text

  // ---- Order statistics -----------------------------------------------------------------------------

  function CountBelow(xs: seq<real>, v: real): nat {
    if xs == [] then 0 else (if xs[0] < v then 1 else 0) + CountBelow(xs[1..], v)
  }

  function CountUpTo(xs: seq<real>, v: real): nat {
    if xs == [] then 0 else (if xs[0] <= v then 1 else 0) + CountUpTo(xs[1..], v)
  }

  /** Of the values, in whatever order, this is the one of rank `k`, counted from 0. */
  ghost predicate OfRank(xs: seq<real>, k: nat, v: real) {
    v in xs && CountBelow(xs, v) <= k < CountUpTo(xs, v)
  }

  lemma {:induction false} InsertCounts(x: real, xs: seq<real>, v: real)
    ensures CountBelow(Samples.Insert(x, xs), v) == CountBelow(xs, v) + if x < v then 1 else 0
    ensures CountUpTo(Samples.Insert(x, xs), v) == CountUpTo(xs, v) + if x <= v then 1 else 0
  {
    var r := Samples.Insert(x, xs);
    if xs != [] && xs[0] < x {
      InsertCounts(x, xs[1..], v);
      assert r[1..] == Samples.Insert(x, xs[1..]);
    } else {
      assert r == [x] + xs && r[1..] == xs;
    }
  }

  lemma {:induction false} SortedCounts(xs: seq<real>, v: real)
    ensures CountBelow(Sorted(xs), v) == CountBelow(xs, v) && CountUpTo(Sorted(xs), v) == CountUpTo(xs, v)
  {
    if xs != [] {
      SortedCounts(xs[1..], v);
      InsertCounts(xs[0], Sorted(xs[1..]), v);
    }
  }

  lemma {:induction false} AscendingCounts(xs: seq<real>, k: nat)
    requires Ascending(xs) && k < |xs|
    ensures CountBelow(xs, xs[k]) <= k < CountUpTo(xs, xs[k])
  {
    var v, rest := xs[k], xs[1..];
    assert xs[0] <= v;
    if k > 0 {
      assert Ascending(rest) && rest[k - 1] == v;
      AscendingCounts(rest, k - 1);
    } else {
      NoneBelow(xs, v);
    }
  }

  lemma {:induction false} NoneBelow(xs: seq<real>, v: real)
    requires forall i | 0 <= i < |xs| :: v <= xs[i]
    ensures CountBelow(xs, v) == 0
  {
    if xs != [] {
      NoneBelow(xs[1..], v);
    }
  }

  lemma SortedRank(xs: seq<real>, k: nat)
    requires k < |xs|
    ensures k < |Sorted(xs)| && OfRank(xs, k, Sorted(xs)[k])
  {
    SortedAscending(xs);
    AscendingCounts(Sorted(xs), k);
    SortedCounts(xs, Sorted(xs)[k]);
    assert Sorted(xs)[k] in multiset(xs);
  }

  /** The 2.5% and 97.5% positions as whole numbers. */
  lemma Positions(n: nat)
    requires n > 0
    ensures Position(n, 0.025).Floor == (n - 1) / 40 && Position(n, 0.975).Floor == 39 * (n - 1) / 40
  {
    var m, k, l := n - 1, (n - 1) / 40, 39 * (n - 1) / 40;
    FortiethFloor(m, k, Position(n, 0.025));
    FortiethFloor(39 * m, l, Position(n, 0.975));
  }

  lemma FortiethFloor(m: nat, k: nat, x: real)
    requires k == m / 40 && x * 40.0 == m as real
    ensures x.Floor == k
  {
    assert 40 * k <= m < 40 * k + 40;
    assert (40 * k) as real == 40.0 * k as real;
    assert k as real <= x < k as real + 1.0;
  }

  // ---- Slots ----------------------------------------------------------------------------------------------

  /** The slots of one resample: each cell has as many as tasks, and offers them all in each. */
  function SlotsOf(cells: seq<Cell>): seq<seq<string>> {
    if cells == [] then []
    else
      var last := cells[|cells| - 1];
      SlotsOf(cells[..|cells| - 1]) + seq(|last.ids|, _ => last.ids)
  }

  lemma {:induction false} SlotsFit(cells: seq<Cell>)
    requires NonemptyCells(cells)
    ensures |SlotsOf(cells)| == Size(cells)
    ensures forall j | 0 <= j < |SlotsOf(cells)| :: SlotsOf(cells)[j] != []
  {
    if cells != [] {
      SlotsFit(cells[..|cells| - 1]);
    }
  }

  lemma {:induction false} DrawsAt(
      ids: seq<string>, deltas: map<string, real>, stream: nat -> nat, base: nat, n: nat, j: nat)
    requires ids != [] && j < n
    ensures Draws(ids, deltas, stream, base, n)[j] == DeltaOf(deltas, ids[stream(base + j) % |ids|])
  {
    if j < n - 1 {
      DrawsAt(ids, deltas, stream, base, n - 1, j);
    }
  }

  /** Slot `j` of a resample holds the delta of the task its own random number picks. */
  lemma {:induction false} ResampleAt(
      cells: seq<Cell>, deltas: map<string, real>, stream: nat -> nat, base: nat, j: nat)
    requires NonemptyCells(cells) && j < Size(cells)
    ensures |SlotsOf(cells)| == Size(cells) && SlotsOf(cells)[j] != []
    ensures Resample(cells, deltas, stream, base)[j]
         == DeltaOf(deltas, SlotsOf(cells)[j][stream(base + j) % |SlotsOf(cells)[j]|])
  {
    SlotsFit(cells);
    var init, last := cells[..|cells| - 1], cells[|cells| - 1];
    SlotsFit(init);
    if j < Size(init) {
      ResampleAt(init, deltas, stream, base, j);
    } else {
      DrawsAt(last.ids, deltas, stream, base + Size(init), |last.ids|, j - Size(init));
    }
    hide Draws, DeltaOf;
  }

  lemma {:induction false} DrawnIs(cells: seq<Cell>, n: nat)
    ensures Drawn(cells, n) == n * Size(cells)
  {
    if n > 0 {
      DrawnIs(cells, n - 1);
      assert n * Size(cells) == (n - 1) * Size(cells) + Size(cells);
    }
  }

  /** Resample `i` of `n` slots starts after `i * n` numbers; slot `j` takes its own. */
  function DrawIndex(i: nat, j: nat, n: nat): nat {
    assert i * n >= 0;
    i * n + j
  }

  /** The values of resample `i`: each slot takes its own number. */
  function Values(slots: seq<seq<string>>, deltas: map<string, real>, stream: nat -> nat, i: nat): seq<real>
    requires forall j | 0 <= j < |slots| :: slots[j] != []
  {
    seq(|slots|, j requires 0 <= j < |slots| =>
      DeltaOf(deltas, slots[j][stream(DrawIndex(i, j, |slots|)) % |slots[j]|]))
  }

  lemma ResampleIs(cells: seq<Cell>, deltas: map<string, real>, stream: nat -> nat, i: nat)
    requires NonemptyCells(cells)
    ensures |SlotsOf(cells)| == Size(cells) && forall j | 0 <= j < |SlotsOf(cells)| :: SlotsOf(cells)[j] != []
    ensures Resample(cells, deltas, stream, Drawn(cells, i)) == Values(SlotsOf(cells), deltas, stream, i)
  {
    SlotsFit(cells);
    DrawnIs(cells, i);
    var values, resample := Values(SlotsOf(cells), deltas, stream, i), Resample(cells, deltas, stream, Drawn(cells, i));
    var base := i * |SlotsOf(cells)|;
    assert Drawn(cells, i) == base;
    hide Size, SlotsOf, Resample, DeltaOf, NonemptyCells, Drawn;
    forall j | 0 <= j < Size(cells)
      ensures resample[j] == values[j]
    {
      ResampleAt(cells, deltas, stream, base, j);
      assert DrawIndex(i, j, |SlotsOf(cells)|) == base + j;
    }
    assert values == resample;
  }

  lemma {:induction false} MeansAt(cells: seq<Cell>, deltas: map<string, real>, stream: nat -> nat, n: nat, i: nat)
    requires NonemptyCells(cells) && Size(cells) > 0 && i < n
    ensures |SlotsOf(cells)| == Size(cells) && forall j | 0 <= j < |SlotsOf(cells)| :: SlotsOf(cells)[j] != []
    ensures Means(cells, deltas, stream, n)[i] == Mean(Values(SlotsOf(cells), deltas, stream, i))
  {
    hide Size, SlotsOf, Resample, Values, NonemptyCells, Drawn, Mean;
    ResampleIs(cells, deltas, stream, i);
    if i < n - 1 {
      MeansAt(cells, deltas, stream, n - 1, i);
    }
  }

  /** Whatever tasks are chosen, one for each slot of each resample, some stream of random
      numbers chooses them. */
  lemma EveryChoiceOccurs(slots: seq<seq<string>>, choice: (nat, nat) -> nat) returns (stream: nat -> nat)
    requires slots != [] && forall i, j | 0 <= j < |slots| :: choice(i, j) < |slots[j]|
    ensures forall j | 0 <= j < |slots| :: slots[j] != []
    ensures forall i: nat, j: nat | j < |slots| ::
      slots[j][stream(DrawIndex(i, j, |slots|)) % |slots[j]|] == slots[j][choice(i, j)]
  {
    stream := Choosing(choice, |slots|);
    forall j | 0 <= j < |slots|
      ensures slots[j] != []
    {
      assert choice(0, j) < |slots[j]|;
    }
    hide DrawIndex, Choosing;
    forall i: nat, j: nat | j < |slots|
      ensures slots[j][stream(DrawIndex(i, j, |slots|)) % |slots[j]|] == slots[j][choice(i, j)]
    {
      ChoosesAt(choice, |slots|, i, j);
      SmallModulus(choice(i, j), |slots[j]|);
    }
  }

  lemma SmallModulus(k: nat, n: nat)
    requires k < n
    ensures k % n == k
  {
  }

  /** The stream that makes these choices, `n` a resample. */
  function Choosing(choice: (nat, nat) -> nat, n: nat): nat -> nat
    requires n > 0
  {
    (k: nat) => choice(k / n, k % n)
  }

  lemma ChoosesAt(choice: (nat, nat) -> nat, n: nat, i: nat, j: nat)
    requires j < n
    ensures Choosing(choice, n)(DrawIndex(i, j, n)) == choice(i, j)
  {
    DividesBack(i, j, n);
  }

  lemma DividesBack(i: nat, j: nat, n: nat)
    requires j < n
    ensures 0 <= i * n + j && (i * n + j) / n == i && (i * n + j) % n == j
  {
    var k := i * n + j;
    assert 0 <= i * n;
    assert k / n * n + k % n == k;
    QuotientUnique(k / n, i, k % n, j, n);
  }

  lemma QuotientUnique(q: int, i: int, r: int, j: int, n: int)
    requires q * n + r == i * n + j && 0 <= r < n && 0 <= j < n
    ensures q == i && r == j
  {
    assert (q - i) * n == j - r && (i - q) * n == r - j;
    NoMultiple(q - i, n);
    NoMultiple(i - q, n);
  }

  lemma NoMultiple(d: int, n: int)
    requires d * n < n && n > 0
    ensures d <= 0
  {
    assert d * n >= n || d <= 0;
  }

  // ---- Cells ------------------------------------------------------------------------------------------------

  /** The stratum and language of a task: those of the last entry with its identifier. */
  ghost predicate Stratum(tasks: seq<TaskMeta>, id: string, meta: (string, string)) {
    exists i | 0 <= i < |tasks| ::
      && tasks[i].id == id && meta == (tasks[i].stratum, tasks[i].language)
      && forall j | i < j < |tasks| :: tasks[j].id != id
  }

  /** The task has no metadata. */
  ghost predicate Unplaced(tasks: seq<TaskMeta>, id: string) {
    forall meta :: !Stratum(tasks, id, meta)
  }

  lemma {:induction false} MetaExactly(tasks: seq<TaskMeta>, id: string, meta: (string, string))
    ensures MetaOf(tasks, id) == Some(meta) <==> Stratum(tasks, id, meta)
  {
    if tasks != [] {
      var init, last := tasks[..|tasks| - 1], tasks[|tasks| - 1];
      MetaExactly(init, id, meta);
      assert forall i | 0 <= i < |init| :: init[i] == tasks[i];
      if last.id != id {
        if Stratum(init, id, meta) {
          var i :| 0 <= i < |init| && init[i].id == id && meta == (init[i].stratum, init[i].language)
            && forall j | i < j < |init| :: init[j].id != id;
          assert forall j | i < j < |tasks| :: tasks[j].id != id;
          assert tasks[i].id == id;
        }
      }
    }
  }

  /** The identifiers of one stratum and language, in order. */
  function Sharing(tasks: seq<TaskMeta>, ids: seq<string>, meta: (string, string)): seq<string> {
    if ids == [] then []
    else
      var init, last := ids[..|ids| - 1], ids[|ids| - 1];
      if MetaOf(tasks, last) == Some(meta) then Sharing(tasks, init, meta) + [last] else Sharing(tasks, init, meta)
  }

  /** One cell for each stratum and language that occurs, with its identifiers in order. */
  ghost predicate Partition(tasks: seq<TaskMeta>, ids: seq<string>, cells: seq<Cell>) {
    && (forall i, j | 0 <= i < j < |cells| ::
          (cells[i].stratum, cells[i].language) != (cells[j].stratum, cells[j].language))
    && (forall i | 0 <= i < |cells| ::
          cells[i].ids != [] && cells[i].ids == Sharing(tasks, ids, (cells[i].stratum, cells[i].language)))
    && (forall id | id in ids :: exists i | 0 <= i < |cells| :: id in cells[i].ids)
  }

  lemma {:induction false} PlacePartition(cells: seq<Cell>, meta: (string, string), id: string)
    requires forall i, j | 0 <= i < j < |cells| ::
      (cells[i].stratum, cells[i].language) != (cells[j].stratum, cells[j].language)
    ensures var placed := Place(cells, meta, id);
      && |cells| <= |placed|
      && (forall i | 0 <= i < |cells| :: placed[i] ==
            if (cells[i].stratum, cells[i].language) == meta then cells[i].(ids := cells[i].ids + [id]) else cells[i])
      && (if exists i | 0 <= i < |cells| :: (cells[i].stratum, cells[i].language) == meta then |placed| == |cells|
          else |placed| == |cells| + 1 && placed[|cells|] == Cell(meta.0, meta.1, [id]))
  {
    if cells != [] && (cells[0].stratum, cells[0].language) != meta {
      var rest := cells[1..];
      assert forall i | 0 <= i < |rest| :: rest[i] == cells[i + 1];
      PlacePartition(rest, meta, id);
      var placed := Place(cells, meta, id);
      assert forall i | 0 < i < |placed| :: placed[i] == Place(rest, meta, id)[i - 1];
      assert forall i | 0 < i < |cells| :: cells[i] == rest[i - 1];
    }
  }

  lemma {:induction false} SharingMembers(tasks: seq<TaskMeta>, ids: seq<string>, meta: (string, string), id: string)
    ensures id in Sharing(tasks, ids, meta) <==> id in ids && MetaOf(tasks, id) == Some(meta)
  {
    if ids != [] {
      SharingMembers(tasks, ids[..|ids| - 1], meta, id);
      assert ids == ids[..|ids| - 1] + [ids[|ids| - 1]];
      hide MetaOf;
    }
  }

  lemma NoCellYet(tasks: seq<TaskMeta>, ids: seq<string>, cells: seq<Cell>, meta: (string, string))
    requires Partition(tasks, ids, cells)
    requires forall i | 0 <= i < |cells| :: (cells[i].stratum, cells[i].language) != meta
    ensures Sharing(tasks, ids, meta) == []
  {
    var shared := Sharing(tasks, ids, meta);
    if shared != [] {
      var id := shared[0];
      SharingMembers(tasks, ids, meta, id);
      var i :| 0 <= i < |cells| && id in cells[i].ids;
      SharingMembers(tasks, ids, (cells[i].stratum, cells[i].language), id);
    }
    hide MetaOf, Sharing;
  }

  lemma SharingNext(tasks: seq<TaskMeta>, ids: seq<string>, meta: (string, string), id: string, other: (string, string))
    requires MetaOf(tasks, id) == Some(meta)
    ensures Sharing(tasks, ids + [id], other) == Sharing(tasks, ids, other) + if other == meta then [id] else []
  {
    assert (ids + [id])[..|ids|] == ids;
    hide MetaOf;
  }

  /** Where a task is placed: in the cell of its key, or in a new one at the end. */
  ghost predicate Placed(cells: seq<Cell>, meta: (string, string), id: string, placed: seq<Cell>) {
    && |cells| <= |placed| <= |cells| + 1
    && (forall i | 0 <= i < |cells| :: placed[i] ==
          if (cells[i].stratum, cells[i].language) == meta then cells[i].(ids := cells[i].ids + [id]) else cells[i])
    && (|placed| == |cells| <==> exists i | 0 <= i < |cells| :: (cells[i].stratum, cells[i].language) == meta)
    && (|placed| > |cells| ==> placed[|cells|] == Cell(meta.0, meta.1, [id]))
  }

  lemma PlacedKeys(tasks: seq<TaskMeta>, ids: seq<string>, cells: seq<Cell>, meta: (string, string), id: string,
                   placed: seq<Cell>)
    requires Partition(tasks, ids, cells) && Placed(cells, meta, id, placed)
    ensures forall i, j | 0 <= i < j < |placed| ::
      (placed[i].stratum, placed[i].language) != (placed[j].stratum, placed[j].language)
  {
    hide Sharing;
  }

  lemma PlacedIds(tasks: seq<TaskMeta>, ids: seq<string>, cells: seq<Cell>, meta: (string, string), id: string,
                  placed: seq<Cell>, i: nat)
    requires Partition(tasks, ids, cells) && Placed(cells, meta, id, placed) && MetaOf(tasks, id) == Some(meta)
    requires i < |placed|
    ensures placed[i].ids != []
    ensures placed[i].ids == Sharing(tasks, ids + [id], (placed[i].stratum, placed[i].language))
  {
    hide MetaOf, Sharing;
    SharingNext(tasks, ids, meta, id, (placed[i].stratum, placed[i].language));
    if i == |cells| {
      NoCellYet(tasks, ids, cells, meta);
    }
  }

  lemma PlacedCovers(tasks: seq<TaskMeta>, ids: seq<string>, cells: seq<Cell>, meta: (string, string), id: string,
                     placed: seq<Cell>, other: string)
    requires Partition(tasks, ids, cells) && Placed(cells, meta, id, placed) && other in ids + [id]
    ensures exists i | 0 <= i < |placed| :: other in placed[i].ids
  {
    hide Sharing;
    if other in ids {
      var i :| 0 <= i < |cells| && other in cells[i].ids;
      assert other in placed[i].ids;
    } else if |placed| > |cells| {
      assert placed[|cells|].ids[0] == other;
    } else {
      var i :| 0 <= i < |cells| && (cells[i].stratum, cells[i].language) == meta;
      assert placed[i].ids[|cells[i].ids|] == other;
    }
  }

  lemma PartitionNext(tasks: seq<TaskMeta>, ids: seq<string>, cells: seq<Cell>, meta: (string, string), id: string)
    requires Partition(tasks, ids, cells) && MetaOf(tasks, id) == Some(meta)
    ensures Partition(tasks, ids + [id], Place(cells, meta, id))
  {
    var placed := Place(cells, meta, id);
    PlacePartition(cells, meta, id);
    assert Placed(cells, meta, id, placed);
    hide MetaOf, Sharing, Place, Placed;
    PlacedKeys(tasks, ids, cells, meta, id, placed);
    forall i | 0 <= i < |placed|
      ensures placed[i].ids != []
      ensures placed[i].ids == Sharing(tasks, ids + [id], (placed[i].stratum, placed[i].language))
    {
      PlacedIds(tasks, ids, cells, meta, id, placed, i);
    }
    forall other | other in ids + [id]
      ensures exists i | 0 <= i < |placed| :: other in placed[i].ids
    {
      PlacedCovers(tasks, ids, cells, meta, id, placed, other);
    }
  }

  /** The cells partition the tasks by stratum and language, keeping their order. */
  lemma {:induction false} CellsExactly(tasks: seq<TaskMeta>, ids: seq<string>)
    requires forall id | id in ids :: MetaOf(tasks, id) != None
    ensures Partition(tasks, ids, Stratify(tasks, ids))
  {
    if ids != [] {
      var init, last := ids[..|ids| - 1], ids[|ids| - 1];
      assert ids == init + [last];
      CellsExactly(tasks, init);
      hide Partition, MetaOf, Place;
      PartitionNext(tasks, init, Stratify(tasks, init), MetaOf(tasks, last).value, last);
    }
  }

  // ---- The outcome ----------------------------------------------------------------------------------------------

  /** The reported interval: of the resampled means, each the average of what its slots drew,
      the one of rank (n-1)/40 and the one of rank 39(n-1)/40, rounded down. */
  ghost predicate ReportsResamples(cells: seq<Cell>, deltas: map<string, real>, stream: nat -> nat, n: nat, r: Report) {
    var slots := SlotsOf(cells);
    && slots != [] && (forall j | 0 <= j < |slots| :: slots[j] != [])
    && exists means: seq<real> | |means| == n && n > 0 ::
         && (forall i | 0 <= i < n :: means[i] == Mean(Values(slots, deltas, stream, i)))
         && OfRank(means, (n - 1) / 40, r.ciLow) && OfRank(means, 39 * (n - 1) / 40, r.ciHigh)
  }

  lemma IntervalExactly(cells: seq<Cell>, ids: seq<string>, deltas: map<string, real>, stream: nat -> nat, n: nat)
    requires NonemptyCells(cells) && Size(cells) > 0 && n > 0 && ids != []
    ensures var r := Interval(cells, ids, deltas, stream, n);
      ReportsResamples(cells, deltas, stream, n, r) && r.delta == Mean(Listed(ids, deltas))
  {
    var means := Means(cells, deltas, stream, n);
    SlotsFit(cells);
    Positions(n);
    SortedAscending(means);
    hide Means, Mean, SlotsOf, Size, Values, NonemptyCells, OfRank, Position;
    forall i | 0 <= i < n
      ensures means[i] == Mean(Values(SlotsOf(cells), deltas, stream, i))
    {
      MeansAt(cells, deltas, stream, n, i);
    }
    SortedRank(means, (n - 1) / 40);
    SortedRank(means, 39 * (n - 1) / 40);
  }

  /** The bootstrap for every random stream: it fails exactly when the task sets differ, a
      task has no metadata, or there are no tasks; otherwise it reports the resamples of the
      cells that stratum and language cut out, and the mean of the task deltas. */
  lemma OutcomeExactly(tasks: seq<TaskMeta>, full: seq<Row>, condition: seq<Row>, n: nat, stream: nat -> nat)
    requires n > 0
    ensures var r, ids := Outcome(tasks, full, condition, n, stream), SortedTasks(full);
      && (r.Failure? <==>
            || (exists id :: id in TasksOf(full) <==> id !in TasksOf(condition))
            || (exists id | id in ids :: Unplaced(tasks, id))
            || ids == [])
      && (r.Success? ==> exists cells | Partition(tasks, ids, cells) ::
            ReportsResamples(cells, Deltas(full, condition), stream, n, r.value)
            && r.value.delta == Mean(Listed(ids, Deltas(full, condition))))
  {
    OutcomeFails(tasks, full, condition, n, stream);
    if Outcome(tasks, full, condition, n, stream).Success? {
      OutcomeReports(tasks, full, condition, n, stream);
    }
    hide *;
  }

  lemma OutcomeFails(tasks: seq<TaskMeta>, full: seq<Row>, condition: seq<Row>, n: nat, stream: nat -> nat)
    requires n > 0
    ensures var r, ids := Outcome(tasks, full, condition, n, stream), SortedTasks(full);
      r.Failure? <==>
        || (exists id :: id in TasksOf(full) <==> id !in TasksOf(condition))
        || (exists id | id in ids :: Unplaced(tasks, id))
        || ids == []
  {
    OutcomeCases(tasks, full, condition, n, stream);
    SameTasks(TasksOf(full), TasksOf(condition));
    forall id | id in SortedTasks(full)
      ensures MetaOf(tasks, id) == None <==> Unplaced(tasks, id)
    {
      NoStratum(tasks, id);
    }
    hide *;
  }

  lemma OutcomeCases(tasks: seq<TaskMeta>, full: seq<Row>, condition: seq<Row>, n: nat, stream: nat -> nat)
    requires n > 0
    ensures Outcome(tasks, full, condition, n, stream).Failure? <==>
      || Text.Elements(TasksOf(full)) != Text.Elements(TasksOf(condition))
      || (exists id | id in SortedTasks(full) :: MetaOf(tasks, id) == None)
      || SortedTasks(full) == []
  {
    hide MetaOf, Deltas, Stratify, Interval, Size, NonemptyCells, SortedTasks;
  }

  lemma OutcomeReports(tasks: seq<TaskMeta>, full: seq<Row>, condition: seq<Row>, n: nat, stream: nat -> nat)
    requires n > 0 && Outcome(tasks, full, condition, n, stream).Success?
    ensures var r, ids := Outcome(tasks, full, condition, n, stream).value, SortedTasks(full);
      exists cells | Partition(tasks, ids, cells) ::
        ReportsResamples(cells, Deltas(full, condition), stream, n, r)
        && r.delta == Mean(Listed(ids, Deltas(full, condition)))
  {
    var ids := SortedTasks(full);
    assert ids != [] && forall id | id in ids :: MetaOf(tasks, id) != None;
    StratifyFacts(tasks, ids);
    hide MetaOf, Deltas, Stratify, Interval, Partition, ReportsResamples, Size, NonemptyCells, Mean, Listed;
    hide SortedTasks;
    CellsExactly(tasks, ids);
    IntervalExactly(Stratify(tasks, ids), ids, Deltas(full, condition), stream, n);
  }

  lemma SameTasks(a: seq<string>, b: seq<string>)
    ensures Text.Elements(a) != Text.Elements(b) <==> exists id :: id in a <==> id !in b
  {
    if forall id :: id in a <==> id in b {
      assert Text.Elements(a) == Text.Elements(b);
    } else {
      var id :| id in a <==> id !in b;
      assert id in Text.Elements(a) <==> id !in Text.Elements(b);
    }
  }

  lemma NoStratum(tasks: seq<TaskMeta>, id: string)
    ensures MetaOf(tasks, id) == None <==> Unplaced(tasks, id)
  {
    forall meta
      ensures MetaOf(tasks, id) == Some(meta) <==> Stratum(tasks, id, meta)
    {
      MetaExactly(tasks, id, meta);
    }
    hide MetaOf, Stratum;
    if MetaOf(tasks, id).Some? {
      assert Stratum(tasks, id, MetaOf(tasks, id).value);
    }
  }
}
